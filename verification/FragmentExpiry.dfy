/** Reassembly slots are given up in time: not before the time they were taken until, and always after it. */
module FragmentExpiry {
  import opened Common
  import opened Fragments
  import opened Datagrams
  import Asm = AssemblerList

  /** The keys being reassembled, and until when: as given with the first fragment. */
  type Deadlines<!K> = map<K, int>

  ghost function DeadlinesAfter<K(!new)>(growable: bool, r: Run<K>, d: Deadlines<K>, op: Op<K>): Deadlines<K>
    requires SetOk(r.slots, r.pending)
  {
    match op
    case Expire(now) => map k | k in d && now <= d[k] :: d[k]
    case Use(key, expiresAt, _) =>
      var answer := Answered(growable, r, op);
      if Get(r.slots, key, expiresAt).None? then d
      else if answer.Some? && answer.value.Packet? then d - {key}
      else if key in d then d
      else d[key := expiresAt]
  }

  /** A slot is in use exactly for these keys, each until its deadline. */
  ghost predicate InTime<K(!new)>(slots: seq<Slot<K>>, d: Deadlines<K>) {
    && (forall i :: 0 <= i < |slots| && slots[i].key.Some? ==>
          slots[i].key.value in d && d[slots[i].key.value] == slots[i].expiresAt)
    && (forall k :: k in d ==> Held(slots, k))
  }

  lemma ExpireInTime<K(!new)>(growable: bool, r: Run<K>, d: Deadlines<K>, now: int)
    requires SetOk(r.slots, r.pending) && InTime(r.slots, d)
    ensures InTime(RemoveExpired(r.slots, now), DeadlinesAfter(growable, r, d, Expire(now)))
  {
    hide OneOk, SetOk, Held, Emptied;
    var slots', d' := RemoveExpired(r.slots, now), DeadlinesAfter(growable, r, d, Expire(now));
    forall i | 0 <= i < |slots'| && slots'[i].key.Some?
      ensures slots'[i].key.value in d' && d'[slots'[i].key.value] == slots'[i].expiresAt
    {
      ExpireKeeps(r.slots, now, i);
    }
    forall k | k in d'
      ensures Held(slots', k)
    {
      assert Held(r.slots, k);
      HeldLater(r.slots, now, k, d[k]);
    }
  }

  lemma ExpireKeeps<K>(slots: seq<Slot<K>>, now: int, i: nat)
    requires i < |slots| && RemoveExpired(slots, now)[i].key.Some?
    ensures RemoveExpired(slots, now)[i] == slots[i] && now <= slots[i].expiresAt
  {
  }

  lemma HeldLater<K(!new)>(slots: seq<Slot<K>>, now: int, k: K, deadline: int)
    requires Held(slots, k) && now <= deadline
    requires forall i :: 0 <= i < |slots| && slots[i].key == Some(k) ==> slots[i].expiresAt == deadline
    ensures Held(RemoveExpired(slots, now), k)
  {
    var j :| 0 <= j < |slots| && slots[j].key == Some(k);
    assert RemoveExpired(slots, now)[j].key == Some(k);
  }

  /** Taking the slot for a key: what was held stays, and a new key gets the time given. */
  lemma TakenInTime<K(!new)>(r: Run<K>, d: Deadlines<K>, key: K, expiresAt: int)
    requires SetOk(r.slots, r.pending) && InTime(r.slots, d) && Get(r.slots, key, expiresAt).Some?
    ensures var (taken, i) := Get(r.slots, key, expiresAt).value;
      && taken[i].key == Some(key) && DistinctKeys(taken) && (key in d <==> r.slots[i].key.Some?)
      && InTime(taken, if key in d then d else d[key := expiresAt])
  {
    hide OneOk, FindFrom;
    GetOk(r.slots, r.pending, key, expiresAt);
    var (taken, i) := Get(r.slots, key, expiresAt).value;
    var d' := if key in d then d else d[key := expiresAt];
    assert key in d ==> Held(r.slots, key);
    forall k | k in d'
      ensures Held(taken, k)
    {
      if k == key {
        assert taken[i].key == Some(k);
      } else {
        assert Held(r.slots, k);
        var j :| 0 <= j < |r.slots| && r.slots[j].key == Some(k);
        assert taken[j].key == Some(k);
      }
    }
  }

  lemma ReplacedInTime<K(!new)>(slots: seq<Slot<K>>, d: Deadlines<K>, i: nat, s: Slot<K>)
    requires InTime(slots, d) && i < |slots| && s.key == slots[i].key && s.expiresAt == slots[i].expiresAt
    ensures InTime(slots[i := s], d)
  {
    forall k | k in d
      ensures Held(slots[i := s], k)
    {
      assert Held(slots, k);
      var j :| 0 <= j < |slots| && slots[j].key == Some(k);
      assert slots[i := s][j].key == Some(k);
    }
  }

  lemma ReleasedInTime<K(!new)>(slots: seq<Slot<K>>, d: Deadlines<K>, i: nat, key: K)
    requires InTime(slots, d) && DistinctKeys(slots) && i < |slots| && slots[i].key == Some(key)
    ensures InTime(slots[i := Emptied(slots[i])], d - {key})
  {
    var slots' := slots[i := Emptied(slots[i])];
    forall k | k in d - {key}
      ensures Held(slots', k)
    {
      assert Held(slots, k);
      var j :| 0 <= j < |slots| && slots[j].key == Some(k);
      assert slots'[j].key == Some(k);
    }
  }

  lemma UseInTime<K(!new)>(growable: bool, r: Run<K>, d: Deadlines<K>, key: K, expiresAt: int, a: Action)
    requires SetOk(r.slots, r.pending) && InTime(r.slots, d)
    ensures var op := Use(key, expiresAt, a);
      InTime(Next(growable, r, op).slots, DeadlinesAfter(growable, r, d, op))
  {
    hide SetOk, InTime, Act, Find, DistinctKeys, StepMap;
    SizesOk(r.slots, r.pending);
    if Get(r.slots, key, expiresAt).Some? {
      TakenInTime(r, d, key, expiresAt);
      GetOk(r.slots, r.pending, key, expiresAt);
      var (taken, i) := Get(r.slots, key, expiresAt).value;
      var d' := if key in d then d else d[key := expiresAt];
      TakenOk(taken, r.pending[key := Known(r.pending, key)], i, key);
      if Fits(taken[i], a) {
        ActOk(growable, taken[i], Known(r.pending, key), a);
        var (s, answer) := Act(growable, taken[i], a);
        if answer.Packet? {
          PacketReleases(growable, taken[i], a);
          ReleasedInTime(taken, d', i, key);
          assert d' - {key} == d - {key};
        } else {
          ReplacedInTime(taken, d', i, s);
        }
      }
    }
  }

  lemma StepInTime<K(!new)>(growable: bool, r: Run<K>, d: Deadlines<K>, op: Op<K>)
    requires SetOk(r.slots, r.pending) && InTime(r.slots, d)
    ensures InTime(Next(growable, r, op).slots, DeadlinesAfter(growable, r, d, op))
  {
    hide SetOk, InTime, DeadlinesAfter, StepMap;
    SizesOk(r.slots, r.pending);
    match op
    case Expire(now) => ExpireInTime(growable, r, d, now);
    case Use(key, expiresAt, a) => UseInTime(growable, r, d, key, expiresAt, a);
  }

  ghost function DeadlinesIn<K(!new)>(growable: bool, r: Run<K>, d: Deadlines<K>, ops: seq<Op<K>>): Deadlines<K>
    requires SetOk(r.slots, r.pending)
    decreases |ops|
  {
    if ops == [] then d
    else DeadlinesIn(growable, Next(growable, r, ops[0]), DeadlinesAfter(growable, r, d, ops[0]), ops[1..])
  }

  lemma {:induction false} RunInTime<K(!new)>(growable: bool, r: Run<K>, d: Deadlines<K>, ops: seq<Op<K>>)
    requires SetOk(r.slots, r.pending) && InTime(r.slots, d)
    ensures InTime(After(growable, r, ops).slots, DeadlinesIn(growable, r, d, ops))
    decreases |ops|
  {
    hide InTime, DeadlinesAfter, Next, SetOk;
    if ops != [] {
      StepInTime(growable, r, d, ops[0]);
      RunInTime(growable, Next(growable, r, ops[0]), DeadlinesAfter(growable, r, d, ops[0]), ops[1..]);
    }
  }

  /**
   Over every run: after `remove_expired` at a time, a slot is held exactly for each key whose packet has not come out
   and whose time, as given with its first fragment, had not passed at any `remove_expired` since. Later fragments do
   not put it off.
   */
  lemma HeldUntilDeadline<K(!new)>(growable: bool, slots: seq<Slot<K>>, ops: seq<Op<K>>, now: int, k: K)
    requires AllFree(slots)
    ensures SetOk(slots, map[])
    ensures var r, d := After(growable, Run(slots, map[]), ops), DeadlinesIn(growable, Run(slots, map[]), map[], ops);
      && (Held(r.slots, k) <==> k in d)
      && (Held(RemoveExpired(r.slots, now), k) <==> k in d && now <= d[k])
  {
    hide After, DeadlinesIn, SetOk;
    FreeOk(slots);
    RunInTime(growable, Run(slots, map[]), map[], ops);
    var r, d := After(growable, Run(slots, map[]), ops), DeadlinesIn(growable, Run(slots, map[]), map[], ops);
    ExpireInTime(growable, r, d, now);
  }

  // ---- what is refused, and what stays ----

  /**
   A size is taken exactly if none was announced before or the same, and a buffer that cannot grow has room for it; a
   fragment exactly if such a buffer has room for it. What is refused changes nothing.
   */
  lemma RefusesExactly<K>(growable: bool, s: Slot<K>, size: nat, data: seq<Byte>, offset: nat)
    requires s.totalSize.Some? ==> s.totalSize.value <= |s.buffer|
    ensures var (r, answer) := Act(growable, s, SetTotal(size));
      && (answer.Done? <==> (s.totalSize.None? || s.totalSize == Some(size)) && (growable || size <= |s.buffer|))
      && (if answer.Done? then r.totalSize == Some(size) else r == s)
    ensures var (r, answer) := Act(growable, s, Add(data, offset));
      (answer.Done? <==> growable || offset + |data| <= |s.buffer|) && (!answer.Done? ==> r == s)
  {
  }

  /** Once announced, the size of a packet stays for as long as its slot is held. */
  lemma SizeStays<K(!new)>(growable: bool, r: Run<K>, op: Op<K>, i: nat)
    requires SetOk(r.slots, r.pending) && i < |r.slots| && r.slots[i].key.Some? && r.slots[i].totalSize.Some?
    ensures var s, s' := r.slots[i], Next(growable, r, op).slots[i];
      s'.key.None? || (s'.key == s.key && s'.totalSize == s.totalSize && s'.expiresAt == s.expiresAt)
  {
    hide SetOk, StepMap, FindFrom, Asm.Add, Asm.PeekFront;
    SizesOk(r.slots, r.pending);
  }
}
