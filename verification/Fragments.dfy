/**
 Reassembly of fragmented packets: a fixed number of slots, each holding the fragments of one packet in a
 buffer that is reused without being cleared.
 */
module Fragments {
  import opened Common
  import Asm = AssemblerList

  /** One `PacketAssembler`. */
  datatype Slot<K> = Slot(
    key: Option<K>,
    buffer: seq<Byte>,
    assembler: Asm.Contigs,
    totalSize: Option<nat>,
    expiresAt: int)

  function Emptied<K>(s: Slot<K>): Slot<K> {
    s.(key := None, assembler := Asm.Nil, totalSize := None, expiresAt := 0)
  }

  /** Grown with zeros to `size`, as `Vec::resize` does. */
  function Resized(b: seq<Byte>, size: nat): (r: seq<Byte>)
    ensures b <= r && |r| == MaxOf(|b|, size)
  {
    if |b| < size then b + seq(size - |b|, _ => 0) else b
  }

  /** What a caller may do with the slot it got. `AddWith` is given what its closure writes and answers. */
  datatype Action =
    | SetTotal(size: nat)
    | Add(data: seq<Byte>, offset: nat)
    | AddWith(data: seq<Byte>, offset: nat, ok: bool)
    | Assemble

  datatype Answer = Done | Failed | Packet(data: seq<Byte>) | Incomplete

  predicate IsComplete<K>(s: Slot<K>) {
    s.totalSize == Some(Asm.PeekFront(s.assembler))
  }

  /** The closure of `AddWith` cannot write past the end of the buffer. */
  predicate Fits<K>(s: Slot<K>, a: Action) {
    a.AddWith? && a.offset <= |s.buffer| ==> a.offset + |a.data| <= |s.buffer|
  }

  /** Bytes written whether or not the assembler can record them; its refusal is not reported. */
  function Received<K>(s: Slot<K>, offset: nat, data: seq<Byte>): Slot<K>
    requires offset + |data| <= |s.buffer|
  {
    var added := Asm.Add(s.assembler, offset, |data|);
    s.(buffer := Splice(s.buffer, offset, data),
       assembler := if added.None? then s.assembler else added.value)
  }

  /** `growable` is whether the buffer is a vector or a fixed array. */
  function Act<K>(growable: bool, s: Slot<K>, a: Action): (Slot<K>, Answer)
    requires Fits(s, a) && (s.totalSize.Some? ==> s.totalSize.value <= |s.buffer|)
  {
    match a
    case SetTotal(size) =>
      if s.totalSize.Some? && s.totalSize.value != size then (s, Failed)
      else if !growable && |s.buffer| < size then (s, Failed)
      else (s.(buffer := Resized(s.buffer, size), totalSize := Some(size)), Done)
    case Add(data, offset) =>
      if !growable && |s.buffer| < offset + |data| then (s, Failed)
      else (Received(s.(buffer := Resized(s.buffer, offset + |data|)), offset, data), Done)
    case AddWith(data, offset, ok) =>
      if |s.buffer| < offset then (s, Failed)
      else if !ok then (s.(buffer := Splice(s.buffer, offset, data)), Failed)
      else (Received(s, offset, data), Done)
    case Assemble =>
      if !IsComplete(s) then (s, Incomplete)
      else (Emptied(s), Packet(s.buffer[..s.totalSize.value]))
  }

  // ---- what has been written ----

  /** Everything written to a slot since it was last emptied, the latest last. */
  datatype Writes = NoWrites | Write(before: Writes, offset: nat, data: seq<Byte>)

  /** The last byte written at `o`. */
  function LastWritten(w: Writes, o: int): Option<Byte> {
    match w
    case NoWrites => None
    case Write(before, offset, data) =>
      if offset <= o < offset + |data| then Some(data[o - offset]) else LastWritten(before, o)
  }

  /** The writes an action makes, judged by its answer alone. */
  function WritesAfter(w: Writes, a: Action, answer: Answer, bufferLen: nat): Writes {
    match a
    case Add(data, offset) => if answer.Failed? then w else Write(w, offset, data)
    case AddWith(data, offset, _) => if offset <= bufferLen then Write(w, offset, data) else w
    case Assemble => if answer.Packet? then NoWrites else w
    case SetTotal(_) => w
  }

  /** A recorded offset holds the last byte written there. */
  predicate Faithful(buffer: seq<Byte>, w: Writes, o: int) {
    0 <= o < |buffer| && LastWritten(w, o) == Some(buffer[o])
  }

  ghost predicate SlotOk<K(!new)>(s: Slot<K>, w: Writes) {
    && Asm.Valid(s.assembler)
    && (s.totalSize.Some? ==> s.totalSize.value <= |s.buffer|)
    && forall o: int {:trigger Asm.Has(s.assembler, o)} :: Asm.Has(s.assembler, o) ==> Faithful(s.buffer, w, o)
  }

  lemma SpliceFaithful(b: seq<Byte>, w: Writes, offset: nat, data: seq<Byte>, o: int)
    requires offset + |data| <= |b|
    requires Faithful(b, w, o) || offset <= o < offset + |data|
    ensures Faithful(Splice(b, offset, data), Write(w, offset, data), o)
  {
  }

  lemma ReceivedOk<K(!new)>(s: Slot<K>, w: Writes, offset: nat, data: seq<Byte>)
    requires SlotOk(s, w) && offset + |data| <= |s.buffer|
    ensures SlotOk(Received(s, offset, data), Write(w, offset, data))
  {
    hide Asm.Has, Asm.Valid, Asm.Add, Asm.Touches, Faithful;
    Asm.AddMeaning(s.assembler, offset, |data|);
    var r := Received(s, offset, data);
    forall o: int | Asm.Has(r.assembler, o)
      ensures Faithful(r.buffer, Write(w, offset, data), o)
    {
      SpliceFaithful(s.buffer, w, offset, data, o);
    }
  }

  lemma RewrittenOk<K(!new)>(s: Slot<K>, w: Writes, offset: nat, data: seq<Byte>)
    requires SlotOk(s, w) && offset + |data| <= |s.buffer|
    ensures SlotOk(s.(buffer := Splice(s.buffer, offset, data)), Write(w, offset, data))
  {
    hide Asm.Has, Asm.Valid, Faithful;
    forall o: int | Asm.Has(s.assembler, o)
      ensures Faithful(Splice(s.buffer, offset, data), Write(w, offset, data), o)
    {
      SpliceFaithful(s.buffer, w, offset, data, o);
    }
  }

  lemma ResizedOk<K(!new)>(s: Slot<K>, w: Writes, size: nat)
    requires SlotOk(s, w)
    ensures SlotOk(s.(buffer := Resized(s.buffer, size)), w)
  {
    hide Asm.Has, Asm.Valid;
  }

  lemma EmptiedOk<K(!new)>(s: Slot<K>)
    ensures SlotOk(Emptied(s), NoWrites)
  {
  }

  /** A packet consists of the last bytes written, all of them. */
  predicate WrittenPacket(p: seq<Byte>, w: Writes) {
    forall o :: 0 <= o < |p| ==> LastWritten(w, o) == Some(p[o])
  }

  lemma PacketIsWritten<K(!new)>(s: Slot<K>, w: Writes)
    requires SlotOk(s, w) && IsComplete(s)
    ensures WrittenPacket(s.buffer[..s.totalSize.value], w)
  {
    hide Asm.Has, Asm.Valid, LastWritten;
    var n := s.totalSize.value;
    Asm.PeekFrontMeaning(s.assembler, n);
    forall o | 0 <= o < n
      ensures LastWritten(w, o) == Some(s.buffer[..n][o])
    {
      assert Asm.Has(s.assembler, o);
    }
  }

  /** Every action keeps the slot faithful to its writes, and what it hands out is made of them. */
  lemma ActOk<K(!new)>(growable: bool, s: Slot<K>, w: Writes, a: Action)
    requires SlotOk(s, w) && Fits(s, a)
    ensures var (s', answer) := Act(growable, s, a);
      && SlotOk(s', WritesAfter(w, a, answer, |s.buffer|))
      && (answer.Packet? ==> WrittenPacket(answer.data, w) && s'.key.None?)
      && (!answer.Packet? ==> s'.key == s.key && s'.expiresAt == s.expiresAt)
  {
    hide Asm.Has, Asm.Valid, Asm.Add, Asm.PeekFront, WrittenPacket, Faithful;
    match a
    case SetTotal(size) => ResizedOk(s, w, size);
    case Add(data, offset) =>
      if growable || offset + |data| <= |s.buffer| {
        ResizedOk(s, w, offset + |data|);
        ReceivedOk(s.(buffer := Resized(s.buffer, offset + |data|)), w, offset, data);
      }
    case AddWith(data, offset, ok) =>
      if offset <= |s.buffer| {
        RewrittenOk(s, w, offset, data);
        ReceivedOk(s, w, offset, data);
      }
    case Assemble =>
      if IsComplete(s) {
        PacketIsWritten(s, w);
        EmptiedOk(s);
      }
  }

  // ---- the set of slots ----

  /** The slot that holds `key`, or else the last free one. */
  function Find<K(==)>(slots: seq<Slot<K>>, key: K): (r: Option<nat>)
    ensures r.Some? ==> r.value < |slots| && (slots[r.value].key == Some(key) || slots[r.value].key.None?)
    ensures r.Some? && slots[r.value].key.None? ==> forall i :: 0 <= i < |slots| ==> slots[i].key != Some(key)
    ensures r.None? ==> forall i :: 0 <= i < |slots| ==> slots[i].key.Some? && slots[i].key != Some(key)
  {
    FindFrom(slots, key, 0, None)
  }

  function FindFrom<K(==)>(slots: seq<Slot<K>>, key: K, from: nat, free: Option<nat>): (r: Option<nat>)
    requires from <= |slots|
    requires forall i :: 0 <= i < from ==> slots[i].key != Some(key)
    requires free.Some? ==> free.value < from && slots[free.value].key.None?
    requires free.None? ==> forall i :: 0 <= i < from ==> slots[i].key.Some?
    ensures r.Some? ==> r.value < |slots| && (slots[r.value].key == Some(key) || slots[r.value].key.None?)
    ensures r.Some? && slots[r.value].key.None? ==> forall i :: 0 <= i < |slots| ==> slots[i].key != Some(key)
    ensures r.None? ==> forall i :: 0 <= i < |slots| ==> slots[i].key.Some? && slots[i].key != Some(key)
    decreases |slots| - from
  {
    if from == |slots| then free
    else if slots[from].key == Some(key) then Some(from)
    else FindFrom(slots, key, from + 1, if slots[from].key.None? then Some(from) else free)
  }

  /** `get`: the slots with the one for `key` taken, and its index; None is `AssemblerFullError`. */
  function Get<K(==)>(slots: seq<Slot<K>>, key: K, expiresAt: int): (r: Option<(seq<Slot<K>>, nat)>)
    ensures r.Some? ==> r.value.1 < |r.value.0| == |slots|
  {
    var found := Find(slots, key);
    if found.None? then None
    else
      var i := found.value;
      Some((if slots[i].key.None? then slots[i := slots[i].(key := Some(key), expiresAt := expiresAt)] else slots, i))
  }

  predicate Expired<K>(s: Slot<K>, now: int) {
    s.key.Some? && s.expiresAt < now
  }

  function RemoveExpired<K>(slots: seq<Slot<K>>, now: int): (r: seq<Slot<K>>)
    ensures |r| == |slots|
    ensures forall i :: 0 <= i < |slots| ==> r[i] == if Expired(slots[i], now) then Emptied(slots[i]) else slots[i]
  {
    if slots == [] then []
    else [if Expired(slots[0], now) then Emptied(slots[0]) else slots[0]] + RemoveExpired(slots[1..], now)
  }

  predicate DistinctKeys<K(==)>(slots: seq<Slot<K>>) {
    forall i, j :: 0 <= i < j < |slots| && slots[i].key.Some? ==> slots[i].key != slots[j].key
  }

  /**
   The slots against a plain map from the keys in use to what was written under each: no key is held
   twice, a free slot remembers nothing, and a busy slot is faithful to the writes under its own key.
   */
  ghost predicate SetOk<K(!new)>(slots: seq<Slot<K>>, pending: map<K, Writes>) {
    && DistinctKeys(slots)
    && (forall i :: 0 <= i < |slots| ==> OneOk(slots[i], pending))
    && (forall k :: k in pending ==> Held(slots, k))
  }

  ghost predicate OneOk<K(!new)>(s: Slot<K>, pending: map<K, Writes>) {
    if s.key.None? then SlotOk(s, NoWrites) && s.assembler.Nil? && s.totalSize.None?
    else s.key.value in pending && SlotOk(s, pending[s.key.value])
  }

  ghost predicate Held<K>(slots: seq<Slot<K>>, k: K) {
    exists i :: 0 <= i < |slots| && slots[i].key == Some(k)
  }

  /** What happens to the slots: an action on the slot for a key, or the clock. */
  datatype Op<K> = Use(key: K, expiresAt: int, action: Action) | Expire(now: int)

  datatype Outcome<K> = Outcome(slots: seq<Slot<K>>, answer: Option<Answer>)

  /** An action the closure could not make is skipped, as is one for which there is no slot. */
  function Step<K(==)>(growable: bool, slots: seq<Slot<K>>, op: Op<K>): Outcome<K>
    requires forall i :: 0 <= i < |slots| && slots[i].totalSize.Some? ==> slots[i].totalSize.value <= |slots[i].buffer|
  {
    match op
    case Expire(now) => Outcome(RemoveExpired(slots, now), None)
    case Use(key, expiresAt, a) =>
      var got := Get(slots, key, expiresAt);
      if got.None? then Outcome(slots, None)
      else
        var (taken, i) := got.value;
        if !Fits(taken[i], a) then Outcome(taken, None)
        else
          var (s, answer) := Act(growable, taken[i], a);
          Outcome(taken[i := s], Some(answer))
  }

  // ---- the plain map ----

  ghost predicate KeyExpired<K>(slots: seq<Slot<K>>, k: K, now: int) {
    exists i :: 0 <= i < |slots| && slots[i].key == Some(k) && Expired(slots[i], now)
  }

  function Known<K>(pending: map<K, Writes>, key: K): Writes {
    if key in pending then pending[key] else NoWrites
  }

  /** What the same step does to the map; `slots` only says which keys expire and what was answered. */
  ghost function StepMap<K(!new)>(growable: bool, slots: seq<Slot<K>>, pending: map<K, Writes>,
                                  op: Op<K>): map<K, Writes>
    requires forall i :: 0 <= i < |slots| && slots[i].totalSize.Some? ==> slots[i].totalSize.value <= |slots[i].buffer|
  {
    match op
    case Expire(now) =>
      map k | k in pending && !KeyExpired(slots, k, now) :: pending[k]
    case Use(key, expiresAt, a) =>
      var got := Get(slots, key, expiresAt);
      if got.None? then pending
      else
        var (taken, i) := got.value;
        var w := Known(pending, key);
        if !Fits(taken[i], a) then pending[key := w]
        else
          var answer := Act(growable, taken[i], a).1;
          if answer.Packet? then pending - {key} else pending[key := WritesAfter(w, a, answer, |taken[i].buffer|)]
  }

  // ---- every step keeps the two together ----

  lemma GetOk<K(!new)>(slots: seq<Slot<K>>, pending: map<K, Writes>, key: K, expiresAt: int)
    requires SetOk(slots, pending) && Get(slots, key, expiresAt).Some?
    ensures var (taken, i) := Get(slots, key, expiresAt).value;
      && taken[i].key == Some(key)
      && SetOk(taken, pending[key := Known(pending, key)])
  {
    hide SlotOk, FindFrom;
    var (taken, i) := Get(slots, key, expiresAt).value;
    var after := pending[key := Known(pending, key)];
    if slots[i].key.None? {
      assert key in pending ==> Held(slots, key);
      forall j | 0 <= j < |taken|
        ensures OneOk(taken[j], after)
      {
        assert OneOk(slots[j], pending);
        if j == i {
          SlotKeyIrrelevant(slots[i], taken[i], NoWrites);
        }
      }
      forall k | k in after
        ensures Held(taken, k)
      {
        if k == key {
          assert taken[i].key == Some(k);
        } else {
          assert Held(slots, k);
          var j :| 0 <= j < |slots| && slots[j].key == Some(k);
          assert taken[j].key == Some(k);
        }
      }
    } else {
      assert OneOk(slots[i], pending);
      assert after == pending;
    }
  }

  lemma SlotKeyIrrelevant<K(!new)>(s: Slot<K>, s': Slot<K>, w: Writes)
    requires SlotOk(s, w)
    requires s' == s.(key := s'.key, expiresAt := s'.expiresAt)
    ensures SlotOk(s', w)
  {
  }

  lemma ReplaceOk<K(!new)>(slots: seq<Slot<K>>, pending: map<K, Writes>, i: nat, key: K, s: Slot<K>, w: Writes)
    requires SetOk(slots, pending) && i < |slots| && slots[i].key == Some(key)
    requires s.key == Some(key) && SlotOk(s, w)
    ensures SetOk(slots[i := s], pending[key := w])
  {
    hide SlotOk;
    var slots', after := slots[i := s], pending[key := w];
    forall j | 0 <= j < |slots'|
      ensures OneOk(slots'[j], after)
    {
      assert OneOk(slots[j], pending);
    }
    forall k | k in after
      ensures Held(slots', k)
    {
      if k == key {
        assert slots'[i].key == Some(k);
      } else {
        assert Held(slots, k);
        var j :| 0 <= j < |slots| && slots[j].key == Some(k);
        assert slots'[j].key == Some(k);
      }
    }
  }

  lemma ReleaseOk<K(!new)>(slots: seq<Slot<K>>, pending: map<K, Writes>, i: nat, key: K)
    requires SetOk(slots, pending) && i < |slots| && slots[i].key == Some(key)
    ensures SetOk(slots[i := Emptied(slots[i])], pending - {key})
  {
    hide SlotOk;
    EmptiedOk(slots[i]);
    var slots', after := slots[i := Emptied(slots[i])], pending - {key};
    forall j | 0 <= j < |slots'|
      ensures OneOk(slots'[j], after)
    {
      assert OneOk(slots[j], pending);
    }
    forall k | k in after
      ensures Held(slots', k)
    {
      assert Held(slots, k);
      var j :| 0 <= j < |slots| && slots[j].key == Some(k);
      assert slots'[j].key == Some(k);
    }
  }

  lemma ExpireDistinct<K(!new)>(slots: seq<Slot<K>>, now: int)
    requires DistinctKeys(slots)
    ensures DistinctKeys(RemoveExpired(slots, now))
  {
  }

  lemma ExpireHeld<K(!new)>(slots: seq<Slot<K>>, now: int, k: K)
    requires Held(slots, k) && !KeyExpired(slots, k, now)
    ensures Held(RemoveExpired(slots, now), k)
  {
    var j :| 0 <= j < |slots| && slots[j].key == Some(k);
    assert RemoveExpired(slots, now)[j].key == Some(k);
  }

  /** In a set without duplicates, a slot that stays keeps its key. */
  lemma StaysKnown<K(!new)>(slots: seq<Slot<K>>, now: int, j: nat)
    requires DistinctKeys(slots) && j < |slots| && slots[j].key.Some? && !Expired(slots[j], now)
    ensures !KeyExpired(slots, slots[j].key.value, now)
  {
  }

  lemma ExpireOk<K(!new)>(growable: bool, slots: seq<Slot<K>>, pending: map<K, Writes>, now: int)
    requires SetOk(slots, pending)
    requires forall i :: 0 <= i < |slots| && slots[i].totalSize.Some? ==> slots[i].totalSize.value <= |slots[i].buffer|
    ensures SetOk(RemoveExpired(slots, now), StepMap(growable, slots, pending, Expire(now)))
  {
    hide SlotOk, DistinctKeys, KeyExpired, Held;
    var slots', after := RemoveExpired(slots, now), StepMap(growable, slots, pending, Expire(now));
    ExpireDistinct(slots, now);
    forall j | 0 <= j < |slots'|
      ensures OneOk(slots'[j], after)
    {
      assert OneOk(slots[j], pending);
      if slots[j].key.Some? && !Expired(slots[j], now) {
        StaysKnown(slots, now, j);
      } else {
        EmptiedOk(slots[j]);
      }
    }
    forall k | k in after
      ensures Held(slots', k)
    {
      ExpireHeld(slots, now, k);
    }
  }

  lemma SizesOk<K(!new)>(slots: seq<Slot<K>>, pending: map<K, Writes>)
    requires SetOk(slots, pending)
    ensures forall i :: 0 <= i < |slots| && slots[i].totalSize.Some? ==> slots[i].totalSize.value <= |slots[i].buffer|
  {
    forall i | 0 <= i < |slots| && slots[i].totalSize.Some?
      ensures slots[i].totalSize.value <= |slots[i].buffer|
    {
      assert OneOk(slots[i], pending);
    }
  }

  /** One step: the invariant, and the packet if one comes out. */
  lemma StepOk<K(!new)>(growable: bool, slots: seq<Slot<K>>, pending: map<K, Writes>, op: Op<K>)
    requires SetOk(slots, pending)
    requires forall i :: 0 <= i < |slots| && slots[i].totalSize.Some? ==> slots[i].totalSize.value <= |slots[i].buffer|
    ensures var r := Step(growable, slots, op);
      && SetOk(r.slots, StepMap(growable, slots, pending, op)) && |r.slots| == |slots|
      && (r.answer.Some? && r.answer.value.Packet? ==>
            op.Use? && op.key in pending && WrittenPacket(r.answer.value.data, pending[op.key]))
  {
    match op
    case Expire(now) => ExpireOk(growable, slots, pending, now);
    case Use(key, expiresAt, a) =>
      if Get(slots, key, expiresAt).Some? {
        UseOk(growable, slots, pending, key, expiresAt, a);
      }
  }

  lemma UseOk<K(!new)>(growable: bool, slots: seq<Slot<K>>, pending: map<K, Writes>, key: K, expiresAt: int, a: Action)
    requires SetOk(slots, pending) && Get(slots, key, expiresAt).Some?
    requires forall i :: 0 <= i < |slots| && slots[i].totalSize.Some? ==> slots[i].totalSize.value <= |slots[i].buffer|
    ensures var r := Step(growable, slots, Use(key, expiresAt, a));
      && SetOk(r.slots, StepMap(growable, slots, pending, Use(key, expiresAt, a))) && |r.slots| == |slots|
      && (r.answer.Some? && r.answer.value.Packet? ==>
            key in pending && WrittenPacket(r.answer.value.data, pending[key]))
  {
    hide SetOk, Get, Act, WritesAfter, WrittenPacket, Find;
    GetOk(slots, pending, key, expiresAt);
    var (taken, i) := Get(slots, key, expiresAt).value;
    var w := Known(pending, key);
    var known := pending[key := w];
    TakenOk(taken, known, i, key);
    if Fits(taken[i], a) {
      ActOk(growable, taken[i], w, a);
      var (s, answer) := Act(growable, taken[i], a);
      if answer.Packet? {
        PacketReleases(growable, taken[i], a);
        ReleaseOk(taken, known, i, key);
        assert known - {key} == pending - {key};
        if key !in pending {
          EmptyIsNoPacket(growable, slots, pending, key, expiresAt, a);
        }
      } else {
        ReplaceOk(taken, known, i, key, s, WritesAfter(w, a, answer, |taken[i].buffer|));
        assert known[key := WritesAfter(w, a, answer, |taken[i].buffer|)]
            == pending[key := WritesAfter(w, a, answer, |taken[i].buffer|)];
      }
    }
  }

  lemma TakenOk<K(!new)>(taken: seq<Slot<K>>, known: map<K, Writes>, i: nat, key: K)
    requires SetOk(taken, known) && i < |taken| && taken[i].key == Some(key)
    ensures key in known && SlotOk(taken[i], known[key])
  {
    assert OneOk(taken[i], known);
  }

  lemma PacketReleases<K>(growable: bool, s: Slot<K>, a: Action)
    requires Fits(s, a) && (s.totalSize.Some? ==> s.totalSize.value <= |s.buffer|)
    requires Act(growable, s, a).1.Packet?
    ensures Act(growable, s, a).0 == Emptied(s)
  {
  }

  /** A slot just taken has no total size, so nothing comes out of it. */
  lemma EmptyIsNoPacket<K(!new)>(growable: bool, slots: seq<Slot<K>>, pending: map<K, Writes>, key: K,
                                 expiresAt: int, a: Action)
    requires SetOk(slots, pending) && Get(slots, key, expiresAt).Some? && key !in pending
    ensures var (taken, i) := Get(slots, key, expiresAt).value;
      taken[i].totalSize.None? && (Fits(taken[i], a) ==> !Act(growable, taken[i], a).1.Packet?)
  {
    hide FindFrom;
    var (taken, i) := Get(slots, key, expiresAt).value;
    assert OneOk(slots[i], pending);
  }
}
