/** What the reassembly slots give back, over every run and for the fragments of one datagram. */
module Datagrams {
  import opened Common
  import opened Fragments
  import Asm = AssemblerList

  // ---- every run ----

  /** Free slots with anything at all left in their buffers. */
  predicate AllFree<K>(slots: seq<Slot<K>>) {
    forall i :: 0 <= i < |slots| ==> slots[i].key.None? && slots[i].assembler.Nil? && slots[i].totalSize.None?
  }

  /** The slots, and what has been written under each key in use. */
  datatype Run<K> = Run(slots: seq<Slot<K>>, pending: map<K, Writes>)

  /** One operation. */
  ghost function Next<K(!new)>(growable: bool, r: Run<K>, op: Op<K>): (n: Run<K>)
    requires SetOk(r.slots, r.pending)
    ensures SetOk(n.slots, n.pending) && |n.slots| == |r.slots|
  {
    SizesOk(r.slots, r.pending);
    StepOk(growable, r.slots, r.pending, op);
    Run(Step(growable, r.slots, op).slots, StepMap(growable, r.slots, r.pending, op))
  }

  ghost function Answered<K(!new)>(growable: bool, r: Run<K>, op: Op<K>): Option<Answer>
    requires SetOk(r.slots, r.pending)
  {
    SizesOk(r.slots, r.pending);
    Step(growable, r.slots, op).answer
  }

  ghost function After<K(!new)>(growable: bool, r: Run<K>, ops: seq<Op<K>>): (n: Run<K>)
    requires SetOk(r.slots, r.pending)
    ensures SetOk(n.slots, n.pending) && |n.slots| == |r.slots|
    decreases |ops|
  {
    if ops == [] then r else After(growable, Next(growable, r, ops[0]), ops[1..])
  }

  lemma FreeOk<K(!new)>(slots: seq<Slot<K>>)
    requires AllFree(slots)
    ensures SetOk(slots, map[])
  {
    forall i | 0 <= i < |slots|
      ensures OneOk(slots[i], map[])
    {
    }
  }

  /**
   For any interleaving of operations under any keys: no two busy slots have the same key, and a packet
   that comes out under a key is made of the bytes last written under that key since its slot was taken,
   every one of them, whatever the buffer held before.
   */
  lemma ReassemblyIsIsolated<K(!new)>(growable: bool, slots: seq<Slot<K>>, ops: seq<Op<K>>, op: Op<K>)
    requires AllFree(slots)
    ensures SetOk(slots, map[])
    ensures var r := After(growable, Run(slots, map[]), ops);
      && DistinctKeys(r.slots)
      && (forall i :: 0 <= i < |r.slots| && r.slots[i].totalSize.Some? ==>
            r.slots[i].totalSize.value <= |r.slots[i].buffer|)
      && var answer := Answered(growable, r, op);
         (answer.Some? && answer.value.Packet? ==>
            op.Use? && op.key in r.pending && WrittenPacket(answer.value.data, r.pending[op.key]))
  {
    hide Step, StepMap, OneOk, Held, WrittenPacket, After;
    FreeOk(slots);
    var r := After(growable, Run(slots, map[]), ops);
    SizesOk(r.slots, r.pending);
    StepOk(growable, r.slots, r.pending, op);
  }

  // ---- the fragments of one datagram ----

  /** Every write is a piece of `d`, put where it belongs. */
  predicate PiecesOf(w: Writes, d: seq<Byte>) {
    w.Write? ==>
      && w.offset + |w.data| <= |d| && w.data == d[w.offset..w.offset + |w.data|]
      && PiecesOf(w.before, d)
  }

  predicate Covered(w: Writes, o: int) {
    LastWritten(w, o).Some?
  }

  lemma {:induction false} PieceByte(w: Writes, d: seq<Byte>, o: int)
    requires PiecesOf(w, d) && Covered(w, o)
    ensures 0 <= o < |d| && LastWritten(w, o) == Some(d[o])
  {
    if !(w.offset <= o < w.offset + |w.data|) {
      PieceByte(w.before, d, o);
    }
  }

  lemma WrittenPieces(p: seq<Byte>, w: Writes, d: seq<Byte>)
    requires PiecesOf(w, d) && WrittenPacket(p, w)
    ensures p <= d
  {
    if p != [] {
      PieceByte(w, d, |p| - 1);
    }
    forall o | 0 <= o < |p|
      ensures p[o] == d[o]
    {
      PieceByte(w, d, o);
    }
  }

  /** What the assembler has recorded of the writes; a refused range is left out. */
  function Recorded(w: Writes): Asm.Contigs {
    match w
    case NoWrites => Asm.Nil
    case Write(before, offset, data) =>
      var added := Asm.Add(Recorded(before), offset, |data|);
      if added.None? then Recorded(before) else added.value
  }

  /** Whether a range is refused: four runs are recorded already and it touches none of them. */
  predicate Refused(w: Writes, offset: nat, size: nat) {
    size > 0 && Asm.Count(Recorded(w)) == Asm.MAX_SEGMENTS && !Asm.Touches(Recorded(w), offset - 1, offset + size)
  }

  predicate NoneRefused(w: Writes) {
    w.Write? ==> !Refused(w.before, w.offset, |w.data|) && NoneRefused(w.before)
  }

  lemma {:induction false} RecordedValid(w: Writes)
    ensures Asm.Valid(Recorded(w))
  {
    if w.Write? {
      RecordedValid(w.before);
      Asm.AddMeaning(Recorded(w.before), w.offset, |w.data|);
    }
    hide Asm.Add, Asm.Touches, Asm.Has, Asm.Tight;
  }

  /** Whether octet `o` lies in a fragment that was not refused when it came. */
  predicate Taken(w: Writes, o: int) {
    w.Write? && ((w.offset <= o < w.offset + |w.data| && !Refused(w.before, w.offset, |w.data|)) || Taken(w.before, o))
  }

  ghost predicate AllTaken(w: Writes, n: nat) {
    forall o :: 0 <= o < n ==> Taken(w, o)
  }

  ghost predicate AllCovered(w: Writes, n: nat) {
    forall o :: 0 <= o < n ==> Covered(w, o)
  }

  /** What is recorded is exactly what was taken. */
  lemma {:induction false} RecordedIsTaken(w: Writes, o: int)
    ensures Asm.Has(Recorded(w), o) <==> Taken(w, o)
  {
    hide Asm.Add, Asm.Touches, Asm.Has, Asm.Tight;
    if w.Write? {
      RecordedIsTaken(w.before, o);
      RecordedValid(w.before);
      Asm.AddMeaning(Recorded(w.before), w.offset, |w.data|);
    } else {
      NothingRecorded(o);
    }
  }

  lemma NothingRecorded(o: int)
    ensures !Asm.Has(Asm.Nil, o)
  {
  }

  lemma {:induction false} TakenIsCovered(w: Writes, o: int)
    ensures Taken(w, o) ==> Covered(w, o)
    ensures NoneRefused(w) ==> (Taken(w, o) <==> Covered(w, o))
  {
    hide Refused;
    if w.Write? {
      TakenIsCovered(w.before, o);
    }
  }

  /** An action that is about datagram `d`: its size, or a piece of it put where it belongs. */
  predicate About(a: Action, d: seq<Byte>) {
    match a
    case SetTotal(size) => size == |d|
    case Add(data, offset) => offset + |data| <= |d| && data == d[offset..offset + |data|]
    case AddWith(data, offset, ok) => ok && offset + |data| <= |d| && data == d[offset..offset + |data|]
    case Assemble => true
  }

  /** A slot that has been given pieces `w` of `d`, and its size if `sized`. */
  ghost predicate Gathering<K(!new)>(s: Slot<K>, w: Writes, d: seq<Byte>, sized: bool) {
    && SlotOk(s, w) && s.assembler == Recorded(w) && PiecesOf(w, d)
    && s.totalSize == (if sized then Some(|d|) else None)
  }

  predicate SizedAfter(sized: bool, a: Action, answer: Answer) {
    sized || (a.SetTotal? && answer.Done?)
  }

  /** `assemble` gives exactly the datagram once its size is known and every octet was taken, and nothing before. */
  lemma AssembledPieces<K(!new)>(growable: bool, s: Slot<K>, w: Writes, d: seq<Byte>, sized: bool)
    requires Gathering(s, w, d, sized)
    ensures Act(growable, s, Assemble).1 == if sized && AllTaken(w, |d|) then Packet(d) else Incomplete
  {
    hide Asm.Add, Asm.Has, Asm.Valid, Recorded, Taken;
    RecordedValid(w);
    Asm.PeekFrontMeaning(s.assembler, |d|);
    forall o: int
      ensures Asm.Has(s.assembler, o) <==> Taken(w, o)
    {
      RecordedIsTaken(w, o);
    }
    TakenIsCovered(w, |d|);
    if Covered(w, |d|) {
      PieceByte(w, d, |d|);
    }
    if IsComplete(s) {
      assert sized;
      PacketIsWritten(s, w);
      WrittenPieces(s.buffer[..|d|], w, d);
      assert s.buffer[..|d|] == d;
      forall o | 0 <= o < |d|
        ensures Taken(w, o)
      {
        assert Asm.Has(s.assembler, o);
      }
    }
  }

  /** Every action about the datagram keeps the slot gathering it, unless the datagram comes out. */
  lemma ActGathers<K(!new)>(growable: bool, s: Slot<K>, w: Writes, d: seq<Byte>, sized: bool, a: Action)
    requires Gathering(s, w, d, sized) && Fits(s, a) && About(a, d)
    ensures var (s', answer) := Act(growable, s, a);
      if answer.Packet? then a.Assemble?
      else Gathering(s', WritesAfter(w, a, answer, |s.buffer|), d, SizedAfter(sized, a, answer))
  {
    hide SlotOk, Asm.Add, Asm.PeekFront;
    SlotSized(s, w);
    ActOk(growable, s, w, a);
  }

  lemma SlotSized<K(!new)>(s: Slot<K>, w: Writes)
    requires SlotOk(s, w)
    ensures s.totalSize.Some? ==> s.totalSize.value <= |s.buffer|
  {
  }

  // ---- one datagram among others ----

  /** Whatever is done under `key` is about `d`; what is done under other keys may be anything. */
  predicate OpAbout<K(==)>(op: Op<K>, key: K, d: seq<Byte>) {
    op.Use? && op.key == key ==> About(op.action, d)
  }

  ghost predicate SizedBy<K(!new)>(growable: bool, r: Run<K>, key: K, sized: bool, op: Op<K>)
    requires SetOk(r.slots, r.pending)
  {
    var answer := Answered(growable, r, op);
    && key in Next(growable, r, op).pending
    && (sized || (op.Use? && op.key == key && answer.Some? && SizedAfter(sized, op.action, answer.value)))
  }

  /** Whether the size has been set under `key` since its slot was taken. */
  ghost predicate Sized<K(!new)>(growable: bool, r: Run<K>, key: K, sized: bool, ops: seq<Op<K>>)
    requires SetOk(r.slots, r.pending)
    decreases |ops|
  {
    if ops == [] then sized
    else Sized(growable, Next(growable, r, ops[0]), key, SizedBy(growable, r, key, sized, ops[0]), ops[1..])
  }

  /** The slot under `key`, if there is one, gathers `d` from what was written under that key. */
  ghost predicate KeyGathers<K(!new)>(r: Run<K>, key: K, d: seq<Byte>, sized: bool) {
    && SetOk(r.slots, r.pending)
    && (sized ==> key in r.pending)
    && forall i :: 0 <= i < |r.slots| && r.slots[i].key == Some(key) ==>
         Gathering(r.slots[i], Known(r.pending, key), d, sized)
  }

  lemma ExpireGathers<K(!new)>(growable: bool, r: Run<K>, key: K, d: seq<Byte>, sized: bool, now: int)
    requires KeyGathers(r, key, d, sized)
    ensures KeyGathers(Next(growable, r, Expire(now)), key, d, SizedBy(growable, r, key, sized, Expire(now)))
  {
    hide SetOk, Gathering, KeyExpired, Expired;
    var n := Next(growable, r, Expire(now));
    forall i | 0 <= i < |r.slots| && n.slots[i].key == Some(key)
      ensures n.slots[i] == r.slots[i] && key in n.pending && n.pending[key] == Known(r.pending, key)
    {
      KeptKey(r, i, now);
    }
  }

  lemma KeptKey<K(!new)>(r: Run<K>, i: nat, now: int)
    requires SetOk(r.slots, r.pending) && i < |r.slots| && r.slots[i].key.Some? && !Expired(r.slots[i], now)
    ensures r.slots[i].key.value in r.pending && !KeyExpired(r.slots, r.slots[i].key.value, now)
  {
    assert OneOk(r.slots[i], r.pending);
    StaysKnown(r.slots, now, i);
  }

  /** What `get` hands out for `key` gathers `d`. */
  lemma TakenGathers<K(!new)>(r: Run<K>, key: K, d: seq<Byte>, sized: bool, expiresAt: int)
    requires KeyGathers(r, key, d, sized) && Get(r.slots, key, expiresAt).Some?
    ensures var (taken, i) := Get(r.slots, key, expiresAt).value;
      Gathering(taken[i], Known(r.pending, key), d, sized) && taken[i].key == Some(key) && DistinctKeys(taken)
  {
    hide SlotOk, FindFrom;
    GetOk(r.slots, r.pending, key, expiresAt);
    var (taken, i) := Get(r.slots, key, expiresAt).value;
    if r.slots[i].key.None? {
      assert OneOk(r.slots[i], r.pending);
      assert key in r.pending ==> Held(r.slots, key);
      SlotKeyIrrelevant(r.slots[i], taken[i], NoWrites);
    }
  }

  lemma UseGathers<K(!new)>(growable: bool, r: Run<K>, key: K, d: seq<Byte>, sized: bool, expiresAt: int, a: Action)
    requires KeyGathers(r, key, d, sized) && About(a, d)
    ensures var op := Use(key, expiresAt, a);
      KeyGathers(Next(growable, r, op), key, d, SizedBy(growable, r, key, sized, op))
  {
    hide SetOk, Gathering, About, Act, WritesAfter, Get, Fits, OneOk;
    if Get(r.slots, key, expiresAt).Some? {
      TakenGathers(r, key, d, sized, expiresAt);
      var (taken, i) := Get(r.slots, key, expiresAt).value;
      GatheringSized(taken[i], Known(r.pending, key), d, sized);
      if Fits(taken[i], a) {
        ActGathers(growable, taken[i], Known(r.pending, key), d, sized, a);
        var (s, answer) := Act(growable, taken[i], a);
        if answer.Packet? {
          PacketReleases(growable, taken[i], a);
        }
      }
    }
  }

  lemma GatheringSized<K(!new)>(s: Slot<K>, w: Writes, d: seq<Byte>, sized: bool)
    requires Gathering(s, w, d, sized)
    ensures s.totalSize.Some? ==> s.totalSize.value <= |s.buffer|
  {
  }

  /** Operations under another key leave the slot of this one alone. */
  lemma OtherGathers<K(!new)>(growable: bool, r: Run<K>, key: K, d: seq<Byte>, sized: bool, op: Op<K>)
    requires KeyGathers(r, key, d, sized) && op.Use? && op.key != key
    ensures KeyGathers(Next(growable, r, op), key, d, SizedBy(growable, r, key, sized, op))
  {
    hide SetOk, Gathering, Act, Fits, WritesAfter, FindFrom;
    SizesOk(r.slots, r.pending);
    if Get(r.slots, op.key, op.expiresAt).Some? {
      var (taken, i) := Get(r.slots, op.key, op.expiresAt).value;
      GetOk(r.slots, r.pending, op.key, op.expiresAt);
      SizesOk(taken, r.pending[op.key := Known(r.pending, op.key)]);
      if Fits(taken[i], op.action) {
        KeyStays(growable, taken[i], op.action);
      }
    }
  }

  lemma KeyStays<K(!new)>(growable: bool, s: Slot<K>, a: Action)
    requires Fits(s, a) && (s.totalSize.Some? ==> s.totalSize.value <= |s.buffer|)
    ensures Act(growable, s, a).0.key in {s.key, None}
  {
  }

  lemma {:induction false} AfterGathers<K(!new)>(growable: bool, r: Run<K>, key: K, d: seq<Byte>, sized: bool,
                                                 ops: seq<Op<K>>)
    requires KeyGathers(r, key, d, sized) && forall op :: op in ops ==> OpAbout(op, key, d)
    ensures KeyGathers(After(growable, r, ops), key, d, Sized(growable, r, key, sized, ops))
    decreases |ops|
  {
    hide KeyGathers, About, Next, SizedBy;
    KeyOk(r, key, d, sized);
    if ops != [] {
      assert OpAbout(ops[0], key, d);
      StepGathers(growable, r, key, d, sized, ops[0]);
      AfterGathers(growable, Next(growable, r, ops[0]), key, d, SizedBy(growable, r, key, sized, ops[0]), ops[1..]);
    }
  }

  lemma StepGathers<K(!new)>(growable: bool, r: Run<K>, key: K, d: seq<Byte>, sized: bool, op: Op<K>)
    requires KeyGathers(r, key, d, sized) && OpAbout(op, key, d)
    ensures KeyGathers(Next(growable, r, op), key, d, SizedBy(growable, r, key, sized, op))
  {
    hide KeyGathers, About, Next, SizedBy;
    KeyOk(r, key, d, sized);
    match op
    case Expire(now) => ExpireGathers(growable, r, key, d, sized, now);
    case Use(k, expiresAt, a) =>
      if k == key {
        UseGathers(growable, r, key, d, sized, expiresAt, a);
      } else {
        OtherGathers(growable, r, key, d, sized, op);
      }
  }

  lemma KeyOk<K(!new)>(r: Run<K>, key: K, d: seq<Byte>, sized: bool)
    requires KeyGathers(r, key, d, sized)
    ensures SetOk(r.slots, r.pending)
  {
  }

  /**
   Pieces of one datagram under one key, in any order, duplicated or overlapping, with its size set at any
   point among them, and anything at all under other keys in between: `assemble` gives exactly the datagram
   once the size is set and every octet lies in a piece that was not refused, and nothing before.
   */
  lemma DatagramReassembled<K(!new)>(growable: bool, slots: seq<Slot<K>>, ops: seq<Op<K>>, key: K, d: seq<Byte>,
                                     expiresAt: int)
    requires AllFree(slots) && forall op :: op in ops ==> OpAbout(op, key, d)
    ensures SetOk(slots, map[])
    ensures var start := Run(slots, map[]);
      var r := After(growable, start, ops);
      Answered(growable, r, Use(key, expiresAt, Assemble)) ==
        if Get(r.slots, key, expiresAt).None? then None
        else if Sized(growable, start, key, false, ops) && AllTaken(Known(r.pending, key), |d|) then Some(Packet(d))
        else Some(Incomplete)
  {
    hide SetOk, Gathering, AllTaken, Recorded, About, Get, Act, OpAbout, Sized, After;
    FreeOk(slots);
    var start := Run(slots, map[]);
    FreeGathers(slots, key, d);
    AfterGathers(growable, start, key, d, false, ops);
    var r, sized := After(growable, start, ops), Sized(growable, start, key, false, ops);
    if Get(r.slots, key, expiresAt).Some? {
      TakenGathers(r, key, d, sized, expiresAt);
      var (taken, i) := Get(r.slots, key, expiresAt).value;
      AssembledPieces(growable, taken[i], Known(r.pending, key), d, sized);
    }
  }

  lemma FreeGathers<K(!new)>(slots: seq<Slot<K>>, key: K, d: seq<Byte>)
    requires AllFree(slots)
    ensures KeyGathers(Run(slots, map[]), key, d, false)
  {
    FreeOk(slots);
  }

  /** The fragments handed over under `key`. */
  function Sent<K(==)>(ops: seq<Op<K>>, key: K, w: Writes): Writes {
    if ops == [] then w
    else
      var op := ops[0];
      Sent(ops[1..], key,
           if op.Use? && op.key == key && (op.action.Add? || op.action.AddWith?) then
             Write(w, op.action.offset, op.action.data)
           else w)
  }

  predicate SetsSize<K(==)>(op: Op<K>, key: K) {
    op.Use? && op.key == key && op.action.SetTotal?
  }

  /** Nothing under `key` failed, the datagram has not come out yet, and its slot did not expire. */
  ghost predicate AllDone<K(!new)>(growable: bool, r: Run<K>, key: K, ops: seq<Op<K>>)
    requires SetOk(r.slots, r.pending)
    decreases |ops|
  {
    ops != [] ==>
      && (ops[0].Use? && ops[0].key == key ==> Answered(growable, r, ops[0]) in {Some(Done), Some(Incomplete)})
      && (ops[0].Expire? ==> !KeyExpired(r.slots, key, ops[0].now))
      && AllDone(growable, Next(growable, r, ops[0]), key, ops[1..])
  }

  /** A step that is answered adds to the map what it was asked to write. */
  lemma StepDone<K(!new)>(growable: bool, r: Run<K>, key: K, d: seq<Byte>, sized: bool, op: Op<K>)
    requires KeyGathers(r, key, d, sized) && AllDone(growable, r, key, [op])
    ensures Known(Next(growable, r, op).pending, key) == Sent([op], key, Known(r.pending, key))
    ensures SizedBy(growable, r, key, sized, op) == (sized || SetsSize(op, key))
  {
    hide SetOk, Gathering, Asm.Add, Asm.PeekFront, FindFrom, KeyExpired;
    if op.Use? && op.key == key && Get(r.slots, key, op.expiresAt).Some? {
      TakenGathers(r, key, d, sized, op.expiresAt);
      var (taken, i) := Get(r.slots, key, op.expiresAt).value;
      GatheringSized(taken[i], Known(r.pending, key), d, sized);
    }
  }

  lemma {:induction false} AllDoneHistory<K(!new)>(growable: bool, r: Run<K>, key: K, d: seq<Byte>, sized: bool,
                                                   ops: seq<Op<K>>)
    requires KeyGathers(r, key, d, sized) && (forall op :: op in ops ==> OpAbout(op, key, d))
    requires AllDone(growable, r, key, ops)
    ensures Known(After(growable, r, ops).pending, key) == Sent(ops, key, Known(r.pending, key))
    ensures Sized(growable, r, key, sized, ops) == (sized || exists op :: op in ops && SetsSize(op, key))
    decreases |ops|
  {
    hide KeyGathers, About, Next, SizedBy, KeyExpired;
    KeyOk(r, key, d, sized);
    if ops != [] {
      var op := ops[0];
      assert OpAbout(op, key, d);
      StepGathers(growable, r, key, d, sized, op);
      StepDone(growable, r, key, d, sized, op);
      var next, sized' := Next(growable, r, op), SizedBy(growable, r, key, sized, op);
      assert Sent([op], key, Known(r.pending, key)) == Known(next.pending, key);
      AllDoneHistory(growable, next, key, d, sized', ops[1..]);
      assert ops == [op] + ops[1..];
    }
  }

  /** In terms of the operations alone: the datagram comes out exactly if its size and all its octets went in. */
  lemma FragmentsComplete<K(!new)>(growable: bool, slots: seq<Slot<K>>, ops: seq<Op<K>>, key: K, d: seq<Byte>,
                                   expiresAt: int)
    requires AllFree(slots) && SetOk(slots, map[]) && AllDone(growable, Run(slots, map[]), key, ops)
    requires forall op :: op in ops ==> OpAbout(op, key, d)
    ensures var r := After(growable, Run(slots, map[]), ops);
      Get(r.slots, key, expiresAt).Some? ==>
        (Answered(growable, r, Use(key, expiresAt, Assemble)) == Some(Packet(d)) <==>
           (exists op :: op in ops && SetsSize(op, key)) && AllTaken(Sent(ops, key, NoWrites), |d|))
  {
    hide SetOk, AllTaken, About, Get, OpAbout, Sized, After, AllDone, KeyGathers, Answered;
    FreeGathers(slots, key, d);
    DatagramReassembled(growable, slots, ops, key, d, expiresAt);
    AllDoneHistory(growable, Run(slots, map[]), key, d, false, ops);
  }

  // ---- when is nothing refused? ----

  function Length(w: Writes): nat {
    if w.NoWrites? then 0 else 1 + Length(w.before)
  }

  lemma {:induction false} CountGrows(l: Asm.Contigs, offset: nat, size: nat)
    requires Asm.Valid(l) && Asm.Add(l, offset, size).Some?
    ensures Asm.Count(Asm.Add(l, offset, size).value) <= Asm.Count(l) + 1
  {
    hide Asm.AddFrom, Asm.Tight, Asm.Extent;
    if size > 0 {
      Asm.AddFromShape(l, offset, size, Asm.Count(l) < Asm.MAX_SEGMENTS, true);
    }
  }

  lemma {:induction false} CountAtMost(w: Writes)
    ensures Asm.Count(Recorded(w)) <= Length(w)
  {
    if w.Write? {
      CountAtMost(w.before);
      RecordedValid(w.before);
      if Asm.Add(Recorded(w.before), w.offset, |w.data|).Some? {
        CountGrows(Recorded(w.before), w.offset, |w.data|);
      }
    }
  }

  /** Four fragments are never too many, in any order. */
  lemma {:induction false} FewAreNeverRefused(w: Writes)
    requires Length(w) <= Asm.MAX_SEGMENTS
    ensures NoneRefused(w)
  {
    if w.Write? {
      FewAreNeverRefused(w.before);
      CountAtMost(w.before);
    }
  }

  function End(w: Writes): nat {
    if w.NoWrites? then 0 else MaxOf(End(w.before), w.offset + |w.data|)
  }

  /** No fragment starts past the end of those before it. */
  predicate InOrder(w: Writes) {
    w.Write? ==> w.offset <= End(w.before) && InOrder(w.before)
  }

  /** Any number of fragments in order are recorded as one run, and none is refused. */
  lemma {:induction false} InOrderIsNeverRefused(w: Writes)
    requires InOrder(w)
    ensures NoneRefused(w)
    ensures Recorded(w) == if End(w) == 0 then Asm.Nil else Asm.Cons(Asm.Contig(0, End(w)), Asm.Nil)
  {
    if w.Write? {
      InOrderIsNeverRefused(w.before);
      assert Asm.Count(Asm.Nil) == 0;
    }
  }

  /** Four fragments with holes between them, and a fifth that the assembler cannot record. */
  function Runs(n: nat): Asm.Contigs {
    if n == 0 then Asm.Nil else Asm.Cons(Asm.Contig(1, 1), Runs(n - 1))
  }

  lemma {:induction false} RunAppended(n: nat, room: bool)
    ensures AddAt(n, room) == if room then Some(Runs(n + 1)) else None
  {
    if n > 0 {
      RunAppended(n - 1, room);
    }
  }

  function AddAt(n: nat, room: bool): Option<Asm.Contigs> {
    Asm.AddFrom(Runs(n), 2 * n + 1, 1, room)
  }

  lemma {:induction false} RunCount(n: nat)
    ensures Asm.Count(Runs(n)) == n
  {
    if n > 0 {
      RunCount(n - 1);
    }
  }

  /** Octets 1, 3, 5, ... of `d`, one at a time. */
  function OddOctets(d: seq<Byte>, n: nat): Writes
    requires 2 * n <= |d|
  {
    if n == 0 then NoWrites else Write(OddOctets(d, n - 1), 2 * n - 1, d[2 * n - 1..2 * n])
  }

  lemma {:induction false} OddPieces(d: seq<Byte>, n: nat)
    requires 2 * n <= |d|
    ensures PiecesOf(OddOctets(d, n), d)
  {
    if n > 0 {
      OddPieces(d, n - 1);
    }
  }

  lemma {:induction false} RunPast(k: nat, at: nat)
    requires at > 2 * k
    ensures Asm.AddFrom(Runs(k), at, 1, false).None?
  {
    if k > 0 {
      RunPast(k - 1, at - 2);
    }
  }

  lemma {:induction false} OddRecorded(d: seq<Byte>, n: nat)
    requires 2 * n <= |d|
    ensures Recorded(OddOctets(d, n)) == Runs(MinOf(n, 4))
  {
    hide Asm.AddFrom, Asm.Count, Runs;
    if n > 0 {
      OddRecorded(d, n - 1);
      var k := MinOf(n - 1, 4);
      RunCount(k);
      if n <= 4 {
        RunAppended(k, true);
      } else {
        RunPast(4, 2 * n - 1);
      }
    } else {
      EmptyRun();
    }
  }

  lemma EmptyRun()
    ensures Runs(0) == Asm.Nil
  {
  }

  lemma {:induction false} CoalesceRuns(c: nat, n: nat, end: nat)
    requires c >= 1 && end > c + 2 * n
    ensures Asm.Coalesce(Asm.Contig(0, c), Runs(n), end) == Asm.Cons(Asm.Contig(0, end), Asm.Nil)
    decreases n
  {
    if n > 0 {
      CoalesceRuns(c + 2, n - 1, end);
    }
  }

  lemma MergedRuns()
    ensures Asm.Add(Runs(4), 0, 9) == Some(Asm.Cons(Asm.Contig(0, 9), Asm.Nil))
  {
    CoalesceRuns(2, 3, 9);
  }

  lemma FifthIsRefused(d: seq<Byte>)
    requires |d| == 10
    ensures !NoneRefused(OddOctets(d, 5))
  {
    hide Asm.AddFrom, Asm.Count, Runs, Asm.Touches;
    OddRecorded(d, 4);
    RunCount(4);
    RunPast(4, 9);
    RecordedValid(OddOctets(d, 4));
    Asm.AddMeaning(Runs(4), 9, 1);
  }

  lemma OddCovers(d: seq<Byte>)
    requires |d| == 10
    ensures AllCovered(Write(OddOctets(d, 5), 0, d[0..9]), 10)
  {
    var w5 := OddOctets(d, 5);
    assert w5 == Write(OddOctets(d, 4), 9, d[9..10]);
    assert Covered(w5, 9);
  }

  /** All the writes, made by `add` one after the other. */
  function AddAll<K>(growable: bool, s: Slot<K>, w: Writes): (r: Slot<K>)
    requires s.totalSize.Some? ==> s.totalSize.value <= |s.buffer|
    ensures r.totalSize == s.totalSize && |s.buffer| <= |r.buffer|
  {
    if w.NoWrites? then s else Act(growable, AddAll(growable, s, w.before), Add(w.data, w.offset)).0
  }

  /** Every one of them answered as done. */
  predicate EachDone<K>(growable: bool, s: Slot<K>, w: Writes)
    requires s.totalSize.Some? ==> s.totalSize.value <= |s.buffer|
  {
    w.Write? ==>
      && EachDone(growable, s, w.before)
      && Act(growable, AddAll(growable, s, w.before), Add(w.data, w.offset)).1 == Done
  }

  lemma {:induction false} AddAllGathers<K(!new)>(growable: bool, s: Slot<K>, w: Writes, d: seq<Byte>, sized: bool)
    requires Gathering(s, NoWrites, d, sized) && PiecesOf(w, d) && (growable || |d| <= |s.buffer|)
    ensures s.totalSize.Some? ==> s.totalSize.value <= |s.buffer|
    ensures Gathering(AddAll(growable, s, w), w, d, sized) && EachDone(growable, s, w)
  {
    hide SlotOk, Asm.Add;
    GatheringSized(s, NoWrites, d, sized);
    if w.Write? {
      AddAllGathers(growable, s, w.before, d, sized);
      ActGathers(growable, AddAll(growable, s, w.before), w.before, d, sized, Add(w.data, w.offset));
    }
  }

  lemma TenthNotTaken(d: seq<Byte>)
    requires |d| == 10
    ensures !AllTaken(Write(OddOctets(d, 5), 0, d[0..9]), 10)
  {
    hide Asm.Add, Runs, OddOctets;
    var w := Write(OddOctets(d, 5), 0, d[0..9]);
    OddRecorded(d, 5);
    MergedRuns();
    RecordedIsTaken(w, 9);
  }

  /**
   Otherwise a fragment can be lost without anyone being told: here all ten octets of a datagram have
   been handed over, each with the answer that it was added, the last one while four runs were recorded,
   and `assemble` still says that the datagram is incomplete.
   */
  lemma FifthHoleIsLost<K(!new)>(growable: bool, s: Slot<K>, d: seq<Byte>)
    requires Gathering(s, NoWrites, d, true) && |d| == 10
    ensures s.totalSize.Some? ==> s.totalSize.value <= |s.buffer|
    ensures var w := Write(OddOctets(d, 5), 0, d[0..9]);
      && PiecesOf(w, d) && AllCovered(w, |d|) && !NoneRefused(w) && EachDone(growable, s, w)
      && Act(growable, AddAll(growable, s, w), Assemble).1 == Incomplete
  {
    hide Asm.Add, Runs, OddOctets, Refused, SlotOk, AddAll, AllTaken, EachDone;
    var w := Write(OddOctets(d, 5), 0, d[0..9]);
    GatheringSized(s, NoWrites, d, true);
    OddPieces(d, 5);
    OddCovers(d);
    FifthIsRefused(d);
    TenthNotTaken(d);
    AddAllGathers(growable, s, w, d, true);
    AssembledPieces(growable, AddAll(growable, s, w), w, d, true);
  }

  /** With nothing refused, the datagram is complete once every octet has come. */
  lemma NothingLost(w: Writes, n: nat)
    requires NoneRefused(w)
    ensures AllTaken(w, n) <==> AllCovered(w, n)
  {
    hide NoneRefused, Taken, Covered;
    forall o: int
      ensures Taken(w, o) <==> Covered(w, o)
    {
      TakenIsCovered(w, o);
    }
  }
}
