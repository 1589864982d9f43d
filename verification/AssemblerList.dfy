/**
 The out-of-order assembler: which offsets past the window start have been received.
 `Add` and friends work on the list of contigs in use; `Has` is the set of offsets it stands for.
 */
module AssemblerList {
  import opened Common

  /** ASSEMBLER_MAX_SEGMENT_COUNT at its default. */
  const MAX_SEGMENTS: nat := 4

  /** A chunk of absent data followed by a chunk of present data. */
  datatype Contig = Contig(hole: nat, data: nat)
  {
    function Total(): nat {
      hole + data
    }
  }

  datatype Contigs = Nil | Cons(head: Contig, tail: Contigs)

  function Count(l: Contigs): nat {
    if l.Nil? then 0 else 1 + Count(l.tail)
  }

  /** Every contig holds data, and only the first may have no hole. */
  predicate Tight(l: Contigs, first: bool) {
    l.Cons? ==> l.head.data > 0 && (first || l.head.hole > 0) && Tight(l.tail, false)
  }

  predicate Valid(l: Contigs) {
    Count(l) <= MAX_SEGMENTS && Tight(l, true)
  }

  /** Whether offset `o` has been received. */
  predicate Has(l: Contigs, o: int) {
    l.Cons? && if o < l.head.Total() then o >= l.head.hole else Has(l.tail, o - l.head.Total())
  }

  /** One past the last received offset. */
  function Extent(l: Contigs): nat {
    if l.Nil? then 0 else l.head.Total() + Extent(l.tail)
  }

  function PeekFront(l: Contigs): nat {
    if l.Nil? || l.head.hole != 0 then 0 else l.head.data
  }

  /** Merge the range ending at `end` into `c` and whatever follows it. */
  function Coalesce(c: Contig, rest: Contigs, end: nat): Contigs
    decreases rest
  {
    if rest.Cons? && end >= c.Total() + rest.head.hole then
      Coalesce(Contig(c.hole, c.data + rest.head.Total()), rest.tail, end)
    else if end > c.Total() then
      var left := end - c.Total();
      Cons(Contig(c.hole, c.data + left),
           if rest.Nil? then Nil else Cons(Contig(rest.head.hole - left, rest.head.data), rest.tail))
    else Cons(c, rest)
  }

  /** Add `[offset, offset + size)`; `room` says whether one more contig may be recorded. */
  function AddFrom(l: Contigs, offset: nat, size: nat, room: bool): Option<Contigs> {
    if l.Nil? then
      if room then Some(Cons(Contig(offset, size), Nil)) else None
    else if offset > l.head.Total() then
      var tail := AddFrom(l.tail, offset - l.head.Total(), size, room);
      if tail.None? then None else Some(Cons(l.head, tail.value))
    else if offset < l.head.hole then
      if offset + size < l.head.hole then
        if room then
          Some(Cons(Contig(offset, size), Cons(Contig(l.head.hole - (offset + size), l.head.data), l.tail)))
        else None
      else
        Some(Coalesce(Contig(offset, l.head.Total() - offset), l.tail, offset + size))
    else
      Some(Coalesce(l.head, l.tail, offset + size))
  }

  /** `add`; None is `TooManyHolesError`, which leaves the assembler alone. */
  function Add(l: Contigs, offset: nat, size: nat): Option<Contigs> {
    if size == 0 then Some(l) else AddFrom(l, offset, size, Count(l) < MAX_SEGMENTS)
  }

  function RemoveFront(l: Contigs): (Contigs, nat) {
    if l.Nil? || l.head.hole != 0 then (l, 0) else (l.tail, l.head.data)
  }

  function AddThenRemoveFront(l: Contigs, offset: nat, size: nat): Option<(Contigs, nat)> {
    if offset == 0 && l.Cons? && size < l.head.hole then
      Some((Cons(Contig(l.head.hole - size, l.head.data), l.tail), size))
    else
      var r := Add(l, offset, size);
      if r.None? then None else Some(RemoveFront(r.value))
  }

  // ---- the contigs stand for exactly the offsets received ----

  lemma {:induction false} HasBounds(l: Contigs, o: int)
    requires Has(l, o)
    ensures 0 <= o < Extent(l)
  {
    if o >= l.head.Total() {
      HasBounds(l.tail, o - l.head.Total());
    }
  }

  lemma {:induction false} CoalesceShape(c: Contig, rest: Contigs, end: nat, first: bool)
    requires c.data > 0 && (first || c.hole > 0) && Tight(rest, false)
    ensures var r := Coalesce(c, rest, end);
      && Tight(r, first) && Count(r) <= 1 + Count(rest)
      && Extent(r) == MaxOf(Extent(Cons(c, rest)), end)
    decreases rest
  {
    if rest.Cons? && end >= c.Total() + rest.head.hole {
      CoalesceShape(Contig(c.hole, c.data + rest.head.Total()), rest.tail, end, first);
    }
  }

  lemma {:induction false} CoalesceHas(c: Contig, rest: Contigs, end: nat, o: int)
    requires c.data > 0 && Tight(rest, false)
    ensures Has(Coalesce(c, rest, end), o) <==> Has(Cons(c, rest), o) || c.Total() <= o < end
    decreases rest
  {
    if rest.Cons? && end >= c.Total() + rest.head.hole {
      CoalesceHas(Contig(c.hole, c.data + rest.head.Total()), rest.tail, end, o);
    }
  }

  lemma {:induction false} AddFromShape(l: Contigs, offset: nat, size: nat, room: bool, first: bool)
    requires size > 0 && Tight(l, first) && (first || offset > 0)
    requires AddFrom(l, offset, size, room).Some?
    ensures var r := AddFrom(l, offset, size, room).value;
      && Tight(r, first) && Count(r) <= Count(l) + (if room then 1 else 0)
      && Extent(r) == MaxOf(Extent(l), offset + size)
    decreases l
  {
    hide Coalesce;
    if l.Nil? {
    } else if offset > l.head.Total() {
      AddFromShape(l.tail, offset - l.head.Total(), size, room, false);
    } else if offset < l.head.hole && offset + size >= l.head.hole {
      CoalesceShape(Contig(offset, l.head.Total() - offset), l.tail, offset + size, first);
    } else if offset >= l.head.hole {
      CoalesceShape(l.head, l.tail, offset + size, first);
    }
  }

  /** Adding a range adds exactly its offsets. */
  lemma {:induction false} AddFromHas(l: Contigs, offset: nat, size: nat, room: bool, o: int, first: bool)
    requires size > 0 && Tight(l, first)
    requires AddFrom(l, offset, size, room).Some?
    ensures Has(AddFrom(l, offset, size, room).value, o) <==> Has(l, o) || offset <= o < offset + size
    decreases l
  {
    hide Coalesce;
    if l.Nil? {
    } else if offset > l.head.Total() {
      AddFromHas(l.tail, offset - l.head.Total(), size, room, o - l.head.Total(), false);
    } else if offset < l.head.hole && offset + size >= l.head.hole {
      CoalesceHas(Contig(offset, l.head.Total() - offset), l.tail, offset + size, o);
    } else if offset >= l.head.hole {
      CoalesceHas(l.head, l.tail, offset + size, o);
    }
  }

  /** Whether some received offset lies in `[lo, hi]`. */
  predicate Touches(l: Contigs, lo: int, hi: int) {
    exists o :: lo <= o <= hi && Has(l, o)
  }

  lemma TouchesTail(l: Contigs, lo: int, hi: int)
    requires l.Cons? && l.head.Total() <= lo
    ensures Touches(l, lo, hi) <==> Touches(l.tail, lo - l.head.Total(), hi - l.head.Total())
  {
    var t := l.head.Total();
    if Touches(l, lo, hi) {
      var o :| lo <= o <= hi && Has(l, o);
      assert Has(l.tail, o - t);
    }
    if Touches(l.tail, lo - t, hi - t) {
      var o :| lo - t <= o <= hi - t && Has(l.tail, o);
      assert Has(l, o + t);
    }
  }

  /** Without room, a range is refused exactly when it neither overlaps nor touches a contig. */
  lemma {:induction false} AddFromRefuses(l: Contigs, offset: nat, size: nat, first: bool)
    requires size > 0 && Tight(l, first) && (first || offset > 0)
    ensures AddFrom(l, offset, size, false).None? <==> !Touches(l, offset - 1, offset + size)
    decreases l
  {
    if l.Nil? {
    } else if offset > l.head.Total() {
      AddFromRefuses(l.tail, offset - l.head.Total(), size, false);
      TouchesTail(l, offset - 1, offset + size);
    } else if offset + size < l.head.hole {
      assert forall o :: o <= offset + size ==> !Has(l, o);
    } else if offset < l.head.hole {
      assert Has(l, l.head.hole);
    } else {
      assert Has(l, if offset < l.head.Total() then offset else offset - 1);
    }
  }

  lemma {:induction false} AddFromRoom(l: Contigs, offset: nat, size: nat)
    ensures AddFrom(l, offset, size, true).Some?
    decreases l
  {
    if l.Cons? && offset > l.head.Total() {
      AddFromRoom(l.tail, offset - l.head.Total(), size);
    }
  }

  /**
   `add`: on success the offsets are the old ones and the new range; it is refused exactly when
   all contigs are in use and the range touches none of them.
   */
  lemma AddMeaning(l: Contigs, offset: nat, size: nat)
    requires Valid(l)
    ensures var r := Add(l, offset, size);
      && (r.Some? ==>
            && Valid(r.value)
            && Extent(r.value) == (if size == 0 then Extent(l) else MaxOf(Extent(l), offset + size))
            && forall o: int :: Has(r.value, o) <==> Has(l, o) || offset <= o < offset + size)
      && (r.None? <==>
            size > 0 && Count(l) == MAX_SEGMENTS && !Touches(l, offset - 1, offset + size))
  {
    hide AddFrom, Has, Tight, Touches, Extent;
    if size > 0 {
      var room := Count(l) < MAX_SEGMENTS;
      if AddFrom(l, offset, size, room).Some? {
        AddFromShape(l, offset, size, room, true);
        forall o: int
          ensures Has(AddFrom(l, offset, size, room).value, o) <==> Has(l, o) || offset <= o < offset + size
        {
          AddFromHas(l, offset, size, room, o, true);
        }
      }
      if room {
        AddFromRoom(l, offset, size);
      } else {
        AddFromRefuses(l, offset, size, true);
      }
    }
  }

  /** Removing the front takes off the whole run at offset 0 and shifts the rest down. */
  lemma RemoveFrontMeaning(l: Contigs)
    requires Valid(l)
    ensures var (r, n) := RemoveFront(l);
      && Valid(r) && n + Extent(r) == Extent(l)
      && (forall o :: 0 <= o < n ==> Has(l, o)) && !Has(l, n)
      && forall o: int :: o >= 0 ==> (Has(r, o) <==> Has(l, o + n))
  {
    var (r, n) := RemoveFront(l);
    if l.Cons? && l.head.hole == 0 {
      forall o: int | o >= 0
        ensures Has(r, o) <==> Has(l, o + n)
      {
        assert o + n - l.head.Total() == o;
      }
      assert Tight(r, false) && !Has(r, 0);
      assert !Has(l, 0 + n);
    }
  }

  lemma FrontTouches(l: Contigs, size: nat)
    requires Valid(l) && l.Cons? && l.head.hole <= size
    ensures Touches(l, -1, size)
  {
    assert Has(l, l.head.hole);
  }

  /**
   What TCP relies on. `add_then_remove_front` either refuses, which it never does at offset 0,
   or removes the whole run at the front of the old offsets together with the new ones.
   */
  lemma AddThenRemoveFrontMeaning(l: Contigs, offset: nat, size: nat)
    requires Valid(l) && size > 0
    ensures var r := AddThenRemoveFront(l, offset, size);
      && (offset == 0 ==> r.Some?)
      && (r.Some? ==>
            var (l', n) := r.value;
            && Valid(l') && n + Extent(l') == MaxOf(Extent(l), offset + size)
            && (forall o :: 0 <= o < n ==> Has(l, o) || offset <= o < offset + size)
            && !(Has(l, n) || offset <= n < offset + size)
            && forall o: int :: o >= 0 ==>
                 (Has(l', o) <==> Has(l, o + n) || offset <= o + n < offset + size))
  {
    hide Has, Add, Tight, Extent, RemoveFront, Touches;
    if offset == 0 && l.Cons? && size < l.head.hole {
      FrontHoleShrinks(l, size);
    } else {
      AddMeaning(l, offset, size);
      var r := Add(l, offset, size);
      if offset == 0 && l.Cons? {
        FrontTouches(l, size);
      }
      if r.Some? {
        RemoveFrontMeaning(r.value);
      }
    }
  }

  /** It refuses exactly when `add` does, but never at offset 0. */
  lemma AddThenRemoveFrontRefuses(l: Contigs, offset: nat, size: nat)
    requires Valid(l) && size > 0
    ensures AddThenRemoveFront(l, offset, size).None? <==>
      offset > 0 && Count(l) == MAX_SEGMENTS && !Touches(l, offset - 1, offset + size)
  {
    hide Has, Add, Tight, Extent, RemoveFront, Touches, Count;
    AddMeaning(l, offset, size);
    AddThenRemoveFrontMeaning(l, offset, size);
  }

  /** A short segment at the front of a hole only shortens the hole. */
  lemma FrontHoleShrinks(l: Contigs, size: nat)
    requires Valid(l) && l.Cons? && 0 < size < l.head.hole
    ensures var l' := Cons(Contig(l.head.hole - size, l.head.data), l.tail);
      && Valid(l') && size + Extent(l') == Extent(l) && size < Extent(l)
      && !Has(l, size)
      && forall o: int :: o >= 0 ==> (Has(l', o) <==> Has(l, o + size))
  {
    var l' := Cons(Contig(l.head.hole - size, l.head.data), l.tail);
    forall o: int | o >= 0
      ensures Has(l', o) <==> Has(l, o + size)
    {
      assert o - l'.head.Total() == o + size - l.head.Total();
    }
  }

  /** The run at offset 0 is exactly what `peek_front` reports. */
  lemma PeekFrontMeaning(l: Contigs, n: nat)
    requires Valid(l)
    ensures PeekFront(l) == n <==> (forall o :: 0 <= o < n ==> Has(l, o)) && !Has(l, n)
  {
    hide Has;
    RemoveFrontMeaning(l);
    var m := PeekFront(l);
    if n < m {
      assert Has(l, n);
    } else if m < n {
      assert !Has(l, m);
    }
  }
}
