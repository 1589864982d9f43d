/**
 The assembler as it is stored: a fixed array of contigs, used from the front and edited in place.
 Every method is proved to do to the array what `AssemblerList` does to the list of contigs in use.
 */
module AssemblerArray {
  import opened Common
  import L = AssemblerList

  const EMPTY: L.Contig := L.Contig(0, 0)

  /** Contigs in use come first; unused ones are empty. */
  predicate Packed(s: seq<L.Contig>) {
    forall i, j :: 0 <= i <= j < |s| && s[i].data == 0 ==> s[j] == EMPTY
  }

  /** The contigs in use from index `i` on. */
  function ListFrom(s: seq<L.Contig>, i: nat): L.Contigs
    decreases |s| - i
  {
    if i >= |s| || s[i].data == 0 then L.Nil else L.Cons(s[i], ListFrom(s, i + 1))
  }

  function Prepend(s: seq<L.Contig>, i: nat, l: L.Contigs): L.Contigs
    requires i <= |s|
  {
    if i == 0 then l else Prepend(s, i - 1, L.Cons(s[i - 1], l))
  }

  function PrependSome(s: seq<L.Contig>, i: nat, l: Option<L.Contigs>): Option<L.Contigs>
    requires i <= |s|
  {
    if l.None? then None else Some(Prepend(s, i, l.value))
  }

  lemma {:induction false} ListPrefix(s: seq<L.Contig>, i: nat)
    requires i <= |s| && forall k :: 0 <= k < i ==> s[k].data > 0
    ensures ListFrom(s, 0) == Prepend(s, i, ListFrom(s, i))
  {
    if i > 0 {
      ListPrefix(s, i - 1);
    }
  }

  lemma {:induction false} PrependSame(s: seq<L.Contig>, t: seq<L.Contig>, i: nat, l: L.Contigs)
    requires i <= |s| && i <= |t| && forall k :: 0 <= k < i ==> s[k] == t[k]
    ensures Prepend(s, i, l) == Prepend(t, i, l)
  {
    if i > 0 {
      PrependSame(s, t, i - 1, L.Cons(s[i - 1], l));
    }
  }

  lemma {:induction false} ListSame(s: seq<L.Contig>, t: seq<L.Contig>, i: nat)
    requires |s| == |t| && forall k :: i <= k < |s| ==> t[k] == s[k]
    ensures ListFrom(s, i) == ListFrom(t, i)
    decreases |s| - i
  {
    if i < |s| && s[i].data > 0 {
      ListSame(s, t, i + 1);
    }
  }

  /** `now` is `was` moved `shift` places to the left from `i` on. */
  predicate Shifted(was: seq<L.Contig>, now: seq<L.Contig>, i: nat, shift: nat) {
    |was| == |now| && forall k :: i <= k < |was| ==> now[k] == if k + shift < |was| then was[k + shift] else EMPTY
  }

  lemma {:induction false} ShiftedList(was: seq<L.Contig>, now: seq<L.Contig>, i: nat, j: nat, shift: nat)
    requires Shifted(was, now, i, shift) && i <= j
    ensures ListFrom(now, j) == ListFrom(was, j + shift)
    decreases |was| - j
  {
    if j < |was| {
      ShiftedList(was, now, i, j + 1, shift);
    }
  }

  lemma {:induction false} CountFrom(s: seq<L.Contig>, i: nat)
    requires Packed(s) && i <= |s|
    ensures L.Count(ListFrom(s, i)) <= |s| - i
    ensures i < |s| ==> (L.Count(ListFrom(s, i)) < |s| - i <==> s[|s| - 1].data == 0)
    decreases |s| - i
  {
    if i < |s| && s[i].data > 0 {
      CountFrom(s, i + 1);
    }
  }

  class Assembler {
    const contigs: array<L.Contig>

    ghost predicate Valid()
      reads contigs
    {
      contigs.Length == L.MAX_SEGMENTS && Packed(contigs[..])
    }

    function List(): L.Contigs
      reads contigs
    {
      ListFrom(contigs[..], 0)
    }

    constructor ()
      ensures Valid() && List() == L.Nil && fresh(contigs)
    {
      contigs := new L.Contig[L.MAX_SEGMENTS](_ => EMPTY);
    }

    method Clear()
      requires Valid()
      modifies contigs
      ensures Valid() && List() == L.Nil
    {
      for i := 0 to contigs.Length
        invariant forall k :: 0 <= k < i ==> contigs[k] == EMPTY
      {
        contigs[i] := EMPTY;
      }
    }

    method IsEmpty() returns (empty: bool)
      requires Valid()
      ensures empty <==> List() == L.Nil
    {
      empty := contigs[0].data == 0;
    }

    method PeekFront() returns (n: nat)
      requires Valid()
      ensures n == L.PeekFront(List())
    {
      n := if contigs[0].hole != 0 then 0 else contigs[0].data;
    }

    /** Move everything from `at` one place to the right; refused when the last place is in use. */
    method AddContigAt(at: nat, c: L.Contig) returns (ok: bool)
      requires Valid() && at < contigs.Length && contigs[at].data > 0 && c.data > 0
      modifies contigs
      ensures ok <==> old(contigs[contigs.Length - 1]).data == 0
      ensures !ok ==> contigs[..] == old(contigs[..])
      ensures ok ==> at + 1 < contigs.Length && Packed(contigs[..]) && contigs[at] == c
      ensures ok ==> forall k :: 0 <= k < at ==> contigs[k] == old(contigs[k])
      ensures ok ==> forall k :: at <= k < contigs.Length - 1 ==> contigs[k + 1] == old(contigs[k])
    {
      if contigs[contigs.Length - 1].data != 0 {
        return false;
      }
      ghost var was := contigs[..];
      var i := contigs.Length - 1;
      while i > at
        invariant at <= i < contigs.Length
        invariant forall k :: 0 <= k <= i ==> contigs[k] == was[k]
        invariant forall k :: i <= k < contigs.Length - 1 ==> contigs[k + 1] == was[k]
      {
        contigs[i] := contigs[i - 1];
        i := i - 1;
      }
      contigs[at] := c;
      InsertedPacked(was, at, contigs[..]);
      ok := true;
    }

    method RemoveContigAt(at: nat)
      requires Valid() && at < contigs.Length && contigs[at].data > 0
      modifies contigs
      ensures Valid()
      ensures forall k :: 0 <= k < at ==> contigs[k] == old(contigs[k])
      ensures forall k :: at <= k < contigs.Length - 1 ==> contigs[k] == old(contigs[k + 1])
      ensures contigs[contigs.Length - 1] == EMPTY
    {
      ghost var was := contigs[..];
      var i := at;
      while i < contigs.Length - 1 && contigs[i].data != 0
        invariant at <= i < contigs.Length
        invariant forall k :: 0 <= k < at ==> contigs[k] == was[k]
        invariant forall k :: at <= k < i ==> contigs[k] == was[k + 1]
        invariant forall k :: i <= k < contigs.Length ==> contigs[k] == was[k]
      {
        contigs[i] := contigs[i + 1];
        i := i + 1;
      }
      if i == contigs.Length - 1 {
        contigs[contigs.Length - 1] := EMPTY;
      }
      RemovedPacked(was, at, contigs[..]);
    }

    /** Merge the range ending at `end`, counted from the start of contig `i`, into the contigs from `i` on. */
    method CoalesceAt(i: nat, end: nat)
      requires Valid() && i < contigs.Length && contigs[i].data > 0
      modifies contigs
      ensures Valid()
      ensures forall k :: 0 <= k < i ==> contigs[k] == old(contigs[k])
      ensures ListFrom(contigs[..], i) ==
              old(L.Coalesce(contigs[i], ListFrom(contigs[..], i + 1), end))
    {
      hide Packed, ListFrom, L.Coalesce;
      ghost var was := contigs[..];
      var j := Absorb(i, end);
      ghost var merged := contigs[i];
      ShiftLeft(i, j - i - 1, was);
      ghost var shifted := contigs[..];
      ShiftedPacked(was, i, j - i - 1, shifted);
      ShiftedList(was, shifted, i + 1, i + 1, j - i - 1);
      if end > contigs[i].Total() {
        var left := end - contigs[i].Total();
        contigs[i] := L.Contig(contigs[i].hole, contigs[i].data + left);
        if i + 1 < contigs.Length && contigs[i + 1].data != 0 {
          contigs[i + 1] := L.Contig(contigs[i + 1].hole - left, contigs[i + 1].data);
        }
      }
      Extended(was, i, j, end, merged, shifted, contigs[..]);
    }

    /** Swallow the contigs the range reaches; returns the index of the first one it does not. */
    method Absorb(i: nat, end: nat) returns (j: nat)
      requires Valid() && i < contigs.Length && contigs[i].data > 0
      modifies contigs
      ensures i < j <= contigs.Length && contigs[i].data > 0
      ensures forall k :: 0 <= k < contigs.Length && k != i ==> contigs[k] == old(contigs[k])
      ensures forall k :: i < k < j ==> old(contigs[k]).data > 0
      ensures j < contigs.Length && contigs[j].data > 0 ==> end < contigs[i].Total() + contigs[j].hole
      ensures old(L.Coalesce(contigs[i], ListFrom(contigs[..], i + 1), end)) ==
              L.Coalesce(contigs[i], ListFrom(old(contigs[..]), j), end)
    {
      ghost var was := contigs[..];
      j := i + 1;
      while j < contigs.Length && contigs[j].data != 0 && end >= contigs[i].Total() + contigs[j].hole
        invariant i < j <= contigs.Length
        invariant contigs[i].data > 0
        invariant forall k :: 0 <= k < contigs.Length && k != i ==> contigs[k] == was[k]
        invariant forall k :: i < k < j ==> was[k].data > 0
        invariant L.Coalesce(was[i], ListFrom(was, i + 1), end) == L.Coalesce(contigs[i], ListFrom(was, j), end)
      {
        contigs[i] := L.Contig(contigs[i].hole, contigs[i].data + contigs[j].Total());
        j := j + 1;
      }
    }

    method ShiftLeft(i: nat, shift: nat, ghost was: seq<L.Contig>)
      requires contigs.Length == |was| && Packed(was) && i < |was|
      requires forall k :: 0 <= k < |was| && k != i ==> contigs[k] == was[k]
      modifies contigs
      ensures forall k :: 0 <= k <= i ==> contigs[k] == old(contigs[k])
      ensures Shifted(was, contigs[..], i + 1, shift)
    {
      if shift != 0 {
        var x := i + 1;
        while x < contigs.Length && contigs[x].data != 0
          invariant i < x <= contigs.Length
          invariant forall k :: 0 <= k <= i ==> contigs[k] == old(contigs[k])
          invariant forall k :: i < k < x ==> contigs[k] == if k + shift < |was| then was[k + shift] else EMPTY
          invariant forall k :: x <= k < |was| ==> contigs[k] == was[k]
        {
          contigs[x] := if x + shift < contigs.Length then contigs[x + shift] else EMPTY;
          x := x + 1;
        }
      }
    }

    /** Find the contig the range starts in or touches from the right, and the offset relative to it. */
    method FindContig(start: nat, size: nat, ghost room: bool) returns (i: nat, offset: nat)
      requires Valid()
      ensures i <= contigs.Length && forall k :: 0 <= k < i ==> contigs[k].data > 0
      ensures i < contigs.Length && contigs[i].data > 0 ==> offset <= contigs[i].Total()
      ensures L.AddFrom(List(), start, size, room) ==
              PrependSome(contigs[..], i, L.AddFrom(ListFrom(contigs[..], i), offset, size, room))
    {
      offset, i := start, 0;
      while i < contigs.Length && contigs[i].data != 0 && offset > contigs[i].Total()
        invariant i <= contigs.Length && forall k :: 0 <= k < i ==> contigs[k].data > 0
        invariant L.AddFrom(List(), start, size, room) ==
                  PrependSome(contigs[..], i, L.AddFrom(ListFrom(contigs[..], i), offset, size, room))
      {
        offset := offset - contigs[i].Total();
        i := i + 1;
      }
    }

    method Add(start: nat, size: nat) returns (ok: bool)
      requires Valid()
      modifies contigs
      ensures Valid()
      ensures old(L.Add(List(), start, size)) == if ok then Some(List()) else None
      ensures !ok ==> contigs[..] == old(contigs[..])
    {
      if size == 0 {
        return true;
      }
      ghost var was := contigs[..];
      ghost var room := L.Count(List()) < L.MAX_SEGMENTS;
      CountFrom(was, 0);
      var i, offset := FindContig(start, size, room);
      if i == contigs.Length {
        return false;
      }
      if contigs[i].data == 0 {
        contigs[i] := L.Contig(offset, size);
        Appended(was, i, contigs[..]);
        return true;
      }
      if offset + size < contigs[i].hole {
        ok := Insert(i, offset, size);
      } else {
        Grow(i, offset, size);
        ok := true;
      }
    }

    /** The range lies within the hole of contig `i`, short of its data. */
    method Insert(i: nat, offset: nat, size: nat) returns (ok: bool)
      requires Valid() && i < contigs.Length && contigs[i].data > 0
      requires size > 0 && offset + size < contigs[i].hole
      requires forall k :: 0 <= k < i ==> contigs[k].data > 0
      modifies contigs
      ensures Valid()
      ensures ok <==> old(contigs[contigs.Length - 1]).data == 0
      ensures !ok ==> contigs[..] == old(contigs[..])
      ensures ok ==> List() == old(Prepend(contigs[..], i, L.Cons(L.Contig(offset, size),
          L.Cons(L.Contig(contigs[i].hole - (offset + size), contigs[i].data), ListFrom(contigs[..], i + 1)))))
    {
      ghost var was := contigs[..];
      ok := AddContigAt(i, L.Contig(offset, size));
      if ok {
        contigs[i + 1] := L.Contig(contigs[i + 1].hole - (offset + size), contigs[i + 1].data);
        Inserted(was, i, contigs[..]);
      }
    }

    /** The range touches or overlaps the data of contig `i`. */
    method Grow(i: nat, offset: nat, size: nat)
      requires Valid() && i < contigs.Length && contigs[i].data > 0
      requires size > 0 && offset <= contigs[i].Total() && contigs[i].hole <= offset + size
      requires forall k :: 0 <= k < i ==> contigs[k].data > 0
      modifies contigs
      ensures Valid()
      ensures List() == old(Prepend(contigs[..], i, L.Coalesce(
          if offset < contigs[i].hole then L.Contig(offset, contigs[i].Total() - offset) else contigs[i],
          ListFrom(contigs[..], i + 1), offset + size)))
    {
      hide Packed, ListFrom, L.Coalesce;
      ghost var was := contigs[..];
      if offset < contigs[i].hole {
        contigs[i] := L.Contig(offset, contigs[i].Total() - offset);
      }
      assert contigs[..] == was[i := contigs[i]];
      PackedReplaced(was, i, contigs[i]);
      ListSame(was, contigs[..], i + 1);
      CoalesceAt(i, offset + size);
      ListPrefix(contigs[..], i);
      PrependSame(was, contigs[..], i, ListFrom(contigs[..], i));
    }

    method RemoveFront() returns (n: nat)
      requires Valid()
      modifies contigs
      ensures Valid()
      ensures old(L.RemoveFront(List())) == (List(), n)
    {
      var front := contigs[0];
      if front.hole != 0 || front.data == 0 {
        n := 0;
      } else {
        ghost var was := contigs[..];
        RemoveContigAt(0);
        ShiftedList(was, contigs[..], 0, 0, 1);
        n := front.data;
      }
    }

    method ShrinkFront(size: nat)
      requires Valid() && size < contigs[0].hole
      modifies contigs
      ensures Valid() && old(List()).Cons?
      ensures List() == old(L.Cons(L.Contig(List().head.hole - size, List().head.data), List().tail))
    {
      ghost var was := contigs[..];
      contigs[0] := L.Contig(contigs[0].hole - size, contigs[0].data);
      ListSame(was, contigs[..], 1);
    }

    /** Never refused at offset 0; see `AssemblerList.AddThenRemoveFrontMeaning`. */
    method AddThenRemoveFront(offset: nat, size: nat) returns (ok: bool, n: nat)
      requires Valid()
      modifies contigs
      ensures Valid()
      ensures old(L.AddThenRemoveFront(List(), offset, size)) == if ok then Some((List(), n)) else None
      ensures !ok ==> contigs[..] == old(contigs[..])
    {
      if offset == 0 && size < contigs[0].hole {
        ShrinkFront(size);
        return true, size;
      }
      ok := Add(offset, size);
      n := 0;
      if ok {
        n := RemoveFront();
      }
    }
  }

  lemma PackedReplaced(s: seq<L.Contig>, i: nat, c: L.Contig)
    requires Packed(s) && i < |s| && s[i].data > 0 && c.data > 0
    ensures Packed(s[i := c])
  {
  }

  lemma InsertedPacked(was: seq<L.Contig>, at: nat, now: seq<L.Contig>)
    requires Packed(was) && at < |was| == |now| && was[at].data > 0 && now[at].data > 0
    requires forall k :: 0 <= k < at ==> now[k] == was[k]
    requires forall k :: at <= k < |was| - 1 ==> now[k + 1] == was[k]
    ensures Packed(now)
  {
    forall i, j | 0 <= i <= j < |now| && now[i].data == 0
      ensures now[j] == EMPTY
    {
      assert at <= i;
      assert now[(i - 1) + 1] == was[i - 1] && now[(j - 1) + 1] == was[j - 1];
    }
  }

  lemma RemovedPacked(was: seq<L.Contig>, at: nat, now: seq<L.Contig>)
    requires Packed(was) && at < |was| == |now| && was[at].data > 0
    requires forall k :: 0 <= k < at ==> now[k] == was[k]
    requires forall k :: at <= k < |was| - 1 ==> now[k] == was[k + 1]
    requires now[|was| - 1] == EMPTY
    ensures Packed(now)
  {
    forall i, j | 0 <= i <= j < |now| && now[i].data == 0
      ensures now[j] == EMPTY
    {
      assert at <= i;
    }
  }

  lemma ShiftedPacked(was: seq<L.Contig>, i: nat, shift: nat, now: seq<L.Contig>)
    requires Packed(was) && i + 1 + shift <= |was| == |now| && was[i].data > 0 && now[i].data > 0
    requires forall k :: 0 <= k < i ==> now[k] == was[k]
    requires Shifted(was, now, i + 1, shift)
    ensures Packed(now)
  {
    forall a, b | 0 <= a <= b < |now| && now[a].data == 0
      ensures now[b] == EMPTY
    {
      assert i <= a;
    }
  }

  /** The last step of coalescing: the range outgrows the merged contig and eats into the next hole. */
  lemma Extended(was: seq<L.Contig>, i: nat, j: nat, end: nat, c: L.Contig, shifted: seq<L.Contig>, now: seq<L.Contig>)
    requires Packed(shifted) && i < j && i < |shifted| == |now| && shifted[i] == c && c.data > 0
    requires ListFrom(shifted, i + 1) == ListFrom(was, j)
    requires i + 1 < |shifted| && shifted[i + 1].data > 0 ==> end < c.Total() + shifted[i + 1].hole
    requires forall k :: 0 <= k < |now| && k != i && k != i + 1 ==> now[k] == shifted[k]
    requires now[i] == if end > c.Total() then L.Contig(c.hole, c.data + (end - c.Total())) else c
    requires i + 1 < |now| ==>
      (now[i + 1] ==
       if end > c.Total() && shifted[i + 1].data > 0
       then L.Contig(shifted[i + 1].hole - (end - c.Total()), shifted[i + 1].data) else shifted[i + 1])
    ensures Packed(now)
    ensures ListFrom(now, i) == L.Coalesce(c, ListFrom(was, j), end)
  {
    if i + 2 <= |now| {
      ListSame(shifted, now, i + 2);
    }
  }

  lemma Appended(was: seq<L.Contig>, i: nat, now: seq<L.Contig>)
    requires Packed(was) && i < |was| && was[i].data == 0 && |now| == |was| && now[i].data > 0
    requires forall k :: 0 <= k < i ==> was[k].data > 0
    requires now == was[i := now[i]]
    ensures Packed(now) && ListFrom(now, 0) == Prepend(was, i, L.Cons(now[i], L.Nil))
  {
    ListPrefix(now, i);
    PrependSame(was, now, i, ListFrom(now, i));
    assert ListFrom(now, i + 1) == L.Nil;
  }

  lemma Inserted(was: seq<L.Contig>, i: nat, now: seq<L.Contig>)
    requires Packed(was) && i + 1 < |was| == |now| && now[i].data > 0 && now[i + 1].data > 0
    requires was[|was| - 1].data == 0
    requires forall k :: 0 <= k < i ==> now[k] == was[k]
    requires forall k :: i < k < |was| - 1 ==> now[k + 1] == was[k]
    requires forall k :: 0 <= k < i ==> was[k].data > 0
    ensures Packed(now)
    ensures ListFrom(now, 0) == Prepend(was, i, L.Cons(now[i], L.Cons(now[i + 1], ListFrom(was, i + 1))))
  {
    InsertedListPacked(was, i, now);
    InsertedTail(was, i, now, i + 2);
    ListPrefix(now, i);
    PrependSame(was, now, i, ListFrom(now, i));
  }

  lemma InsertedListPacked(was: seq<L.Contig>, i: nat, now: seq<L.Contig>)
    requires Packed(was) && i + 1 < |was| == |now| && now[i].data > 0 && now[i + 1].data > 0
    requires forall k :: 0 <= k < i ==> now[k] == was[k]
    requires forall k :: i < k < |was| - 1 ==> now[k + 1] == was[k]
    requires forall k :: 0 <= k < i ==> was[k].data > 0
    ensures Packed(now)
  {
    forall a, b | 0 <= a <= b < |now| && now[a].data == 0
      ensures now[b] == EMPTY
    {
      assert now[(a - 1) + 1] == was[a - 1] && now[(b - 1) + 1] == was[b - 1];
    }
  }

  lemma {:induction false} InsertedTail(was: seq<L.Contig>, i: nat, now: seq<L.Contig>, j: nat)
    requires i + 2 <= j <= |now| == |was| && was[|was| - 1].data == 0
    requires forall k :: i < k < |was| - 1 ==> now[k + 1] == was[k]
    ensures ListFrom(now, j) == ListFrom(was, j - 1)
    decreases |now| - j
  {
    if j < |now| {
      assert now[(j - 1) + 1] == was[j - 1];
      InsertedTail(was, i, now, j + 1);
    }
  }
}
