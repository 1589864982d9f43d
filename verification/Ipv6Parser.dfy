/** The parser as the object it is: a cursor over the text, rolled back when an attempt fails. */
module Ipv6Parser {
  import opened Common
  import opened Ipv6Text

  /** The address under construction: groups before and after the double colon, and how many of each. */
  class Buffers {
    const head: array<nat>
    const tail: array<nat>
    var headIdx: nat
    var tailIdx: nat

    ghost predicate Valid()
      reads this, head, tail
    {
      && head.Length == 8 && tail.Length == 6 && head != tail && headIdx <= 8 && tailIdx <= 6
      && forall i :: headIdx <= i < 8 ==> head[i] == 0
    }

    ghost function View(useTail: bool): Groups
      requires Valid()
      reads this, head, tail
    {
      Groups(head[..headIdx], tail[..tailIdx], useTail)
    }

    constructor ()
      ensures Valid() && View(false) == START && fresh(head) && fresh(tail)
    {
      head := new nat[8](_ => 0);
      tail := new nat[6](_ => 0);
      headIdx := 0;
      tailIdx := 0;
    }
  }

  /** Groups not written yet are zero, so the whole head is zero if the written ones are. */
  lemma PaddedZero(head: seq<nat>, n: nat)
    requires |head| == 8 && n <= 8 && forall i :: n <= i < 8 ==> head[i] == 0
    ensures head == [0, 0, 0, 0, 0, 0, 0, 0] <==> AllZero(head[..n])
  {
    if AllZero(head[..n]) {
      forall i | 0 <= i < 8
        ensures head[i] == 0
      {
        assert i < n ==> head[..n][i] == 0;
      }
    }
  }

  class Parser {
    const data: string
    var pos: nat

    ghost predicate Valid()
      reads this
    {
      pos <= |data|
    }

    /** The text not read yet. */
    ghost function Left(): string
      requires Valid()
      reads this
    {
      data[pos..]
    }

    constructor (text: string)
      ensures Valid() && data == text && Left() == text
    {
      data := text;
      pos := 0;
    }

    method AcceptChar(c: char) returns (ok: bool)
      requires Valid()
      modifies this
      ensures Valid() && pos <= old(pos) + 1
      ensures var r := Accept(old(Left()), c); ok == r.Some? && (ok ==> Left() == r.value && pos == old(pos) + 1)
    {
      if pos < |data| {
        pos := pos + 1;
        ok := data[pos - 1] == c;
      } else {
        ok := false;
      }
    }

    method AcceptDigit(hex: bool) returns (r: Option<nat>)
      requires Valid()
      modifies this
      ensures Valid()
      ensures r == if old(Left()) == [] then None else DigitValue(old(Left())[0], hex)
      ensures r.Some? ==> pos == old(pos) + 1
    {
      if pos < |data| {
        pos := pos + 1;
        r := DigitValue(data[pos - 1], hex);
      } else {
        r := None;
      }
    }

    method AcceptNumber(maxDigits: nat, maxValue: nat, hex: bool) returns (r: Option<nat>)
      requires Valid() && maxDigits >= 1
      modifies this
      ensures Valid()
      ensures var n := Number(old(Left()), maxDigits, maxValue, hex);
        if n.None? then r.None? else r == Some(n.value.0) && Left() == n.value.1
    {
      ghost var text := Left();
      var first := AcceptDigit(hex);
      if first.None? {
        return None;
      }
      assert Left() == text[1..];
      var value: nat := first.value;
      var i := 1;
      while i < maxDigits
        invariant 1 <= i <= maxDigits && Valid()
        invariant MoreDigits(text[1..], first.value, maxDigits - 1, hex)
               == MoreDigits(Left(), value, maxDigits - i, hex)
      {
        var start := pos;
        ghost var before := Left();
        var digit := AcceptDigit(hex);
        if digit.None? {
          pos := start;
          break;
        }
        assert Left() == before[1..];
        value := value * (if hex then 16 else 10) + digit.value;
        i := i + 1;
      }
      if value < maxValue {
        r := Some(value);
      } else {
        r := None;
      }
    }

    /** Four octets with dots between them, as two groups. */
    method AcceptOctets() returns (r: Option<(nat, nat)>)
      requires Valid()
      modifies this
      ensures Valid()
      ensures var m := MappedGroups(old(Left()));
        if m.None? then r.None? else r == Some((m.value.0, m.value.1)) && Left() == m.value.2
    {
      hide Number;
      var a := AcceptNumber(3, 0x100, false);
      if a.None? {
        return None;
      }
      var dot := AcceptChar('.');
      if !dot {
        return None;
      }
      var b := AcceptNumber(3, 0x100, false);
      if b.None? {
        return None;
      }
      dot := AcceptChar('.');
      if !dot {
        return None;
      }
      var c := AcceptNumber(3, 0x100, false);
      if c.None? {
        return None;
      }
      dot := AcceptChar('.');
      if !dot {
        return None;
      }
      var d := AcceptNumber(3, 0x100, false);
      if d.None? {
        return None;
      }
      r := Some((a.value * 0x100 + b.value, c.value * 0x100 + d.value));
    }

    /** A colon and four octets, or nothing. */
    method TryOctets() returns (r: Option<(nat, nat)>)
      requires Valid()
      modifies this
      ensures Valid()
      ensures forall g: seq<nat> ::
        TryMapped(old(Left()), g) == (if r.None? then g else g + [r.value.0, r.value.1], Left())
    {
      hide MappedGroups;
      var start := pos;
      var colon := AcceptChar(':');
      if !colon {
        pos := start;
        return None;
      }
      r := AcceptOctets();
      if r.None? {
        pos := start;
      }
    }

    /** The colon or double colon before a group. */
    method AcceptSeparator(a: Buffers, useTail: bool) returns (ok: bool, doubleColon: bool)
      requires Valid() && a.Valid()
      modifies this
      ensures Valid()
      ensures var r := Separator(old(Left()), a.View(useTail));
        ok == r.Some? && (ok ==> r.value == (Left(), doubleColon))
    {
      var start := pos;
      doubleColon := AcceptChar(':');
      if doubleColon {
        doubleColon := AcceptChar(':');
      }
      if doubleColon {
        ok := !useTail && a.headIdx < 7;
        return;
      }
      pos := start;
      if a.headIdx != 0 || (useTail && a.tailIdx != 0) {
        ok := AcceptChar(':');
      } else {
        ok := true;
      }
    }

    /** The head gets a group, and the two of a mapped address if they follow. */
    method PushHead(a: Buffers, part: nat)
      requires Valid() && a.Valid() && a.headIdx < 8
      modifies this, a, a.head
      ensures Valid() && a.Valid() && a.tailIdx == old(a.tailIdx) && a.tail[..] == old(a.tail[..])
      ensures var head := old(a.head[..a.headIdx]) + [part];
        (a.head[..a.headIdx], Left()) ==
        if head == MAPPED_PREFIX then TryMapped(old(Left()), head) else (head, old(Left()))
    {
      hide TryMapped;
      ghost var text, head := Left(), a.head[..a.headIdx] + [part];
      a.head[a.headIdx] := part;
      a.headIdx := a.headIdx + 1;
      assert a.head[..a.headIdx] == head && Left() == text;
      if a.headIdx == 6 && a.head[..6] == MAPPED_PREFIX {
        var m := TryOctets();
        assert TryMapped(text, head) == (if m.None? then head else head + [m.value.0, m.value.1], Left());
        if m.Some? {
          a.head[a.headIdx] := m.value.0;
          a.headIdx := a.headIdx + 1;
          a.head[a.headIdx] := m.value.1;
          a.headIdx := a.headIdx + 1;
          assert a.head[..a.headIdx] == head + [m.value.0, m.value.1];
        }
      }
    }

    /** The same for the tail, if the head is all zeros. */
    method PushTail(a: Buffers, part: nat)
      requires Valid() && a.Valid() && a.tailIdx < 6
      modifies this, a, a.tail
      ensures Valid() && a.Valid() && a.headIdx == old(a.headIdx) && a.head[..] == old(a.head[..])
      ensures var tail := old(a.tail[..a.tailIdx]) + [part];
        (a.tail[..a.tailIdx], Left()) ==
        if |tail| == 1 && part == 0xffff && AllZero(old(a.head[..a.headIdx]))
        then TryMapped(old(Left()), tail) else (tail, old(Left()))
    {
      hide TryMapped;
      ghost var text, tail := Left(), a.tail[..a.tailIdx] + [part];
      a.tail[a.tailIdx] := part;
      a.tailIdx := a.tailIdx + 1;
      assert a.tail[..a.tailIdx] == tail && Left() == text;
      PaddedZero(a.head[..], a.headIdx);
      if a.tailIdx == 1 && a.tail[0] == 0xffff && a.head[..] == [0, 0, 0, 0, 0, 0, 0, 0] {
        var m := TryOctets();
        assert TryMapped(text, tail) == (if m.None? then tail else tail + [m.value.0, m.value.1], Left());
        if m.Some? {
          a.tail[a.tailIdx] := m.value.0;
          a.tailIdx := a.tailIdx + 1;
          a.tail[a.tailIdx] := m.value.1;
          a.tailIdx := a.tailIdx + 1;
          assert a.tail[..a.tailIdx] == tail + [m.value.0, m.value.1];
        }
      }
    }

    /** A group after its separator; false if the text is bad. */
    method AcceptGroup(a: Buffers, useTail: bool, doubleColon: bool) returns (ok: bool)
      requires Valid() && a.Valid()
      modifies this, a, a.head, a.tail
      ensures Valid() && a.Valid()
      ensures var r := Group(old(Left()), old(a.View(useTail)), doubleColon);
        ok == r.Some? && (ok ==> r.value == (Left(), a.View(useTail)))
    {
      hide Number, TryMapped, AllZero;
      ghost var g := a.View(useTail);
      var start := pos;
      var part := AcceptNumber(4, 0x10000, true);
      if part.None? {
        pos := start;
        return doubleColon;
      }
      if !useTail && a.headIdx < 8 {
        PushHead(a, part.value);
        ok := true;
      } else if a.tailIdx < 6 {
        PushTail(a, part.value);
        ok := true;
      } else {
        ok := false;
      }
    }

    /** One group after another until no colon follows. */
    method AcceptPart(a: Buffers, useTail: bool) returns (ok: bool)
      requires Valid() && a.Valid()
      modifies this, a, a.head, a.tail
      ensures Valid() && a.Valid()
      ensures var r := Parts(old(Left()), old(a.View(useTail)));
        ok == r.Some? &&
        (ok ==> r.value.0 == Left() && r.value.1.head == a.head[..a.headIdx] && r.value.1.tail == a.tail[..a.tailIdx])
      decreases |data| - pos
    {
      hide Separator, Group;
      ghost var s, g := Left(), a.View(useTail);
      var sep, doubleColon := AcceptSeparator(a, useTail);
      if !sep {
        return false;
      }
      var tail := useTail || doubleColon;
      assert a.View(tail) == g.(useTail := tail);
      var group := AcceptGroup(a, tail, doubleColon);
      if !group {
        return false;
      }
      assert Part(s, g) == Some((Left(), a.View(tail)));
      PartConsumes(s, g);
      if a.headIdx + a.tailIdx > 8 {
        return false;
      }
      if !(pos < |data| && data[pos] == ':') {
        return !(a.headIdx < 8 && !tail);
      }
      ok := AcceptPart(a, tail);
    }

    /** The tail is copied to the end of the eight groups. */
    method AcceptAddress() returns (r: Option<seq<nat>>)
      requires Valid()
      modifies this
      ensures Valid()
      ensures var w := AcceptIpv6(old(Left()));
        if w.None? then r.None? else r == Some(w.value.0) && Left() == w.value.1
    {
      hide Parts;
      ghost var s := Left();
      PartsBounds(s, START);
      var a := new Buffers();
      var ok := AcceptPart(a, false);
      if !ok {
        return None;
      }
      ghost var g := Parts(s, START).value.1;
      var addr := a.head[..];
      addr := addr[..8 - a.tailIdx] + a.tail[..a.tailIdx];
      assert addr == Address(g);
      r := Some(addr);
    }

    /** The whole text must be an address. */
    method ParseIpv6() returns (r: Option<seq<nat>>)
      requires Valid()
      modifies this
      ensures r == Parse(old(Left()))
    {
      var addr := AcceptAddress();
      if addr.Some? && pos == |data| {
        r := addr;
      } else {
        r := None;
      }
    }
  }
}
