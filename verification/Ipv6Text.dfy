/**
 The text form of IPv6 addresses, section 2.2 of RFC 4291: parsing as a function from the text that is left
 to what was read and the text then left.
 */
module Ipv6Text {
  import opened Common

  // ---- numbers ----

  function DigitValue(c: char, hex: bool): Option<nat> {
    if '0' <= c <= '9' then Some((c - '0') as nat)
    else if hex && 'a' <= c <= 'f' then Some((c - 'a') as nat + 10)
    else if hex && 'A' <= c <= 'F' then Some((c - 'A') as nat + 10)
    else None
  }

  function Base(hex: bool): nat {
    if hex then 16 else 10
  }

  predicate StartsWithDigit(s: string, hex: bool) {
    s != [] && DigitValue(s[0], hex).Some?
  }

  /** Up to `left` more digits. */
  function MoreDigits(s: string, value: nat, left: nat, hex: bool): (nat, string)
    decreases left
  {
    if left == 0 || !StartsWithDigit(s, hex) then (value, s)
    else MoreDigits(s[1..], value * Base(hex) + DigitValue(s[0], hex).value, left - 1, hex)
  }

  function Number(s: string, maxDigits: nat, maxValue: nat, hex: bool): Option<(nat, string)>
    requires maxDigits >= 1
  {
    if !StartsWithDigit(s, hex) then None
    else
      var (value, rest) := MoreDigits(s[1..], DigitValue(s[0], hex).value, maxDigits - 1, hex);
      if value < maxValue then Some((value, rest)) else None
  }

  function Accept(s: string, c: char): Option<string> {
    if s != [] && s[0] == c then Some(s[1..]) else None
  }

  /** Four decimal octets, as the two groups they make. */
  function MappedGroups(s: string): Option<(nat, nat, string)> {
    var a := Number(s, 3, 0x100, false);
    if a.None? then None
    else
      var s1 := Accept(a.value.1, '.');
      if s1.None? then None
      else
        var b := Number(s1.value, 3, 0x100, false);
        if b.None? then None
        else
          var s2 := Accept(b.value.1, '.');
          if s2.None? then None
          else
            var c := Number(s2.value, 3, 0x100, false);
            if c.None? then None
            else
              var s3 := Accept(c.value.1, '.');
              if s3.None? then None
              else
                var d := Number(s3.value, 3, 0x100, false);
                if d.None? then None
                else Some((a.value.0 * 0x100 + b.value.0, c.value.0 * 0x100 + d.value.0, d.value.1))
  }

  // ---- groups ----

  /** The groups before and after a double colon, and whether there has been one. */
  datatype Groups = Groups(head: seq<nat>, tail: seq<nat>, useTail: bool)

  predicate AllZero(g: seq<nat>) {
    forall i :: 0 <= i < |g| ==> g[i] == 0
  }

  const MAPPED_PREFIX: seq<nat> := [0, 0, 0, 0, 0, 0xffff]

  /** After the prefix of a mapped address, a colon and four octets may follow; if they do not, nothing is read. */
  function TryMapped(s: string, g: seq<nat>): (seq<nat>, string) {
    var after := Accept(s, ':');
    if after.None? then (g, s)
    else
      var m := MappedGroups(after.value);
      if m.None? then (g, s) else (g + [m.value.0, m.value.1], m.value.2)
  }

  /** The colon or double colon before a group; None if the text is bad. */
  function Separator(s: string, g: Groups): Option<(string, bool)> {
    if |s| >= 2 && s[0] == ':' && s[1] == ':' then
      if !g.useTail && |g.head| < 7 then Some((s[2..], true)) else None
    else if |g.head| != 0 || (g.useTail && |g.tail| != 0) then
      var after := Accept(s, ':');
      if after.None? then None else Some((after.value, false))
    else Some((s, false))
  }

  /** A group after its separator. */
  function Group(s: string, g: Groups, doubleColon: bool): Option<(string, Groups)> {
    var n := Number(s, 4, 0x10000, true);
    if n.None? then
      if doubleColon then Some((s, g)) else None
    else
      var (part, rest) := n.value;
      if !g.useTail && |g.head| < 8 then
        var head := g.head + [part];
        if head == MAPPED_PREFIX then
          var (head', rest') := TryMapped(rest, head);
          Some((rest', g.(head := head')))
        else Some((rest, g.(head := head)))
      else if |g.tail| < 6 then
        var tail := g.tail + [part];
        if |tail| == 1 && tail[0] == 0xffff && AllZero(g.head) then
          var (tail', rest') := TryMapped(rest, tail);
          Some((rest', g.(tail := tail')))
        else Some((rest, g.(tail := tail)))
      else None
  }

  /** One separator and one group. */
  function Part(s: string, g: Groups): Option<(string, Groups)> {
    var sep := Separator(s, g);
    if sep.None? then None
    else Group(sep.value.0, g.(useTail := g.useTail || sep.value.1), sep.value.1)
  }

  /** Groups until no colon follows. */
  function Parts(s: string, g: Groups): Option<(string, Groups)>
    decreases |s|
  {
    var p := Part(s, g);
    if p.None? then None
    else
      PartConsumes(s, g);
      var (rest, g') := p.value;
      if |g'.head| + |g'.tail| > 8 then None
      else if Accept(rest, ':').None? then
        if |g'.head| < 8 && !g'.useTail then None else Some((rest, g'))
      else Parts(rest, g')
  }

  function Zeros(n: nat): (r: seq<nat>)
    ensures |r| == n && AllZero(r)
  {
    seq(n, _ => 0)
  }

  /** The eight groups: head, as many zeros as fit, tail. */
  function Address(g: Groups): (r: seq<nat>)
    requires |g.head| + |g.tail| <= 8
    ensures |r| == 8
  {
    g.head + Zeros(8 - |g.head| - |g.tail|) + g.tail
  }

  const START: Groups := Groups([], [], false)

  function AcceptIpv6(s: string): Option<(seq<nat>, string)> {
    PartsBounds(s, START);
    var r := Parts(s, START);
    if r.None? then None else Some((Address(r.value.1), r.value.0))
  }

  /** The whole text must be an address. */
  function Parse(s: string): Option<seq<nat>> {
    var r := AcceptIpv6(s);
    if r.Some? && r.value.1 == [] then Some(r.value.0) else None
  }

  // ---- termination and bounds, on every input ----

  lemma {:induction false} MoreDigitsShrinks(s: string, value: nat, left: nat, hex: bool)
    ensures |MoreDigits(s, value, left, hex).1| <= |s|
    ensures forall c :: c in MoreDigits(s, value, left, hex).1 ==> c in s
    decreases left
  {
    if left > 0 && StartsWithDigit(s, hex) {
      MoreDigitsShrinks(s[1..], value * Base(hex) + DigitValue(s[0], hex).value, left - 1, hex);
    }
  }

  lemma NumberShrinks(s: string, maxDigits: nat, maxValue: nat, hex: bool)
    requires maxDigits >= 1 && Number(s, maxDigits, maxValue, hex).Some?
    ensures |Number(s, maxDigits, maxValue, hex).value.1| < |s|
    ensures forall c :: c in Number(s, maxDigits, maxValue, hex).value.1 ==> c in s
    ensures Number(s, maxDigits, maxValue, hex).value.0 < maxValue
  {
    MoreDigitsShrinks(s[1..], DigitValue(s[0], hex).value, maxDigits - 1, hex);
  }

  lemma MappedShrinks(s: string)
    requires MappedGroups(s).Some?
    ensures |MappedGroups(s).value.2| < |s|
    ensures MappedGroups(s).value.0 < 0x10000 && MappedGroups(s).value.1 < 0x10000
  {
    hide Number;
    var a := Number(s, 3, 0x100, false);
    NumberShrinks(s, 3, 0x100, false);
    var s1 := Accept(a.value.1, '.').value;
    NumberShrinks(s1, 3, 0x100, false);
    var s2 := Accept(Number(s1, 3, 0x100, false).value.1, '.').value;
    NumberShrinks(s2, 3, 0x100, false);
    var s3 := Accept(Number(s2, 3, 0x100, false).value.1, '.').value;
    NumberShrinks(s3, 3, 0x100, false);
  }

  lemma TryMappedShrinks(s: string, g: seq<nat>)
    ensures |TryMapped(s, g).1| <= |s|
    ensures |TryMapped(s, g).0| == |g| || |TryMapped(s, g).0| == |g| + 2
    ensures (forall i :: 0 <= i < |g| ==> g[i] < 0x10000) ==>
      forall i :: 0 <= i < |TryMapped(s, g).0| ==> TryMapped(s, g).0[i] < 0x10000
  {
    hide MappedGroups;
    var after := Accept(s, ':');
    if after.Some? && MappedGroups(after.value).Some? {
      MappedShrinks(after.value);
    }
  }

  /** The head never has more than eight groups, the tail never more than six, each of 16 bits. */
  predicate InBounds(g: Groups) {
    && |g.head| <= 8 && |g.tail| <= 6
    && (forall i :: 0 <= i < |g.head| ==> g.head[i] < 0x10000)
    && (forall i :: 0 <= i < |g.tail| ==> g.tail[i] < 0x10000)
  }

  lemma GroupBounds(s: string, g: Groups, doubleColon: bool)
    requires Group(s, g, doubleColon).Some?
    ensures |Group(s, g, doubleColon).value.0| <= |s|
    ensures !doubleColon ==> |Group(s, g, doubleColon).value.0| < |s|
    ensures InBounds(g) ==> InBounds(Group(s, g, doubleColon).value.1)
  {
    hide Number, TryMapped;
    var n := Number(s, 4, 0x10000, true);
    if n.Some? {
      NumberShrinks(s, 4, 0x10000, true);
      TryMappedShrinks(n.value.1, g.head + [n.value.0]);
      TryMappedShrinks(n.value.1, g.tail + [n.value.0]);
    }
  }

  /** Every part reads something, so the recursion ends. */
  lemma PartConsumes(s: string, g: Groups)
    requires Part(s, g).Some?
    ensures |Part(s, g).value.0| < |s|
    ensures InBounds(g) ==> InBounds(Part(s, g).value.1)
  {
    hide Group, InBounds;
    var sep := Separator(s, g);
    GroupBounds(sep.value.0, g.(useTail := g.useTail || sep.value.1), sep.value.1);
    SameBounds(g, g.useTail || sep.value.1);
  }

  lemma SameBounds(g: Groups, useTail: bool)
    ensures InBounds(g) ==> InBounds(g.(useTail := useTail))
  {
  }

  lemma {:induction false} PartsBounds(s: string, g: Groups)
    ensures Parts(s, g).Some? ==>
      var (rest, g') := Parts(s, g).value;
      && |rest| < |s| && |g'.head| + |g'.tail| <= 8
      && (InBounds(g) ==> InBounds(g'))
    decreases |s|
  {
    hide Part, InBounds;
    if Part(s, g).Some? {
      PartConsumes(s, g);
      var (rest, g') := Part(s, g).value;
      if |g'.head| + |g'.tail| <= 8 && Accept(rest, ':').Some? {
        PartsBounds(rest, g');
      }
    }
  }
}
