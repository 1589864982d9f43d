/** Exactly which texts are taken for IPv6 addresses, and what each of them means. */
module Ipv6Language {
  import opened Common
  import opened Ipv6Text
  import opened Ipv6RoundTrip

  // ---- four octets ----

  /** Four decimal octets with dots between them, and what follows. */
  function Dotted(ds: seq<string>, rest: string): string
    requires |ds| == 4
  {
    ds[0] + ("." + (ds[1] + ("." + (ds[2] + ("." + (ds[3] + rest))))))
  }

  predicate SpellOctets(ds: seq<string>, dv: seq<nat>) {
    |ds| == 4 && |dv| == 4 && forall i :: 0 <= i < 4 ==> Spells(ds[i], dv[i], 3, false) && dv[i] < 0x100
  }

  /** The two groups that four octets make. */
  function Pair(dv: seq<nat>): seq<nat>
    requires |dv| == 4
  {
    [dv[0] * 0x100 + dv[1], dv[2] * 0x100 + dv[3]]
  }

  lemma DottedOctet(t: string, v: nat, rest: string)
    requires Spells(t, v, 3, false) && v < 0x100
    ensures Number(t + ("." + rest), 3, 0x100, false) == Some((v, "." + rest))
    ensures Accept("." + rest, '.') == Some(rest)
  {
    assert ("." + rest)[1..] == rest;
    NumberParses(t, v, "." + rest, 3, 0x100, false);
  }

  lemma DottedParses(ds: seq<string>, dv: seq<nat>, rest: string)
    requires SpellOctets(ds, dv) && Colon(rest)
    ensures MappedGroups(Dotted(ds, rest)) == Some((Pair(dv)[0], Pair(dv)[1], rest))
  {
    hide Number, Spells;
    DottedOctet(ds[0], dv[0], ds[1] + ("." + (ds[2] + ("." + (ds[3] + rest)))));
    DottedOctet(ds[1], dv[1], ds[2] + ("." + (ds[3] + rest)));
    DottedOctet(ds[2], dv[2], ds[3] + rest);
    NumberParses(ds[3], dv[3], rest, 3, 0x100, false);
  }

  lemma OctetCount(ds: seq<string>, dv: seq<nat>)
    requires SpellOctets(ds, dv)
    ensures |ds| == 4 && |dv| == 4
  {
  }

  lemma MappedTaken(ds: seq<string>, dv: seq<nat>, rest: string, g: seq<nat>)
    requires SpellOctets(ds, dv) && Colon(rest)
    ensures TryMapped(":" + Dotted(ds, rest), g) == (g + Pair(dv), rest)
  {
    hide MappedGroups, Dotted, Spells;
    assert (":" + Dotted(ds, rest))[1..] == Dotted(ds, rest);
    DottedParses(ds, dv, rest);
  }

  // ---- forms ----

  /** How an address goes on after its first groups. */
  datatype Ending =
    | Complete
    | Octets(ds: seq<string>, dv: seq<nat>)
    | Elision(extra: bool, ts: seq<string>, tv: seq<nat>)
    | MappedElision(extra: bool, f: string, ds: seq<string>, dv: seq<nat>, ts: seq<string>, tv: seq<nat>)

  /** The first groups, how they are spelt, and the ending. */
  datatype Form = Form(hs: seq<string>, hv: seq<nat>, end: Ending)

  predicate ValidEnd(hv: seq<nat>, e: Ending) {
    match e
    case Complete => |hv| == 8
    case Octets(ds, dv) => hv == MAPPED_PREFIX && SpellOctets(ds, dv)
    case Elision(extra, ts, tv) =>
      SpellAll(ts, tv) && |hv| <= 6 && Room(hv, [], |ts|) && (extra ==> hv != [] && ts != [])
    case MappedElision(extra, f, ds, dv, ts, tv) =>
      && Spells(f, 0xffff, 4, true) && SpellOctets(ds, dv) && SpellAll(ts, tv)
      && AllZero(hv) && |hv| <= 5 - |ts| && |ts| <= 3 && (extra ==> hv != [])
  }

  predicate Valid(f: Form) {
    SpellAll(f.hs, f.hv) && ValidEnd(f.hv, f.end)
  }

  function Colons(extra: bool): string {
    if extra then ":::" else "::"
  }

  function EndText(hv: seq<nat>, e: Ending): string
    requires ValidEnd(hv, e)
  {
    match e
    case Complete => ""
    case Octets(ds, dv) => ":" + Dotted(ds, "")
    case Elision(extra, ts, tv) => Colons(extra) + Joined(ts)
    case MappedElision(extra, f, ds, dv, ts, tv) => Colons(extra) + (f + (":" + Dotted(ds, Rest(ts))))
  }

  function Text(f: Form): string
    requires Valid(f)
  {
    Joined(f.hs) + EndText(f.hv, f.end)
  }

  /** The groups before and after the elision. */
  function EndGroups(hv: seq<nat>, e: Ending): Groups
    requires ValidEnd(hv, e)
  {
    match e
    case Complete => Groups(hv, [], false)
    case Octets(ds, dv) => Groups(hv + Pair(dv), [], false)
    case Elision(extra, ts, tv) => Groups(hv, tv, true)
    case MappedElision(extra, f, ds, dv, ts, tv) => Groups(hv, [0xffff] + Pair(dv) + tv, true)
  }

  lemma EndFits(hv: seq<nat>, e: Ending)
    requires ValidEnd(hv, e)
    ensures var g := EndGroups(hv, e); |g.head| + |g.tail| <= 8
  {
  }

  /** The eight groups a form stands for. */
  function Meaning(f: Form): seq<nat>
    requires Valid(f)
  {
    EndFits(f.hv, f.end);
    Address(EndGroups(f.hv, f.end))
  }

  // ---- every form is parsed ----

  lemma MappedHeadPart(t: string, v: nat, ds: seq<string>, dv: seq<nat>, g: Groups)
    requires Spells(t, v, 4, true) && v < 0x10000 && SpellOctets(ds, dv)
    requires !g.useTail && g.head != [] && g.head + [v] == MAPPED_PREFIX
    ensures Part(":" + t + (":" + Dotted(ds, "")), g) == Some(("", g.(head := MAPPED_PREFIX + Pair(dv))))
  {
    hide Number, TryMapped, Dotted;
    var rest := ":" + Dotted(ds, "");
    var s := ":" + t + rest;
    assert s[1..] == t + rest && s[1] == t[0] && |g.head| == 5;
    ColonEnds(rest);
    NumberParses(t, v, rest, 4, 0x10000, true);
    MappedTaken(ds, dv, "", MAPPED_PREFIX);
  }

  lemma JoinedSplit(hs: seq<string>, k: nat, after: string)
    requires 1 <= k <= |hs|
    ensures Joined(hs) + after == Joined(hs[..k]) + (Rest(hs[k..]) + after)
  {
    hide Rest, Joined;
    var front, back := hs[..k], Rest(hs[k..]) + after;
    RestCons(hs, after);
    RestCons(front, back);
    RestSplit(hs[1..], k - 1);
    assert hs[1..][..k - 1] == front[1..] && hs[1..][k - 1..] == hs[k..];
    Associates(Rest(front[1..]), Rest(hs[k..]), after);
  }

  lemma Associates(a: string, b: string, c: string)
    ensures (a + b) + c == a + (b + c)
  {
  }

  lemma {:induction false} RestSplit(hs: seq<string>, k: nat)
    requires k <= |hs|
    ensures Rest(hs) == Rest(hs[..k]) + Rest(hs[k..])
  {
    if k > 0 {
      RestSplit(hs[1..], k - 1);
      assert hs[1..][..k - 1] == hs[..k][1..] && hs[1..][k - 1..] == hs[k..] && hs[..k][0] == hs[0];
      Associates(":" + hs[0], Rest(hs[..k][1..]), Rest(hs[k..]));
    } else {
      assert hs[..k] == [] && hs[k..] == hs;
    }
  }

  lemma SpellFront(hs: seq<string>, hv: seq<nat>, k: nat)
    requires SpellAll(hs, hv) && k < |hs|
    ensures |hv| == |hs| && SpellAll(hs[..k], hv[..k]) && Spells(hs[k], hv[k], 4, true) && hv[k] < 0x10000
  {
  }

  /** Six groups `0:0:0:0:0:ffff`, then four octets. */
  lemma OctetsParse(hs: seq<string>, ds: seq<string>, dv: seq<nat>)
    requires SpellAll(hs, MAPPED_PREFIX) && SpellOctets(ds, dv)
    ensures Parts(Joined(hs) + (":" + Dotted(ds, "")), START)
         == Some(("", Groups(MAPPED_PREFIX + Pair(dv), [], false)))
  {
    hide Part, Parts, Spells, SpellAll, SpellOctets, Rest, Joined, Dotted;
    OctetCount(ds, dv);
    SameLength(hs, MAPPED_PREFIX);
    var octets := ":" + Dotted(ds, "");
    var front, zeros := hs[..5], MAPPED_PREFIX[..5];
    SpellFront(hs, MAPPED_PREFIX, 5);
    JoinedSplit(hs, 5, octets);
    LastRest(hs, octets);
    var after := ":" + hs[5] + octets;
    assert AllZero(zeros);
    FirstSteps(front, zeros, after);
    var g := Groups(zeros, [], false);
    assert zeros + [0xffff] == MAPPED_PREFIX;
    MappedHeadPart(hs[5], 0xffff, ds, dv, g);
    PartsUnfold(after, g);
  }

  lemma LastRest(hs: seq<string>, after: string)
    requires |hs| == 6
    ensures Rest(hs[5..]) + after == ":" + hs[5] + after
  {
    assert hs[5..] == [hs[5]];
    assert Rest([hs[5]]) == ":" + hs[5] + Rest([]);
  }

  /** `ffff` and four octets as the first groups after the elision. */
  lemma MappedTailPart(f: string, ds: seq<string>, dv: seq<nat>, rest: string, head: seq<nat>)
    requires Spells(f, 0xffff, 4, true) && SpellOctets(ds, dv) && Colon(rest) && AllZero(head) && |head| < 7
    ensures var s := f + (":" + Dotted(ds, rest));
      var taken := Some((rest, Groups(head, [0xffff] + Pair(dv), true)));
      && Part("::" + s, Groups(head, [], false)) == taken
      && (head != [] ==> Part(":" + s, Groups(head, [], true)) == taken)
  {
    hide Number, TryMapped, Dotted, SpellOctets;
    OctetCount(ds, dv);
    var octets := ":" + Dotted(ds, rest);
    var s := f + octets;
    assert ("::" + s)[2..] == s && (":" + s)[1..] == s && (":" + s)[1] == f[0];
    assert [] + [0xffff] == [0xffff];
    ColonEnds(octets);
    NumberParses(f, 0xffff, octets, 4, 0x10000, true);
    MappedTaken(ds, dv, rest, [0xffff]);
  }

  lemma MappedElisionParses(head: seq<nat>, e: Ending)
    requires e.MappedElision? && ValidEnd(head, e)
    ensures Parts(EndText(head, e), Groups(head, [], false)) == Some(("", EndGroups(head, e)))
  {
    hide Part, Parts, Spells, SpellAll, SpellOctets, Rest, Dotted;
    OctetCount(e.ds, e.dv);
    var rest, first := Rest(e.ts), [0xffff] + Pair(e.dv);
    RestIsColon(e.ts, "");
    RestAlone(e.ts);
    SameLength(e.ts, e.tv);
    var s, g := e.f + (":" + Dotted(e.ds, rest)), Groups(head, first, true);
    MappedTailPart(e.f, e.ds, e.dv, rest, head);
    PartsUnfold("::" + s, Groups(head, [], false));
    PartsUnfold(":" + s, Groups(head, [], true));
    if e.extra {
      BareDoubleColon(":" + s, head);
      assert ":::" + s == "::" + (":" + s);
      PartsUnfold(":::" + s, Groups(head, [], false));
    }
    if e.ts == [] {
      NoRest("");
      assert first + e.tv == first;
    } else {
      TailEnds(e.ts, e.tv, g);
    }
  }

  lemma HeadThen(hs: seq<string>, hv: seq<nat>, after: string)
    requires SpellAll(hs, hv) && |hs| <= 8 && GoesOn(after) && ('.' !in after || AllZero(hv))
    ensures Parts(Joined(hs) + after, START) == Parts(after, Groups(hv, [], false))
  {
    hide Part, Parts, Spells, SpellAll, Rest, Joined, AllZero;
    SameLength(hs, hv);
    if hs == [] {
      NothingJoined(after);
      assert hv == [];
    } else {
      FirstSteps(hs, hv, after);
    }
  }

  /** Every form parses to what it means. */
  lemma FormParses(f: Form)
    requires Valid(f)
    ensures Parse(Text(f)) == Some(Meaning(f))
  {
    hide Part, Parts, Spells, SpellAll, SpellOctets, Rest, Joined, Dotted, AllZero;
    SameLength(f.hs, f.hv);
    match f.end
    case Complete =>
      FullForm(f.hs, f.hv);
      assert Joined(f.hs) + "" == Joined(f.hs);
      assert Address(Groups(f.hv, [], false)) == f.hv;
    case Octets(ds, dv) => OctetsParse(f.hs, ds, dv);
    case Elision(extra, ts, tv) =>
      SameLength(ts, tv);
      if extra {
        ThreeColonForm(f.hs, f.hv, ts, tv);
      } else {
        ElidedForm(f.hs, f.hv, ts, tv);
      }
    case MappedElision(extra, _, _, _, _, _) =>
      MappedElisionParses(f.hv, f.end);
      HeadThen(f.hs, f.hv, EndText(f.hv, f.end));
  }

  // ---- nothing else is ----

  lemma {:induction false} MoreDigitsSound(s: string, acc: nat, left: nat, hex: bool) returns (t: string)
    ensures var (v, rest) := MoreDigits(s, acc, left, hex);
      s == t + rest && |t| <= left && AllDigits(t, hex) && Value(t, acc, hex) == v
    decreases left
  {
    if left == 0 || !StartsWithDigit(s, hex) {
      t := "";
    } else {
      var t' := MoreDigitsSound(s[1..], acc * Base(hex) + DigitValue(s[0], hex).value, left - 1, hex);
      t := [s[0]] + t';
      assert t[1..] == t';
    }
  }

  lemma NumberSound(s: string, most: nat, maxValue: nat, hex: bool) returns (t: string)
    requires most >= 1 && Number(s, most, maxValue, hex).Some?
    ensures var (v, rest) := Number(s, most, maxValue, hex).value;
      s == t + rest && Spells(t, v, most, hex) && v < maxValue
  {
    var t' := MoreDigitsSound(s[1..], DigitValue(s[0], hex).value, most - 1, hex);
    t := [s[0]] + t';
    assert t[1..] == t';
  }

  lemma OctetsSound(s: string) returns (ds: seq<string>, dv: seq<nat>)
    requires MappedGroups(s).Some?
    ensures var (x, y, rest) := MappedGroups(s).value;
      SpellOctets(ds, dv) && Pair(dv) == [x, y] && s == Dotted(ds, rest)
  {
    hide Number, Spells;
    var a := Number(s, 3, 0x100, false).value;
    var s1 := Accept(a.1, '.').value;
    var b := Number(s1, 3, 0x100, false).value;
    var s2 := Accept(b.1, '.').value;
    var c := Number(s2, 3, 0x100, false).value;
    var s3 := Accept(c.1, '.').value;
    var d := Number(s3, 3, 0x100, false).value;
    var t0 := NumberSound(s, 3, 0x100, false);
    var t1 := NumberSound(s1, 3, 0x100, false);
    var t2 := NumberSound(s2, 3, 0x100, false);
    var t3 := NumberSound(s3, 3, 0x100, false);
    ds, dv := [t0, t1, t2, t3], [a.0, b.0, c.0, d.0];
    assert a.1 == "." + s1 && b.1 == "." + s2 && c.1 == "." + s3;
  }

  lemma SpellCons(t: string, v: nat, ts: seq<string>, tv: seq<nat>)
    requires Spells(t, v, 4, true) && v < 0x10000 && SpellAll(ts, tv)
    ensures SpellAll([t] + ts, [v] + tv)
    ensures Rest([t] + ts) == ":" + t + Rest(ts) && Joined([t] + ts) == t + Rest(ts)
  {
    assert ([t] + ts)[1..] == ts && ([v] + tv)[1..] == tv;
  }

  lemma SpellNone()
    ensures SpellAll([], []) && Rest([]) == "" && Joined([]) == ""
  {
  }

  /** A group in the tail, when there is one already. */
  lemma TailPartSound(s: string, g: Groups) returns (t: string, v: nat)
    requires g.useTail && g.tail != [] && GoesOn(s) && Part(s, g).Some?
    ensures Spells(t, v, 4, true) && v < 0x10000 && |g.tail| < 6
    ensures s == ":" + t + Part(s, g).value.0 && Part(s, g).value.1 == g.(tail := g.tail + [v])
  {
    hide Number, TryMapped, Spells;
    t := NumberSound(s[1..], 4, 0x10000, true);
    v := Number(s[1..], 4, 0x10000, true).value.0;
    assert s == ":" + s[1..];
  }

  /** The parse from `s` on reaches the end of the text. */
  predicate Ended(s: string, g: Groups, g': Groups) {
    if GoesOn(s) then Parts(s, g) == Some(("", g')) else s == "" && g' == g
  }

  lemma {:induction false} TailSound(s: string, g: Groups, g': Groups) returns (ts: seq<string>, tv: seq<nat>)
    requires g.useTail && g.tail != [] && Ended(s, g, g')
    requires |g.tail| <= 6 && |g.head| + |g.tail| <= 8
    ensures SpellAll(ts, tv) && s == Rest(ts) && Room(g.head, g.tail, |ts|) && g' == g.(tail := g.tail + tv)
    decreases |s|
  {
    hide Part, Parts, Spells, SpellAll, Rest;
    SpellNone();
    if !GoesOn(s) {
      ts, tv := [], [];
      assert g.tail + [] == g.tail;
    } else {
      PartsUnfold(s, g);
      var t, v := TailPartSound(s, g);
      PartConsumes(s, g);
      var (rest, g1) := Part(s, g).value;
      var ts', tv' := TailSound(rest, g1, g');
      ts, tv := [t] + ts', [v] + tv';
      SpellCons(t, v, ts', tv');
      SameLength(ts', tv');
      assert g.tail + [v] + tv' == g.tail + tv;
    }
  }

  /** The first group after the elision, perhaps with four octets. */
  lemma FirstTailSound(s: string, head: seq<nat>, doubleColon: bool)
    returns (t: string, v: nat, ds: seq<string>, dv: seq<nat>)
    requires Number(s, 4, 0x10000, true).Some? && Group(s, Groups(head, [], true), doubleColon).Some?
    ensures Spells(t, v, 4, true) && v < 0x10000
    ensures var (rest, g) := Group(s, Groups(head, [], true), doubleColon).value;
      if ds == [] then s == t + rest && g == Groups(head, [v], true)
      else
        && v == 0xffff && AllZero(head) && SpellOctets(ds, dv)
        && s == t + (":" + Dotted(ds, rest)) && g == Groups(head, [0xffff] + Pair(dv), true)
  {
    hide Number, MappedGroups, Spells, Dotted;
    t := NumberSound(s, 4, 0x10000, true);
    v := Number(s, 4, 0x10000, true).value.0;
    var after := Number(s, 4, 0x10000, true).value.1;
    assert [] + [v] == [v];
    ds, dv := [], [];
    if v == 0xffff && AllZero(head) && GoesOn(after) && MappedGroups(after[1..]).Some? {
      ds, dv := OctetsSound(after[1..]);
      assert after == ":" + after[1..];
    }
  }

  /** From the first group after the elision to the end. */
  lemma ElisionSound(s: string, head: seq<nat>, doubleColon: bool, extra: bool, g': Groups) returns (e: Ending)
    requires Number(s, 4, 0x10000, true).Some? && Group(s, Groups(head, [], true), doubleColon).Some?
    requires var (rest, g) := Group(s, Groups(head, [], true), doubleColon).value;
      |g.head| + |g.tail| <= 8 && Ended(rest, g, g')
    requires |head| <= 6 && (extra ==> head != [])
    ensures ValidEnd(head, e) && EndText(head, e) == Colons(extra) + s && g' == EndGroups(head, e)
  {
    hide Number, Group, Parts, Spells, SpellAll, SpellOctets, Dotted, Rest, AllZero, Ended;
    var t, v, ds, dv := FirstTailSound(s, head, doubleColon);
    var (rest, g) := Group(s, Groups(head, [], true), doubleColon).value;
    if ds == [] {
      var ts, tv := TailSound(rest, g, g');
      SpellCons(t, v, ts, tv);
      e := Elision(extra, [t] + ts, [v] + tv);
    } else {
      OctetCount(ds, dv);
      var ts, tv := TailSound(rest, g, g');
      SameLength(ts, tv);
      e := MappedElision(extra, t, ds, dv, ts, tv);
    }
  }

  /** From the elision to the end. */
  lemma DoubleColonSound(s: string, head: seq<nat>, g': Groups) returns (e: Ending)
    requires |s| >= 2 && s[0] == ':' && s[1] == ':' && Parts(s, Groups(head, [], false)) == Some(("", g'))
    ensures ValidEnd(head, e) && EndText(head, e) == s && g' == EndGroups(head, e)
  {
    hide Number, Parts, Spells, SpellAll, SpellOctets, Dotted, Rest, Group, AllZero, TryMapped;
    var g, g1 := Groups(head, [], false), Groups(head, [], true);
    PartsUnfold(s, g);
    var after := s[2..];
    assert s == "::" + after;
    assert |head| < 7;
    if Number(after, 4, 0x10000, true).Some? {
      e := ElisionSound(after, head, true, false, g');
    } else {
      BareGroup(after, g1);
      if GoesOn(after) {
        e := ExtraColonSound(after, head, g');
        assert s == ":::" + after[1..];
      } else {
        SpellNone();
        e := Elision(false, [], []);
      }
    }
  }

  lemma BareGroup(s: string, g: Groups)
    requires Number(s, 4, 0x10000, true).None?
    ensures Group(s, g, true) == Some((s, g)) && Group(s, g, false).None?
  {
  }

  lemma ExtraColonSound(s: string, head: seq<nat>, g': Groups) returns (e: Ending)
    requires GoesOn(s) && |head| < 7 && Parts(s, Groups(head, [], true)) == Some(("", g'))
    ensures ValidEnd(head, e) && EndText(head, e) == ":::" + s[1..] && g' == EndGroups(head, e)
  {
    hide Number, Parts, Group;
    var g := Groups(head, [], true);
    PartsUnfold(s, g);
    ColonIsNoNumber(s);
    if Number(s, 4, 0x10000, true).None? {
      BareGroup(s, g);
    }
    if Number(s[1..], 4, 0x10000, true).None? {
      BareGroup(s[1..], g);
    }
    assert head != [];
    e := ElisionSound(s[1..], head, false, true, g');
  }

  lemma ColonIsNoNumber(s: string)
    requires GoesOn(s)
    ensures Number(s, 4, 0x10000, true).None?
  {
  }

  /** A group before any elision, perhaps with four octets after it. */
  lemma HeadPartSound(s: string, g: Groups) returns (t: string, v: nat, ds: seq<string>, dv: seq<nat>)
    requires !g.useTail && g.tail == [] && 1 <= |g.head| < 8 && GoesOn(s) && Part(s, g).Some?
    requires !(|s| >= 2 && s[1] == ':')
    ensures Spells(t, v, 4, true) && v < 0x10000
    ensures var (rest, g1) := Part(s, g).value;
      if ds == [] then s == ":" + t + rest && g1 == g.(head := g.head + [v])
      else
        && g.head + [v] == MAPPED_PREFIX && SpellOctets(ds, dv)
        && s == ":" + t + (":" + Dotted(ds, rest)) && g1 == g.(head := MAPPED_PREFIX + Pair(dv))
  {
    hide Number, MappedGroups, Spells, Dotted;
    var s1 := s[1..];
    assert s == ":" + s1;
    t := NumberSound(s1, 4, 0x10000, true);
    v := Number(s1, 4, 0x10000, true).value.0;
    var after := Number(s1, 4, 0x10000, true).value.1;
    ds, dv := [], [];
    if g.head + [v] == MAPPED_PREFIX && GoesOn(after) && MappedGroups(after[1..]).Some? {
      ds, dv := OctetsSound(after[1..]);
      assert after == ":" + after[1..];
    }
  }

  lemma {:induction false} HeadSound(s: string, g: Groups, g': Groups)
    returns (hs: seq<string>, hv: seq<nat>, e: Ending)
    requires !g.useTail && g.tail == [] && 1 <= |g.head| <= 8 && GoesOn(s) && Parts(s, g) == Some(("", g'))
    ensures SpellAll(hs, hv) && ValidEnd(g.head + hv, e)
    ensures s == Rest(hs) + EndText(g.head + hv, e) && g' == EndGroups(g.head + hv, e)
    decreases |s|
  {
    hide Part, Parts, Spells, SpellAll, SpellOctets, Dotted, Rest, EndText, EndGroups, ValidEnd;
    SpellNone();
    if |s| >= 2 && s[1] == ':' {
      assert g == Groups(g.head, [], false) && g.head + [] == g.head;
      e := DoubleColonSound(s, g.head, g');
      hs, hv := [], [];
      NoRest(s);
    } else if |g.head| == 8 {
      assert g == Groups(g.head, [], false);
      EightIsFull(s, g.head);
    } else {
      PartsUnfold(s, g);
      var t, v, ds, dv := HeadPartSound(s, g);
      PartConsumes(s, g);
      var (rest, g1) := Part(s, g).value;
      hs, hv := [t], [v];
      SpellCons(t, v, [], []);
      assert [t] + [] == [t] && [v] + [] == [v];
      if ds != [] {
        OctetCount(ds, dv);
        if GoesOn(rest) {
          EightIsFull(rest, g1.head);
        }
        e := OctetsEnd(ds, dv);
      } else if GoesOn(rest) {
        var hs', hv', e' := HeadSound(rest, g1, g');
        hs, hv, e := [t] + hs', [v] + hv', e';
        SpellCons(t, v, hs', hv');
        assert g.head + [v] + hv' == g.head + hv;
      } else {
        e := Complete;
        CompleteEnd(g1.head);
        assert s == Rest(hs) + "";
      }
    }
  }

  lemma OctetsEnd(ds: seq<string>, dv: seq<nat>) returns (e: Ending)
    requires SpellOctets(ds, dv)
    ensures ValidEnd(MAPPED_PREFIX, e) && EndText(MAPPED_PREFIX, e) == ":" + Dotted(ds, "")
    ensures EndGroups(MAPPED_PREFIX, e) == Groups(MAPPED_PREFIX + Pair(dv), [], false)
  {
    e := Octets(ds, dv);
  }

  lemma CompleteEnd(head: seq<nat>)
    requires |head| == 8
    ensures ValidEnd(head, Complete) && EndText(head, Complete) == ""
    ensures EndGroups(head, Complete) == Groups(head, [], false)
  {
  }

  lemma FirstPartSound(s: string) returns (t: string, v: nat)
    requires Part(s, START).Some? && !(|s| >= 2 && s[0] == ':' && s[1] == ':')
    ensures Spells(t, v, 4, true) && v < 0x10000
    ensures s == t + Part(s, START).value.0 && Part(s, START).value.1 == Groups([v], [], false)
  {
    hide Number, TryMapped, Spells;
    t := NumberSound(s, 4, 0x10000, true);
    v := Number(s, 4, 0x10000, true).value.0;
    assert [] + [v] == [v];
  }

  /** Whatever parses is one of the forms. */
  lemma ParsedIsForm(s: string) returns (f: Form)
    requires Parse(s).Some?
    ensures Valid(f) && Text(f) == s && Some(Meaning(f)) == Parse(s)
  {
    hide Part, Parts, Spells, SpellAll, SpellOctets, Dotted, Rest, EndText, EndGroups, ValidEnd;
    PartsBounds(s, START);
    var g' := Parts(s, START).value.1;
    SpellNone();
    if |s| >= 2 && s[0] == ':' && s[1] == ':' {
      var e := DoubleColonSound(s, [], g');
      f := Form([], [], e);
      NothingJoined(s);
    } else {
      PartsUnfold(s, START);
      var t, v := FirstPartSound(s);
      var (rest, g) := Part(s, START).value;
      var hs, hv, e := HeadSound(rest, g, g');
      SpellCons(t, v, hs, hv);
      f := Form([t] + hs, [v] + hv, e);
    }
  }

  /** The texts that are accepted, and what they mean: the forms, all of them, and nothing else. */
  lemma ParseExactly(s: string, a: seq<nat>)
    ensures Parse(s) == Some(a) <==> exists f: Form :: Valid(f) && Text(f) == s && Meaning(f) == a
  {
    hide Valid, Text, Meaning, Parse;
    if Parse(s) == Some(a) {
      var f := ParsedIsForm(s);
    }
    if f: Form :| Valid(f) && Text(f) == s && Meaning(f) == a {
      FormParses(f);
    }
  }

  // ---- consequences ----

  /** A mapped address in dotted form comes back, with its zero groups written out or elided. */
  lemma MappedForm(hs: seq<string>, hv: seq<nat>, f: string, ds: seq<string>, dv: seq<nat>)
    requires SpellAll(hs, hv) && SpellOctets(ds, dv)
    ensures |ds| == 4 && |dv| == 4
    ensures hv == MAPPED_PREFIX ==> Parse(Joined(hs) + (":" + Dotted(ds, ""))) == Some(MAPPED_PREFIX + Pair(dv))
    ensures AllZero(hv) && |hv| <= 5 && Spells(f, 0xffff, 4, true) ==>
      Parse(Joined(hs) + ("::" + (f + (":" + Dotted(ds, ""))))) == Some(MAPPED_PREFIX + Pair(dv))
  {
    hide Parse, Spells, SpellAll, SpellOctets, Dotted, Rest, Joined;
    OctetCount(ds, dv);
    SpellNone();
    if hv == MAPPED_PREFIX {
      var form := Form(hs, hv, Octets(ds, dv));
      FormParses(form);
      assert Meaning(form) == MAPPED_PREFIX + Pair(dv);
    }
    if AllZero(hv) && |hv| <= 5 && Spells(f, 0xffff, 4, true) {
      var form := Form(hs, hv, MappedElision(false, f, ds, dv, [], []));
      FormParses(form);
      ZerosBefore(hv, [0xffff] + Pair(dv) + []);
      assert Meaning(form) == MAPPED_PREFIX + Pair(dv);
    }
  }

  lemma ZerosBefore(hv: seq<nat>, tail: seq<nat>)
    requires AllZero(hv) && |hv| + |tail| <= 8
    ensures Address(Groups(hv, tail, true)) == Zeros(8 - |tail|) + tail
  {
  }

  /** Octets after anything but `ffff` are not read as octets: `::13.1.68.3` of section 2.2 of RFC 4291 is refused. */
  lemma CompatibleRefused(ds: seq<string>, dv: seq<nat>)
    requires SpellOctets(ds, dv)
    ensures Parse("::" + Dotted(ds, "")).None?
  {
    hide MoreDigits, Spells, MappedGroups;
    OctetCount(ds, dv);
    var s := Dotted(ds, "");
    assert ("::" + s)[2..] == s;
    PartsUnfold("::" + s, START);
    HexThenDot(ds[0], ds[1] + ("." + (ds[2] + ("." + (ds[3] + "")))));
  }

  /** Read as a group, a decimal octet ends at its dot. */
  lemma HexThenDot(t: string, rest: string)
    requires exists v :: Spells(t, v, 3, false)
    ensures var n := Number(t + ("." + rest), 4, 0x10000, true);
      !GoesOn(t + ("." + rest)) && (n.Some? ==> n.value.1 == "." + rest)
  {
    assert AllDigits(t, true);
    assert (t + ("." + rest))[1..] == t[1..] + ("." + rest);
    MoreDigitsParses(t[1..], "." + rest, DigitValue(t[0], true).value, 3, true);
  }
}
