/** Every spelling of an address is parsed back to that address. */
module Ipv6RoundTrip {
  import opened Common
  import opened Ipv6Text

  // ---- spellings ----

  predicate AllDigits(t: string, hex: bool) {
    forall i :: 0 <= i < |t| ==> DigitValue(t[i], hex).Some?
  }

  /** The number `t` writes, after `acc`. */
  function Value(t: string, acc: nat, hex: bool): nat
    requires AllDigits(t, hex)
  {
    if t == [] then acc else Value(t[1..], acc * Base(hex) + DigitValue(t[0], hex).value, hex)
  }

  /** `t` writes `v` in at most `most` digits, with any leading zeros and in either case. */
  predicate Spells(t: string, v: nat, most: nat, hex: bool) {
    1 <= |t| <= most && AllDigits(t, hex) && Value(t, 0, hex) == v
  }

  /** A number ends where no further digit follows. */
  predicate Ends(rest: string, hex: bool) {
    !StartsWithDigit(rest, hex)
  }

  lemma {:induction false} MoreDigitsParses(t: string, rest: string, acc: nat, left: nat, hex: bool)
    requires AllDigits(t, hex) && |t| <= left && Ends(rest, hex)
    ensures MoreDigits(t + rest, acc, left, hex) == (Value(t, acc, hex), rest)
    decreases left
  {
    if t == [] {
      assert t + rest == rest;
    } else {
      assert (t + rest)[1..] == t[1..] + rest;
      MoreDigitsParses(t[1..], rest, acc * Base(hex) + DigitValue(t[0], hex).value, left - 1, hex);
    }
  }

  lemma NumberParses(t: string, v: nat, rest: string, most: nat, maxValue: nat, hex: bool)
    requires Spells(t, v, most, hex) && v < maxValue && Ends(rest, hex)
    ensures Number(t + rest, most, maxValue, hex) == Some((v, rest))
  {
    assert (t + rest)[1..] == t[1..] + rest;
    MoreDigitsParses(t[1..], rest, DigitValue(t[0], hex).value, most - 1, hex);
  }

  /** Without a dot there is no dotted part. */
  lemma NoDotNoMapped(s: string, g: seq<nat>)
    requires '.' !in s
    ensures TryMapped(s, g) == (g, s)
  {
    hide Number;
    var after := Accept(s, ':');
    if after.Some? && Number(after.value, 3, 0x100, false).Some? {
      NumberShrinks(after.value, 3, 0x100, false);
      var left := Number(after.value, 3, 0x100, false).value.1;
      assert left != [] ==> left[0] in left;
    }
  }

  // ---- lists of groups ----

  /** Each text spells the group at the same place. */
  predicate SpellAll(ts: seq<string>, gs: seq<nat>) {
    |ts| == |gs| && forall i :: 0 <= i < |ts| ==> Spells(ts[i], gs[i], 4, true) && gs[i] < 0x10000
  }

  lemma SameLength(ts: seq<string>, gs: seq<nat>)
    requires SpellAll(ts, gs)
    ensures |ts| == |gs|
  {
  }

  lemma SpellTail(ts: seq<string>, gs: seq<nat>)
    requires SpellAll(ts, gs) && ts != []
    ensures Spells(ts[0], gs[0], 4, true) && gs[0] < 0x10000 && SpellAll(ts[1..], gs[1..]) && |ts| == |gs|
  {
  }

  /** A colon before each. */
  function Rest(ts: seq<string>): string {
    if ts == [] then "" else ":" + ts[0] + Rest(ts[1..])
  }

  /** Colons between them. */
  function Joined(ts: seq<string>): string {
    if ts == [] then "" else ts[0] + Rest(ts[1..])
  }

  /** What may follow a group: nothing, or a colon. */
  predicate Colon(s: string) {
    s == [] || s[0] == ':'
  }

  lemma ColonEnds(s: string)
    requires Colon(s)
    ensures Ends(s, true)
  {
  }

  /** What follows and goes on: at least one colon. */
  predicate GoesOn(s: string) {
    s != [] && s[0] == ':'
  }

  lemma {:induction false} RestIsColon(ts: seq<string>, after: string)
    requires Colon(after)
    ensures Colon(Rest(ts) + after)
    ensures ts != [] || GoesOn(after) ==> GoesOn(Rest(ts) + after)
  {
    if ts == [] {
      assert Rest(ts) + after == after;
    }
  }

  lemma {:induction false} RestNoDot(ts: seq<string>, gs: seq<nat>, after: string)
    requires SpellAll(ts, gs) && '.' !in after
    ensures '.' !in Rest(ts) + after
  {
    if ts != [] {
      assert Spells(ts[0], gs[0], 4, true);
      RestNoDot(ts[1..], gs[1..], after);
      assert Rest(ts) + after == ":" + ts[0] + (Rest(ts[1..]) + after);
    }
  }

  // ---- one part ----

  /** A colon and a group, before the double colon. */
  lemma HeadPart(t: string, v: nat, rest: string, g: Groups)
    requires Spells(t, v, 4, true) && v < 0x10000 && Colon(rest)
    requires g.head + [v] == MAPPED_PREFIX ==> '.' !in rest
    requires 1 <= |g.head| < 8 && !g.useTail
    ensures Part(":" + t + rest, g) == Some((rest, g.(head := g.head + [v])))
  {
    hide Number, TryMapped;
    var s := ":" + t + rest;
    assert s[1..] == t + rest && s[1] == t[0];
    ColonEnds(rest);
    NumberParses(t, v, rest, 4, 0x10000, true);
    if '.' !in rest {
      NoDotNoMapped(rest, g.head + [v]);
    }
  }

  /** A colon and a group, after the double colon; there may be a colon too many before the first of them. */
  lemma TailPart(t: string, v: nat, rest: string, g: Groups)
    requires Spells(t, v, 4, true) && v < 0x10000 && Colon(rest) && g.useTail && |g.tail| <= 6
    requires g.tail != [] || (g.head != [] && '.' !in rest)
    ensures Part(":" + t + rest, g) == if |g.tail| < 6 then Some((rest, g.(tail := g.tail + [v]))) else None
  {
    hide Number, TryMapped;
    var s := ":" + t + rest;
    assert s[1..] == t + rest && s[1] == t[0];
    ColonEnds(rest);
    NumberParses(t, v, rest, 4, 0x10000, true);
    if '.' !in rest {
      NoDotNoMapped(rest, g.tail + [v]);
    }
  }

  /** The first group of all. */
  lemma FirstPart(t: string, v: nat, rest: string)
    requires Spells(t, v, 4, true) && v < 0x10000 && Colon(rest)
    ensures Part(t + rest, START) == Some((rest, Groups([v], [], false)))
  {
    hide Number, TryMapped;
    var s := t + rest;
    assert s[0] == t[0] && START.head + [v] == [v];
    ColonEnds(rest);
    NumberParses(t, v, rest, 4, 0x10000, true);
  }

  /** A double colon and the group after it. */
  lemma DoubleColonPart(t: string, v: nat, rest: string, head: seq<nat>)
    requires Spells(t, v, 4, true) && v < 0x10000 && Colon(rest) && '.' !in rest && |head| < 7
    ensures Part("::" + t + rest, Groups(head, [], false)) == Some((rest, Groups(head, [v], true)))
  {
    hide Number, TryMapped;
    var s := "::" + t + rest;
    assert s[2..] == t + rest && [] + [v] == [v];
    ColonEnds(rest);
    NumberParses(t, v, rest, 4, 0x10000, true);
    NoDotNoMapped(rest, [v]);
  }

  /** A double colon with nothing after it that is a group. */
  lemma BareDoubleColon(rest: string, head: seq<nat>)
    requires Colon(rest)
    ensures Part("::" + rest, Groups(head, [], false))
         == if |head| < 7 then Some((rest, Groups(head, [], true))) else None
  {
    var s := "::" + rest;
    assert s[2..] == rest;
  }

  // ---- runs of groups ----

  lemma RestCons(ts: seq<string>, after: string)
    requires ts != []
    ensures Rest(ts) + after == ":" + ts[0] + (Rest(ts[1..]) + after)
    ensures Joined(ts) + after == ts[0] + (Rest(ts[1..]) + after)
  {
  }

  lemma RestAlone(ts: seq<string>)
    ensures Rest(ts) + "" == Rest(ts) && Joined(ts) + "" == Joined(ts)
  {
  }

  /** One level of the recursion. */
  lemma PartsUnfold(s: string, g: Groups)
    ensures Parts(s, g) ==
      (var p := Part(s, g);
       if p.None? then None
       else if |p.value.1.head| + |p.value.1.tail| > 8 then None
       else if !GoesOn(p.value.0) then
         if |p.value.1.head| < 8 && !p.value.1.useTail then None else p
       else Parts(p.value.0, p.value.1))
  {
    hide Part;
  }

  lemma PrefixNotZero(g: seq<nat>)
    requires AllZero(g)
    ensures g != MAPPED_PREFIX
  {
    assert MAPPED_PREFIX[5] != 0;
  }

  /** Eight groups are all there is room for. */
  lemma EightIsFull(s: string, head: seq<nat>)
    requires |head| == 8 && GoesOn(s)
    ensures Parts(s, Groups(head, [], false)).None?
  {
    hide Number, TryMapped;
    PartsUnfold(s, Groups(head, [], false));
    var after := Accept(s, ':').value;
    if Number(after, 4, 0x10000, true).Some? {
      assert [] + [Number(after, 4, 0x10000, true).value.0] == [Number(after, 4, 0x10000, true).value.0];
      TryMappedShrinks(Number(after, 4, 0x10000, true).value.1, [Number(after, 4, 0x10000, true).value.0]);
    }
  }

  /** Groups are read one after the other while there is room for them. */
  lemma {:induction false} HeadSteps(hs: seq<string>, hv: seq<nat>, after: string, g: Groups)
    requires SpellAll(hs, hv) && GoesOn(after) && ('.' !in after || AllZero(g.head + hv))
    requires !g.useTail && g.tail == [] && 1 <= |g.head| <= 8
    ensures Parts(Rest(hs) + after, g)
         == if |g.head| + |hs| <= 8 then Parts(after, g.(head := g.head + hv)) else None
    decreases |hs|
  {
    hide Part, Parts, Spells, SpellAll, Rest, AllZero;
    SameLength(hs, hv);
    RestIsColon(hs, after);
    if hs == [] {
      NoRest(after);
      assert hv == [] && g.head + hv == g.head;
    } else if |g.head| == 8 {
      EightIsFull(Rest(hs) + after, g.head);
      assert g == Groups(g.head, [], false);
    } else {
      var rest := Rest(hs[1..]) + after;
      SpellTail(hs, hv);
      RestIsColon(hs[1..], after);
      RestCons(hs, after);
      var head := g.head + [hv[0]];
      assert head + hv[1..] == g.head + hv;
      if '.' !in after {
        RestNoDot(hs[1..], hv[1..], after);
      } else {
        ZeroFront(head, hv[1..]);
        PrefixNotZero(head);
      }
      HeadPart(hs[0], hv[0], rest, g);
      PartsUnfold(Rest(hs) + after, g);
      HeadSteps(hs[1..], hv[1..], after, g.(head := head));
    }
  }

  lemma NoRest(after: string)
    ensures Rest([]) == "" && Rest([]) + after == after
  {
  }

  lemma ZeroFront(a: seq<nat>, b: seq<nat>)
    requires AllZero(a + b)
    ensures AllZero(a)
  {
    forall i | 0 <= i < |a|
      ensures a[i] == 0
    {
      assert (a + b)[i] == 0;
    }
  }

  /** Eight groups and nothing else. */
  lemma {:induction false} HeadEnds(hs: seq<string>, hv: seq<nat>, g: Groups)
    requires SpellAll(hs, hv) && hs != []
    requires !g.useTail && g.tail == [] && 1 <= |g.head| && |g.head| + |hs| == 8
    ensures Parts(Rest(hs), g) == Some(("", g.(head := g.head + hv)))
    decreases |hs|
  {
    hide Part, Parts, Spells, SpellAll, Rest;
    SameLength(hs, hv);
    var rest := Rest(hs[1..]);
    SpellTail(hs, hv);
    RestIsColon(hs[1..], "");
    RestNoDot(hs[1..], hv[1..], "");
    RestAlone(hs[1..]);
    RestCons(hs, "");
    RestAlone(hs);
    HeadPart(hs[0], hv[0], rest, g);
    PartsUnfold(Rest(hs), g);
    var head := g.head + [hv[0]];
    assert head + hv[1..] == g.head + hv;
    if |hs| == 1 {
      NoRest("");
      assert hs[1..] == [] && head + hv[1..] == head;
    } else {
      HeadEnds(hs[1..], hv[1..], g.(head := head));
    }
  }

  predicate Room(head: seq<nat>, tail: seq<nat>, more: nat) {
    |tail| + more <= 6 && |head| + |tail| + more <= 8
  }

  /** The rest of an address after a double colon, down to its end. */
  lemma {:induction false} TailEnds(ts: seq<string>, tv: seq<nat>, g: Groups)
    requires SpellAll(ts, tv) && ts != [] && g.useTail && g.tail != [] && |g.tail| <= 6
    ensures Parts(Rest(ts), g)
         == if Room(g.head, g.tail, |ts|) then Some(("", g.(tail := g.tail + tv))) else None
    decreases |ts|
  {
    hide Part, Parts, Spells, SpellAll, Rest;
    SameLength(ts, tv);
    var rest := Rest(ts[1..]);
    SpellTail(ts, tv);
    RestIsColon(ts[1..], "");
    RestAlone(ts[1..]);
    RestCons(ts, "");
    RestAlone(ts);
    TailPart(ts[0], tv[0], rest, g);
    PartsUnfold(Rest(ts), g);
    var tail := g.tail + [tv[0]];
    assert tail + tv[1..] == g.tail + tv;
    if |ts| == 1 {
      NoRest("");
      assert ts[1..] == [] && tail + tv[1..] == tail;
    } else if |g.tail| < 6 {
      TailEnds(ts[1..], tv[1..], g.(tail := tail));
    }
  }

  // ---- after a double colon ----

  /** The groups of an elided address, and how many there may be. */
  predicate ElisionFits(hs: seq<string>, ts: seq<string>) {
    |hs| <= 6 && |ts| <= 6 && |hs| + |ts| <= 8
  }

  function Elided(head: seq<nat>, tail: seq<nat>): Option<(string, Groups)> {
    Some(("", Groups(head, tail, true)))
  }

  lemma FirstTailEnds(t: string, v: nat, ts: seq<string>, tv: seq<nat>, s: string, g: Groups, head: seq<nat>)
    requires SpellAll([t] + ts, [v] + tv) && |head| <= 6
    requires Part(s, g) == Some((Rest(ts), Groups(head, [v], true)))
    ensures Parts(s, g) == if Room(head, [v], |ts|) then Elided(head, [v] + tv) else None
  {
    hide Part, Parts, Spells, SpellAll, Rest;
    assert ([t] + ts)[1..] == ts && ([v] + tv)[1..] == tv;
    SpellTail([t] + ts, [v] + tv);
    SameLength(ts, tv);
    PartsUnfold(s, g);
    RestIsColon(ts, "");
    RestAlone(ts);
    if ts == [] {
      NoRest("");
      assert [v] + tv == [v];
    } else {
      TailEnds(ts, tv, Groups(head, [v], true));
    }
  }

  /** From a double colon to the end. */
  lemma DoubleColonEnds(ts: seq<string>, tv: seq<nat>, head: seq<nat>)
    requires SpellAll(ts, tv) && |head| <= 8
    ensures Parts("::" + Joined(ts), Groups(head, [], false))
         == if |head| <= 6 && Room(head, [], |ts|) then Elided(head, tv) else None
  {
    hide Part, Parts, Spells, SpellAll, Rest;
    SameLength(ts, tv);
    var s, g := "::" + Joined(ts), Groups(head, [], false);
    PartsUnfold(s, g);
    if |head| >= 7 {
      NoDoubleColon(Joined(ts), head);
    } else if ts == [] {
      BareDoubleColon("", head);
      assert tv == [] && s == "::" + "";
    } else {
      SpellTail(ts, tv);
      RestIsColon(ts[1..], "");
      RestNoDot(ts[1..], tv[1..], "");
      RestAlone(ts[1..]);
      assert s == "::" + ts[0] + Rest(ts[1..]);
      DoubleColonPart(ts[0], tv[0], Rest(ts[1..]), head);
      assert [ts[0]] + ts[1..] == ts && [tv[0]] + tv[1..] == tv;
      FirstTailEnds(ts[0], tv[0], ts[1..], tv[1..], s, g, head);
    }
  }

  lemma NoDoubleColon(rest: string, head: seq<nat>)
    requires |head| >= 7
    ensures Part("::" + rest, Groups(head, [], false)).None?
  {
  }

  /** With one colon more it is the same, if there are groups on both sides. */
  lemma ThreeColonsEnd(ts: seq<string>, tv: seq<nat>, head: seq<nat>)
    requires SpellAll(ts, tv) && |head| <= 8
    ensures Parts(":::" + Joined(ts), Groups(head, [], false))
         == if head != [] && ts != [] && |head| <= 6 && Room(head, [], |ts|) then Elided(head, tv) else None
  {
    hide Part, Parts, Spells, SpellAll, Rest;
    SameLength(ts, tv);
    var s, g := ":::" + Joined(ts), Groups(head, [], false);
    var rest, g' := ":" + Joined(ts), Groups(head, [], true);
    assert s == "::" + rest;
    BareDoubleColon(rest, head);
    PartsUnfold(s, g);
    if |head| <= 6 {
      PartsUnfold(rest, g');
      if ts == [] {
        assert rest == ":";
        LoneColon(head);
      } else if head == [] {
        SpellTail(ts, tv);
        ColonFirst(ts[0], tv[0], Rest(ts[1..]));
        assert rest == ":" + ts[0] + Rest(ts[1..]);
      } else {
        SpellTail(ts, tv);
        RestIsColon(ts[1..], "");
        RestNoDot(ts[1..], tv[1..], "");
        RestAlone(ts[1..]);
        assert rest == ":" + ts[0] + Rest(ts[1..]);
        TailPart(ts[0], tv[0], Rest(ts[1..]), g');
        assert [ts[0]] + ts[1..] == ts && [tv[0]] + tv[1..] == tv && [] + [tv[0]] == [tv[0]];
        FirstTailEnds(ts[0], tv[0], ts[1..], tv[1..], rest, g', head);
      }
    }
  }

  lemma LoneColon(head: seq<nat>)
    ensures Part(":", Groups(head, [], true)).None?
  {
  }

  lemma ColonFirst(t: string, v: nat, rest: string)
    requires Spells(t, v, 4, true)
    ensures Part(":" + t + rest, Groups([], [], true)).None?
  {
    var s := ":" + t + rest;
    assert s[0] == ':' && s[1] == t[0];
  }

  // ---- whole addresses ----

  /** From the first group to the double colon. */
  lemma FirstSteps(hs: seq<string>, hv: seq<nat>, after: string)
    requires SpellAll(hs, hv) && GoesOn(after) && ('.' !in after || AllZero(hv)) && hs != []
    ensures Parts(Joined(hs) + after, START) == if |hs| <= 8 then Parts(after, Groups(hv, [], false)) else None
  {
    hide Part, Parts, Spells, SpellAll, Rest, AllZero;
    SameLength(hs, hv);
    SpellTail(hs, hv);
    var rest := Rest(hs[1..]) + after;
    RestIsColon(hs[1..], after);
    RestCons(hs, after);
    FirstPart(hs[0], hv[0], rest);
    PartsUnfold(Joined(hs) + after, START);
    assert [hv[0]] + hv[1..] == hv;
    HeadSteps(hs[1..], hv[1..], after, Groups([hv[0]], [], false));
  }

  /** All eight groups written out, in any spelling. */
  lemma FullForm(ts: seq<string>, gs: seq<nat>)
    requires |ts| == 8 && SpellAll(ts, gs)
    ensures Parse(Joined(ts)) == Some(gs)
  {
    hide Part, Parts, Rest, Spells, SpellAll;
    var rest := Rest(ts[1..]);
    SpellTail(ts, gs);
    RestIsColon(ts[1..], "");
    RestAlone(ts[1..]);
    FirstPart(ts[0], gs[0], rest);
    PartsUnfold(Joined(ts), START);
    HeadEnds(ts[1..], gs[1..], Groups([gs[0]], [], false));
    assert [gs[0]] + gs[1..] == gs;
    assert Address(Groups(gs, [], false)) == gs;
  }

  lemma JoinedNoDot(ts: seq<string>, gs: seq<nat>)
    requires SpellAll(ts, gs)
    ensures '.' !in Joined(ts)
  {
    if ts != [] {
      assert Spells(ts[0], gs[0], 4, true);
      RestNoDot(ts[1..], gs[1..], "");
      assert Rest(ts[1..]) + "" == Rest(ts[1..]);
    }
  }

  /**
   Any groups, a double colon and any groups: the address with zeros for the double colon if there are at most
   six groups on either side and eight together, and otherwise nothing.
   */
  lemma ElidedForm(hs: seq<string>, hv: seq<nat>, ts: seq<string>, tv: seq<nat>)
    requires SpellAll(hs, hv) && SpellAll(ts, tv)
    ensures Parse(Joined(hs) + ("::" + Joined(ts)))
         == if ElisionFits(hs, ts) then Some(hv + Zeros(8 - |hs| - |ts|) + tv) else None
  {
    hide Part, Parts, Rest, Spells, SpellAll, Joined;
    SameLength(hs, hv);
    SameLength(ts, tv);
    JoinedNoDot(ts, tv);
    if |hs| <= 8 {
      DoubleColonEnds(ts, tv, hv);
    }
    if hs == [] {
      NothingJoined("::" + Joined(ts));
      assert hv == [];
    } else {
      FirstSteps(hs, hv, "::" + Joined(ts));
    }
  }

  lemma NothingJoined(after: string)
    ensures Joined([]) + after == after
  {
  }

  /** The same with three colons, which section 2.2 of RFC 4291 does not allow: accepted between two groups. */
  lemma ThreeColonForm(hs: seq<string>, hv: seq<nat>, ts: seq<string>, tv: seq<nat>)
    requires SpellAll(hs, hv) && SpellAll(ts, tv)
    ensures Parse(Joined(hs) + (":::" + Joined(ts)))
         == if hs != [] && ts != [] && ElisionFits(hs, ts) then Some(hv + Zeros(8 - |hs| - |ts|) + tv) else None
  {
    hide Part, Parts, Rest, Spells, SpellAll, Joined;
    SameLength(hs, hv);
    SameLength(ts, tv);
    JoinedNoDot(ts, tv);
    if |hs| <= 8 {
      ThreeColonsEnd(ts, tv, hv);
    }
    if hs == [] {
      NothingJoined(":::" + Joined(ts));
      assert hv == [];
    } else {
      FirstSteps(hs, hv, ":::" + Joined(ts));
    }
  }
}
