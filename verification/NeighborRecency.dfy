/** What the neighbor cache remembers: the latest fill of each address, and of the most recent addresses. */
module NeighborRecency {
  import opened Common
  import opened NeighborCache

  // ---- every answer is the latest fill ----

  /** `Resolve` is what the interface does to reach an address; `sendOk` is whether its request could be sent. */
  datatype Op = FillOp(e: Entry) | Resolve(addr: Address, now: int, sendOk: bool) | Flush

  /** The cache, an unbounded map of what was filled since the last flush, and when discovery was sent. */
  datatype Run = Run(s: seq<Entry>, silentUntil: int, latest: map<Address, Entry>, asked: seq<int>)

  const EMPTY: Run := Run([], 0, map[], [])

  function Step(r: Run, capacity: nat, op: Op): Run
    requires 1 <= capacity && |r.s| <= capacity && Distinct(r.s)
  {
    match op
    case FillOp(e) => r.(s := Fill(r.s, capacity, e), latest := r.latest[e.addr := e])
    case Resolve(addr, now, sendOk) =>
      if Lookup(r.s, r.silentUntil, addr, now).NotFound? && sendOk then
        r.(silentUntil := now + SILENT_TIME, asked := r.asked + [now])
      else r
    case Flush => r.(s := [], latest := map[])
  }

  /** What the cache holds for an address is its latest fill. */
  predicate Agrees(r: Run, b: Address) {
    var held := Get(r.s, b);
    held.Some? ==> b in r.latest && held.value == r.latest[b]
  }

  ghost predicate RunOk(r: Run, capacity: nat) {
    |r.s| <= capacity && Distinct(r.s) && forall b: Address :: Agrees(r, b)
  }

  lemma StepOk(r: Run, capacity: nat, op: Op)
    requires 1 <= capacity && RunOk(r, capacity)
    ensures RunOk(Step(r, capacity, op), capacity)
  {
    var r' := Step(r, capacity, op);
    if op.FillOp? {
      FillMeaning(r.s, capacity, op.e, op.e.addr);
      forall b: Address
        ensures Agrees(r', b)
      {
        assert Agrees(r, b);
        FillMeaning(r.s, capacity, op.e, b);
      }
    } else {
      forall b: Address
        ensures Agrees(r', b)
      {
        assert Agrees(r, b);
      }
    }
  }

  function After(r: Run, capacity: nat, ops: seq<Op>): Run
    requires 1 <= capacity && |r.s| <= capacity && Distinct(r.s)
    decreases |ops|
  {
    if ops == [] then r
    else
      StepDistinct(r, capacity, ops[0]);
      After(Step(r, capacity, ops[0]), capacity, ops[1..])
  }

  lemma StepDistinct(r: Run, capacity: nat, op: Op)
    requires 1 <= capacity && |r.s| <= capacity && Distinct(r.s)
    ensures |Step(r, capacity, op).s| <= capacity && Distinct(Step(r, capacity, op).s)
  {
    if op.FillOp? {
      FillMeaning(r.s, capacity, op.e, op.e.addr);
    }
  }

  lemma {:induction false} AfterOk(r: Run, capacity: nat, ops: seq<Op>)
    requires 1 <= capacity && RunOk(r, capacity)
    ensures RunOk(After(r, capacity, ops), capacity)
    decreases |ops|
  {
    hide Agrees, Step;
    if ops != [] {
      StepOk(r, capacity, ops[0]);
      StepDistinct(r, capacity, ops[0]);
      AfterOk(Step(r, capacity, ops[0]), capacity, ops[1..]);
    }
  }

  /** Some entry is for this address. */
  predicate Holds(s: seq<Entry>, addr: Address) {
    exists i :: 0 <= i < |s| && s[i].addr == addr
  }

  /**
   Over every run: an address is found exactly if it is held and its latest fill since the last flush has not expired,
   and the answer is the hardware address of that fill. Otherwise the answer depends on the silence alone.
   */
  lemma FoundIsLatest(capacity: nat, ops: seq<Op>, addr: Address, now: int)
    requires 1 <= capacity
    ensures var r := After(EMPTY, capacity, ops);
      var a := Lookup(r.s, r.silentUntil, addr, now);
      && |r.s| <= capacity && (Holds(r.s, addr) ==> addr in r.latest)
      && (if Holds(r.s, addr) && now < r.latest[addr].expiresAt then a == Found(r.latest[addr].hardware)
          else a == if now < r.silentUntil then RateLimited else NotFound)
  {
    hide After;
    AfterOk(EMPTY, capacity, ops);
    var r := After(EMPTY, capacity, ops);
    assert Agrees(r, addr);
    if Holds(r.s, addr) {
      var i :| 0 <= i < |r.s| && r.s[i].addr == addr;
      GetIs(r.s, i);
    }
  }

  /** Requests for discovery, whatever the address, are a second apart, and the silence lasts that long. */
  predicate Spaced(r: Run) {
    && (forall i, j :: 0 <= i < j < |r.asked| ==> r.asked[i] + 1_000_000 <= r.asked[j])
    && (r.asked != [] ==> r.silentUntil == r.asked[|r.asked| - 1] + 1_000_000)
  }

  lemma {:induction false} AfterSpaced(r: Run, capacity: nat, ops: seq<Op>)
    requires 1 <= capacity && |r.s| <= capacity && Distinct(r.s) && Spaced(r)
    ensures Spaced(After(r, capacity, ops))
    decreases |ops|
  {
    hide Fill, Distinct, Get;
    if ops != [] {
      StepDistinct(r, capacity, ops[0]);
      var r' := Step(r, capacity, ops[0]);
      assert Spaced(r');
      AfterSpaced(r', capacity, ops[1..]);
    }
  }

  /** Over every run, even one whose clock goes back: at most one discovery request goes out in any second. */
  lemma DiscoveryIsLimited(capacity: nat, ops: seq<Op>, i: nat, j: nat)
    requires 1 <= capacity && i < j < |After(EMPTY, capacity, ops).asked|
    ensures var asked := After(EMPTY, capacity, ops).asked; asked[i] + 1_000_000 <= asked[j]
  {
    hide After;
    AfterSpaced(EMPTY, capacity, ops);
  }

  // ---- the most recently filled addresses ----

  datatype Addrs = Empty | More(first: Address, rest: Addrs)

  predicate In(l: Addrs, b: Address) {
    l.More? && (l.first == b || In(l.rest, b))
  }

  function Len(l: Addrs): nat {
    if l.Empty? then 0 else 1 + Len(l.rest)
  }

  function Without(l: Addrs, a: Address): Addrs {
    if l.Empty? then Empty
    else if l.first == a then Without(l.rest, a)
    else More(l.first, Without(l.rest, a))
  }

  function Take(l: Addrs, n: nat): Addrs {
    if n == 0 || l.Empty? then Empty else More(l.first, Take(l.rest, n - 1))
  }

  predicate Different(l: Addrs) {
    l.More? ==> !In(l.rest, l.first) && Different(l.rest)
  }

  /** All fills so far, the latest last. */
  datatype Fills = NoFills | Then(before: Fills, e: Entry)

  /** The distinct addresses filled, the most recent first. */
  function Recent(h: Fills): Addrs {
    if h.NoFills? then Empty else More(h.e.addr, Without(Recent(h.before), h.e.addr))
  }

  function Filled(h: Fills, capacity: nat): (s: seq<Entry>)
    requires 1 <= capacity
    ensures |s| <= capacity && Distinct(s)
  {
    if h.NoFills? then []
    else
      var before := Filled(h.before, capacity);
      FillMeaning(before, capacity, h.e, h.e.addr);
      Fill(before, capacity, h.e)
  }

  /** Each fill expires strictly later than all before it. */
  predicate Increasing(h: Fills) {
    h.Then? ==> Increasing(h.before) && (h.before.Then? ==> h.before.e.expiresAt < h.e.expiresAt)
  }

  /** The addresses of `l` are held, and expire in strictly decreasing order below `bound`. */
  predicate Chain(s: seq<Entry>, l: Addrs, bound: int) {
    l.More? ==>
      && Get(s, l.first).Some? && Get(s, l.first).value.expiresAt < bound
      && Chain(s, l.rest, Get(s, l.first).value.expiresAt)
  }

  lemma {:induction false} WithoutIn(l: Addrs, a: Address, b: Address)
    ensures In(Without(l, a), b) <==> In(l, b) && b != a
  {
    if l.More? {
      WithoutIn(l.rest, a, b);
    }
  }

  lemma {:induction false} WithoutDifferent(l: Addrs, a: Address)
    requires Different(l)
    ensures Different(Without(l, a))
    ensures !In(l, a) ==> Without(l, a) == l
    ensures Len(Without(l, a)) == Len(l) - (if In(l, a) then 1 else 0)
  {
    if l.More? {
      WithoutDifferent(l.rest, a);
      WithoutIn(l.rest, a, l.first);
    }
  }

  lemma {:induction false} RecentDifferent(h: Fills)
    ensures Different(Recent(h))
  {
    if h.Then? {
      RecentDifferent(h.before);
      WithoutDifferent(Recent(h.before), h.e.addr);
      WithoutIn(Recent(h.before), h.e.addr, h.e.addr);
    }
  }

  lemma {:induction false} TakeIn(l: Addrs, n: nat, b: Address)
    ensures In(Take(l, n), b) ==> In(l, b)
    ensures Len(Take(l, n)) == MinOf(n, Len(l))
    ensures Len(l) <= n ==> Take(l, n) == l
  {
    if n > 0 && l.More? {
      TakeIn(l.rest, n - 1, b);
    }
  }

  lemma {:induction false} TakeTake(l: Addrs, m: nat, n: nat)
    requires m <= n
    ensures Take(Take(l, n), m) == Take(l, m)
  {
    if m > 0 && l.More? {
      TakeTake(l.rest, m - 1, n - 1);
    }
  }

  lemma {:induction false} TakeDifferent(l: Addrs, n: nat)
    requires Different(l)
    ensures Different(Take(l, n))
  {
    if n > 0 && l.More? {
      TakeDifferent(l.rest, n - 1);
      TakeIn(l.rest, n - 1, l.first);
    }
  }

  /** Removing one address from the first `m + 1` leaves the first `m` of the rest. */
  lemma {:induction false} TakeWithout(l: Addrs, a: Address, m: nat)
    requires Different(l)
    ensures Take(Without(Take(l, m + 1), a), m) == Take(Without(l, a), m)
    decreases l
  {
    if l.More? {
      if l.first == a {
        WithoutDifferent(l.rest, a);
        TakeDifferent(l.rest, m);
        TakeIn(l.rest, m, a);
        WithoutDifferent(Take(l.rest, m), a);
        TakeTake(l.rest, m, m);
      } else if m > 0 {
        TakeWithout(l.rest, a, m - 1);
      }
    }
  }

  // ---- one fill ----

  lemma {:induction false} ChainIn(s: seq<Entry>, l: Addrs, bound: int, b: Address)
    requires Chain(s, l, bound) && In(l, b)
    ensures Get(s, b).Some? && Get(s, b).value.expiresAt < bound
  {
    if l.first != b {
      ChainIn(s, l.rest, Get(s, l.first).value.expiresAt, b);
    }
  }

  lemma {:induction false} ChainWeaker(s: seq<Entry>, l: Addrs, bound: int, more: int)
    requires Chain(s, l, bound) && bound <= more
    ensures Chain(s, l, more)
  {
  }

  lemma {:induction false} ChainWithout(s: seq<Entry>, l: Addrs, bound: int, a: Address)
    requires Chain(s, l, bound)
    ensures Chain(s, Without(l, a), bound)
  {
    if l.More? {
      var below := Get(s, l.first).value.expiresAt;
      ChainWithout(s, l.rest, below, a);
      ChainWeaker(s, Without(l.rest, a), below, bound);
    }
  }

  lemma {:induction false} ChainTake(s: seq<Entry>, l: Addrs, bound: int, n: nat)
    requires Chain(s, l, bound)
    ensures Chain(s, Take(l, n), bound)
  {
    if n > 0 && l.More? {
      ChainTake(s, l.rest, Get(s, l.first).value.expiresAt, n - 1);
    }
  }

  lemma {:induction false} ChainFrame(s: seq<Entry>, s': seq<Entry>, l: Addrs, bound: int)
    requires Chain(s, l, bound) && forall b: Address {:trigger In(l, b)} :: In(l, b) ==> Get(s', b) == Get(s, b)
    ensures Chain(s', l, bound)
  {
    if l.More? {
      assert In(l, l.first);
      forall b: Address | In(l.rest, b)
        ensures Get(s', b) == Get(s, b)
      {
        assert In(l, b);
      }
      ChainFrame(s, s', l.rest, Get(s, l.first).value.expiresAt);
    }
  }

  function Expiry(s: seq<Entry>, b: Address): int {
    if Get(s, b).None? then 0 else Get(s, b).value.expiresAt
  }

  /** The last of a chain is the one that expires first. */
  lemma {:induction false} ChainLast(s: seq<Entry>, l: Addrs, bound: int, v: Address)
    requires Chain(s, l, bound) && In(l, v) && Different(l)
    requires forall b: Address {:trigger In(l, b)} :: In(l, b) ==> Expiry(s, v) <= Expiry(s, b)
    ensures Len(l) >= 1 && forall b: Address :: In(Take(l, Len(l) - 1), b) <==> In(l, b) && b != v
  {
    if l.rest.Empty? {
      assert l.first == v;
    } else {
      var below := Get(s, l.first).value.expiresAt;
      assert In(l, l.rest.first);
      ChainIn(s, l.rest, below, l.rest.first);
      assert v != l.first;
      forall b: Address | In(l.rest, b)
        ensures In(l, b)
      {
      }
      ChainLast(s, l.rest, below, v);
    }
  }

  /** The cache holds exactly the addresses of `l`, the most recent first. */
  ghost predicate HoldsRecent(s: seq<Entry>, l: Addrs, newest: int) {
    && Chain(s, l, newest + 1) && Len(l) == |s| && Different(l)
    && forall b: Address {:trigger In(l, b)} :: Get(s, b).Some? <==> In(l, b)
  }

  lemma VictimIsLast(s: seq<Entry>, l: Addrs, newest: int)
    requires Distinct(s) && s != [] && HoldsRecent(s, l, newest)
    ensures var v := s[Oldest(s)].addr;
      Len(l) >= 1 && forall b: Address :: In(Take(l, Len(l) - 1), b) <==> In(l, b) && b != v
  {
    var o := Oldest(s);
    var v := s[o].addr;
    GetIs(s, o);
    assert In(l, v);
    forall b: Address | In(l, b)
      ensures Expiry(s, v) <= Expiry(s, b)
    {
      var i := IndexOf(s, b);
      assert Get(s, b).Some?;
    }
    ChainLast(s, l, newest + 1, v);
  }

  /** The first `n` of a list, behind a new first element. */
  lemma TakeMore(l: Addrs, a: Address, n: nat)
    requires n >= 1
    ensures Take(More(a, l), n) == More(a, Take(l, n - 1))
  {
  }

  lemma FillSize(s: seq<Entry>, capacity: nat, e: Entry)
    requires 1 <= capacity && |s| <= capacity && Distinct(s)
    ensures |Fill(s, capacity, e)| == if Get(s, e.addr).Some? then |s| else MinOf(|s| + 1, capacity)
  {
    if Insert(s, capacity, e).None? {
      RemoveMeaning(s, Oldest(s), e.addr);
    }
  }

  lemma FillRecent(s: seq<Entry>, capacity: nat, e: Entry, l: Addrs, newest: int)
    requires 1 <= capacity && |s| <= capacity && Distinct(s)
    requires HoldsRecent(s, l, newest) && newest < e.expiresAt
    ensures HoldsRecent(Fill(s, capacity, e), Take(More(e.addr, Without(l, e.addr)), capacity), e.expiresAt)
  {
    hide Get, Fill, Chain, Oldest;
    var s', a := Fill(s, capacity, e), e.addr;
    var rest := Take(Without(l, a), capacity - 1);
    TakeMore(Without(l, a), a, capacity);
    FillMeaning(s, capacity, e, a);
    FillSize(s, capacity, e);
    assert Get(s, a).Some? <==> In(l, a);
    WithoutDifferent(l, a);
    TakeDifferent(Without(l, a), capacity - 1);
    TakeIn(Without(l, a), capacity - 1, a);
    WithoutIn(l, a, a);
    if Evicts(s, capacity, a) {
      VictimIsLast(s, l, newest);
    }
    forall b: Address
      ensures In(rest, b) ==> Get(s', b) == Get(s, b) && b != a
      ensures Get(s', b).Some? <==> b == a || In(rest, b)
    {
      FillMeaning(s, capacity, e, b);
      WithoutIn(l, a, b);
      TakeIn(Without(l, a), capacity - 1, b);
      assert Get(s, b).Some? <==> In(l, b);
    }
    ChainWithout(s, l, newest + 1, a);
    ChainTake(s, Without(l, a), newest + 1, capacity - 1);
    ChainFrame(s, s', rest, newest + 1);
    ChainWeaker(s', rest, newest + 1, e.expiresAt);
    ChainStarts(s', a, rest, e);
  }

  lemma ChainStarts(s: seq<Entry>, a: Address, rest: Addrs, e: Entry)
    requires Get(s, a) == Some(e) && Chain(s, rest, e.expiresAt)
    ensures Chain(s, More(a, rest), e.expiresAt + 1)
  {
  }

  // ---- every sequence of fills ----

  function Newest(h: Fills): int {
    if h.NoFills? then 0 else h.e.expiresAt
  }

  lemma {:induction false} FilledHoldsRecent(h: Fills, capacity: nat)
    requires 1 <= capacity && Increasing(h)
    ensures HoldsRecent(Filled(h, capacity), Take(Recent(h), capacity), Newest(h))
  {
    hide HoldsRecent, Fill;
    if h.NoFills? {
      EmptyHolds(0);
    } else {
      var s, all := Filled(h.before, capacity), Recent(h.before);
      FilledHoldsRecent(h.before, capacity);
      RecentDifferent(h.before);
      if h.before.NoFills? {
        EmptyHolds(h.e.expiresAt - 1);
        FillRecent(s, capacity, h.e, Empty, h.e.expiresAt - 1);
      } else {
        FillRecent(s, capacity, h.e, Take(all, capacity), Newest(h.before));
      }
      TakeWithout(all, h.e.addr, capacity - 1);
      TakeMore(Without(Take(all, capacity), h.e.addr), h.e.addr, capacity);
      TakeMore(Without(all, h.e.addr), h.e.addr, capacity);
    }
  }

  lemma EmptyHolds(newest: int)
    ensures HoldsRecent([], Empty, newest)
  {
  }

  /**
   If every fill expires later than those before it, the cache holds exactly the most recently filled
   distinct addresses, as many of them as it has room for.
   */
  lemma HoldsMostRecent(h: Fills, capacity: nat, b: Address)
    requires 1 <= capacity && Increasing(h)
    ensures Get(Filled(h, capacity), b).Some? <==> In(Take(Recent(h), capacity), b)
    ensures |Filled(h, capacity)| == MinOf(capacity, Len(Recent(h)))
  {
    hide Fill, Get;
    FilledHoldsRecent(h, capacity);
    TakeIn(Recent(h), capacity, b);
    assert In(Take(Recent(h), capacity), b) <==> Get(Filled(h, capacity), b).Some?;
  }
}
