/** The round-trip estimator of a TCP socket, as values; milliseconds unless said otherwise. */
module RttEstimation {
  import opened Common
  import opened SeqNumbers

  const INITIAL_RTT: nat := 300
  const INITIAL_DEV: nat := 100
  const MIN_MARGIN: nat := 5
  const MIN_RTO: nat := 10
  const MAX_RTO: nat := 10000
  const U32: int := 0x1_0000_0000

  datatype Rtt = Rtt(
    rtt: nat,
    deviation: nat,
    timestamp: Option<(int, SeqNumber)>,
    maxSeqSent: Option<SeqNumber>,
    rtoCount: nat)

  const DEFAULT_RTT: Rtt := Rtt(INITIAL_RTT, INITIAL_DEV, None, None, 0)

  function Abs(x: int): nat {
    if x < 0 then -x else x
  }

  function RtoMillis(r: Rtt): nat {
    var ms := r.rtt + MaxOf(MIN_MARGIN, r.deviation * 4);
    MinOf(MaxOf(ms, MIN_RTO), MAX_RTO)
  }

  /** In microseconds. */
  function RetransmissionTimeout(r: Rtt): (d: nat)
    ensures 1000 * MIN_RTO <= d <= 1000 * MAX_RTO
  {
    1000 * RtoMillis(r)
  }

  /** The cast of an unsigned to a signed 32-bit number. */
  function AsI32(x: nat): int {
    if x < HALF then x else x - U32
  }

  function Smoothed(r: Rtt, newRtt: nat): nat {
    (r.rtt * 7 + newRtt + 7) / 8
  }

  function Sample(r: Rtt, newRtt: nat): Rtt {
    var rtt := Smoothed(r, newRtt);
    var diff := Abs(AsI32(rtt) - AsI32(newRtt));
    r.(rtt := rtt, deviation := (r.deviation * 3 + diff + 3) / 4, rtoCount := 0)
  }

  function OnSend(r: Rtt, now: int, seqEnd: SeqNumber): Rtt {
    if r.maxSeqSent.None? || Gt(seqEnd, r.maxSeqSent.value) then
      r.(maxSeqSent := Some(seqEnd),
         timestamp := if r.timestamp.None? then Some((now, seqEnd)) else r.timestamp)
    else r
  }

  /** Whether acknowledging `ack` completes the running measurement. */
  predicate Samples(r: Rtt, ack: SeqNumber) {
    r.timestamp.Some? && Ge(ack, r.timestamp.value.1)
  }

  /** The elapsed milliseconds, cast to 32 bits as the source does. */
  function Elapsed(r: Rtt, now: int): nat
    requires r.timestamp.Some?
  {
    Abs(now - r.timestamp.value.0) / 1000 % U32
  }

  function OnAck(r: Rtt, now: int, ack: SeqNumber): Rtt {
    if Samples(r, ack) then Sample(r, Elapsed(r, now)).(timestamp := None) else r
  }

  function OnRetransmit(r: Rtt): Rtt {
    var count := MinOf(r.rtoCount + 1, 255);
    if count >= 3 then
      r.(timestamp := None, rtoCount := 0, rtt := MinOf(MAX_RTO, r.rtt * 2))
    else
      r.(timestamp := None, rtoCount := count)
  }

  // ---- bounds over every sequence of samples and retransmissions ----

  datatype Event = Measured(ms: nat) | Retransmitted

  function Step(r: Rtt, e: Event): Rtt {
    match e
    case Measured(ms) => Sample(r, ms)
    case Retransmitted => OnRetransmit(r)
  }

  function Run(r: Rtt, es: seq<Event>): Rtt
    decreases |es|
  {
    if es == [] then r else Run(Step(r, es[0]), es[1..])
  }

  predicate Bounded(r: Rtt, bound: nat) {
    r.rtt <= bound && r.deviation <= bound
  }

  predicate SamplesAtMost(es: seq<Event>, largest: nat) {
    forall i :: 0 <= i < |es| && es[i].Measured? ==> es[i].ms <= largest
  }

  /** The 32-bit expressions of `retransmission_timeout` and `on_retransmit` fit. */
  predicate Fits(r: Rtt) {
    r.rtt + MaxOf(MIN_MARGIN, r.deviation * 4) < U32 && r.rtt * 2 < U32
  }

  /** So do those of `sample`, which also computes the timeout that results. */
  predicate SampleFits(r: Rtt, newRtt: nat) {
    && newRtt < U32 && r.rtt * 7 + newRtt + 7 < U32
    && -HALF <= AsI32(Smoothed(r, newRtt)) - AsI32(newRtt) < HALF
    && r.deviation * 3 + Abs(AsI32(Smoothed(r, newRtt)) - AsI32(newRtt)) + 3 < U32
    && Fits(Sample(r, newRtt))
  }

  predicate NoOverflow(r: Rtt, newRtt: nat) {
    Fits(r) && SampleFits(r, newRtt)
  }

  lemma StepBounded(r: Rtt, e: Event, bound: nat)
    requires Bounded(r, bound) && MAX_RTO <= bound < HALF
    requires e.Measured? ==> e.ms <= bound
    ensures Bounded(Step(r, e), bound)
  {
  }

  lemma BoundedFits(r: Rtt, largest: nat, next: nat)
    requires largest < 0x2000_0000 && next <= largest && Bounded(r, MaxOf(MAX_RTO, largest))
    ensures NoOverflow(r, next)
  {
    StepBounded(r, Measured(next), MaxOf(MAX_RTO, largest));
  }

  /**
   Starting from the default estimate, with all samples at most `largest` (below 2^29 ms), neither
   estimate ever exceeds max(10000, largest) and the next sample overflows nothing.
   */
  lemma {:induction false} EstimatesBounded(r: Rtt, es: seq<Event>, largest: nat, next: nat)
    requires largest < 0x2000_0000 && next <= largest && SamplesAtMost(es, largest)
    requires Bounded(r, MaxOf(MAX_RTO, largest))
    ensures Bounded(Run(r, es), MaxOf(MAX_RTO, largest))
    ensures NoOverflow(Run(r, es), next)
    decreases |es|
  {
    hide NoOverflow, Step;
    if es == [] {
      BoundedFits(r, largest, next);
    } else {
      StepBounded(r, es[0], MaxOf(MAX_RTO, largest));
      forall i | 0 <= i < |es[1..]| && es[1..][i].Measured?
        ensures es[1..][i].ms <= largest
      {
        assert es[1..][i] == es[i + 1];
      }
      EstimatesBounded(Step(r, es[0]), es[1..], largest, next);
    }
  }

  lemma EstimatesBoundedFromStart(es: seq<Event>, largest: nat, next: nat)
    requires largest < 0x2000_0000 && next <= largest && SamplesAtMost(es, largest)
    ensures Bounded(Run(DEFAULT_RTT, es), MaxOf(MAX_RTO, largest))
    ensures NoOverflow(Run(DEFAULT_RTT, es), next)
  {
    EstimatesBounded(DEFAULT_RTT, es, largest, next);
  }

  function Repeat(c: nat, n: nat): seq<Event> {
    if n == 0 then [] else [Measured(c)] + Repeat(c, n - 1)
  }

  predicate Settled(r: Rtt, c: nat) {
    c <= r.rtt <= c + 7
  }

  /** How far the estimate is outside `[c, c + 7]`. */
  function Distance(r: Rtt, c: nat): nat {
    if r.rtt < c then c - r.rtt else if r.rtt > c + 7 then r.rtt - (c + 7) else 0
  }

  lemma SampleApproaches(r: Rtt, c: nat)
    ensures Distance(Sample(r, c), c) <= if Distance(r, c) == 0 then 0 else Distance(r, c) - 1
  {
  }

  /** Constant samples: the estimate is inside `[c, c + 7]` after at most `Distance` of them, for good. */
  lemma {:induction false} ConstantSamplesSettle(r: Rtt, c: nat, n: nat)
    requires n >= Distance(r, c)
    ensures Settled(Run(r, Repeat(c, n)), c)
    decreases n
  {
    if n > 0 {
      SampleApproaches(r, c);
      assert Repeat(c, n)[1..] == Repeat(c, n - 1);
      ConstantSamplesSettle(Sample(r, c), c, n - 1);
    }
  }

  lemma {:induction false} RepeatAtMost(c: nat, n: nat)
    ensures SamplesAtMost(Repeat(c, n), c)
  {
    if n > 0 {
      RepeatAtMost(c, n - 1);
    }
  }

  /** After enough samples of 2^29 ms, or of anything above, the next one overflows. */
  lemma LargeSamplesOverflow(largest: nat) returns (es: seq<Event>)
    requires largest >= 0x2000_0000
    ensures SamplesAtMost(es, largest) && !NoOverflow(Run(DEFAULT_RTT, es), largest)
  {
    var n := Distance(DEFAULT_RTT, largest);
    es := Repeat(largest, n);
    RepeatAtMost(largest, n);
    ConstantSamplesSettle(DEFAULT_RTT, largest, n);
  }

  /** Samples of at most `largest` never overflow 32 bits, in any run, exactly if `largest` is below 2^29 ms. */
  lemma OverflowExactly(largest: nat)
    ensures (forall es: seq<Event>, next: nat :: SamplesAtMost(es, largest) && next <= largest ==>
               NoOverflow(Run(DEFAULT_RTT, es), next))
      <==> largest < 0x2000_0000
  {
    hide NoOverflow, SamplesAtMost, Run;
    if largest < 0x2000_0000 {
      forall es: seq<Event>, next: nat | SamplesAtMost(es, largest) && next <= largest
        ensures NoOverflow(Run(DEFAULT_RTT, es), next)
      {
        EstimatesBoundedFromStart(es, largest, next);
      }
    } else {
      var es := LargeSamplesOverflow(largest);
    }
  }

  // ---- what the timeout is worth ----

  /** After a sample the timeout is no shorter than that sample, up to its limit of ten seconds. */
  lemma TimeoutCoversSample(r: Rtt, ms: nat)
    requires Bounded(r, HALF - 1) && ms < HALF
    ensures RtoMillis(Sample(r, ms)) >= MinOf(ms, 10000)
  {
  }

  /** With the estimate settled, equal samples bring the deviation to 10 ms or less. */
  lemma {:induction false} DeviationSettles(r: Rtt, c: nat, n: nat)
    requires Settled(r, c) && c + 7 < HALF && r.deviation <= 10 + n
    ensures Settled(Run(r, Repeat(c, n)), c) && Run(r, Repeat(c, n)).deviation <= 10
    decreases n
  {
    if n > 0 {
      assert Repeat(c, n)[1..] == Repeat(c, n - 1);
      DeviationSettles(Sample(r, c), c, n - 1);
    }
  }

  lemma {:induction false} RunTogether(r: Rtt, es: seq<Event>, more: seq<Event>)
    ensures Run(r, es + more) == Run(Run(r, es), more)
    decreases |es|
  {
    if es == [] {
      assert es + more == more;
    } else {
      assert (es + more)[1..] == es[1..] + more;
      RunTogether(Step(r, es[0]), es[1..], more);
    }
  }

  lemma {:induction false} RepeatTogether(c: nat, m: nat, n: nat)
    ensures Repeat(c, m) + Repeat(c, n) == Repeat(c, m + n)
    decreases m
  {
    if m > 0 {
      RepeatTogether(c, m - 1, n);
      assert Repeat(c, m) + Repeat(c, n) == [Measured(c)] + (Repeat(c, m - 1) + Repeat(c, n));
    }
  }

  /** After enough equal samples the timeout is that round trip and 5 to 47 ms more. */
  lemma TimeoutSettles(r: Rtt, c: nat, bound: nat, n: nat)
    requires Bounded(r, bound) && c <= bound && MAX_RTO <= bound < HALF - 7
    requires n >= Distance(r, c) + bound && 10 <= c <= 9000
    ensures c + 5 <= RtoMillis(Run(r, Repeat(c, n))) <= c + 47
  {
    var m := Distance(r, c);
    ConstantSamplesSettle(r, c, m);
    RepeatTogether(c, m, n - m);
    RunTogether(r, Repeat(c, m), Repeat(c, n - m));
    RepeatAtMost(c, m);
    var s := Run(r, Repeat(c, m));
    StaysBounded(r, Repeat(c, m), bound);
    DeviationSettles(s, c, n - m);
  }

  lemma {:induction false} StaysBounded(r: Rtt, es: seq<Event>, bound: nat)
    requires Bounded(r, bound) && MAX_RTO <= bound < HALF && SamplesAtMost(es, bound)
    ensures Bounded(Run(r, es), bound)
    decreases |es|
  {
    hide Step;
    if es != [] {
      assert es[0].Measured? ==> es[0].ms <= bound;
      StepBounded(r, es[0], bound);
      assert forall i :: 0 <= i < |es[1..]| ==> es[1..][i] == es[i + 1];
      StaysBounded(Step(r, es[0]), es[1..], bound);
    }
  }

  // ---- backing off ----

  const THREE: seq<Event> := [Retransmitted, Retransmitted, Retransmitted]

  /** Two retransmissions in a row leave the estimate alone; the third doubles it, up to ten seconds. */
  lemma ThirdDoubles(r: Rtt)
    requires r.rtoCount == 0
    ensures Run(r, THREE[..2]).rtt == r.rtt
    ensures var s := Run(r, THREE);
      s.rtt == MinOf(10000, 2 * r.rtt) && s.rtoCount == 0 && s.deviation == r.deviation
  {
    var r1 := Step(r, Retransmitted);
    var r2 := Step(r1, Retransmitted);
    var r3 := Step(r2, Retransmitted);
    assert THREE[1..][1..][1..] == [] && THREE[1..][0] == THREE[1..][1..][0] == Retransmitted;
    assert Run(r, THREE) == Run(r1, THREE[1..]) == Run(r2, THREE[1..][1..]) == Run(r3, THREE[1..][1..][1..]);
    var two := THREE[..2];
    assert two[1..][1..] == [] && two[1..][0] == Retransmitted;
    assert Run(r, two) == Run(r1, two[1..]) == Run(r2, two[1..][1..]);
  }

  function Threes(k: nat): seq<Event> {
    if k == 0 then [] else THREE + Threes(k - 1)
  }

  function Doubled(x: nat, k: nat): nat
    decreases k
  {
    if k == 0 then x else Doubled(2 * x, k - 1)
  }

  lemma {:induction false} DoubledLimit(x: nat, k: nat)
    requires x >= 10000
    ensures Doubled(x, k) >= 10000
    decreases k
  {
    if k > 0 {
      DoubledLimit(2 * x, k - 1);
    }
  }

  /** A peer that stays silent: the estimate doubles with every third retransmission until it is ten seconds. */
  lemma {:induction false} BacksOff(r: Rtt, k: nat)
    requires r.rtoCount == 0 && r.rtt <= 10000
    ensures Run(r, Threes(k)).rtt == MinOf(10000, Doubled(r.rtt, k))
    decreases k
  {
    if k > 0 {
      ThirdDoubles(r);
      RunTogether(r, THREE, Threes(k - 1));
      BacksOff(Run(r, THREE), k - 1);
      if 2 * r.rtt > 10000 {
        DoubledLimit(2 * r.rtt, k - 1);
        DoubledLimit(10000, k - 1);
      }
    }
  }
}
