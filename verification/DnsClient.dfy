/**
 The DNS client: each query asks one server after another, with an exponential back-off against a timeout.
 Times are in microseconds.
 */
module DnsClient {
  import opened Common

  const SECOND: nat := 1_000_000
  const RETRANSMIT_DELAY: nat := SECOND
  const MAX_RETRANSMIT_DELAY: nat := 10 * SECOND
  const RETRANSMIT_TIMEOUT: nat := 10 * SECOND

  /** A server address; 0 is the unspecified one. */
  type Server = nat

  datatype Query =
    | Pending(timeoutAt: Option<int>, retransmitAt: int, delay: nat, serverIdx: nat, mdns: bool)
    | Completed
    | Failure

  const NEW_QUERY: Query := Pending(None, 0, RETRANSMIT_DELAY, 0, false)

  /** The configured servers, and the multicast ones that a name under `.local` is asked of instead. */
  datatype Servers = Servers(unicast: seq<Server>, multicast: seq<Server>)

  function ServersOf(q: Query, servers: Servers): seq<Server>
    requires q.Pending?
  {
    if q.mdns then servers.multicast else servers.unicast
  }

  /** Start the timeout, or go on to the next server once it has passed. */
  function Advance(q: Query, now: int): Query
    requires q.Pending?
  {
    var timeout := if q.timeoutAt.Some? then q.timeoutAt.value else now + RETRANSMIT_TIMEOUT;
    if timeout < now then
      q.(timeoutAt := Some(now + RETRANSMIT_TIMEOUT), retransmitAt := 0, delay := RETRANSMIT_DELAY,
         serverIdx := q.serverIdx + 1)
    else q.(timeoutAt := Some(timeout))
  }

  /** What `dispatch` does to a pending query before it considers sending. */
  function Prepare(q: Query, servers: Servers, now: int): Query
    requires q.Pending?
  {
    var a := Advance(q, now);
    if a.serverIdx >= |ServersOf(a, servers)| then Failure
    else if ServersOf(a, servers)[a.serverIdx] == 0 then Failure
    else a
  }

  predicate Ready(q: Query, now: int) {
    q.Pending? && q.retransmitAt <= now
  }

  function Sent(q: Query, now: int): Query
    requires q.Pending?
  {
    q.(retransmitAt := now + q.delay, delay := MinOf(MAX_RETRANSMIT_DELAY, q.delay * 2))
  }

  /** The query of a slot, sent to a server. */
  datatype Sending = Sending(slot: nat, to: Server)

  /** The slots, and what was handed to the device. */
  datatype Dispatched = Dispatched(queries: seq<Option<Query>>, sent: Option<Sending>)

  /** From slot `i` on: the first query that is ready is sent and ends the pass, if the device takes it or not. */
  function DispatchFrom(queries: seq<Option<Query>>, servers: Servers, now: int, emitOk: bool, i: nat): (r: Dispatched)
    requires i <= |queries|
    ensures |r.queries| == |queries|
    decreases |queries| - i
  {
    if i == |queries| then Dispatched(queries, None)
    else if queries[i].None? || !queries[i].value.Pending? then DispatchFrom(queries, servers, now, emitOk, i + 1)
    else
      var q := Prepare(queries[i].value, servers, now);
      if Ready(q, now) then
        Dispatched(queries[i := Some(if emitOk then Sent(q, now) else q)],
                   if emitOk then Some(Sending(i, ServersOf(q, servers)[q.serverIdx])) else None)
      else DispatchFrom(queries[i := Some(q)], servers, now, emitOk, i + 1)
  }

  function Dispatch(queries: seq<Option<Query>>, servers: Servers, now: int, emitOk: bool): Dispatched {
    DispatchFrom(queries, servers, now, emitOk, 0)
  }

  // ---- how much effort a query takes ----

  /** What has been sent for a query: in all, and to the present server since `since`, the last time at `last`. */
  datatype Effort = Effort(total: nat, here: nat, since: int, mdns: bool, last: int)

  /** `2^n - 1`, the sum of the first `n` back-off delays in seconds. */
  function Waited(n: nat): nat {
    if n == 0 then 0 else 2 * Waited(n - 1) + 1
  }

  lemma WaitedValues()
    ensures Waited(0) == 0 && Waited(1) == 1 && Waited(2) == 3 && Waited(3) == 7 && Waited(4) == 15
  {
    assert Waited(1) == 1;
    assert Waited(2) == 3;
    assert Waited(3) == 7;
  }

  predicate EffortOk(q: Query, e: Effort, clock: int) {
    && (q.Pending? ==> q.mdns == e.mdns)
    && (q.Pending? && q.timeoutAt.None? ==>
          e.total == 0 && e.here == 0 && q.delay == RETRANSMIT_DELAY && q.serverIdx == 0)
    && (q.Pending? && q.timeoutAt.Some? ==>
          && q.timeoutAt.value == e.since + RETRANSMIT_TIMEOUT && e.since <= clock
          && e.here <= 4 && e.total <= 4 * q.serverIdx + e.here
          && (e.here < 4 ==> q.delay == (Waited(e.here) + 1) * SECOND)
          && (e.here > 0 ==>
                && q.retransmitAt >= e.since + Waited(e.here) * SECOND
                && q.retransmitAt == e.last + (Waited(e.here - 1) + 1) * SECOND))
  }

  /** All that was ever sent for a query: four times to each of its servers at most. */
  predicate Bounded(e: Effort, servers: Servers) {
    e.total <= 4 * |if e.mdns then servers.multicast else servers.unicast|
  }

  /** The effort after the timeout has been looked at. */
  function AdvancedEffort(q: Query, e: Effort, now: int): Effort
    requires q.Pending?
  {
    if q.timeoutAt.None? then e.(since := now)
    else if q.timeoutAt.value < now then e.(here := 0, since := now)
    else e
  }

  lemma AdvanceEffort(q: Query, e: Effort, clock: int, now: int)
    requires q.Pending? && EffortOk(q, e, clock) && clock <= now
    ensures EffortOk(Advance(q, now), AdvancedEffort(q, e, now), now)
    ensures Advance(q, now).Pending? && Advance(q, now).timeoutAt.Some? && now <= Advance(q, now).timeoutAt.value
  {
  }

  /** A fifth transmission to one server would come after the timeout. */
  lemma AtMostFour(q: Query, e: Effort, now: int)
    requires q.Pending? && q.timeoutAt.Some? && EffortOk(q, e, now) && Ready(q, now) && now <= q.timeoutAt.value
    ensures e.here < 4
  {
    WaitedValues();
  }

  lemma SentEffort(q: Query, e: Effort, now: int)
    requires q.Pending? && q.timeoutAt.Some? && EffortOk(q, e, now) && Ready(q, now) && now <= q.timeoutAt.value
    ensures EffortOk(Sent(q, now), e.(total := e.total + 1, here := e.here + 1, last := now), now)
  {
    AtMostFour(q, e, now);
    WaitedValues();
    hide Waited;
    assert e.here == 0 || e.here == 1 || e.here == 2 || e.here == 3;
  }

  /** What one look at a query does to its effort. */
  function EffortAfter(q: Query, e: Effort, servers: Servers, now: int, emitOk: bool): Effort
    requires q.Pending?
  {
    var a := AdvancedEffort(q, e, now);
    if Ready(Prepare(q, servers, now), now) && emitOk then a.(total := a.total + 1, here := a.here + 1, last := now)
    else a
  }

  function LookedAt(q: Query, servers: Servers, now: int, emitOk: bool): Query
    requires q.Pending?
  {
    var p := Prepare(q, servers, now);
    if Ready(p, now) && emitOk then Sent(p, now) else p
  }

  lemma LookKeepsBound(q: Query, e: Effort, servers: Servers, clock: int, now: int, emitOk: bool)
    requires q.Pending? && EffortOk(q, e, clock) && clock <= now && Bounded(e, servers)
    ensures var q', e' := LookedAt(q, servers, now, emitOk), EffortAfter(q, e, servers, now, emitOk);
      EffortOk(q', e', now) && Bounded(e', servers)
  {
    AdvanceEffort(q, e, clock, now);
    var p, a := Prepare(q, servers, now), AdvancedEffort(q, e, now);
    if p.Pending? {
      if Ready(p, now) && emitOk {
        AtMostFour(p, a, now);
        SentEffort(p, a, now);
      }
      hide Waited;
    }
  }

  // ---- all queries together ----

  predicate SlotOk(slot: Option<Query>, e: Effort, servers: Servers, clock: int) {
    slot.Some? ==> EffortOk(slot.value, e, clock) && Bounded(e, servers)
  }

  predicate AllOk(queries: seq<Option<Query>>, efforts: seq<Effort>, servers: Servers, clock: int) {
    |efforts| == |queries| && forall i :: 0 <= i < |queries| ==> SlotOk(queries[i], efforts[i], servers, clock)
  }

  lemma LaterIsOk(queries: seq<Option<Query>>, efforts: seq<Effort>, servers: Servers, clock: int, now: int)
    requires AllOk(queries, efforts, servers, clock) && clock <= now
    ensures AllOk(queries, efforts, servers, now)
  {
    hide Waited;
    forall i | 0 <= i < |queries|
      ensures SlotOk(queries[i], efforts[i], servers, now)
    {
      assert SlotOk(queries[i], efforts[i], servers, clock);
    }
  }

  /** The efforts after the same pass. */
  function EffortsFrom(queries: seq<Option<Query>>, efforts: seq<Effort>, servers: Servers, now: int, emitOk: bool,
                       i: nat): (r: seq<Effort>)
    requires i <= |queries| == |efforts|
    ensures |r| == |efforts|
    decreases |queries| - i
  {
    if i == |queries| then efforts
    else if queries[i].None? || !queries[i].value.Pending? then
      EffortsFrom(queries, efforts, servers, now, emitOk, i + 1)
    else
      var q := queries[i].value;
      var efforts' := efforts[i := EffortAfter(q, efforts[i], servers, now, emitOk)];
      if Ready(Prepare(q, servers, now), now) then efforts'
      else EffortsFrom(queries[i := Some(Prepare(q, servers, now))], efforts', servers, now, emitOk, i + 1)
  }

  lemma {:induction false} PassKeepsBound(queries: seq<Option<Query>>, efforts: seq<Effort>, servers: Servers, now: int,
                                          emitOk: bool, i: nat)
    requires i <= |queries| && AllOk(queries, efforts, servers, now)
    ensures AllOk(DispatchFrom(queries, servers, now, emitOk, i).queries,
                  EffortsFrom(queries, efforts, servers, now, emitOk, i), servers, now)
    decreases |queries| - i
  {
    hide Bounded, EffortOk, Prepare, Sent, Ready, AdvancedEffort;
    if i < |queries| {
      if queries[i].None? || !queries[i].value.Pending? {
        PassKeepsBound(queries, efforts, servers, now, emitOk, i + 1);
      } else {
        var q, e := queries[i].value, efforts[i];
        assert SlotOk(queries[i], e, servers, now);
        LookKeepsBound(q, e, servers, now, now, emitOk);
        var q', e' := LookedAt(q, servers, now, emitOk), EffortAfter(q, e, servers, now, emitOk);
        OneReplaced(queries, efforts, servers, now, i, q', e');
        if !Ready(Prepare(q, servers, now), now) {
          PassKeepsBound(queries[i := Some(q')], efforts[i := e'], servers, now, emitOk, i + 1);
        }
      }
    }
  }

  predicate Sends(d: Dispatched, slot: nat) {
    d.sent.Some? && d.sent.value.slot == slot
  }

  /** The efforts count exactly what `dispatch` reports as sent. */
  lemma {:induction false} EffortCountsSends(queries: seq<Option<Query>>, efforts: seq<Effort>,
                                             servers: Servers, now: int,
                                             emitOk: bool, i: nat, k: nat)
    requires i <= |queries| == |efforts| && k < |queries|
    ensures EffortsFrom(queries, efforts, servers, now, emitOk, i)[k].total
         == efforts[k].total + (if Sends(DispatchFrom(queries, servers, now, emitOk, i), k) then 1 else 0)
    ensures Sends(DispatchFrom(queries, servers, now, emitOk, i), k) ==> i <= k
    decreases |queries| - i
  {
    hide Prepare, Sent, Ready;
    if i < |queries| {
      if queries[i].None? || !queries[i].value.Pending? {
        EffortCountsSends(queries, efforts, servers, now, emitOk, i + 1, k);
      } else {
        var q := queries[i].value;
        if !Ready(Prepare(q, servers, now), now) {
          EffortCountsSends(queries[i := Some(Prepare(q, servers, now))],
                            efforts[i := EffortAfter(q, efforts[i], servers, now, emitOk)],
                            servers, now, emitOk, i + 1, k);
        }
      }
    }
  }

  lemma OneReplaced(queries: seq<Option<Query>>, efforts: seq<Effort>, servers: Servers, now: int, i: nat,
                    q: Query, e: Effort)
    requires AllOk(queries, efforts, servers, now) && i < |queries| && EffortOk(q, e, now) && Bounded(e, servers)
    ensures AllOk(queries[i := Some(q)], efforts[i := e], servers, now)
  {
    hide Bounded, EffortOk;
    var queries', efforts' := queries[i := Some(q)], efforts[i := e];
    forall j | 0 <= j < |queries'|
      ensures SlotOk(queries'[j], efforts'[j], servers, now)
    {
      assert SlotOk(queries[j], efforts[j], servers, now);
    }
  }

  // ---- every run ----

  function FirstFree(queries: seq<Option<Query>>, from: nat): (r: Option<nat>)
    requires from <= |queries|
    ensures r.Some? ==> from <= r.value < |queries| && queries[r.value].None?
    ensures r.None? ==> forall i :: from <= i < |queries| ==> queries[i].Some?
    decreases |queries| - from
  {
    if from == |queries| then None
    else if queries[from].None? then Some(from)
    else FirstFree(queries, from + 1)
  }

  /** A new query in the first free slot, or in a new one if the slots may grow. */
  function Started(queries: seq<Option<Query>>, growable: bool, mdns: bool): Option<(seq<Option<Query>>, nat)> {
    var q := NEW_QUERY.(mdns := mdns);
    var free := FirstFree(queries, 0);
    if free.Some? then Some((queries[free.value := Some(q)], free.value))
    else if growable then Some((queries + [Some(q)], |queries|))
    else None
  }

  datatype Event =
    | Poll(now: int, emitOk: bool)
    | Start(growable: bool, mdns: bool)
    | Answer(i: nat, found: bool)
    | Release(i: nat)

  /** The slots, what each query has cost, and the latest time seen. */
  datatype Run = Run(queries: seq<Option<Query>>, efforts: seq<Effort>, clock: int)

  const NO_EFFORT: Effort := Effort(0, 0, 0, false, 0)

  /** A clock that goes back, or a slot that is not there, is no event. */
  function Step(r: Run, servers: Servers, e: Event): (r': Run)
    requires |r.efforts| == |r.queries|
    ensures |r'.efforts| == |r'.queries|
  {
    match e
    case Poll(now, emitOk) =>
      if now < r.clock then r
      else Run(Dispatch(r.queries, servers, now, emitOk).queries,
               EffortsFrom(r.queries, r.efforts, servers, now, emitOk, 0), now)
    case Start(growable, mdns) =>
      var s := Started(r.queries, growable, mdns);
      if s.None? then r
      else
        var e := NO_EFFORT.(mdns := mdns);
        if s.value.1 < |r.queries| then r.(queries := s.value.0, efforts := r.efforts[s.value.1 := e])
        else r.(queries := s.value.0, efforts := r.efforts + [e])
    case Answer(i, found) =>
      if i < |r.queries| && r.queries[i].Some? && r.queries[i].value.Pending?
      then r.(queries := r.queries[i := Some(if found then Completed else Failure)])
      else r
    case Release(i) => if i < |r.queries| then r.(queries := r.queries[i := None]) else r
  }

  function After(r: Run, servers: Servers, es: seq<Event>): Run
    requires |r.efforts| == |r.queries|
    decreases |es|
  {
    if es == [] then r else After(Step(r, servers, es[0]), servers, es[1..])
  }

  lemma StepOk(r: Run, servers: Servers, e: Event)
    requires AllOk(r.queries, r.efforts, servers, r.clock)
    ensures var r' := Step(r, servers, e); AllOk(r'.queries, r'.efforts, servers, r'.clock)
  {
    hide EffortsFrom, DispatchFrom, Waited;
    var r' := Step(r, servers, e);
    match e
    case Poll(now, emitOk) =>
      if now >= r.clock {
        LaterIsOk(r.queries, r.efforts, servers, r.clock, now);
        PassKeepsBound(r.queries, r.efforts, servers, now, emitOk, 0);
      }
    case _ =>
      forall i | 0 <= i < |r'.queries|
        ensures SlotOk(r'.queries[i], r'.efforts[i], servers, r'.clock)
      {
        assert i < |r.queries| ==> SlotOk(r.queries[i], r.efforts[i], servers, r.clock);
      }
  }

  lemma {:induction false} AfterOk(r: Run, servers: Servers, es: seq<Event>)
    requires AllOk(r.queries, r.efforts, servers, r.clock)
    ensures var r' := After(r, servers, es); AllOk(r'.queries, r'.efforts, servers, r'.clock)
    decreases |es|
  {
    hide Step, SlotOk;
    if es != [] {
      StepOk(r, servers, es[0]);
      AfterOk(Step(r, servers, es[0]), servers, es[1..]);
    }
  }

  /**
   Over every run with a clock that does not go back and a fixed list of servers: no query is ever sent
   more than four times to the server it is at, nor more than four times the number of servers in all.
   */
  lemma EffortIsBounded(servers: Servers, es: seq<Event>, i: nat)
    ensures var r := After(Run([], [], 0), servers, es);
      i < |r.queries| && r.queries[i].Some? ==>
        && i < |r.efforts|
        && Bounded(r.efforts[i], servers)
        && (r.queries[i].value.Pending? ==> r.efforts[i].here <= 4)
  {
    hide After, Waited;
    AfterOk(Run([], [], 0), servers, es);
    var r := After(Run([], [], 0), servers, es);
    if i < |r.queries| {
      assert SlotOk(r.queries[i], r.efforts[i], servers, r.clock);
    }
  }

  /**
   Over every run of that kind: a query is sent again one, two, four and eight seconds after it was last sent to the
   same server.
   */
  lemma DelaysDouble(servers: Servers, es: seq<Event>, i: nat)
    ensures var r := After(Run([], [], 0), servers, es);
      i < |r.queries| && r.queries[i].Some? && r.queries[i].value.Pending? ==>
        && i < |r.efforts|
        && var q, e := r.queries[i].value, r.efforts[i];
           && (e.here == 1 ==> q.retransmitAt == e.last + 1_000_000)
           && (e.here == 2 ==> q.retransmitAt == e.last + 2_000_000)
           && (e.here == 3 ==> q.retransmitAt == e.last + 4_000_000)
           && (e.here == 4 ==> q.retransmitAt == e.last + 8_000_000)
  {
    hide After;
    AfterOk(Run([], [], 0), servers, es);
    var r := After(Run([], [], 0), servers, es);
    WaitedValues();
    if i < |r.queries| {
      assert SlotOk(r.queries[i], r.efforts[i], servers, r.clock);
    }
  }
}
