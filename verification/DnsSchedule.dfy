/** When the DNS client acts: unanswered queries come to an end, and `poll_at` overlooks their timeouts. */
module DnsSchedule {
  import opened Common
  import opened DnsClient

  predicate IsPending(slot: Option<Query>) {
    slot.Some? && slot.value.Pending?
  }

  // ---- a query that nobody answers fails ----

  /** How many more passes a slot can keep busy. */
  function Rank(slot: Option<Query>, servers: Servers): nat {
    if !IsPending(slot) then 0
    else
      var q := slot.value;
      var n := |ServersOf(q, servers)|;
      (if q.serverIdx < n then n - q.serverIdx else 0) + (if q.timeoutAt.None? then 2 else 1)
  }

  function TotalRank(queries: seq<Option<Query>>, servers: Servers): nat {
    if queries == [] then 0 else Rank(queries[0], servers) + TotalRank(queries[1..], servers)
  }

  lemma {:induction false} EffortUpdate(queries: seq<Option<Query>>, servers: Servers, i: nat, slot: Option<Query>)
    requires i < |queries|
    ensures TotalRank(queries[i := slot], servers)
         == TotalRank(queries, servers) - Rank(queries[i], servers) + Rank(slot, servers)
  {
    hide Rank;
    var after := queries[i := slot];
    if i > 0 {
      EffortUpdate(queries[1..], servers, i - 1, slot);
      assert after[1..] == queries[1..][i - 1 := slot];
    } else {
      assert after[1..] == queries[1..];
    }
  }

  lemma {:induction false} EffortZero(queries: seq<Option<Query>>, servers: Servers, i: nat)
    requires i < |queries| && IsPending(queries[i])
    ensures TotalRank(queries, servers) > 0
  {
    if i > 0 {
      EffortZero(queries[1..], servers, i - 1);
    }
  }

  /** No timeout lies at or after `now`. */
  predicate TimedOut(slot: Option<Query>, now: int) {
    IsPending(slot) && slot.value.timeoutAt.Some? ==> slot.value.timeoutAt.value < now
  }

  predicate AllTimedOut(queries: seq<Option<Query>>, now: int) {
    forall i :: 0 <= i < |queries| ==> TimedOut(queries[i], now)
  }

  /** A look past the timeout uses up a server, or starts the timeout. */
  lemma LookUsesServer(q: Query, servers: Servers, now: int, emitOk: bool)
    requires q.Pending? && TimedOut(Some(q), now)
    ensures var q' := LookedAt(q, servers, now, emitOk);
      Rank(Some(q'), servers) < Rank(Some(q), servers) && TimedOut(Some(q'), now + RETRANSMIT_TIMEOUT + 1)
  {
  }

  lemma {:induction false} PassUsesServers(queries: seq<Option<Query>>, servers: Servers, now: int, emitOk: bool,
                                           i: nat)
    requires i <= |queries| && AllTimedOut(queries, now + RETRANSMIT_TIMEOUT + 1)
    requires forall j :: i <= j < |queries| ==> TimedOut(queries[j], now)
    ensures var queries' := DispatchFrom(queries, servers, now, emitOk, i).queries;
      && AllTimedOut(queries', now + RETRANSMIT_TIMEOUT + 1)
      && TotalRank(queries', servers) <= TotalRank(queries, servers)
      && ((exists j :: i <= j < |queries| && IsPending(queries[j])) ==>
            TotalRank(queries', servers) < TotalRank(queries, servers))
    decreases |queries| - i
  {
    hide Rank, Prepare, Sent, Ready, TotalRank;
    if i < |queries| {
      if !IsPending(queries[i]) {
        PassUsesServers(queries, servers, now, emitOk, i + 1);
      } else {
        var q := queries[i].value;
        LookUsesServer(q, servers, now, emitOk);
        var q' := LookedAt(q, servers, now, emitOk);
        EffortUpdate(queries, servers, i, Some(q'));
        if !Ready(Prepare(q, servers, now), now) {
          PassUsesServers(queries[i := Some(q')], servers, now, emitOk, i + 1);
        }
      }
    }
  }

  /** A pass at a time, and whether the device takes what it is offered. */
  datatype Pass = Pass(now: int, emitOk: bool)

  function Passes(queries: seq<Option<Query>>, servers: Servers, passes: seq<Pass>): seq<Option<Query>>
    decreases |passes|
  {
    if passes == [] then queries
    else Passes(Dispatch(queries, servers, passes[0].now, passes[0].emitOk).queries, servers, passes[1..])
  }

  /** More than a timeout apart. */
  predicate FarApart(passes: seq<Pass>) {
    forall i, j :: 0 <= i < j < |passes| ==> passes[i].now + RETRANSMIT_TIMEOUT < passes[j].now
  }

  /**
   Passes over the slots that are more than a timeout apart, as many as there are servers left in all the
   queries together: whatever the device does, and although each pass ends at the first query that is ready,
   nothing is pending after them.
   */
  lemma {:induction false} UnansweredFail(queries: seq<Option<Query>>, servers: Servers, passes: seq<Pass>)
    requires FarApart(passes) && (passes != [] ==> AllTimedOut(queries, passes[0].now))
    requires |passes| >= TotalRank(queries, servers)
    ensures forall i :: 0 <= i < |Passes(queries, servers, passes)| ==> !IsPending(Passes(queries, servers, passes)[i])
    decreases |passes|
  {
    hide Rank, DispatchFrom, IsPending, TotalRank, TimedOut;
    if exists i :: 0 <= i < |queries| && IsPending(queries[i]) {
      var i :| 0 <= i < |queries| && IsPending(queries[i]);
      EffortZero(queries, servers, i);
      var p := passes[0];
      LaterTimedOut(queries, p.now, p.now + RETRANSMIT_TIMEOUT + 1);
      PassUsesServers(queries, servers, p.now, p.emitOk, 0);
      var next := Dispatch(queries, servers, p.now, p.emitOk).queries;
      if |passes| > 1 {
        LaterTimedOut(next, p.now + RETRANSMIT_TIMEOUT + 1, passes[1].now);
      }
      UnansweredFail(next, servers, passes[1..]);
    } else {
      NonePending(queries, servers, passes);
    }
  }

  lemma LaterTimedOut(queries: seq<Option<Query>>, now: int, later: int)
    requires AllTimedOut(queries, now) && now <= later
    ensures AllTimedOut(queries, later)
  {
  }

  lemma {:induction false} NonePendingFrom(queries: seq<Option<Query>>, servers: Servers, now: int, emitOk: bool,
                                           i: nat)
    requires i <= |queries| && forall j :: 0 <= j < |queries| ==> !IsPending(queries[j])
    ensures DispatchFrom(queries, servers, now, emitOk, i) == Dispatched(queries, None)
    decreases |queries| - i
  {
    if i < |queries| {
      assert !IsPending(queries[i]);
      NonePendingFrom(queries, servers, now, emitOk, i + 1);
    }
  }

  lemma {:induction false} NonePending(queries: seq<Option<Query>>, servers: Servers, passes: seq<Pass>)
    requires forall j :: 0 <= j < |queries| ==> !IsPending(queries[j])
    ensures Passes(queries, servers, passes) == queries
    decreases |passes|
  {
    if passes != [] {
      NonePendingFrom(queries, servers, passes[0].now, passes[0].emitOk, 0);
      NonePending(queries, servers, passes[1..]);
    }
  }

  // ---- poll_at ----

  /** The earliest retransmission of a pending query from slot `i` on; None is `PollAt::Ingress`. */
  function PollAt(queries: seq<Option<Query>>): (r: Option<int>)
    ensures forall now: int :: r.Some? && r.value <= now <==> Due(queries, now)
  {
    if queries == [] then None
    else
      var rest := PollAt(queries[1..]);
      DueSplit(queries);
      if !IsPending(queries[0]) then rest
      else if rest.None? || queries[0].value.retransmitAt < rest.value then Some(queries[0].value.retransmitAt)
      else rest
  }

  ghost predicate Due(queries: seq<Option<Query>>, now: int) {
    exists i :: 0 <= i < |queries| && IsPending(queries[i]) && queries[i].value.retransmitAt <= now
  }

  lemma DueSplit(queries: seq<Option<Query>>)
    requires queries != []
    ensures forall now: int :: Due(queries, now) <==>
      (IsPending(queries[0]) && queries[0].value.retransmitAt <= now) || Due(queries[1..], now)
  {
    forall now: int
      ensures Due(queries, now) <==>
        (IsPending(queries[0]) && queries[0].value.retransmitAt <= now) || Due(queries[1..], now)
    {
      if Due(queries, now) {
        var i :| 0 <= i < |queries| && IsPending(queries[i]) && queries[i].value.retransmitAt <= now;
        assert i > 0 ==> queries[1..][i - 1] == queries[i];
      }
      if Due(queries[1..], now) {
        var i :| 0 <= i < |queries[1..]| && IsPending(queries[1..][i]) && queries[1..][i].value.retransmitAt <= now;
        assert queries[i + 1] == queries[1..][i];
      }
    }
  }

  /** What `poll_at` does not look at: a timeout not started or passed, or a server that is not there. */
  predicate Overlooked(slot: Option<Query>, servers: Servers, now: int) {
    IsPending(slot) &&
      var q := slot.value;
      || q.timeoutAt.None? || q.timeoutAt.value < now
      || q.serverIdx >= |ServersOf(q, servers)| || ServersOf(q, servers)[q.serverIdx] == 0
  }

  predicate Wants(slot: Option<Query>, servers: Servers, now: int) {
    IsPending(slot) && (slot.value.retransmitAt <= now || Overlooked(slot, servers, now))
  }

  /** `dispatch` sends something or changes a query. */
  predicate Acts(queries: seq<Option<Query>>, servers: Servers, now: int) {
    Dispatch(queries, servers, now, true) != Dispatched(queries, None)
  }

  lemma PreparedWants(q: Query, servers: Servers, now: int)
    requires q.Pending?
    ensures Prepare(q, servers, now) != q <==> Overlooked(Some(q), servers, now)
  {
  }

  lemma {:induction false} PassKeepsEarlier(queries: seq<Option<Query>>, servers: Servers, now: int, emitOk: bool,
                                            i: nat, k: nat)
    requires k < i <= |queries|
    ensures DispatchFrom(queries, servers, now, emitOk, i).queries[k] == queries[k]
    decreases |queries| - i
  {
    hide Prepare, Sent, Ready;
    if i < |queries| {
      if !IsPending(queries[i]) {
        PassKeepsEarlier(queries, servers, now, emitOk, i + 1, k);
      } else {
        var q := Prepare(queries[i].value, servers, now);
        if !Ready(q, now) {
          PassKeepsEarlier(queries[i := Some(q)], servers, now, emitOk, i + 1, k);
        }
      }
    }
  }

  lemma {:induction false} ActsFrom(queries: seq<Option<Query>>, servers: Servers, now: int, i: nat)
    requires i <= |queries|
    ensures DispatchFrom(queries, servers, now, true, i) != Dispatched(queries, None)
      <==> exists j :: i <= j < |queries| && Wants(queries[j], servers, now)
    decreases |queries| - i
  {
    hide Prepare, Sent, Overlooked;
    if i < |queries| {
      if !IsPending(queries[i]) {
        ActsFrom(queries, servers, now, i + 1);
      } else {
        var q := queries[i].value;
        var q' := Prepare(q, servers, now);
        PreparedWants(q, servers, now);
        if Ready(q', now) {
          assert Wants(queries[i], servers, now);
        } else {
          PassKeepsEarlier(queries[i := Some(q')], servers, now, true, i + 1, i);
          if q' == q {
            assert queries[i := Some(q)] == queries;
            ActsFrom(queries, servers, now, i + 1);
          } else {
            assert Wants(queries[i], servers, now);
          }
        }
      }
    }
  }

  /** When `dispatch` acts, in any state: `poll_at` is due, or a timeout or server needs seeing to. */
  lemma ActsExactly(queries: seq<Option<Query>>, servers: Servers, now: int)
    ensures Acts(queries, servers, now) <==>
      Due(queries, now) || exists i :: 0 <= i < |queries| && Overlooked(queries[i], servers, now)
  {
    hide DispatchFrom, Overlooked;
    ActsFrom(queries, servers, now, 0);
    if i :| 0 <= i < |queries| && Overlooked(queries[i], servers, now) {
      OverlookedIsPending(queries[i], servers, now);
      assert Wants(queries[i], servers, now);
    }
    if i :| 0 <= i < |queries| && IsPending(queries[i]) && queries[i].value.retransmitAt <= now {
      assert Wants(queries[i], servers, now);
    }
  }

  lemma OverlookedIsPending(slot: Option<Query>, servers: Servers, now: int)
    requires Overlooked(slot, servers, now)
    ensures IsPending(slot)
  {
  }

  // ---- over every run ----

  /** A query that was never looked at is due; one that was has a server. */
  predicate Settled(slot: Option<Query>, servers: Servers) {
    IsPending(slot) ==>
      var q := slot.value;
      if q.timeoutAt.None? then q.retransmitAt == 0
      else q.serverIdx < |ServersOf(q, servers)| && ServersOf(q, servers)[q.serverIdx] != 0
  }

  predicate AllSettled(queries: seq<Option<Query>>, servers: Servers) {
    forall i :: 0 <= i < |queries| ==> Settled(queries[i], servers)
  }

  lemma {:induction false} PassSettles(queries: seq<Option<Query>>, servers: Servers, now: int, emitOk: bool, i: nat)
    requires i <= |queries| && AllSettled(queries, servers)
    ensures AllSettled(DispatchFrom(queries, servers, now, emitOk, i).queries, servers)
    decreases |queries| - i
  {
    if i < |queries| {
      if !IsPending(queries[i]) {
        PassSettles(queries, servers, now, emitOk, i + 1);
      } else {
        var q := Prepare(queries[i].value, servers, now);
        assert Settled(Some(q), servers);
        hide Prepare, Settled;
        if !Ready(q, now) {
          PassSettles(queries[i := Some(q)], servers, now, emitOk, i + 1);
        } else {
          SentSettles(q, servers, now);
        }
      }
    }
  }

  lemma SentSettles(q: Query, servers: Servers, now: int)
    requires q.Pending? && q.timeoutAt.Some? && Settled(Some(q), servers)
    ensures Settled(Some(Sent(q, now)), servers)
  {
  }

  lemma StepSettles(r: Run, servers: Servers, e: Event)
    requires |r.efforts| == |r.queries| && AllSettled(r.queries, servers) && r.clock >= 0
    ensures AllSettled(Step(r, servers, e).queries, servers) && Step(r, servers, e).clock >= 0
  {
    hide DispatchFrom, EffortsFrom;
    if e.Poll? {
      PassSettles(r.queries, servers, e.now, e.emitOk, 0);
    }
  }

  lemma {:induction false} AfterSettles(r: Run, servers: Servers, es: seq<Event>)
    requires |r.efforts| == |r.queries| && AllSettled(r.queries, servers) && r.clock >= 0
    ensures AllSettled(After(r, servers, es).queries, servers) && After(r, servers, es).clock >= 0
    decreases |es|
  {
    hide Step, AllSettled;
    if es != [] {
      StepSettles(r, servers, es[0]);
      AfterSettles(Step(r, servers, es[0]), servers, es[1..]);
    }
  }

  /** A timeout has passed, and the next retransmission is still to come. */
  predicate WaitsTooLong(slot: Option<Query>, now: int) {
    IsPending(slot) && slot.value.timeoutAt.Some? && slot.value.timeoutAt.value < now
  }

  /**
   Over every run with a fixed list of servers: `poll_at` is due exactly if `dispatch` acts, if and only if
   it is due anyway or no timeout of a pending query has passed.
   */
  lemma PollIsExactIff(servers: Servers, es: seq<Event>, now: int)
    ensures var r := After(Run([], [], 0), servers, es);
      now >= r.clock ==>
        ((Due(r.queries, now) <==> Acts(r.queries, servers, now)) <==>
         (Due(r.queries, now) || forall i :: 0 <= i < |r.queries| ==> !WaitsTooLong(r.queries[i], now)))
  {
    hide After, Acts;
    AfterSettles(Run([], [], 0), servers, es);
    var r := After(Run([], [], 0), servers, es);
    ActsExactly(r.queries, servers, now);
    if now >= r.clock && !Due(r.queries, now) {
      forall i | 0 <= i < |r.queries|
        ensures Overlooked(r.queries[i], servers, now) <==> WaitsTooLong(r.queries[i], now)
      {
        assert Settled(r.queries[i], servers);
      }
    }
  }

  /** The query to server 1 after `n` transmissions at the times the back-off gives. */
  function Tried(n: nat): Query {
    Pending(Some(10 * SECOND), Waited(n) * SECOND, MinOf(MAX_RETRANSMIT_DELAY, (Waited(n) + 1) * SECOND), 0, false)
  }

  lemma TriedStep(r: Run, servers: Servers, n: nat)
    requires servers.unicast == [1] && n < 4 && |r.efforts| == 1 && r.clock <= Waited(n) * SECOND
    requires r.queries == [Some(if n == 0 then NEW_QUERY else Tried(n))]
    ensures var r' := Step(r, servers, Poll(Waited(n) * SECOND, true));
      r'.queries == [Some(Tried(n + 1))] && r'.clock == Waited(n) * SECOND
  {
    WaitedValues();
    var q := if n == 0 then NEW_QUERY else Tried(n);
    assert Sent(Prepare(q, servers, Waited(n) * SECOND), Waited(n) * SECOND) == Tried(n + 1);
  }

  /** One server that does not answer: its timeout passes after 10 s, and `poll_at` names 15 s. */
  lemma TimeoutOverlooked(servers: Servers, now: int)
    requires servers.unicast == [1] && 10 * SECOND < now < 15 * SECOND
    ensures var es := [Start(true, false), Poll(0, true), Poll(1 * SECOND, true), Poll(3 * SECOND, true),
                       Poll(7 * SECOND, true)];
      var r := After(Run([], [], 0), servers, es);
      r.clock <= now && PollAt(r.queries) == Some(15 * SECOND) && Acts(r.queries, servers, now)
  {
    hide Step, DispatchFrom;
    WaitedValues();
    var e0, e1, e2, e3, e4 := Start(true, false), Poll(0, true), Poll(1 * SECOND, true), Poll(3 * SECOND, true),
      Poll(7 * SECOND, true);
    var r0 := Run([], [], 0);
    var r1 := Step(r0, servers, e0);
    Starts(servers);
    var r2, r3 := Step(r1, servers, e1), Step(Step(r1, servers, e1), servers, e2);
    TriedStep(r1, servers, 0);
    TriedStep(r2, servers, 1);
    TriedStep(r3, servers, 2);
    var r4 := Step(r3, servers, e3);
    TriedStep(r4, servers, 3);
    var r5 := Step(r4, servers, e4);
    assert After(r0, servers, [e0, e1, e2, e3, e4]) == r5 by {
      assert After(r4, servers, [e4]) == r5;
      assert After(r3, servers, [e3, e4]) == r5 by { assert [e3, e4][1..] == [e4]; }
      assert After(r2, servers, [e2, e3, e4]) == r5 by { assert [e2, e3, e4][1..] == [e3, e4]; }
      assert After(r1, servers, [e1, e2, e3, e4]) == r5 by { assert [e1, e2, e3, e4][1..] == [e2, e3, e4]; }
      assert [e0, e1, e2, e3, e4][1..] == [e1, e2, e3, e4];
    }
    assert Overlooked(r5.queries[0], servers, now);
    ActsExactly(r5.queries, servers, now);
    assert PollAt(r5.queries[1..]) == None;
  }

  lemma Starts(servers: Servers)
    ensures var r := Step(Run([], [], 0), servers, Start(true, false));
      r.queries == [Some(NEW_QUERY)] && |r.efforts| == 1 && r.clock == 0
  {
  }
}
