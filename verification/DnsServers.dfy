/** The servers of a DNS query are asked in turn: none is left out, and each has its ten seconds. */
module DnsServers {
  import opened Common
  import opened DnsClient

  /** When a query came to each of its servers so far, the present one last; empty before the first pass. */
  type Visits = seq<int>

  function VisitAfter(q: Query, v: Visits, now: int): Visits
    requires q.Pending?
  {
    if q.timeoutAt.None? then [now]
    else if q.timeoutAt.value < now then v + [now]
    else v
  }

  /** Each server had more than ten seconds before the next. */
  predicate InTurn(v: Visits) {
    forall i :: 0 < i < |v| ==> v[i - 1] + 10_000_000 < v[i]
  }

  predicate VisitsOk(slot: Option<Query>, v: Visits) {
    slot.Some? && slot.value.Pending? ==>
      var q := slot.value;
      if q.timeoutAt.None? then q.serverIdx == 0 && v == []
      else |v| == q.serverIdx + 1 && InTurn(v) && q.timeoutAt.value == v[|v| - 1] + 10_000_000
  }

  lemma PreparedVisits(q: Query, v: Visits, servers: Servers, now: int)
    requires q.Pending? && VisitsOk(Some(q), v)
    ensures VisitsOk(Some(Prepare(q, servers, now)), VisitAfter(q, v, now))
    ensures Prepare(q, servers, now).Pending? ==>
      VisitsOk(Some(Sent(Prepare(q, servers, now), now)), VisitAfter(q, v, now))
    ensures Prepare(q, servers, now).Pending? ==>
      VisitAfter(q, v, now) != [] && InTurn(VisitAfter(q, v, now)) && Prepare(q, servers, now).mdns == q.mdns
  {
  }

  /** The visits after the same pass. */
  function VisitsFrom(queries: seq<Option<Query>>, vs: seq<Visits>, servers: Servers, now: int, i: nat)
    : (r: seq<Visits>)
    requires i <= |queries| == |vs|
    ensures |r| == |vs|
    decreases |queries| - i
  {
    if i == |queries| then vs
    else if queries[i].None? || !queries[i].value.Pending? then VisitsFrom(queries, vs, servers, now, i + 1)
    else
      var q := queries[i].value;
      var vs' := vs[i := VisitAfter(q, vs[i], now)];
      if Ready(Prepare(q, servers, now), now) then vs'
      else VisitsFrom(queries[i := Some(Prepare(q, servers, now))], vs', servers, now, i + 1)
  }

  predicate AllVisits(queries: seq<Option<Query>>, vs: seq<Visits>) {
    |vs| == |queries| && forall i :: 0 <= i < |queries| ==> VisitsOk(queries[i], vs[i])
  }

  lemma OneVisit(queries: seq<Option<Query>>, vs: seq<Visits>, i: nat, q: Query, v: Visits)
    requires AllVisits(queries, vs) && i < |queries| && VisitsOk(Some(q), v)
    ensures AllVisits(queries[i := Some(q)], vs[i := v])
  {
    hide VisitsOk;
    var queries', vs' := queries[i := Some(q)], vs[i := v];
    forall j | 0 <= j < |queries'|
      ensures VisitsOk(queries'[j], vs'[j])
    {
      assert VisitsOk(queries[j], vs[j]);
    }
  }

  /** The server that the query of slot `k` of this list is sent to, if it has been to `v`. */
  predicate ToPresent(d: Dispatched, queries: seq<Option<Query>>, vs: seq<Visits>, servers: Servers) {
    d.sent.Some? ==>
      var k := d.sent.value.slot;
      && k < |queries| == |vs| && queries[k].Some? && queries[k].value.Pending? && vs[k] != [] && InTurn(vs[k])
      && |vs[k]| <= |ServersOf(queries[k].value, servers)|
      && d.sent.value.to == ServersOf(queries[k].value, servers)[|vs[k]| - 1]
  }

  lemma {:induction false} PassVisits(queries: seq<Option<Query>>, vs: seq<Visits>, servers: Servers, now: int,
                                      emitOk: bool, i: nat)
    requires i <= |queries| && AllVisits(queries, vs)
    ensures var d := DispatchFrom(queries, servers, now, emitOk, i);
      var vs' := VisitsFrom(queries, vs, servers, now, i);
      && AllVisits(d.queries, vs') && ToPresent(d, queries, vs', servers)
      && (d.sent.Some? ==> i <= d.sent.value.slot)
    decreases |queries| - i
  {
    hide VisitsOk, Prepare, Sent, VisitAfter, InTurn;
    if i < |queries| {
      if queries[i].None? || !queries[i].value.Pending? {
        PassVisits(queries, vs, servers, now, emitOk, i + 1);
      } else {
        var q, v := queries[i].value, vs[i];
        assert VisitsOk(queries[i], v);
        PreparedVisits(q, v, servers, now);
        var p, v' := Prepare(q, servers, now), VisitAfter(q, v, now);
        OneVisit(queries, vs, i, p, v');
        if Ready(p, now) {
          OneVisit(queries, vs, i, Sent(p, now), v');
          PresentIs(q, v, servers, now);
        } else {
          PassVisits(queries[i := Some(p)], vs[i := v'], servers, now, emitOk, i + 1);
        }
      }
    }
  }

  lemma PresentIs(q: Query, v: Visits, servers: Servers, now: int)
    requires q.Pending? && VisitsOk(Some(q), v) && Prepare(q, servers, now).Pending?
    ensures var p := Prepare(q, servers, now);
      && p.serverIdx == |VisitAfter(q, v, now)| - 1 < |ServersOf(q, servers)|
      && ServersOf(p, servers) == ServersOf(q, servers)
  {
  }

  // ---- every run ----

  function VisitsStep(r: Run, vs: seq<Visits>, servers: Servers, e: Event): (vs': seq<Visits>)
    requires |r.efforts| == |r.queries| == |vs|
    ensures |vs'| == |Step(r, servers, e).queries|
  {
    match e
    case Poll(now, emitOk) => if now < r.clock then vs else VisitsFrom(r.queries, vs, servers, now, 0)
    case Start(growable, mdns) =>
      var s := Started(r.queries, growable, mdns);
      if s.None? then vs
      else if s.value.1 < |vs| then vs[s.value.1 := []]
      else vs + [[]]
    case _ => vs
  }

  function VisitsIn(r: Run, vs: seq<Visits>, servers: Servers, es: seq<Event>): seq<Visits>
    requires |r.efforts| == |r.queries| == |vs|
    decreases |es|
  {
    if es == [] then vs
    else VisitsIn(Step(r, servers, es[0]), VisitsStep(r, vs, servers, es[0]), servers, es[1..])
  }

  lemma StepVisits(r: Run, vs: seq<Visits>, servers: Servers, e: Event)
    requires |r.efforts| == |r.queries| && AllVisits(r.queries, vs)
    ensures AllVisits(Step(r, servers, e).queries, VisitsStep(r, vs, servers, e))
  {
    hide DispatchFrom, VisitsFrom;
    var r', vs' := Step(r, servers, e), VisitsStep(r, vs, servers, e);
    match e
    case Poll(now, emitOk) => PassVisits(r.queries, vs, servers, now, emitOk, 0);
    case _ =>
      forall i | 0 <= i < |r'.queries|
        ensures VisitsOk(r'.queries[i], vs'[i])
      {
        assert i < |r.queries| ==> VisitsOk(r.queries[i], vs[i]);
      }
  }

  lemma {:induction false} RunVisits(r: Run, vs: seq<Visits>, servers: Servers, es: seq<Event>)
    requires |r.efforts| == |r.queries| && AllVisits(r.queries, vs)
    ensures AllVisits(After(r, servers, es).queries, VisitsIn(r, vs, servers, es))
    decreases |es|
  {
    hide Step, VisitsStep, VisitsOk;
    if es != [] {
      StepVisits(r, vs, servers, es[0]);
      RunVisits(Step(r, servers, es[0]), VisitsStep(r, vs, servers, es[0]), servers, es[1..]);
    }
  }

  /**
   Over every run: a query is sent to its first server until more than ten seconds have passed since the first pass that
   saw it, then to the second, and so on; whatever it is sent to, all servers before that one in the list have had their
   turn, each for more than ten seconds.
   */
  lemma ServersInTurn(servers: Servers, es: seq<Event>, now: int, emitOk: bool)
    ensures var queries, vs := After(Run([], [], 0), servers, es).queries, VisitsIn(Run([], [], 0), [], servers, es);
      && AllVisits(queries, vs)
      && ToPresent(Dispatch(queries, servers, now, emitOk), queries, VisitsFrom(queries, vs, servers, now, 0), servers)
  {
    hide After, VisitsIn, DispatchFrom, VisitsFrom;
    RunVisits(Run([], [], 0), [], servers, es);
    PassVisits(After(Run([], [], 0), servers, es).queries, VisitsIn(Run([], [], 0), [], servers, es), servers, now,
               emitOk, 0);
  }
}
