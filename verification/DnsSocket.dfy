/** The DNS client as an object: slots updated in place, labels pushed one by one. */
module DnsSocket {
  import opened Common
  import opened D = DnsClient
  import N = DnsName

  /** The wire form of a name, built label by label. */
  method EncodeName(name: seq<N.Octet>) returns (r: N.Encoded)
    ensures r == N.Encode(name)
  {
    if name == [] {
      return N.Bad(N.InvalidName);
    }
    var trimmed := name;
    if trimmed[|trimmed| - 1] == N.DOT {
      trimmed := trimmed[..|trimmed| - 1];
    }
    var labels := N.Split(trimmed);
    var raw: seq<N.Octet> := [];
    var i := 0;
    while i < |labels|
      invariant 0 <= i <= |labels|
      invariant N.PushLabels(labels, []) == N.PushLabels(labels[i..], raw)
    {
      var s := labels[i];
      if |s| > N.MAX_LABEL {
        return N.Bad(N.InvalidName);
      }
      if s == [] {
        return N.Bad(N.InvalidName);
      }
      if |raw| + 1 + |s| > N.MAX_NAME {
        return N.Bad(N.NameTooLong);
      }
      assert labels[i..][1..] == labels[i + 1..];
      raw := raw + N.Label(s);
      i := i + 1;
    }
    if |raw| + 1 > N.MAX_NAME {
      return N.Bad(N.NameTooLong);
    }
    r := N.Raw(raw + [0]);
  }

  class Socket {
    var servers: Servers
    /** Whether the slots may grow. */
    const growable: bool
    var queries: seq<Option<Query>>

    constructor (servers: Servers, slots: nat, growable: bool)
      ensures this.servers == servers && this.growable == growable
      ensures queries == seq(slots, _ => None)
    {
      this.servers := servers;
      this.growable := growable;
      queries := seq(slots, _ => None);
    }

    method FindFreeQuery() returns (r: Option<nat>)
      modifies this`queries
      ensures var free := FirstFree(old(queries), 0);
        if free.Some? then r == free && queries == old(queries)
        else if growable then r == Some(|old(queries)|) && queries == old(queries) + [None]
        else r.None? && queries == old(queries)
    {
      var i := 0;
      while i < |queries|
        invariant 0 <= i <= |queries| && queries == old(queries) && FirstFree(queries, 0) == FirstFree(queries, i)
      {
        if queries[i].None? {
          return Some(i);
        }
        i := i + 1;
      }
      if !growable {
        return None;
      }
      queries := queries + [None];
      r := Some(|queries| - 1);
    }

    /** `start_query_raw`; None is `NoFreeSlot`. */
    method StartQuery(mdns: bool) returns (r: Option<nat>)
      modifies this`queries
      ensures var s := Started(old(queries), growable, mdns);
        if s.None? then r.None? && queries == old(queries)
        else queries == s.value.0 && r == Some(s.value.1)
    {
      r := FindFreeQuery();
      if r.None? {
        return;
      }
      queries := queries[r.value := Some(NEW_QUERY.(mdns := mdns))];
    }

    /** One pass over the slots; it ends at the first query offered to the device. */
    method Dispatch(now: int, emitOk: bool) returns (sent: Option<Sending>)
      modifies this`queries
      ensures Dispatched(queries, sent) == D.Dispatch(old(queries), servers, now, emitOk)
    {
      var i := 0;
      while i < |queries|
        invariant 0 <= i <= |queries|
        invariant D.Dispatch(old(queries), servers, now, emitOk) == DispatchFrom(queries, servers, now, emitOk, i)
      {
        if queries[i].Some? && queries[i].value.Pending? {
          var q := queries[i].value;
          var timeout := if q.timeoutAt.Some? then q.timeoutAt.value else now + RETRANSMIT_TIMEOUT;
          q := q.(timeoutAt := Some(timeout));
          if timeout < now {
            q := q.(timeoutAt := Some(now + RETRANSMIT_TIMEOUT));
            q := q.(retransmitAt := 0);
            q := q.(delay := RETRANSMIT_DELAY);
            q := q.(serverIdx := q.serverIdx + 1);
          }
          var list := if q.mdns then servers.multicast else servers.unicast;
          if q.serverIdx >= |list| || list[q.serverIdx] == 0 {
            q := Failure;
          }
          assert q == Prepare(queries[i].value, servers, now);
          if q.Pending? && q.retransmitAt <= now {
            if emitOk {
              sent := Some(Sending(i, list[q.serverIdx]));
              q := q.(retransmitAt := now + q.delay, delay := MinOf(MAX_RETRANSMIT_DELAY, q.delay * 2));
            } else {
              sent := None;
            }
            queries := queries[i := Some(q)];
            return;
          }
          queries := queries[i := Some(q)];
        }
        i := i + 1;
      }
      sent := None;
    }
  }
}
