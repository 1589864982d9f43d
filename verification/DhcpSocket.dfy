/** The DHCP client as an object whose methods update its fields, proved against the functions on values. */
module DhcpSocket {
  import opened Common
  import opened D = DhcpClient

  class Socket {
    var state: ClientState
    var configChanged: bool
    var transactionId: nat
    var maxLease: Option<nat>
    var retryConfig: RetryConfig
    var ignoreNaks: bool

    function View(): Dhcp
      reads this
    {
      Dhcp(state, configChanged, transactionId, maxLease, retryConfig, ignoreNaks)
    }

    constructor ()
      ensures View() == NEW_SOCKET
    {
      state := Discovering(0);
      configChanged := true;
      transactionId := 1;
      maxLease := None;
      retryConfig := DEFAULT_RETRY;
      ignoreNaks := false;
    }

    method Reset()
      modifies this`state, this`configChanged
      ensures View() == D.Reset(old(View()))
    {
      if state.Renewing? {
        configChanged := true;
      }
      state := Discovering(0);
    }

    method Process(now: int, m: Message)
      requires NoPanic(View(), m)
      modifies this`state, this`configChanged
      ensures View() == D.Process(now, old(View()), m)
    {
      if !m.forUs {
        return;
      }
      if m.transactionId != transactionId {
        return;
      }
      if m.serverIdentifier.None? {
        return;
      }
      if state.Discovering? && m.kind.Offer? {
        if !IsUnicast(m.yourIp) {
          return;
        }
        state := Requesting(now, 0, ServerInfo(m.source, m.serverIdentifier.value), m.yourIp);
      } else if state.Requesting? && m.kind.Ack? {
        var lease := ParseAck(now, m, maxLease, state.server);
        if lease.Some? {
          state := lease.value;
          configChanged := true;
        }
      } else if state.Renewing? && m.kind.Ack? {
        var lease := ParseAck(now, m, maxLease, state.config.server);
        if lease.Some? {
          var renewed := lease.value;
          state := state.(renewAt := renewed.renewAt, rebindAt := renewed.rebindAt, rebinding := false,
                          expiresAt := renewed.expiresAt);
          if state.config != renewed.config {
            state := state.(config := renewed.config);
            configChanged := true;
          }
        }
      } else if !state.Discovering? && m.kind.Nak? {
        if !ignoreNaks {
          Reset();
        }
      }
    }

    /** Renewing or rebinding: the request, and when to try again if it is sent. */
    method Renew(now: int, xid: nat, emitOk: bool) returns (out: Option<Outgoing>)
      requires state.Renewing? && BackoffFits(retryConfig)
      modifies this`state, this`configChanged, this`transactionId
      ensures Dispatched(View(), out) == D.Dispatch(now, old(View()), xid, emitOk)
    {
      if state.expiresAt <= now {
        Reset();
        return None;
      }
      if now < state.renewAt || (state.rebinding && now < state.rebindAt) {
        return None;
      }
      state := state.(rebinding := state.rebinding || now >= state.rebindAt);
      out := Some(Request(xid, state.config.address,
                          if state.rebinding then BROADCAST else state.config.server.address, None, None));
      if !emitOk {
        return;
      }
      if state.rebinding {
        state := state.(rebindAt := now + NextRebind(state, now, retryConfig));
      } else {
        state := state.(renewAt := now + NextRenew(state, now, retryConfig));
      }
      transactionId := xid;
    }

    method Dispatch(now: int, xid: nat, emitOk: bool) returns (out: Option<Outgoing>)
      requires BackoffFits(retryConfig)
      modifies this`state, this`configChanged, this`transactionId
      ensures Dispatched(View(), out) == D.Dispatch(now, old(View()), xid, emitOk)
    {
      match state {
        case Discovering(retryAt) =>
          if now < retryAt {
            return None;
          }
          out := Some(Discover(xid));
          if emitOk {
            state := Discovering(now + retryConfig.discoverTimeout);
            transactionId := xid;
          }
        case Requesting(retryAt, retry, server, requestedIp) =>
          if now < retryAt {
            return None;
          }
          if retry >= retryConfig.requestRetries {
            Reset();
            return None;
          }
          out := Some(Request(xid, 0, BROADCAST, Some(requestedIp), Some(server.identifier)));
          if emitOk {
            state := state.(retryAt := now + Backoff(retryConfig, retry));
            state := state.(retry := retry + 1);
            transactionId := xid;
          }
        case Renewing(_, _, _, _, _) =>
          out := Renew(now, xid, emitOk);
      }
    }

    method Poll() returns (event: Option<Event>)
      modifies this`configChanged
      ensures (View(), event) == D.Poll(old(View()))
    {
      if !configChanged {
        return None;
      }
      configChanged := false;
      event := Some(if state.Renewing? then Configured(state.config) else Deconfigured);
    }
  }
}
