/**
 The DHCP client as a value: discovering, requesting and renewing a lease after section 4.4.5 of RFC 2131,
 and telling the application about it. Times are in microseconds.
 */
module DhcpClient {
  import opened Common

  const SECOND: nat := 1_000_000
  const DEFAULT_LEASE: nat := 120 * SECOND
  const U64: nat := 0x1_0000_0000_0000_0000

  type Ipv4 = n: nat | n < 0x1_0000_0000

  predicate IsUnicast(a: Ipv4) {
    a != 0 && a != 0xffff_ffff && a / 0x1000_0000 != 14
  }

  function Doubled(x: nat, times: nat): nat {
    if times == 0 then x else 2 * Doubled(x, times - 1)
  }

  /** The mask with `ones` leading ones. */
  function Mask(ones: nat): int
    requires ones <= 32
  {
    0x1_0000_0000 - Doubled(1, 32 - ones)
  }

  /** The prefix length a mask stands for, if it is one. */
  function PrefixLen(mask: Ipv4, from: nat): (r: Option<nat>)
    requires from <= 32
    ensures r.Some? ==> from <= r.value <= 32 && Mask(r.value) == mask
    decreases 32 - from
  {
    if Mask(from) == mask then Some(from)
    else if from == 32 then None
    else PrefixLen(mask, from + 1)
  }

  datatype ServerInfo = ServerInfo(address: Ipv4, identifier: Ipv4)

  datatype Config = Config(
    server: ServerInfo,
    address: Ipv4,
    prefixLen: nat,
    router: Option<Ipv4>,
    dnsServers: seq<Ipv4>)

  datatype ClientState =
    | Discovering(retryAt: int)
    | Requesting(retryAt: int, retry: nat, server: ServerInfo, requestedIp: Ipv4)
    | Renewing(config: Config, renewAt: int, rebindAt: int, rebinding: bool, expiresAt: int)

  datatype RetryConfig = RetryConfig(
    discoverTimeout: nat,
    initialRequestTimeout: nat,
    requestRetries: nat,
    minRenewTimeout: nat,
    maxRenewTimeout: nat)

  const DEFAULT_RETRY: RetryConfig := RetryConfig(10 * SECOND, 5 * SECOND, 5, 60 * SECOND, U64 - 1)

  datatype Dhcp = Dhcp(
    state: ClientState,
    configChanged: bool,
    transactionId: nat,
    maxLease: Option<nat>,
    retryConfig: RetryConfig,
    ignoreNaks: bool)

  datatype Kind = Offer | Ack | Nak | OtherKind

  /** A parsed message. The durations are in seconds. */
  datatype Message = Message(
    source: Ipv4,
    forUs: bool,
    transactionId: nat,
    kind: Kind,
    yourIp: Ipv4,
    serverIdentifier: Option<Ipv4>,
    subnetMask: Option<Ipv4>,
    router: Option<Ipv4>,
    dnsServers: seq<Ipv4>,
    lease: Option<nat>,
    renew: Option<nat>,
    rebind: Option<nat>)

  const NEW_SOCKET: Dhcp := Dhcp(Discovering(0), true, 1, None, DEFAULT_RETRY, false)

  function Reset(s: Dhcp): Dhcp {
    s.(configChanged := s.configChanged || s.state.Renewing?, state := Discovering(0))
  }

  // ---- an acknowledgement ----

  function LeaseOf(m: Message, maxLease: Option<nat>): nat {
    var lease := if m.lease.Some? then m.lease.value * SECOND else DEFAULT_LEASE;
    if maxLease.Some? then MinOf(lease, maxLease.value) else lease
  }

  function Unicasts(servers: seq<Ipv4>): (r: seq<Ipv4>)
    ensures forall a :: a in r <==> a in servers && IsUnicast(a)
  {
    if servers == [] then []
    else (if IsUnicast(servers[0]) then [servers[0]] else []) + Unicasts(servers[1..])
  }

  /** If only T1 is given it must lie within the lease, or the subtraction of durations panics. */
  predicate TimersFit(m: Message, maxLease: Option<nat>) {
    m.renew.Some? && m.rebind.None? ==> m.renew.value * SECOND <= LeaseOf(m, maxLease)
  }

  /** T1 and T2. */
  function RenewRebind(m: Message, maxLease: Option<nat>): (nat, nat)
    requires TimersFit(m, maxLease)
  {
    var lease := LeaseOf(m, maxLease);
    if m.renew.Some? && m.rebind.Some? then (m.renew.value * SECOND, m.rebind.value * SECOND)
    else if m.renew.None? && m.rebind.None? then (lease / 2, lease * 7 / 8)
    else if m.renew.Some? then
      var t1 := m.renew.value * SECOND;
      (t1, t1 + (lease - t1) * 3 / 4)
    else
      var t2 := m.rebind.value * SECOND;
      (MinOf(lease / 2, t2), t2)
  }

  /** The message names a mask that is one, and an address we can have. */
  predicate Usable(m: Message) {
    m.subnetMask.Some? && PrefixLen(m.subnetMask.value, 0).Some? && IsUnicast(m.yourIp)
  }

  /** The new lease, or None if the message is unusable. */
  function ParseAck(now: int, m: Message, maxLease: Option<nat>, server: ServerInfo): (r: Option<ClientState>)
    requires Usable(m) ==> TimersFit(m, maxLease)
    ensures r.Some? <==> Usable(m)
    ensures r.Some? ==> r.value.Renewing? && !r.value.rebinding && r.value.expiresAt == now + LeaseOf(m, maxLease)
    ensures r.Some? ==> r.value.config.server == server && r.value.config.address == m.yourIp
    ensures r.Some? ==> r.value.config.prefixLen <= 32 && m.subnetMask == Some(Mask(r.value.config.prefixLen))
  {
    if m.subnetMask.None? then None
    else
      var prefix := PrefixLen(m.subnetMask.value, 0);
      if prefix.None? || !IsUnicast(m.yourIp) then None
      else
        var (t1, t2) := RenewRebind(m, maxLease);
        Some(Renewing(Config(server, m.yourIp, prefix.value, m.router, Unicasts(m.dnsServers)),
                      now + t1, now + t2, false, now + LeaseOf(m, maxLease)))
  }

  // ---- process ----

  /** The message is for us and answers what we sent last. */
  predicate Answers(s: Dhcp, m: Message) {
    m.forUs && m.transactionId == s.transactionId && m.serverIdentifier.Some?
  }

  /** A usable acknowledgement of what we sent is looked at closely enough to panic. */
  predicate NoPanic(s: Dhcp, m: Message) {
    Answers(s, m) && m.kind.Ack? && !s.state.Discovering? && Usable(m) ==> TimersFit(m, s.maxLease)
  }

  function Process(now: int, s: Dhcp, m: Message): Dhcp
    requires NoPanic(s, m)
  {
    if !Answers(s, m) then s
    else
      match (s.state, m.kind)
      case (Discovering(_), Offer) =>
        if !IsUnicast(m.yourIp) then s
        else s.(state := Requesting(now, 0, ServerInfo(m.source, m.serverIdentifier.value), m.yourIp))
      case (Requesting(_, _, server, _), Ack) =>
        var lease := ParseAck(now, m, s.maxLease, server);
        if lease.None? then s else s.(state := lease.value, configChanged := true)
      case (Renewing(config, _, _, _, _), Ack) =>
        var lease := ParseAck(now, m, s.maxLease, config.server);
        if lease.None? then s
        else s.(state := lease.value, configChanged := s.configChanged || lease.value.config != config)
      case (Requesting(_, _, _, _), Nak) => if s.ignoreNaks then s else Reset(s)
      case (Renewing(_, _, _, _, _), Nak) => if s.ignoreNaks then s else Reset(s)
      case _ => s
  }

  // ---- dispatch ----

  datatype Outgoing =
    | Discover(transactionId: nat)
    | Request(transactionId: nat, source: Ipv4, destination: Ipv4, requestedIp: Option<Ipv4>,
              serverIdentifier: Option<Ipv4>)

  const BROADCAST: Ipv4 := 0xffff_ffff

  /** No doubling of the request timeout runs out of 64 bits. */
  predicate BackoffFits(c: RetryConfig) {
    Doubled(c.initialRequestTimeout, c.requestRetries / 2) < U64
  }

  /** Exponential back-off: the timeout doubles every two retries. */
  function Backoff(c: RetryConfig, retry: nat): nat {
    Doubled(c.initialRequestTimeout, retry / 2)
  }

  predicate DueToRenew(st: ClientState, now: int)
    requires st.Renewing?
  {
    now >= st.renewAt && !(st.rebinding && now < st.rebindAt)
  }

  /** When to try again after a renewal request. */
  function NextRenew(st: ClientState, now: int, c: RetryConfig): nat
    requires st.Renewing? && !st.rebinding && now < st.rebindAt
  {
    MinOf(MinOf(MaxOf(c.minRenewTimeout, (st.rebindAt - now) / 2), st.rebindAt - now), c.maxRenewTimeout)
  }

  function NextRebind(st: ClientState, now: int, c: RetryConfig): nat
    requires st.Renewing? && now < st.expiresAt
  {
    MinOf(MaxOf(c.minRenewTimeout, (st.expiresAt - now) / 2), c.maxRenewTimeout)
  }

  /** The new state, and the message offered to the device. */
  datatype Dispatched = Dispatched(s: Dhcp, out: Option<Outgoing>)

  /** `xid` is the random number drawn, `emitOk` whether the device took the message. */
  function Dispatch(now: int, s: Dhcp, xid: nat, emitOk: bool): Dispatched
    requires BackoffFits(s.retryConfig)
  {
    var c := s.retryConfig;
    match s.state
    case Discovering(retryAt) =>
      if now < retryAt then Dispatched(s, None)
      else Dispatched(
        if emitOk then s.(state := Discovering(now + c.discoverTimeout), transactionId := xid) else s,
        Some(Discover(xid)))
    case Requesting(retryAt, retry, server, requestedIp) =>
      if now < retryAt then Dispatched(s, None)
      else if retry >= c.requestRetries then Dispatched(Reset(s), None)
      else Dispatched(
        if emitOk then
          s.(state := Requesting(now + Backoff(c, retry), retry + 1, server, requestedIp), transactionId := xid)
        else s,
        Some(Request(xid, 0, BROADCAST, Some(requestedIp), Some(server.identifier))))
    case Renewing(config, renewAt, rebindAt, rebinding, expiresAt) =>
      if expiresAt <= now then Dispatched(Reset(s), None)
      else if !DueToRenew(s.state, now) then Dispatched(s, None)
      else
        var st := s.state.(rebinding := rebinding || now >= rebindAt);
        var out := Request(xid, config.address, if st.rebinding then BROADCAST else config.server.address, None, None);
        if !emitOk then Dispatched(s.(state := st), Some(out))
        else
          var st' := if st.rebinding then st.(rebindAt := now + NextRebind(st, now, c))
                     else st.(renewAt := now + NextRenew(st, now, c));
          Dispatched(s.(state := st', transactionId := xid), Some(out))
  }

  function PollAt(s: Dhcp): int {
    match s.state
    case Discovering(retryAt) => retryAt
    case Requesting(retryAt, _, _, _) => retryAt
    case Renewing(_, renewAt, rebindAt, rebinding, expiresAt) =>
      MinOf(if rebinding then rebindAt else MinOf(renewAt, rebindAt), expiresAt)
  }

  // ---- poll ----

  datatype Event = Deconfigured | Configured(config: Config)

  function Poll(s: Dhcp): (Dhcp, Option<Event>) {
    if !s.configChanged then (s, None)
    else (s.(configChanged := false),
          Some(if s.state.Renewing? then Configured(s.state.config) else Deconfigured))
  }

  // ---- timers ----

  /** Renewing is not scheduled after rebinding, unless the lease ends first. */
  predicate TimersOrdered(s: Dhcp) {
    s.state.Renewing? ==> s.state.renewAt <= s.state.rebindAt
  }

  predicate Acts(now: int, s: Dhcp, xid: nat, emitOk: bool)
    requires BackoffFits(s.retryConfig)
  {
    var d := Dispatch(now, s, xid, emitOk);
    d.out.Some? || d.s != s
  }

  /** A lease starts with its timers in order exactly when the server did not give T1 > T2. */
  lemma LeaseOrdered(now: int, m: Message, maxLease: Option<nat>, server: ServerInfo)
    requires Usable(m) && TimersFit(m, maxLease)
    ensures var st := ParseAck(now, m, maxLease, server).value;
      (st.renewAt <= st.rebindAt <==> (m.renew.Some? && m.rebind.Some? ==> m.renew.value <= m.rebind.value))
  {
  }

  /** With T1 and T2 left to the client they lie inside the lease, in order. */
  lemma DefaultTimers(m: Message, maxLease: Option<nat>)
    requires TimersFit(m, maxLease)
    requires m.rebind.None?
    ensures var (t1, t2) := RenewRebind(m, maxLease); t1 <= t2 <= LeaseOf(m, maxLease)
  {
  }

  /** When `poll_at` tells the truth: rebinding is not due before there is anything to do. */
  predicate PollSound(s: Dhcp) {
    s.state.Renewing? ==> MinOf(s.state.renewAt, s.state.expiresAt) <= s.state.rebindAt
  }

  lemma PollIsExact(now: int, s: Dhcp, xid: nat, emitOk: bool)
    requires BackoffFits(s.retryConfig) && PollSound(s)
    ensures PollAt(s) <= now <==> Acts(now, s, xid, emitOk)
  {
  }

  /** Otherwise there is a time when it asks to be polled and nothing happens. */
  lemma PollLoops(s: Dhcp, xid: nat, emitOk: bool)
    requires BackoffFits(s.retryConfig) && !PollSound(s)
    ensures var now := s.state.rebindAt; PollAt(s) <= now && !Acts(now, s, xid, emitOk)
  {
  }

  /** At every time, `poll_at` is due exactly if `dispatch` acts. */
  ghost predicate Exact(s: Dhcp)
    requires BackoffFits(s.retryConfig)
  {
    forall now: int, xid: nat, emitOk: bool :: PollAt(s) <= now <==> Acts(now, s, xid, emitOk)
  }

  lemma ExactIffSound(s: Dhcp)
    requires BackoffFits(s.retryConfig)
    ensures Exact(s) <==> PollSound(s)
  {
    hide Acts, PollSound;
    if PollSound(s) {
      forall now: int, xid: nat, emitOk: bool
        ensures PollAt(s) <= now <==> Acts(now, s, xid, emitOk)
      {
        PollIsExact(now, s, xid, emitOk);
      }
    } else {
      PollLoops(s, 0, false);
    }
  }

  /** A message that gives both timers, T2 before T1 and before the end of the lease. */
  predicate Awkward(m: Message, maxLease: Option<nat>) {
    && m.renew.Some? && m.rebind.Some?
    && m.rebind.value < m.renew.value && m.rebind.value * SECOND < LeaseOf(m, maxLease)
  }

  /** The message is an acknowledgement that grants a lease here. */
  predicate Grants(s: Dhcp, m: Message) {
    Answers(s, m) && m.kind.Ack? && !s.state.Discovering? && Usable(m) && TimersFit(m, s.maxLease)
  }

  /** One acknowledgement: the lease it grants can be polled exactly if it is not awkward. */
  lemma GrantedIsSound(now: int, s: Dhcp, m: Message)
    requires BackoffFits(s.retryConfig) && Grants(s, m)
    ensures BackoffFits(Process(now, s, m).retryConfig)
    ensures Exact(Process(now, s, m)) <==> !Awkward(m, s.maxLease)
  {
    hide PrefixLen, Unicasts, Exact;
    ExactIffSound(Process(now, s, m));
  }

  // ---- the schedule of requests ----

  predicate PositiveTimeouts(c: RetryConfig) {
    c.discoverTimeout > 0 && c.initialRequestTimeout > 0 && c.minRenewTimeout > 0 && c.maxRenewTimeout > 0
  }

  lemma {:induction false} DoubledPositive(x: nat, times: nat)
    ensures x <= Doubled(x, times)
  {
    if times > 0 {
      DoubledPositive(x, times - 1);
    }
  }

  lemma {:induction false} DoubledMonotone(x: nat, a: nat, b: nat)
    requires a <= b
    ensures Doubled(x, a) <= Doubled(x, b)
    decreases b
  {
    if a < b {
      DoubledMonotone(x, a, b - 1);
    }
  }

  /** The back-off that is computed always fits 64 bits. */
  lemma BackoffDoesNotWrap(c: RetryConfig, retry: nat)
    requires BackoffFits(c) && retry < c.requestRetries
    ensures Backoff(c, retry) < U64
  {
    DoubledMonotone(c.initialRequestTimeout, retry / 2, c.requestRetries / 2);
  }

  /** A successful send is not due again at the same instant. */
  lemma SendMovesOn(now: int, s: Dhcp, xid: nat)
    requires BackoffFits(s.retryConfig) && PositiveTimeouts(s.retryConfig)
    requires Dispatch(now, s, xid, true).out.Some?
    ensures PollAt(Dispatch(now, s, xid, true).s) > now
  {
    if s.state.Requesting? {
      DoubledPositive(s.retryConfig.initialRequestTimeout, s.state.retry / 2);
    }
  }

  /** A renewal is retried no sooner than the minimum allows, or exactly at T2. */
  lemma RenewGaps(now: int, s: Dhcp, xid: nat)
    requires BackoffFits(s.retryConfig) && s.state.Renewing?
    requires Dispatch(now, s, xid, true).out.Some?
    ensures var st := Dispatch(now, s, xid, true).s.state;
      var gap := MinOf(s.retryConfig.minRenewTimeout, s.retryConfig.maxRenewTimeout);
      && st.Renewing? && st.expiresAt == s.state.expiresAt && st.config == s.state.config
      && (if st.rebinding then st.rebindAt >= now + gap
          else st.rebindAt == s.state.rebindAt && (st.renewAt >= now + gap || st.renewAt == st.rebindAt))
      && (st.rebinding <==> s.state.rebinding || now >= s.state.rebindAt)
  {
  }

  /** Polling at one instant stops after two calls: a restart and a DISCOVER. */
  lemma TwoCallsRest(now: int, s: Dhcp, xid: nat, xid': nat)
    requires BackoffFits(s.retryConfig) && PositiveTimeouts(s.retryConfig) && PollSound(s)
    ensures var s1 := Dispatch(now, s, xid, true).s;
      PollAt(Dispatch(now, s1, xid', true).s) > now
  {
    var d := Dispatch(now, s, xid, true);
    if d.out.Some? {
      SendMovesOn(now, s, xid);
      PollIsExactWhenLater(now, d.s, xid');
    } else {
      PollIsExact(now, s, xid, true);
      if d.s.state.Discovering? && Dispatch(now, d.s, xid', true).out.Some? {
        SendMovesOn(now, d.s, xid');
      }
    }
  }

  lemma PollIsExactWhenLater(now: int, s: Dhcp, xid: nat)
    requires BackoffFits(s.retryConfig) && PollAt(s) > now
    ensures Dispatch(now, s, xid, true) == Dispatched(s, None)
  {
  }

  // ---- every run ----

  datatype Happening =
    | Receive(now: int, m: Message)
    | Egress(now: int, xid: nat, emitOk: bool)
    | PollCall
    | ResetCall
    | SetRetry(c: RetryConfig)
    | SetMaxLease(lease: Option<nat>)
    | SetIgnoreNaks(ignore: bool)

  /** The socket, and the last event `poll` returned. */
  datatype Run = Run(s: Dhcp, last: Option<Event>)

  /** What cannot happen without a panic or a lost bit is skipped. */
  function Step(r: Run, e: Happening): Run
    requires BackoffFits(r.s.retryConfig)
  {
    match e
    case Receive(now, m) => if NoPanic(r.s, m) then r.(s := Process(now, r.s, m)) else r
    case Egress(now, xid, emitOk) => r.(s := Dispatch(now, r.s, xid, emitOk).s)
    case PollCall =>
      var (s, event) := Poll(r.s);
      Run(s, if event.Some? then event else r.last)
    case ResetCall => r.(s := Reset(r.s))
    case SetRetry(c) => if BackoffFits(c) then r.(s := r.s.(retryConfig := c)) else r
    case SetMaxLease(lease) => r.(s := r.s.(maxLease := lease))
    case SetIgnoreNaks(ignore) => r.(s := r.s.(ignoreNaks := ignore))
  }

  lemma StepKeepsConfig(r: Run, e: Happening)
    requires BackoffFits(r.s.retryConfig)
    ensures BackoffFits(Step(r, e).s.retryConfig)
  {
    hide BackoffFits, PrefixLen, RenewRebind, Unicasts;
  }

  function After(r: Run, es: seq<Happening>): (r': Run)
    requires BackoffFits(r.s.retryConfig)
    ensures BackoffFits(r'.s.retryConfig)
    decreases |es|
  {
    if es == [] then r
    else
      StepKeepsConfig(r, es[0]);
      After(Step(r, es[0]), es[1..])
  }

  /** What the application should believe. */
  function Current(s: Dhcp): Event {
    if s.state.Renewing? then Configured(s.state.config) else Deconfigured
  }

  /** Unless a change is waiting to be told, the last thing told is the truth. */
  predicate Told(r: Run) {
    !r.s.configChanged ==> r.last == Some(Current(r.s))
  }

  lemma StepTells(r: Run, e: Happening)
    requires BackoffFits(r.s.retryConfig) && Told(r)
    ensures Told(Step(r, e))
  {
    hide BackoffFits, PrefixLen, RenewRebind, Unicasts;
  }

  lemma {:induction false} ViewAgreesFrom(r: Run, es: seq<Happening>)
    requires BackoffFits(r.s.retryConfig) && Told(r)
    ensures Told(After(r, es))
    decreases |es|
  {
    hide Step, Told;
    if es != [] {
      StepKeepsConfig(r, es[0]);
      StepTells(r, es[0]);
      ViewAgreesFrom(Step(r, es[0]), es[1..]);
    }
  }

  lemma DefaultFits()
    ensures BackoffFits(DEFAULT_RETRY)
  {
    assert Doubled(5 * SECOND, 2) == 20 * SECOND by {
      assert Doubled(5 * SECOND, 1) == 10 * SECOND;
    }
  }

  /**
   Over every run of a new socket: whenever no change is pending, the last event `poll` returned is the
   present state of affairs, the very configuration if there is a lease and `Deconfigured` if not.
   */
  lemma ViewAgrees(es: seq<Happening>)
    ensures BackoffFits(DEFAULT_RETRY)
    ensures var r := After(Run(NEW_SOCKET, None), es);
      !r.s.configChanged ==> r.last == Some(Current(r.s))
  {
    DefaultFits();
    ViewAgreesFrom(Run(NEW_SOCKET, None), es);
  }

  /** The server never gives T1 > T2. */
  predicate Ordered(e: Happening) {
    e.Receive? && e.m.renew.Some? && e.m.rebind.Some? ==> e.m.renew.value <= e.m.rebind.value
  }

  lemma StepOrders(r: Run, e: Happening)
    requires BackoffFits(r.s.retryConfig) && TimersOrdered(r.s) && Ordered(e)
    ensures TimersOrdered(Step(r, e).s)
  {
    hide BackoffFits, PrefixLen, Unicasts;
  }

  lemma {:induction false} OrderedFrom(r: Run, es: seq<Happening>)
    requires BackoffFits(r.s.retryConfig) && TimersOrdered(r.s)
    requires forall e :: e in es ==> Ordered(e)
    ensures TimersOrdered(After(r, es).s)
    decreases |es|
  {
    hide Step, TimersOrdered, Ordered;
    if es != [] {
      StepKeepsConfig(r, es[0]);
      StepOrders(r, es[0]);
      OrderedFrom(Step(r, es[0]), es[1..]);
    }
  }

  /**
   Over every run in which no server gives T1 > T2: the timers stay in order, and so at every instant
   `poll_at` is due exactly when `dispatch` acts.
   */
  lemma ScheduleIsSound(es: seq<Happening>, now: int, xid: nat, emitOk: bool)
    requires forall e :: e in es ==> Ordered(e)
    ensures BackoffFits(DEFAULT_RETRY)
    ensures var s := After(Run(NEW_SOCKET, None), es).s;
      TimersOrdered(s) && (PollAt(s) <= now <==> Acts(now, s, xid, emitOk))
  {
    hide Ordered, Acts;
    DefaultFits();
    OrderedFrom(Run(NEW_SOCKET, None), es);
    PollIsExact(now, After(Run(NEW_SOCKET, None), es).s, xid, emitOk);
  }

  /** The step takes a lease from an awkward message. */
  predicate TakesAwkward(s: Dhcp, e: Happening) {
    e.Receive? && Grants(s, e.m) && Awkward(e.m, s.maxLease)
  }

  lemma ReceiveSound(now: int, s: Dhcp, m: Message)
    requires BackoffFits(s.retryConfig) && PollSound(s) && NoPanic(s, m)
    ensures PollSound(Process(now, s, m)) <==> !(Grants(s, m) && Awkward(m, s.maxLease))
  {
    hide BackoffFits, PrefixLen, Unicasts, Exact, TimersFit, RenewRebind, PollSound, Awkward;
    if Grants(s, m) {
      GrantedIsSound(now, s, m);
      ExactIffSound(Process(now, s, m));
    } else {
      SameOrRestarted(now, s, m);
    }
  }

  lemma SameOrRestarted(now: int, s: Dhcp, m: Message)
    requires NoPanic(s, m) && !Grants(s, m) && PollSound(s)
    ensures PollSound(Process(now, s, m))
  {
    hide PrefixLen, Unicasts, TimersFit, RenewRebind;
  }

  lemma EgressSound(now: int, s: Dhcp, xid: nat, emitOk: bool)
    requires BackoffFits(s.retryConfig) && PollSound(s)
    ensures PollSound(Dispatch(now, s, xid, emitOk).s)
  {
    hide BackoffFits;
  }

  lemma StepSound(r: Run, e: Happening)
    requires BackoffFits(r.s.retryConfig) && PollSound(r.s)
    ensures PollSound(Step(r, e).s) <==> !TakesAwkward(r.s, e)
  {
    hide BackoffFits, Process, Dispatch, Awkward, Usable, TimersFit;
    match e {
      case Receive(now, m) =>
        if NoPanic(r.s, m) {
          ReceiveSound(now, r.s, m);
        }
      case Egress(now, xid, emitOk) => EgressSound(now, r.s, xid, emitOk);
      case _ =>
    }
  }

  predicate NeverAwkward(r: Run, es: seq<Happening>)
    requires BackoffFits(r.s.retryConfig)
    decreases |es|
  {
    es != [] ==>
      && !TakesAwkward(r.s, es[0])
      && (StepKeepsConfig(r, es[0]); NeverAwkward(Step(r, es[0]), es[1..]))
  }

  /** `poll_at` is exact in every state of the run. */
  ghost predicate AlwaysExact(r: Run, es: seq<Happening>)
    requires BackoffFits(r.s.retryConfig)
    decreases |es|
  {
    && Exact(r.s)
    && (es != [] ==> (StepKeepsConfig(r, es[0]); AlwaysExact(Step(r, es[0]), es[1..])))
  }

  lemma {:induction false} ExactFrom(r: Run, es: seq<Happening>)
    requires BackoffFits(r.s.retryConfig) && PollSound(r.s)
    ensures AlwaysExact(r, es) <==> NeverAwkward(r, es)
    decreases |es|
  {
    hide Step, Exact, BackoffFits, TakesAwkward, PollSound;
    ExactIffSound(r.s);
    if es != [] {
      StepKeepsConfig(r, es[0]);
      StepSound(r, es[0]);
      var next := Step(r, es[0]);
      if PollSound(next.s) {
        ExactFrom(next, es[1..]);
      } else {
        ExactIffSound(next.s);
      }
    }
  }

  /**
   Over any run of a new socket `poll_at` is exact throughout if and only if no lease was taken from a
   message with T2 before T1 and before the end of the lease.
   */
  lemma ScheduleIsExact(es: seq<Happening>)
    ensures BackoffFits(DEFAULT_RETRY)
    ensures AlwaysExact(Run(NEW_SOCKET, None), es) <==> NeverAwkward(Run(NEW_SOCKET, None), es)
  {
    DefaultFits();
    ExactFrom(Run(NEW_SOCKET, None), es);
  }

  /** A lease ends at the first dispatch at or after its expiry, whatever the device does. */
  lemma LeaseEnds(now: int, s: Dhcp, xid: nat, emitOk: bool)
    requires BackoffFits(s.retryConfig) && s.state.Renewing?
    ensures s.state.expiresAt <= now <==> !Dispatch(now, s, xid, emitOk).s.state.Renewing?
    ensures s.state.expiresAt <= now ==> Dispatch(now, s, xid, emitOk).s.configChanged
  {
  }

  /** Nothing but an acknowledgement of our own last message moves the expiry of a lease. */
  lemma OnlyAckExtends(r: Run, e: Happening)
    requires BackoffFits(r.s.retryConfig) && r.s.state.Renewing?
    requires Step(r, e).s.state.Renewing? && Step(r, e).s.state.expiresAt != r.s.state.expiresAt
    ensures e.Receive? && e.m.kind.Ack? && e.m.transactionId == r.s.transactionId && e.m.forUs
    ensures Step(r, e).s.state.expiresAt == e.now + LeaseOf(e.m, r.s.maxLease)
  {
    hide BackoffFits, PrefixLen, Unicasts, RenewRebind;
  }
}
