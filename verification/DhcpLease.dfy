/**
 What a lease is made of, over every run of the DHCP client: the configuration it reports is what the server granted,
 and the messages it sends ask for that, of the right server, at the right times.
 */
module DhcpLease {
  import opened Common
  import opened DhcpClient

  // ---- what an acknowledgement grants ----

  /** Neither 0.0.0.0 nor 255.255.255.255 nor in 224.0.0.0/4. */
  predicate Single(a: Ipv4) {
    0 < a < 0xffff_ffff && !(0xe000_0000 <= a < 0xf000_0000)
  }

  lemma SingleIs(a: Ipv4)
    ensures Single(a) <==> IsUnicast(a)
  {
  }

  /** Leaving addresses out goes one by one and keeps the order. */
  lemma {:induction false} UnicastsInOrder(a: seq<Ipv4>, b: seq<Ipv4>)
    ensures Unicasts(a + b) == Unicasts(a) + Unicasts(b)
    ensures |a| == 1 ==> Unicasts(a) == if Single(a[0]) then a else []
    decreases |a|
  {
    hide IsUnicast, Single;
    if a == [] {
      assert a + b == b;
    } else {
      assert (a + b)[1..] == a[1..] + b && (a + b)[0] == a[0];
      UnicastsInOrder(a[1..], b);
      SingleIs(a[0]);
      assert |a| == 1 ==> a[1..] == [];
    }
  }

  /** T1 and T2 in microseconds, if the server gave both, neither, or one of them. */
  predicate Timers(m: Message, lease: nat, t1: nat, t2: nat) {
    && (m.renew.Some? ==> t1 == m.renew.value * 1_000_000)
    && (m.rebind.Some? ==> t2 == m.rebind.value * 1_000_000)
    && (m.renew.None? && m.rebind.None? ==> 2 * t1 <= lease <= 2 * t1 + 1 && 8 * t2 <= 7 * lease <= 8 * t2 + 7)
    && (m.renew.Some? && m.rebind.None? ==> t1 <= t2 && 4 * (t2 - t1) <= 3 * (lease - t1) <= 4 * (t2 - t1) + 3)
    && (m.renew.None? && m.rebind.Some? ==> t1 <= t2 && 2 * t1 <= lease && (t1 == t2 || lease <= 2 * t1 + 1))
  }

  /** The lease in microseconds: what the server gave, or two minutes, but no more than the application allows. */
  predicate Lasts(m: Message, maxLease: Option<nat>, lease: nat) {
    var given := if m.lease.Some? then m.lease.value * 1_000_000 else 120_000_000;
    lease <= given && (maxLease.Some? ==> lease <= maxLease.value) && (lease == given || maxLease == Some(lease))
  }

  // ---- the messages that led to a state ----

  /** The last OFFER and the last ACK acted on, when the ACK came, and what the lease and T2 were then. */
  datatype Trail = Trail(offer: Option<Message>, ack: Option<Message>, at: int, lease: nat, t2: nat, late: bool)

  const NO_TRAIL: Trail := Trail(None, None, 0, 0, 0, false)

  /** An offer of a single address to a client that looks for one. */
  predicate Offers(s: Dhcp, m: Message) {
    Answers(s, m) && s.state.Discovering? && m.kind.Offer? && Single(m.yourIp)
  }

  /** `late` is whether a request was due after T2. */
  function TrailAfter(s: Dhcp, e: Happening, t: Trail): Trail
    requires BackoffFits(s.retryConfig)
  {
    match e
    case Receive(now, m) =>
      if Offers(s, m) then t.(offer := Some(m))
      else if Grants(s, m) then
        Trail(t.offer, Some(m), now, LeaseOf(m, s.maxLease), RenewRebind(m, s.maxLease).1, false)
      else t
    case Egress(now, xid, emitOk) =>
      t.(late := t.late || (Dispatch(now, s, xid, emitOk).out.Some? && now >= t.at + t.t2))
    case _ => t
  }

  /** The configuration is what the ACK says, from the server that made the OFFER. */
  predicate FromServer(c: Config, offer: Message, ack: Message) {
    && c.server.address == offer.source && Some(c.server.identifier) == offer.serverIdentifier
    && c.address == ack.yourIp && Single(c.address)
    && c.prefixLen <= 32 && ack.subnetMask == Some(Mask(c.prefixLen))
    && c.router == ack.router && c.dnsServers == Unicasts(ack.dnsServers)
  }

  predicate Follows(s: Dhcp, t: Trail) {
    match s.state
    case Discovering(_) => true
    case Requesting(_, _, server, requestedIp) =>
      && t.offer.Some? && server.address == t.offer.value.source
      && Some(server.identifier) == t.offer.value.serverIdentifier
      && requestedIp == t.offer.value.yourIp && Single(requestedIp)
    case Renewing(config, _, rebindAt, rebinding, expiresAt) =>
      && t.offer.Some? && t.ack.Some? && FromServer(config, t.offer.value, t.ack.value)
      && expiresAt == t.at + t.lease && rebinding == t.late && (!rebinding ==> rebindAt == t.at + t.t2)
  }

  lemma GrantFollows(now: int, m: Message, maxLease: Option<nat>, server: ServerInfo)
    requires Usable(m) && TimersFit(m, maxLease)
    ensures var st := ParseAck(now, m, maxLease, server).value;
      && st.config.server == server && st.config.address == m.yourIp && Single(m.yourIp)
      && st.config.prefixLen <= 32 && m.subnetMask == Some(Mask(st.config.prefixLen))
      && st.config.router == m.router && st.config.dnsServers == Unicasts(m.dnsServers)
      && st.expiresAt == now + LeaseOf(m, maxLease) && st.rebindAt == now + RenewRebind(m, maxLease).1
      && !st.rebinding
  {
    hide Mask, Unicasts, RenewRebind, TimersFit;
    SingleIs(m.yourIp);
  }

  lemma ReceiveFollows(now: int, s: Dhcp, m: Message, t: Trail)
    requires BackoffFits(s.retryConfig) && NoPanic(s, m) && Follows(s, t)
    ensures Follows(Process(now, s, m), TrailAfter(s, Receive(now, m), t))
  {
    hide Mask, Unicasts, RenewRebind, TimersFit, Usable, ParseAck, IsUnicast, Single, BackoffFits;
    SingleIs(m.yourIp);
    if Grants(s, m) {
      GrantFollows(now, m, s.maxLease, if s.state.Requesting? then s.state.server else s.state.config.server);
    }
  }

  lemma EgressFollows(now: int, s: Dhcp, xid: nat, emitOk: bool, t: Trail)
    requires BackoffFits(s.retryConfig) && Follows(s, t)
    ensures Follows(Dispatch(now, s, xid, emitOk).s, TrailAfter(s, Egress(now, xid, emitOk), t))
  {
    hide Mask, Unicasts, RenewRebind, IsUnicast, Single, BackoffFits, Backoff;
  }

  lemma StepFollows(r: Run, e: Happening, t: Trail)
    requires BackoffFits(r.s.retryConfig) && Follows(r.s, t)
    ensures Follows(Step(r, e).s, TrailAfter(r.s, e, t))
  {
    hide BackoffFits, Process, Dispatch, TrailAfter, FromServer;
    match e
    case Receive(now, m) =>
      if NoPanic(r.s, m) {
        ReceiveFollows(now, r.s, m, t);
      } else {
        PanicIsNoGrant(r.s, now, m, t);
      }
    case Egress(now, xid, emitOk) => EgressFollows(now, r.s, xid, emitOk, t);
    case _ => OtherFollows(r.s, e, t);
  }

  lemma PanicIsNoGrant(s: Dhcp, now: int, m: Message, t: Trail)
    requires BackoffFits(s.retryConfig) && !NoPanic(s, m)
    ensures TrailAfter(s, Receive(now, m), t) == t
  {
    hide BackoffFits, Usable, TimersFit;
  }

  lemma OtherFollows(s: Dhcp, e: Happening, t: Trail)
    requires BackoffFits(s.retryConfig) && !e.Receive? && !e.Egress?
    ensures TrailAfter(s, e, t) == t
  {
  }

  // ---- every run ----

  function TrailIn(r: Run, es: seq<Happening>, t: Trail): Trail
    requires BackoffFits(r.s.retryConfig)
    decreases |es|
  {
    if es == [] then t
    else
      StepKeepsConfig(r, es[0]);
      TrailIn(Step(r, es[0]), es[1..], TrailAfter(r.s, es[0], t))
  }

  lemma {:induction false} RunFollows(r: Run, es: seq<Happening>, t: Trail)
    requires BackoffFits(r.s.retryConfig) && Follows(r.s, t)
    ensures Follows(After(r, es).s, TrailIn(r, es, t))
    decreases |es|
  {
    hide Step, TrailAfter, Follows, BackoffFits;
    if es != [] {
      StepKeepsConfig(r, es[0]);
      StepFollows(r, es[0], t);
      RunFollows(Step(r, es[0]), es[1..], TrailAfter(r.s, es[0], t));
    }
  }

  const NEW_RUN: Run := Run(NEW_SOCKET, None)

  /**
   Over every run of a new socket: whenever `poll` reports a configuration, its address, mask, router and DNS servers
   are those of the last ACK that granted a lease, less the servers that are not single addresses, and its server is the
   one whose OFFER was taken. It reports that once.
   */
  lemma ConfiguredIsGranted(es: seq<Happening>)
    ensures BackoffFits(DEFAULT_RETRY)
    ensures var s, t := After(NEW_RUN, es).s, TrailIn(NEW_RUN, es, NO_TRAIL);
      var (polled, event) := Poll(s);
      && (event.Some? && event.value.Configured? ==>
            t.offer.Some? && t.ack.Some? && FromServer(event.value.config, t.offer.value, t.ack.value))
      && Poll(polled).1.None? && polled.state == s.state
  {
    hide After, TrailIn, FromServer, BackoffFits;
    DefaultFits();
    RunFollows(NEW_RUN, es, NO_TRAIL);
  }

  /** What the next message must be, given the messages before. */
  predicate Asks(s: Dhcp, t: Trail, now: int, out: Outgoing) {
    match out
    case Discover(_) => s.state.Discovering?
    case Request(_, source, destination, requestedIp, serverIdentifier) =>
      if s.state.Requesting? then
        && t.offer.Some? && source == 0 && destination == 0xffff_ffff
        && requestedIp == Some(t.offer.value.yourIp) && serverIdentifier == t.offer.value.serverIdentifier
      else
        && s.state.Renewing? && t.offer.Some? && t.ack.Some? && now < t.at + t.lease
        && source == t.ack.value.yourIp && requestedIp.None? && serverIdentifier.None?
        && destination == (if t.late || now >= t.at + t.t2 then 0xffff_ffff else t.offer.value.source)
  }

  /**
   Over every run: a client without an offer sends DISCOVER; one with an offer asks everyone for the address offered,
   naming the server; one with a lease that has not ended asks, from its own address, that server before T2 and everyone
   from then on.
   */
  lemma RequestsFollow(es: seq<Happening>, now: int, xid: nat, emitOk: bool)
    ensures BackoffFits(DEFAULT_RETRY)
    ensures var s, t := After(NEW_RUN, es).s, TrailIn(NEW_RUN, es, NO_TRAIL);
      var d := Dispatch(now, s, xid, emitOk);
      && (d.out.Some? ==> Asks(s, t, now, d.out.value) && d.out.value.transactionId == xid)
      && (d.out.Some? && emitOk ==> d.s.transactionId == xid)
  {
    hide After, TrailIn, BackoffFits, Backoff, Single, Mask;
    DefaultFits();
    RunFollows(NEW_RUN, es, NO_TRAIL);
  }

  /** The terms of the lease are those of the ACK. */
  lemma LeaseTerms(now: int, m: Message, maxLease: Option<nat>, server: ServerInfo)
    requires Usable(m) && TimersFit(m, maxLease)
    ensures var st := ParseAck(now, m, maxLease, server).value;
      && Lasts(m, maxLease, LeaseOf(m, maxLease)) && st.expiresAt == now + LeaseOf(m, maxLease)
      && now <= st.renewAt && now <= st.rebindAt
      && Timers(m, LeaseOf(m, maxLease), st.renewAt - now, st.rebindAt - now)
  {
    hide PrefixLen, Unicasts, RenewRebind, LeaseOf, Timers;
    TermsAre(m, maxLease);
  }

  lemma TermsAre(m: Message, maxLease: Option<nat>)
    requires TimersFit(m, maxLease)
    ensures Lasts(m, maxLease, LeaseOf(m, maxLease))
    ensures var (t1, t2) := RenewRebind(m, maxLease); Timers(m, LeaseOf(m, maxLease), t1, t2)
  {
  }

  // ---- when it asks again ----

  function Half(n: int): int {
    n / 2
  }

  function Clamp(n: int, low: nat, high: nat): int {
    MinOf(MaxOf(low, n), high)
  }

  function Power(k: nat): nat {
    if k == 0 then 1 else 2 * Power(k - 1)
  }

  lemma {:induction false} DoubledIs(x: nat, k: nat)
    ensures Doubled(x, k) == x * Power(k)
    decreases k
  {
    if k > 0 {
      DoubledIs(x, k - 1);
      assert 2 * (x * Power(k - 1)) == x * (2 * Power(k - 1));
    }
  }

  /** When the next message is due after one sent at `now`. */
  predicate NextIs(now: int, s: Dhcp, next: int) {
    var c := s.retryConfig;
    match s.state
    case Discovering(_) => next == now + c.discoverTimeout
    case Requesting(_, retry, _, _) =>
      retry < c.requestRetries && next == now + c.initialRequestTimeout * Power(retry / 2)
    case Renewing(_, _, rebindAt, rebinding, expiresAt) =>
      now < expiresAt &&
        if rebinding || now >= rebindAt then
          next == MinOf(now + Clamp(Half(expiresAt - now), c.minRenewTimeout, c.maxRenewTimeout), expiresAt)
        else
          next == MinOf(MinOf(now + Clamp(Half(rebindAt - now), c.minRenewTimeout, c.maxRenewTimeout), rebindAt),
                        expiresAt)
  }

  lemma NextRenewal(now: int, s: Dhcp, xid: nat)
    requires BackoffFits(s.retryConfig) && s.state.Renewing? && Dispatch(now, s, xid, true).out.Some?
    ensures NextIs(now, s, PollAt(Dispatch(now, s, xid, true).s))
  {
    hide BackoffFits, Power;
  }

  lemma NextRequest(now: int, s: Dhcp, xid: nat)
    requires BackoffFits(s.retryConfig) && !s.state.Renewing? && Dispatch(now, s, xid, true).out.Some?
    ensures NextIs(now, s, PollAt(Dispatch(now, s, xid, true).s))
  {
    hide BackoffFits, Doubled, Power;
    if s.state.Requesting? {
      DoubledIs(s.retryConfig.initialRequestTimeout, s.state.retry / 2);
    }
  }

  /**
   After a message has gone out the next is due: another DISCOVER after its timeout; another REQUEST after a timeout
   that doubles with every second one; another renewal after half of what is left until T2, and another rebinding after
   half of what is left of the lease, both within the limits configured, or when T2 or the end of the lease comes first.
   */
  lemma NextAfterSend(now: int, s: Dhcp, xid: nat)
    requires BackoffFits(s.retryConfig) && Dispatch(now, s, xid, true).out.Some?
    ensures NextIs(now, s, PollAt(Dispatch(now, s, xid, true).s))
  {
    hide BackoffFits, Dispatch, NextIs;
    if s.state.Renewing? {
      NextRenewal(now, s, xid);
    } else {
      NextRequest(now, s, xid);
    }
  }

  /**
   With the settings of a new socket: ten seconds after a DISCOVER; five requests, five, five, ten, ten and twenty
   seconds before the next or before starting over; renewals at least a minute apart.
   */
  lemma DefaultSchedule(now: int, s: Dhcp, xid: nat)
    requires s.retryConfig == DEFAULT_RETRY && BackoffFits(DEFAULT_RETRY) && Dispatch(now, s, xid, true).out.Some?
    ensures s.retryConfig.requestRetries == 5
    ensures var next := PollAt(Dispatch(now, s, xid, true).s);
      match s.state
      case Discovering(_) => next == now + 10_000_000
      case Requesting(_, retry, _, _) =>
        && retry < 5
        && next == now + (if retry < 2 then 5_000_000 else if retry < 4 then 10_000_000 else 20_000_000)
      case Renewing(_, _, rebindAt, rebinding, expiresAt) =>
        next >= now + 60_000_000 || next == expiresAt || (!rebinding && now < rebindAt && next == rebindAt)
  {
    hide Dispatch, PollAt, BackoffFits;
    NextAfterSend(now, s, xid);
    assert Power(0) == 1 && Power(1) == 2 && Power(2) == 4 by {
      assert Power(1) == 2 * Power(0);
    }
  }

  /** After as many requests as are configured, each counted, the client starts over. */
  lemma RequestsAreCounted(now: int, s: Dhcp, xid: nat, emitOk: bool)
    requires BackoffFits(s.retryConfig) && s.state.Requesting? && s.state.retryAt <= now
    ensures var d := Dispatch(now, s, xid, emitOk);
      if s.state.retry < s.retryConfig.requestRetries then
        d.out.Some? && d.s.state.Requesting? && d.s.state.retry == s.state.retry + (if emitOk then 1 else 0)
      else d.out.None? && d.s.state == Discovering(0)
  {
  }

  // ---- what else is heard ----

  /**
   A refusal by the server ends a request or a lease at once, unless it is to be ignored, and the application is told. A
   message that is not for us, or answers another question, does nothing.
   */
  lemma RefusalIsHeard(now: int, s: Dhcp, m: Message)
    requires NoPanic(s, m)
    ensures Answers(s, m) && m.kind.Nak? && !s.state.Discovering? && !s.ignoreNaks ==>
      var r := Process(now, s, m);
      && r.state.Discovering? && PollAt(r) == 0
      && (s.state.Renewing? ==> Poll(r).1 == Some(Deconfigured))
    ensures m.kind.Nak? && s.ignoreNaks ==> Process(now, s, m) == s
    ensures !m.forUs || m.transactionId != s.transactionId || m.serverIdentifier.None? ==> Process(now, s, m) == s
  {
    hide ParseAck;
  }

  lemma {:induction false} DoubledGrows(a: nat, b: nat)
    requires a < b
    ensures 0 < Doubled(1, a) < Doubled(1, b)
    decreases b
  {
    DoubledPositive(1, a);
    if a < b - 1 {
      DoubledGrows(a, b - 1);
    }
  }

  /** A mask stands for one prefix length. */
  lemma MaskOnce(a: nat, b: nat)
    requires a <= 32 && b <= 32 && Mask(a) == Mask(b)
    ensures a == b
  {
    hide Doubled;
    if a < b {
      DoubledGrows(32 - b, 32 - a);
    } else if b < a {
      DoubledGrows(32 - a, 32 - b);
    }
  }

  /** The message says what the configuration says. */
  predicate SaysSame(c: Config, m: Message) {
    && m.yourIp == c.address && c.prefixLen <= 32 && m.subnetMask == Some(Mask(c.prefixLen))
    && m.router == c.router && Unicasts(m.dnsServers) == c.dnsServers
  }

  /** A renewal is reported to the application exactly if it changes the configuration, or a report was due anyway. */
  lemma RenewalIsReported(now: int, s: Dhcp, m: Message)
    requires BackoffFits(s.retryConfig) && s.state.Renewing? && Grants(s, m) && s.state.config.prefixLen <= 32
    ensures var r := Process(now, s, m);
      && r.state.Renewing? && SaysSame(r.state.config, m)
      && (r.configChanged <==> s.configChanged || !SaysSame(s.state.config, m))
  {
    hide Mask, Unicasts, RenewRebind, TimersFit, Usable, ParseAck, IsUnicast, BackoffFits;
    GrantFollows(now, m, s.maxLease, s.state.config.server);
    var c := Process(now, s, m).state.config;
    if SaysSame(s.state.config, m) {
      MaskOnce(c.prefixLen, s.state.config.prefixLen);
    }
  }

  /** An offer is answered with a request at once. */
  lemma OfferIsRequested(now: int, s: Dhcp, m: Message, xid: nat, emitOk: bool)
    requires NoPanic(s, m) && BackoffFits(s.retryConfig) && s.retryConfig.requestRetries > 0 && Offers(s, m)
    ensures var r := Process(now, s, m);
      && BackoffFits(r.retryConfig) && r.state.Requesting? && PollAt(r) == now
      && Dispatch(now, r, xid, emitOk).out.Some? && Dispatch(now, r, xid, emitOk).out.value.Request?
  {
    hide BackoffFits, Backoff, IsUnicast, Single;
    SingleIs(m.yourIp);
  }

  // ---- what is reported ----

  /** Whether what the application should believe has changed since it was last told; at first nothing was told. */
  predicate NewsAfter(r: Run, e: Happening, news: bool)
    requires BackoffFits(r.s.retryConfig)
  {
    !e.PollCall? && (news || Current(Step(r, e).s) != Current(r.s))
  }

  lemma StepNews(r: Run, e: Happening, news: bool)
    requires BackoffFits(r.s.retryConfig) && r.s.configChanged == news
    ensures Step(r, e).s.configChanged == NewsAfter(r, e, news)
  {
    hide BackoffFits, PrefixLen, RenewRebind, Unicasts, Backoff;
  }

  predicate NewsIn(r: Run, es: seq<Happening>, news: bool)
    requires BackoffFits(r.s.retryConfig)
    decreases |es|
  {
    if es == [] then news
    else
      StepKeepsConfig(r, es[0]);
      NewsIn(Step(r, es[0]), es[1..], NewsAfter(r, es[0], news))
  }

  lemma {:induction false} RunNews(r: Run, es: seq<Happening>, news: bool)
    requires BackoffFits(r.s.retryConfig) && r.s.configChanged == news
    ensures After(r, es).s.configChanged == NewsIn(r, es, news)
    decreases |es|
  {
    hide Step, BackoffFits, NewsAfter;
    if es != [] {
      StepKeepsConfig(r, es[0]);
      StepNews(r, es[0], news);
      RunNews(Step(r, es[0]), es[1..], NewsAfter(r, es[0], news));
    }
  }

  /**
   Over every run: `poll` reports something exactly if the configuration has changed, or a lease been granted or lost,
   since it was last called, or if it never was.
   */
  lemma ReportsChanges(es: seq<Happening>)
    ensures BackoffFits(DEFAULT_RETRY)
    ensures Poll(After(NEW_RUN, es).s).1.Some? <==> NewsIn(NEW_RUN, es, true)
  {
    hide After, NewsIn, BackoffFits;
    DefaultFits();
    RunNews(NEW_RUN, es, true);
  }
}
