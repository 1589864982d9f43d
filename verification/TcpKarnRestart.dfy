/**
 Karn's rule after a listener was thrown back: a RST in SYN-RECEIVED returns the socket to LISTEN with its
 estimator as it was. Exactly when does the rule hold for the connections it then accepts?
 */
module TcpKarnRestart {
  import opened Common
  import opened SeqNumbers
  import opened RttEstimation
  import opened Tcp
  import opened TcpProcess
  import opened TcpDispatch
  import opened TcpPoll
  import opened TcpInvariant
  import opened TcpStream
  import opened TcpReceiver
  import opened TcpSide
  import opened TcpKarn
  import opened TcpProgress
  import Asm = AssemblerList

  /** Karn's rule for every run of the connection that gets `isn` as its initial number. */
  ghost predicate RuleFor(s: Tcb, isn: SeqNumber)
    requires Inv(s)
  {
    forall es: seq<Happening>, seg: Segment :: RuleAt(FollowAll(Beginning(s, isn), es), seg)
  }

  /** A socket that listens and can be reached. */
  predicate Reachable(s: Tcb) {
    Inv(s) && Quiet(s) && s.state.Listen? && s.listenEndpoint.port != 0
  }

  // ---- the peer ----

  /** Where the socket listens. */
  function Here(s: Tcb): Endpoint {
    Endpoint(if s.listenEndpoint.addr.Some? then s.listenEndpoint.addr.value else V4(1), s.listenEndpoint.port)
  }

  const PEER: Endpoint := Endpoint(V4(2), 1)

  function PeerSyn(s: Tcb): Segment {
    Segment(PEER, Here(s), Syn, 0, None, 2, None, Some(1000), [])
  }

  function PeerAck(s: Tcb, ack: SeqNumber): Segment {
    Segment(PEER, Here(s), NoFlag, 1, Some(ack), 2, None, None, [])
  }

  function Options(s: Tcb): Tcb {
    s.(timeout := None, ackDelay := None, nagle := false)
  }

  const NO_OPTIONS: Happening := Happening.Configure(None, None, false)

  /** The socket after the peer's SYN. */
  predicate Opened(r: Tcb, s: Tcb, isn: SeqNumber) {
    && Patient(r) && r.state.SynReceived? && r.localSeq == isn && r.remoteLastSeq == isn && r.remoteSeq == 1
    && r.tuple == Some(Tuple(Here(s), PEER)) && r.rtte == s.rtte && r.remoteMss == 1000
    && r.remoteWinScale.None? && r.timer == Idle(None) && r.tx == s.tx && !r.nagle
  }

  lemma OptionsPatient(s: Tcb)
    requires Reachable(s)
    ensures Patient(Options(s)) && Accepts(Options(s), PeerSyn(s)) && WireOk(PeerSyn(s))
  {
    hide SynOk, Asm.Valid, Asm.Extent;
    OptionsKeepInv(s, None, None, false);
  }

  lemma SynIsTaken(cx: Context, s: Tcb, isn: SeqNumber)
    requires Reachable(s)
    ensures Patient(Options(s)) && Accepts(Options(s), PeerSyn(s)) && WireOk(PeerSyn(s))
    ensures Opened(Process(cx, Options(s), PeerSyn(s), isn).s, s, isn)
  {
    OptionsPatient(s);
    hide SynOk, ShapeOk, Asm.Valid, Asm.Extent, AckedBy, RemoteWindow, SegmentInWindow, Overlap, ChallengeAckReply;
    ListenerTakesSyn(cx, Options(s), PeerSyn(s), isn);
  }

  /** Runs can be taken in two parts. */
  lemma {:induction false} FollowSplit(k: Karn, es: seq<Happening>, e: Happening)
    requires Inv(k.s)
    ensures FollowAll(k, es + [e]) == Follow(FollowAll(k, es), e)
    decreases |es|
  {
    hide Follow, Inv;
    if es == [] {
      assert es + [e] == [e];
      FollowKeepsInv(k, e);
    } else {
      FollowKeepsInv(k, es[0]);
      assert (es + [e])[1..] == es[1..] + [e];
      FollowSplit(Follow(k, es[0]), es[1..], e);
    }
  }

  lemma FollowNone(k: Karn)
    requires Inv(k.s)
    ensures FollowAll(k, []) == k
  {
    hide Inv;
  }

  /** The run as far as the SYN. */
  lemma RunOpens(cx: Context, s: Tcb, isn: SeqNumber)
    requires Reachable(s)
    ensures var k := FollowAll(Beginning(s, isn), [NO_OPTIONS, Happening.Arrive(cx, PeerSyn(s))]);
      k == Karn(k.s, isn, [], Nothing, false) && Opened(k.s, s, isn)
  {
    hide Opened, Process, Accepts, WireOk, FollowAll, Inv, Patient;
    SynIsTaken(cx, s, isn);
    PatientInv(Options(s));
    var k0, e1 := Beginning(s, isn), Happening.Arrive(cx, PeerSyn(s));
    FollowNone(k0);
    FollowSplit(k0, [], NO_OPTIONS);
    assert [] + [NO_OPTIONS] == [NO_OPTIONS];
    FollowSplit(k0, [NO_OPTIONS], e1);
    assert [NO_OPTIONS] + [e1] == [NO_OPTIONS, e1];
    OpenedState(Process(cx, Options(s), PeerSyn(s), isn).s, s, isn);
  }

  lemma PatientInv(s: Tcb)
    requires Patient(s)
    ensures Inv(s)
  {
  }

  lemma OpenedState(r: Tcb, s: Tcb, isn: SeqNumber)
    requires Opened(r, s, isn)
    ensures r.state.SynReceived? && Inv(r)
  {
  }

  // ---- a measurement left running ----

  /** The SYN|ACK goes out at `cx.now`, and a measurement that was running runs on. */
  lemma RunAnswers(cx: Context, s: Tcb, isn: SeqNumber)
    requires Reachable(s) && cx.ipMtu == 1000 && s.rtte.timestamp.Some?
    ensures var es := [NO_OPTIONS, Happening.Arrive(cx, PeerSyn(s)), Happening.Egress(cx, true)];
      var k := FollowAll(Beginning(s, isn), es);
      && k == Karn(k.s, isn, [], Then(Nothing, Transmission(cx.now, 0, 1)), false)
      && Patient(k.s) && k.s.state.SynReceived? && k.s.localSeq == isn && k.s.remoteSeq == 1
      && k.s.tuple == Some(Tuple(Here(s), PEER)) && k.s.rtte.timestamp == s.rtte.timestamp
  {
    hide SynOk, ShapeOk, Asm.Valid, Asm.Extent, Dispatch, Process, Accepts, ScaledWindow, FollowAll;
    var es := [NO_OPTIONS, Happening.Arrive(cx, PeerSyn(s))];
    RunOpens(cx, s, isn);
    var k := FollowAll(Beginning(s, isn), es);
    FollowSplit(Beginning(s, isn), es, Happening.Egress(cx, true));
    assert es + [Happening.Egress(cx, true)]
        == [NO_OPTIONS, Happening.Arrive(cx, PeerSyn(s)), Happening.Egress(cx, true)];
    assert MssOk(cx, k.s);
    SynGoesOut(cx, k.s);
    OffSelf(isn);
  }

  lemma AckSamples(s: Tcb, r: Tcb, q: SeqNumber, isn: SeqNumber)
    requires Patient(r) && r.state.SynReceived? && r.localSeq == isn && r.remoteSeq == 1 && Add(isn, 1) == q
    requires r.rtte.timestamp.Some? && r.rtte.timestamp.value.1 == q
    ensures WireOk(PeerAck(s, q)) && Sampled(r, PeerAck(s, q))
  {
    hide SynOk, ShapeOk, Asm.Valid, Asm.Extent;
  }

  /**
   With a measurement running from before, an initial number one below the number measured, and everything
   a moment later: the acknowledgement of the SYN completes a measurement of an octet that this connection
   did not transmit at the time measured from.
   */
  lemma OldMeasurementSampled(s: Tcb)
    requires Reachable(s) && s.rtte.timestamp.Some?
    ensures !RuleFor(s, Pred(s.rtte.timestamp.value.1))
  {
    hide SynOk, ShapeOk, Asm.Valid, Asm.Extent, Sampled, FollowAll;
    var (at, q) := s.rtte.timestamp.value;
    var isn, cx := Pred(q), Context(at + 1, 1000);
    var es := [NO_OPTIONS, Happening.Arrive(cx, PeerSyn(s)), Happening.Egress(cx, true)];
    RunAnswers(cx, s, isn);
    var k := FollowAll(Beginning(s, isn), es);
    AckSamples(s, k.s, q, isn);
    assert Times(k.log, 0) == [at + 1];
    assert !RuleAt(k, PeerAck(s, q));
  }

  // ---- a highest number left behind ----

  /** An initial number for which the leftover number lies just past the opposite point. */
  function Opposite(max: SeqNumber): (isn: SeqNumber)
    ensures Off(max, isn) == HALF + 3
  {
    if max >= HALF + 3 then max - HALF - 3 else max - HALF - 3 + MODULUS
  }

  /** Established, with two octets to send and none sent; `unsent` says so. */
  predicate Loaded(r: Tcb, s: Tcb, isn: SeqNumber, unsent: bool) {
    && Inv(r) && Quiet(r) && r.state.Established? && r.localSeq == Add(isn, 1) && r.remoteSeq == 1 && r.rx.length == 0
    && r.tuple == Some(Tuple(Here(s), PEER)) && r.rtte == s.rtte && r.remoteMss == 1000 && r.remoteWinLen == 2
    && r.timeout.None? && !r.nagle && r.tx.length == 2 && r.tx.readAt == 0
    && (if unsent then r.remoteLastSeq == r.localSeq && r.timer == Idle(None)
        else r.remoteLastSeq == Add(isn, 3) && r.timer.Retransmit?)
  }

  predicate Agreed(r: Tcb, s: Tcb, isn: SeqNumber) {
    && Patient(r) && r.state.Established? && r.localSeq == Add(isn, 1) && r.remoteLastSeq == r.localSeq
    && r.remoteSeq == 1 && r.tuple == Some(Tuple(Here(s), PEER)) && r.rtte == s.rtte && r.remoteMss == 1000
    && r.remoteWinLen == 2 && r.timer == Idle(None) && r.tx == s.tx && !r.nagle
  }

  lemma BlindAckFits(s: Tcb, r: Tcb, isn: SeqNumber)
    requires Opened(r, s, isn)
    ensures Accepts(r, PeerAck(s, Add(isn, 1))) && WireOk(PeerAck(s, Add(isn, 1)))
    ensures SegmentInWindow(r, PeerAck(s, Add(isn, 1)))
  {
    hide SynOk, ShapeOk, Asm.Valid, Asm.Extent;
  }

  /** The peer acknowledges a SYN|ACK that was never sent. */
  lemma BlindAck(cx: Context, s: Tcb, r: Tcb, isn: SeqNumber)
    requires Opened(r, s, isn) && s.rtte.timestamp.None?
    ensures Accepts(r, PeerAck(s, Add(isn, 1))) && WireOk(PeerAck(s, Add(isn, 1)))
    ensures Agreed(Process(cx, r, PeerAck(s, Add(isn, 1)), isn).s, s, isn)
  {
    hide SynOk, Asm.Valid, Asm.Extent, ChallengeAckReply, SegmentInWindow;
    var ack := PeerAck(s, Add(isn, 1));
    BlindAckFits(s, r, isn);
    ProcessKeepsInv(cx, r, ack, isn);
    AckOfSynAccepted(r, ack);
    hide CheckAck, AckedBy;
    assert RemoteWindow(r, ack) == 2;
  }

  lemma TwoOctets(s: Tcb, r: Tcb, isn: SeqNumber)
    requires Agreed(r, s, isn) && s.tx.Valid() && s.tx.Capacity() >= 2
    ensures var (l, n) := SendSlice(r, [0, 0]); n == Some(2) && Loaded(l, s, isn, true)
  {
    hide SynOk, Asm.Valid, Asm.Extent;
    SendKeepsInv(r, [0, 0]);
  }

  /** What one dispatch of a loaded socket carries: as much as `LocalMss` lets it. */
  lemma LoadedSegment(cx: Context, s: Tcb, r: Tcb, isn: SeqNumber)
    requires Loaded(r, s, isn, true) && CxOk(cx, r)
    ensures var seg := Draft(cx, r);
      && |seg.payload| == MinOf(2, LocalMss(cx, r)) && (seg.control.Psh? || seg.control.NoFlag?)
      && seg.seqNo == Add(isn, 1) && SegmentLen(seg) == |seg.payload|
    ensures SeqToTransmit(cx, r) && !IsKeepAlive(cx, r)
  {
    hide SynOk, ShapeOk, Asm.Valid, Asm.Extent, ScaledWindow;
  }

  /** The first time both octets go, and the leftover number hides that from the estimator. */
  lemma FirstSend(cx: Context, s: Tcb, r: Tcb, max: SeqNumber)
    requires Loaded(r, s, Opposite(max), true) && cx.ipMtu == 1000 && s.rtte.maxSeqSent == Some(max)
    ensures CxOk(cx, r)
    ensures var d := Dispatch(cx, r, true);
      && Loaded(d.s, s, Opposite(max), false)
      && d.out.Some? && SegmentLen(d.out.value) == 2 && d.out.value.seqNo == r.localSeq
  {
    hide SynOk, ShapeOk, Asm.Valid, Asm.Extent, AfterSend, Outgoing, Draft, ScaledWindow;
    var s1 := StartClock(r, cx.now);
    StartClockKeepsInv(r, cx.now);
    LoadedSegment(cx, s, s1, Opposite(max));
    assert BeforeSend(cx, r) == s1;
    assert WhatToDo(cx, s1).SendSegment?;
    DispatchKeepsInv(cx, r, true);
    hide SeqToTransmit, WhatToDo, BeforeSend, TimedOut;
    FirstSendFields(cx, s, s1, max);
  }

  lemma FirstSendFields(cx: Context, s: Tcb, r: Tcb, max: SeqNumber)
    requires Loaded(r, s, Opposite(max), true) && cx.ipMtu == 1000 && s.rtte.maxSeqSent == Some(max) && CxOk(cx, r)
    requires WhatToDo(cx, r).SendSegment?
    ensures Outgoing(cx, r) == Draft(cx, r)
    ensures var seg := Draft(cx, r);
      && |seg.payload| == MinOf(2, LocalMss(cx, r)) && SegmentLen(seg) == |seg.payload| && seg.seqNo == r.localSeq
    ensures Inv(AfterSend(cx, r)) ==> Loaded(AfterSend(cx, r), s, Opposite(max), false)
  {
    hide SynOk, ShapeOk, Asm.Valid, Asm.Extent, WhatToDo, ScaledWindow, Draft, RetransmissionTimeout;
    LoadedSegment(cx, s, r, Opposite(max));
    var isn := Opposite(max);
    assert !Gt(Add(isn, 3), max);
    assert !SeqToTransmit(cx, Advanced(cx, r));
  }

  function SmallMtu(s: Tcb): nat {
    HeaderLen(Here(s).addr) + TCP_HEADER_LEN + 1
  }

  lemma NothingLeft(cx: Context, s: Tcb, r: Tcb, isn: SeqNumber)
    requires Loaded(r, s, isn, false) && CxOk(cx, r)
    ensures !SeqToTransmit(cx, StartClock(r, cx.now))
  {
    hide SynOk, ShapeOk, Asm.Valid, Asm.Extent;
  }

  /** Rewound, the socket is loaded again, and its estimator still has the leftover number. */
  lemma RewoundLoaded(cx: Context, s: Tcb, r: Tcb, isn: SeqNumber)
    requires Loaded(r, s, isn, false) && CxOk(cx, r) && r.timer.expiresAt <= cx.now
    ensures Loaded(BeforeSend(cx, r), s.(rtte := OnRetransmit(s.rtte)), isn, true)
  {
    hide SynOk, ShapeOk, Asm.Valid, Asm.Extent, OnRetransmit, SeqToTransmit;
    BeforeSendKeepsInv(cx, r);
    NothingLeft(cx, s, r, isn);
  }

  /** The state in which the second octet has not been sent again. */
  predicate OneSent(r: Tcb, isn: SeqNumber, at: int) {
    && Inv(r) && r.state.Established? && r.localSeq == Add(isn, 1) && r.remoteSeq == 1 && r.rx.length == 0
    && r.tx.length == 2 && r.rtte.timestamp == Some((at, Add(isn, 2)))
  }

  lemma SecondSendFields(cx: Context, s: Tcb, r: Tcb, max: SeqNumber)
    requires Loaded(r, s, Opposite(max), true) && cx.ipMtu == SmallMtu(s) && CxOk(cx, r)
    requires s.rtte.maxSeqSent == Some(max) && s.rtte.timestamp.None? && WhatToDo(cx, r).SendSegment?
    ensures Outgoing(cx, r) == Draft(cx, r) && SegmentLen(Draft(cx, r)) == 1 && Draft(cx, r).seqNo == r.localSeq
    ensures Inv(AfterSend(cx, r)) ==> OneSent(AfterSend(cx, r), Opposite(max), cx.now)
  {
    hide SynOk, ShapeOk, Asm.Valid, Asm.Extent, WhatToDo, ScaledWindow, Draft, RetransmissionTimeout, TimerAfter;
    LoadedSegment(cx, s, r, Opposite(max));
    assert Gt(Add(Opposite(max), 2), max);
  }

  /** The second time only the first octet goes, and it is measured. */
  lemma SecondSend(cx: Context, s: Tcb, r: Tcb, max: SeqNumber)
    requires Loaded(r, s, Opposite(max), false) && cx.ipMtu == SmallMtu(s) && r.timer.expiresAt <= cx.now
    requires s.rtte.maxSeqSent == Some(max)
    ensures CxOk(cx, r)
    ensures var d := Dispatch(cx, r, true);
      && OneSent(d.s, Opposite(max), cx.now)
      && d.out.Some? && SegmentLen(d.out.value) == 1 && d.out.value.seqNo == r.localSeq
  {
    hide SynOk, ShapeOk, Asm.Valid, Asm.Extent, AfterSend, Outgoing, Draft, ScaledWindow, BeforeSend;
    var s' := s.(rtte := OnRetransmit(s.rtte));
    RewoundLoaded(cx, s, r, Opposite(max));
    var s1 := BeforeSend(cx, r);
    BeforeSendKeepsInv(cx, r);
    LoadedSegment(cx, s', s1, Opposite(max));
    assert WhatToDo(cx, s1).SendSegment?;
    DispatchKeepsInv(cx, r, true);
    hide SeqToTransmit, WhatToDo;
    SecondSendFields(cx, s', s1, max);
  }

  lemma OneSampled(s: Tcb, r: Tcb, isn: SeqNumber, at: int)
    requires OneSent(r, isn, at)
    ensures WireOk(PeerAck(s, Add(isn, 2))) && Sampled(r, PeerAck(s, Add(isn, 2)))
  {
    hide SynOk, ShapeOk, Asm.Valid, Asm.Extent;
  }

  lemma RunLoads(s: Tcb, isn: SeqNumber)
    requires Reachable(s) && s.tx.Capacity() >= 2 && s.rtte.timestamp.None?
    ensures var cx := Context(0, 1000);
      var k := FollowAll(Beginning(s, isn),
        [NO_OPTIONS, Happening.Arrive(cx, PeerSyn(s)), Happening.Arrive(cx, PeerAck(s, Add(isn, 1))),
         Happening.Send([0, 0])]);
      k == Karn(k.s, isn, [0, 0], Nothing, false) && Loaded(k.s, s, isn, true)
  {
    hide Opened, Agreed, Loaded, Process, Accepts, WireOk, FollowAll, Inv, Patient, SendSlice;
    var cx, k0 := Context(0, 1000), Beginning(s, isn);
    var e2, e3 := Happening.Arrive(cx, PeerAck(s, Add(isn, 1))), Happening.Send([0, 0]);
    var es := [NO_OPTIONS, Happening.Arrive(cx, PeerSyn(s))];
    RunOpens(cx, s, isn);
    var k := FollowAll(k0, es);
    OpenedState(k.s, s, isn);
    BlindAck(cx, s, k.s, isn);
    FollowSplit(k0, es, e2);
    var k2 := FollowAll(k0, es + [e2]);
    ConnectedState(k2.s, s, isn);
    ReachableTx(s);
    TwoOctets(s, k2.s, isn);
    FollowSplit(k0, es + [e2], e3);
    LoadedState(FollowAll(k0, es + [e2] + [e3]).s, s, isn, true);
    assert es + [e2] + [e3] == [NO_OPTIONS, Happening.Arrive(cx, PeerSyn(s)), e2, e3];
    assert [] + [0, 0][..2] == [0, 0];
  }

  lemma ConnectedState(r: Tcb, s: Tcb, isn: SeqNumber)
    requires Agreed(r, s, isn)
    ensures r.state.Established? && Inv(r)
  {
  }

  lemma ReachableTx(s: Tcb)
    requires Reachable(s)
    ensures s.tx.Valid()
  {
  }

  lemma LoadedState(r: Tcb, s: Tcb, isn: SeqNumber, unsent: bool)
    requires Loaded(r, s, isn, unsent)
    ensures r.state.Established? && Inv(r) && (!unsent ==> r.timer.Retransmit?) && r.localSeq == Add(isn, 1)
  {
  }

  lemma LoggedAs(log: Log, now: int, seg: Segment, isn: SeqNumber, n: nat)
    requires seg.seqNo == Add(isn, 1) && SegmentLen(seg) == n > 0
    ensures Logged(log, now, seg, isn) == Then(log, Transmission(now, 1, 1 + n))
  {
  }

  /** One dispatch, as the run records it. */
  lemma RunTransmits(k0: Karn, es: seq<Happening>, cx: Context, n: nat)
    requires Inv(k0.s)
    requires var k := FollowAll(k0, es);
      && k.s.localSeq == Add(k.iss, 1) && CxOk(cx, k.s)
      && var d := Dispatch(cx, k.s, true);
         d.s.state.Established? && d.out.Some? && SegmentLen(d.out.value) == n > 0 && d.out.value.seqNo == k.s.localSeq
    ensures var k := FollowAll(k0, es);
      FollowAll(k0, es + [Happening.Egress(cx, true)])
        == k.(s := Dispatch(cx, k.s, true).s, log := Then(k.log, Transmission(cx.now, 1, 1 + n)))
  {
    hide Inv, FollowAll, Dispatch, Logged;
    var k := FollowAll(k0, es);
    FollowSplit(k0, es, Happening.Egress(cx, true));
    LoggedAs(k.log, cx.now, Dispatch(cx, k.s, true).out.value, k.iss, n);
  }

  /** The run in which the first octet is sent twice and the second transmission measured. */
  lemma RunMeasuresTwice(s: Tcb) returns (es: seq<Happening>, at: int)
    requires Reachable(s) && s.tx.Capacity() >= 2 && s.rtte.timestamp.None? && s.rtte.maxSeqSent.Some?
    ensures var isn := Opposite(s.rtte.maxSeqSent.value);
      var k := FollowAll(Beginning(s, isn), es);
      && k == Karn(k.s, isn, [0, 0], Then(Then(Nothing, Transmission(0, 1, 3)), Transmission(at, 1, 2)), false)
      && OneSent(k.s, isn, at)
  {
    hide Inv, FollowAll, Loaded, OneSent, Dispatch, Opposite, Off, CxOk;
    var max := s.rtte.maxSeqSent.value;
    var isn := Opposite(max);
    var cx, k0 := Context(0, 1000), Beginning(s, isn);
    var es0 := [NO_OPTIONS, Happening.Arrive(cx, PeerSyn(s)), Happening.Arrive(cx, PeerAck(s, Add(isn, 1))),
                Happening.Send([0, 0])];
    RunLoads(s, isn);
    var k := FollowAll(k0, es0);
    LoadedState(k.s, s, isn, true);
    FirstSend(cx, s, k.s, max);
    LoadedState(Dispatch(cx, k.s, true).s, s, isn, false);
    RunTransmits(k0, es0, cx, 2);
    var es1 := es0 + [Happening.Egress(cx, true)];
    var k1 := FollowAll(k0, es1);
    at := k1.s.timer.expiresAt;
    var cx2 := Context(at, SmallMtu(s));
    SecondSend(cx2, s, k1.s, max);
    OneSentState(Dispatch(cx2, k1.s, true).s, isn, at);
    RunTransmits(k0, es1, cx2, 1);
    es := es1 + [Happening.Egress(cx2, true)];
  }

  lemma TwiceTimes(at: int)
    ensures Times(Then(Then(Nothing, Transmission(0, 1, 3)), Transmission(at, 1, 2)), 1) == [0, at]
  {
    assert Times(Then(Nothing, Transmission(0, 1, 3)), 1) == [0];
  }

  /**
   With a highest number left over from before, about half the sequence space behind the new initial number,
   and a peer that acknowledges the SYN|ACK unseen: two octets go out unmeasured, then the first of them
   again alone, and this second transmission is what the acknowledgement is timed against.
   */
  lemma OldHighestMisleads(s: Tcb)
    requires Reachable(s) && s.tx.Capacity() >= 2 && s.rtte.timestamp.None? && s.rtte.maxSeqSent.Some?
    ensures !RuleFor(s, Opposite(s.rtte.maxSeqSent.value))
  {
    hide Inv, Sampled, FollowAll, OneSent, Opposite, Off, Times;
    var isn := Opposite(s.rtte.maxSeqSent.value);
    var es, at := RunMeasuresTwice(s);
    var k := FollowAll(Beginning(s, isn), es);
    OneSentState(k.s, isn, at);
    OneSampled(s, k.s, isn, at);
    OffSelf(isn);
    OffAdd(isn, isn, 2);
    TwiceTimes(at);
    assert !RuleAt(k, PeerAck(s, Add(isn, 2)));
  }

  lemma OneSentState(r: Tcb, isn: SeqNumber, at: int)
    requires OneSent(r, isn, at)
    ensures r.state.Established? && Inv(r) && r.rtte.timestamp == Some((at, Add(isn, 2)))
  {
  }

  // ---- exactly ----

  /**
   Karn's rule holds in every connection a listening socket may open next, whatever initial number it
   draws, if and only if its estimator has neither a measurement running nor a highest number left over.
   */
  lemma RuleExactly(s: Tcb)
    requires Reachable(s) && s.tx.Capacity() >= 2
    ensures (forall isn: SeqNumber :: RuleFor(s, isn)) <==> s.rtte.timestamp.None? && s.rtte.maxSeqSent.None?
  {
    hide RuleFor;
    if s.rtte.timestamp.Some? {
      OldMeasurementSampled(s);
    } else if s.rtte.maxSeqSent.Some? {
      OldHighestMisleads(s);
    } else {
      forall isn: SeqNumber
        ensures RuleFor(s, isn)
      {
        ClearRule(s, isn);
      }
    }
  }

  /** For one initial number it is enough that nothing is running and the leftover is not opposite. */
  lemma ClearRule(s: Tcb, isn: SeqNumber)
    requires Reachable(s) && Clear(s.rtte, isn)
    ensures RuleFor(s, isn)
  {
    hide RuleAt, FollowAll, SynOk, Asm.Valid, Asm.Extent;
    forall es: seq<Happening>, seg: Segment
      ensures RuleAt(FollowAll(Beginning(s, isn), es), seg)
    {
      KarnsRule(s, isn, es, seg);
    }
  }

  /** A RST in SYN-RECEIVED leaves the estimator alone, so the condition can be read off before it comes. */
  lemma ThrownBack(cx: Context, s: Tcb, rst: Segment, isn: SeqNumber)
    requires Inv(s) && Quiet(s) && s.state.SynReceived? && s.tx.Capacity() >= 2 && s.listenEndpoint.port != 0
    requires WireOk(rst) && Accepts(s, rst) && rst.control.Rst? && SegmentInWindow(s, rst)
    ensures var l := Process(cx, s, rst, isn).s;
      && Reachable(l) && l.rtte == s.rtte
      && ((forall next: SeqNumber :: RuleFor(l, next)) <==> s.rtte.timestamp.None? && s.rtte.maxSeqSent.None?)
  {
    hide SynOk, ShapeOk, ProcessAccepted, Overlap, SegmentInWindow, Asm.Valid, Asm.Extent, RuleFor;
    var (payload, offset) := Overlap(s, rst);
    RstOutcome(cx, s, rst, payload, offset, isn);
    ProcessKeepsInv(cx, s, rst, isn);
    RuleExactly(Process(cx, s, rst, isn).s);
  }
}
