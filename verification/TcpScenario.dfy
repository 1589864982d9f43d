/** Runs of a new socket that show what `TcpTimer` and `TcpNagle` leave open to happen. */
module TcpScenario {
  import opened Common
  import opened SeqNumbers
  import opened RingBuffer
  import opened RttEstimation
  import opened Tcp
  import opened TcpProcess
  import opened TcpDispatch
  import opened TcpPoll
  import opened TcpInvariant
  import opened TcpStream
  import opened TcpSide
  import opened TcpProgress
  import opened TcpTimer
  import opened TcpNagle
  import opened TcpPeer
  import opened TcpReceiver
  import opened TcpTold
  import opened TcpKeepAlive
  import Asm = AssemblerList

  // ---- the peer ----

  const HERE: Endpoint := Endpoint(V4(1), 80)
  const PEER: Endpoint := Endpoint(V4(2), 1000)
  const CX: Context := Context(0, 1500)
  const SYN: Segment := Segment(PEER, HERE, Syn, 0, None, 10, None, Some(1000), [])

  /** A segment of the peer without payload, and with a window of ten octets. */
  function Bare(control: Control, seqNo: SeqNumber, ack: SeqNumber): Segment {
    Segment(PEER, HERE, control, seqNo, Some(ack), 10, None, None, [])
  }

  const OPTIONS: Op := Op.Configure(None, None, None, true)
  const LISTEN: Op := StartListen(ListenEndpoint(None, 80))

  /** Listen, SYN, SYN|ACK, ACK. */
  const UP: seq<Op> := [OPTIONS, LISTEN, Arrive(CX, SYN, 0), Egress(CX, true), Arrive(CX, Bare(NoFlag, 1, 1), 0)]

  lemma {:induction false} RunSplit(s: Tcb, ops: seq<Op>, op: Op)
    requires Inv(s)
    ensures Inv(TcpInvariant.Run(s, ops)) && TcpInvariant.Run(s, ops + [op]) == Apply(TcpInvariant.Run(s, ops), op)
    decreases |ops|
  {
    hide Inv, Apply;
    if ops == [] {
      assert ops + [op] == [op];
      ApplyKeepsInv(s, op);
    } else {
      ApplyKeepsInv(s, ops[0]);
      assert (ops + [op])[1..] == ops[1..] + [op];
      RunSplit(Apply(s, ops[0]), ops[1..], op);
    }
  }

  lemma RunNothing(s: Tcb)
    requires Inv(s)
    ensures TcpInvariant.Run(s, []) == s
  {
    hide Inv;
  }

  // ---- the handshake ----

  /** What the options and the first segments settle; `heard` is the next octet expected of the peer. */
  predicate Settled(s: Tcb, heard: SeqNumber) {
    && Inv(s) && Quiet(s) && s.timeout.None? && s.rx.length == 0 && s.tuple == Some(Tuple(HERE, PEER))
    && s.remoteSeq == heard && s.remoteMss == 1000 && s.remoteWinScale.None? && s.nagle
    && s.ackDelay.None? && s.ackDelayTimer.AckIdle?
  }

  lemma Listening(rx: Ring, tx: Ring)
    requires FreshRings(rx, tx)
    ensures Inv(NewSocket(rx, tx))
    ensures var s := Apply(NewSocket(rx, tx), OPTIONS);
      Inv(s) && s.state.Closed? && Patient(Apply(s, LISTEN)) && Apply(s, LISTEN) ==
        NewSocket(rx, tx).(rx := rx.Clear(), tx := tx.Clear(), ackDelay := None, state := Listen,
                           listenEndpoint := ListenEndpoint(None, 80))
  {
    hide SynOk, InitialShift, Asm.Valid, Asm.Extent, ScaledWindow, Diff;
    NewSocketInv(rx, tx);
    ApplyKeepsInv(NewSocket(rx, tx), OPTIONS);
    ApplyKeepsInv(Apply(NewSocket(rx, tx), OPTIONS), LISTEN);
  }

  lemma SynTaken(s: Tcb)
    requires Patient(s) && s.state.Listen? && s.tuple.None? && s.listenEndpoint == ListenEndpoint(None, 80)
    requires s.nagle && s.ackDelay.None? && s.ackDelayTimer.AckIdle? && s.rxDupAcks == 0
    ensures var r := Apply(s, Arrive(CX, SYN, 0));
      && Settled(r, 1) && r.state.SynReceived? && r.localSeq == 0 && r.remoteLastSeq == 0 && r.tx == s.tx
      && r.rxDupAcks == 0 && r.listenEndpoint == s.listenEndpoint
  {
    hide SynOk, ShapeOk, Asm.Valid, Asm.Extent, AckedBy, RemoteWindow, SegmentInWindow, Overlap, ChallengeAckReply;
    ListenerTakesSyn(CX, s, SYN, 0);
  }

  lemma SynAnswered(s: Tcb)
    requires Settled(s, 1) && s.state.SynReceived? && s.localSeq == 0 && s.remoteLastSeq == 0 && s.tx.length == 0
    ensures var r := Apply(s, Egress(CX, true));
      && Settled(r, 1) && r.state.SynReceived? && r.localSeq == 0 && r.remoteLastSeq == 1 && r.tx == s.tx
      && r.rxDupAcks == s.rxDupAcks && r.remoteLastAck == Some(1)
  {
    hide SynOk, Asm.Valid, Asm.Extent, BeforeSend, AfterSend, Outgoing, Draft, InitialShift, SeqToTransmit, WhatToDo;
    hide Rewinds, IsKeepAlive, ScaledWindow;
    SynGoesOut(CX, s);
    BeforeSendKeepsInv(CX, s);
    BeforeSendFrame(CX, s);
    var s1 := BeforeSend(CX, s);
    SendsSyn(s);
    AfterSendFrame(CX, s1);
    QuietIsNoProbe(CX, s1);
    SynDraft(CX, s1);
  }

  lemma SendsSyn(s: Tcb)
    requires Settled(s, 1) && s.state.SynReceived? && s.remoteLastSeq == s.localSeq && CxOk(CX, s)
    ensures WhatToDo(CX, BeforeSend(CX, s)).SendSegment? && BeforeSend(CX, s).state == s.state
  {
    hide SynOk, ShapeOk, Asm.Valid, Asm.Extent;
  }

  lemma QuietIsNoProbe(cx: Context, s: Tcb)
    requires Wf(s) && s.tuple.Some? && CxOk(cx, s) && Quiet(s)
    ensures !IsKeepAlive(cx, s)
  {
  }

  lemma SynDraft(cx: Context, s: Tcb)
    requires Wf(s) && s.tuple.Some? && CxOk(cx, s) && s.state.SynReceived?
    ensures Draft(cx, s).ack == Some(NextExpected(s)) && SegmentLen(Draft(cx, s)) == 1
  {
  }

  /**
   Established, or closed by one end or both: octets up to `next` are in flight, `queued` are in the buffer, `heard` is
   expected of the peer and `told` is what it was last told.
   */
  predicate Talks(s: Tcb, st: State, next: SeqNumber, queued: nat, heard: SeqNumber, told: SeqNumber) {
    && Settled(s, heard) && s.state == st && s.localSeq == 1 && s.remoteLastSeq == next
    && s.tx.length == queued && s.tx.Capacity() >= 2 && (queued > 0 ==> s.tx.readAt == 0)
    && s.remoteWinLen == 10 && s.remoteLastAck == Some(told)
  }

  lemma AckTaken(s: Tcb)
    requires Settled(s, 1) && s.state.SynReceived? && s.localSeq == 0 && s.remoteLastSeq == 1 && s.tx.length == 0
    requires s.tx.Capacity() >= 2 && s.remoteLastAck == Some(1) && s.rxDupAcks == 0
    ensures var r := Apply(s, Arrive(CX, Bare(NoFlag, 1, 1), 0));
      Talks(r, Established, 1, 0, 1, 1) && r.rxDupAcks == 0 && r.timer == Idle(None)
  {
    hide SynOk, Asm.Valid, Asm.Extent, ChallengeAckReply, OnAck;
    var ack := Bare(NoFlag, 1, 1);
    AckFits(s, ack);
    ProcessKeepsInv(CX, s, ack, 0);
    AckOfSynAccepted(s, ack);
    hide CheckAck, AckedBy, SegmentInWindow;
    assert RemoteWindow(s, ack) == 10;
  }

  lemma AckFits(s: Tcb, ack: Segment)
    requires Settled(s, 1) && !s.state.Closed? && !s.state.Listen?
    requires ack == Bare(NoFlag, 1, 1) || ack == Bare(Fin, 1, 1)
    ensures Accepts(s, ack) && WireOk(ack) && SegmentInWindow(s, ack) && Overlap(s, ack).0 == []
  {
    hide SynOk, ShapeOk, Asm.Valid, Asm.Extent;
  }

  /** Whatever its buffers, a new socket gets that far. */
  lemma ComesUp(rx: Ring, tx: Ring)
    requires FreshRings(rx, tx) && tx.Capacity() >= 2
    ensures Inv(NewSocket(rx, tx))
    ensures var s := TcpInvariant.Run(NewSocket(rx, tx), UP);
      Talks(s, Established, 1, 0, 1, 1) && s.rxDupAcks == 0 && s.timer == Idle(None)
  {
    hide Inv, Apply, TcpInvariant.Run, Talks;
    Listening(rx, tx);
    var s0 := NewSocket(rx, tx);
    var s1 := Apply(s0, OPTIONS);
    var s2 := Apply(s1, LISTEN);
    SynTaken(s2);
    var s3 := Apply(s2, Arrive(CX, SYN, 0));
    SynAnswered(s3);
    var s4 := Apply(s3, Egress(CX, true));
    AckTaken(s4);
    RunNothing(s0);
    RunSplit(s0, [], OPTIONS);
    RunSplit(s0, [OPTIONS], LISTEN);
    RunSplit(s0, [OPTIONS, LISTEN], Arrive(CX, SYN, 0));
    RunSplit(s0, [OPTIONS, LISTEN, Arrive(CX, SYN, 0)], Egress(CX, true));
    RunSplit(s0, [OPTIONS, LISTEN, Arrive(CX, SYN, 0), Egress(CX, true)], Arrive(CX, Bare(NoFlag, 1, 1), 0));
    assert [] + [OPTIONS] == [OPTIONS];
    assert [OPTIONS] + [LISTEN] == [OPTIONS, LISTEN];
    assert [OPTIONS, LISTEN] + [Arrive(CX, SYN, 0)] == [OPTIONS, LISTEN, Arrive(CX, SYN, 0)];
    assert [OPTIONS, LISTEN, Arrive(CX, SYN, 0)] + [Egress(CX, true)]
        == [OPTIONS, LISTEN, Arrive(CX, SYN, 0), Egress(CX, true)];
    assert [OPTIONS, LISTEN, Arrive(CX, SYN, 0), Egress(CX, true)] + [Arrive(CX, Bare(NoFlag, 1, 1), 0)] == UP;
  }

  // ---- one step at a time ----

  /** The application enqueues one octet or two. */
  lemma Enqueues(s: Tcb, st: State, next: SeqNumber, queued: nat, heard: SeqNumber, told: SeqNumber, data: seq<Byte>)
    requires Talks(s, st, next, queued, heard, told) && (st.Established? || st.CloseWait?) && queued + |data| <= 2
    ensures var r := Apply(s, Op.Send(data));
      && Talks(r, st, next, queued + |data|, heard, told)
      && r == s.(tx := r.tx, remoteLastTs := r.remoteLastTs) && r.tx.Data() == s.tx.Data() + data
  {
    hide SynOk, Asm.Valid, Asm.Extent;
    SendKeepsInv(s, data);
    EnqueueSliceAppends(s.tx, data);
    hide Ring.Data;
  }

  /** With nothing in flight, one segment takes all that is queued. */
  lemma TakesAll(s: Tcb, st: State, queued: nat, heard: SeqNumber, told: SeqNumber)
    requires Talks(s, st, 1, queued, heard, told) && (st.Established? || st.CloseWait?) && 1 <= queued <= 2
    ensures CxOk(CX, s) && SeqToTransmit(CX, s) && WhatToDo(CX, s).SendSegment? && !IsKeepAlive(CX, s)
    ensures SegmentLen(Draft(CX, s)) == queued && Draft(CX, s).ack == Some(heard)
  {
    hide SynOk, ShapeOk, Asm.Valid, Asm.Extent, ScaledWindow;
  }

  lemma StartsSame(s: Tcb, st: State, queued: nat, heard: SeqNumber, told: SeqNumber)
    requires Talks(s, st, 1, queued, heard, told) && (st.Established? || st.CloseWait?) && 1 <= queued <= 2
    ensures CxOk(CX, s)
    ensures var s1 := BeforeSend(CX, s);
      s1 == s.(remoteLastTs := s1.remoteLastTs) && Talks(s1, st, 1, queued, heard, told)
  {
    hide SynOk, ShapeOk, Asm.Valid, Asm.Extent, SeqToTransmit, ScaledWindow, BeforeSend, Diff;
    BeforeSendKeepsInv(CX, s);
    BeforeSendFrame(CX, s);
    StartClockKeepsInv(s, 0);
    TakesAll(StartClock(s, 0), st, queued, heard, told);
  }

  lemma TimerSet(s: Tcb, st: State, queued: nat, heard: SeqNumber, told: SeqNumber)
    requires Talks(s, st, 1, queued, heard, told) && (st.Established? || st.CloseWait?) && 1 <= queued <= 2
    requires s.timer == Idle(None) && CxOk(CX, s) && WhatToDo(CX, s).SendSegment?
    requires SegmentLen(Draft(CX, s)) == queued
    ensures TimerAfter(CX, s).Retransmit? && TimerAfter(CX, s).expiresAt > 0
  {
    hide SynOk, ShapeOk, Asm.Valid, Asm.Extent, ScaledWindow, WhatToDo, Draft, OnSend;
    DraftSeq(CX, s);
    assert !SeqToTransmit(CX, Advanced(CX, s));
  }

  /** What is queued goes out at once, and with it an acknowledgement. */
  lemma GoesOut(s: Tcb, st: State, queued: nat, heard: SeqNumber, told: SeqNumber)
    requires Talks(s, st, 1, queued, heard, told) && (st.Established? || st.CloseWait?) && 1 <= queued <= 2
    requires s.timer == Idle(None)
    ensures var r := Apply(s, Egress(CX, true));
      && Talks(r, st, 1 + queued, queued, heard, heard) && !AckToTransmit(r) && !WindowToUpdate(r)
      && r.rxDupAcks == s.rxDupAcks && r.timer.Retransmit? && r.timer.expiresAt > 0 && r.tx == s.tx
  {
    hide SynOk, ShapeOk, Asm.Valid, Asm.Extent, BeforeSend, Outgoing, Draft, InitialShift, SeqToTransmit, WhatToDo;
    hide Rewinds, IsKeepAlive, ScaledWindow, Diff, OnSend, TimerAfter, Advanced;
    BeforeSendKeepsInv(CX, s);
    StartsSame(s, st, queued, heard, told);
    var s1 := BeforeSend(CX, s);
    TakesAll(s1, st, queued, heard, told);
    DispatchKeepsInv(CX, s, true);
    AfterSendFrame(CX, s1);
    AdvancedIsAcked(CX, s1);
    TimerSet(s1, st, queued, heard, told);
    SentIsAdvanced(CX, s1);
  }

  lemma SentIsAdvanced(cx: Context, s: Tcb)
    requires Inv(s) && s.tuple.Some? && CxOk(cx, s) && WhatToDo(cx, s).SendSegment? && !IsKeepAlive(cx, s)
    ensures var r, a := AfterSend(cx, s), Advanced(cx, s);
      AckToTransmit(r) == AckToTransmit(a) && WindowToUpdate(r) == WindowToUpdate(a) && r.timer == TimerAfter(cx, s)
  {
    hide SynOk, ShapeOk, WhatToDo, Draft, SeqToTransmit, IsKeepAlive, TimerAfter, Asm.Valid, Asm.Extent, OnSend, Diff;
  }

  /** The peer closes. */
  lemma PeerCloses(s: Tcb, next: SeqNumber, queued: nat)
    requires Talks(s, Established, next, queued, 1, 1) && next <= 3 && s.rxDupAcks == 0
    ensures var r := Apply(s, Arrive(CX, Bare(Fin, 1, 1), 0));
      && Talks(r, CloseWait, next, queued, 2, 1) && r.timer == Idle(None)
      && (next == 1 ==> r.rxDupAcks == 0)
  {
    hide SynOk, Asm.Valid, Asm.Extent, ChallengeAckReply, OnAck;
    var fin := Bare(Fin, 1, 1);
    AckFits(s, fin);
    ProcessKeepsInv(CX, s, fin, 0);
    FinAccepted(s, next, queued);
    hide CheckAck, AckedBy, SegmentInWindow, EffectiveControl;
    assert RemoteWindow(s, fin) == 10;
  }

  lemma FinAccepted(s: Tcb, next: SeqNumber, queued: nat)
    requires Talks(s, Established, next, queued, 1, 1)
    ensures var fin := Bare(Fin, 1, 1);
      && CheckAck(s, fin).AckAccept? && AckedBy(s, fin).len == 0 && !AckedBy(s, fin).ofFin
      && EffectiveControl(s, fin).Fin?
  {
    hide SynOk, ShapeOk, Asm.Valid, Asm.Extent;
  }

  // ---- whole runs ----

  /** Nagle's algorithm is on, an octet is in flight, and another goes out in a segment far below the MSS. */
  predicate SendsSmall(s: Tcb) {
    && Inv(s) && CxOk(CX, s) && s.tuple.Some? && s.nagle && InFlight(s)
    && var d := Dispatch(CX, s, true);
       d.out.Some? && |d.out.value.payload| == 1 < EffectiveMss(CX, s)
  }

  const ONE: Op := Op.Send([0])
  const SECOND_OCTET: seq<Op> := UP + [ONE] + [Egress(CX, true)] + [ONE]

  /** One octet in flight and another queued. */
  lemma OneInFlight(rx: Ring, tx: Ring)
    requires FreshRings(rx, tx) && tx.Capacity() >= 2
    ensures Inv(NewSocket(rx, tx))
    ensures var s := TcpInvariant.Run(NewSocket(rx, tx), SECOND_OCTET);
      && Talks(s, Established, 2, 2, 1, 1) && !AckToTransmit(s) && !WindowToUpdate(s) && s.rxDupAcks == 0
      && s.timer.Retransmit? && s.timer.expiresAt > 0
  {
    hide SynOk, ShapeOk, Wf, Apply, TcpInvariant.Run, UP, ScaledWindow, AckToTransmit;
    var s0 := NewSocket(rx, tx);
    ComesUp(rx, tx);
    var s1 := TcpInvariant.Run(s0, UP);
    RunSplit(s0, UP, ONE);
    Enqueues(s1, Established, 1, 0, 1, 1, [0]);
    var s2 := Apply(s1, ONE);
    RunSplit(s0, UP + [ONE], Egress(CX, true));
    GoesOut(s2, Established, 1, 1, 1);
    var s3 := Apply(s2, Egress(CX, true));
    RunSplit(s0, UP + [ONE] + [Egress(CX, true)], ONE);
    Enqueues(s3, Established, 2, 1, 1, 1, [0]);
    SameWants(s3, Apply(s3, ONE));
  }

  lemma SameWants(s: Tcb, r: Tcb)
    requires Wf(s) && Wf(r) && r.rx == s.rx && r.remoteSeq == s.remoteSeq && r.remoteLastAck == s.remoteLastAck
    requires r.remoteLastWin == s.remoteLastWin && r.remoteWinShift == s.remoteWinShift
    requires r.state == s.state || (s.state.Established? && r.state.FinWait1?)
    ensures AckToTransmit(r) == AckToTransmit(s) && WindowToUpdate(r) == WindowToUpdate(s)
  {
  }

  lemma OneAtHand(s: Tcb, st: State, heard: SeqNumber, told: SeqNumber)
    requires Talks(s, st, 2, 2, heard, told) && DataState(st)
    ensures CxOk(CX, s) && AtHand(CX, s) == 1 && EffectiveMss(CX, s) == 1000 && InFlight(s) && MaxSend(s) == 1
  {
    hide SynOk, ShapeOk, Asm.Valid, Asm.Extent;
  }

  lemma SmallIsSent(s: Tcb, st: State, heard: SeqNumber, told: SeqNumber)
    requires Talks(s, st, 2, 2, heard, told) && DataState(st) && CxOk(CX, s) && !Rewinds(CX, s)
    requires SentFin(st) || AckToTransmit(s)
    ensures SendsSmall(s)
  {
    hide SynOk, ShapeOk, Asm.Valid, Asm.Extent, Dispatch, Rewinds, AtHand, MaxSend, AckToTransmit, WindowToUpdate;
    OneAtHand(s, st, heard, told);
    NagleExactly(CX, s, true);
    CarriesOne(s, st, heard, told);
  }

  lemma CarriesOne(s: Tcb, st: State, heard: SeqNumber, told: SeqNumber)
    requires Talks(s, st, 2, 2, heard, told) && DataState(st) && CxOk(CX, s) && !Rewinds(CX, s) && AtHand(CX, s) == 1
    ensures var d := Dispatch(CX, s, true); d.out.Some? ==> |d.out.value.payload| == 1
  {
    hide SynOk, ShapeOk, Asm.Valid, Asm.Extent, BeforeSend, WhatToDo, AfterSend, Outgoing, DataSegment, Rewinds, AtHand;
    hide MaxSend, AckDue;
    BeforeSendKeepsInv(CX, s);
    SameBefore(CX, s);
    OutgoingIsData(CX, BeforeSend(CX, s));
    AtHandIsCarried(CX, BeforeSend(CX, s));
  }

  /** The peer's FIN is to be acknowledged, and the acknowledgement takes the octet along. */
  lemma SmallWithAck(rx: Ring, tx: Ring)
    requires FreshRings(rx, tx) && tx.Capacity() >= 2
    ensures Inv(NewSocket(rx, tx))
    ensures var s := TcpInvariant.Run(NewSocket(rx, tx), SECOND_OCTET + [Arrive(CX, Bare(Fin, 1, 1), 0)]);
      SendsSmall(s) && s.state.CloseWait?
  {
    hide SynOk, ShapeOk, Wf, Apply, TcpInvariant.Run, SECOND_OCTET, SendsSmall;
    var s0 := NewSocket(rx, tx);
    OneInFlight(rx, tx);
    var s1 := TcpInvariant.Run(s0, SECOND_OCTET);
    RunSplit(s0, SECOND_OCTET, Arrive(CX, Bare(Fin, 1, 1), 0));
    PeerCloses(s1, 2, 2);
    var s := Apply(s1, Arrive(CX, Bare(Fin, 1, 1), 0));
    InvIsWf(s);
    NotExpired(s);
    HeardMore(s, 2, 2);
    SmallIsSent(s, CloseWait, 2, 1);
  }

  lemma HeardMore(s: Tcb, next: SeqNumber, queued: nat)
    requires Talks(s, CloseWait, next, queued, 2, 1)
    ensures AckToTransmit(s)
  {
    hide SynOk, ShapeOk, Asm.Valid, Asm.Extent;
  }

  lemma NotExpired(s: Tcb)
    requires Wf(s) && s.tuple == Some(Tuple(HERE, PEER))
    requires s.timer == Idle(None) || SeqToTransmit(CX, StartClock(s, 0))
    ensures CxOk(CX, s) && !Rewinds(CX, s)
  {
    hide Wf, SeqToTransmit;
  }

  /** The application has closed, nothing is to be acknowledged, and the octet goes out all the same. */
  lemma SmallWithFin(rx: Ring, tx: Ring)
    requires FreshRings(rx, tx) && tx.Capacity() >= 2
    ensures Inv(NewSocket(rx, tx))
    ensures var s := TcpInvariant.Run(NewSocket(rx, tx), SECOND_OCTET + [Op.CloseTx]);
      SendsSmall(s) && s.state.FinWait1? && !AckToTransmit(s) && !WindowToUpdate(s) && MaxSend(s) < EffectiveMss(CX, s)
  {
    hide SynOk, ShapeOk, Asm.Valid, Asm.Extent, TcpInvariant.Run, SECOND_OCTET, SendsSmall, AckToTransmit, ScaledWindow;
    hide Rewinds, MaxSend, AtHand, Diff;
    var s0 := NewSocket(rx, tx);
    OneInFlight(rx, tx);
    var s1 := TcpInvariant.Run(s0, SECOND_OCTET);
    RunSplit(s0, SECOND_OCTET, Op.CloseTx);
    CloseKeepsInv(s1);
    var s := Apply(s1, Op.CloseTx);
    SameWants(s1, s);
    OneAtHand(s, FinWait1, 1, 1);
    FinSends(s);
    NotExpired(s);
    SmallIsSent(s, FinWait1, 1, 1);
  }

  lemma FinSends(s: Tcb)
    requires Talks(s, FinWait1, 2, 2, 1, 1)
    ensures CxOk(CX, s) && SeqToTransmit(CX, StartClock(s, 0))
  {
    hide SynOk, ShapeOk, Asm.Valid, Asm.Extent;
  }

  const TWO: Op := Op.Send([1, 2])

  /** The peer closes, two octets are sent, and one of them is acknowledged. */
  const HALF_ACKED: seq<Op> :=
    UP + [Arrive(CX, Bare(Fin, 1, 1), 0)] + [TWO] + [Egress(CX, true)] + [Arrive(CX, Bare(NoFlag, 2, 2), 0)]

  /** The second octet is queued and has been sent. */
  predicate LeftOver(s: Tcb)
    requires s.tx.Valid()
  {
    && s.state.CloseWait? && s.tuple == Some(Tuple(HERE, PEER)) && s.tx.Data() == [2]
    && s.localSeq == 2 && s.remoteLastSeq == 3 && s.timer == Idle(None)
    && s.timeout.None?
  }

  /** The other is in flight without a timer, and `dispatch` does nothing at any time. */
  lemma OctetForgotten(rx: Ring, tx: Ring, later: Context, emitOk: bool)
    requires FreshRings(rx, tx) && tx.Capacity() >= 2
    ensures Inv(NewSocket(rx, tx))
    ensures var s := TcpInvariant.Run(NewSocket(rx, tx), HALF_ACKED);
      && Inv(s) && NoTimer(s) && s.tx.length == 1 && LeftOver(s)
      && (CxOk(later, s) ==> Dispatch(later, s, emitOk) == Dispatched(s, None))
  {
    hide SynOk, ShapeOk, Wf, Apply, TcpInvariant.Run, UP, ScaledWindow, AckToTransmit, Dispatch, LeftOver, Ring.Data;
    var s0 := NewSocket(rx, tx);
    var fin, ack := Arrive(CX, Bare(Fin, 1, 1), 0), Arrive(CX, Bare(NoFlag, 2, 2), 0);
    ComesUp(rx, tx);
    var s1 := TcpInvariant.Run(s0, UP);
    RunSplit(s0, UP, fin);
    PeerCloses(s1, 1, 0);
    var s2 := Apply(s1, fin);
    RunSplit(s0, UP + [fin], TWO);
    EmptyQueue(s2);
    Enqueues(s2, CloseWait, 1, 0, 2, 1, [1, 2]);
    var s3 := Apply(s2, TWO);
    RunSplit(s0, UP + [fin] + [TWO], Egress(CX, true));
    GoesOut(s3, CloseWait, 2, 2, 1);
    var s4 := Apply(s3, Egress(CX, true));
    RunSplit(s0, UP + [fin] + [TWO] + [Egress(CX, true)], ack);
    HalfAcked(s4);
    LostForever(CX, s4, Bare(NoFlag, 2, 2), 1, 0, later, emitOk);
    AppliesSegment(s4, Bare(NoFlag, 2, 2));
    OneLeft(s4);
  }

  lemma EmptyQueue(s: Tcb)
    requires Talks(s, CloseWait, 1, 0, 2, 1)
    ensures s.tx.Valid() && s.tx.Data() == []
  {
    hide SynOk, ShapeOk, Asm.Valid, Asm.Extent;
  }

  lemma HalfAcked(s: Tcb)
    requires Talks(s, CloseWait, 3, 2, 2, 2) && !AckToTransmit(s) && s.rxDupAcks == 0
    ensures PartlyAcked(s, Bare(NoFlag, 2, 2), 1)
  {
    hide SynOk, Asm.Valid, Asm.Extent, AckToTransmit;
  }

  lemma AppliesSegment(s: Tcb, seg: Segment)
    requires Inv(s) && Accepts(s, seg) && WireOk(seg)
    ensures Apply(s, Arrive(CX, seg, 0)) == Process(CX, s, seg, 0).s
  {
    hide Inv, Process;
  }

  lemma OneLeft(s: Tcb)
    requires Talks(s, CloseWait, 3, 2, 2, 2) && PartlyAcked(s, Bare(NoFlag, 2, 2), 1)
    requires s.tx.Data() == [1, 2]
    ensures var r := Process(CX, s, Bare(NoFlag, 2, 2), 0).s; r.tx.Valid() && r.tx.length == 1 && LeftOver(r)
  {
    hide Process, SynOk, ShapeOk, Asm.Valid, Asm.Extent, PartlyAcked;
    PartlyProcessed(CX, s, Bare(NoFlag, 2, 2), 1, 0);
    DequeueDrops(s.tx, 1);
    assert [1, 2][1..] == [2];
    hide Ring.Data;
  }

  // ---- a listener that is thrown back ----

  const NO_MSS: Segment := SYN.(maxSegSize := None)

  /** SYN and reset, and then a SYN that names no MSS. */
  const THROWN_BACK: seq<Op> :=
    [OPTIONS, LISTEN, Arrive(CX, SYN, 0), Arrive(CX, Bare(Rst, 1, 1), 0), Arrive(CX, NO_MSS, 0)]

  lemma ResetThrowsBack(s: Tcb)
    requires Settled(s, 1) && s.state.SynReceived?
    ensures Apply(s, Arrive(CX, Bare(Rst, 1, 1), 0)) == s.(tuple := None, state := Listen)
  {
    hide SynOk, ShapeOk, Asm.Valid, Asm.Extent, AckedBy, ChallengeAckReply;
    var rst := Bare(Rst, 1, 1);
    assert SegmentInWindow(s, rst);
    var (payload, offset) := Overlap(s, rst);
    RstOutcome(CX, s, rst, payload, offset, 0);
  }

  /**
   The socket goes by the MSS of the connection that was reset: 1000 octets, where the peer that named none may
   count on 536.
   */
  lemma MssOutlivesReset(rx: Ring, tx: Ring)
    requires FreshRings(rx, tx)
    ensures Inv(NewSocket(rx, tx))
    ensures var s := TcpInvariant.Run(NewSocket(rx, tx), THROWN_BACK);
      && s.state.SynReceived? && s.remoteMss == 1000
      && Heard(NewSocket(rx, tx), THROWN_BACK, []) == [SYN, NO_MSS] && MssOfSyn(NO_MSS) == 536
  {
    hide Apply, TcpInvariant.Run, Settled, Inv, HeardAfter;
    Listening(rx, tx);
    var s0 := NewSocket(rx, tx);
    var s1 := Apply(s0, OPTIONS);
    var s2 := Apply(s1, LISTEN);
    SynTaken(s2);
    var s3 := Apply(s2, Arrive(CX, SYN, 0));
    SettledInv(s3);
    ResetThrowsBack(s3);
    var s4 := Apply(s3, Arrive(CX, Bare(Rst, 1, 1), 0));
    ApplyKeepsInv(s3, Arrive(CX, Bare(Rst, 1, 1), 0));
    ThrownBackHears(s0, s1, s2, s3, s4);
    assert OPTIONS == THROWN_BACK[0];
    HeardStep(s0, THROWN_BACK, []);
    assert THROWN_BACK[1..] == [LISTEN, Arrive(CX, SYN, 0), Arrive(CX, Bare(Rst, 1, 1), 0), Arrive(CX, NO_MSS, 0)];
    HeardStep(s1, THROWN_BACK[1..], []);
    assert THROWN_BACK[1..][1..] == [Arrive(CX, SYN, 0), Arrive(CX, Bare(Rst, 1, 1), 0), Arrive(CX, NO_MSS, 0)];
    HeardStep(s2, THROWN_BACK[1..][1..], []);
    assert THROWN_BACK[1..][1..][1..] == [Arrive(CX, Bare(Rst, 1, 1), 0), Arrive(CX, NO_MSS, 0)];
    HeardStep(s3, THROWN_BACK[1..][1..][1..], [SYN]);
    assert THROWN_BACK[1..][1..][1..][1..] == [Arrive(CX, NO_MSS, 0)];
    HeardStep(s4, THROWN_BACK[1..][1..][1..][1..], [SYN]);
    var s5 := Apply(s4, Arrive(CX, NO_MSS, 0));
    ApplyKeepsInv(s4, Arrive(CX, NO_MSS, 0));
    HeardNothing(s5, [SYN, NO_MSS]);
  }

  lemma SettledInv(s: Tcb)
    requires Settled(s, 1)
    ensures Inv(s) && s.remoteMss == 1000 && s.tuple == Some(Tuple(HERE, PEER))
  {
    hide Inv;
  }

  lemma HeardStep(s: Tcb, ops: seq<Op>, heard: seq<Segment>)
    requires Inv(s) && ops != []
    ensures Inv(Apply(s, ops[0]))
    ensures Heard(s, ops, heard) == Heard(Apply(s, ops[0]), ops[1..], HeardAfter(s, ops[0], heard))
    ensures TcpInvariant.Run(s, ops) == TcpInvariant.Run(Apply(s, ops[0]), ops[1..])
  {
    hide Inv, Apply, HeardAfter;
    ApplyKeepsInv(s, ops[0]);
  }

  lemma HeardNothing(s: Tcb, heard: seq<Segment>)
    requires Inv(s)
    ensures Heard(s, [], heard) == heard && TcpInvariant.Run(s, []) == s
  {
    hide Inv;
  }

  lemma ThrownBackHears(s0: Tcb, s1: Tcb, s2: Tcb, s3: Tcb, s4: Tcb)
    requires Inv(s4) && s1.state.Closed? && s2.state.Listen? && s2.tuple.None? && s3.state.SynReceived?
    requires s2.listenEndpoint == ListenEndpoint(None, 80) && s4 == s3.(tuple := None, state := Listen)
    requires s3.listenEndpoint == s2.listenEndpoint && s3.remoteMss == 1000
    ensures HeardAfter(s0, OPTIONS, []) == [] == HeardAfter(s1, LISTEN, [])
    ensures HeardAfter(s2, Arrive(CX, SYN, 0), []) == [SYN]
    ensures HeardAfter(s3, Arrive(CX, Bare(Rst, 1, 1), 0), [SYN]) == [SYN]
    ensures HeardAfter(s4, Arrive(CX, NO_MSS, 0), [SYN]) == [SYN, NO_MSS]
    ensures var r := Apply(s4, Arrive(CX, NO_MSS, 0)); r.state.SynReceived? && r.remoteMss == 1000
  {
    hide Inv, Process, InitialShift;
    OpeningPeer(CX, s4, NO_MSS, 0);
  }

  // ---- a probe that is not one ----

  const KEEP: Op := Op.Configure(None, Some(1_000_000), None, true)

  lemma ProbeGoesOut(s: Tcb, later: Context)
    requires Inv(s) && LeftOver(s) && CxOk(later, s) && later.now >= 0
    ensures var r := Apply(s, KEEP);
      && Inv(r) && r.tx == s.tx && r.tuple == s.tuple && r.state == s.state && r.localSeq == s.localSeq
      && !GivesUp(r, later.now) && Probes(later, r) && !Rewinds(later, r) && r.remoteLastSeq == s.remoteLastSeq
      && NoTimer(r)
  {
    hide SynOk, ShapeOk, Asm.Valid, Asm.Extent, ScaledWindow, BeforeSend, SeqToTransmit, SegmentRoom, LocalMss;
    ApplyKeepsInv(s, KEEP);
    var r := Apply(s, KEEP);
    assert Diff(r.remoteLastSeq, r.localSeq) == 1 == r.tx.length by {
      assert |s.tx.Data()| == 1;
    }
    BeforeSendFrame(later, r);
    BeforeSendKeepsInv(later, r);
    NothingAtEnd(later, BeforeSend(later, r));
  }

  lemma NothingAtEnd(cx: Context, s: Tcb)
    requires Inv(s) && s.state.CloseWait? && s.tuple.Some? && CxOk(cx, s)
    requires Diff(s.remoteLastSeq, s.localSeq) == s.tx.length
    ensures IsEmptySegment(Draft(cx, s))
  {
    hide SynOk, ShapeOk, Asm.Valid, Asm.Extent, Diff, SegmentRoom;
    DataSegmentFits(cx, s);
  }

  /**
   Keep-alive is turned on with the octet 2 in flight without a timer. The probe carries its number and the octet 0; a
   peer that has not got it takes that for data (`TcpKeepAlive.ProbeTakenForData`).
   */
  lemma ProbeReplacesOctet(rx: Ring, tx: Ring, later: Context, emitOk: bool)
    requires FreshRings(rx, tx) && tx.Capacity() >= 2 && later.now >= 0
    ensures Inv(NewSocket(rx, tx))
    ensures var s := TcpInvariant.Run(NewSocket(rx, tx), HALF_ACKED + [KEEP]);
      && Inv(s) && s.tx.Data() == [2]
      && (CxOk(later, s) ==>
            var out := Dispatch(later, s, emitOk).out;
            out.Some? && out.value.payload == [0] && out.value.seqNo == s.localSeq)
  {
    hide Inv, Apply, TcpInvariant.Run, Dispatch, HALF_ACKED, Probes, Rewinds, GivesUp, NoTimer;
    var s0 := NewSocket(rx, tx);
    OctetForgotten(rx, tx, later, emitOk);
    RunSplit(s0, HALF_ACKED, KEEP);
    var s := TcpInvariant.Run(s0, HALF_ACKED);
    var r := Apply(s, KEEP);
    ApplyKeepsInv(s, KEEP);
    InvIsWf(r);
    KeepChanges(s);
    if CxOk(later, r) {
      ProbeGoesOut(s, later);
      ProbeNumber(later, r, emitOk);
    }
  }

  lemma KeepChanges(s: Tcb)
    requires Inv(s)
    ensures var r := Apply(s, KEEP); r.tx == s.tx && r.tuple == s.tuple && r.localSeq == s.localSeq
  {
    hide Inv;
  }
}
