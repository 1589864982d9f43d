/**
 When octets in flight have a retransmit timer. They usually do, but not always: a segment can stop the timer
 with octets still in flight, and then nothing sends them again.
 */
module TcpTimer {
  import opened Common
  import opened SeqNumbers
  import opened RingBuffer
  import opened RttEstimation
  import opened Tcp
  import opened TcpProcess
  import opened TcpDispatch
  import opened TcpPoll
  import opened TcpInvariant
  import opened TcpStream
  import opened TcpReceiver
  import opened TcpSide
  import Asm = AssemblerList

  /** Something sent has not been acknowledged. */
  predicate InFlight(s: Tcb) {
    !s.state.Closed? && !s.state.Listen? && s.remoteLastSeq != s.localSeq
  }

  /** The segment is the third repetition of the last acknowledgement, which sets the timer itself. */
  predicate ThirdDuplicate(s: Tcb, seg: Segment) {
    && seg.ack.Some? && s.rxLastAck == seg.ack && seg.payload == []
    && Lt(seg.ack.value, s.remoteLastSeq) && RemoteWindow(s, seg) == s.remoteWinLen && s.rxDupAcks == 2
  }

  /** The segment passes all tests and is not a reset. */
  predicate Taken(s: Tcb, seg: Segment)
    requires Inv(s) && WireOk(seg)
  {
    Synchronised(s.state) && CheckAck(s, seg).AckAccept? && !seg.control.Rst? && SegmentInWindow(s, seg)
  }

  /** The arms of the state machine that stop the timer whatever is still in flight. */
  predicate StoppingArm(st: State, control: Control) {
    match control
    case Fin => st.SynReceived? || st.Established? || st.FinWait1?
    case NoFlag => st.CloseWait? || st.Closing? || st.LastAck?
    case _ => false
  }

  /** The arms after which the rest of `process` is done. */
  predicate GoingArm(st: State, control: Control) {
    match control
    case Fin => RxOpen(st)
    case NoFlag => !st.TimeWait?
    case _ => false
  }

  predicate Stops(s: Tcb, seg: Segment)
    requires Inv(s)
  {
    !ThirdDuplicate(s, seg) && StoppingArm(s.state, EffectiveControl(s, seg))
  }

  predicate Sets(s: Tcb, seg: Segment)
    requires Inv(s)
  {
    ThirdDuplicate(s, seg) && GoingArm(s.state, EffectiveControl(s, seg))
  }

  // ---- an arriving segment ----

  lemma NothingInFlight(s: Tcb)
    requires Inv(s) && (s.state.FinWait2? || s.state.TimeWait?)
    ensures !InFlight(s)
  {
    DiffZero(s.remoteLastSeq, s.localSeq);
  }

  lemma AppliedTimer(cx: Context, s: Tcb, s1: Tcb, seg: Segment, ackLen: nat)
    requires s1.tx.Valid() && ackLen <= s1.tx.length && seg.ack.Some?
    requires s1 == s.(state := s1.state, timer := s1.timer, tuple := s1.tuple, remoteSeq := s1.remoteSeq,
                      rxFin := s1.rxFin, rtte := s1.rtte)
    ensures var r := ApplyAck(cx, s1, seg, ackLen);
      && r.timer == (if ThirdDuplicate(s, seg) then FastRetransmit else s1.timer) && r.state == s1.state
      && r.localSeq == seg.ack.value
      && r.remoteLastSeq == (if Lt(s.remoteLastSeq, seg.ack.value) then seg.ack.value else s.remoteLastSeq)
  {
    hide Lt;
  }

  /** What the state machine does to the timer of a socket with octets in flight. */
  lemma MovedTimer(cx: Context, s: Tcb, seg: Segment, ack: AckInfo, isn: SeqNumber)
    requires Inv(s) && Synchronised(s.state) && !seg.control.Rst? && (ack.ofFin ==> SentFin(s.state))
    ensures var control := EffectiveControl(s, seg);
      var next := Transition(cx, s, seg, control, ack, isn);
      if next.Stop? then !GoingArm(s.state, control) && !StoppingArm(s.state, control)
      else if !GoingArm(s.state, control) then false
      else if FinAcked(next.s.state) || next.s.state.Closed? || ack.all || s.state.SynReceived? then true
      else IsRetransmit(next.s.timer) <==> IsRetransmit(s.timer) && !StoppingArm(s.state, control)
  {
    hide SynOk, Asm.Valid, Asm.Extent, Diff;
  }

  /** Whether the timer of octets still in flight runs after the segment was taken. */
  predicate RunsAfter(s: Tcb, seg: Segment)
    requires Inv(s)
  {
    if IsRetransmit(s.timer) then !Stops(s, seg) else Sets(s, seg)
  }

  /** A segment that was taken: it runs on exactly if nothing stops it, and is set only by the third duplicate. */
  lemma TakenTimer(cx: Context, s: Tcb, seg: Segment, payload: seq<Byte>, offset: nat, isn: SeqNumber)
    requires Inv(s) && WireOk(seg) && Synchronised(s.state) && CheckAck(s, seg).AckAccept? && !seg.control.Rst?
    requires payload != [] ==> offset + |payload| <= s.rx.Window()
    ensures var r := ProcessAccepted(cx, s, seg, payload, offset, isn).s;
      && (!InFlight(s) ==> !InFlight(r))
      && (InFlight(r) ==> (IsRetransmit(r.timer) <==> RunsAfter(s, seg)))
  {
    hide CheckAck, AckedBy, SynOk, ShapeOk, StorePayload, ApplyPayload, ApplyAck, TakeRtt, Asm.Valid, Asm.Extent;
    hide Transition, TransitionShape, EffectiveControl, ThirdDuplicate, Lt;
    var s0 := TakeRtt(cx, s, seg);
    TakeRttKeepsInv(cx, s, seg);
    AckedByIgnoresRtt(s, s0, seg);
    ControlIgnoresRtt(s, s0, seg);
    var ack := AckedBy(s, seg);
    SyncTransition(cx, s0, seg, ack, isn);
    AcceptedGoKeepsInv(cx, s, seg, isn);
    AckFacts(s, seg);
    AllAcked(s, seg);
    MovedTimer(cx, s0, seg, ack, isn);
    var next := Transition(cx, s0, seg, EffectiveControl(s, seg), ack, isn);
    if next.Go? {
      ShapeOf(s0, next.s, ack);
      var s2 := ApplyAck(cx, next.s, seg, ack.len);
      AppliedTimer(cx, s, next.s, seg, ack.len);
      ApplyPayloadFrame(cx, s2, seg, payload, offset);
      FlightAfter(s, seg);
      if s2.state.FinWait2? || s2.state.TimeWait? {
        NothingInFlight(s2);
      }
    }
  }

  lemma ShapeOf(s: Tcb, s1: Tcb, ack: AckInfo)
    requires TransitionShape(s, s1, ack)
    ensures s1 == s.(state := s1.state, timer := s1.timer, tuple := s1.tuple, remoteSeq := s1.remoteSeq,
                     rxFin := s1.rxFin)
  {
  }

  lemma AllAcked(s: Tcb, seg: Segment)
    requires Wf(s) && CheckAck(s, seg).AckAccept? && !seg.control.Rst? && Synchronised(s.state)
    ensures seg.ack.Some? && AckedBy(s, seg).all <==> seg.ack == Some(s.remoteLastSeq)
  {
  }

  /** Where `remoteLastSeq` is after an acknowledgement. */
  lemma FlightAfter(s: Tcb, seg: Segment)
    requires Inv(s) && CheckAck(s, seg).AckAccept? && !seg.control.Rst? && Synchronised(s.state)
    ensures seg.ack.Some?
    ensures var rls := if Lt(s.remoteLastSeq, seg.ack.value) then seg.ack.value else s.remoteLastSeq;
      && (s.remoteLastSeq == s.localSeq ==> rls == seg.ack.value)
      && (s.state.SynReceived? ==> rls == seg.ack.value)
  {
  }

  /** The socket is opened by the segment, or stays as it is: nothing is in flight that was not. */
  lemma OpeningTimer(cx: Context, s: Tcb, seg: Segment, isn: SeqNumber)
    requires Inv(s) && (s.state.Listen? || s.state.SynSent?) && CheckAck(s, seg).AckAccept?
    requires s.state.Listen? ==> seg.ack.None?
    ensures var r := ProcessAccepted(cx, s, seg, [], 0, isn).s; !InFlight(r) || (InFlight(s) && r.timer == s.timer)
  {
    hide CheckAck, AckedBy, SynOk, Asm.Valid, Asm.Extent, RemoteWindow;
    if seg.control.Rst? {
      RstOutcome(cx, s, seg, [], 0, isn);
    } else if !seg.control.Syn? {
      TakeRttKeepsInv(cx, s, seg);
      UnsynchronisedStops(cx, TakeRtt(cx, s, seg), seg, AckedBy(s, seg), isn);
    } else if s.state.SynSent? {
      SynAckPos(s, seg);
    }
  }

  lemma SynAckPos(s: Tcb, seg: Segment)
    requires Wf(s) && s.state.SynSent? && CheckAck(s, seg).AckAccept? && seg.control.Syn?
    ensures seg.ack == Some(Add(s.localSeq, 1))
  {
  }

  lemma RstTimer(cx: Context, s: Tcb, seg: Segment, payload: seq<Byte>, offset: nat, isn: SeqNumber)
    requires Inv(s) && Synchronised(s.state) && CheckAck(s, seg).AckAccept? && seg.control.Rst?
    requires payload != [] ==> offset + |payload| <= s.rx.Window()
    ensures !InFlight(ProcessAccepted(cx, s, seg, payload, offset, isn).s)
  {
    RstOutcome(cx, s, seg, payload, offset, isn);
  }

  lemma ChallengeTimer(cx: Context, s: Tcb, seg: Segment)
    requires s.rx.Valid() && s.rx.Capacity() <= MAX_RX_CAPACITY
    ensures var r := ChallengeAckReply(cx, s, seg).s;
      r.state == s.state && r.timer == s.timer && r.localSeq == s.localSeq && r.remoteLastSeq == s.remoteLastSeq
  {
  }

  /**
   Any segment: nothing comes to be in flight by it, and the timer of octets still in flight is as it was, exactly
   unless the segment is taken and either stops it or, as the third duplicate, sets it.
   */
  lemma SegmentTimer(cx: Context, s: Tcb, seg: Segment, isn: SeqNumber)
    requires Inv(s) && Accepts(s, seg) && WireOk(seg)
    ensures var r := Process(cx, s, seg, isn).s;
      InFlight(r) ==>
        && InFlight(s)
        && (IsRetransmit(r.timer) <==> if Taken(s, seg) then RunsAfter(s, seg) else IsRetransmit(s.timer))
  {
    hide CheckAck, SynOk, ShapeOk, ProcessAccepted, SegmentInWindow, Overlap, ChallengeAckReply, RstReply;
    hide Asm.Valid, Asm.Extent, SegmentAt, RunsAfter;
    match CheckAck(s, seg)
    case AckIgnore =>
    case AckReset =>
    case AckChallenge => ChallengeTimer(cx, s, seg);
    case AckAccept =>
      if s.state.Listen? || s.state.SynSent? {
        OpeningTimer(cx, s, seg, isn);
      } else if SegmentInWindow(s, seg) {
        var (payload, offset) := Overlap(s, seg);
        if seg.control.Rst? {
          RstTimer(cx, s, seg, payload, offset, isn);
        } else {
          TakenTimer(cx, s, seg, payload, offset, isn);
        }
      } else if s.state.TimeWait? {
        NothingInFlight(s);
        ChallengeTimer(cx, s.(timer := Timer.Close(cx.now + CLOSE_DELAY)), seg);
      } else {
        ChallengeTimer(cx, s, seg);
      }
  }

  lemma MovedStops(cx: Context, s: Tcb, seg: Segment, ack: AckInfo, isn: SeqNumber)
    requires Inv(s) && Synchronised(s.state) && !seg.control.Rst? && (ack.ofFin ==> SentFin(s.state)) && ack.all
    ensures var next := Transition(cx, s, seg, EffectiveControl(s, seg), ack, isn);
      next.Go? ==> !IsRetransmit(next.s.timer) || next.s.state.Closed?
  {
    hide SynOk, Asm.Valid, Asm.Extent, Diff;
  }

  lemma AcceptedStops(cx: Context, s: Tcb, seg: Segment, payload: seq<Byte>, offset: nat, isn: SeqNumber)
    requires Inv(s) && WireOk(seg) && Synchronised(s.state) && CheckAck(s, seg).AckAccept? && !seg.control.Rst?
    requires payload != [] ==> offset + |payload| <= s.rx.Window()
    requires seg.ack == Some(s.remoteLastSeq) && GoingArm(s.state, EffectiveControl(s, seg))
    ensures var r := ProcessAccepted(cx, s, seg, payload, offset, isn).s; r.state.Closed? || !IsRetransmit(r.timer)
  {
    hide CheckAck, AckedBy, SynOk, ShapeOk, StorePayload, ApplyPayload, ApplyAck, TakeRtt, Asm.Valid, Asm.Extent;
    hide Transition, TransitionShape, EffectiveControl, IsRetransmit;
    var s0 := TakeRtt(cx, s, seg);
    TakeRttKeepsInv(cx, s, seg);
    AckedByIgnoresRtt(s, s0, seg);
    ControlIgnoresRtt(s, s0, seg);
    var ack := AckedBy(s, seg);
    SyncTransition(cx, s0, seg, ack, isn);
    AcceptedGoKeepsInv(cx, s, seg, isn);
    AckFacts(s, seg);
    AllAcked(s, seg);
    MovedTimer(cx, s0, seg, ack, isn);
    MovedStops(cx, s0, seg, ack, isn);
    var next := Transition(cx, s0, seg, EffectiveControl(s, seg), ack, isn);
    ShapeOf(s0, next.s, ack);
    AppliedTimer(cx, s, next.s, seg, ack.len);
    NotLess(s.remoteLastSeq);
    ApplyPayloadFrame(cx, ApplyAck(cx, next.s, seg, ack.len), seg, payload, offset);
  }

  lemma NotLess(a: SeqNumber)
    ensures !Lt(a, a)
  {
  }

  /** A segment that the state machine goes on with and that acknowledges all that was sent stops the timer. */
  lemma AllAckedStops(cx: Context, s: Tcb, seg: Segment, isn: SeqNumber)
    requires Inv(s) && Accepts(s, seg) && WireOk(seg) && Taken(s, seg)
    requires seg.ack == Some(s.remoteLastSeq) && GoingArm(s.state, EffectiveControl(s, seg))
    ensures var r := Process(cx, s, seg, isn).s; r.state.Closed? || !IsRetransmit(r.timer)
  {
    hide CheckAck, SynOk, ShapeOk, ProcessAccepted, SegmentInWindow, Overlap, ChallengeAckReply, RstReply;
    hide Asm.Valid, Asm.Extent, SegmentAt, EffectiveControl, IsRetransmit;
    var (payload, offset) := Overlap(s, seg);
    AcceptedStops(cx, s, seg, payload, offset, isn);
  }

  // ---- sending ----

  /** A segment with something in it goes out. */
  predicate SendsSome(cx: Context, s: Tcb, emitOk: bool)
    requires Inv(s) && CxOk(cx, s) && s.tuple.Some?
  {
    && emitOk
    && (BeforeSendKeepsInv(cx, s);
        var s1 := BeforeSend(cx, s);
        WhatToDo(cx, s1).SendSegment? && !IsKeepAlive(cx, s1) && SegmentLen(Draft(cx, s1)) > 0)
  }

  /** After which there is more that could go out at once. */
  predicate MoreToSend(cx: Context, s: Tcb, emitOk: bool)
    requires Inv(s) && CxOk(cx, s) && s.tuple.Some? && SendsSome(cx, s, emitOk)
  {
    BeforeSendKeepsInv(cx, s);
    SeqToTransmit(cx, Advanced(cx, BeforeSend(cx, s)))
  }

  /** A timer is running that this dispatch does not find expired. */
  predicate RunsOn(cx: Context, s: Tcb)
    requires Wf(s) && s.tuple.Some? && CxOk(cx, s)
  {
    IsRetransmit(s.timer) && !Rewinds(cx, s)
  }

  lemma AfterSendTimer(cx: Context, s: Tcb)
    requires Inv(s) && s.tuple.Some? && CxOk(cx, s) && WhatToDo(cx, s).SendSegment?
    ensures var r := AfterSend(cx, s);
      if IsKeepAlive(cx, s) || SegmentLen(Draft(cx, s)) == 0 then
        (InFlight(r) <==> InFlight(s)) && (IsRetransmit(r.timer) <==> IsRetransmit(s.timer))
      else
        InFlight(r) ==> (IsRetransmit(r.timer) <==> IsRetransmit(s.timer) || !SeqToTransmit(cx, Advanced(cx, s)))
  {
    hide SynOk, Asm.Valid, Asm.Extent, SeqToTransmit, WhatToDo, Diff, RetransmissionTimeout, OnSend;
    if !IsKeepAlive(cx, s) {
      SynSentFirst(cx, s);
      hide IsKeepAlive;
      DraftSeq(cx, s);
      DraftLen(cx, s);
      hide Draft;
    }
  }

  lemma DraftSeq(cx: Context, s: Tcb)
    requires Wf(s) && s.tuple.Some? && CxOk(cx, s)
    ensures Draft(cx, s).seqNo == s.remoteLastSeq
  {
  }

  /** A socket that waits to close has nothing to send. */
  lemma DraftLen(cx: Context, s: Tcb)
    requires Inv(s) && s.tuple.Some? && CxOk(cx, s)
    ensures s.timer.Close? ==> SegmentLen(Draft(cx, s)) == 0
    ensures Add(s.remoteLastSeq, 0) == s.remoteLastSeq
  {
  }

  /**
   `dispatch`: with octets in flight afterwards, a timer runs exactly if one ran on or all that could be sent was;
   and octets are in flight only if they were and are not sent again, or something was sent.
   */
  lemma EgressTimer(cx: Context, s: Tcb, emitOk: bool)
    requires Inv(s) && CxOk(cx, s) && s.tuple.Some?
    ensures var r := Dispatch(cx, s, emitOk).s;
      InFlight(r) ==>
        && (IsRetransmit(r.timer) <==>
              RunsOn(cx, s) || (SendsSome(cx, s, emitOk) && !MoreToSend(cx, s, emitOk)))
        && (SendsSome(cx, s, emitOk) || (InFlight(s) && !Rewinds(cx, s)))
  {
    hide SynOk, ShapeOk, Wf, BeforeSend, WhatToDo, AfterSend, SeqToTransmit, IsKeepAlive, Draft, Advanced, Outgoing;
    hide Rewinds;
    InvIsWf(s);
    BeforeSendKeepsInv(cx, s);
    BeforeSendFrame(cx, s);
    var s1 := BeforeSend(cx, s);
    if WhatToDo(cx, s1).SendSegment? {
      AfterSendTimer(cx, s1);
    }
  }

  // ---- every run ----

  /**
   Whether octets are in flight that have been without a timer since a taken segment stopped it, or since they were
   sent with more to send and no timer running; neither a taken third duplicate nor a dispatch that sends all has
   come since.
   */
  predicate LooseAfter(s: Tcb, op: Op, loose: bool)
    requires Inv(s)
  {
    && InFlight(Apply(s, op))
    && match op
       case Arrive(_, seg, _) =>
         if !Accepts(s, seg) || !WireOk(seg) || !Taken(s, seg) then loose
         else if loose then !Sets(s, seg)
         else Stops(s, seg)
       case Egress(cx, emitOk) =>
         if !CxOk(cx, s) || s.tuple.None? || !SendsSome(cx, s, emitOk) then loose
         else MoreToSend(cx, s, emitOk) && (loose || !RunsOn(cx, s))
       case _ => loose
  }

  predicate NoTimer(s: Tcb) {
    InFlight(s) && !IsRetransmit(s.timer)
  }

  /** User calls neither send nor set or stop a timer. */
  lemma CallTimer(s: Tcb, op: Op)
    requires Inv(s) && !op.Arrive? && !op.Egress?
    ensures var r := Apply(s, op);
      InFlight(r) ==> InFlight(s) && (IsRetransmit(s.timer) <==> IsRetransmit(r.timer))
  {
    hide SynOk, ShapeOk, Wf, EnqueueSlice, Dequeue, InitialShift;
  }

  lemma StepTimer(s: Tcb, op: Op, loose: bool)
    requires Inv(s) && (NoTimer(s) <==> loose)
    ensures NoTimer(Apply(s, op)) <==> LooseAfter(s, op, loose)
  {
    hide SynOk, ShapeOk, Wf, Process, Dispatch, Accepts, WireOk, Taken, Stops, Sets, SendsSome, MoreToSend;
    hide CxOk, SendSlice, RecvSlice, CloseCall, ListenOn, Connect, SetKeepAlive, InFlight, IsRetransmit, Rewinds;
    match op
    case Arrive(cx, seg, isn) =>
      if Accepts(s, seg) && WireOk(seg) {
        InvIsWf(s);
        SegmentTimer(cx, s, seg, isn);
      }
    case Egress(cx, emitOk) =>
      if CxOk(cx, s) {
        InvIsWf(s);
        if s.tuple.Some? {
          EgressTimer(cx, s, emitOk);
        } else {
          NoTuple(cx, s, emitOk);
        }
      }
    case _ => CallTimer(s, op);
  }

  lemma NoTuple(cx: Context, s: Tcb, emitOk: bool)
    requires Inv(s) && CxOk(cx, s) && s.tuple.None?
    ensures Dispatch(cx, s, emitOk).s == s
  {
  }

  predicate LooseIn(s: Tcb, ops: seq<Op>, loose: bool)
    requires Inv(s)
    decreases |ops|
  {
    if ops == [] then loose
    else
      ApplyKeepsInv(s, ops[0]);
      LooseIn(Apply(s, ops[0]), ops[1..], LooseAfter(s, ops[0], loose))
  }

  lemma {:induction false} TimerFollows(s: Tcb, ops: seq<Op>, loose: bool)
    requires Inv(s) && (NoTimer(s) <==> loose)
    ensures NoTimer(TcpInvariant.Run(s, ops)) <==> LooseIn(s, ops, loose)
    decreases |ops|
  {
    hide Inv, Apply, LooseAfter, NoTimer;
    if ops != [] {
      ApplyKeepsInv(s, ops[0]);
      StepTimer(s, ops[0], loose);
      TimerFollows(Apply(s, ops[0]), ops[1..], LooseAfter(s, ops[0], loose));
    }
  }

  /** Over every run of a socket, whatever arrives: octets in flight have no timer if and only if they were left so. */
  lemma TimerRuns(rx: Ring, tx: Ring, ops: seq<Op>)
    requires FreshRings(rx, tx)
    ensures Inv(NewSocket(rx, tx))
    ensures NoTimer(TcpInvariant.Run(NewSocket(rx, tx), ops)) <==> LooseIn(NewSocket(rx, tx), ops, false)
  {
    hide TcpInvariant.Run, LooseIn;
    NewSocketInv(rx, tx);
    TimerFollows(NewSocket(rx, tx), ops, false);
  }

  // ---- what that leads to ----

  /** All has been sent, nothing is to be acknowledged, and no timer of any kind runs. */
  predicate Forgotten(s: Tcb)
    requires Inv(s)
  {
    && s.tuple.Some? && (s.state.Established? || s.state.CloseWait?) && s.timer == Idle(None) && s.timeout.None?
    && s.remoteLastTs.Some? && MaxSend(s) == 0 && !AckToTransmit(s) && !WindowToUpdate(s)
  }

  /** Then `dispatch` does nothing, at any time and whatever the MTU. */
  lemma ForgottenForever(cx: Context, s: Tcb, emitOk: bool)
    requires Inv(s) && Forgotten(s) && CxOk(cx, s)
    ensures Dispatch(cx, s, emitOk) == Dispatched(s, None)
  {
    hide SynOk, ShapeOk, AckToTransmit, WindowToUpdate, MaxSend, Dispatch, Asm.Valid, Asm.Extent, Diff;
    NotDueDoesNothing(cx, s, emitOk);
  }

  /** CLOSE-WAIT, all sent, and an acknowledgement of a part of it. */
  predicate PartlyAcked(s: Tcb, seg: Segment, k: nat)
    requires Inv(s)
  {
    && s.state.CloseWait? && Quiet(s) && s.timeout.None? && s.tuple.Some?
    && 0 < k < s.tx.length && s.remoteLastSeq == Add(s.localSeq, s.tx.length)
    && !AckToTransmit(s) && s.rxDupAcks == 0
    && Accepts(s, seg) && WireOk(seg) && seg.control.NoFlag? && seg.payload == []
    && seg.seqNo == NextExpected(s) && seg.ack == Some(Add(s.localSeq, k))
  }

  lemma PartlyAccepted(s: Tcb, seg: Segment, k: nat)
    requires Inv(s) && PartlyAcked(s, seg, k)
    ensures CheckAck(s, seg).AckAccept? && AckedBy(s, seg) == AckInfo(k, false, false) && SegmentInWindow(s, seg)
    ensures !Lt(s.remoteLastSeq, seg.ack.value) && !ThirdDuplicate(s, seg) && EffectiveControl(s, seg).NoFlag?
    ensures Overlap(s, seg).0 == []
  {
    hide SynOk, Asm.Valid, Asm.Extent;
  }

  lemma PartlyProcessed(cx: Context, s: Tcb, seg: Segment, k: nat, isn: SeqNumber)
    requires Inv(s) && PartlyAcked(s, seg, k)
    ensures var r := Process(cx, s, seg, isn).s;
      && r.state == s.state && r.tuple == s.tuple && r.timer == Idle(None) && r.timeout == s.timeout
      && r.remoteLastTs.Some? && r.rx == s.rx && r.remoteSeq == s.remoteSeq && r.remoteLastAck == s.remoteLastAck
      && r.localSeq == Add(s.localSeq, k) && r.remoteLastSeq == s.remoteLastSeq && r.tx == Dequeue(s.tx, k)
      && r.tx.length == s.tx.length - k && r.keepAlive == s.keepAlive
  {
    hide SynOk, Asm.Valid, Asm.Extent, CheckAck, AckedBy, SegmentInWindow, Overlap, EffectiveControl, Lt, RemoteWindow;
    PartlyAccepted(s, seg, k);
  }

  /**
   In CLOSE-WAIT an acknowledgement of a part of what is in flight stops the timer, and the rest, if it was
   lost, is never sent again unless the peer sends something: `dispatch` does nothing in any later context.
   */
  lemma LostForever(cx: Context, s: Tcb, seg: Segment, k: nat, isn: SeqNumber, later: Context, emitOk: bool)
    requires Inv(s) && PartlyAcked(s, seg, k)
    ensures var r := Process(cx, s, seg, isn).s;
      && Inv(r) && InFlight(r) && r.tx.length > 0 && !IsRetransmit(r.timer)
      && (CxOk(later, r) ==> Dispatch(later, r, emitOk) == Dispatched(r, None))
  {
    hide Process, Dispatch, SynOk, ShapeOk, Asm.Valid, Asm.Extent;
    ProcessKeepsInv(cx, s, seg, isn);
    PartlyProcessed(cx, s, seg, k, isn);
    var r := Process(cx, s, seg, isn).s;
    assert Forgotten(r);
    if CxOk(later, r) {
      ForgottenForever(later, r, emitOk);
    }
  }
}
