/**
 What an arriving segment does to the clocks of a socket and to what it has told its peer, and what leaves both alone.
 */
module TcpEffect {
  import opened Common
  import opened SeqNumbers
  import opened Tcp
  import opened TcpProcess
  import opened TcpInvariant
  import opened TcpStream
  import opened TcpReceiver
  import opened TcpSide
  import opened TcpPeer
  import opened TcpTimer
  import Asm = AssemblerList

  /** The state machine goes on with the segment: it is heard. */
  predicate Heeded(s: Tcb, seg: Segment)
    requires Inv(s) && WireOk(seg)
  {
    TcpTimer.Taken(s, seg) && GoingArm(s.state, EffectiveControl(s, seg))
  }

  /** It is out of the window, which in TIME-WAIT starts the wait again. */
  predicate OutOfWindow(s: Tcb, seg: Segment)
    requires Inv(s) && WireOk(seg)
  {
    Synchronised(s.state) && CheckAck(s, seg).AckAccept? && !SegmentInWindow(s, seg)
  }

  /** The timer after the segment, in a connection that lasts. */
  predicate TimerMoves(cx: Context, s: Tcb, seg: Segment, r: Tcb)
    requires Inv(s) && WireOk(seg)
  {
    if r.state.TimeWait? && (!s.state.TimeWait? || OutOfWindow(s, seg)) then r.timer == Timer.Close(cx.now + 10_000_000)
    else
      || r.timer == s.timer
      || (Heeded(s, seg) && r.timer == IdleFor(cx.now, s.keepAlive))
      || (Heeded(s, seg) && ThirdDuplicate(s, seg) && r.timer == FastRetransmit)
  }

  /** What the peer was last told is what the reply says, if there is one. */
  predicate Tells(s: Tcb, r: Tcb, reply: Option<Segment>) {
    if reply.Some? && !reply.value.control.Rst? then
      r.remoteLastAck == reply.value.ack && r.remoteLastWin == reply.value.windowLen
    else r.remoteLastAck == s.remoteLastAck && r.remoteLastWin == s.remoteLastWin
  }

  /** The user's settings. */
  predicate SameSettings(s: Tcb, r: Tcb) {
    r.keepAlive == s.keepAlive && r.timeout == s.timeout && r.ackDelay == s.ackDelay && r.nagle == s.nagle
  }

  /** What any segment does in a connection. */
  predicate Effect(cx: Context, s: Tcb, seg: Segment, o: Outcome)
    requires Inv(s) && WireOk(seg)
  {
    && SameSettings(s, o.s) && Tells(s, o.s, o.reply)
    && o.s.remoteLastTs == (if Heeded(s, seg) then Some(cx.now) else s.remoteLastTs)
    && (Synchronised(o.s.state) ==> TimerMoves(cx, s, seg, o.s))
    && (o.s.state.TimeWait? ==> s.state.TimeWait? || Heeded(s, seg))
    && (o.s.timer.Retransmit? ==> o.s.timer == s.timer)
    && (o.s.timer.FastRetransmit? ==> o.s.timer == s.timer || (Heeded(s, seg) && ThirdDuplicate(s, seg)))
    && (o.s.timer.Idle? ==> o.s.timer == s.timer || (Heeded(s, seg) && o.s.timer == IdleFor(cx.now, s.keepAlive)))
  }

  // ---- a segment that passed both tests ----

  lemma MovedClock(cx: Context, s: Tcb, seg: Segment, ack: AckInfo, isn: SeqNumber)
    requires Inv(s) && Synchronised(s.state) && !seg.control.Rst? && (ack.ofFin ==> SentFin(s.state))
    ensures var control := EffectiveControl(s, seg);
      var next := Transition(cx, s, seg, control, ack, isn);
      if next.Stop? then next.s == s && !GoingArm(s.state, control)
      else
        && GoingArm(s.state, control)
        && (if next.s.state.TimeWait? then !s.state.TimeWait? && next.s.timer == Timer.Close(cx.now + 10_000_000)
            else next.s.timer == s.timer || next.s.timer == IdleFor(cx.now, s.keepAlive))
  {
    hide SynOk, Asm.Valid, Asm.Extent, Diff;
  }

  lemma AppliedClock(cx: Context, s: Tcb, seg: Segment, ackLen: nat)
    requires s.tx.Valid() && ackLen <= s.tx.length
    ensures var r := ApplyAck(cx, s, seg, ackLen);
      && SameSettings(s, r) && r.remoteLastAck == s.remoteLastAck && r.remoteLastWin == s.remoteLastWin
      && r.remoteLastTs == Some(cx.now) && r.state == s.state
  {
    hide RemoteWindow, Lt;
  }

  lemma PayloadTells(cx: Context, s: Tcb, seg: Segment, payload: seq<Byte>, offset: nat)
    requires s.rx.Valid() && s.rx.Capacity() <= MAX_RX_CAPACITY
    requires Asm.Valid(s.assembler) && Asm.Extent(s.assembler) <= s.rx.Window()
    requires payload != [] ==> offset + |payload| <= s.rx.Window()
    ensures var o := ApplyPayload(cx, s, seg, payload, offset);
      Tells(s, o.s, o.reply) && (o.reply.Some? ==> !o.reply.value.control.Rst?)
  {
    hide StorePayload, Shr, Diff, Asm.Valid, Asm.Extent;
  }

  lemma AcceptedEffect(cx: Context, s: Tcb, seg: Segment, payload: seq<Byte>, offset: nat, isn: SeqNumber)
    requires Inv(s) && WireOk(seg) && TcpTimer.Taken(s, seg)
    requires payload != [] ==> offset + |payload| <= s.rx.Window()
    ensures Effect(cx, s, seg, ProcessAccepted(cx, s, seg, payload, offset, isn))
  {
    hide CheckAck, AckedBy, SynOk, ShapeOk, StorePayload, ApplyPayload, ApplyAck, TakeRtt, Asm.Valid, Asm.Extent;
    hide Transition, TransitionShape, EffectiveControl, ThirdDuplicate, Lt, SegmentInWindow;
    var s0 := TakeRtt(cx, s, seg);
    TakeRttKeepsInv(cx, s, seg);
    AckedByIgnoresRtt(s, s0, seg);
    ControlIgnoresRtt(s, s0, seg);
    var ack := AckedBy(s, seg);
    SyncTransition(cx, s0, seg, ack, isn);
    AcceptedGoKeepsInv(cx, s, seg, isn);
    AckFacts(s, seg);
    MovedClock(cx, s0, seg, ack, isn);
    var next := Transition(cx, s0, seg, EffectiveControl(s, seg), ack, isn);
    if next.Go? {
      ShapeOf(s0, next.s, ack);
      var s2 := ApplyAck(cx, next.s, seg, ack.len);
      AppliedTimer(cx, s, next.s, seg, ack.len);
      AppliedClock(cx, next.s, seg, ack.len);
      ApplyPayloadFrame(cx, s2, seg, payload, offset);
      PayloadTells(cx, s2, seg, payload, offset);
      if s2.state.TimeWait? && ThirdDuplicate(s, seg) {
        NothingInFlight(s2);
        DuplicateInFlight(s, seg);
      }
    }
  }

  lemma DuplicateInFlight(s: Tcb, seg: Segment)
    requires Inv(s) && CheckAck(s, seg).AckAccept? && !seg.control.Rst? && Synchronised(s.state)
    requires ThirdDuplicate(s, seg)
    ensures seg.ack.Some? && !Lt(s.remoteLastSeq, seg.ack.value) && s.remoteLastSeq != seg.ack.value
  {
  }

  // ---- any segment ----

  lemma ChallengeEffect(cx: Context, s: Tcb, seg: Segment)
    requires s.rx.Valid() && s.rx.Capacity() <= MAX_RX_CAPACITY
    ensures var o := ChallengeAckReply(cx, s, seg);
      && o.s == s.(challengeAckAt := o.s.challengeAckAt, remoteLastAck := o.s.remoteLastAck,
                   remoteLastWin := o.s.remoteLastWin)
      && Tells(s, o.s, o.reply)
  {
    hide Shr, Diff;
  }

  lemma RstEffect(cx: Context, s: Tcb, seg: Segment, payload: seq<Byte>, offset: nat, isn: SeqNumber)
    requires Inv(s) && WireOk(seg) && Synchronised(s.state) && CheckAck(s, seg).AckAccept? && seg.control.Rst?
    requires payload != [] ==> offset + |payload| <= s.rx.Window()
    ensures Effect(cx, s, seg, ProcessAccepted(cx, s, seg, payload, offset, isn))
  {
    hide CheckAck, SynOk, ShapeOk, SegmentInWindow, EffectiveControl, ThirdDuplicate, Asm.Valid, Asm.Extent;
    RstOutcome(cx, s, seg, payload, offset, isn);
  }

  /**
   Any segment in a connection: the clock of the user timeout starts again exactly if the state machine goes on with
   it; a retransmit timer is not moved; TIME-WAIT lasts ten seconds from the segment that led to it or the last that
   was out of the window; and what the peer was last told changes exactly by a reply.
   */
  lemma ArriveEffect(cx: Context, s: Tcb, seg: Segment, isn: SeqNumber)
    requires Inv(s) && Synchronised(s.state) && Accepts(s, seg) && WireOk(seg)
    ensures Effect(cx, s, seg, Process(cx, s, seg, isn))
  {
    hide CheckAck, SynOk, ShapeOk, ProcessAccepted, SegmentInWindow, Overlap, ChallengeAckReply, RstReply;
    hide Asm.Valid, Asm.Extent, SegmentAt, ThirdDuplicate, EffectiveControl;
    match CheckAck(s, seg)
    case AckIgnore =>
    case AckReset => RstReplyIsRst(seg);
    case AckChallenge => ChallengeEffect(cx, s, seg);
    case AckAccept =>
      if SegmentInWindow(s, seg) {
        var (payload, offset) := Overlap(s, seg);
        if seg.control.Rst? {
          RstEffect(cx, s, seg, payload, offset, isn);
        } else {
          AcceptedEffect(cx, s, seg, payload, offset, isn);
        }
      } else if s.state.TimeWait? {
        ChallengeEffect(cx, s.(timer := Timer.Close(cx.now + CLOSE_DELAY)), seg);
      } else {
        ChallengeEffect(cx, s, seg);
      }
  }

  lemma RstReplyIsRst(seg: Segment)
    requires WireOk(seg)
    ensures RstReply(seg).control.Rst?
  {
  }

  // ---- a socket that waits for a SYN ----

  /** A SYN that opens the connection is heard, and everything else is not. */
  predicate OpeningEffect(cx: Context, s: Tcb, seg: Segment, o: Outcome) {
    && SameSettings(s, o.s) && (o.reply.Some? ==> o.reply.value.control.Rst?)
    && (if Opens(s, seg) then
          && o.s.timer == IdleFor(cx.now, s.keepAlive) && o.s.remoteLastTs == Some(cx.now)
          && o.s.remoteLastWin == s.remoteLastWin
          && o.s.remoteLastAck == (if s.state.SynSent? then Some(seg.seqNo) else s.remoteLastAck)
        else
          && o.s.timer == s.timer && o.s.remoteLastTs == s.remoteLastTs && !Synchronised(o.s.state)
          && o.s.remoteLastWin == s.remoteLastWin && o.s.remoteLastAck == s.remoteLastAck)
  }

  lemma ArriveOpens(cx: Context, s: Tcb, seg: Segment, isn: SeqNumber)
    requires Inv(s) && (s.state.Listen? || s.state.SynSent?) && Accepts(s, seg) && WireOk(seg)
    ensures OpeningEffect(cx, s, seg, Process(cx, s, seg, isn))
  {
    hide SynOk, ShapeOk, Asm.Valid, Asm.Extent, ProcessAccepted, SegmentInWindow, Overlap;
    if CheckAck(s, seg).AckAccept? {
      OpeningAccepted(cx, s, seg, isn);
    }
  }

  lemma OpeningAccepted(cx: Context, s: Tcb, seg: Segment, isn: SeqNumber)
    requires Inv(s) && (s.state.Listen? || s.state.SynSent?) && Accepts(s, seg) && WireOk(seg)
    requires CheckAck(s, seg).AckAccept?
    ensures OpeningEffect(cx, s, seg, ProcessAccepted(cx, s, seg, [], 0, isn))
  {
    hide SynOk, ShapeOk, Asm.Valid, Asm.Extent, AckedBy, CheckAck, ApplyAck, OnListenSyn, OnSynSentSyn;
    if seg.control.Rst? {
      RstOutcome(cx, s, seg, [], 0, isn);
    } else if seg.control.Syn? {
      if s.state.SynSent? {
        ConnectOpens(cx, TakeRtt(cx, s, seg), seg);
        SynAckNumber(s, seg);
      } else {
        ListenOpens(cx, s, seg, isn);
        NoAckLen(s, seg);
      }
    } else {
      TakeRttKeepsInv(cx, s, seg);
      UnsynchronisedStops(cx, TakeRtt(cx, s, seg), seg, AckedBy(s, seg), isn);
    }
  }

  lemma ListenOpens(cx: Context, s: Tcb, seg: Segment, isn: SeqNumber)
    requires Inv(s) && s.state.Listen? && seg.ack.None?
    ensures var next := OnListenSyn(cx, s, seg, isn);
      && (next.Stop? <==> seg.maxSegSize == Some(0)) && next.s.tx == s.tx && (next.Stop? ==> next.s == s)
      && (next.Go? ==>
            var r := ApplyAck(cx, next.s, seg, 0);
            && SameSettings(s, r) && r.timer == IdleFor(cx.now, s.keepAlive) && r.remoteLastTs == Some(cx.now)
            && r.remoteLastWin == s.remoteLastWin && r.remoteLastAck == s.remoteLastAck)
  {
    hide Inv, RemoteWindow;
    InvIsWf(s);
  }

  lemma ConnectOpens(cx: Context, s: Tcb, seg: Segment)
    requires Wf(s) && s.state.SynSent?
    ensures var next := OnSynSentSyn(cx, s, seg);
      && (next.Stop? <==> seg.maxSegSize == Some(0)) && next.s.tx == s.tx && (next.Stop? ==> next.s == s)
      && (next.Go? && seg.ack == Some(Add(s.localSeq, 1)) ==>
            var r := ApplyAck(cx, next.s, seg, 0);
            && SameSettings(s, r) && r.timer == IdleFor(cx.now, s.keepAlive) && r.remoteLastTs == Some(cx.now)
            && r.remoteLastWin == s.remoteLastWin && r.remoteLastAck == Some(seg.seqNo))
  {
    hide Wf, RemoteWindow;
  }
}
