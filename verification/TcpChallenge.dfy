/** Challenge ACKs: at most one a second in a connection, whatever arrives. */
module TcpChallenge {
  import opened Common
  import opened SeqNumbers
  import opened RingBuffer
  import opened Tcp
  import opened TcpProcess
  import opened TcpDispatch
  import opened TcpInvariant
  import opened TcpStream
  import opened TcpReceiver
  import opened TcpSide
  import opened TcpEdge
  import Asm = AssemblerList

  /** How much can be acknowledged: what is queued, and a FIN that is wanted. */
  function MostAcked(s: Tcb): nat {
    s.tx.length + if SentFin(s.state) then 1 else 0
  }

  /** The acknowledgement is of what was or may be sent; a reset need not have one. */
  predicate AckInRange(s: Tcb, seg: Segment) {
    || seg.control.Rst?
    || (seg.ack.Some? &&
          if s.state.SynReceived? then seg.ack.value == Add(s.localSeq, 1)
          else 0 <= Diff(seg.ack.value, s.localSeq) <= MostAcked(s))
  }

  /** It is of more than that. */
  predicate AckBeyond(s: Tcb, seg: Segment) {
    && !seg.control.Rst? && !s.state.SynReceived?
    && seg.ack.Some? && Diff(seg.ack.value, s.localSeq) > MostAcked(s)
  }

  /**
   The segment is unacceptable in a way that calls for an acknowledgement: it acknowledges what was not sent, or lies
   outside the window by the table of the RFC.
   */
  predicate CallsForAck(s: Tcb, seg: Segment)
    requires Inv(s) && WireOk(seg)
  {
    && Synchronised(s.state)
    && (|| AckBeyond(s, seg)
        || (AckInRange(s, seg) && !RfcAcceptable(SegmentAt(s, seg), |seg.payload|, s.rx.Window())))
  }

  /** Which acknowledgements a connection takes, and which it answers. */
  lemma AckVerdict(s: Tcb, seg: Segment)
    requires Inv(s) && Synchronised(s.state)
    ensures CheckAck(s, seg).AckAccept? <==> AckInRange(s, seg)
    ensures CheckAck(s, seg).AckChallenge? <==> AckBeyond(s, seg)
    ensures CheckAck(s, seg).AckReset? <==>
      s.state.SynReceived? && !seg.control.Rst? && seg.ack.Some? && seg.ack.value != Add(s.localSeq, 1)
  {
    hide SynOk, ShapeOk, Asm.Valid, Asm.Extent;
  }

  lemma CallsExactly(s: Tcb, seg: Segment)
    requires Inv(s) && Accepts(s, seg) && WireOk(seg)
    ensures CallsForAck(s, seg) <==>
      || CheckAck(s, seg).AckChallenge?
      || (CheckAck(s, seg).AckAccept? && !s.state.Listen? && !s.state.SynSent? && !SegmentInWindow(s, seg))
  {
    hide SynOk, ShapeOk, Asm.Valid, Asm.Extent, SegmentInWindow, AckInRange, AckBeyond, SegmentAt;
    AcceptanceIsRfc(s, seg);
    if Synchronised(s.state) {
      AckVerdict(s, seg);
      hide CheckAck;
    }
  }

  /**
   It gets one exactly if the last is at least a second ago, with our next number and what we expect, and all it changes
   is what was told to the peer.
   */
  lemma ChallengeAnswers(cx: Context, s: Tcb, seg: Segment, isn: SeqNumber)
    requires Inv(s) && Accepts(s, seg) && WireOk(seg) && CallsForAck(s, seg)
    ensures var r := Process(cx, s, seg, isn);
      && (r.reply.Some? <==> s.challengeAckAt <= cx.now)
      && r.s.challengeAckAt == (if r.reply.Some? then cx.now + 1_000_000 else s.challengeAckAt)
      && r.s.rx == s.rx && r.s.tx == s.tx && r.s.state == s.state && r.s.localSeq == s.localSeq
      && r.s.remoteSeq == s.remoteSeq
      && (r.reply.Some? ==> r.reply.value.seqNo == s.remoteLastSeq && r.reply.value.ack == Some(NextExpected(s)))
  {
    hide CheckAck, SegmentInWindow, ProcessAccepted, Overlap, SynOk, ShapeOk, Asm.Valid, Asm.Extent, CallsForAck;
    hide ScaledWindow;
    CallsExactly(s, seg);
  }

  predicate Challenged(s: Tcb, op: Op)
    requires Inv(s)
  {
    op.Arrive? && Accepts(s, op.seg) && WireOk(op.seg) && CallsForAck(s, op.seg) && s.challengeAckAt <= op.cx.now
  }

  lemma AcceptedSpares(cx: Context, s: Tcb, seg: Segment, payload: seq<Byte>, offset: nat, isn: SeqNumber)
    requires Inv(s) && Synchronised(s.state) && WireOk(seg) && CheckAck(s, seg).AckAccept?
    requires payload != [] ==> offset + |payload| <= s.rx.Window()
    ensures ProcessAccepted(cx, s, seg, payload, offset, isn).s.challengeAckAt == s.challengeAckAt
  {
    hide CheckAck, AckedBy, SynOk, ShapeOk, StorePayload, ApplyPayload, TakeRtt, Asm.Valid, Asm.Extent;
    hide EffectiveControl, Transition, RemoteWindow;
    var s0 := TakeRtt(cx, s, seg);
    TakeRttKeepsInv(cx, s, seg);
    AckedByIgnoresRtt(s, s0, seg);
    ControlIgnoresRtt(s, s0, seg);
    var ack := AckedBy(s, seg);
    if seg.control.Rst? {
      RstOutcome(cx, s, seg, payload, offset, isn);
    } else {
      SyncTransition(cx, s0, seg, ack, isn);
      AcceptedGoKeepsInv(cx, s, seg, isn);
      var next := Transition(cx, s0, seg, EffectiveControl(s, seg), ack, isn);
      if next.Go? {
        ApplyPayloadFrame(cx, ApplyAck(cx, next.s, seg, ack.len), seg, payload, offset);
      }
    }
  }

  lemma ArriveSpares(cx: Context, s: Tcb, seg: Segment, isn: SeqNumber)
    requires Inv(s) && Synchronised(s.state) && Accepts(s, seg) && WireOk(seg) && !CallsForAck(s, seg)
    ensures Process(cx, s, seg, isn).s.challengeAckAt == s.challengeAckAt
  {
    hide CheckAck, SegmentInWindow, ProcessAccepted, Overlap, SynOk, ShapeOk, Asm.Valid, Asm.Extent, CallsForAck;
    CallsExactly(s, seg);
    if CheckAck(s, seg).AckAccept? {
      var (payload, offset) := Overlap(s, seg);
      AcceptedSpares(cx, s, seg, payload, offset, isn);
    }
  }

  lemma DispatchSpares(cx: Context, s: Tcb, emitOk: bool)
    requires Inv(s) && CxOk(cx, s) && Synchronised(Dispatch(cx, s, emitOk).s.state)
    ensures Dispatch(cx, s, emitOk).s.challengeAckAt == s.challengeAckAt
  {
    hide SynOk, ShapeOk, Wf, BeforeSend, WhatToDo, AfterSend, Outgoing, InitialShift;
    if s.tuple.Some? {
      BeforeSendKeepsInv(cx, s);
      BeforeSendFrame(cx, s);
      var s1 := BeforeSend(cx, s);
      if WhatToDo(cx, s1).SendSegment? {
        AfterSendFrame(cx, s1);
      }
    }
  }

  lemma OpSpares(s: Tcb, op: Op)
    requires Inv(s) && Synchronised(s.state) && Synchronised(Apply(s, op).state)
    ensures Apply(s, op).challengeAckAt == if Challenged(s, op) then op.cx.now + 1_000_000 else s.challengeAckAt
  {
    hide SynOk, ShapeOk, Process, Dispatch, Asm.Valid, Asm.Extent, CallsForAck, EnqueueSlice, Dequeue, InitialShift;
    match op
    case Arrive(cx, seg, isn) =>
      if Accepts(s, seg) && WireOk(seg) {
        if CallsForAck(s, seg) {
          ChallengeAnswers(cx, s, seg, isn);
        } else {
          ArriveSpares(cx, s, seg, isn);
        }
      }
    case Egress(cx, emitOk) =>
      if CxOk(cx, s) {
        DispatchSpares(cx, s, emitOk);
      }
    case _ =>
  }

  /** When challenge ACKs are sent in a run. */
  function ChallengeTimes(s: Tcb, ops: seq<Op>): seq<int>
    requires Inv(s)
    decreases |ops|
  {
    if ops == [] then []
    else
      ApplyKeepsInv(s, ops[0]);
      (if Challenged(s, ops[0]) then [ops[0].cx.now] else []) + ChallengeTimes(Apply(s, ops[0]), ops[1..])
  }

  predicate Spaced(times: seq<int>, from: int) {
    && (forall i :: 0 <= i < |times| ==> from <= times[i])
    && (forall i, j :: 0 <= i < j < |times| ==> times[i] + 1_000_000 <= times[j])
  }

  /** Over every run of a connection, even one whose clock goes back: no two within a second. */
  lemma {:induction false} ChallengesAreSpaced(s: Tcb, ops: seq<Op>)
    requires Inv(s) && Lasts(s, ops)
    ensures Spaced(ChallengeTimes(s, ops), s.challengeAckAt)
    decreases |ops|
  {
    hide Inv, Apply;
    if ops != [] {
      var r := Apply(s, ops[0]);
      ApplyKeepsInv(s, ops[0]);
      assert Lasts(r, ops[1..]);
      LastsNow(r, ops[1..]);
      OpSpares(s, ops[0]);
      ChallengesAreSpaced(r, ops[1..]);
    }
  }

  lemma LastsNow(s: Tcb, ops: seq<Op>)
    requires Inv(s) && Lasts(s, ops)
    ensures Synchronised(s.state)
  {
    hide Inv, Apply;
  }
}
