/**
 The right edge of the receive window never moves back while a connection lasts, whatever arrives. So a
 segment that lies within any window ever advertised is never cut on the right, however late it comes.
 */
module TcpEdge {
  import opened Common
  import opened SeqNumbers
  import opened Tcp
  import opened TcpProcess
  import opened TcpDispatch
  import opened TcpPoll
  import opened TcpWindow
  import opened TcpInvariant
  import opened TcpStream
  import opened TcpSide
  import Asm = AssemblerList

  /** How far one event moves `remoteSeq`: by the octets read, or past the peer's FIN. */
  function Moved(s: Tcb, op: Op): nat
    requires Inv(s)
  {
    match op
    case Recv(size) => if MayRecv(s) then MinOf(size, s.rx.length) else 0
    case Arrive(_, _, _) => if Apply(s, op).remoteSeq == s.remoteSeq then 0 else 1
    case _ => 0
  }

  predicate Follows(s: Tcb, r: Tcb, n: nat) {
    n <= I32_MAX && r.rx.Capacity() == s.rx.Capacity() && r.remoteSeq == Add(s.remoteSeq, n)
  }

  lemma ArriveMoves(cx: Context, s: Tcb, seg: Segment, isn: SeqNumber)
    requires Inv(s) && Synchronised(s.state) && Accepts(s, seg) && WireOk(seg)
    ensures var r := Process(cx, s, seg, isn).s;
      r.rx.Capacity() == s.rx.Capacity() && (r.remoteSeq == s.remoteSeq || r.remoteSeq == Add(s.remoteSeq, 1))
  {
    hide ProcessAccepted, SegmentInWindow, SynOk, ShapeOk, CheckAck;
    if CheckAck(s, seg).AckAccept? && SegmentInWindow(s, seg) {
      var (payload, offset) := Overlap(s, seg);
      AcceptedMoves(cx, s, seg, payload, offset, isn);
    }
  }

  lemma AcceptedMoves(cx: Context, s: Tcb, seg: Segment, payload: seq<Byte>, offset: nat, isn: SeqNumber)
    requires Inv(s) && Synchronised(s.state) && WireOk(seg) && CheckAck(s, seg).AckAccept?
    requires payload != [] ==> offset + |payload| <= s.rx.Window()
    ensures var r := ProcessAccepted(cx, s, seg, payload, offset, isn).s;
      r.rx.Capacity() == s.rx.Capacity() && (r.remoteSeq == s.remoteSeq || r.remoteSeq == Add(s.remoteSeq, 1))
  {
    hide CheckAck, AckedBy, SynOk, ShapeOk, StorePayload, ApplyPayload, ApplyAck, TakeRtt, Asm.Valid, Asm.Extent;
    hide EffectiveControl, Transition, TransitionShape;
    var s0 := TakeRtt(cx, s, seg);
    TakeRttKeepsInv(cx, s, seg);
    AckedByIgnoresRtt(s, s0, seg);
    ControlIgnoresRtt(s, s0, seg);
    var ack := AckedBy(s, seg);
    if seg.control.Rst? {
      RstMoves(cx, s0, seg, ack, isn);
    } else {
      SyncTransition(cx, s0, seg, ack, isn);
      var next := Transition(cx, s0, seg, EffectiveControl(s, seg), ack, isn);
      if next.Go? {
        ApplyAckMoves(cx, next.s, seg, ack.len);
        ApplyPayloadFrame(cx, ApplyAck(cx, next.s, seg, ack.len), seg, payload, offset);
      }
    }
  }

  lemma RstMoves(cx: Context, s: Tcb, seg: Segment, ack: AckInfo, isn: SeqNumber)
    requires Inv(s) && seg.control.Rst?
    ensures var next := Transition(cx, s, seg, EffectiveControl(s, seg), ack, isn);
      next.Stop? && next.s.remoteSeq == s.remoteSeq
  {
  }

  lemma ApplyAckMoves(cx: Context, s: Tcb, seg: Segment, ackLen: nat)
    requires s.tx.Valid() && ackLen <= s.tx.length
    ensures ApplyAck(cx, s, seg, ackLen).remoteSeq == s.remoteSeq
  {
  }

  lemma EgressMoves(cx: Context, s: Tcb, emitOk: bool)
    requires Inv(s) && CxOk(cx, s) && Synchronised(s.state)
    ensures var r := Dispatch(cx, s, emitOk).s;
      Synchronised(r.state) ==> r.rx.Capacity() == s.rx.Capacity() && r.remoteSeq == s.remoteSeq
  {
    hide SynOk, ShapeOk, BeforeSend, WhatToDo, AfterSend, Outgoing, InitialShift, Asm.Valid, Asm.Extent;
    if s.tuple.Some? {
      BeforeSendKeepsInv(cx, s);
      BeforeSendFrame(cx, s);
      var s1 := BeforeSend(cx, s);
      if WhatToDo(cx, s1).SendSegment? {
        AfterSendFrame(cx, s1);
      }
    }
  }

  /** One event moves the right edge forward or not at all. */
  lemma EdgeMoves(s: Tcb, op: Op)
    requires Inv(s) && Synchronised(s.state) && Synchronised(Apply(s, op).state)
    ensures Follows(s, Apply(s, op), Moved(s, op))
  {
    hide SynOk, ShapeOk, Process, Dispatch, Asm.Valid, Asm.Extent;
    match op
    case Arrive(cx, seg, isn) =>
      if Accepts(s, seg) && WireOk(seg) {
        ArriveMoves(cx, s, seg, isn);
      }
    case Egress(cx, emitOk) =>
      if CxOk(cx, s) {
        EgressMoves(cx, s, emitOk);
      }
    case _ =>
  }

  /** The connection lasts through all of `ops`. */
  predicate Lasts(s: Tcb, ops: seq<Op>)
    requires Inv(s)
    decreases |ops|
  {
    Synchronised(s.state) && (ops != [] ==> (ApplyKeepsInv(s, ops[0]); Lasts(Apply(s, ops[0]), ops[1..])))
  }

  /** The right edge as an unbounded position, followed along a run. */
  function EdgeAfter(s: Tcb, edge: nat, ops: seq<Op>): nat
    requires Inv(s)
    decreases |ops|
  {
    if ops == [] then edge
    else
      ApplyKeepsInv(s, ops[0]);
      EdgeAfter(Apply(s, ops[0]), edge + Moved(s, ops[0]), ops[1..])
  }

  lemma EdgeFollows(s: Tcb, r: Tcb, edge: nat, n: nat)
    requires s.rx.Valid() && r.rx.Valid() && s.rx.Capacity() <= MAX_RX_CAPACITY
    requires Wrap(edge) == WindowEnd(s) && Follows(s, r, n)
    ensures Wrap(edge + n) == WindowEnd(r)
  {
    WrapAdd(edge, n);
  }

  lemma {:induction false} EdgeNeverMovesBack(s: Tcb, edge: nat, ops: seq<Op>)
    requires Inv(s) && Lasts(s, ops) && Wrap(edge) == WindowEnd(s)
    ensures var r := Run(s, ops);
      && Inv(r) && Synchronised(r.state) && r.rx.Capacity() == s.rx.Capacity()
      && edge <= EdgeAfter(s, edge, ops) && WindowEnd(r) == Wrap(EdgeAfter(s, edge, ops))
    decreases |ops|
  {
    hide SynOk, ShapeOk, Apply, Wrap, Asm.Valid, Asm.Extent, WindowEnd, Moved;
    if ops != [] {
      var r := Apply(s, ops[0]);
      ApplyKeepsInv(s, ops[0]);
      assert Lasts(r, ops[1..]);
      EdgeMoves(s, ops[0]);
      EdgeFollows(s, r, edge, Moved(s, ops[0]));
      EdgeNeverMovesBack(r, edge + Moved(s, ops[0]), ops[1..]);
    }
  }

  lemma EndsInside(s: Tcb, seg: Segment, edge: nat, at: nat)
    requires Inv(s) && WireOk(seg) && Wrap(edge) == WindowEnd(s)
    requires seg.seqNo == Wrap(at) && at + |seg.payload| <= edge && edge - at <= HALF
    ensures SegmentAt(s, seg) + |seg.payload| <= s.rx.Window()
  {
    WrapDiff(at, edge);
  }

  /**
   A segment that ended inside the window when `s` was reached is never cut on the right, at any later
   point of the connection, unless it is more than half the sequence space old.
   */
  lemma InsideStaysInside(s: Tcb, edge: nat, ops: seq<Op>, seg: Segment, at: nat)
    requires Inv(s) && Lasts(s, ops) && Wrap(edge) == WindowEnd(s)
    requires WireOk(seg) && seg.seqNo == Wrap(at) && at + |seg.payload| <= edge
    requires EdgeAfter(s, edge, ops) - at <= HALF
    ensures TakenWhole(TcpInvariant.Run(s, ops), seg)
  {
    hide SynOk, ShapeOk, Apply, Wrap, Asm.Valid, Asm.Extent, WindowEnd, Moved, SegmentInWindow, Overlap, SegmentAt;
    hide EdgeAfter, TcpInvariant.Run;
    EdgeNeverMovesBack(s, edge, ops);
    var r := TcpInvariant.Run(s, ops);
    EndsInside(r, seg, EdgeAfter(s, edge, ops), at);
    if SegmentInWindow(r, seg) {
      InsideIsNotCut(r, seg);
    }
  }

  /** If the segment is acceptable, its payload is kept to its last octet. */
  predicate TakenWhole(s: Tcb, seg: Segment) {
    && Inv(s)
    && (WireOk(seg) && SegmentInWindow(s, seg) ==>
          var (payload, offset) := Overlap(s, seg);
          |payload| <= |seg.payload| && payload == seg.payload[|seg.payload| - |payload|..])
  }

  // ---- what was emitted ----

  /** The segment this event sends, on its own or in reply. */
  predicate Emits(s: Tcb, op: Op, out: Segment)
    requires Inv(s)
  {
    match op
    case Arrive(cx, seg, isn) => Accepts(s, seg) && WireOk(seg) && Process(cx, s, seg, isn).reply == Some(out)
    case Egress(cx, emitOk) => CxOk(cx, s) && Dispatch(cx, s, emitOk).out == Some(out)
    case _ => false
  }

  lemma AcceptedPromises(cx: Context, s: Tcb, seg: Segment, payload: seq<Byte>, offset: nat, isn: SeqNumber)
    requires Inv(s) && WireOk(seg) && CheckAck(s, seg).AckAccept? && !s.state.Closed?
    requires s.state.Listen? ==> seg.ack.None?
    requires payload != [] ==> offset + |payload| <= s.rx.Window()
    ensures var r := ProcessAccepted(cx, s, seg, payload, offset, isn);
      && r.s.rx.Valid() && r.s.rx.Capacity() <= MAX_RX_CAPACITY
      && (r.reply.Some? ==> Promises(r.s, r.reply.value))
  {
    hide CheckAck, SynOk, ShapeOk, AckedBy, EffectiveControl, Transition, TakeRtt;
    hide ApplyAck, ApplyPayload, StorePayload, Asm.Valid, Asm.Extent, AckSegment, Promises;
    var s0 := TakeRtt(cx, s, seg);
    AcceptedGoKeepsInv(cx, s, seg, isn);
    var ack := AckedBy(s, seg);
    var next := Transition(cx, s0, seg, EffectiveControl(s, seg), ack, isn);
    if next.Go? {
      var s2 := ApplyAck(cx, next.s, seg, ack.len);
      ApplyPayloadFrame(cx, s2, seg, payload, offset);
      AckSegmentPromises(ApplyPayload(cx, s2, seg, payload, offset).s, seg);
    }
  }

  lemma ChallengePromises(cx: Context, s: Tcb, seg: Segment)
    requires s.rx.Valid() && s.rx.Capacity() <= MAX_RX_CAPACITY
    ensures var r := ChallengeAckReply(cx, s, seg); r.reply.Some? ==> Promises(r.s, r.reply.value)
  {
    hide Shl, Shr;
    AckSegmentPromises(s, seg);
  }

  lemma ReplyPromises(cx: Context, s: Tcb, seg: Segment, isn: SeqNumber)
    requires Inv(s) && Accepts(s, seg) && WireOk(seg)
    ensures var r := Process(cx, s, seg, isn);
      && r.s.rx.Valid() && r.s.rx.Capacity() <= MAX_RX_CAPACITY
      && (r.reply.Some? ==> r.reply.value.control.Rst? || Promises(r.s, r.reply.value))
  {
    hide CheckAck, SynOk, ShapeOk, ProcessAccepted, SegmentInWindow, Overlap, ChallengeAckReply, Promises;
    hide Asm.Valid, Asm.Extent, SegmentAt;
    ProcessKeepsInv(cx, s, seg, isn);
    match CheckAck(s, seg)
    case AckIgnore =>
    case AckReset =>
    case AckChallenge => ChallengePromises(cx, s, seg);
    case AckAccept =>
      if s.state.Listen? || s.state.SynSent? {
        AcceptedPromises(cx, s, seg, [], 0, isn);
      } else if SegmentInWindow(s, seg) {
        var (payload, offset) := Overlap(s, seg);
        AcceptedPromises(cx, s, seg, payload, offset, isn);
      } else {
        ChallengePromises(cx, if s.state.TimeWait? then s.(timer := Timer.Close(cx.now + CLOSE_DELAY)) else s, seg);
      }
  }

  lemma SamePromise(s: Tcb, r: Tcb, out: Segment)
    requires s.rx.Valid() && s.rx.Capacity() <= MAX_RX_CAPACITY && Promises(s, out)
    requires r.rx == s.rx && r.remoteSeq == s.remoteSeq && r.remoteWinShift == s.remoteWinShift
    ensures Promises(r, out)
  {
  }

  lemma DispatchPromises(cx: Context, s: Tcb, emitOk: bool)
    requires Inv(s) && CxOk(cx, s)
    ensures var d := Dispatch(cx, s, emitOk);
      Inv(d.s) && (d.out.Some? ==> Promises(d.s, d.out.value))
  {
    hide SynOk, ShapeOk, BeforeSend, WhatToDo, AfterSend, Outgoing, InitialShift, Asm.Valid, Asm.Extent, Promises;
    DispatchKeepsInv(cx, s, emitOk);
    if s.tuple.Some? {
      BeforeSendKeepsInv(cx, s);
      var s1 := BeforeSend(cx, s);
      if WhatToDo(cx, s1).SendSegment? {
        OutgoingPromises(cx, s1);
        AfterSendFrame(cx, s1);
        SamePromise(s1, AfterSend(cx, s1), Outgoing(cx, s1));
      }
    }
  }

  lemma EmitsPromise(s: Tcb, op: Op, out: Segment)
    requires Inv(s) && Emits(s, op, out) && !out.control.Rst?
    ensures Inv(Apply(s, op)) && Promises(Apply(s, op), out)
  {
    hide SynOk, ShapeOk, Process, Dispatch, Asm.Valid, Asm.Extent, Promises;
    ApplyKeepsInv(s, op);
    match op
    case Arrive(cx, seg, isn) => ReplyPromises(cx, s, seg, isn);
    case Egress(cx, emitOk) => DispatchPromises(cx, s, emitOk);
  }

  /** Acknowledgement and window of an emitted segment do not reach past the edge. */
  lemma PromiseEdge(s: Tcb, out: Segment, ack: nat)
    requires Inv(s) && Promises(s, out) && out.ack.Some? && Wrap(ack) == out.ack.value
    ensures Wrap(ack + s.rx.Window()) == WindowEnd(s)
    ensures Shl(out.windowLen, AppliedShift(s, out)) <= s.rx.Window()
  {
    hide SynOk, ShapeOk, Asm.Valid, Asm.Extent, Shl;
    WrapAdd(ack, s.rx.Window());
  }

  /**
   Whatever window was ever advertised is honoured: if a socket has emitted `out`, acknowledging position `ack`,
   then a segment that ends within `ack` plus the window of `out`, as the peer computes it, is never cut on the
   right, at any later point of the connection, unless it is more than half the sequence space old.
   */
  lemma AdvertisedIsHonoured(s: Tcb, op: Op, out: Segment, ack: nat, ops: seq<Op>, seg: Segment, at: nat)
    requires Inv(s) && Emits(s, op, out) && !out.control.Rst? && out.ack.Some? && Wrap(ack) == out.ack.value
    requires Inv(Apply(s, op)) && Lasts(Apply(s, op), ops)
    requires WireOk(seg) && seg.seqNo == Wrap(at)
    requires at + |seg.payload| <= ack + Shl(out.windowLen, AppliedShift(Apply(s, op), out))
    requires EdgeAfter(Apply(s, op), ack + Apply(s, op).rx.Window(), ops) - at <= HALF
    ensures TakenWhole(TcpInvariant.Run(Apply(s, op), ops), seg)
  {
    hide SynOk, ShapeOk, Asm.Valid, Asm.Extent, Apply, Wrap, WindowEnd, EdgeAfter, TcpInvariant.Run, Lasts, Emits;
    hide Promises, TakenWhole, Shl;
    EmitsPromise(s, op, out);
    PromiseEdge(Apply(s, op), out, ack);
    InsideStaysInside(Apply(s, op), ack + Apply(s, op).rx.Window(), ops, seg, at);
  }
}
