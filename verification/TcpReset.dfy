/** Resets reach their target: a segment that is answered with one ends the connection that sent it. */
module TcpReset {
  import opened Common
  import opened SeqNumbers
  import opened Tcp
  import opened TcpProcess
  import opened TcpDispatch
  import opened TcpPoll
  import opened TcpInvariant
  import opened TcpStream
  import opened TcpReceiver
  import opened TcpPeer
  import opened TcpTold
  import Asm = AssemblerList

  /** The connection is gone; a listener is back where it was. */
  predicate Gone(s: Tcb, r: Tcb) {
    r.tuple.None? && (if s.state.SynReceived? then r.state.Listen? else r.state.Closed?)
  }

  /** A reset at the window start is taken. */
  lemma ResetIsTaken(cx: Context, s: Tcb, rst: Segment, isn: SeqNumber)
    requires Inv(s) && Synchronised(s.state) && Accepts(s, rst) && WireOk(rst) && rst.control.Rst? && rst.payload == []
    requires rst.seqNo == NextExpected(s)
    ensures Gone(s, Process(cx, s, rst, isn).s)
  {
    hide SynOk, ShapeOk, Asm.Valid, Asm.Extent, ProcessAccepted, Overlap, SegmentInWindow, NextExpected;
    DiffZero(rst.seqNo, NextExpected(s));
    AcceptanceIsRfc(s, rst);
    hide Diff;
    var (payload, offset) := Overlap(s, rst);
    RstOutcome(cx, s, rst, payload, offset, isn);
  }

  lemma ReplyFor(out: Segment)
    requires WireOk(out) && out.ack.Some?
    ensures var rst := RstReply(out);
      && WireOk(rst) && rst.control.Rst? && rst.payload == [] && rst.seqNo == out.ack.value
      && rst.src == out.dst && rst.dst == out.src
  {
  }

  lemma StillExpects(cx: Context, s: Tcb, emitOk: bool)
    requires Inv(s) && CxOk(cx, s) && Synchronised(s.state)
    ensures var d := Dispatch(cx, s, emitOk);
      d.out.Some? && Synchronised(d.s.state) ==>
        && d.s.rx == s.rx && NextExpected(d.s) == NextExpected(s) && d.s.tuple == s.tuple && d.s.state == s.state
        && s.tuple == Some(Tuple(d.out.value.src, d.out.value.dst)) && d.out.value.ack == Some(NextExpected(s))
  {
    hide SynOk, ShapeOk, Asm.Valid, Asm.Extent, BeforeSend, WhatToDo, AfterSend, Outgoing, InitialShift, NextExpected;
    ConnectedTuple(s);
    DispatchAddress(cx, s, emitOk);
    BeforeSendKeepsInv(cx, s);
    BeforeSendFrame(cx, s);
    var s1 := BeforeSend(cx, s);
    if WhatToDo(cx, s1).SendSegment? {
      AfterSendFrame(cx, s1);
      if Synchronised(s1.state) {
        Acknowledges(cx, s1);
        SameDue(s, s1);
        SameExpected(s1, AfterSend(cx, s1));
      }
    }
  }

  lemma SameExpected(s: Tcb, r: Tcb)
    requires s.rx.Valid() && s.rx.Capacity() <= MAX_RX_CAPACITY && r.rx == s.rx && r.remoteSeq == s.remoteSeq
    ensures NextExpected(r) == NextExpected(s)
  {
  }

  /**
   Whatever a connection sends, a reset in reply to it ends the connection, as long as nothing more has been received
   meanwhile.
   */
  lemma ResetEnds(cx: Context, s: Tcb, emitOk: bool, later: Context, isn: SeqNumber)
    requires Inv(s) && CxOk(cx, s) && Synchronised(s.state)
    ensures var d := Dispatch(cx, s, emitOk);
      d.out.Some? && WireOk(d.out.value) && Synchronised(d.s.state) ==>
        var rst := RstReply(d.out.value);
        Inv(d.s) && WireOk(rst) && Accepts(d.s, rst) && Gone(d.s, Process(later, d.s, rst, isn).s)
  {
    hide Inv, Dispatch, Process, NextExpected, RstReply;
    StillExpects(cx, s, emitOk);
    DispatchKeepsInv(cx, s, emitOk);
    var d := Dispatch(cx, s, emitOk);
    if d.out.Some? && WireOk(d.out.value) && Synchronised(d.s.state) {
      InvIsWf(d.s);
      ReplyFor(d.out.value);
      ResetIsTaken(later, d.s, RstReply(d.out.value), isn);
    }
  }

  /** So does one in reply to a SYN: the connection is refused. */
  lemma RefusedIsClosed(cx: Context, s: Tcb, syn: Segment, isn: SeqNumber)
    requires Inv(s) && s.state.SynSent? && s.tuple == Some(Tuple(syn.src, syn.dst)) && WireOk(syn)
    requires syn.control.Syn? && syn.ack.None? && syn.seqNo == s.localSeq && syn.payload == []
    ensures var rst := RstReply(syn); WireOk(rst) && Accepts(s, rst) && Process(cx, s, rst, isn).s.state.Closed?
  {
    hide SynOk, Asm.Valid, Asm.Extent, AckedBy;
    RstOutcome(cx, s, RstReply(syn), [], 0, isn);
  }

  lemma SynIsThat(cx: Context, s: Tcb, emitOk: bool)
    requires Inv(s) && CxOk(cx, s) && s.state.SynSent? && s.tuple.Some?
    ensures var d := Dispatch(cx, s, emitOk);
      d.out.Some? && !d.s.state.Closed? ==>
        && d.s.state.SynSent? && d.s.localSeq == s.localSeq && d.s.tuple == s.tuple
        && d.out.value.control.Syn? && d.out.value.ack.None? && d.out.value.seqNo == s.localSeq
        && d.out.value.payload == [] && s.tuple == Some(Tuple(d.out.value.src, d.out.value.dst))
  {
    hide SynOk, BeforeSend, WhatToDo, AfterSend, InitialShift, Asm.Valid, Asm.Extent;
    DispatchAddress(cx, s, emitOk);
    BeforeSendKeepsInv(cx, s);
    BeforeSendFrame(cx, s);
    var s1 := BeforeSend(cx, s);
    if WhatToDo(cx, s1).SendSegment? {
      SynSentFirst(cx, s1);
      AfterSendFrame(cx, s1);
    }
  }

  /**
   `connect` to a port nobody listens at: whatever is sent until the SYN is answered, the reset in reply to it closes
   the socket.
   */
  lemma RefusalIsHeard(cx: Context, s: Tcb, emitOk: bool, later: Context, isn: SeqNumber)
    requires Inv(s) && CxOk(cx, s) && s.state.SynSent? && s.tuple.Some?
    ensures var d := Dispatch(cx, s, emitOk);
      d.out.Some? && !d.s.state.Closed? && WireOk(d.out.value) ==>
        var rst := RstReply(d.out.value);
        Inv(d.s) && WireOk(rst) && Accepts(d.s, rst) && Process(later, d.s, rst, isn).s.state.Closed?
  {
    hide Inv, Dispatch, Process, RstReply;
    SynIsThat(cx, s, emitOk);
    DispatchKeepsInv(cx, s, emitOk);
    var d := Dispatch(cx, s, emitOk);
    if d.out.Some? && !d.s.state.Closed? && WireOk(d.out.value) {
      RefusedIsClosed(later, d.s, d.out.value, isn);
    }
  }

  /** The acknowledgement is of something this socket, which has only sent a SYN, never sent. */
  predicate Stray(s: Tcb, seg: Segment) {
    && (s.state.SynReceived? || (s.state.SynSent? && (seg.control.NoFlag? || seg.control.Syn?)))
    && !seg.control.Rst? && seg.ack.Some? && seg.ack.value != Add(s.localSeq, 1)
  }

  /** It is answered with a reset and nothing else happens. */
  lemma StrayIsReset(cx: Context, s: Tcb, seg: Segment, isn: SeqNumber)
    requires Inv(s) && Accepts(s, seg) && WireOk(seg) && Stray(s, seg)
    ensures Process(cx, s, seg, isn) == Outcome(s, Some(RstReply(seg)))
  {
    hide ProcessAccepted, ChallengeAckReply, SegmentInWindow, SynOk, ShapeOk, Asm.Valid, Asm.Extent;
  }

  /**
   A half-open connection is found out, as in section 3.5.1 of RFC 9293: a socket that has started anew answers what
   the other end still sends on the old connection with a reset, and that ends the old connection.
   */
  lemma HalfOpenIsReset(cx: Context, past: Tcb, emitOk: bool, anew: Tcb, later: Context, isn: SeqNumber)
    requires Inv(past) && CxOk(cx, past) && Synchronised(past.state) && Inv(anew)
    ensures var d := Dispatch(cx, past, emitOk);
      d.out.Some? && WireOk(d.out.value) && Synchronised(d.s.state)
      && Accepts(anew, d.out.value) && Stray(anew, d.out.value) ==>
        var o := Process(later, anew, d.out.value, isn);
        && o.s == anew && o.reply.Some? && Inv(d.s) && WireOk(o.reply.value) && Accepts(d.s, o.reply.value)
        && Gone(d.s, Process(later, d.s, o.reply.value, isn).s)
  {
    hide Inv, Dispatch, Process, RstReply, Accepts, Stray;
    var d := Dispatch(cx, past, emitOk);
    InvIsWf(anew);
    ResetEnds(cx, past, emitOk, later, isn);
    if d.out.Some? && WireOk(d.out.value) && Accepts(anew, d.out.value) && Stray(anew, d.out.value) {
      StrayIsReset(later, anew, d.out.value, isn);
    }
  }
}
