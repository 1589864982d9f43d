/** Losses are made good: sending again starts at the first unacknowledged octet, and three duplicates are enough. */
module TcpRecovery {
  import opened Common
  import opened SeqNumbers
  import opened RingBuffer
  import opened Tcp
  import opened TcpProcess
  import opened TcpDispatch
  import opened TcpPoll
  import opened TcpInvariant
  import opened TcpStream
  import opened TcpNagle
  import opened TcpClock
  import Asm = AssemblerList

  // ---- sending again ----

  /** A SYN, a FIN, or octets the peer has room for are unacknowledged. */
  predicate Unacked(s: Tcb) {
    || SentSyn(s.state)
    || (SentFin(s.state) && s.tx.length == 0)
    || (DataState(s.state) && s.tx.length > 0 && s.remoteWinLen > 0)
  }

  lemma RewoundTransmits(cx: Context, s: Tcb)
    requires Inv(s) && s.tuple.Some? && CxOk(cx, s) && Unacked(s) && s.remoteLastSeq == s.localSeq
    ensures SeqToTransmit(cx, s)
  {
    hide SynOk, Asm.Valid, Asm.Extent;
  }

  lemma SendsFirst(cx: Context, s: Tcb)
    requires Inv(s) && s.tuple.Some? && CxOk(cx, s) && Unacked(s) && s.remoteLastSeq == s.localSeq
    ensures WhatToDo(cx, s).SendSegment?
    ensures var out := Outgoing(cx, s);
      out.seqNo == s.localSeq && SegmentLen(out) > 0 && out.payload <= s.tx.Data()
  {
    hide SynOk, SeqToTransmit, Asm.Valid, Asm.Extent, SegmentRoom, GetAllocated, Diff, AckToTransmit, WindowToUpdate;
    RewoundTransmits(cx, s);
    TransmitsSomething(cx, s);
    if DataState(s.state) {
      AtStart(s);
      GetAllocatedIsPrefix(s.tx, 0, SegmentRoom(cx, s));
    }
    hide Ring.Data;
  }

  lemma AtStart(s: Tcb)
    requires s.remoteLastSeq == s.localSeq
    ensures Diff(s.remoteLastSeq, s.localSeq) == 0 && Minus(s.remoteLastSeq, s.localSeq) == 0
  {
  }

  /** A retransmission starts with the first unacknowledged octet, SYN or FIN. */
  lemma ResendsFirst(cx: Context, s: Tcb, emitOk: bool)
    requires Inv(s) && CxOk(cx, s) && s.tuple.Some? && Rewinds(cx, s) && Unacked(s)
    ensures var out := Dispatch(cx, s, emitOk).out;
      && out.Some? && out.value.seqNo == s.localSeq && SegmentLen(out.value) > 0
      && out.value.payload <= s.tx.Data()
  {
    hide SynOk, ShapeOk, BeforeSend, AfterSend, Outgoing, SeqToTransmit, WhatToDo, Asm.Valid, Asm.Extent, Ring.Data;
    hide Diff, SegmentLen;
    BeforeSendKeepsInv(cx, s);
    BeforeSendFrame(cx, s);
    SendsFirst(cx, BeforeSend(cx, s));
  }

  // ---- three duplicates ----

  /** The segment repeats the last acknowledgement, and there is something in flight. */
  predicate Repeats(s: Tcb, seg: Segment)
    requires Inv(s)
  {
    && DataState(s.state) && Accepts(s, seg) && WireOk(seg)
    && seg.control.NoFlag? && seg.payload == [] && seg.seqNo == NextExpected(s)
    && seg.ack == Some(s.localSeq) && s.rxLastAck == seg.ack
    && s.remoteLastSeq != s.localSeq && RemoteWindow(s, seg) == s.remoteWinLen
  }

  lemma RepeatAccepted(s: Tcb, seg: Segment)
    requires Inv(s) && Repeats(s, seg)
    ensures CheckAck(s, seg).AckAccept? && AckedBy(s, seg) == AckInfo(0, false, false) && SegmentInWindow(s, seg)
    ensures Lt(seg.ack.value, s.remoteLastSeq) && !Lt(s.remoteLastSeq, seg.ack.value)
    ensures EffectiveControl(s, seg).NoFlag? && Overlap(s, seg).0 == []
  {
    hide SynOk, Asm.Valid, Asm.Extent, RemoteWindow;
  }

  lemma RepeatMoves(cx: Context, s: Tcb)
    requires DataState(s.state)
    ensures var next := OnPlain(cx, s, AckInfo(0, false, false));
      next.Go? && next.s == s.(timer := next.s.timer) && (Keeps(s) ==> next.s.timer == s.timer)
  {
  }

  /** It is counted, and the third is taken for a loss. */
  lemma RepeatCounts(cx: Context, s: Tcb, seg: Segment, isn: SeqNumber)
    requires Inv(s) && Repeats(s, seg)
    ensures var r := Process(cx, s, seg, isn).s;
      && Inv(r) && Repeats(r, seg) && r.rxDupAcks == MinOf(s.rxDupAcks + 1, 255)
      && (s.rxDupAcks == 2 ==> r.timer.FastRetransmit?) && (s.rxDupAcks != 2 && Keeps(s) ==> r.timer == s.timer)
      && r.state == s.state
      && r.tx == s.tx && r.localSeq == s.localSeq && r.remoteLastSeq == s.remoteLastSeq && r.tuple == s.tuple
      && r.remoteWinLen == s.remoteWinLen
  {
    hide SynOk, ShapeOk, Asm.Valid, Asm.Extent, CheckAck, AckedBy, SegmentInWindow, Overlap, EffectiveControl, Lt;
    hide OnPlain, TakeRtt;
    ProcessKeepsInv(cx, s, seg, isn);
    RepeatAccepted(s, seg);
    RepeatMoves(cx, TakeRtt(cx, s, seg));
    hide RemoteWindow;
    assert RemoteWindow(Process(cx, s, seg, isn).s, seg) == RemoteWindow(s, seg) by {
      SameWindow(s, Process(cx, s, seg, isn).s, seg);
    }
  }

  /** The states in which a plain segment leaves a running timer alone. */
  predicate Keeps(s: Tcb) {
    (s.state.Established? || s.state.FinWait1?) && IsRetransmit(s.timer)
  }

  lemma SameWindow(s: Tcb, r: Tcb, seg: Segment)
    requires r.remoteWinScale == s.remoteWinScale
    ensures RemoteWindow(r, seg) == RemoteWindow(s, seg)
  {
  }

  /**
   After three repetitions of an acknowledgement, the first having been seen before, a dispatch with nothing new to
   send sends the first unacknowledged octets again, however early; after two it does nothing the timer would not do.
   */
  lemma ThreeDuplicates(cx: Context, s: Tcb, seg: Segment, isn: SeqNumber, later: Context, emitOk: bool)
    requires Inv(s) && Repeats(s, seg) && s.rxDupAcks == 0
    ensures var s1 := Process(cx, s, seg, isn).s; Inv(s1) && Accepts(s1, seg)
    ensures var s2 := Process(cx, Process(cx, s, seg, isn).s, seg, isn).s;
      Inv(s2) && Accepts(s2, seg) && (Keeps(s) ==> s2.timer == s.timer)
    ensures var s3 := Process(cx, Process(cx, Process(cx, s, seg, isn).s, seg, isn).s, seg, isn).s;
      && Inv(s3)
      && (CxOk(later, s3) && s3.tuple.Some? && !GivesUp(s3, later.now) && !SeqToTransmit(later, s3)
          && s.tx.length > 0 && s.remoteWinLen > 0 ==>
            var out := Dispatch(later, s3, emitOk).out;
            out.Some? && out.value.seqNo == s.localSeq && out.value.payload <= s.tx.Data() && SegmentLen(out.value) > 0)
  {
    hide Inv, Process, Repeats, Dispatch, SeqToTransmit, Ring.Data, SegmentLen;
    RepeatForUs(s, seg);
    RepeatCounts(cx, s, seg, isn);
    var s1 := Process(cx, s, seg, isn).s;
    RepeatForUs(s1, seg);
    RepeatCounts(cx, s1, seg, isn);
    var s2 := Process(cx, s1, seg, isn).s;
    RepeatForUs(s2, seg);
    RepeatCounts(cx, s2, seg, isn);
    var s3 := Process(cx, s2, seg, isn).s;
    RepeatForUs(s3, seg);
    if CxOk(later, s3) && s3.tuple.Some? && !GivesUp(s3, later.now) && !SeqToTransmit(later, s3)
       && s.tx.length > 0 && s.remoteWinLen > 0 {
      InvIsWf(s3);
      FastRewinds(later, s3);
      ResendsFirst(later, s3, emitOk);
    }
  }

  lemma RepeatForUs(s: Tcb, seg: Segment)
    requires Inv(s) && Repeats(s, seg)
    ensures Accepts(s, seg) && WireOk(seg) && Wf(s) && DataState(s.state)
  {
  }

  lemma FastRewinds(cx: Context, s: Tcb)
    requires Wf(s) && s.tuple.Some? && CxOk(cx, s) && s.timer.FastRetransmit?
    requires !GivesUp(s, cx.now) && !SeqToTransmit(cx, s)
    ensures Rewinds(cx, s)
  {
    SameToTransmit(cx, s);
    hide SeqToTransmit;
  }
}
