/** `close`: nothing more can be enqueued, and what was is sent, followed by a FIN. */
module TcpClosing {
  import opened Common
  import opened SeqNumbers
  import opened RingBuffer
  import opened Tcp
  import opened TcpDispatch
  import opened TcpPoll
  import opened TcpInvariant
  import Asm = AssemblerList

  /** The segment ends with a FIN right behind the last octet enqueued. */
  predicate EndsStream(s: Tcb, out: Option<Segment>)
    requires s.tx.Valid() && s.tx.Capacity() < I32_MAX
  {
    && out.Some? && out.value.control.Fin? && |out.value.payload| <= s.tx.length
    && Add(out.value.seqNo, |out.value.payload|) == Add(s.localSeq, s.tx.length)
  }

  /** One of the next `n` dispatches, if the device takes what they send, ends the stream. */
  predicate FinWithin(cx: Context, s: Tcb, n: nat)
    requires Inv(s) && CxOk(cx, s)
    decreases n
  {
    n > 0 &&
      (|| EndsStream(s, Dispatch(cx, s, true).out)
       || (DispatchKeepsInv(cx, s, true); FinWithin(cx, Dispatch(cx, s, true).s, n - 1)))
  }

  /** A FIN is wanted and not out, the window takes all that is enqueued, and the user timeout has not passed. */
  predicate Ending(cx: Context, s: Tcb)
    requires Inv(s) && CxOk(cx, s)
  {
    && SentFin(s.state) && s.tuple.Some? && s.tx.length <= s.remoteWinLen
    && Diff(s.remoteLastSeq, s.localSeq) <= s.tx.length && !TimedOut(StartClock(s, cx.now), cx.now)
  }

  lemma EndingTransmits(cx: Context, s: Tcb)
    requires Inv(s) && CxOk(cx, s) && Ending(cx, s)
    ensures SeqToTransmit(cx, s)
  {
    hide SynOk, Asm.Valid, Asm.Extent;
  }

  lemma EndingBefore(cx: Context, s: Tcb)
    requires Inv(s) && CxOk(cx, s) && Ending(cx, s)
    ensures var s1 := BeforeSend(cx, s); s1 == StartClock(s, cx.now) && Ending(cx, s1)
  {
    hide SynOk, ShapeOk, Asm.Valid, Asm.Extent, SeqToTransmit, Diff;
    StartClockKeepsInv(s, cx.now);
    EndingTransmits(cx, StartClock(s, cx.now));
  }

  /** The segment that goes out either ends the stream or takes unsent octets with it. */
  lemma EndingSends(cx: Context, s: Tcb)
    requires Inv(s) && CxOk(cx, s) && Ending(cx, s)
    ensures WhatToDo(cx, s).SendSegment? && !IsKeepAlive(cx, s) && Outgoing(cx, s).seqNo == s.remoteLastSeq
    ensures var seg := Outgoing(cx, s);
      seg == Draft(cx, s) && SegmentLen(seg) > 0 && (seg.control.Fin? <==>
        Diff(s.remoteLastSeq, s.localSeq) + |seg.payload| == s.tx.length)
    ensures Diff(s.remoteLastSeq, s.localSeq) + |Outgoing(cx, s).payload| <= s.tx.length
    ensures !Outgoing(cx, s).control.Syn?
  {
    hide SynOk, ShapeOk, SeqToTransmit, Asm.Valid, Asm.Extent, SegmentRoom, GetAllocated, Diff, AckToTransmit;
    hide WindowToUpdate;
    EndingTransmits(cx, s);
    TransmitsSomething(cx, s);
    DataSegmentFits(cx, s);
  }

  lemma SameEnd(a: SeqNumber, local: SeqNumber, n: nat, length: nat)
    requires 0 <= Diff(a, local) && Diff(a, local) + n == length && length < I32_MAX
    ensures Add(a, n) == Add(local, length)
  {
  }

  lemma EndingStep(cx: Context, s: Tcb)
    requires Inv(s) && CxOk(cx, s) && Ending(cx, s) && !EndsStream(s, Dispatch(cx, s, true).out)
    ensures var r := Dispatch(cx, s, true).s;
      && Inv(r) && CxOk(cx, r) && Ending(cx, r) && r.tx == s.tx && r.localSeq == s.localSeq
      && Diff(r.remoteLastSeq, r.localSeq) > Diff(s.remoteLastSeq, s.localSeq)
  {
    hide SynOk, ShapeOk, BeforeSend, WhatToDo, AfterSend, Draft, Outgoing, IsKeepAlive, Asm.Valid, Asm.Extent, Diff;
    hide Add;
    DispatchKeepsInv(cx, s, true);
    BeforeSendKeepsInv(cx, s);
    EndingBefore(cx, s);
    var s1 := BeforeSend(cx, s);
    EndingSends(cx, s1);
    AfterSendFrame(cx, s1);
    var seg := Outgoing(cx, s1);
    if seg.control.Fin? {
      SameEnd(s1.remoteLastSeq, s1.localSeq, |seg.payload|, s1.tx.length);
    }
  }

  lemma {:induction false} EndingEnds(cx: Context, s: Tcb, n: nat)
    requires Inv(s) && CxOk(cx, s) && Ending(cx, s) && n > s.tx.length - Diff(s.remoteLastSeq, s.localSeq)
    ensures FinWithin(cx, s, n)
    decreases n
  {
    hide Inv, Dispatch, Ending, EndsStream, Diff, CxOk;
    InvIsWf(s);
    EndingBound(cx, s);
    if !EndsStream(s, Dispatch(cx, s, true).out) {
      EndingStep(cx, s);
      EndingEnds(cx, Dispatch(cx, s, true).s, n - 1);
    }
  }

  lemma EndingBound(cx: Context, s: Tcb)
    requires Inv(s) && CxOk(cx, s) && Ending(cx, s)
    ensures Diff(s.remoteLastSeq, s.localSeq) <= s.tx.length
  {
    hide Inv, Diff;
  }

  /** With nothing unsent the FIN goes out at once. */
  lemma AllSentEnds(cx: Context, s: Tcb)
    requires Inv(s) && CxOk(cx, s) && SentFin(s.state) && s.tuple.Some?
    requires Diff(s.remoteLastSeq, s.localSeq) == s.tx.length && !TimedOut(StartClock(s, cx.now), cx.now)
    ensures EndsStream(s, Dispatch(cx, s, true).out)
  {
    hide SynOk, ShapeOk, AfterSend, Asm.Valid, Asm.Extent;
    var s1 := StartClock(s, cx.now);
    StartClockKeepsInv(s, cx.now);
    SameEnd(s.remoteLastSeq, s.localSeq, 0, s.tx.length);
    assert SeqToTransmit(cx, s1);
    assert BeforeSend(cx, s) == s1;
    DataSegmentFits(cx, s1);
    hide SeqToTransmit, DataSegment, Diff, Add;
  }

  lemma ClosedIsEnding(cx: Context, s: Tcb)
    requires Inv(s) && CxOk(cx, s) && (s.state.Established? || s.state.CloseWait?)
    requires !TimedOut(StartClock(s, cx.now), cx.now)
    ensures var c := CloseCall(s);
      && Inv(c) && CxOk(cx, c) && SentFin(c.state) && c.tuple.Some? && !TimedOut(StartClock(c, cx.now), cx.now)
      && 0 <= Diff(s.remoteLastSeq, s.localSeq) <= s.tx.length && c == s.(state := c.state)
      && (s.tx.length <= s.remoteWinLen ==> Ending(cx, c))
  {
    hide SynOk, Asm.Valid, Asm.Extent, Diff;
    CloseKeepsInv(s);
  }

  /**
   An open connection that is closed, whether the peer has closed or not, and whose peer offers room for all that is
   enqueued, sends it and a FIN behind the last octet, within one dispatch more than there are unsent octets. With
   nothing unsent that is the next dispatch, and it needs no window.
   */
  lemma CloseLeadsToFin(cx: Context, s: Tcb, n: nat)
    requires Inv(s) && CxOk(cx, s) && (s.state.Established? || s.state.CloseWait?)
    requires !TimedOut(StartClock(s, cx.now), cx.now)
    ensures Inv(CloseCall(s)) && CxOk(cx, CloseCall(s))
    ensures var unsent := s.tx.length - Diff(s.remoteLastSeq, s.localSeq);
      && unsent >= 0
      && (s.tx.length <= s.remoteWinLen && n > unsent ==> FinWithin(cx, CloseCall(s), n))
      && (unsent == 0 ==> EndsStream(s, Dispatch(cx, CloseCall(s), true).out))
  {
    hide Inv, CloseCall, Dispatch, FinWithin, Diff, CxOk, Ending, TimedOut;
    ClosedIsEnding(cx, s);
    InvIsWf(s);
    var c := CloseCall(s);
    if s.tx.length <= s.remoteWinLen && n > s.tx.length - Diff(s.remoteLastSeq, s.localSeq) {
      EndingEnds(cx, c, n);
    }
    if Diff(s.remoteLastSeq, s.localSeq) == s.tx.length {
      AllSentEnds(cx, c);
    }
  }

  /**
   After `close`, whatever the state, nothing can be enqueued. A socket that is not connected yet is closed at once,
   and exactly one that is closed already, or on its way, is left as it is.
   */
  lemma CloseIsFinal(s: Tcb, data: seq<Byte>)
    requires Inv(s)
    ensures Inv(CloseCall(s)) && SendSlice(CloseCall(s), data) == (CloseCall(s), None)
    ensures s.state.Listen? || s.state.SynSent? ==> CloseCall(s).state.Closed?
    ensures CloseCall(s) == s <==> s.state.Closed? || Shutting(s.state)
  {
    hide EnqueueSlice, SynOk, ShapeOk, Asm.Valid, Asm.Extent, Diff;
    CloseKeepsInv(s);
  }

  predicate Shutting(st: State) {
    st.FinWait1? || st.FinWait2? || st.Closing? || st.LastAck? || st.TimeWait?
  }
}
