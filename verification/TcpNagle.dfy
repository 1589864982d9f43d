/** Nagle's algorithm: exactly when a segment smaller than the MSS goes out with octets in flight. */
module TcpNagle {
  import opened Common
  import opened SeqNumbers
  import opened Tcp
  import opened TcpDispatch
  import opened TcpStream
  import opened TcpSide
  import Asm = AssemblerList

  function EffectiveMss(cx: Context, s: Tcb): nat
    requires s.tuple.Some? && CxOk(cx, s)
  {
    MinOf(LocalMss(cx, s), s.remoteMss)
  }

  /** Something other than data is due. */
  predicate AckDue(s: Tcb, now: int)
    requires s.rx.Valid() && s.rx.Capacity() <= MAX_RX_CAPACITY
  {
    (AckToTransmit(s) || WindowToUpdate(s)) && DelayedAckExpired(s, now)
  }

  /** The situation the algorithm is about: it is on, and octets are in flight in a state that may send data. */
  predicate Applies(s: Tcb) {
    s.nagle && s.remoteLastSeq != s.localSeq && DataState(s.state)
  }

  /** How many octets one segment can carry: what window and limits allow, what is queued, up to the end of the ring. */
  function AtHand(cx: Context, s: Tcb): nat
    requires Wf(s) && s.tuple.Some? && CxOk(cx, s)
  {
    var offset := Diff(s.remoteLastSeq, s.localSeq);
    if offset > s.tx.length || offset > s.remoteWinLen then 0
    else
      var room := MinOf(s.remoteWinLen - offset, EffectiveMss(cx, s));
      MinOf(MinOf(room, s.tx.length - offset), s.tx.Capacity() - s.tx.Idx(offset))
  }

  /** The room for a segment, over the integers. */
  lemma RoomIs(cx: Context, s: Tcb)
    requires Wf(s) && s.tuple.Some? && CxOk(cx, s)
    ensures var offset := Diff(s.remoteLastSeq, s.localSeq);
      SegmentRoom(cx, s) == if offset > s.remoteWinLen then 0 else MinOf(s.remoteWinLen - offset, EffectiveMss(cx, s))
  {
    hide Asm.Valid, Asm.Extent;
  }

  /** The user timeout has passed, counted from now if nothing has been heard yet. */
  predicate GivesUp(s: Tcb, now: int) {
    TimedOut(StartClock(s, now), now)
  }

  predicate Small(seg: Segment, mss: nat) {
    0 < |seg.payload| < mss
  }

  lemma AtHandIsCarried(cx: Context, s: Tcb)
    requires Inv(s) && s.tuple.Some? && CxOk(cx, s) && DataState(s.state)
    ensures |DataSegment(cx, s).payload| == AtHand(cx, s)
  {
    RoomIs(cx, s);
    hide SynOk, ShapeOk, Asm.Valid, Asm.Extent, SegmentRoom, ScaledWindow, NextExpected;
  }

  /** What can be carried may be sent. */
  lemma AtHandMaySend(cx: Context, s: Tcb)
    requires Inv(s) && s.tuple.Some? && CxOk(cx, s)
    ensures AtHand(cx, s) > 0 ==> MaxSend(s) > 0
  {
    hide SynOk, ShapeOk, Asm.Valid, Asm.Extent, LocalMss, EffectiveMss;
  }

  lemma SendsExactly(cx: Context, s: Tcb)
    requires Inv(s) && s.tuple.Some? && CxOk(cx, s) && Applies(s) && Quiet(s) && AtHand(cx, s) > 0
    ensures WhatToDo(cx, s).SendSegment? <==>
      MaxSend(s) >= EffectiveMss(cx, s) || AckDue(s, cx.now) || SentFin(s.state)
  {
    hide SynOk, Asm.Valid, Asm.Extent, MaxSend, AckToTransmit, WindowToUpdate, AtHand, Diff;
    AtHandMaySend(cx, s);
  }

  lemma OutgoingIsData(cx: Context, s: Tcb)
    requires Inv(s) && s.tuple.Some? && CxOk(cx, s) && DataState(s.state) && Quiet(s)
    ensures Outgoing(cx, s) == DataSegment(cx, s)
  {
    hide SynOk, ShapeOk, Asm.Valid, Asm.Extent, DataSegment;
  }

  /** Nothing that matters here changes before the send, unless the socket gives up. */
  lemma SameBefore(cx: Context, s: Tcb)
    requires Inv(s) && s.tuple.Some? && CxOk(cx, s) && Quiet(s) && !Rewinds(cx, s)
    ensures var s1 := BeforeSend(cx, s);
      if GivesUp(s, cx.now) then s1.state.Closed?
      else
        && s1 == s.(remoteLastTs := s1.remoteLastTs) && AtHand(cx, s1) == AtHand(cx, s)
        && MaxSend(s1) == MaxSend(s) && AckDue(s1, cx.now) == AckDue(s, cx.now)
  {
    hide SynOk, ShapeOk, Asm.Valid, Asm.Extent, SeqToTransmit, Diff;
  }

  /**
   With the algorithm on, octets in flight and none of them being sent again, `dispatch` sends less than the MSS
   exactly if that is what one segment can carry, and a FIN is wanted, or an acknowledgement or window update is due,
   which takes the data along, or there is enough for a full segment that the end of the ring buffer cuts.
   */
  lemma NagleExactly(cx: Context, s: Tcb, emitOk: bool)
    requires Inv(s) && CxOk(cx, s) && s.tuple.Some? && Quiet(s) && Applies(s) && !Rewinds(cx, s)
    ensures var mss, d := EffectiveMss(cx, s), Dispatch(cx, s, emitOk);
      d.out.Some? && Small(d.out.value, mss) <==>
        && !GivesUp(s, cx.now) && 0 < AtHand(cx, s) < mss
        && (SentFin(s.state) || AckDue(s, cx.now) || MaxSend(s) >= mss)
  {
    hide SynOk, ShapeOk, Asm.Valid, Asm.Extent, BeforeSend, WhatToDo, Outgoing, DataSegment, MaxSend, AfterSend, AckDue;
    hide AtHand, Rewinds;
    BeforeSendKeepsInv(cx, s);
    SameBefore(cx, s);
    var s1 := BeforeSend(cx, s);
    if GivesUp(s, cx.now) {
      ResetIsEmpty(cx, s1);
    } else {
      OutgoingIsData(cx, s1);
      AtHandIsCarried(cx, s1);
      if AtHand(cx, s1) > 0 {
        SendsExactly(cx, s1);
      }
    }
  }

  lemma ResetIsEmpty(cx: Context, s: Tcb)
    requires Wf(s) && s.tuple.Some? && CxOk(cx, s) && s.state.Closed?
    ensures Draft(cx, s).payload == [] && !IsEmptySegment(Draft(cx, s)) && Outgoing(cx, s).payload == []
  {
  }
}
