/** When data is acknowledged: at once if something is missing, otherwise within the delay. */
module TcpAckTiming {
  import opened Common
  import opened SeqNumbers
  import opened RingBuffer
  import opened Tcp
  import opened TcpProcess
  import opened TcpDispatch
  import opened TcpWindow
  import opened TcpInvariant
  import opened TcpStream
  import opened TcpReceiver
  import opened TcpSide
  import opened TcpProgress
  import opened TcpNagle
  import opened TcpTold
  import Asm = AssemblerList

  /** A plain segment with data that continues what was received, nothing being missing. */
  predicate Continues(s: Tcb, seg: Segment)
    requires Inv(s)
  {
    && Accepts(s, seg) && WireOk(seg) && CheckAck(s, seg).AckAccept? && RxOpen(s.state)
    && (seg.control.NoFlag? || seg.control.Psh?)
    && seg.seqNo == NextExpected(s) && 0 < |seg.payload| <= s.rx.Window() && s.assembler.Nil?
  }

  /** What was acknowledged last is not ahead of what was received, nor far behind. */
  predicate Abreast(s: Tcb)
    requires Inv(s)
  {
    s.remoteLastAck.Some? && 0 <= Diff(NextExpected(s), s.remoteLastAck.value) < 0x4000_0000
  }

  lemma AppliedDelay(cx: Context, s: Tcb, seg: Segment, ackLen: nat)
    requires s.tx.Valid() && ackLen <= s.tx.length
    ensures var r := ApplyAck(cx, s, seg, ackLen);
      r.ackDelay == s.ackDelay && r.ackDelayTimer == s.ackDelayTimer && r.remoteLastAck == s.remoteLastAck
  {
    hide RemoteWindow, Lt;
  }

  lemma PlainDelay(cx: Context, s: Tcb, ack: AckInfo)
    ensures var r := OnPlain(cx, s, ack).s;
      && r.ackDelay == s.ackDelay && r.ackDelayTimer == s.ackDelayTimer && r.remoteLastAck == s.remoteLastAck
      && (RxOpen(s.state) ==> r.state != Closed)
  {
  }

  /** The delay begins with the first data and is over with the second. */
  function DelayAfter(s: Tcb, now: int): AckDelayTimer {
    if s.ackDelay.None? then s.ackDelayTimer
    else if s.ackDelayTimer.AckIdle? then AckWaiting(now + s.ackDelay.value)
    else AckImmediate
  }

  lemma StoredDelay(cx: Context, s: Tcb, seg: Segment)
    requires Inv(s) && 0 < |seg.payload| <= s.rx.Window() && |seg.payload| < 0x1_0000 && s.assembler.Nil?
    requires Abreast(s)
    ensures var o := ApplyPayload(cx, s, seg, seg.payload, 0);
      && o.reply.None? && o.s.ackDelayTimer == DelayAfter(s, cx.now) && o.s.remoteLastAck == s.remoteLastAck
      && o.s.rx.Valid() && o.s.rx.Capacity() == s.rx.Capacity() && AckToTransmit(o.s)
      && NextExpected(o.s) == Add(NextExpected(s), |seg.payload|)
  {
    hide SynOk, ShapeOk, Asm.Valid, Asm.Extent, StorePayload, DelayAck;
    StoredAtFront(s, seg.payload);
    var stored := StorePayload(s, seg.payload, 0).value;
    assert |stored.rx.Data()| == |s.rx.Data()| + |seg.payload|;
    hide Ring.Data;
    FurtherOn(s.remoteSeq, s.rx.length, |seg.payload|, s.remoteLastAck.value);
    hide Diff, Add;
    DelayIs(cx, stored);
  }

  lemma DelayIs(cx: Context, s: Tcb)
    requires s.rx.Valid() && s.rx.Capacity() <= MAX_RX_CAPACITY && AckToTransmit(s)
    ensures DelayAck(cx, s) == s.(ackDelayTimer := DelayAfter(s, cx.now))
  {
    hide AckToTransmit, WindowToUpdate;
  }

  lemma FurtherOn(a: SeqNumber, m: nat, n: nat, told: SeqNumber)
    requires m + n <= MAX_RX_CAPACITY && 0 < n < 0x1_0000 && 0 <= Diff(Add(a, m), told) < 0x4000_0000
    ensures Add(a, m + n) == Add(Add(a, m), n) && Lt(told, Add(a, m + n))
  {
  }

  lemma AcceptedDelay(cx: Context, s: Tcb, seg: Segment, isn: SeqNumber)
    requires Inv(s) && Continues(s, seg) && Abreast(s)
    ensures var o := ProcessAccepted(cx, s, seg, seg.payload, 0, isn);
      && o.reply.None? && o.s.ackDelayTimer == DelayAfter(s, cx.now)
      && o.s.rx.Valid() && o.s.rx.Capacity() == s.rx.Capacity() && AckToTransmit(o.s)
      && NextExpected(o.s) == Add(NextExpected(s), |seg.payload|)
  {
    hide SynOk, ShapeOk, CheckAck, AckedBy, TakeRtt, ApplyAck, ApplyPayload, Asm.Valid, Asm.Extent, OnPlain;
    var s0 := TakeRtt(cx, s, seg);
    var ack := AckedBy(s, seg);
    PlainGoes(cx, s0, ack);
    PlainDelay(cx, s0, ack);
    var next := OnPlain(cx, s0, ack);
    AcceptedGoKeepsInv(cx, s, seg, isn);
    var s2 := ApplyAck(cx, next.s, seg, ack.len);
    ApplyAckReceiver(cx, next.s, seg, ack.len);
    AppliedDelay(cx, next.s, seg, ack.len);
    StoredDelay(cx, s2, seg);
  }

  /**
   Data that continues what was received is owed an acknowledgement, and is not answered at once: the delay begins
   with it if none was running, and is over if one was.
   */
  lemma DataStartsDelay(cx: Context, s: Tcb, seg: Segment, isn: SeqNumber)
    requires Inv(s) && Continues(s, seg) && Abreast(s)
    ensures var o := Process(cx, s, seg, isn);
      && o.reply.None? && o.s.ackDelayTimer == DelayAfter(s, cx.now) && Inv(o.s) && AckToTransmit(o.s)
      && NextExpected(o.s) == Add(NextExpected(s), |seg.payload|)
  {
    hide SynOk, ShapeOk, ProcessAccepted, CheckAck, Asm.Valid, Asm.Extent;
    ProcessKeepsInv(cx, s, seg, isn);
    assert SegmentAt(s, seg) == 0;
    AcceptanceIsRfc(s, seg);
    var (payload, offset) := Overlap(s, seg);
    assert payload == seg.payload && offset == 0;
    hide Overlap, SegmentInWindow;
    AcceptedDelay(cx, s, seg, isn);
  }

  /**
   It is acknowledged, up to its last octet, by the first dispatch once the delay has passed since it came; and no
   acknowledgement goes out for its own sake before, unless there was data waiting already.
   */
  lemma DataIsAcknowledged(cx: Context, s: Tcb, seg: Segment, isn: SeqNumber, later: Context, emitOk: bool)
    requires Inv(s) && Continues(s, seg) && Abreast(s) && s.ackDelay.Some?
    ensures var r := Process(cx, s, seg, isn).s;
      && Inv(r)
      && (CxOk(later, r) && Synchronised(r.state) ==>
            var out := Dispatch(later, r, emitOk).out;
            && (!GivesUp(r, later.now) && later.now >= cx.now + s.ackDelay.value ==>
                  out.Some? && out.value.ack == Some(Add(NextExpected(s), |seg.payload|)))
            && (!GivesUp(r, later.now) && !s.ackDelayTimer.AckIdle? ==>
                  out.Some? && out.value.ack == Some(Add(NextExpected(s), |seg.payload|)))
            && (s.ackDelayTimer.AckIdle? && later.now < cx.now + s.ackDelay.value && out.Some? ==>
                  Otherwise(later, r)))
  {
    hide Inv, Process, Dispatch, Abreast, GivesUp, CheckAck, Accepts, AckToTransmit, Otherwise, Promises, NextExpected;
    InvIsWf(s);
    DataStartsDelay(cx, s, seg, isn);
    var r := Process(cx, s, seg, isn).s;
    if CxOk(later, r) && Synchronised(r.state) {
      if !GivesUp(r, later.now) && DelayedAckExpired(r, later.now) {
        DueIsSent(later, r, emitOk);
      }
      if !DelayedAckExpired(r, later.now) && Dispatch(later, r, emitOk).out.Some? {
        NotForItself(later, r, emitOk);
      }
    }
  }

  /** There is something else to send: data, a SYN or a FIN, perhaps again, a reset or a probe. */
  predicate Otherwise(cx: Context, s: Tcb)
    requires Inv(s) && CxOk(cx, s)
  {
    s.tuple.Some? &&
      (BeforeSendKeepsInv(cx, s);
       var s1 := BeforeSend(cx, s);
       SeqToTransmit(cx, s1) || s1.state.Closed? || ShouldKeepAlive(s1.timer, cx.now))
  }

  lemma NotForItself(cx: Context, s: Tcb, emitOk: bool)
    requires Inv(s) && CxOk(cx, s) && !DelayedAckExpired(s, cx.now) && Dispatch(cx, s, emitOk).out.Some?
    ensures Otherwise(cx, s)
  {
    hide SynOk, ShapeOk, Wf, BeforeSend, AfterSend, SeqToTransmit, Outgoing, AckToTransmit, WindowToUpdate;
    BeforeSendKeepsInv(cx, s);
    BeforeSendFrame(cx, s);
  }

  // ---- something is missing ----

  /** A plain segment with data that is kept, but either leaves a hole before it or falls into one. */
  predicate Gap(s: Tcb, seg: Segment)
    requires Inv(s)
  {
    && Accepts(s, seg) && WireOk(seg) && CheckAck(s, seg).AckAccept? && RxOpen(s.state)
    && (seg.control.NoFlag? || seg.control.Psh?) && SegmentInWindow(s, seg)
    && (var (payload, offset) := Overlap(s, seg);
        && payload != [] && (offset > 0 || s.assembler.Cons?)
        && (offset == 0 || Asm.Count(s.assembler) < Asm.MAX_SEGMENTS
            || Asm.Touches(s.assembler, offset - 1, offset + |payload|)))
  }

  lemma GapStored(s: Tcb, payload: seq<Byte>, offset: nat)
    requires s.rx.Valid() && Asm.Valid(s.assembler) && Asm.Extent(s.assembler) <= s.rx.Window()
    requires payload != [] && offset + |payload| <= s.rx.Window() && (offset > 0 || s.assembler.Cons?)
    requires offset == 0 || Asm.Count(s.assembler) < Asm.MAX_SEGMENTS
             || Asm.Touches(s.assembler, offset - 1, offset + |payload|)
    ensures var r := StorePayload(s, payload, offset); r.Some? && (r.value.assembler.Cons? || s.assembler.Cons?)
  {
    hide Asm.AddThenRemoveFront, Asm.Touches, Asm.Valid, Asm.Extent, WriteUnallocated;
    Asm.AddThenRemoveFrontMeaning(s.assembler, offset, |payload|);
    Asm.AddThenRemoveFrontRefuses(s.assembler, offset, |payload|);
    var (l, n) := Asm.AddThenRemoveFront(s.assembler, offset, |payload|).value;
    if s.assembler.Nil? {
      assert n > 0 ==> Asm.Has(s.assembler, 0) || offset <= 0;
      assert Asm.Has(l, offset);
    }
  }

  lemma GapReplies(cx: Context, s: Tcb, seg: Segment, payload: seq<Byte>, offset: nat, isn: SeqNumber)
    requires Inv(s) && Gap(s, seg) && (payload, offset) == Overlap(s, seg)
    ensures ProcessAccepted(cx, s, seg, payload, offset, isn).reply.Some?
  {
    hide SynOk, ShapeOk, CheckAck, AckedBy, TakeRtt, ApplyAck, StorePayload, Asm.Valid, Asm.Extent, OnPlain;
    hide SegmentInWindow, Overlap, Asm.Touches, DelayAck, AckSegment;
    var s0 := TakeRtt(cx, s, seg);
    var ack := AckedBy(s, seg);
    PlainGoes(cx, s0, ack);
    var next := OnPlain(cx, s0, ack);
    var s2 := ApplyAck(cx, next.s, seg, ack.len);
    ApplyAckReceiver(cx, next.s, seg, ack.len);
    GapStored(s2, payload, offset);
    DelayKeeps(cx, StorePayload(s2, payload, offset).value);
  }

  lemma DelayKeeps(cx: Context, s: Tcb)
    requires s.rx.Valid() && s.rx.Capacity() <= MAX_RX_CAPACITY
    ensures var r := DelayAck(cx, s); r == s.(ackDelayTimer := r.ackDelayTimer)
  {
    hide AckToTransmit, WindowToUpdate;
  }

  /**
   Data with a hole before it, or that falls into one, is answered at once with what is still expected and all the
   room there is, so that the peer can count the duplicates.
   */
  lemma GapIsAnswered(cx: Context, s: Tcb, seg: Segment, isn: SeqNumber)
    requires Inv(s) && Gap(s, seg)
    ensures var o := Process(cx, s, seg, isn);
      && Inv(o.s) && o.reply.Some? && o.reply.value.control.NoFlag? && o.reply.value.payload == []
      && o.reply.value.seqNo == o.s.remoteLastSeq && o.reply.value.ack == Some(NextExpected(o.s))
      && Promises(o.s, o.reply.value)
  {
    hide SynOk, ShapeOk, CheckAck, ProcessAccepted, SegmentInWindow, Overlap, Asm.Touches, Asm.Valid, Asm.Extent;
    hide Promises, ScaledWindow, NextExpected;
    ProcessKeepsInv(cx, s, seg, isn);
    var (payload, offset) := Overlap(s, seg);
    GapReplies(cx, s, seg, payload, offset, isn);
    AcceptedReply(cx, s, seg, payload, offset, isn);
    AckSegmentPromises(ProcessAccepted(cx, s, seg, payload, offset, isn).s, seg);
  }
}
