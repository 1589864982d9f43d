/**
 What a socket has told its peer, over every run against arbitrary segments: whenever more could be said, an
 acknowledgement or a larger window, it is said as soon as the delay allows.
 */
module TcpTold {
  import opened Common
  import opened SeqNumbers
  import opened RingBuffer
  import opened Tcp
  import opened TcpProcess
  import opened TcpDispatch
  import opened TcpWindow
  import opened TcpInvariant
  import opened TcpStream
  import opened TcpPeer
  import opened TcpTimer
  import opened TcpNagle
  import opened TcpEffect
  import opened TcpClock
  import Asm = AssemblerList

  /** The acknowledgement and the window field of the last segment sent. */
  datatype Word = Word(ack: Option<SeqNumber>, window: nat)

  const SILENCE: Word := Word(None, 0)

  /** What goes out is a keep-alive probe, which is not counted as having told anything. */
  predicate Probes(cx: Context, s: Tcb)
    requires Inv(s) && s.tuple.Some? && CxOk(cx, s)
  {
    BeforeSendKeepsInv(cx, s);
    IsKeepAlive(cx, BeforeSend(cx, s))
  }

  function WordAfter(s: Tcb, op: Op, w: Word): Word
    requires Inv(s)
  {
    match op
    case Arrive(cx, seg, isn) =>
      if !Accepts(s, seg) || !WireOk(seg) then w
      else if Opens(s, seg) then (if s.state.SynSent? then w.(ack := Some(seg.seqNo)) else w)
      else
        var reply := Process(cx, s, seg, isn).reply;
        if reply.Some? && !reply.value.control.Rst? then Word(reply.value.ack, reply.value.windowLen) else w
    case Egress(cx, emitOk) =>
      if !CxOk(cx, s) || s.tuple.None? then w
      else
        var d := Dispatch(cx, s, emitOk);
        if Forgets(s, d) then SILENCE
        else if d.out.Some? && emitOk && !Probes(cx, s) then Word(d.out.value.ack, d.out.value.windowLen)
        else w
    case StartListen(at) => if !IsOpen(s.state) && at.port != 0 then SILENCE else w
    case StartConnect(local, remote, isn) => if Connect(s, local, remote, isn).1.OpenOk? then SILENCE else w
    case _ => w
  }

  predicate Told(s: Tcb, w: Word) {
    s.remoteLastAck == w.ack && s.remoteLastWin == w.window
  }

  lemma ArriveTells(cx: Context, s: Tcb, seg: Segment, isn: SeqNumber, w: Word)
    requires Inv(s) && Told(s, w) && Accepts(s, seg) && WireOk(seg)
    ensures Told(Process(cx, s, seg, isn).s, WordAfter(s, Arrive(cx, seg, isn), w))
  {
    hide SynOk, ShapeOk, Wf, Process, Heeded, OutOfWindow, ThirdDuplicate, WireOk;
    if Synchronised(s.state) {
      ArriveEffect(cx, s, seg, isn);
    } else {
      ArriveOpens(cx, s, seg, isn);
    }
  }

  lemma EgressTells(cx: Context, s: Tcb, emitOk: bool, w: Word)
    requires Inv(s) && Told(s, w) && CxOk(cx, s) && s.tuple.Some?
    ensures Told(Dispatch(cx, s, emitOk).s, WordAfter(s, Egress(cx, emitOk), w))
  {
    hide SynOk, ShapeOk, Wf, BeforeSend, AfterSend, SeqToTransmit, IsKeepAlive, Draft, InitialShift, WhatToDo;
    BeforeSendKeepsInv(cx, s);
    BeforeSendFrame(cx, s);
    var s1 := BeforeSend(cx, s);
    match WhatToDo(cx, s1) {
      case SendSegment => AfterSendFrame(cx, s1);
      case ResetSocket => OnlyWaitingResets(cx, s1);
      case DoNothing => ClosedSpeaks(cx, s1);
    }
  }

  lemma CallTells(s: Tcb, op: Op, w: Word)
    requires Inv(s) && Told(s, w) && !op.Arrive? && !op.Egress?
    ensures Told(Apply(s, op), WordAfter(s, op, w))
  {
    hide SynOk, ShapeOk, Wf, InitialShift, EnqueueSlice, Dequeue;
  }

  lemma StepTells(s: Tcb, op: Op, w: Word)
    requires Inv(s) && Told(s, w)
    ensures Told(Apply(s, op), WordAfter(s, op, w))
  {
    hide Inv, Told, Process, Dispatch, WordAfter, SendSlice, RecvSlice, Connect, ListenOn, CloseCall, SetKeepAlive;
    match op
    case Arrive(cx, seg, isn) =>
      if Accepts(s, seg) && WireOk(seg) {
        ArriveTells(cx, s, seg, isn, w);
      } else {
        NothingTold(s, op, w);
      }
    case Egress(cx, emitOk) =>
      if CxOk(cx, s) && s.tuple.Some? {
        EgressTells(cx, s, emitOk, w);
      } else {
        NothingTold(s, op, w);
      }
    case _ => CallTells(s, op, w);
  }

  lemma NothingTold(s: Tcb, op: Op, w: Word)
    requires Inv(s)
    requires
      || (op.Arrive? && !(Accepts(s, op.seg) && WireOk(op.seg)))
      || (op.Egress? && !(CxOk(op.cx, s) && s.tuple.Some?))
    ensures Apply(s, op) == s && WordAfter(s, op, w) == w
  {
    hide Inv;
    if op.Egress? && CxOk(op.cx, s) {
      NoTuple(op.cx, s, op.emitOk);
    }
  }

  function LastWord(s: Tcb, ops: seq<Op>, w: Word): Word
    requires Inv(s)
    decreases |ops|
  {
    if ops == [] then w
    else
      ApplyKeepsInv(s, ops[0]);
      LastWord(Apply(s, ops[0]), ops[1..], WordAfter(s, ops[0], w))
  }

  lemma {:induction false} RunTells(s: Tcb, ops: seq<Op>, w: Word)
    requires Inv(s) && Told(s, w)
    ensures Told(Run(s, ops), LastWord(s, ops, w)) && Inv(Run(s, ops))
    decreases |ops|
  {
    hide Inv, Apply, WordAfter, Told;
    if ops != [] {
      ApplyKeepsInv(s, ops[0]);
      StepTells(s, ops[0], w);
      RunTells(Apply(s, ops[0]), ops[1..], WordAfter(s, ops[0], w));
    }
  }

  // ---- what there is to say ----

  /** More has been received than acknowledged. */
  predicate Owes(s: Tcb, w: Word)
    requires s.rx.Valid() && s.rx.Capacity() <= MAX_RX_CAPACITY
  {
    w.ack.Some? && Lt(w.ack.value, NextExpected(s))
  }

  /** The peer may still send, and the window field could say more than it did. */
  predicate Roomier(s: Tcb, w: Word)
    requires s.rx.Valid()
  {
    (RxOpen(s.state) || s.state.SynSent?) && w.window < 0xffff && Shl(w.window + 1, s.remoteWinShift) <= s.rx.Window()
  }

  lemma RoomierExactly(s: Tcb, w: Word)
    requires s.rx.Valid() && Told(s, w)
    ensures WindowToUpdate(s) <==> Roomier(s, w)
  {
    hide Shr, Shl;
    AdvertisedFits(s);
    if w.window < ScaledWindow(s) {
      ShlMonotone(w.window + 1, ScaledWindow(s), s.remoteWinShift);
    } else {
      ShlMonotone(ScaledWindow(s) + 1, w.window + 1, s.remoteWinShift);
    }
  }

  lemma DueIsSent(cx: Context, s: Tcb, emitOk: bool)
    requires Inv(s) && CxOk(cx, s) && Synchronised(s.state) && !GivesUp(s, cx.now)
    requires (AckToTransmit(s) || WindowToUpdate(s)) && DelayedAckExpired(s, cx.now)
    ensures var d := Dispatch(cx, s, emitOk);
      d.out.Some? && d.out.value.ack == Some(NextExpected(s)) && Promises(s, d.out.value)
  {
    hide SynOk, ShapeOk, BeforeSend, AfterSend, Outgoing, InitialShift, Promises, SeqToTransmit, Asm.Valid, Asm.Extent;
    hide AckToTransmit, WindowToUpdate;
    ConnectedTuple(s);
    BeforeSendKeepsInv(cx, s);
    BeforeSendFrame(cx, s);
    var s1 := BeforeSend(cx, s);
    SameDue(s, s1);
    OutgoingPromises(cx, s1);
    Acknowledges(cx, s1);
    SamePromises(s1, s, Outgoing(cx, s1));
  }

  lemma ConnectedTuple(s: Tcb)
    requires Inv(s) && Synchronised(s.state)
    ensures s.tuple.Some?
  {
  }

  lemma SameDue(s: Tcb, r: Tcb)
    requires s.rx.Valid() && s.rx.Capacity() <= MAX_RX_CAPACITY
    requires r == s.(timer := r.timer, rtte := r.rtte, remoteLastSeq := r.remoteLastSeq, remoteLastTs := r.remoteLastTs)
    ensures AckToTransmit(s) == AckToTransmit(r) && WindowToUpdate(s) == WindowToUpdate(r)
    ensures NextExpected(r) == NextExpected(s)
  {
  }

  lemma Acknowledges(cx: Context, s: Tcb)
    requires Wf(s) && s.tuple.Some? && CxOk(cx, s) && Synchronised(s.state)
    ensures Outgoing(cx, s).ack == Some(NextExpected(s))
  {
    hide Wf, GetAllocated, SegmentRoom, LocalMss, ScaledWindow;
  }

  lemma SamePromises(s: Tcb, r: Tcb, out: Segment)
    requires s.rx.Valid() && s.rx.Capacity() <= MAX_RX_CAPACITY && Promises(s, out)
    requires r.rx == s.rx && r.remoteSeq == s.remoteSeq && r.remoteWinShift == s.remoteWinShift
    ensures Promises(r, out)
  {
  }

  /**
   Over every run, whatever arrives: if a connection has received more than the last segment it sent acknowledged, or
   has more room than that segment said, then the next dispatch that is not held back by the acknowledgement delay
   acknowledges everything and offers all the room; so a read that opens the window leads to a segment that says so.
   */
  lemma NothingLeftUnsaid(rx: Ring, tx: Ring, ops: seq<Op>, cx: Context, emitOk: bool)
    requires FreshRings(rx, tx)
    ensures Inv(NewSocket(rx, tx))
    ensures var s, w := Run(NewSocket(rx, tx), ops), LastWord(NewSocket(rx, tx), ops, SILENCE);
      && Inv(s)
      && (Synchronised(s.state) && CxOk(cx, s) && !GivesUp(s, cx.now) && (Owes(s, w) || Roomier(s, w))
          && DelayedAckExpired(s, cx.now) ==>
            var d := Dispatch(cx, s, emitOk);
            d.out.Some? && d.out.value.ack == Some(NextExpected(s)) && Promises(s, d.out.value))
  {
    hide Inv, Run, LastWord, Dispatch, Promises, Roomier, WindowToUpdate, DelayedAckExpired;
    NewSocketInv(rx, tx);
    RunTells(NewSocket(rx, tx), ops, SILENCE);
    var s, w := Run(NewSocket(rx, tx), ops), LastWord(NewSocket(rx, tx), ops, SILENCE);
    InvIsWf(s);
    RoomierExactly(s, w);
    if Synchronised(s.state) && CxOk(cx, s) && !GivesUp(s, cx.now) && (Owes(s, w) || Roomier(s, w))
       && DelayedAckExpired(s, cx.now) {
      DueIsSent(cx, s, emitOk);
    }
  }
}
