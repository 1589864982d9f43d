/**
 What the calls of the application answer, over every run against arbitrary segments: everything received can be read,
 and after it the end is announced exactly if the peer announced it; an open connection is not opened again.
 */
module TcpCalls {
  import opened Common
  import opened SeqNumbers
  import opened RingBuffer
  import opened Tcp
  import opened TcpProcess
  import opened TcpDispatch
  import opened TcpInvariant
  import opened TcpStream
  import opened TcpReceiver
  import opened TcpSide
  import opened TcpPeer
  import Asm = AssemblerList

  // ---- the peer's FIN ----

  /** In a connection the FIN of the peer is remembered exactly in the states that follow it. */
  predicate FinKnown(s: Tcb) {
    (Synchronised(s.state) ==> (s.rxFin <==> !RxOpen(s.state))) && (s.state.Listen? || s.state.SynSent? ==> !s.rxFin)
  }

  lemma AcceptedFin(cx: Context, s: Tcb, seg: Segment, payload: seq<Byte>, offset: nat, isn: SeqNumber)
    requires Inv(s) && Synchronised(s.state) && WireOk(seg) && CheckAck(s, seg).AckAccept? && FinKnown(s)
    requires payload != [] ==> offset + |payload| <= s.rx.Window()
    ensures FinKnown(ProcessAccepted(cx, s, seg, payload, offset, isn).s)
  {
    hide CheckAck, AckedBy, SynOk, ShapeOk, StorePayload, ApplyPayload, ApplyAck, Asm.Valid, Asm.Extent;
    hide EffectiveControl, Transition;
    var s0 := TakeRtt(cx, s, seg);
    TakeRttKeepsInv(cx, s, seg);
    AckedByIgnoresRtt(s, s0, seg);
    ControlIgnoresRtt(s, s0, seg);
    hide TakeRtt;
    var ack := AckedBy(s, seg);
    if seg.control.Rst? {
      RstOutcome(cx, s, seg, payload, offset, isn);
    } else {
      SyncTransition(cx, s0, seg, ack, isn);
      AcceptedGoKeepsInv(cx, s, seg, isn);
      var next := Transition(cx, s0, seg, EffectiveControl(s, seg), ack, isn);
      if next.Go? {
        ApplyAckReceiver(cx, next.s, seg, ack.len);
        ApplyPayloadFrame(cx, ApplyAck(cx, next.s, seg, ack.len), seg, payload, offset);
      }
    }
  }

  lemma ArriveFin(cx: Context, s: Tcb, seg: Segment, isn: SeqNumber)
    requires Inv(s) && Accepts(s, seg) && WireOk(seg) && FinKnown(s)
    ensures FinKnown(Process(cx, s, seg, isn).s)
  {
    hide CheckAck, SegmentInWindow, ProcessAccepted, Overlap, SynOk, ShapeOk, Asm.Valid, Asm.Extent, NextExpected;
    hide ScaledWindow, RstReply;
    if CheckAck(s, seg).AckAccept? {
      if s.state.Listen? || s.state.SynSent? {
        OpeningFin(cx, s, seg, isn);
      } else if SegmentInWindow(s, seg) {
        var (payload, offset) := Overlap(s, seg);
        AcceptedFin(cx, s, seg, payload, offset, isn);
      }
    }
  }

  lemma OpeningFin(cx: Context, s: Tcb, seg: Segment, isn: SeqNumber)
    requires Inv(s) && (s.state.Listen? || s.state.SynSent?) && Accepts(s, seg) && CheckAck(s, seg).AckAccept?
    requires FinKnown(s)
    ensures FinKnown(ProcessAccepted(cx, s, seg, [], 0, isn).s)
  {
    hide SynOk, ShapeOk, Asm.Valid, Asm.Extent, RemoteWindow, AckedBy, CheckAck, Lt;
    if seg.control.Rst? {
      RstOutcome(cx, s, seg, [], 0, isn);
    } else if !seg.control.Syn? {
      TakeRttKeepsInv(cx, s, seg);
      UnsynchronisedStops(cx, TakeRtt(cx, s, seg), seg, AckedBy(s, seg), isn);
    }
  }

  lemma EgressFin(cx: Context, s: Tcb, emitOk: bool)
    requires Inv(s) && CxOk(cx, s) && FinKnown(s)
    ensures FinKnown(Dispatch(cx, s, emitOk).s)
  {
    hide SynOk, ShapeOk, Wf, BeforeSend, WhatToDo, AfterSend, Outgoing, InitialShift;
    if s.tuple.Some? {
      BeforeSendKeepsInv(cx, s);
      BeforeSendFrame(cx, s);
      var s1 := BeforeSend(cx, s);
      if WhatToDo(cx, s1).SendSegment? {
        AfterSendFrame(cx, s1);
      }
    }
  }

  lemma StepFin(s: Tcb, op: Op)
    requires Inv(s) && FinKnown(s)
    ensures FinKnown(Apply(s, op))
  {
    hide SynOk, ShapeOk, Wf, Process, Dispatch, InitialShift, EnqueueSlice, Dequeue;
    match op
    case Arrive(cx, seg, isn) =>
      if Accepts(s, seg) && WireOk(seg) {
        ArriveFin(cx, s, seg, isn);
      }
    case Egress(cx, emitOk) =>
      if CxOk(cx, s) {
        EgressFin(cx, s, emitOk);
      }
    case _ =>
  }

  lemma {:induction false} RunFin(s: Tcb, ops: seq<Op>)
    requires Inv(s) && FinKnown(s)
    ensures Inv(Run(s, ops)) && FinKnown(Run(s, ops))
    decreases |ops|
  {
    hide Inv, Apply, FinKnown;
    if ops != [] {
      ApplyKeepsInv(s, ops[0]);
      StepFin(s, ops[0]);
      RunFin(Apply(s, ops[0]), ops[1..]);
    }
  }

  /** The application is handed the front of the queue, as much as it asks for and is there, and that much is gone. */
  predicate HandsOut(s: Tcb, size: nat, r: Tcb, answer: RecvResult)
    requires s.rx.Valid() && r.rx.Valid()
  {
    && answer.Received? && |answer.data| == MinOf(size, s.rx.length)
    && answer.data + r.rx.Data() == s.rx.Data()
  }

  lemma ReadsQueue(s: Tcb, size: nat)
    requires Inv(s) && MayRecv(s)
    ensures var (r, answer) := RecvSlice(s, size);
      Inv(r) && r.state == s.state && r.rxFin == s.rxFin && HandsOut(s, size, r, answer)
  {
    RecvKeepsInv(s, size);
    var n := MinOf(size, s.rx.length);
    DequeueDrops(s.rx, n);
    hide Dequeue, SynOk, ShapeOk, Asm.Valid, Asm.Extent;
    assert s.rx.Data()[..n] + s.rx.Data()[n..] == s.rx.Data();
  }

  /**
   Over every run: as long as the peer may send, and as long as anything is queued, `recv_slice` hands out the front of
   the queue. With the queue empty and the peer done, it says `Finished` in a connection, and nothing else ever says it
   there.
   */
  lemma ReadsToEnd(rx: Ring, tx: Ring, ops: seq<Op>, size: nat)
    requires FreshRings(rx, tx)
    ensures Inv(NewSocket(rx, tx))
    ensures var s := Run(NewSocket(rx, tx), ops);
      && Inv(s)
      && var (r, answer) := RecvSlice(s, size);
         && Inv(r)
         && (s.rx.length > 0 || (RxOpen(s.state) && !s.state.SynReceived?) ==> HandsOut(s, size, r, answer))
         && (s.rx.length == 0 && Synchronised(s.state) && !RxOpen(s.state) ==> r == s && answer.Finished?)
         && (Synchronised(s.state) && answer.Finished? ==> s.rx.length == 0 && !RxOpen(s.state))
         && (s.state.Listen? || s.state.SynSent? || s.state.SynReceived? ==> r == s && answer.RecvInvalidState?)
  {
    hide Run, SynOk, Asm.Valid, Asm.Extent, Dequeue, Diff;
    NewSocketInv(rx, tx);
    RunFin(NewSocket(rx, tx), ops);
    var s := Run(NewSocket(rx, tx), ops);
    RecvKeepsInv(s, size);
    if MayRecv(s) {
      ReadsQueue(s, size);
    }
  }

  // ---- opening ----

  /** Both can be reached, and have addresses of one kind. */
  predicate Addressable(local: Endpoint, remote: Endpoint) {
    && local.port != 0 && remote.port != 0 && local.addr.bits != 0 && remote.addr.bits != 0
    && local.addr.V4? == remote.addr.V4?
  }

  /**
   Opening succeeds only for a socket that is closed or in TIME-WAIT, except that `listen` may be repeated; it then
   waits for, or is about to send, a SYN. A call that fails changes nothing, and so does one on an open socket.
   */
  lemma OpensOnce(s: Tcb, at: ListenEndpoint, local: Endpoint, remote: Endpoint, isn: SeqNumber)
    requires Inv(s)
    ensures IsOpen(s.state) <==> !s.state.Closed? && !s.state.TimeWait?
    ensures var (r, answer) := ListenOn(s, at);
      && (answer.OpenOk? <==> at.port != 0 && (!IsOpen(s.state) || (s.state.Listen? && s.listenEndpoint == at)))
      && (answer.OpenOk? ==> r.state.Listen? && r.listenEndpoint == at && r.tuple.None?)
      && (!answer.OpenOk? || IsOpen(s.state) ==> r == s)
    ensures var (r, answer) := Connect(s, local, remote, isn);
      && (answer.OpenOk? <==> !IsOpen(s.state) && Addressable(local, remote))
      && (answer.OpenOk? ==>
            && r.state.SynSent? && r.tuple == Some(Tuple(local, remote)) && r.localSeq == isn && r.remoteLastSeq == isn
            && r.tx.length == 0 && r.rx.length == 0)
      && (!answer.OpenOk? ==> r == s)
  {
    hide SynOk, Asm.Valid, Asm.Extent, InitialShift;
  }

  /** The segment is a SYN to this endpoint, and one that can be answered. */
  predicate Invites(at: ListenEndpoint, seg: Segment) {
    && seg.control.Syn? && seg.ack.None? && seg.maxSegSize != Some(0)
    && seg.dst.port == at.port && (at.addr.Some? ==> seg.dst.addr == at.addr.value)
  }

  /** After `listen` exactly a SYN to the endpoint given opens a connection. */
  lemma ListensWhereTold(s: Tcb, at: ListenEndpoint, cx: Context, seg: Segment, isn: SeqNumber)
    requires Inv(s) && WireOk(seg) && ListenOn(s, at).1.OpenOk?
    ensures var r := ListenOn(s, at).0;
      Inv(r) && (Synchronised(Apply(r, Arrive(cx, seg, isn)).state) <==> Invites(at, seg))
  {
    hide Process, SynOk, Asm.Valid, Asm.Extent, InitialShift, Diff;
    ListenKeepsInv(s, at);
    OpensOnce(s, at, Endpoint(V4(0), 0), Endpoint(V4(0), 0), 0);
    var r := ListenOn(s, at).0;
    if Accepts(r, seg) {
      OpeningPeer(cx, r, seg, isn);
    }
  }
}
