/** The receive side of a socket stays on the peer's stream, segment by segment. */
module TcpReceiver {
  import opened Common
  import opened SeqNumbers
  import opened RingBuffer
  import opened Tcp
  import opened TcpProcess
  import opened TcpInvariant
  import opened TcpStream
  import Asm = AssemblerList

  /** The stream index of the next octet expected. */
  function Taken(s: Tcb, read: seq<Byte>): nat {
    |read| + s.rx.length
  }

  /** The window start as a position: past the SYN, the octets taken and the FIN if it was taken. */
  lemma WindowStartPos(s: Tcb, irs: SeqNumber, peer: seq<Byte>, peerClosed: bool, read: seq<Byte>)
    requires Inv(s) && Synchronised(s.state) && ReceiverOk(s, irs, peer, peerClosed, read) && |peer| < MAX_STREAM
    ensures Taken(s, read) <= |peer| && (s.rxFin ==> Taken(s, read) == |peer|)
    ensures Off(NextExpected(s), irs) == 1 + Taken(s, read) + (if s.rxFin then 1 else 0)
  {
    OffAdd(s.remoteSeq, irs, s.rx.length);
  }

  /** The signed distance the code computes is the distance between stream positions. */
  lemma SegmentAtPos(s: Tcb, seg: Segment, irs: SeqNumber, peer: seq<Byte>, peerClosed: bool, read: seq<Byte>)
    requires Inv(s) && Synchronised(s.state) && ReceiverOk(s, irs, peer, peerClosed, read) && |peer| < MAX_STREAM
    requires PosOf(seg, irs) <= |peer| + 2
    ensures s.rxFin ==> Taken(s, read) == |peer|
    ensures SegmentAt(s, seg) == PosOf(seg, irs) - (1 + Taken(s, read) + (if s.rxFin then 1 else 0))
  {
    WindowStartPos(s, irs, peer, peerClosed, read);
    OffDiff(seg.seqNo, NextExpected(s), irs);
  }

  lemma SliceSlice(peer: seq<Byte>, at: nat, payload: seq<Byte>, from: nat, to: nat)
    requires at + |payload| <= |peer| && payload == peer[at..at + |payload|] && from <= to <= |payload|
    ensures payload[from..to] == peer[at + from..at + to]
  {
    forall i | 0 <= i < to - from
      ensures payload[from..to][i] == peer[at + from..at + to][i]
    {
      assert payload[from + i] == peer[at..at + |payload|][from + i];
    }
  }

  /** What the window test lets through is a piece of the stream, placed where the stream puts it. */
  lemma OverlapOnStream(s: Tcb, seg: Segment, payload: seq<Byte>, offset: nat,
                        irs: SeqNumber, peer: seq<Byte>, peerClosed: bool, read: seq<Byte>)
    requires Inv(s) && Synchronised(s.state) && ReceiverOk(s, irs, peer, peerClosed, read) && |peer| < MAX_STREAM
    requires WireOk(seg) && SegmentInWindow(s, seg) && (payload, offset) == Overlap(s, seg)
    requires CarriesStream(seg, irs, peer, peerClosed, |read| + s.rx.Capacity())
    ensures payload != [] ==>
      && !s.rxFin && Taken(s, read) + offset + |payload| <= |peer|
      && payload == peer[Taken(s, read) + offset..Taken(s, read) + offset + |payload|]
  {
    hide Overlap, SegmentInWindow, SegmentAt, ReceiverOk, PosOf, SynOk, ShapeOk;
    SegmentAtPos(s, seg, irs, peer, peerClosed, read);
    PieceOfStream(peer, seg.payload, PosOf(seg, irs), Taken(s, read), if s.rxFin then 1 else 0,
                  SegmentAt(s, seg), s.rx.Window(), payload, offset);
  }

  lemma PieceOfStream(peer: seq<Byte>, whole: seq<Byte>, k: nat, n: nat, fin: nat, d: int, window: nat,
                      payload: seq<Byte>, offset: nat)
    requires d == k - (1 + n + fin) && (fin > 0 ==> n == |peer|)
    requires whole != [] ==> 1 <= k && k - 1 + |whole| <= |peer| && whole == peer[k - 1..k - 1 + |whole|]
    requires offset == MaxOf(d, 0) && offset + |payload| == MinOf(d + |whole|, window)
    requires payload == whole[offset - d..offset - d + |payload|]
    ensures payload != [] ==>
      && fin == 0 && n + offset + |payload| <= |peer|
      && payload == peer[n + offset..n + offset + |payload|]
  {
    if payload != [] {
      SliceSlice(peer, k - 1, whole, offset - d, offset - d + |payload|);
    }
  }

  /** A FIN that is acted on closes the stream: it comes with all the rest of it, uncut. */
  lemma FinCompletesStream(s: Tcb, seg: Segment, payload: seq<Byte>, offset: nat,
                           irs: SeqNumber, peer: seq<Byte>, peerClosed: bool, read: seq<Byte>)
    requires Inv(s) && Synchronised(s.state) && ReceiverOk(s, irs, peer, peerClosed, read) && |peer| < MAX_STREAM
    requires WireOk(seg) && SegmentInWindow(s, seg) && (payload, offset) == Overlap(s, seg)
    requires CarriesStream(seg, irs, peer, peerClosed, |read| + s.rx.Capacity())
    requires EffectiveControl(s, seg).Fin? && RxOpen(s.state)
    ensures peerClosed && offset == 0 && Taken(s, read) + |payload| == |peer|
  {
    SegmentAtPos(s, seg, irs, peer, peerClosed, read);
    assert SegmentAt(s, seg) == 0;
    hide Overlap, SegmentInWindow, SynOk, Holds;
  }

  /** What is left to show once the state machine has moved: queue, positions and FIN agree. */
  lemma PayloadKeepsReceiver(cx: Context, s: Tcb, seg: Segment, payload: seq<Byte>, offset: nat,
                             irs: SeqNumber, peer: seq<Byte>, peerClosed: bool, read: seq<Byte>)
    requires Inv(s) && Holds(s.rx, s.assembler, read, peer) && !s.state.Listen? && !s.state.SynSent?
    requires Off(s.remoteSeq, irs) == 1 + |read| + (if s.rxFin then 1 else 0)
    requires !s.state.Closed? ==> (s.rxFin <==> !RxOpen(s.state))
    requires s.rxFin ==> peerClosed
    requires s.rxFin ==> Taken(s, read) + |payload| == |peer| && (payload != [] ==> offset == 0)
    requires payload != [] ==>
      && offset + |payload| <= s.rx.Window()
      && Taken(s, read) + offset + |payload| <= |peer|
      && payload == peer[Taken(s, read) + offset..Taken(s, read) + offset + |payload|]
    requires !s.state.SynReceived?
    ensures ApplyPayload(cx, s, seg, payload, offset).s.rx.Valid()
    ensures ReceiverOk(ApplyPayload(cx, s, seg, payload, offset).s, irs, peer, peerClosed, read)
  {
    ApplyPayloadFrame(cx, s, seg, payload, offset);
    var r := ApplyPayload(cx, s, seg, payload, offset).s;
    if payload != [] {
      StoreHolds(s, payload, offset, read, peer);
    }
    hide ApplyPayload, Wf, SynOk, ShapeOk, Off;
    assert Holds(r.rx, r.assembler, read, peer);
    HoldsPrefix(r.rx, r.assembler, read, peer);
  }

  lemma HoldsPrefix(rx: Ring, asm: Asm.Contigs, read: seq<Byte>, peer: seq<Byte>)
    requires rx.Valid() && Holds(rx, asm, read, peer)
    ensures read + rx.Data() <= peer
    ensures |read| + rx.length == |peer| ==> read + rx.Data() == peer
  {
    hide Ring.Data;
    assert peer[..|peer|] == peer;
  }

  /** `ReceiverOk` looks at the state and the receive side only. */
  lemma ReceiverFrame(s: Tcb, s': Tcb, irs: SeqNumber, peer: seq<Byte>, peerClosed: bool, read: seq<Byte>)
    requires s.rx.Valid() && ReceiverOk(s, irs, peer, peerClosed, read)
    requires s'.rx == s.rx && s'.assembler == s.assembler && s'.remoteSeq == s.remoteSeq && s'.rxFin == s.rxFin
    requires s'.state == s.state
    ensures ReceiverOk(s', irs, peer, peerClosed, read)
  {
    hide Holds, Off;
  }

  /** Going to CLOSED keeps what has been taken. */
  lemma ReceiverCloses(s: Tcb, s': Tcb, irs: SeqNumber, peer: seq<Byte>, peerClosed: bool, read: seq<Byte>)
    requires Inv(s) && ReceiverOk(s, irs, peer, peerClosed, read)
    requires s'.rx == s.rx && s'.rxFin == s.rxFin && s'.state.Closed?
    ensures ReceiverOk(s', irs, peer, peerClosed, read)
  {
    if Synchronised(s.state) {
      HoldsPrefix(s.rx, s.assembler, read, peer);
    }
    hide Holds, Wf, SynOk;
  }

  lemma ReceiverRst(s: Tcb, irs: SeqNumber, peer: seq<Byte>, peerClosed: bool, read: seq<Byte>)
    requires Inv(s) && ReceiverOk(s, irs, peer, peerClosed, read)
    ensures ReceiverOk(OnRst(s), irs, peer, peerClosed, read)
  {
    if !s.state.Listen? && !s.state.SynReceived? {
      ReceiverCloses(s, OnRst(s), irs, peer, peerClosed, read);
    }
    hide Holds, Wf, SynOk;
  }

  /** After the state machine has taken a segment of a synchronised connection. */
  lemma ReceiverMoves(s: Tcb, s2: Tcb, fin: bool, payload: seq<Byte>, offset: nat,
                      irs: SeqNumber, peer: seq<Byte>, peerClosed: bool, read: seq<Byte>)
    requires Inv(s) && Synchronised(s.state) && ReceiverOk(s, irs, peer, peerClosed, read) && |peer| < MAX_STREAM
    requires ReceiverShape(s, s2, fin) && s2.rx == s.rx && s2.assembler == s.assembler
    requires fin ==> peerClosed && offset == 0 && Taken(s, read) + |payload| == |peer|
    requires s.rxFin ==> payload == []
    ensures Holds(s2.rx, s2.assembler, read, peer)
    ensures Off(s2.remoteSeq, irs) == 1 + |read| + (if s2.rxFin then 1 else 0)
    ensures !s2.state.Closed? ==> (s2.rxFin <==> !RxOpen(s2.state))
    ensures s2.rxFin ==>
      peerClosed && Taken(s2, read) + |payload| == |peer| && (payload != [] ==> offset == 0)
  {
    OffAdd(s.remoteSeq, irs, 1);
    hide Holds, Wf, SynOk, Off;
  }

  /** A segment that passed both tests, in a synchronised connection. */
  lemma ReceiverAccepted(cx: Context, s: Tcb, seg: Segment, payload: seq<Byte>, offset: nat, isn: SeqNumber,
                         irs: SeqNumber, peer: seq<Byte>, peerClosed: bool, read: seq<Byte>)
    requires Inv(s) && Synchronised(s.state) && ReceiverOk(s, irs, peer, peerClosed, read) && |peer| < MAX_STREAM
    requires WireOk(seg) && CheckAck(s, seg).AckAccept? && SegmentInWindow(s, seg)
    requires (payload, offset) == Overlap(s, seg) && offset + |payload| <= s.rx.Window()
    requires seg.control.Rst? || CarriesStream(seg, irs, peer, peerClosed, |read| + s.rx.Capacity())
    ensures var r := ProcessAccepted(cx, s, seg, payload, offset, isn).s;
      r.rx.Valid() && ReceiverOk(r, irs, peer, peerClosed, read)
  {
    hide Overlap, SegmentInWindow, ReceiverOk, CheckAck, SynOk, ShapeOk, CarriesStream, ProcessAccepted;
    hide RxOpen, EffectiveControl, PosOf, OnRst;
    var s0 := TakeRtt(cx, s, seg);
    TakeRttKeepsInv(cx, s, seg);
    ReceiverFrame(s, s0, irs, peer, peerClosed, read);
    if seg.control.Rst? {
      ReceiverRst(s0, irs, peer, peerClosed, read);
      RstOutcome(cx, s, seg, payload, offset, isn);
    } else {
      OverlapOnStream(s, seg, payload, offset, irs, peer, peerClosed, read);
      if EffectiveControl(s, seg).Fin? && RxOpen(s.state) {
        FinCompletesStream(s, seg, payload, offset, irs, peer, peerClosed, read);
      }
      ReceiverGoes(cx, s, s0, seg, payload, offset, isn, irs, peer, peerClosed, read);
    }
  }

  lemma RstOutcome(cx: Context, s: Tcb, seg: Segment, payload: seq<Byte>, offset: nat, isn: SeqNumber)
    requires Wf(s) && CheckAck(s, seg).AckAccept? && (s.state.Listen? ==> seg.ack.None?)
    requires payload != [] ==> offset + |payload| <= s.rx.Window()
    requires seg.control.Rst?
    ensures ProcessAccepted(cx, s, seg, payload, offset, isn) == Outcome(OnRst(TakeRtt(cx, s, seg)), None)
    ensures OnRst(TakeRtt(cx, s, seg)).rx == s.rx
  {
    hide AckedBy, CheckAck;
  }

  lemma ReceiverGoes(cx: Context, s: Tcb, s0: Tcb, seg: Segment, payload: seq<Byte>, offset: nat, isn: SeqNumber,
                     irs: SeqNumber, peer: seq<Byte>, peerClosed: bool, read: seq<Byte>)
    requires Inv(s) && Synchronised(s.state) && |peer| < MAX_STREAM
    requires s0 == TakeRtt(cx, s, seg) && Inv(s0) && ReceiverOk(s0, irs, peer, peerClosed, read)
    requires WireOk(seg) && CheckAck(s, seg).AckAccept? && !seg.control.Rst?
    requires payload != [] ==>
      && !s.rxFin && offset + |payload| <= s.rx.Window()
      && Taken(s, read) + offset + |payload| <= |peer|
      && payload == peer[Taken(s, read) + offset..Taken(s, read) + offset + |payload|]
    requires EffectiveControl(s, seg).Fin? && RxOpen(s.state) ==>
      peerClosed && offset == 0 && Taken(s, read) + |payload| == |peer|
    ensures var r := ProcessAccepted(cx, s, seg, payload, offset, isn).s;
      r.rx.Valid() && ReceiverOk(r, irs, peer, peerClosed, read)
  {
    var ack := AckedBy(s, seg);
    var control := EffectiveControl(s, seg);
    assert control == EffectiveControl(s0, seg);
    SyncTransition(cx, s0, seg, ack, isn);
    AcceptedGoKeepsInv(cx, s, seg, isn);
    var next := Transition(cx, s0, seg, control, ack, isn);
    hide TakeRtt, AckedBy, CheckAck, SynOk, ShapeOk, Wf, Transition, EffectiveControl, ReceiverOk, ReceiverShape;
    hide Holds, Off, RxOpen, ApplyPayload;
    if next.Go? {
      var s2 := ApplyAck(cx, next.s, seg, ack.len);
      ApplyAckReceiver(cx, next.s, seg, ack.len);
      ReceiverShapeFrame(s0, next.s, s2, control.Fin?);
      ReceiverMoves(s0, s2, control.Fin?, payload, offset, irs, peer, peerClosed, read);
      PayloadKeepsReceiver(cx, s2, seg, payload, offset, irs, peer, peerClosed, read);
    }
  }

  lemma ApplyAckReceiver(cx: Context, s: Tcb, seg: Segment, ackLen: nat)
    requires s.tx.Valid() && ackLen <= s.tx.length
    ensures var r := ApplyAck(cx, s, seg, ackLen);
      && r.rx == s.rx && r.assembler == s.assembler && r.remoteSeq == s.remoteSeq && r.rxFin == s.rxFin
      && r.state == s.state && r.tuple == s.tuple && r.remoteWinScale == s.remoteWinScale
      && r.remoteWinShift == s.remoteWinShift && r.keepAlive == s.keepAlive
      && (seg.ack.Some? ==> r.localSeq == seg.ack.value) && r.remoteWinLen == RemoteWindow(s, seg)
  {
  }

  lemma ReceiverShapeFrame(s: Tcb, s1: Tcb, s2: Tcb, fin: bool)
    requires s.rx.Valid() && s.rx.Capacity() <= MAX_RX_CAPACITY && ReceiverShape(s, s1, fin)
    requires s2.remoteSeq == s1.remoteSeq && s2.rxFin == s1.rxFin && s2.state == s1.state
    ensures ReceiverShape(s, s2, fin)
    ensures fin ==> RxOpen(s.state)
  {
  }

  /** A SYN from the peer's initial sequence number starts the receive side at position 1. */
  lemma ReceiverOpens(cx: Context, s: Tcb, seg: Segment, isn: SeqNumber,
                      irs: SeqNumber, peer: seq<Byte>, peerClosed: bool, read: seq<Byte>)
    requires Inv(s) && (s.state.Listen? || s.state.SynSent?) && ReceiverOk(s, irs, peer, peerClosed, read)
    requires CheckAck(s, seg).AckAccept? && (s.state.Listen? ==> seg.ack.None?)
    requires seg.control.Syn? ==> seg.seqNo == irs
    ensures var r := ProcessAccepted(cx, s, seg, [], 0, isn).s;
      r.rx.Valid() && ReceiverOk(r, irs, peer, peerClosed, read)
  {
    hide AckedBy, CheckAck, SynOk, Holds, IdleFor, OnFin, OnPlain;
    var s0 := TakeRtt(cx, s, seg);
    if seg.control.Syn? {
      OpenedHolds(s.rx, s.assembler, peer);
    } else if seg.control.Rst? {
      RstOutcome(cx, s, seg, [], 0, isn);
    } else {
      TakeRttKeepsInv(cx, s, seg);
      UnsynchronisedStops(cx, s0, seg, AckedBy(s, seg), isn);
    }
  }

  lemma OpenedHolds(rx: Ring, asm: Asm.Contigs, peer: seq<Byte>)
    requires rx.Valid() && rx.length == 0 && asm.Nil?
    ensures Holds(rx, asm, [], peer)
  {
  }
}
