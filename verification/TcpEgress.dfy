/** What one end sends, and what the calls of its application do, in the terms of both streams. */
module TcpEgress {
  import opened Common
  import opened SeqNumbers
  import opened RingBuffer
  import opened RttEstimation
  import opened Tcp
  import opened TcpDispatch
  import opened TcpPoll
  import opened TcpWindow
  import opened TcpInvariant
  import opened TcpStream
  import opened TcpReceiver
  import opened TcpSide
  import Asm = AssemblerList

  // ---- before the decision to send ----

  lemma CloseSide(x: Side, y: Side, s: Tcb)
    requires SideOk(x, y) && Inv(s) && s == x.s.(state := Closed, remoteLastTs := s.remoteLastTs)
    ensures SideOk(x.(s := s), y) && Grows(x, x.(s := s))
  {
    hide SynOk, ShapeOk, SenderOk, ReceiverOk, InitialShift, Off;
    SenderFrame(x.s, s, x.iss, x.sent);
    ReceiverCloses(x.s, s, y.iss, y.sent, y.closed, x.read);
  }

  lemma StartClockSide(x: Side, y: Side, now: int)
    requires SideOk(x, y)
    ensures SideOk(x.(s := StartClock(x.s, now)), y)
  {
    hide SynOk, ShapeOk, SenderOk, ReceiverOk, InitialShift, Off;
    StartClockKeepsInv(x.s, now);
    SideFrame(x, y, StartClock(x.s, now));
  }

  lemma RewindSide(x: Side, y: Side, now: int)
    requires SideOk(x, y)
    ensures SideOk(x.(s := Rewind(x.s, now)), y)
  {
    hide SynOk, ShapeOk, SenderOk, ReceiverOk, InitialShift, Off, OnRetransmit;
    RewindKeepsInv(x.s, now);
    SideFrame(x, y, Rewind(x.s, now));
  }

  lemma BeforeSendSide(cx: Context, x: Side, y: Side)
    requires SideOk(x, y) && x.s.tuple.Some? && CxOk(cx, x.s)
    ensures var s := BeforeSend(cx, x.s);
      SideOk(x.(s := s), y) && Grows(x, x.(s := s))
  {
    hide SynOk, ShapeOk, SenderOk, ReceiverOk, InitialShift, Off, SeqToTransmit, Windows, OnRetransmit, Asm.Valid;
    var x1 := x.(s := StartClock(x.s, cx.now));
    StartClockSide(x, y, cx.now);
    RewindSide(x1, y, cx.now);
    AbortKeepsInv(x1.s);
    CloseSide(x1, y, Abort(x1.s));
  }

  lemma ResetSide(x: Side, y: Side)
    requires SideOk(x, y)
    ensures SideOk(x.(s := Reset(x.s)), y) && Grows(x, x.(s := Reset(x.s)))
  {
    hide SynOk, ShapeOk, InitialShift, Off, Diff;
    ResetKeepsInv(x.s);
    if Synchronised(x.s.state) {
      HoldsPrefix(x.s.rx, x.s.assembler, x.read, y.sent);
    }
    hide Holds;
  }

  // ---- the segment sent ----

  /** Octets `[una - 1 + offset, + n)` of the stream, which the transmit buffer holds at `offset`. */
  lemma SliceOfSent(sent: seq<Byte>, una: nat, offset: nat, n: nat)
    requires 1 <= una && una - 1 + offset + n <= |sent|
    ensures sent[una - 1..][offset..offset + n] == sent[una - 1 + offset..una - 1 + offset + n]
  {
  }

  /** The payload of a data segment is the piece of the stream its sequence number says it is. */
  lemma PayloadOfStream(cx: Context, s: Tcb, iss: SeqNumber, sent: seq<Byte>)
    requires Inv(s) && SenderOk(s, iss, sent) && DataState(s.state) && s.tuple.Some? && CxOk(cx, s)
    ensures var seg := DataSegment(cx, s); var k := PosOf(seg, iss);
      && |seg.payload| <= SegmentRoom(cx, s)
      && (seg.payload != [] ==>
            1 <= k && k - 1 + |seg.payload| <= |sent| && seg.payload == sent[k - 1..k - 1 + |seg.payload|])
      && (seg.control.Fin? ==>
            SentFin(s.state) && (k - 1 + |seg.payload| == |sent| || (k == 0 && ClosedEarly(s, iss) && sent == [])))
      && seg.seqNo == s.remoteLastSeq
  {
    hide SynOk, ShapeOk, SegmentRoom, Ring.Data, Off, ScaledWindow, NextExpected, GetAllocated;
    NextSeqPos(s, iss, sent);
    DataSegmentFits(cx, s);
    OffSelf(iss);
    var offset := Diff(s.remoteLastSeq, s.localSeq);
    var room := SegmentRoom(cx, s);
    GetAllocatedIsPrefix(s.tx, offset, room);
    var payload := GetAllocated(s.tx, offset, room);
    if payload != [] {
      SliceOfSent(sent, Una(s, iss), offset, |payload|);
    }
  }

  /** What the remote window lets one segment carry ends at the window's right edge. */
  lemma RoomEndsAtWindow(cx: Context, s: Tcb)
    requires Wf(s) && s.tuple.Some? && CxOk(cx, s) && s.tx.Capacity() < I32_MAX
    ensures SegmentRoom(cx, s) > 0 ==> Diff(s.remoteLastSeq, s.localSeq) + SegmentRoom(cx, s) <= s.remoteWinLen
    ensures SegmentRoom(cx, s) <= s.remoteMss && SegmentRoom(cx, s) <= LocalMss(cx, s)
  {
    hide Asm.Valid, Asm.Extent;
  }

  lemma DataSegmentOk(cx: Context, x: Side, y: Side)
    requires SideOk(x, y) && DataState(x.s.state) && x.s.tuple.Some? && CxOk(cx, x.s)
    ensures SegOk(DataSegment(cx, x.s), x, y)
  {
    hide SynOk, ShapeOk, SenderOk, ReceiverOk, InitialShift, Off, SegmentRoom, GetAllocated, Shl, Shr;
    PayloadOfStream(cx, x.s, x.iss, x.sent);
    RoomEndsAtWindow(cx, x.s);
    NextSeqPos(x.s, x.iss, x.sent);
    AdvertisedFits(x.s);
    PromiseWithinRoom(x, y, ScaledWindow(x.s), x.s.remoteWinShift);
  }

  lemma BareSegmentOk(x: Side, y: Side)
    requires SideOk(x, y) && Synchronised(x.s.state) && x.s.tuple.Some?
    ensures SegOk(BareSegment(x.s), x, y)
  {
    hide SynOk, ShapeOk, SenderOk, ReceiverOk, InitialShift, Off, Shl, Shr;
    NextSeqPos(x.s, x.iss, x.sent);
    AdvertisedFits(x.s);
    PromiseWithinRoom(x, y, ScaledWindow(x.s), x.s.remoteWinShift);
  }

  lemma SynSegmentOk(cx: Context, x: Side, y: Side)
    requires SideOk(x, y) && SentSyn(x.s.state) && x.s.tuple.Some? && CxOk(cx, x.s)
    requires x.s.remoteLastSeq == x.s.localSeq
    ensures SegOk(SynSegment(cx, x.s), x, y)
  {
    hide SynOk, ReceiverOk, InitialShift, Off, Ring.Data;
    OffSelf(x.iss);
    ShiftWithinRfc(x.s.rx.Capacity());
    if x.s.state.SynReceived? {
      PromiseWithinRoom(x, y, MinOf(x.s.rx.Window(), 0xffff), 0);
    }
  }

  lemma DraftOk(cx: Context, x: Side, y: Side)
    requires SideOk(x, y) && x.s.tuple.Some? && CxOk(cx, x.s) && WhatToDo(cx, x.s).SendSegment?
    ensures SegOk(Outgoing(cx, x.s), x, y)
  {
    hide SynOk, SenderOk, ReceiverOk, InitialShift, Off, Shl, Shr, SynSegment, DataSegment;
    SynSentFirst(cx, x.s);
    hide WhatToDo;
    if SentSyn(x.s.state) {
      SynSegmentOk(cx, x, y);
    } else if DataState(x.s.state) {
      DataSegmentOk(cx, x, y);
    } else if Synchronised(x.s.state) {
      BareSegmentOk(x, y);
    }
  }

  lemma DispatchSide(cx: Context, x: Side, y: Side, emitOk: bool)
    requires SideOk(x, y) && CxOk(cx, x.s)
    ensures var r := Dispatch(cx, x.s, emitOk);
      && SideOk(x.(s := r.s), y) && Grows(x, x.(s := r.s))
      && (r.out.Some? ==> SegOk(r.out.value, x.(s := r.s), y))
  {
    hide SynOk, ShapeOk, SenderOk, ReceiverOk, InitialShift, Off, BeforeSend, WhatToDo, Outgoing, SegOk, Windows;
    if x.s.tuple.Some? {
      BeforeSendSide(cx, x, y);
      BeforeSendKeepsInv(cx, x.s);
      var x1 := x.(s := BeforeSend(cx, x.s));
      ResetSide(x1, y);
      if WhatToDo(cx, x1.s).SendSegment? {
        AfterSendSide(cx, x1, y);
        DraftOk(cx, x1, y);
        SegOkGrows(Outgoing(cx, x1.s), x1, y, x1.(s := AfterSend(cx, x1.s)), y);
      }
    }
  }

  lemma AfterSendSide(cx: Context, x: Side, y: Side)
    requires SideOk(x, y) && x.s.tuple.Some? && CxOk(cx, x.s) && WhatToDo(cx, x.s).SendSegment?
    ensures var s := AfterSend(cx, x.s);
      SideOk(x.(s := s), y) && Grows(x, x.(s := s))
  {
    hide SynOk, ShapeOk, SenderOk, ReceiverOk, InitialShift, Off, WhatToDo, Draft, SeqToTransmit;
    hide RetransmissionTimeout, OnSend;
    AfterSendKeepsInv(cx, x.s);
    SideFrame(x, y, AfterSend(cx, x.s));
  }

  // ---- user calls ----

  /** `send_slice`: the octets taken go onto the stream. */
  function Sent(x: Side, data: seq<Byte>): (r: Side)
    requires x.s.tx.Valid()
  {
    var (s, n) := SendSlice(x.s, data);
    x.(s := s, sent := x.sent + (if n.Some? && n.value <= |data| then data[..n.value] else []))
  }

  lemma AppendTail(sent: seq<Byte>, data: seq<Byte>, a: nat)
    requires a <= |sent|
    ensures (sent + data)[a..] == sent[a..] + data
  {
  }

  lemma SendStream(s: Tcb, data: seq<Byte>, iss: SeqNumber, sent: seq<Byte>)
    requires s.tx.Valid() && SenderOk(s, iss, sent) && |sent| + |data| < MAX_STREAM && MaySend(s)
    ensures var (s', n) := SendSlice(s, data);
      && n.Some? && n.value <= |data| && s'.tx.Valid()
      && s' == s.(tx := s'.tx, remoteLastTs := s'.remoteLastTs)
      && SenderOk(s', iss, sent + data[..n.value])
  {
    hide EnqueueSlice, Off, Ring.Data;
    EnqueueSliceAppends(s.tx, data);
    var (tx', n) := EnqueueSlice(s.tx, data);
    AppendTail(sent, data[..n], Una(s, iss) - 1);
  }

  lemma SendSide(x: Side, y: Side, data: seq<Byte>)
    requires SideOk(x, y) && |x.sent| + |data| < MAX_STREAM
    ensures SideOk(Sent(x, data), y) && Grows(x, Sent(x, data)) && |Sent(x, data).sent| < MAX_STREAM
  {
    hide SynOk, ShapeOk, SenderOk, ReceiverOk, InitialShift, Off, SendSlice;
    SendKeepsInv(x.s, data);
    if MaySend(x.s) {
      SendStream(x.s, data, x.iss, x.sent);
      ReceiverFrame(x.s, SendSlice(x.s, data).0, y.iss, y.sent, y.closed, x.read);
    } else {
      NoSend(x, data);
    }
  }

  lemma NoSend(x: Side, data: seq<Byte>)
    requires x.s.tx.Valid() && !MaySend(x.s)
    ensures Sent(x, data) == x
  {
  }

  /** `recv_slice`: the octets dequeued have been given to the application. */
  function Given(x: Side, size: nat): Side
    requires x.s.rx.Valid() && x.s.rx.Capacity() <= MAX_RX_CAPACITY
  {
    var (s, r) := RecvSlice(x.s, size);
    x.(s := s, read := x.read + (if r.Received? then r.data else []))
  }

  lemma RegroupRead(read: seq<Byte>, data: seq<Byte>, n: nat)
    requires n <= |data|
    ensures (read + data[..n]) + data[n..] == read + data
  {
    assert data[..n] + data[n..] == data;
  }

  lemma HoldsAfterRead(rx: Ring, asm: Asm.Contigs, n: nat, read: seq<Byte>, peer: seq<Byte>)
    requires rx.Valid() && Holds(rx, asm, read, peer) && n <= rx.length
    ensures Holds(Dequeue(rx, n), asm, read + rx.Data()[..n], peer)
  {
    hide Ring.Data, Ring.Free;
    DequeueDrops(rx, n);
    RegroupRead(read, rx.Data(), n);
    var rx' := Dequeue(rx, n);
    forall o: int | Asm.Has(asm, o)
      ensures Placed(rx', o, |read| + rx.length, peer)
    {
      assert Placed(rx, o, |read| + rx.length, peer);
    }
  }

  lemma RecvStream(s: Tcb, size: nat, irs: SeqNumber, peer: seq<Byte>, peerClosed: bool, read: seq<Byte>)
    requires Inv(s) && ReceiverOk(s, irs, peer, peerClosed, read) && |peer| < MAX_STREAM && MayRecv(s)
    ensures var (s', r) := RecvSlice(s, size);
      && r.Received? && s'.rx.Valid() && s'.rx.Capacity() == s.rx.Capacity()
      && s' == s.(rx := s'.rx, remoteSeq := s'.remoteSeq)
      && ReceiverOk(s', irs, peer, peerClosed, read + r.data)
  {
    hide Ring.Data, Off, SynOk, Holds;
    var n := MinOf(size, s.rx.length);
    DequeueDrops(s.rx, n);
    RegroupRead(read, s.rx.Data(), n);
    if Synchronised(s.state) {
      HoldsPrefix(s.rx, s.assembler, read, peer);
      HoldsAfterRead(s.rx, s.assembler, n, read, peer);
      OffAdd(s.remoteSeq, irs, n);
    }
  }

  lemma RecvSide(x: Side, y: Side, size: nat)
    requires SideOk(x, y)
    ensures SideOk(Given(x, size), y) && Grows(x, Given(x, size))
  {
    hide SynOk, ShapeOk, SenderOk, ReceiverOk, InitialShift, Off, RecvSlice;
    RecvKeepsInv(x.s, size);
    if MayRecv(x.s) {
      RecvStream(x.s, size, y.iss, y.sent, y.closed, x.read);
      SenderFrame(x.s, RecvSlice(x.s, size).0, x.iss, x.sent);
    } else {
      NoRecv(x, size);
    }
  }

  lemma NoRecv(x: Side, size: nat)
    requires x.s.rx.Valid() && x.s.rx.Capacity() <= MAX_RX_CAPACITY && !MayRecv(x.s)
    ensures Given(x, size) == x
  {
  }

  /** `close`: this half of the connection is complete, unless there is no connection yet. */
  function Shutdown(x: Side): Side {
    x.(s := CloseCall(x.s), closed := x.closed || Shut(CloseCall(x.s).state))
  }

  lemma CloseSender(s: Tcb, iss: SeqNumber, sent: seq<Byte>)
    requires s.tx.Valid() && SenderOk(s, iss, sent) && (SentSyn(s.state) ==> s.tx.length == 0)
    ensures SenderOk(CloseCall(s), iss, sent)
  {
    hide Off, Ring.Data;
    OffSelf(iss);
  }

  lemma CloseReceiver(s: Tcb, irs: SeqNumber, peer: seq<Byte>, peerClosed: bool, read: seq<Byte>)
    requires Inv(s) && ReceiverOk(s, irs, peer, peerClosed, read)
    ensures ReceiverOk(CloseCall(s), irs, peer, peerClosed, read)
  {
    hide SynOk, ShapeOk, Off, Holds, Ring.Data;
    if s.state.Listen? || s.state.SynSent? {
      ReceiverCloses(s, CloseCall(s), irs, peer, peerClosed, read);
    }
  }

  lemma ShutdownSide(x: Side, y: Side)
    requires SideOk(x, y)
    ensures SideOk(Shutdown(x), y) && Grows(x, Shutdown(x))
  {
    hide SynOk, Wf, InitialShift, Off, Holds, Ring.Data, SenderOk, ReceiverOk;
    InvIsWf(x.s);
    CloseKeepsInv(x.s);
    CloseBuffers(x.s);
    CloseSender(x.s, x.iss, x.sent);
    CloseReceiver(x.s, y.iss, y.sent, y.closed, x.read);
  }

  lemma CloseBuffers(s: Tcb)
    requires Inv(s)
    ensures s.tx.Valid() && s.rx.Valid() && (SentSyn(s.state) ==> s.tx.length == 0)
  {
  }

  lemma AbortSide(x: Side, y: Side)
    requires SideOk(x, y)
    ensures SideOk(x.(s := Abort(x.s)), y) && Grows(x, x.(s := Abort(x.s)))
  {
    hide SynOk, ShapeOk, SenderOk, ReceiverOk, InitialShift, Off;
    AbortKeepsInv(x.s);
    CloseSide(x, y, Abort(x.s));
  }
}
