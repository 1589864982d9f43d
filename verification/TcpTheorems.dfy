/** What two sockets give their applications, whatever the network does and for as long as it does it. */
module TcpTheorems {
  import opened Common
  import opened SeqNumbers
  import opened RingBuffer
  import opened Tcp
  import opened TcpProcess
  import opened TcpDispatch
  import opened TcpWindow
  import opened TcpInvariant
  import opened TcpStream
  import opened TcpReceiver
  import opened TcpSide
  import opened TcpEgress
  import opened TcpSystem
  import opened TcpGraceful
  import opened TcpAcknowledged
  import Asm = AssemblerList

  // ---- one direction ----

  /** What has been read and what is queued is a prefix of what the peer's application enqueued. */
  lemma ReadIsPrefix(x: Side, y: Side)
    requires SideOk(x, y)
    ensures x.read + x.s.rx.Data() <= y.sent
  {
    hide SynOk, Windows, SenderOk, Holds, Ring.Data, Off;
    if Synchronised(x.s.state) {
      HoldsPrefix(x.s.rx, x.s.assembler, x.read, y.sent);
    } else if !x.s.state.Closed? {
      assert x.s.rx.Data() == [] by { EmptyData(x.s.rx); }
    }
  }

  lemma EmptyData(rx: Ring)
    requires rx.Valid() && rx.length == 0
    ensures rx.Data() == []
  {
  }

  /** `recv` says `Finished` only to an application that has the peer's whole stream. */
  lemma FinishedIsWhole(x: Side, y: Side, size: nat)
    requires SideOk(x, y) && RecvSlice(x.s, size).1.Finished?
    ensures x.read == y.sent && y.closed
  {
    hide SynOk, Windows, SenderOk, Holds, Off;
    EmptyData(x.s.rx);
    if Synchronised(x.s.state) {
      HoldsPrefix(x.s.rx, x.s.assembler, x.read, y.sent);
    }
  }

  // ---- every run ----

  /**
   In every reachable state of the two sockets, in both directions: the octets read, followed by those
   waiting to be read, are a prefix of the octets the other application enqueued.
   */
  lemma PrefixSafety(rxA: Ring, txA: Ring, rxB: Ring, txB: Ring, local: Endpoint, remote: Endpoint,
                     at: ListenEndpoint, issA: SeqNumber, issB: SeqNumber, es: seq<(Who, Event)>)
    requires SmallRings(rxA, txA) && SmallRings(rxB, txB)
    ensures SystemOk(Start(rxA, txA, rxB, txB, local, remote, at, issA, issB))
    ensures var sys := After(Start(rxA, txA, rxB, txB, local, remote, at, issA, issB), es);
      && sys.b.s.rx.Valid() && sys.b.read + sys.b.s.rx.Data() <= sys.a.sent
      && sys.a.s.rx.Valid() && sys.a.read + sys.a.s.rx.Data() <= sys.b.sent
  {
    hide SynOk, ShapeOk, Windows, SenderOk, ReceiverOk, SegOk, Ring.Data, Start, Step;
    StartOk(rxA, txA, rxB, txB, local, remote, at, issA, issB);
    AfterOk(Start(rxA, txA, rxB, txB, local, remote, at, issA, issB), es);
    var sys := After(Start(rxA, txA, rxB, txB, local, remote, at, issA, issB), es);
    ReadIsPrefix(sys.b, sys.a);
    ReadIsPrefix(sys.a, sys.b);
  }

  /** A graceful end is a complete one: the reader has all the writer ever enqueued, and the writer closed. */
  lemma FinishedMeansComplete(rxA: Ring, txA: Ring, rxB: Ring, txB: Ring, local: Endpoint, remote: Endpoint,
                              at: ListenEndpoint, issA: SeqNumber, issB: SeqNumber, es: seq<(Who, Event)>, size: nat)
    requires SmallRings(rxA, txA) && SmallRings(rxB, txB)
    ensures SystemOk(Start(rxA, txA, rxB, txB, local, remote, at, issA, issB))
    ensures var sys := After(Start(rxA, txA, rxB, txB, local, remote, at, issA, issB), es);
      && Inv(sys.a.s) && Inv(sys.b.s)
      && (RecvSlice(sys.b.s, size).1.Finished? ==> sys.b.read == sys.a.sent && sys.a.closed)
      && (RecvSlice(sys.a.s, size).1.Finished? ==> sys.a.read == sys.b.sent && sys.b.closed)
  {
    hide SynOk, ShapeOk, Windows, SenderOk, ReceiverOk, SegOk, RecvSlice, Start, Step;
    StartOk(rxA, txA, rxB, txB, local, remote, at, issA, issB);
    AfterOk(Start(rxA, txA, rxB, txB, local, remote, at, issA, issB), es);
    var sys := After(Start(rxA, txA, rxB, txB, local, remote, at, issA, issB), es);
    if RecvSlice(sys.b.s, size).1.Finished? {
      FinishedIsWhole(sys.b, sys.a, size);
    }
    if RecvSlice(sys.a.s, size).1.Finished? {
      FinishedIsWhole(sys.a, sys.b, size);
    }
  }

  // ---- every transmission ----

  /** The octet a segment carries at index i is the stream's octet at that sequence number. */
  predicate OctetOfStream(seg: Segment, i: nat, x: Side)
    requires i < |seg.payload|
  {
    var k := PosOf(seg, x.iss) + i;
    1 <= k <= |x.sent| && seg.payload[i] == x.sent[k - 1]
  }

  lemma CarriedOctet(seg: Segment, i: nat, x: Side, y: Side)
    requires SegOk(seg, x, y) && i < |seg.payload|
    ensures OctetOfStream(seg, i, x)
  {
    hide Off, Shl, InitialShift;
  }

  lemma SamePosition(seg: Segment, i: nat, other: Segment, j: nat, iss: SeqNumber)
    requires PosOf(seg, iss) + i < HALF && PosOf(other, iss) + j < HALF
    requires Add(seg.seqNo, i) == Add(other.seqNo, j)
    ensures PosOf(seg, iss) + i == PosOf(other, iss) + j
  {
    OffAdd(seg.seqNo, iss, i);
    OffAdd(other.seqNo, iss, j);
  }

  lemma OctetsAgree(seg: Segment, i: nat, other: Segment, j: nat, x: Side, y: Side)
    requires SegOk(seg, x, y) && SegOk(other, x, y) && |x.sent| < MAX_STREAM
    requires i < |seg.payload| && j < |other.payload| && Add(seg.seqNo, i) == Add(other.seqNo, j)
    ensures seg.payload[i] == other.payload[j]
  {
    hide Off, SegOk;
    CarriedOctet(seg, i, x, y);
    CarriedOctet(other, j, x, y);
    SamePosition(seg, i, other, j, x.iss);
  }

  /** All FINs of a connection have one position: behind the last octet, or the SYN's after an early `close`. */
  lemma FinsAgree(seg: Segment, other: Segment, x: Side, y: Side, early: bool)
    requires SegOk(seg, x, y) && SegOk(other, x, y) && seg.control.Fin? && other.control.Fin?
    requires |x.sent| < MAX_STREAM && (seg.seqNo == x.iss <==> early) && (other.seqNo == x.iss <==> early)
    ensures x.closed && (early ==> x.sent == [] && seg.payload == [])
    ensures !early ==> PosOf(seg, x.iss) + |seg.payload| == |x.sent| + 1
    ensures |seg.payload| < I32_MAX && |other.payload| < I32_MAX
    ensures Add(seg.seqNo, |seg.payload|) == Add(other.seqNo, |other.payload|)
  {
    hide Shl, InitialShift;
    OffZero(seg.seqNo, x.iss);
    OffZero(other.seqNo, x.iss);
    if !early {
      SameNumber(seg.seqNo, |seg.payload|, other.seqNo, |other.payload|, x.iss);
    }
  }

  lemma SameNumber(a: SeqNumber, i: nat, b: SeqNumber, j: nat, iss: SeqNumber)
    requires Off(a, iss) + i == Off(b, iss) + j < HALF
    ensures Add(a, i) == Add(b, j)
  {
  }

  /** Two transmissions of the same sequence number carry the same octet. */
  ghost predicate SameOctets(seg: Segment, other: Segment) {
    && |seg.payload| < 0x1_0000 && |other.payload| < 0x1_0000
    && forall i, j ::
        (0 <= i < |seg.payload| && 0 <= j < |other.payload| && Add(seg.seqNo, i) == Add(other.seqNo, j)
         ==> seg.payload[i] == other.payload[j])
  }

  predicate SameEnd(seg: Segment, other: Segment) {
    seg.control.Fin? && other.control.Fin? ==>
      (|seg.payload| < I32_MAX && |other.payload| < I32_MAX
       && Add(seg.seqNo, |seg.payload|) == Add(other.seqNo, |other.payload|))
  }

  /** The receiving end keeps the payload up to its last octet, or nothing: it is never cut on the right. */
  predicate NotCut(seg: Segment, y: Side)
    requires Inv(y.s)
  {
    seg.payload != [] && WireOk(seg) && Synchronised(y.s.state) && SegmentInWindow(y.s, seg) && !y.s.rxFin ==>
      (var (payload, offset) := Overlap(y.s, seg);
       |payload| <= |seg.payload| && payload == seg.payload[|seg.payload| - |payload|..])
  }

  /** Everything `x` ever transmitted. */
  ghost predicate TransmissionsAgree(segs: set<Segment>, x: Side, y: Side)
    requires Inv(y.s)
  {
    && (forall seg, other :: seg in segs && other in segs ==> SameOctets(seg, other) && SameEnd(seg, other))
    && (forall seg :: seg in segs ==> NotCut(seg, y))
  }

  lemma PairAgrees(seg: Segment, other: Segment, x: Side, y: Side, early: bool)
    requires SegOk(seg, x, y) && SegOk(other, x, y) && |x.sent| < MAX_STREAM
    requires seg.control.Fin? ==> (seg.seqNo == x.iss <==> early)
    requires other.control.Fin? ==> (other.seqNo == x.iss <==> early)
    ensures SameOctets(seg, other) && SameEnd(seg, other)
  {
    hide SegOk;
    SegOkWire(seg, x, y);
    SegOkWire(other, x, y);
    forall i, j | 0 <= i < |seg.payload| && 0 <= j < |other.payload| && Add(seg.seqNo, i) == Add(other.seqNo, j)
      ensures seg.payload[i] == other.payload[j]
    {
      OctetsAgree(seg, i, other, j, x, y);
    }
    if seg.control.Fin? && other.control.Fin? {
      FinsAgree(seg, other, x, y, early);
    }
  }

  lemma InFlightNotCut(seg: Segment, x: Side, y: Side)
    requires SegOk(seg, x, y) && SideOk(y, x)
    ensures NotCut(seg, y)
  {
    hide SynOk, ShapeOk, Windows, SenderOk, ReceiverOk, Shl, InitialShift, SegmentInWindow, Overlap, SegmentAt, Off;
    if seg.payload != [] && Synchronised(y.s.state) && SegmentInWindow(y.s, seg) && !y.s.rxFin {
      SegmentAtPos(y.s, seg, x.iss, x.sent, x.closed, y.read);
      InsideIsNotCut(y.s, seg);
    }
  }

  lemma TransmittedAgree(segs: set<Segment>, x: Side, y: Side, early: bool)
    requires SideOk(y, x) && AllOk(segs, x, y) && FinsFit(segs, x.iss, early)
    ensures TransmissionsAgree(segs, x, y)
  {
    hide SynOk, ShapeOk, Windows, SenderOk, ReceiverOk, SegOk, SameOctets, SameEnd, NotCut;
    forall seg, other | seg in segs && other in segs
      ensures SameOctets(seg, other) && SameEnd(seg, other)
    {
      PairAgrees(seg, other, x, y, early);
    }
    forall seg | seg in segs
      ensures NotCut(seg, y)
    {
      InFlightNotCut(seg, x, y);
    }
  }

  /**
   In every reachable state, over everything either end ever transmitted: the same sequence number always
   carried the same octet, every FIN had the same position, and no payload is cut on the right.
   */
  lemma RetransmissionConsistency(rxA: Ring, txA: Ring, rxB: Ring, txB: Ring, local: Endpoint, remote: Endpoint,
                                  at: ListenEndpoint, issA: SeqNumber, issB: SeqNumber, es: seq<(Who, Event)>)
    requires SmallRings(rxA, txA) && SmallRings(rxB, txB)
    ensures SystemOk(Start(rxA, txA, rxB, txB, local, remote, at, issA, issB))
    ensures var sys := After(Start(rxA, txA, rxB, txB, local, remote, at, issA, issB), es);
      && Inv(sys.a.s) && Inv(sys.b.s)
      && TransmissionsAgree(sys.fromA, sys.a, sys.b) && TransmissionsAgree(sys.fromB, sys.b, sys.a)
  {
    hide SynOk, ShapeOk, Windows, SenderOk, ReceiverOk, SegOk, TransmissionsAgree, Start, Step, FinsFit, ReceivedOk;
    hide EarlyOk, AcksBehind, FinSent;
    StartOk(rxA, txA, rxB, txB, local, remote, at, issA, issB);
    BeginningOk(rxA, txA, rxB, txB, local, remote, at, issA, issB);
    TraceFollows(Beginning(rxA, txA, rxB, txB, local, remote, at, issA, issB), es);
    var t := Trace(Beginning(rxA, txA, rxB, txB, local, remote, at, issA, issB), es);
    TransmittedAgree(t.sys.fromA, t.sys.a, t.sys.b, t.a.early);
    TransmittedAgree(t.sys.fromB, t.sys.b, t.sys.a, t.b.early);
  }

  // ---- acknowledgements ----

  /**
   In every reachable state, in both directions: every octet an end has had acknowledged, and so dropped from
   its buffer, the other application has read or can read; an acknowledged FIN has been taken.
   */
  lemma AcknowledgedIsHeld(rxA: Ring, txA: Ring, rxB: Ring, txB: Ring, local: Endpoint, remote: Endpoint,
                           at: ListenEndpoint, issA: SeqNumber, issB: SeqNumber, es: seq<(Who, Event)>)
    requires SmallRings(rxA, txA) && SmallRings(rxB, txB)
    ensures SystemOk(Start(rxA, txA, rxB, txB, local, remote, at, issA, issB))
    ensures var sys := After(Start(rxA, txA, rxB, txB, local, remote, at, issA, issB), es);
      && sys.a.s.rx.Valid() && sys.b.s.rx.Valid()
      && AckedIsHeld(sys.a, sys.b) && AckedIsHeld(sys.b, sys.a)
  {
    hide Inv, SideOk, AllOk, BothOk, Start, Step, AckedIsHeld;
    StartOk(rxA, txA, rxB, txB, local, remote, at, issA, issB);
    BeginningOk(rxA, txA, rxB, txB, local, remote, at, issA, issB);
    TraceFollows(Beginning(rxA, txA, rxB, txB, local, remote, at, issA, issB), es);
    var t := Trace(Beginning(rxA, txA, rxB, txB, local, remote, at, issA, issB), es);
    BothInv(t.sys);
    TxValid(t.sys.a.s);
    TxValid(t.sys.b.s);
    HeldFrom(t.sys.a, t.sys.b, t.sys.fromA, t.sys.fromB, t.a, t.b);
    BothSwap(t.sys.a, t.sys.b, t.sys.fromA, t.sys.fromB, t.a, t.b);
    HeldFrom(t.sys.b, t.sys.a, t.sys.fromB, t.sys.fromA, t.b, t.a);
  }

  /**
   In every reachable state an end in FIN-WAIT-2 or TIME-WAIT has sent its FIN behind its last octet, and the
   peer has taken it, if and only if `close` was not called in SYN-RECEIVED.
   */
  lemma GracefulClose(rxA: Ring, txA: Ring, rxB: Ring, txB: Ring, local: Endpoint, remote: Endpoint,
                      at: ListenEndpoint, issA: SeqNumber, issB: SeqNumber, es: seq<(Who, Event)>)
    requires SmallRings(rxA, txA) && SmallRings(rxB, txB)
    ensures SystemOk(Start(rxA, txA, rxB, txB, local, remote, at, issA, issB))
    ensures var t := Trace(Beginning(rxA, txA, rxB, txB, local, remote, at, issA, issB), es);
      && t.sys == After(Start(rxA, txA, rxB, txB, local, remote, at, issA, issB), es)
      && FinAccounted(t.sys.a, t.sys.fromA, t.a, t.b) && FinAccounted(t.sys.b, t.sys.fromB, t.b, t.a)
  {
    hide Inv, SideOk, AllOk, BothOk, Start, Step, FinAccounted;
    StartOk(rxA, txA, rxB, txB, local, remote, at, issA, issB);
    BeginningOk(rxA, txA, rxB, txB, local, remote, at, issA, issB);
    TraceFollows(Beginning(rxA, txA, rxB, txB, local, remote, at, issA, issB), es);
    var t := Trace(Beginning(rxA, txA, rxB, txB, local, remote, at, issA, issB), es);
    BothInv(t.sys);
    AccountedFrom(t.sys.a, t.sys.b, t.sys.fromA, t.sys.fromB, t.a, t.b);
    BothSwap(t.sys.a, t.sys.b, t.sys.fromA, t.sys.fromB, t.a, t.b);
    AccountedFrom(t.sys.b, t.sys.a, t.sys.fromB, t.sys.fromA, t.b, t.a);
  }

  /** An end that goes from LAST-ACK to CLOSED by anything but a reset: the peer has its FIN and all before it. */
  ghost predicate LastAckSettles(cx: Context, seg: Segment, x: Side, segs: set<Segment>, inbox: set<Segment>, my: Marks)
    requires Inv(x.s)
  {
    && seg in inbox && x.s.state.LastAck? && WireOk(seg) && Accepts(x.s, seg) && !seg.control.Rst?
    && Process(cx, x.s, seg, x.iss).s.state.Closed?
    ==> FinTaken(x, my) && FinSent(segs, x)
  }

  /** The same for the end that closes last: in every reachable state, whatever segment closes the socket. */
  lemma LastAckIsGraceful(rxA: Ring, txA: Ring, rxB: Ring, txB: Ring, local: Endpoint, remote: Endpoint,
                          at: ListenEndpoint, issA: SeqNumber, issB: SeqNumber, es: seq<(Who, Event)>,
                          cx: Context, seg: Segment)
    requires SmallRings(rxA, txA) && SmallRings(rxB, txB)
    ensures SystemOk(Start(rxA, txA, rxB, txB, local, remote, at, issA, issB))
    ensures var t := Trace(Beginning(rxA, txA, rxB, txB, local, remote, at, issA, issB), es);
      && Inv(t.sys.a.s) && Inv(t.sys.b.s)
      && LastAckSettles(cx, seg, t.sys.a, t.sys.fromA, t.sys.fromB, t.b)
      && LastAckSettles(cx, seg, t.sys.b, t.sys.fromB, t.sys.fromA, t.a)
  {
    hide Inv, SideOk, AllOk, BothOk, Start, Step, Process, Accepts, WireOk, FinTaken, FinSent;
    StartOk(rxA, txA, rxB, txB, local, remote, at, issA, issB);
    BeginningOk(rxA, txA, rxB, txB, local, remote, at, issA, issB);
    TraceFollows(Beginning(rxA, txA, rxB, txB, local, remote, at, issA, issB), es);
    var t := Trace(Beginning(rxA, txA, rxB, txB, local, remote, at, issA, issB), es);
    BothInv(t.sys);
    InvIsWf(t.sys.a.s);
    InvIsWf(t.sys.b.s);
    BothSwap(t.sys.a, t.sys.b, t.sys.fromA, t.sys.fromB, t.a, t.b);
    SettlesFrom(cx, t.sys.a, t.sys.b, seg, t.sys.fromA, t.sys.fromB, t.a, t.b);
    SettlesFrom(cx, t.sys.b, t.sys.a, seg, t.sys.fromB, t.sys.fromA, t.b, t.a);
  }

  lemma SettlesFrom(cx: Context, x: Side, y: Side, seg: Segment, segs: set<Segment>, inbox: set<Segment>,
                    mx: Marks, my: Marks)
    requires SideOk(x, y) && SideOk(y, x) && BothOk(x, y, segs, inbox, mx, my)
    ensures LastAckSettles(cx, seg, x, segs, inbox, my)
  {
    hide SynOk, ShapeOk, Asm.Valid, Asm.Extent, SenderOk, ReceiverOk, Windows, BothOk, Process, Accepts, WireOk;
    hide FinTaken, FinSent;
    if seg in inbox && x.s.state.LastAck? && WireOk(seg) && Accepts(x.s, seg) && !seg.control.Rst?
       && Process(cx, x.s, seg, x.iss).s.state.Closed? {
      LastAckTaken(cx, x, y, seg, segs, inbox, mx, my);
    }
  }

  // ---- one transmission, whatever the peer does ----

  /** What the remote window, the transmit buffer, the peer's MSS and our MTU leave for a payload. */
  predicate WithinLimits(cx: Context, s: Tcb, seg: Segment) {
    var at := Diff(seg.seqNo, s.localSeq);
    && 0 <= at && at + |seg.payload| <= s.remoteWinLen && at + |seg.payload| <= s.tx.length
    && |seg.payload| <= s.remoteMss
    && s.tuple.Some? && CxOk(cx, s) && |seg.payload| <= LocalMss(cx, s)
  }

  lemma OutgoingWithinLimits(cx: Context, s: Tcb)
    requires Inv(s) && s.tuple.Some? && CxOk(cx, s) && Quiet(s)
    ensures Outgoing(cx, s).payload != [] ==> WithinLimits(cx, s, Outgoing(cx, s))
  {
    hide SynOk, ShapeOk, Asm.Valid, Asm.Extent, GetAllocated, SegmentRoom, Diff;
    if s.state.Established? || s.state.CloseWait? || SentFin(s.state) {
      DataSegmentFits(cx, s);
      RoomEndsAtWindow(cx, s);
    }
  }

  /** No payload goes past the remote window, the peer's MSS or our MTU; keep-alive probes aside. */
  lemma PayloadWithinLimits(cx: Context, s: Tcb, emitOk: bool)
    requires Inv(s) && CxOk(cx, s) && Quiet(s)
    ensures var r := Dispatch(cx, s, emitOk);
      r.out.Some? && r.out.value.payload != [] ==> WithinLimits(cx, s, r.out.value)
  {
    hide SynOk, ShapeOk, BeforeSend, WhatToDo, AfterSend, Asm.Valid, Asm.Extent, Outgoing, Diff;
    if s.tuple.Some? {
      BeforeSendKeepsInv(cx, s);
      BeforeSendFrame(cx, s);
      OutgoingWithinLimits(cx, BeforeSend(cx, s));
    }
  }

  lemma PushIs(cx: Context, s: Tcb)
    requires Inv(s) && s.tuple.Some? && CxOk(cx, s) && Quiet(s)
    ensures var out := Outgoing(cx, s);
      && out.seqNo == s.remoteLastSeq
      && (out.payload != [] ==>
            (out.control.NoFlag? <==> Diff(s.remoteLastSeq, s.localSeq) + |out.payload| != s.tx.length)
            && (out.control.Psh? || out.control.Fin? || out.control.NoFlag?))
  {
    hide SynOk, ShapeOk, Asm.Valid, Asm.Extent, GetAllocated, SegmentRoom, Diff;
    if DataState(s.state) {
      DataSegmentFits(cx, s);
    }
  }

  /** A segment with data is pushed, or is the last, exactly if it carries the last octet enqueued. */
  lemma LastIsPushed(cx: Context, s: Tcb, emitOk: bool)
    requires Inv(s) && CxOk(cx, s) && Quiet(s)
    ensures var r := Dispatch(cx, s, emitOk);
      r.out.Some? && r.out.value.payload != [] ==>
        (r.out.value.control.Psh? || r.out.value.control.Fin? <==>
           Diff(r.out.value.seqNo, s.localSeq) + |r.out.value.payload| == s.tx.length)
  {
    hide SynOk, ShapeOk, BeforeSend, WhatToDo, AfterSend, Asm.Valid, Asm.Extent, Outgoing, Diff;
    if s.tuple.Some? {
      BeforeSendKeepsInv(cx, s);
      BeforeSendFrame(cx, s);
      PushIs(cx, BeforeSend(cx, s));
    }
  }

  // ---- close in SYN-RECEIVED ----

  /**
   How that happens: the acknowledgement of the SYN is taken for one of the FIN, whether or not a FIN has been
   sent, and the socket goes to FIN-WAIT-2; without the `close` it would be established.
   */
  lemma CloseInSynReceivedLosesFin(cx: Context, s: Tcb, seg: Segment, isn: SeqNumber)
    requires Inv(s) && s.state.SynReceived? && WireOk(seg) && seg.control.NoFlag?
    requires seg.ack == Some(Add(s.localSeq, 1))
    requires Accepts(s, seg) && SegmentInWindow(s, seg)
    ensures Inv(CloseCall(s)) && Accepts(CloseCall(s), seg)
    ensures Process(cx, CloseCall(s), seg, isn).s.state.FinWait2?
    ensures Process(cx, s, seg, isn).s.state.Established?
  {
    hide SynOk, ShapeOk, ProcessAccepted, CheckAck, AckedBy;
    CloseKeepsInv(s);
    AckOfSynIsAccepted(s, seg);
    var c := CloseCall(s);
    var (payload, offset) := Overlap(s, seg);
    assert SegmentInWindow(c, seg) && Overlap(c, seg) == (payload, offset);
    hide Overlap, SegmentInWindow;
    LastState(cx, c, seg, payload, offset, isn);
    LastState(cx, s, seg, payload, offset, isn);
  }

  lemma AckOfSynIsAccepted(s: Tcb, seg: Segment)
    requires Inv(s) && s.state.SynReceived? && seg.control.NoFlag? && seg.ack == Some(Add(s.localSeq, 1))
    ensures Inv(CloseCall(s)) && CheckAck(s, seg).AckAccept? && CheckAck(CloseCall(s), seg).AckAccept?
    ensures !AckedBy(s, seg).ofFin && AckedBy(CloseCall(s), seg).ofFin
  {
    CloseKeepsInv(s);
  }

  lemma LastState(cx: Context, s: Tcb, seg: Segment, payload: seq<Byte>, offset: nat, isn: SeqNumber)
    requires Inv(s) && CheckAck(s, seg).AckAccept? && seg.control.NoFlag? && (s.state.SynReceived? || s.state.FinWait1?)
    requires payload != [] ==> offset + |payload| <= s.rx.Window()
    ensures ProcessAccepted(cx, s, seg, payload, offset, isn).s.state ==
      (if s.state.SynReceived? then Established else if AckedBy(s, seg).ofFin then FinWait2 else FinWait1)
  {
    hide CheckAck, AckedBy, SynOk, ShapeOk, StorePayload, ApplyPayload, ApplyAck, TakeRtt, Asm.Valid, Asm.Extent;
    var ack := AckedBy(s, seg);
    var next := Transition(cx, TakeRtt(cx, s, seg), seg, NoFlag, ack, isn);
    ApplyAckState(cx, next.s, seg, ack.len);
    ApplyPayloadFrame(cx, ApplyAck(cx, next.s, seg, ack.len), seg, payload, offset);
  }
}
