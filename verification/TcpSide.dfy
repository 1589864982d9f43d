/**
 One end of a connection between two sockets: the socket, what its application enqueued and was given,
 and what every segment it has sent promises. Each event at one end keeps both ends' invariants.
 */
module TcpSide {
  import opened Common
  import opened SeqNumbers
  import opened RingBuffer
  import opened Tcp
  import opened TcpProcess
  import opened TcpWindow
  import opened TcpInvariant
  import opened TcpStream
  import opened TcpReceiver
  import Asm = AssemblerList

  /** `sent` and `read` are the streams of this end's application; `closed` is whether it closed its half. */
  datatype Side = Side(s: Tcb, iss: SeqNumber, sent: seq<Byte>, read: seq<Byte>, closed: bool)

  /** The end of the receive window as a stream index: octets below it fit. It never moves back. */
  function Room(y: Side): nat {
    |y.read| + y.s.rx.Capacity()
  }

  predicate Shut(st: State) {
    SentFin(st) || FinAcked(st)
  }

  /** Keep-alive is off. */
  predicate Quiet(s: Tcb) {
    s.keepAlive.None? && (s.timer.Idle? ==> s.timer.keepAliveAt.None?)
  }

  /** Keep-alive is off, the capacity below 2^30, the window shift as the constructor set it. */
  predicate Settings(s: Tcb) {
    && s.rx.Capacity() < MAX_STREAM
    && Quiet(s)
    && s.remoteWinShift == InitialShift(s.rx.Capacity())
    && s.remoteMss < 0x1_0000
  }

  /** What this end may send stays within the room of the other, or the stream is complete anyway. */
  predicate WithinRoom(x: Side, y: Side) {
    !x.s.state.Closed? && !x.s.state.Listen? ==>
      && (Una(x.s, x.iss) - 1 + x.s.remoteWinLen <= Room(y) || (x.closed && |x.sent| <= Room(y)))
      && (!x.s.state.SynSent? ==> x.s.remoteWinScale == Some(InitialShift(y.s.rx.Capacity())))
  }

  /** The application has closed exactly when the state says so, or the connection is gone. */
  predicate ClosedOk(x: Side) {
    (Shut(x.s.state) ==> x.closed) && (x.closed ==> Shut(x.s.state) || x.s.state.Closed?)
  }

  predicate Windows(x: Side, y: Side) {
    Settings(x.s) && WithinRoom(x, y) && ClosedOk(x)
  }

  ghost predicate SideOk(x: Side, y: Side) {
    && Inv(x.s) && Windows(x, y)
    && SenderOk(x.s, x.iss, x.sent)
    && ReceiverOk(x.s, y.iss, y.sent, y.closed, x.read) && |y.sent| < MAX_STREAM
  }

  /** The window a segment advertises, as a number of octets. */
  function Window(seg: Segment, x: Side): nat {
    Shl(seg.windowLen, if seg.control.Syn? then 0 else InitialShift(x.s.rx.Capacity()))
  }

  /** A segment `x` has sent to `y`: a piece of `x`'s stream, and a promise about `y`'s. */
  predicate SegOk(seg: Segment, x: Side, y: Side) {
    && WireOk(seg)
    && if seg.control.Rst? then seg.payload == []
       else
         && CarriesStream(seg, x.iss, x.sent, x.closed, Room(y))
         && (seg.control.Syn? ==>
               seg.seqNo == x.iss && seg.payload == [] && seg.windowScale == Some(InitialShift(x.s.rx.Capacity())))
         && (if seg.ack.None? then seg.control.Syn? && Window(seg, x) <= Room(x)
             else
               || Off(seg.ack.value, y.iss) - 1 + Window(seg, x) <= Room(x)
               || (y.closed && |y.sent| <= Room(x)))
  }

  // ---- both streams only grow ----

  predicate Grows(x: Side, x': Side) {
    && x'.iss == x.iss && x'.s.rx.Capacity() == x.s.rx.Capacity()
    && x.sent <= x'.sent && x.read <= x'.read
    && (x.closed ==> x'.closed && x'.sent == x.sent)
  }

  lemma SliceGrows(sent: seq<Byte>, sent': seq<Byte>, a: nat, b: nat)
    requires sent <= sent' && a <= b <= |sent|
    ensures sent'[a..b] == sent[a..b]
  {
  }

  lemma CarriesGrows(seg: Segment, iss: SeqNumber, sent: seq<Byte>, closed: bool, room: nat,
                     sent': seq<Byte>, closed': bool, room': nat)
    requires CarriesStream(seg, iss, sent, closed, room)
    requires sent <= sent' && room <= room' && (closed ==> closed' && sent' == sent)
    ensures CarriesStream(seg, iss, sent', closed', room')
  {
    if seg.payload != [] {
      var k := PosOf(seg, iss);
      SliceGrows(sent, sent', k - 1, k - 1 + |seg.payload|);
    }
  }

  lemma SegOkGrows(seg: Segment, x: Side, y: Side, x': Side, y': Side)
    requires SegOk(seg, x, y) && Grows(x, x') && Grows(y, y')
    ensures SegOk(seg, x', y')
  {
    hide CarriesStream, InitialShift, Shl, Off, WireOk;
    if !seg.control.Rst? {
      CarriesGrows(seg, x.iss, x.sent, x.closed, Room(y), x'.sent, x'.closed, Room(y'));
    }
  }

  lemma HoldsGrows(rx: Ring, asm: Asm.Contigs, read: seq<Byte>, peer: seq<Byte>, peer': seq<Byte>)
    requires rx.Valid() && Holds(rx, asm, read, peer) && peer <= peer'
    ensures Holds(rx, asm, read, peer')
  {
    hide Ring.Data, Ring.Free;
    SliceGrows(peer, peer', 0, |read| + rx.length);
    forall o: int | Asm.Has(asm, o)
      ensures Placed(rx, o, |read| + rx.length, peer')
    {
      assert Placed(rx, o, |read| + rx.length, peer);
    }
  }

  lemma ReceiverGrows(s: Tcb, irs: SeqNumber, peer: seq<Byte>, closed: bool, read: seq<Byte>,
                      peer': seq<Byte>, closed': bool)
    requires s.rx.Valid() && ReceiverOk(s, irs, peer, closed, read)
    requires peer <= peer' && (closed ==> closed' && peer' == peer)
    ensures ReceiverOk(s, irs, peer', closed', read)
  {
    hide Holds, Off, Ring.Data;
    if Synchronised(s.state) {
      HoldsGrows(s.rx, s.assembler, read, peer, peer');
    }
  }

  lemma SideOkGrows(x: Side, y: Side, y': Side)
    requires SideOk(x, y) && Grows(y, y') && |y'.sent| < MAX_STREAM
    ensures SideOk(x, y')
  {
    hide ReceiverOk, InitialShift, SynOk, ShapeOk, SenderOk;
    ReceiverGrows(x.s, y.iss, y.sent, y.closed, x.read, y'.sent, y'.closed);
  }

  // ---- a segment that passed both tests ----

  /** What the windows need of a transition: the settings stay, the scale is the peer's. */
  lemma TransitionSettings(cx: Context, s: Tcb, seg: Segment, control: Control, ack: AckInfo, isn: SeqNumber,
                           scale: nat)
    requires Settings(s) && WireOk(seg) && (seg.control.Syn? ==> seg.windowScale == Some(scale))
    requires control.Syn? ==> seg.control.Syn?
    requires !s.state.Closed? && !s.state.Listen? && !s.state.SynSent? ==> s.remoteWinScale == Some(scale)
    ensures var r := Transition(cx, s, seg, control, ack, isn);
      && Settings(r.s)
      && (r.Go? && !s.state.Closed? ==> r.s.remoteWinScale == Some(scale) || s.state.Listen? || s.state.SynSent?)
      && (r.Go? && control.Syn? ==> r.s.remoteWinScale == Some(scale))
      && (r.Go? && (s.state.Listen? || s.state.SynSent?) ==> control.Syn?)
  {
    hide InitialShift, OnPlain, OnFin, OnListenSyn, OnSynSentSyn;
    match control
    case Rst =>
    case Syn => SynSettings(cx, s, seg, isn);
    case Fin => FinSettings(cx, s, ack.ofFin);
    case _ => PlainSettings(cx, s, ack);
  }

  lemma SynSettings(cx: Context, s: Tcb, seg: Segment, isn: SeqNumber)
    requires Settings(s) && WireOk(seg)
    ensures s.state.Listen? ==>
      var r := OnListenSyn(cx, s, seg, isn);
      r.Go? && seg.windowScale.Some? ==> Settings(r.s) && r.s.remoteWinScale == seg.windowScale
    ensures s.state.SynSent? ==>
      var r := OnSynSentSyn(cx, s, seg);
      r.Go? && seg.windowScale.Some? ==> Settings(r.s) && r.s.remoteWinScale == seg.windowScale
    ensures s.state.Listen? && OnListenSyn(cx, s, seg, isn).Stop? ==> OnListenSyn(cx, s, seg, isn).s == s
    ensures s.state.SynSent? && OnSynSentSyn(cx, s, seg).Stop? ==> OnSynSentSyn(cx, s, seg).s == s
  {
    hide InitialShift;
  }

  lemma FinSettings(cx: Context, s: Tcb, ackOfFin: bool)
    requires Settings(s)
    ensures var r := OnFin(cx, s, ackOfFin);
      Settings(r.s) && r.s.remoteWinScale == s.remoteWinScale && (r.Go? ==> !s.state.Listen? && !s.state.SynSent?)
  {
    hide InitialShift;
  }

  lemma PlainSettings(cx: Context, s: Tcb, ack: AckInfo)
    requires Settings(s)
    ensures var r := OnPlain(cx, s, ack);
      Settings(r.s) && r.s.remoteWinScale == s.remoteWinScale && (r.Go? ==> !s.state.Listen? && !s.state.SynSent?)
  {
    hide InitialShift;
  }

  /** The window a segment of the peer grants, seen from the position it acknowledges. */
  lemma AckedWithinRoom(cx: Context, x: Side, y: Side, s1: Tcb, seg: Segment, ackLen: nat)
    requires SegOk(seg, y, x) && !seg.control.Rst?
    requires s1.tx.Valid() && ackLen <= s1.tx.length && s1.remoteWinScale == Some(InitialShift(y.s.rx.Capacity()))
    requires seg.ack.None? ==> s1.localSeq == x.iss
    ensures var r := ApplyAck(cx, s1, seg, ackLen); WithinRoom(x.(s := r), y)
  {
    hide InitialShift, CarriesStream, WireOk, Off, Shl;
    ApplyAckReceiver(cx, s1, seg, ackLen);
    if seg.ack.None? {
      assert ApplyAck(cx, s1, seg, ackLen).localSeq == s1.localSeq;
      OffSelf(x.iss);
    }
  }

  /** Whether this end has closed its half follows the state through an acknowledgement. */
  lemma ShutFollows(s: Tcb, s1: Tcb, ack: AckInfo)
    requires TransitionShape(s, s1, ack) && (ack.ofFin ==> SentFin(s.state))
    ensures Shut(s1.state) ==> Shut(s.state)
    ensures Shut(s.state) ==> Shut(s1.state) || s1.state.Closed?
  {
  }

  lemma RstWindows(x: Side, y: Side, s0: Tcb)
    requires Windows(x, y) && s0 == x.s.(rtte := s0.rtte)
    ensures Windows(x.(s := OnRst(s0)), y)
  {
    hide InitialShift;
  }

  lemma MovedWindows(cx: Context, x: Side, y: Side, s0: Tcb, seg: Segment, isn: SeqNumber)
    requires Inv(s0) && Windows(x, y) && s0 == x.s.(rtte := s0.rtte) && isn == x.iss
    requires SegOk(seg, y, x) && !seg.control.Rst? && CheckAck(s0, seg).AckAccept? && !s0.state.Closed?
    requires s0.state.Listen? ==> seg.ack.None?
    ensures var ack := AckedBy(s0, seg);
      var next := Transition(cx, s0, seg, EffectiveControl(s0, seg), ack, isn);
      Windows(x.(s := if next.Go? then ApplyAck(cx, next.s, seg, ack.len) else next.s), y)
  {
    hide CheckAck, AckedBy, InitialShift, SynOk, ShapeOk, CarriesStream, Transition, TransitionShape, Off, Shl;
    hide ApplyAck, ReceiverShape;
    var ack := AckedBy(s0, seg);
    var control := EffectiveControl(s0, seg);
    var next := Transition(cx, s0, seg, control, ack, isn);
    TransitionSettings(cx, s0, seg, control, ack, isn, InitialShift(y.s.rx.Capacity()));
    if Synchronised(s0.state) {
      SyncTransition(cx, s0, seg, ack, isn);
    } else {
      OpeningMoves(cx, s0, seg, ack, isn);
    }
    if next.Go? {
      if Synchronised(s0.state) {
        ShutFollows(s0, next.s, ack);
        AckFacts(s0, seg);
      }
      AckedWithinRoom(cx, x, y, next.s, seg, ack.len);
      ApplyAckSettings(cx, next.s, seg, ack.len);
    }
  }

  lemma OpeningMoves(cx: Context, s: Tcb, seg: Segment, ack: AckInfo, isn: SeqNumber)
    requires Inv(s) && (s.state.Listen? || s.state.SynSent?) && CheckAck(s, seg).AckAccept? && !seg.control.Rst?
    ensures var next := Transition(cx, s, seg, EffectiveControl(s, seg), ack, isn);
      if next.Go? then
        && !Shut(next.s.state) && !next.s.state.Closed?
        && (s.state.Listen? ==> next.s.localSeq == isn) && (s.state.SynSent? ==> seg.ack.Some?)
      else next.s == s
  {
    hide Wf, SynOk;
  }

  lemma ApplyAckSettings(cx: Context, s: Tcb, seg: Segment, ackLen: nat)
    requires s.tx.Valid() && ackLen <= s.tx.length && Settings(s)
    ensures var r := ApplyAck(cx, s, seg, ackLen);
      Settings(r) && r.state == s.state
  {
    hide InitialShift, RemoteWindow;
  }

  // ---- an acknowledgement sent in reply ----

  /** The next sequence number to send, as a position. */
  lemma NextSeqPos(s: Tcb, iss: SeqNumber, sent: seq<Byte>)
    requires Inv(s) && SenderOk(s, iss, sent) && Synchronised(s.state)
    ensures Una(s, iss) <= Off(s.remoteLastSeq, iss) <= |sent| + 2
    ensures Off(s.remoteLastSeq, iss) == Una(s, iss) + Diff(s.remoteLastSeq, s.localSeq)
    ensures DataState(s.state) ==> Off(s.remoteLastSeq, iss) <= |sent| + 1 + Slack(s.state)
  {
    hide SynOk, Ring.Data;
    OffPlus(s.remoteLastSeq, s.localSeq, iss);
  }

  /** Acknowledgement and window together promise no more than the room. */
  lemma PromiseWithinRoom(x: Side, y: Side, windowLen: nat, shift: nat)
    requires Inv(x.s) && Synchronised(x.s.state) && |y.sent| < MAX_STREAM
    requires ReceiverOk(x.s, y.iss, y.sent, y.closed, x.read)
    requires x.s.rx.length + Shl(windowLen, shift) <= x.s.rx.Capacity()
    ensures || Off(NextExpected(x.s), y.iss) - 1 + Shl(windowLen, shift) <= Room(x)
            || (y.closed && |y.sent| <= Room(x))
  {
    hide SynOk, Shl, Holds, Off;
    WindowStartPos(x.s, y.iss, y.sent, y.closed, x.read);
  }

  lemma AckSegmentOk(x: Side, y: Side, seg: Segment)
    requires SideOk(x, y) && Synchronised(x.s.state)
    ensures SegOk(AckSegment(x.s, seg), x, y)
  {
    hide SynOk, ShapeOk, Shl, Shr, Off, SenderOk, ReceiverOk, InitialShift;
    NextSeqPos(x.s, x.iss, x.sent);
    AckSegmentPromises(x.s, seg);
    PromiseWithinRoom(x, y, ScaledWindow(x.s), x.s.remoteWinShift);
  }

  // ---- process ----

  lemma AcceptedWindows(cx: Context, x: Side, y: Side, seg: Segment, payload: seq<Byte>, offset: nat)
    requires Inv(x.s) && Windows(x, y) && SegOk(seg, y, x) && CheckAck(x.s, seg).AckAccept? && !x.s.state.Closed?
    requires x.s.state.Listen? ==> seg.ack.None?
    requires payload != [] ==> offset + |payload| <= x.s.rx.Window()
    ensures Windows(x.(s := ProcessAccepted(cx, x.s, seg, payload, offset, x.iss).s), y)
  {
    hide SegOk, CheckAck, SynOk, ShapeOk, AckedBy, EffectiveControl, Transition, TakeRtt, Windows;
    hide ApplyAck, ApplyPayload, StorePayload, Asm.Valid, Asm.Extent;
    var s0 := TakeRtt(cx, x.s, seg);
    TakeRttKeepsInv(cx, x.s, seg);
    AckedByIgnoresRtt(x.s, s0, seg);
    ControlIgnoresRtt(x.s, s0, seg);
    if seg.control.Rst? {
      RstWindows(x, y, s0);
      RstOutcome(cx, x.s, seg, payload, offset, x.iss);
    } else {
      assert WireOk(seg) by { SegOkWire(seg, y, x); }
      MovedWindows(cx, x, y, s0, seg, x.iss);
      AcceptedGoKeepsInv(cx, x.s, seg, x.iss);
      var next := Transition(cx, s0, seg, EffectiveControl(s0, seg), AckedBy(s0, seg), x.iss);
      if next.Go? {
        var s2 := ApplyAck(cx, next.s, seg, AckedBy(s0, seg).len);
        ApplyPayloadFrame(cx, s2, seg, payload, offset);
        WindowsFrame(x, y, s2, ApplyPayload(cx, s2, seg, payload, offset).s);
      }
    }
  }

  lemma SegOkWire(seg: Segment, x: Side, y: Side)
    requires SegOk(seg, x, y)
    ensures WireOk(seg)
  {
  }

  lemma ControlIgnoresRtt(s: Tcb, s0: Tcb, seg: Segment)
    requires Wf(s) && s0 == s.(rtte := s0.rtte)
    ensures EffectiveControl(s0, seg) == EffectiveControl(s, seg)
  {
  }

  lemma WindowsFrame(x: Side, y: Side, s: Tcb, r: Tcb)
    requires Windows(x.(s := s), y) && r.rx.Capacity() == s.rx.Capacity()
    requires r == s.(rx := r.rx, assembler := r.assembler, ackDelayTimer := r.ackDelayTimer,
                     remoteLastAck := r.remoteLastAck, remoteLastWin := r.remoteLastWin)
    ensures Windows(x.(s := r), y)
  {
    hide InitialShift, Off;
  }

  /** A reply acknowledges from the new state, and only an open connection replies. */
  lemma AcceptedReply(cx: Context, s: Tcb, seg: Segment, payload: seq<Byte>, offset: nat, isn: SeqNumber)
    requires Inv(s) && WireOk(seg) && CheckAck(s, seg).AckAccept? && !s.state.Closed?
    requires s.state.Listen? ==> seg.ack.None?
    requires payload != [] ==> RxOpen(s.state) && offset + |payload| <= s.rx.Window()
    ensures var r := ProcessAccepted(cx, s, seg, payload, offset, isn);
      && r.s.rx.Valid() && r.s.rx.Capacity() == s.rx.Capacity()
      && (r.reply.Some? ==> r.reply.value == AckSegment(r.s, seg) && Synchronised(r.s.state))
  {
    hide CheckAck, SynOk, ShapeOk, AckedBy, EffectiveControl, Transition, TakeRtt, TransitionShape;
    hide ApplyAck, ApplyPayload, StorePayload, Asm.Valid, Asm.Extent, AckSegment;
    var s0 := TakeRtt(cx, s, seg);
    TakeRttKeepsInv(cx, s, seg);
    AckedByIgnoresRtt(s, s0, seg);
    ControlIgnoresRtt(s, s0, seg);
    AcceptedGoKeepsInv(cx, s, seg, isn);
    var ack := AckedBy(s, seg);
    var next := Transition(cx, s0, seg, EffectiveControl(s0, seg), ack, isn);
    if next.Go? {
      var s2 := ApplyAck(cx, next.s, seg, ack.len);
      ApplyPayloadFrame(cx, s2, seg, payload, offset);
      ApplyAckState(cx, next.s, seg, ack.len);
      if payload != [] {
        if seg.control.Rst? {
          RstOutcome(cx, s, seg, payload, offset, isn);
        } else {
          SyncTransition(cx, s0, seg, ack, isn);
        }
      }
    }
  }

  /** The part of the payload `process` keeps. */
  predicate Kept(s: Tcb, seg: Segment, payload: seq<Byte>, offset: nat)
    requires Inv(s) && WireOk(seg)
  {
    if s.state.Listen? || s.state.SynSent? then payload == [] && offset == 0
    else SegmentInWindow(s, seg) && (payload, offset) == Overlap(s, seg)
  }

  lemma KeptFits(x: Side, y: Side, seg: Segment, payload: seq<Byte>, offset: nat)
    requires SideOk(x, y) && SegOk(seg, y, x) && Kept(x.s, seg, payload, offset) && !x.s.state.Closed?
    ensures payload != [] ==> offset + |payload| <= x.s.rx.Window() && (seg.control.Rst? || RxOpen(x.s.state))
    ensures !x.s.state.Listen? && !x.s.state.SynSent? ==> offset + |payload| <= x.s.rx.Window()
  {
    hide SynOk, ShapeOk, InitialShift, Windows, SenderOk, CarriesStream, Holds, SegmentInWindow, Off, RxOpen;
    hide Overlap, SegmentAt, Asm.Valid, Asm.Extent, Shl;
    if Synchronised(x.s.state) {
      if !seg.control.Rst? {
        OverlapOnStream(x.s, seg, payload, offset, y.iss, y.sent, y.closed, x.read);
      }
    }
  }

  lemma AcceptedKeeps(cx: Context, x: Side, y: Side, seg: Segment, payload: seq<Byte>, offset: nat)
    requires SideOk(x, y) && SegOk(seg, y, x) && CheckAck(x.s, seg).AckAccept? && !x.s.state.Closed?
    requires x.s.state.Listen? ==> seg.ack.None?
    requires Kept(x.s, seg, payload, offset)
    requires payload != [] ==> offset + |payload| <= x.s.rx.Window()
    ensures SideOk(x.(s := ProcessAccepted(cx, x.s, seg, payload, offset, x.iss).s), y)
  {
    hide SynOk, ShapeOk, Windows, SenderOk, ReceiverOk, CheckAck, ProcessAccepted, CarriesStream, InitialShift;
    hide SegmentInWindow, Overlap, Off, Shl, Asm.Valid, Asm.Extent;
    KeptFits(x, y, seg, payload, offset);
    AcceptedKeepsInv(cx, x.s, seg, payload, offset, x.iss);
    SenderAccepted(cx, x.s, seg, payload, offset, x.iss, x.iss, x.sent);
    AcceptedWindows(cx, x, y, seg, payload, offset);
    if Synchronised(x.s.state) {
      ReceiverAccepted(cx, x.s, seg, payload, offset, x.iss, y.iss, y.sent, y.closed, x.read);
    } else {
      ReceiverOpens(cx, x.s, seg, x.iss, y.iss, y.sent, y.closed, x.read);
    }
  }

  lemma AcceptedSide(cx: Context, x: Side, y: Side, seg: Segment, payload: seq<Byte>, offset: nat)
    requires SideOk(x, y) && SegOk(seg, y, x) && CheckAck(x.s, seg).AckAccept? && !x.s.state.Closed?
    requires x.s.state.Listen? ==> seg.ack.None?
    requires Kept(x.s, seg, payload, offset)
    requires payload != [] ==> offset + |payload| <= x.s.rx.Window()
    ensures var r := ProcessAccepted(cx, x.s, seg, payload, offset, x.iss);
      && SideOk(x.(s := r.s), y) && Grows(x, x.(s := r.s))
      && (r.reply.Some? ==> SegOk(r.reply.value, x.(s := r.s), y))
  {
    hide SynOk, ShapeOk, Windows, SenderOk, ReceiverOk, CheckAck, ProcessAccepted, SegOk, InitialShift;
    hide SegmentInWindow, Overlap, AckSegment, Asm.Valid, Asm.Extent;
    KeptFits(x, y, seg, payload, offset);
    SegOkWire(seg, y, x);
    AcceptedKeeps(cx, x, y, seg, payload, offset);
    if seg.control.Rst? {
      RstOutcome(cx, x.s, seg, payload, offset, x.iss);
    } else {
      AcceptedReply(cx, x.s, seg, payload, offset, x.iss);
      var r := ProcessAccepted(cx, x.s, seg, payload, offset, x.iss);
      if r.reply.Some? {
        AckSegmentOk(x.(s := r.s), y, seg);
      }
    }
  }

  /** What both streams and both windows do not look at. */
  lemma SideFrame(x: Side, y: Side, s: Tcb)
    requires SideOk(x, y) && Inv(s)
    requires s == x.s.(timer := s.timer, rtte := s.rtte, remoteLastSeq := s.remoteLastSeq,
                       remoteLastAck := s.remoteLastAck, remoteLastWin := s.remoteLastWin,
                       remoteLastTs := s.remoteLastTs, ackDelay := s.ackDelay, ackDelayTimer := s.ackDelayTimer,
                       challengeAckAt := s.challengeAckAt, timeout := s.timeout, nagle := s.nagle,
                       tuple := s.tuple)
    requires s.timer.Idle? ==> s.timer.keepAliveAt.None?
    ensures SideOk(x.(s := s), y) && Grows(x, x.(s := s))
  {
    hide SynOk, ShapeOk, SenderOk, ReceiverOk, InitialShift, Off;
    SenderFrame(x.s, s, x.iss, x.sent);
    ReceiverFrame(x.s, s, y.iss, y.sent, y.closed, x.read);
  }

  lemma ChallengeSide(cx: Context, x: Side, y: Side, seg: Segment)
    requires SideOk(x, y) && Synchronised(x.s.state)
    ensures var r := ChallengeAckReply(cx, x.s, seg);
      && SideOk(x.(s := r.s), y) && Grows(x, x.(s := r.s))
      && (r.reply.Some? ==> SegOk(r.reply.value, x.(s := r.s), y))
  {
    hide SynOk, ShapeOk, SenderOk, ReceiverOk, InitialShift, Off, SegOk, Shr;
    ChallengeKeepsInv(cx, x.s, seg);
    var r := ChallengeAckReply(cx, x.s, seg);
    SideFrame(x, y, r.s);
    if r.reply.Some? {
      AckSegmentOk(x.(s := r.s), y, seg);
    }
  }

  lemma RestartSide(cx: Context, x: Side, y: Side)
    requires SideOk(x, y) && x.s.state.TimeWait?
    ensures var s := x.s.(timer := Timer.Close(cx.now + CLOSE_DELAY));
      SideOk(x.(s := s), y) && Grows(x, x.(s := s))
  {
    hide SynOk, ShapeOk, SenderOk, ReceiverOk, InitialShift, Off, Windows;
    RestartKeepsInv(cx, x.s);
    SideFrame(x, y, x.s.(timer := Timer.Close(cx.now + CLOSE_DELAY)));
  }

  lemma RstReplyOk(seg: Segment, x: Side, y: Side)
    requires WireOk(seg)
    ensures SegOk(RstReply(seg), x, y)
  {
    hide Shl, InitialShift;
  }

  /** Receiving any segment the peer may have sent, however late and however often. */
  lemma ProcessSide(cx: Context, x: Side, y: Side, seg: Segment)
    requires SideOk(x, y) && SegOk(seg, y, x) && Accepts(x.s, seg)
    ensures var r := Process(cx, x.s, seg, x.iss);
      && SideOk(x.(s := r.s), y) && Grows(x, x.(s := r.s))
      && (r.reply.Some? ==> SegOk(r.reply.value, x.(s := r.s), y))
  {
    hide SynOk, ShapeOk, SenderOk, ReceiverOk, InitialShift, Off, ProcessAccepted, ChallengeAckReply;
    hide CheckAck, SegmentInWindow, CarriesStream, Shl, RstReply, Windows;
    var s := x.s;
    match CheckAck(s, seg)
    case AckIgnore =>
    case AckReset => RstReplyOk(seg, x, y);
    case AckChallenge =>
      ChallengeIsSynchronised(s, seg);
      ChallengeSide(cx, x, y, seg);
    case AckAccept =>
      if s.state.Listen? || s.state.SynSent? {
        AcceptedSide(cx, x, y, seg, [], 0);
      } else if SegmentInWindow(s, seg) {
        var (payload, offset) := Overlap(s, seg);
        AcceptedSide(cx, x, y, seg, payload, offset);
      } else if s.state.TimeWait? {
        RestartSide(cx, x, y);
        ChallengeSide(cx, x.(s := s.(timer := Timer.Close(cx.now + CLOSE_DELAY))), y, seg);
      } else {
        ChallengeSide(cx, x, y, seg);
      }
  }

  lemma ChallengeIsSynchronised(s: Tcb, seg: Segment)
    requires Wf(s) && !s.state.Closed? && CheckAck(s, seg).AckChallenge?
    ensures Synchronised(s.state)
  {
  }
}
