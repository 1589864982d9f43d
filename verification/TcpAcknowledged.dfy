/** Acknowledgements between two sockets, over every run: what is acknowledged has arrived. */
module TcpAcknowledged {
  import opened Common
  import opened SeqNumbers
  import opened RingBuffer
  import opened Tcp
  import opened TcpProcess
  import opened TcpDispatch
  import opened TcpInvariant
  import opened TcpStream
  import opened TcpReceiver
  import opened TcpSide
  import opened TcpEgress
  import opened TcpSystem
  import opened TcpGraceful
  import Asm = AssemblerList

  /**
   What an end has done so far: `got` is the position up to which it has ever received the peer's stream,
   SYN and FIN included, and `early` is whether its application called `close` in SYN-RECEIVED.
   */
  datatype Marks = Marks(got: nat, early: bool)

  function Expected(x: Side, irs: SeqNumber): nat
    requires Inv(x.s)
  {
    Off(NextExpected(x.s), irs)
  }

  /** The marks after an event that led to `x`. */
  function Marked(x: Side, irs: SeqNumber, m: Marks, closedEarly: bool): Marks
    requires Inv(x.s)
  {
    Marks(if Synchronised(x.s.state) then Expected(x, irs) else m.got, m.early || closedEarly)
  }

  predicate ReceivedOk(x: Side, y: Side, got: nat)
    requires Inv(x.s)
  {
    && (Synchronised(x.s.state) ==> got == Expected(x, y.iss))
    && (x.s.state.Listen? || x.s.state.SynSent? ==> got <= 1)
    && got <= |y.sent| + 2 && (got == |y.sent| + 2 ==> y.closed)
  }

  /** No acknowledgement runs ahead. */
  predicate AcksBehind(segs: set<Segment>, iss: SeqNumber, got: nat) {
    forall seg :: seg in segs && !seg.control.Rst? && seg.ack.Some? ==> Off(seg.ack.value, iss) <= got
  }

  /** A FIN where the stream ends, behind the SYN and all octets. */
  predicate ProperFin(seg: Segment, x: Side) {
    seg.control.Fin? && seg.seqNo != x.iss && PosOf(seg, x.iss) + |seg.payload| == |x.sent| + 1
  }

  ghost predicate FinSent(segs: set<Segment>, x: Side) {
    exists seg :: seg in segs && ProperFin(seg, x)
  }

  /** After an early `close` every FIN takes the place of the SYN, and otherwise none does. */
  predicate FinsFit(segs: set<Segment>, iss: SeqNumber, early: bool) {
    forall seg :: seg in segs && seg.control.Fin? ==> (seg.seqNo == iss <==> early)
  }

  predicate Running(st: State) {
    !st.Closed? && !st.Listen?
  }

  /** `segs` is everything `x` has sent; `mx` and `my` are the marks of the two ends. */
  ghost predicate MarksOk(x: Side, y: Side, segs: set<Segment>, mx: Marks, my: Marks)
    requires Inv(x.s)
  {
    && ReceivedOk(x, y, mx.got)
    && AcksBehind(segs, y.iss, mx.got)
    && (Running(x.s.state) ==> Una(x.s, x.iss) <= my.got)
    && (my.got == |x.sent| + 2 ==> FinSent(segs, x))
    && EarlyOk(x.s, x.iss, x.sent, mx.early)
    && FinsFit(segs, x.iss, mx.early)
  }

  // ---- pieces ----

  lemma ExpectedPos(x: Side, y: Side)
    requires SideOk(x, y) && Synchronised(x.s.state)
    ensures Expected(x, y.iss) == 1 + |x.read| + x.s.rx.length + (if x.s.rxFin then 1 else 0)
    ensures |x.read| + x.s.rx.length <= |y.sent|
    ensures x.s.rxFin ==> |x.read| + x.s.rx.length == |y.sent| && y.closed
    ensures x.s.rxFin <==> !RxOpen(x.s.state)
    ensures x.s.state.SynReceived? ==> x.read == [] && x.s.rx.length == 0
  {
    hide SynOk, Windows, SenderOk, Holds, Off;
    WindowStartPos(x.s, y.iss, y.sent, y.closed, x.read);
  }

  lemma AcksStayBehind(segs: set<Segment>, out: set<Segment>, iss: SeqNumber, got: nat, x: Side, got': nat)
    requires Inv(x.s) && AcksBehind(segs, iss, got) && got <= got'
    requires Synchronised(x.s.state) ==> got' == Expected(x, iss)
    requires forall seg :: seg in out ==> SaysHowFar(seg, x.s)
    ensures AcksBehind(segs + out, iss, got')
  {
    hide Off, Inv, NextExpected;
  }

  /** The other end's view of an event here. */
  lemma PeerStillOk(y: Side, x: Side, x': Side, segs: set<Segment>, mx: Marks, my: Marks, mx': Marks)
    requires Inv(y.s) && MarksOk(y, x, segs, my, mx) && Grows(x, x') && mx.got <= mx'.got
    requires mx'.got == |y.sent| + 2 && mx.got != mx'.got ==> FinSent(segs, y)
    ensures MarksOk(y, x', segs, my, mx')
  {
    hide Off, Inv, EarlyOk, AcksBehind, FinsFit, FinSent, NextExpected;
  }

  /** What happens here, as the marks see it. */
  predicate Mild(x: Side, x': Side) {
    || x'.s.state.Closed?
    || (&& x'.s.localSeq == x.s.localSeq
        && (Synchronised(x'.s.state) <==> Synchronised(x.s.state))
        && (x'.s.state.Listen? <==> x.s.state.Listen?) && (x'.s.state.SynSent? <==> x.s.state.SynSent?))
  }

  lemma SameSent(x: Side, x': Side, segs: set<Segment>, out: set<Segment>, got: nat)
    requires Grows(x, x') && (got == |x.sent| + 2 ==> x.closed && FinSent(segs, x)) && got <= |x.sent| + 2
    ensures got == |x'.sent| + 2 ==> FinSent(segs + out, x')
  {
    if got == |x'.sent| + 2 {
      assert x'.sent == x.sent;
      var seg :| seg in segs && ProperFin(seg, x);
      assert ProperFin(seg, x');
    }
  }

  /** Anything but a delivery. */
  lemma MildOk(x: Side, y: Side, x': Side, segs: set<Segment>, out: set<Segment>, mx: Marks, my: Marks,
               closedEarly: bool)
    requires SideOk(x, y) && SideOk(x', y) && Grows(x, x') && Mild(x, x')
    requires MarksOk(x, y, segs, mx, my) && my.got <= |x.sent| + 2 && (my.got == |x.sent| + 2 ==> x.closed)
    requires Synchronised(x'.s.state) && Synchronised(x.s.state) ==> Expected(x', y.iss) == Expected(x, y.iss)
    requires forall seg :: seg in out ==> SaysHowFar(seg, x'.s)
    requires EarlyOk(x'.s, x'.iss, x'.sent, mx.early || closedEarly)
    requires FinsFit(segs + out, x.iss, mx.early || closedEarly)
    ensures var mx' := Marked(x', y.iss, mx, closedEarly);
      MarksOk(x', y, segs + out, mx', my) && mx'.got == mx.got
  {
    hide Off, SynOk, ShapeOk, Wf, SenderOk, ReceiverOk, Windows, EarlyOk, AcksBehind, FinsFit, FinSent, Grows;
    hide NextExpected;
    var mx' := Marked(x', y.iss, mx, closedEarly);
    AcksStayBehind(segs, out, y.iss, mx.got, x', mx'.got);
    SameSent(x, x', segs, out, my.got);
    SameIss(x, x');
  }

  lemma SameIss(x: Side, x': Side)
    requires Grows(x, x')
    ensures x'.iss == x.iss
  {
  }

  // ---- a delivery ----

  /** The receive side has moved on to `x'`, or has started. */
  lemma GotFollows(x: Side, y: Side, x': Side, seg: Segment, mx: Marks)
    requires SideOk(x, y) && SideOk(x', y) && x'.read == x.read && ReceivedOk(x, y, mx.got)
    requires Effect(x.s, x'.s, seg, x.iss) && !x.s.state.Closed?
    ensures var got' := Marked(x', y.iss, mx, false).got; mx.got <= got' && ReceivedOk(x', y, got')
  {
    hide Off, SynOk, ShapeOk, Wf, SenderOk, ReceiverOk, Windows, MovesTo, NextExpected;
    if Synchronised(x'.s.state) {
      ExpectedPos(x', y);
    }
    if Synchronised(x.s.state) {
      ExpectedPos(x, y);
    }
  }

  /** If that completed the peer's stream, the segment was a FIN in its place. */
  lemma FinArrived(x: Side, y: Side, x': Side, seg: Segment, mx: Marks)
    requires SideOk(x, y) && SideOk(x', y) && x'.read == x.read && ReceivedOk(x, y, mx.got)
    requires Effect(x.s, x'.s, seg, x.iss) && SegOk(seg, y, x)
    requires var got' := Marked(x', y.iss, mx, false).got; got' == |y.sent| + 2 && mx.got != got'
    ensures ProperFin(seg, y)
  {
    hide Off, SynOk, ShapeOk, Wf, SenderOk, ReceiverOk, Windows, MovesTo, NextExpected, InitialShift, Shl, WireOk;
    ExpectedPos(x', y);
    assert x'.s.rxFin;
    if Synchronised(x.s.state) {
      ExpectedPos(x, y);
      OffZero(seg.seqNo, y.iss);
    }
  }

  lemma UnaFollows(x: Side, y: Side, x': Side, seg: Segment, inbox: set<Segment>, my: Marks)
    requires SideOk(x', y) && x'.iss == x.iss && Inv(x.s) && Effect(x.s, x'.s, seg, x.iss) && seg in inbox
    requires AcksBehind(inbox, x.iss, my.got) && (Running(x.s.state) ==> Una(x.s, x.iss) <= my.got)
    requires !x.s.state.Closed?
    ensures Running(x'.s.state) ==> Una(x'.s, x'.iss) <= my.got
  {
    hide Off, SynOk, ShapeOk, Wf, ReceiverOk, Windows, Receives, Ring.Data;
    OffSelf(x.iss);
  }

  lemma DeliverOk(cx: Context, x: Side, y: Side, seg: Segment, segs: set<Segment>, inbox: set<Segment>,
                  mx: Marks, my: Marks)
    requires SideOk(x, y) && SideOk(y, x) && AllOk(inbox, y, x) && seg in inbox && Accepts(x.s, seg) && WireOk(seg)
    requires MarksOk(x, y, segs, mx, my) && MarksOk(y, x, inbox, my, mx)
    ensures var r := Process(cx, x.s, seg, x.iss); var x' := x.(s := r.s);
      && Inv(x'.s)
      && var mx' := Marked(x', y.iss, mx, false);
         MarksOk(x', y, segs + Emitted(r.reply), mx', my) && MarksOk(y, x', inbox, my, mx')
  {
    hide Off, SynOk, ShapeOk, Wf, SenderOk, ReceiverOk, Windows, NextExpected, InitialShift, SegOk, WireOk, Process;
    hide EarlyOk, AcksBehind, FinsFit, FinSent, Grows, Effect, Accepts, SaysHowFar, ReceivedOk;
    var r := Process(cx, x.s, seg, x.iss);
    var x', out := x.(s := r.s), Emitted(r.reply);
    ProcessSide(cx, x, y, seg);
    ProcessEffect(cx, x.s, seg, x.iss);
    ProcessKeepsEarly(cx, x.s, seg, x.iss, x.sent, mx.early);
    ReplySays(cx, x, y, seg);
    AcceptsOpen(x.s, seg);
    GotFollows(x, y, x', seg, mx);
    var mx' := Marked(x', y.iss, mx, false);
    AcksStayBehind(segs, out, y.iss, mx.got, x', mx'.got);
    UnaFollows(x, y, x', seg, inbox, my);
    PeerReceived(y, x, my.got);
    SameSent(x, x', segs, out, my.got);
    NoFinAdded(segs, out, x.iss, mx.early);
    if mx'.got == |y.sent| + 2 && mx.got != mx'.got {
      FinArrived(x, y, x', seg, mx);
      FinIsSent(inbox, y, seg);
    }
    PeerStillOk(y, x, x', inbox, mx, my, mx');
  }

  lemma AcceptsOpen(s: Tcb, seg: Segment)
    requires Accepts(s, seg)
    ensures !s.state.Closed?
  {
  }

  lemma PeerReceived(y: Side, x: Side, got: nat)
    requires Inv(y.s) && ReceivedOk(y, x, got)
    ensures got <= |x.sent| + 2 && (got == |x.sent| + 2 ==> x.closed)
  {
  }

  lemma NoFinAdded(segs: set<Segment>, out: set<Segment>, iss: SeqNumber, early: bool)
    requires FinsFit(segs, iss, early) && forall seg :: seg in out ==> !seg.control.Fin?
    ensures FinsFit(segs + out, iss, early)
  {
  }

  lemma FinIsSent(segs: set<Segment>, x: Side, seg: Segment)
    requires seg in segs && ProperFin(seg, x)
    ensures FinSent(segs, x)
  {
  }

  // ---- everything else ----

  /** What both ends know after an event other than a delivery. */
  ghost predicate BothOk(x: Side, y: Side, segs: set<Segment>, inbox: set<Segment>, mx: Marks, my: Marks)
    requires Inv(x.s) && Inv(y.s)
  {
    MarksOk(x, y, segs, mx, my) && MarksOk(y, x, inbox, my, mx)
  }

  lemma BothSwap(x: Side, y: Side, segs: set<Segment>, inbox: set<Segment>, mx: Marks, my: Marks)
    requires Inv(x.s) && Inv(y.s) && BothOk(x, y, segs, inbox, mx, my)
    ensures BothOk(y, x, inbox, segs, my, mx)
  {
    hide Inv, MarksOk;
  }

  lemma MildEvent(x: Side, y: Side, x': Side, segs: set<Segment>, out: set<Segment>, inbox: set<Segment>,
                  mx: Marks, my: Marks, closedEarly: bool)
    requires SideOk(x, y) && SideOk(y, x) && SideOk(x', y) && Grows(x, x') && Mild(x, x')
    requires BothOk(x, y, segs, inbox, mx, my)
    requires Synchronised(x'.s.state) && Synchronised(x.s.state) ==> Expected(x', y.iss) == Expected(x, y.iss)
    requires forall seg :: seg in out ==> SaysHowFar(seg, x'.s)
    requires EarlyOk(x'.s, x'.iss, x'.sent, mx.early || closedEarly)
    requires FinsFit(segs + out, x.iss, mx.early || closedEarly)
    ensures BothOk(x', y, segs + out, inbox, Marked(x', y.iss, mx, closedEarly), my)
  {
    hide Off, SynOk, ShapeOk, Wf, SenderOk, ReceiverOk, Windows, NextExpected, EarlyOk, AcksBehind, FinsFit;
    hide FinSent, Grows, SaysHowFar, ReceivedOk, Mild;
    PeerReceived(y, x, my.got);
    MildOk(x, y, x', segs, out, mx, my, closedEarly);
    PeerStillOk(y, x, x', inbox, mx, my, Marked(x', y.iss, mx, closedEarly));
  }

  lemma EgressOk(cx: Context, x: Side, y: Side, emitOk: bool, segs: set<Segment>, inbox: set<Segment>,
                 mx: Marks, my: Marks)
    requires SideOk(x, y) && SideOk(y, x) && CxOk(cx, x.s) && BothOk(x, y, segs, inbox, mx, my)
    ensures var d := Dispatch(cx, x.s, emitOk); var x' := x.(s := d.s);
      var out := if emitOk then Emitted(d.out) else {};
      Inv(x'.s) && BothOk(x', y, segs + out, inbox, Marked(x', y.iss, mx, false), my)
  {
    hide Off, SynOk, ShapeOk, SenderOk, ReceiverOk, InitialShift, AcksBehind, FinSent, Grows, Dispatch;
    hide ReceivedOk, SegOk, SaysHowFar, NextExpected;
    var d := Dispatch(cx, x.s, emitOk);
    var x', out := x.(s := d.s), if emitOk then Emitted(d.out) else {};
    DispatchSide(cx, x, y, emitOk);
    DispatchSays(cx, x.s, x.iss, x.sent, emitOk);
    SenderNumbers(x.s, x.iss, x.sent);
    SameExpected(x, x', y.iss);
    MildEvent(x, y, x', segs, out, inbox, mx, my, false);
  }

  lemma SameExpected(x: Side, x': Side, irs: SeqNumber)
    requires Inv(x.s) && Inv(x'.s)
    ensures x'.s.rx == x.s.rx && x'.s.remoteSeq == x.s.remoteSeq ==> Expected(x', irs) == Expected(x, irs)
  {
  }

  lemma SendOk(x: Side, y: Side, data: seq<Byte>, segs: set<Segment>, inbox: set<Segment>, mx: Marks, my: Marks)
    requires SideOk(x, y) && SideOk(y, x) && BothOk(x, y, segs, inbox, mx, my) && |x.sent| + |data| < MAX_STREAM
    ensures var x' := Sent(x, data); Inv(x'.s) && BothOk(x', y, segs + {}, inbox, Marked(x', y.iss, mx, false), my)
  {
    hide Off, SynOk, ShapeOk, SenderOk, ReceiverOk, InitialShift, AcksBehind, FinSent, Grows, EnqueueSlice;
    hide ReceivedOk, SegOk, SaysHowFar, NextExpected, FinsFit;
    var x' := Sent(x, data);
    SendSide(x, y, data);
    if MaySend(x.s) {
      assert !mx.early;
    } else {
      NoSend(x, data);
    }
    SameExpected(x, x', y.iss);
    assert segs + {} == segs;
    MildEvent(x, y, x', segs, {}, inbox, mx, my, false);
  }

  lemma RecvOk(x: Side, y: Side, size: nat, segs: set<Segment>, inbox: set<Segment>, mx: Marks, my: Marks)
    requires SideOk(x, y) && SideOk(y, x) && BothOk(x, y, segs, inbox, mx, my)
    ensures var x' := Given(x, size); Inv(x'.s) && BothOk(x', y, segs + {}, inbox, Marked(x', y.iss, mx, false), my)
  {
    hide Off, SynOk, ShapeOk, SenderOk, ReceiverOk, InitialShift, AcksBehind, FinSent, Grows, Dequeue, Ring.Data;
    hide ReceivedOk, SegOk, SaysHowFar, NextExpected, FinsFit;
    var x' := Given(x, size);
    RecvSide(x, y, size);
    if Synchronised(x.s.state) {
      ExpectedPos(x, y);
      ExpectedPos(x', y);
    }
    assert segs + {} == segs;
    MildEvent(x, y, x', segs, {}, inbox, mx, my, false);
  }

  lemma NoFinYet(segs: set<Segment>, x: Side, y: Side)
    requires AllOk(segs, x, y) && !x.closed
    ensures FinsFit(segs, x.iss, true)
  {
    hide SegOk;
    forall seg | seg in segs
      ensures !seg.control.Fin?
    {
      FinNeedsClose(seg, x, y);
    }
  }

  lemma FinNeedsClose(seg: Segment, x: Side, y: Side)
    requires SegOk(seg, x, y)
    ensures seg.control.Fin? ==> x.closed
  {
    hide InitialShift, Shl, WireOk;
  }

  /** Whether the SYN has been acknowledged, by the state. */
  lemma SynAcked(s: Tcb, iss: SeqNumber, sent: seq<Byte>)
    requires s.tx.Valid() && SenderOk(s, iss, sent)
    ensures s.state.SynReceived? ==> s.localSeq == iss && sent == []
    ensures s.state.Established? || s.state.CloseWait? ==> s.localSeq != iss
  {
    hide Ring.Data;
  }

  /** `close` in SYN-RECEIVED is where the two cases part. */
  lemma CloseKeepsEarly(s: Tcb, iss: SeqNumber, sent: seq<Byte>, early: bool)
    requires s.tx.Valid() && SenderOk(s, iss, sent) && EarlyOk(s, iss, sent, early)
    ensures EarlyOk(CloseCall(s), iss, sent, early || s.state.SynReceived?)
  {
    hide SenderOk, Off, Ring.Valid;
    SynAcked(s, iss, sent);
  }

  lemma CloseOk(x: Side, y: Side, segs: set<Segment>, inbox: set<Segment>, mx: Marks, my: Marks)
    requires SideOk(x, y) && SideOk(y, x) && AllOk(segs, x, y) && BothOk(x, y, segs, inbox, mx, my)
    ensures var x' := Shutdown(x);
      Inv(x'.s) && BothOk(x', y, segs + {}, inbox, Marked(x', y.iss, mx, x.s.state.SynReceived?), my)
  {
    hide Inv, ReceiverOk, SenderOk, EarlyOk, InitialShift, AcksBehind, FinSent, Grows, Ring.Data, Off, Settings;
    hide ReceivedOk, SegOk, SaysHowFar, NextExpected, FinsFit, WithinRoom;
    var x' := Shutdown(x);
    ShutdownSide(x, y);
    TxValid(x.s);
    CloseKeepsEarly(x.s, x.iss, x.sent, mx.early);
    SameExpected(x, x', y.iss);
    if x.s.state.SynReceived? {
      NoFinYet(segs, x, y);
    }
    assert segs + {} == segs;
    MildEvent(x, y, x', segs, {}, inbox, mx, my, x.s.state.SynReceived?);
  }

  lemma TxValid(s: Tcb)
    requires Inv(s)
    ensures s.tx.Valid() && s.rx.Valid()
  {
  }

  /** Aborting, changing an option, or nothing at all at this end. */
  lemma QuietEventOk(x: Side, y: Side, x': Side, out: set<Segment>, segs: set<Segment>, inbox: set<Segment>,
                     mx: Marks, my: Marks)
    requires SideOk(x, y) && SideOk(y, x) && SideOk(x', y) && Grows(x, x') && BothOk(x, y, segs, inbox, mx, my)
    requires x' == x.(s := x.s.(state := x'.s.state, timeout := x'.s.timeout, ackDelay := x'.s.ackDelay,
                                nagle := x'.s.nagle))
    requires x'.s.state == x.s.state || x'.s.state.Closed?
    requires forall seg :: seg in out ==> seg.control.Rst?
    ensures BothOk(x', y, segs + out, inbox, Marked(x', y.iss, mx, false), my)
  {
    hide Off, SynOk, ShapeOk, SenderOk, ReceiverOk, InitialShift, AcksBehind, FinSent, Grows, Ring.Data;
    hide ReceivedOk, SegOk, NextExpected;
    SameExpected(x, x', y.iss);
    MildEvent(x, y, x', segs, out, inbox, mx, my, false);
  }

  /** One event at one end. */
  lemma EventOk(x: Side, y: Side, e: Event, segs: set<Segment>, inbox: set<Segment>, mx: Marks, my: Marks)
    requires SideOk(x, y) && SideOk(y, x) && AllOk(segs, x, y) && AllOk(inbox, y, x)
    requires BothOk(x, y, segs, inbox, mx, my)
    ensures var (x', out) := Happen(x, inbox, e);
      Inv(x'.s)
      && BothOk(x', y, segs + out, inbox, Marked(x', y.iss, mx, e.CloseTx? && x.s.state.SynReceived?), my)
  {
    hide Off, SynOk, ShapeOk, Wf, SenderOk, ReceiverOk, InitialShift, Windows, SegOk, Process, Dispatch, BothOk;
    hide Sent, Given, Shutdown, NextExpected, WireOk, Accepts, Grows, Marked, CxOk;
    InvIsWf(x.s);
    HappenOk(x, y, inbox, e);
    var (x', out) := Happen(x, inbox, e);
    match e
    case Deliver(cx, seg) =>
      if seg in inbox && WireOk(seg) && Accepts(x.s, seg) {
        DeliverBoth(cx, x, y, seg, segs, inbox, mx, my);
      } else {
        QuietEventOk(x, y, x', out, segs, inbox, mx, my);
      }
    case Egress(cx, emitOk) =>
      if CxOk(cx, x.s) {
        EgressOk(cx, x, y, emitOk, segs, inbox, mx, my);
      } else {
        QuietEventOk(x, y, x', out, segs, inbox, mx, my);
      }
    case Send(data) =>
      if |x.sent| + |data| < MAX_STREAM {
        SendOk(x, y, data, segs, inbox, mx, my);
      } else {
        QuietEventOk(x, y, x', out, segs, inbox, mx, my);
      }
    case Recv(size) => RecvOk(x, y, size, segs, inbox, mx, my);
    case CloseTx => CloseOk(x, y, segs, inbox, mx, my);
    case _ => OtherEventOk(x, y, e, segs, inbox, mx, my);
  }

  lemma OtherEventOk(x: Side, y: Side, e: Event, segs: set<Segment>, inbox: set<Segment>, mx: Marks, my: Marks)
    requires SideOk(x, y) && SideOk(y, x) && AllOk(inbox, y, x) && BothOk(x, y, segs, inbox, mx, my)
    requires e.Refuse? || e.AbortAll? || e.Configure?
    ensures var (x', out) := Happen(x, inbox, e);
      Inv(x'.s) && BothOk(x', y, segs + out, inbox, Marked(x', y.iss, mx, false), my)
  {
    hide Off, SynOk, ShapeOk, Wf, SenderOk, ReceiverOk, InitialShift, Windows, SegOk, BothOk, Marked, WireOk, Accepts;
    hide Grows;
    HappenOk(x, y, inbox, e);
    var (x', out) := Happen(x, inbox, e);
    QuietEventOk(x, y, x', out, segs, inbox, mx, my);
  }

  lemma DeliverBoth(cx: Context, x: Side, y: Side, seg: Segment, segs: set<Segment>, inbox: set<Segment>,
                    mx: Marks, my: Marks)
    requires SideOk(x, y) && SideOk(y, x) && AllOk(inbox, y, x) && seg in inbox && Accepts(x.s, seg) && WireOk(seg)
    requires BothOk(x, y, segs, inbox, mx, my)
    ensures var r := Process(cx, x.s, seg, x.iss); var x' := x.(s := r.s);
      Inv(x'.s) && BothOk(x', y, segs + Emitted(r.reply), inbox, Marked(x', y.iss, mx, false), my)
  {
    hide Inv, MarksOk, Process, AllOk, SideOk, Accepts, WireOk;
    DeliverOk(cx, x, y, seg, segs, inbox, mx, my);
  }

  // ---- every run of the two ----

  /** The two sockets with their marks. */
  datatype Traced = Traced(sys: System, a: Marks, b: Marks)

  ghost predicate TracedOk(t: Traced) {
    SystemOk(t.sys) && BothOk(t.sys.a, t.sys.b, t.sys.fromA, t.sys.fromB, t.a, t.b)
  }

  /** `Step` of the system, with the marks of the end where it happens. */
  function TraceStep(t: Traced, who: Who, e: Event): Traced
    requires SystemOk(t.sys)
  {
    StepInv(t.sys, who, e);
    var sys := Step(t.sys, who, e);
    if who.A? then
      Traced(sys, Marked(sys.a, t.sys.b.iss, t.a, e.CloseTx? && t.sys.a.s.state.SynReceived?), t.b)
    else
      Traced(sys, t.a, Marked(sys.b, t.sys.a.iss, t.b, e.CloseTx? && t.sys.b.s.state.SynReceived?))
  }

  lemma TraceStepOk(t: Traced, who: Who, e: Event)
    requires TracedOk(t)
    ensures TracedOk(TraceStep(t, who, e))
  {
    hide Inv, SideOk, AllOk, MarksOk, Happen, Marked;
    StepInv(t.sys, who, e);
    BothInv(t.sys);
    if who.A? {
      EventOk(t.sys.a, t.sys.b, e, t.sys.fromA, t.sys.fromB, t.a, t.b);
    } else {
      EventOk(t.sys.b, t.sys.a, e, t.sys.fromB, t.sys.fromA, t.b, t.a);
    }
  }

  lemma BothInv(sys: System)
    requires SystemOk(sys)
    ensures Inv(sys.a.s) && Inv(sys.b.s)
  {
    hide Inv;
  }

  function Trace(t: Traced, es: seq<(Who, Event)>): Traced
    requires SystemOk(t.sys)
    decreases |es|
  {
    if es == [] then t
    else
      StepInv(t.sys, es[0].0, es[0].1);
      Trace(TraceStep(t, es[0].0, es[0].1), es[1..])
  }

  /** The marks follow the run and do not change it. */
  lemma {:induction false} TraceFollows(t: Traced, es: seq<(Who, Event)>)
    requires TracedOk(t)
    ensures TracedOk(Trace(t, es)) && Trace(t, es).sys == After(t.sys, es)
    decreases |es|
  {
    hide BothOk, SideOk, AllOk, Step, Marked;
    if es != [] {
      StepInv(t.sys, es[0].0, es[0].1);
      TraceStepOk(t, es[0].0, es[0].1);
      TraceFollows(TraceStep(t, es[0].0, es[0].1), es[1..]);
    }
  }

  const NO_MARKS: Marks := Marks(0, false)

  function Beginning(rxA: Ring, txA: Ring, rxB: Ring, txB: Ring, local: Endpoint, remote: Endpoint,
                     at: ListenEndpoint, issA: SeqNumber, issB: SeqNumber): Traced
  {
    Traced(Start(rxA, txA, rxB, txB, local, remote, at, issA, issB), NO_MARKS, NO_MARKS)
  }

  lemma BeginningOk(rxA: Ring, txA: Ring, rxB: Ring, txB: Ring, local: Endpoint, remote: Endpoint,
                    at: ListenEndpoint, issA: SeqNumber, issB: SeqNumber)
    requires SmallRings(rxA, txA) && SmallRings(rxB, txB)
    ensures TracedOk(Beginning(rxA, txA, rxB, txB, local, remote, at, issA, issB))
  {
    hide Inv, SideOk, InitialShift, Off;
    StartOk(rxA, txA, rxB, txB, local, remote, at, issA, issB);
    BothInv(Start(rxA, txA, rxB, txB, local, remote, at, issA, issB));
    OffSelf(issA);
  }

  // ---- what follows ----

  /** What `x` has had acknowledged, `y` has. */
  predicate AckedIsHeld(x: Side, y: Side)
    requires y.s.rx.Valid()
  {
    Running(x.s.state) && Synchronised(y.s.state) && 1 <= Una(x.s, x.iss) ==>
      var n := MinOf(Una(x.s, x.iss) - 1, |x.sent|);
      && n <= |y.read| + y.s.rx.length && x.sent[..n] <= y.read + y.s.rx.Data()
      && (Una(x.s, x.iss) == |x.sent| + 2 ==> y.s.rxFin)
  }

  lemma HeldFrom(x: Side, y: Side, segs: set<Segment>, inbox: set<Segment>, mx: Marks, my: Marks)
    requires SideOk(x, y) && SideOk(y, x) && BothOk(x, y, segs, inbox, mx, my)
    ensures AckedIsHeld(x, y)
  {
    hide Off, SynOk, ShapeOk, Wf, SenderOk, Windows, NextExpected, EarlyOk, AcksBehind, FinsFit, FinSent;
    hide Ring.Data;
    if Running(x.s.state) && Synchronised(y.s.state) && 1 <= Una(x.s, x.iss) {
      ExpectedPos(y, x);
      QueuePrefix(y, x);
    }
  }

  lemma QueuePrefix(x: Side, y: Side)
    requires SideOk(x, y) && Synchronised(x.s.state)
    ensures x.s.rx.Valid() && x.read + x.s.rx.Data() <= y.sent
  {
    hide SynOk, ShapeOk, SenderOk, Windows, Holds, Off, Ring.Data;
    HoldsPrefix(x.s.rx, x.s.assembler, x.read, y.sent);
  }

  /** The peer has taken the FIN behind the last octet. */
  predicate FinTaken(x: Side, my: Marks) {
    my.got == |x.sent| + 2
  }

  /** In FIN-WAIT-2 and TIME-WAIT: the FIN was sent and taken exactly if `close` was not called too early. */
  ghost predicate FinAccounted(x: Side, segs: set<Segment>, mx: Marks, my: Marks) {
    FinAcked(x.s.state) ==>
      && (FinTaken(x, my) <==> !mx.early)
      && (FinSent(segs, x) <==> !mx.early)
  }

  lemma AccountedFrom(x: Side, y: Side, segs: set<Segment>, inbox: set<Segment>, mx: Marks, my: Marks)
    requires SideOk(x, y) && SideOk(y, x) && BothOk(x, y, segs, inbox, mx, my)
    ensures FinAccounted(x, segs, mx, my)
  {
    hide Off, SynOk, ShapeOk, Wf, SenderOk, ReceiverOk, Windows, NextExpected, AcksBehind;
    PeerReceived(y, x, my.got);
  }

  // ---- the last acknowledgement ----

  /** In LAST-ACK a segment that is no reset closes the socket only by acknowledging the FIN. */
  lemma LastAckAcks(cx: Context, s: Tcb, seg: Segment, isn: SeqNumber)
    requires Inv(s) && s.state.LastAck? && Accepts(s, seg) && WireOk(seg) && !seg.control.Rst?
    requires Process(cx, s, seg, isn).s.state.Closed?
    ensures CheckAck(s, seg).AckAccept? && AckedBy(s, seg).ofFin
  {
    hide CheckAck, AckedBy, SynOk, ShapeOk, Overlap, SegmentInWindow, Asm.Valid, Asm.Extent, ProcessAccepted;
    hide ChallengeAckReply;
    if CheckAck(s, seg).AckAccept? && SegmentInWindow(s, seg) {
      var (payload, offset) := Overlap(s, seg);
      LastAckAccepted(cx, s, seg, payload, offset, isn);
    } else {
      ChallengeSame(cx, s, seg);
    }
  }

  lemma LastAckAccepted(cx: Context, s: Tcb, seg: Segment, payload: seq<Byte>, offset: nat, isn: SeqNumber)
    requires Inv(s) && s.state.LastAck? && WireOk(seg) && CheckAck(s, seg).AckAccept? && !seg.control.Rst?
    requires payload != [] ==> offset + |payload| <= s.rx.Window()
    ensures ProcessAccepted(cx, s, seg, payload, offset, isn).s.state.Closed? ==> AckedBy(s, seg).ofFin
  {
    hide CheckAck, AckedBy, SynOk, ShapeOk, StorePayload, ApplyPayload, ApplyAck, TakeRtt, Asm.Valid, Asm.Extent;
    var ack := AckedBy(s, seg);
    AcceptedGoKeepsInv(cx, s, seg, isn);
    var next := Transition(cx, TakeRtt(cx, s, seg), seg, EffectiveControl(s, seg), ack, isn);
    if next.Go? {
      ApplyAckState(cx, next.s, seg, ack.len);
      ApplyPayloadFrame(cx, ApplyAck(cx, next.s, seg, ack.len), seg, payload, offset);
    }
  }

  /** So the peer has the FIN, and all before it. */
  lemma LastAckTaken(cx: Context, x: Side, y: Side, seg: Segment, segs: set<Segment>, inbox: set<Segment>,
                     mx: Marks, my: Marks)
    requires SideOk(x, y) && SideOk(y, x) && BothOk(x, y, segs, inbox, mx, my) && seg in inbox
    requires x.s.state.LastAck? && Accepts(x.s, seg) && WireOk(seg) && !seg.control.Rst?
    requires Process(cx, x.s, seg, x.iss).s.state.Closed?
    ensures FinTaken(x, my) && FinSent(segs, x)
  {
    hide Off, SynOk, ShapeOk, SenderOk, ReceiverOk, Windows, NextExpected, FinsFit, Process, CheckAck, AckedBy, Diff;
    hide Asm.Valid, Asm.Extent, FinSent;
    LastAckAcks(cx, x.s, seg, x.iss);
    AckFacts(x.s, seg);
    SenderNumbers(x.s, x.iss, x.sent);
    OffPlus(seg.ack.value, x.s.localSeq, x.iss);
    PeerReceived(y, x, my.got);
  }
}
