/**
 The TCP socket as the object it is: two ring buffers and an assembler in arrays and a 32-bit estimator, all
 written in place, and beside them the connection's own numbers, timers and options. `View` is the value it
 stands for; each method is proved to do to that value what the function of the same event says.
 */
module TcpSocket {
  import opened Common
  import opened SeqNumbers
  import opened RingBuffer
  import opened RttEstimation
  import opened Tcp
  import opened TcpProcess
  import opened TcpDispatch
  import opened TcpPoll
  import opened TcpInvariant
  import opened RingArray
  import opened AssemblerArray
  import opened RttEstimatorClass
  import Asm = AssemblerList

  /** Everything in a socket that is neither a buffer nor an estimate. */
  datatype Fields = Fields(
    state: State,
    timer: Timer,
    rxFin: bool,
    timeout: Option<nat>,
    keepAlive: Option<nat>,
    listenEndpoint: ListenEndpoint,
    tuple: Option<Tuple>,
    localSeq: SeqNumber,
    remoteSeq: SeqNumber,
    remoteLastSeq: SeqNumber,
    remoteLastAck: Option<SeqNumber>,
    remoteLastWin: nat,
    remoteWinShift: nat,
    remoteWinLen: nat,
    remoteWinScale: Option<nat>,
    remoteMss: nat,
    remoteLastTs: Option<int>,
    rxLastAck: Option<SeqNumber>,
    rxDupAcks: nat,
    ackDelay: Option<nat>,
    ackDelayTimer: AckDelayTimer,
    challengeAckAt: int,
    nagle: bool)

  function FieldsOf(s: Tcb): Fields {
    Fields(s.state, s.timer, s.rxFin, s.timeout, s.keepAlive, s.listenEndpoint, s.tuple, s.localSeq, s.remoteSeq,
            s.remoteLastSeq, s.remoteLastAck, s.remoteLastWin, s.remoteWinShift, s.remoteWinLen, s.remoteWinScale,
            s.remoteMss, s.remoteLastTs, s.rxLastAck, s.rxDupAcks, s.ackDelay, s.ackDelayTimer, s.challengeAckAt,
            s.nagle)
  }

  function Whole(c: Fields, r: Rtt, a: Asm.Contigs, rx: Ring, tx: Ring): (s: Tcb)
    ensures FieldsOf(s) == c && s.rtte == r && s.assembler == a && s.rx == rx && s.tx == tx
  {
    Tcb(c.state, c.timer, r, a, rx, c.rxFin, tx, c.timeout, c.keepAlive, c.listenEndpoint, c.tuple, c.localSeq,
        c.remoteSeq, c.remoteLastSeq, c.remoteLastAck, c.remoteLastWin, c.remoteWinShift, c.remoteWinLen,
        c.remoteWinScale, c.remoteMss, c.remoteLastTs, c.rxLastAck, c.rxDupAcks, c.ackDelay, c.ackDelayTimer,
        c.challengeAckAt, c.nagle)
  }

  lemma WholeOf(s: Tcb)
    ensures Whole(FieldsOf(s), s.rtte, s.assembler, s.rx, s.tx) == s
  {
  }

  /** The estimator's 32-bit arithmetic has room for what the next event may do; see `RttEstimation.OverflowExactly`. */
  predicate EstimateFits(r: Rtt, now: int) {
    && Fits(r) && Fits(OnRetransmit(r))
    && (r.timestamp.Some? ==> SampleFits(r, Elapsed(r, now)))
  }

  class Socket {
    const rx: RingStorage
    const tx: RingStorage
    const assembler: Assembler
    const rtte: RttEstimator
    var c: Fields

    ghost function Parts(): set<object> {
      {this, rx, rx.storage, tx, tx.storage, assembler.contigs, rtte}
    }

    function View(): Tcb
      reads Parts()
    {
      Whole(c, rtte.View(), assembler.List(), rx.View(), tx.View())
    }

    /** The parts are in order and do not overlap. */
    ghost predicate PartsOk()
      reads Parts()
    {
      && rx != tx && rx.storage != tx.storage
      && assembler.contigs as object != rx.storage && assembler.contigs as object != tx.storage
      && rx.Valid() && tx.Valid() && assembler.Valid() && rtte.Valid()
    }

    ghost predicate Valid()
      reads Parts()
    {
      PartsOk() && Inv(View())
    }

    constructor (rxCapacity: nat, txCapacity: nat)
      requires rxCapacity <= MAX_RX_CAPACITY && txCapacity < I32_MAX
      ensures Valid() && fresh(Parts()) && rx.storage.Length == rxCapacity && tx.storage.Length == txCapacity
      ensures View() == NewSocket(rx.View(), tx.View())
    {
      rx := new RingStorage(rxCapacity);
      tx := new RingStorage(txCapacity);
      assembler := new Assembler();
      rtte := new RttEstimator();
      c := FieldsOf(NewSocket(Ring(seq(rxCapacity, _ => 0), 0, 0), Ring([], 0, 0)));
      new;
      NewSocketInv(rx.View(), tx.View());
    }

    /** `reset` clears every part in place. */
    method Reset()
      requires PartsOk()
      modifies Parts()
      ensures PartsOk() && View() == Tcp.Reset(old(View()))
    {
      hide ListFrom, Packed, Fits, InitialShift;
      c := FieldsOf(Tcp.Reset(View()));
      rtte.Reset();
      assembler.Clear();
      tx.Clear();
      rx.Clear();
    }

    method Listen(e: ListenEndpoint) returns (r: OpenResult)
      requires Valid()
      modifies Parts()
      ensures Valid() && (View(), r) == ListenOn(old(View()), e)
    {
      hide Inv, Tcp.Reset, ListFrom, Packed, Fits, Ring.Valid;
      ListenKeepsInv(View(), e);
      if e.port == 0 {
        return Unaddressable;
      }
      if IsOpen(c.state) {
        return if c.state.Listen? && c.listenEndpoint == e then OpenOk else InvalidState;
      }
      Reset();
      c := c.(listenEndpoint := e, tuple := None, state := State.Listen);
      r := OpenOk;
    }

    method Connect(local: Endpoint, remote: Endpoint, isn: SeqNumber) returns (r: OpenResult)
      requires Valid()
      modifies Parts()
      ensures Valid() && (View(), r) == Tcp.Connect(old(View()), local, remote, isn)
    {
      hide Inv, Tcp.Reset, ListFrom, Packed, Fits, Ring.Valid;
      ConnectKeepsInv(View(), local, remote, isn);
      if IsOpen(c.state) {
        return InvalidState;
      }
      if remote.port == 0 || remote.addr.bits == 0 || local.port == 0 || local.addr.bits == 0 {
        return Unaddressable;
      }
      if local.addr.V4? != remote.addr.V4? {
        return Unaddressable;
      }
      Reset();
      c := c.(tuple := Some(Tuple(local, remote)), state := SynSent, localSeq := isn, remoteLastSeq := isn);
      r := OpenOk;
    }

    // ---- application data ----

    method SendSlice(data: seq<Byte>) returns (r: Option<nat>)
      requires Valid()
      modifies this, tx, tx.storage
      ensures Valid() && (View(), r) == Tcp.SendSlice(old(View()), data)
    {
      hide SynOk, ShapeOk, EnqueueSlice, Asm.Valid, Asm.Extent, ListFrom, Packed, Fits;
      SendKeepsInv(View(), data);
      if !MaySend(View()) {
        return None;
      }
      var wasEmpty := tx.length == 0;
      var size := tx.EnqueueSlice(data);
      if size > 0 && wasEmpty {
        c := c.(remoteLastTs := None);
      }
      r := Some(size);
    }

    method RecvSlice(size: nat) returns (r: RecvResult)
      requires Valid()
      modifies this, rx
      ensures Valid() && (View(), r) == Tcp.RecvSlice(old(View()), size)
    {
      hide SynOk, ShapeOk, Asm.Valid, Asm.Extent, Ring.Data, ListFrom, Packed, Fits, Dequeue;
      RecvKeepsInv(View(), size);
      if !MayRecv(View()) {
        return if c.rxFin then Finished else RecvInvalidState;
      }
      var data := rx.DequeueSlice(size);
      c := c.(remoteSeq := Add(c.remoteSeq, |data|));
      r := Received(data);
    }

    // ---- process ----

    /** The remote window, the acknowledged data and the duplicate count; the data leaves the ring. */
    method TakeAck(cx: Context, seg: Segment, ackLen: nat)
      requires PartsOk() && ackLen <= tx.length
      modifies this, tx
      ensures PartsOk() && View() == ApplyAck(cx, old(View()), seg, ackLen)
    {
      hide ListFrom, Packed, Fits, Dequeue, RemoteWindow, Lt;
      var window := RemoteWindow(View(), seg);
      var isWindowUpdate := window != c.remoteWinLen;
      var n := c.(remoteLastTs := Some(cx.now), remoteWinLen := window);
      if seg.ack.Some? {
        var ack := seg.ack.value;
        if seg.payload == [] && n.rxLastAck == Some(ack) && Lt(ack, n.remoteLastSeq) && !isWindowUpdate {
          n := n.(rxDupAcks := MinOf(n.rxDupAcks + 1, 255));
          if n.rxDupAcks == 3 {
            n := n.(timer := FastRetransmit);
          }
        } else {
          n := n.(rxDupAcks := 0, rxLastAck := Some(ack));
        }
        n := n.(localSeq := ack);
        if Lt(n.remoteLastSeq, n.localSeq) {
          n := n.(remoteLastSeq := n.localSeq);
        }
      }
      if ackLen > 0 {
        tx.DequeueAllocated(ackLen);
      }
      c := n;
    }

    /** Octets go into the free region, and its front joins the queue. */
    method WriteBehind(payload: seq<Byte>, offset: nat, contig: nat)
      requires PartsOk() && contig <= rx.Window()
      modifies rx, rx.storage
      ensures PartsOk()
      ensures var v := old(View());
        View() == v.(rx := EnqueueUnallocated(WriteUnallocated(v.rx, offset, payload).0, contig))
    {
      hide WriteUnallocated, ListFrom, Packed, Fits;
      var written := rx.WriteUnallocated(offset, payload);
      rx.EnqueueUnallocated(contig);
    }

    /** The payload is recorded in the assembler and written behind the queue, or refused. */
    method Store(payload: seq<Byte>, offset: nat) returns (ok: bool)
      requires PartsOk() && Wf(View()) && payload != [] && offset + |payload| <= rx.Window()
      modifies rx, rx.storage, assembler.contigs
      ensures PartsOk()
      ensures var stored := StorePayload(old(View()), payload, offset);
        ok == stored.Some? && View() == (if ok then stored.value else old(View()))
    {
      hide Asm.Valid, Asm.Extent, Asm.Has, Asm.AddThenRemoveFront, WriteUnallocated, ListFrom, Packed, Fits;
      Asm.AddThenRemoveFrontMeaning(View().assembler, offset, |payload|);
      var contig: nat;
      ok, contig := assembler.AddThenRemoveFront(offset, |payload|);
      if ok {
        WriteBehind(payload, offset, contig);
      }
    }

    method AckReply(seg: Segment) returns (reply: Segment)
      requires rx.Valid() && rx.storage.Length <= MAX_RX_CAPACITY
      modifies this
      ensures Outcome(View(), Some(reply)) == Tcp.AckReply(old(View()), seg)
    {
      hide ListFrom, ScaledWindow;
      reply := AckSegment(View(), seg);
      c := c.(remoteLastAck := reply.ack, remoteLastWin := reply.windowLen);
    }

    /** What is out of order, or fills a gap, is acknowledged at once. */
    method TakePayload(cx: Context, seg: Segment, payload: seq<Byte>, offset: nat) returns (reply: Option<Segment>)
      requires Valid()
      requires payload != [] ==>
        !SentSyn(c.state) && !c.state.Listen? && offset + |payload| <= rx.Window()
      modifies this, rx, rx.storage, assembler.contigs
      ensures PartsOk() && Outcome(View(), reply) == ApplyPayload(cx, old(View()), seg, payload, offset)
    {
      hide SynOk, ShapeOk, StorePayload, DelayAck, Tcp.AckReply, Asm.Valid, Asm.Extent, ListFrom, Packed, Fits;
      if payload == [] {
        return None;
      }
      var wasEmpty := assembler.IsEmpty();
      ghost var stored := StorePayload(View(), payload, offset);
      if stored.Some? {
        StorePayloadKeepsInv(View(), payload, offset);
        DelayAckKeepsInv(cx, stored.value);
      }
      var ok := Store(payload, offset);
      if !ok {
        return None;
      }
      DelayAckControl(cx, View());
      c := FieldsOf(DelayAck(cx, View()));
      WholeOf(DelayAck(cx, stored.value));
      var isEmpty := assembler.IsEmpty();
      if !isEmpty || !wasEmpty {
        var ack := AckReply(seg);
        reply := Some(ack);
      } else {
        reply := None;
      }
    }

    /** The estimator and the state machine. */
    method TakeControl(cx: Context, seg: Segment, control: Control, ack: AckInfo, isn: SeqNumber) returns (go: bool)
      requires PartsOk() && EstimateFits(rtte.View(), cx.now)
      modifies this, rtte
      ensures PartsOk()
      ensures var next := Transition(cx, TakeRtt(cx, old(View()), seg), seg, control, ack, isn);
        go == next.Go? && View() == next.s
    {
      hide Transition, ListFrom, Packed, Fits, SampleFits, OnRetransmit, Ring.Valid, OnAck;
      if !seg.control.Rst? && seg.ack.Some? {
        rtte.OnAck(cx.now, seg.ack.value);
      }
      var next := Transition(cx, View(), seg, control, ack, isn);
      TransitionControl(cx, View(), seg, control, ack, isn);
      c := FieldsOf(next.s);
      WholeOf(next.s);
      go := next.Go?;
    }

    /** From the acknowledgement on: the estimator, the state machine, then the buffers. */
    method Accept(cx: Context, seg: Segment, payload: seq<Byte>, offset: nat,
                  isn: SeqNumber) returns (reply: Option<Segment>)
      requires Valid() && WireOk(seg) && CheckAck(View(), seg).AckAccept? && !c.state.Closed?
      requires EstimateFits(rtte.View(), cx.now)
      requires c.state.Listen? ==> seg.ack.None?
      requires payload != [] ==> !c.state.Listen? && !c.state.SynSent? && offset + |payload| <= rx.Window()
      modifies Parts()
      ensures PartsOk() && Outcome(View(), reply) == ProcessAccepted(cx, old(View()), seg, payload, offset, isn)
    {
      hide CheckAck, AckedBy, SynOk, ShapeOk, EffectiveControl, Transition, ApplyAck, ApplyPayload;
      hide Asm.Valid, Asm.Extent, ListFrom, Packed, Fits, SampleFits, OnRetransmit;
      AcceptedGoKeepsInv(cx, View(), seg, isn);
      var ack := AckedBy(View(), seg);
      var control := EffectiveControl(View(), seg);
      var go := TakeControl(cx, seg, control, ack, isn);
      if !go {
        return None;
      }
      ghost var next := View();
      TakeAck(cx, seg, ack.len);
      ApplyAckState(cx, next, seg, ack.len);
      reply := TakePayload(cx, seg, payload, offset);
    }

    method Process(cx: Context, seg: Segment, isn: SeqNumber) returns (reply: Option<Segment>)
      requires Valid() && Accepts(View(), seg) && WireOk(seg) && EstimateFits(rtte.View(), cx.now)
      modifies Parts()
      ensures Valid() && Outcome(View(), reply) == TcpProcess.Process(cx, old(View()), seg, isn)
    {
      hide CheckAck, SynOk, ShapeOk, ProcessAccepted, Tcp.ChallengeAckReply, SegmentInWindow, Asm.Valid, Asm.Extent;
      hide ListFrom, Packed, Fits, EstimateFits;
      ProcessKeepsInv(cx, View(), seg, isn);
      match CheckAck(View(), seg) {
        case AckIgnore => return None;
        case AckReset => return Some(RstReply(seg));
        case AckChallenge =>
          reply := ChallengeAckReply(cx, seg);
          return;
        case AckAccept =>
      }
      if c.state.Listen? || c.state.SynSent? {
        reply := Accept(cx, seg, [], 0, isn);
      } else if SegmentInWindow(View(), seg) {
        var (payload, offset) := Overlap(View(), seg);
        reply := Accept(cx, seg, payload, offset, isn);
      } else {
        if c.state.TimeWait? {
          c := c.(timer := Timer.Close(cx.now + CLOSE_DELAY));
        }
        reply := ChallengeAckReply(cx, seg);
      }
    }

    method ChallengeAckReply(cx: Context, seg: Segment) returns (reply: Option<Segment>)
      requires rx.Valid() && rx.storage.Length <= MAX_RX_CAPACITY
      modifies this
      ensures Outcome(View(), reply) == Tcp.ChallengeAckReply(cx, old(View()), seg)
    {
      hide ListFrom, Tcp.AckReply;
      if cx.now < c.challengeAckAt {
        return None;
      }
      c := c.(challengeAckAt := cx.now + CHALLENGE_PERIOD);
      var ack := AckReply(seg);
      reply := Some(ack);
    }

    // ---- dispatch ----

    /** Start the clock, give up, or rewind for a retransmission. */
    method Prepare(cx: Context)
      requires Valid() && c.tuple.Some? && CxOk(cx, View()) && EstimateFits(rtte.View(), cx.now)
      modifies this, rtte
      ensures PartsOk() && View() == BeforeSend(cx, old(View()))
    {
      hide SynOk, ShapeOk, SeqToTransmit, Asm.Valid, Asm.Extent, OnRetransmit, Diff, ListFrom, Packed, Fits, SampleFits;
      if c.remoteLastTs.None? {
        c := c.(remoteLastTs := Some(cx.now));
      }
      if TimedOut(View(), cx.now) {
        c := c.(state := Closed);
      } else if !SeqToTransmit(cx, View()) {
        if ShouldRetransmit(c.timer, cx.now) {
          c := c.(remoteLastSeq := c.localSeq, timer := IdleFor(cx.now, c.keepAlive));
          rtte.OnRetransmit();
        }
      }
    }

    /** The numbers move past the segment, and the estimator hears of it. */
    method Advance(cx: Context, seg: Segment)
      requires Valid() && c.tuple.Some? && CxOk(cx, View()) && WhatToDo(cx, View()).SendSegment?
      requires seg == Draft(cx, View())
      modifies this, rtte
      ensures PartsOk() && View() == Advanced(cx, old(View()))
    {
      hide SynOk, ShapeOk, WhatToDo, Draft, Asm.Valid, Asm.Extent, OnSend, Diff, ListFrom, Packed;
      SynSentFirst(cx, View());
      DraftFits(cx, View());
      c := c.(timer := RewindKeepAlive(c.timer, cx.now, c.keepAlive), ackDelayTimer := AckIdle,
              remoteLastSeq := Add(seg.seqNo, SegmentLen(seg)), remoteLastAck := seg.ack,
              remoteLastWin := seg.windowLen);
      if SegmentLen(seg) > 0 {
        rtte.OnSend(cx.now, Add(seg.seqNo, SegmentLen(seg)));
      }
    }

    /** The bookkeeping after a successful emit. */
    method Emitted(cx: Context, seg: Segment, isKeepAlive: bool)
      requires Valid() && c.tuple.Some? && CxOk(cx, View()) && WhatToDo(cx, View()).SendSegment?
      requires seg == Outgoing(cx, View()) && isKeepAlive == IsKeepAlive(cx, View())
      modifies this, rtte
      ensures PartsOk() && View() == AfterSend(cx, old(View()))
    {
      hide SynOk, ShapeOk, SeqToTransmit, WhatToDo, Draft, ShouldKeepAlive, IsEmptySegment, Asm.Valid, Asm.Extent;
      hide Advanced, RtoMillis, SetForRetransmit, Diff, ListFrom, Packed;
      if isKeepAlive {
        c := c.(timer := RewindKeepAlive(c.timer, cx.now, c.keepAlive), ackDelayTimer := AckIdle);
        return;
      }
      AdvancedState(cx, View());
      Advance(cx, seg);
      var n := c;
      if !SeqToTransmit(cx, View()) && SegmentLen(seg) > 0 {
        var ms := rtte.RetransmissionTimeout();
        n := n.(timer := SetForRetransmit(n.timer, cx.now, 1000 * (ms as nat)));
      }
      c := n.(tuple := if n.state.Closed? then None else n.tuple);
    }

    /** `emitOk` is whether the device takes the segment. */
    method Dispatch(cx: Context, emitOk: bool) returns (out: Option<Segment>)
      requires Valid() && CxOk(cx, View()) && EstimateFits(rtte.View(), cx.now)
      modifies Parts()
      ensures Valid() && Dispatched(View(), out) == TcpDispatch.Dispatch(cx, old(View()), emitOk)
    {
      hide SynOk, ShapeOk, BeforeSend, WhatToDo, AfterSend, Outgoing, IsKeepAlive, Tcp.Reset, Asm.Valid, Asm.Extent;
      hide ListFrom, Packed, Fits, SampleFits, OnRetransmit;
      DispatchKeepsInv(cx, View(), emitOk);
      if c.tuple.None? {
        return None;
      }
      BeforeSendKeepsInv(cx, View());
      Prepare(cx);
      match WhatToDo(cx, View()) {
        case DoNothing => return None;
        case ResetSocket =>
          Reset();
          return None;
        case SendSegment =>
      }
      var seg := Outgoing(cx, View());
      out := Some(seg);
      if emitOk {
        Emitted(cx, seg, IsKeepAlive(cx, View()));
      }
    }

    /** The socket is due exactly if a dispatch would do something. */
    method PollAt(cx: Context) returns (p: TcpDispatch.PollAt)
      requires Valid() && CxOk(cx, View())
      ensures forall emitOk :: Due(p, cx.now) <==> Acts(cx, View(), emitOk)
    {
      p := PollAtOf(cx, View());
      forall emitOk
        ensures Due(p, cx.now) <==> Acts(cx, View(), emitOk)
      {
        PollAtIsExact(cx, View(), emitOk);
      }
    }
  }

  lemma AdvancedState(cx: Context, s: Tcb)
    requires Inv(s) && s.tuple.Some? && CxOk(cx, s) && WhatToDo(cx, s).SendSegment?
    ensures Advanced(cx, s).state == s.state
  {
    hide SynOk, ShapeOk, WhatToDo, Draft, Asm.Valid, Asm.Extent, OnSend, Diff;
  }

  /** Delaying an acknowledgement touches no buffer. */
  lemma DelayAckControl(cx: Context, s: Tcb)
    requires s.rx.Valid() && s.rx.Capacity() <= MAX_RX_CAPACITY
    ensures var r := DelayAck(cx, s); r.rx == s.rx && r.tx == s.tx && r.assembler == s.assembler && r.rtte == s.rtte
  {
  }

  /** Neither does the state machine, which leaves the estimate alone too. */
  lemma TransitionControl(cx: Context, s: Tcb, seg: Segment, control: Control, ack: AckInfo, isn: SeqNumber)
    ensures var r := Transition(cx, s, seg, control, ack, isn).s;
      r.rx == s.rx && r.tx == s.tx && r.assembler == s.assembler && r.rtte == s.rtte
  {
  }
}
