/** `process`: what a socket does with an incoming segment. */
module TcpProcess {
  import opened Common
  import opened SeqNumbers
  import opened RingBuffer
  import opened RttEstimation
  import opened Tcp
  import Asm = AssemblerList

  predicate Accepts(s: Tcb, seg: Segment) {
    && !s.state.Closed?
    && !(s.state.Listen? && seg.ack.Some?)
    && (if s.tuple.Some? then
          seg.dst == s.tuple.value.local && seg.src == s.tuple.value.remote
        else
          && (s.listenEndpoint.addr.None? || seg.dst.addr == s.listenEndpoint.addr.value)
          && seg.dst.port != 0 && seg.dst.port == s.listenEndpoint.port)
  }

  datatype AckVerdict = AckAccept | AckIgnore | AckReset | AckChallenge

  /** The first half of `process`: reject unacceptable acknowledgements. */
  function CheckAck(s: Tcb, seg: Segment): AckVerdict
    requires s.tx.Valid() && s.tx.Capacity() < I32_MAX
  {
    if seg.control.Rst? then
      if s.state.SynSent? && (seg.ack.None? || seg.ack.value != Add(s.localSeq, 1)) then AckIgnore
      else AckAccept
    else if s.state.Listen? then AckAccept
    else if seg.ack.None? then AckIgnore
    else if s.state.SynSent? then
      var exact := seg.ack.value == Add(s.localSeq, 1);
      match seg.control
      case Syn => if exact then AckAccept else AckReset
      case NoFlag => if exact then AckIgnore else AckReset
      case _ => AckIgnore
    else if s.state.SynReceived? then
      if seg.ack.value == Add(s.localSeq, 1) then AckAccept else AckReset
    else if Lt(seg.ack.value, s.localSeq) then AckIgnore
    else if Gt(seg.ack.value, Add(s.localSeq, s.tx.length + OutstandingControl(s.state))) then AckChallenge
    else AckAccept
  }

  function WindowEnd(s: Tcb): SeqNumber
    requires s.rx.Valid() && s.rx.Capacity() <= MAX_RX_CAPACITY
  {
    Add(s.remoteSeq, s.rx.Capacity())
  }

  /** The acceptability test of section 3.10.7.4 of RFC 9293, as the code writes it. */
  predicate SegmentInWindow(s: Tcb, seg: Segment)
    requires s.rx.Valid() && s.rx.Capacity() <= MAX_RX_CAPACITY && WireOk(seg)
  {
    var windowStart, windowEnd := NextExpected(s), WindowEnd(s);
    var segmentStart, segmentEnd := seg.seqNo, Add(seg.seqNo, |seg.payload|);
    if segmentStart == segmentEnd then
      if segmentEnd == Pred(windowStart) then false
      else if windowStart == windowEnd then windowStart == segmentStart
      else Le(windowStart, segmentStart) && Lt(segmentStart, windowEnd)
    else if windowStart == windowEnd then false
    else
      || (Le(windowStart, segmentStart) && Lt(segmentStart, windowEnd))
      || (Lt(windowStart, segmentEnd) && Le(segmentEnd, windowEnd))
  }

  /** The signed distance of a segment from the window start. */
  function SegmentAt(s: Tcb, seg: Segment): int
    requires s.rx.Valid() && s.rx.Capacity() <= MAX_RX_CAPACITY
  {
    Diff(seg.seqNo, NextExpected(s))
  }

  /** Over the integers: a window `[0, wnd)` and a segment `[d, d + len)`, by the table of the RFC. */
  predicate RfcAcceptable(d: int, len: nat, wnd: nat) {
    if len == 0 then
      if wnd == 0 then d == 0 else 0 <= d < wnd
    else wnd > 0 && (0 <= d < wnd || 0 <= d + len - 1 < wnd)
  }

  /** The wrapping test is the RFC's test over the integers, for all 32-bit numbers. */
  lemma AcceptanceIsRfc(s: Tcb, seg: Segment)
    requires s.rx.Valid() && s.rx.Capacity() <= MAX_RX_CAPACITY && WireOk(seg)
    ensures SegmentInWindow(s, seg) <==> RfcAcceptable(SegmentAt(s, seg), |seg.payload|, s.rx.Window())
  {
    assert WindowEnd(s) == Add(NextExpected(s), s.rx.Window());
    WrappedTest(NextExpected(s), s.rx.Window(), seg.seqNo, |seg.payload|);
    hide NextExpected, WindowEnd, Add, Diff, Lt, Le, Pred;
  }

  /** Comparisons of wrapped numbers with a window and a segment are comparisons of distances. */
  lemma WrappedTest(windowStart: SeqNumber, wnd: nat, segmentStart: SeqNumber, len: nat)
    requires wnd <= MAX_RX_CAPACITY && len < 0x1_0000
    ensures var d := Diff(segmentStart, windowStart);
      var windowEnd, segmentEnd := Add(windowStart, wnd), Add(segmentStart, len);
      && (segmentStart == segmentEnd <==> len == 0) && (windowStart == windowEnd <==> wnd == 0)
      && (segmentEnd == Pred(windowStart) && len == 0 ==> d < 0) && (windowStart == segmentStart <==> d == 0)
      && (wnd > 0 ==> (Le(windowStart, segmentStart) && Lt(segmentStart, windowEnd) <==> 0 <= d < wnd))
      && (wnd > 0 ==> (Lt(windowStart, segmentEnd) && Le(segmentEnd, windowEnd) <==> 0 < d + len <= wnd))
  {
  }

  lemma ClipBounds(windowStart: SeqNumber, wnd: nat, segmentStart: SeqNumber, len: nat)
    requires wnd <= MAX_RX_CAPACITY && len < 0x1_0000
    requires RfcAcceptable(Diff(segmentStart, windowStart), len, wnd)
    ensures var d := Diff(segmentStart, windowStart);
      var from, to := Max(windowStart, segmentStart), Min(Add(windowStart, wnd), Add(segmentStart, len));
      && Diff(from, segmentStart) == MaxOf(d, 0) - d
      && Diff(to, segmentStart) == MinOf(d + len, wnd) - d
      && Diff(from, windowStart) == MaxOf(d, 0)
  {
    var d := Diff(segmentStart, windowStart);
    assert Diff(Add(windowStart, wnd), Add(segmentStart, len)) == wnd - (d + len);
  }

  /** The part of the payload inside the window, and where in the window it goes. */
  function Overlap(s: Tcb, seg: Segment): (r: (seq<Byte>, nat))
    requires s.rx.Valid() && s.rx.Capacity() <= MAX_RX_CAPACITY && WireOk(seg)
    requires SegmentInWindow(s, seg)
    ensures var d := SegmentAt(s, seg);
      && r.1 == MaxOf(d, 0)
      && r.1 + |r.0| == MinOf(d + |seg.payload|, s.rx.Window())
      && r.0 == seg.payload[r.1 - d..r.1 - d + |r.0|]
  {
    AcceptanceIsRfc(s, seg);
    ClipBounds(NextExpected(s), s.rx.Window(), seg.seqNo, |seg.payload|);
    var windowStart, windowEnd := NextExpected(s), WindowEnd(s);
    assert windowEnd == Add(windowStart, s.rx.Window());
    var segmentStart, segmentEnd := seg.seqNo, Add(seg.seqNo, |seg.payload|);
    var overlapStart, overlapEnd := Max(windowStart, segmentStart), Min(windowEnd, segmentEnd);
    (seg.payload[Minus(overlapStart, segmentStart)..Minus(overlapEnd, segmentStart)],
     Minus(overlapStart, windowStart))
  }

  datatype AckInfo = AckInfo(len: nat, ofFin: bool, all: bool)

  /** How much buffered data an accepted acknowledgement covers, and whether it covers our FIN. */
  function AckedBy(s: Tcb, seg: Segment): (r: AckInfo)
    requires Wf(s) && CheckAck(s, seg).AckAccept?
    requires s.state.Listen? ==> seg.ack.None?
    ensures r.len <= s.tx.length
    ensures r.ofFin ==> SentFin(s.state) && r.len == s.tx.length
  {
    if seg.control.Rst? || seg.ack.None? then AckInfo(0, false, false)
    else
      var start := Add(s.localSeq, if SentSyn(s.state) then 1 else 0);
      if !Ge(seg.ack.value, start) then AckInfo(0, false, false)
      else
        var len := Minus(seg.ack.value, start);
        var all := s.remoteLastSeq == seg.ack.value;
        if SentFin(s.state) && s.tx.length + 1 == len then AckInfo(len - 1, true, all)
        else AckInfo(len, false, all)
  }

  // ---- the state machine ----

  /** Either the rest of `process` is skipped, or it goes on from the new state. */
  datatype Next = Stop(s: Tcb) | Go(s: Tcb)

  function OnRst(s: Tcb): Tcb {
    match s.state
    case Listen => s
    case SynReceived => s.(tuple := None, state := Listen)
    case _ => s.(state := Closed, tuple := None)
  }

  /** A SYN in LISTEN opens the connection with our own initial sequence number `isn`. */
  function OnListenSyn(cx: Context, s: Tcb, seg: Segment, isn: SeqNumber): Next
    requires s.state.Listen?
  {
    if seg.maxSegSize == Some(0) then Stop(s)
    else Go(s.(
      remoteMss := if seg.maxSegSize.Some? then seg.maxSegSize.value else s.remoteMss,
      tuple := Some(Tuple(seg.dst, seg.src)),
      localSeq := isn,
      remoteSeq := Add(seg.seqNo, 1),
      remoteLastSeq := isn,
      remoteWinScale := seg.windowScale,
      remoteWinShift := if seg.windowScale.None? then 0 else s.remoteWinShift,
      state := SynReceived,
      timer := IdleFor(cx.now, s.keepAlive)))
  }

  /** A SYN|ACK in SYN-SENT establishes the connection. */
  function OnSynSentSyn(cx: Context, s: Tcb, seg: Segment): Next
    requires s.state.SynSent?
  {
    if seg.maxSegSize == Some(0) then Stop(s)
    else Go(s.(
      remoteMss := if seg.maxSegSize.Some? then seg.maxSegSize.value else s.remoteMss,
      remoteSeq := Add(seg.seqNo, 1),
      remoteLastSeq := Add(s.localSeq, 1),
      remoteLastAck := Some(seg.seqNo),
      remoteWinScale := seg.windowScale,
      remoteWinShift := if seg.windowScale.None? then 0 else s.remoteWinShift,
      state := Established,
      timer := IdleFor(cx.now, s.keepAlive)))
  }

  /** A FIN at the window start. */
  function OnFin(cx: Context, s: Tcb, ackOfFin: bool): Next {
    var idle, closing := IdleFor(cx.now, s.keepAlive), Timer.Close(cx.now + CLOSE_DELAY);
    var s1 := s.(remoteSeq := Add(s.remoteSeq, 1), rxFin := true);
    match s.state
    case SynReceived | Established => Go(s1.(state := CloseWait, timer := idle))
    case FinWait1 =>
      if ackOfFin then Go(s1.(state := TimeWait, timer := closing))
      else Go(s1.(state := State.Closing, timer := idle))
    case FinWait2 => Go(s1.(state := TimeWait, timer := closing))
    case _ => Stop(s)
  }

  /** A segment with neither SYN, FIN nor RST. */
  function OnPlain(cx: Context, s: Tcb, ack: AckInfo): Next {
    var idle, closing := IdleFor(cx.now, s.keepAlive), Timer.Close(cx.now + CLOSE_DELAY);
    match s.state
    case SynReceived => Go(s.(state := Established, timer := idle))
    case Established => Go(s.(timer := if !IsRetransmit(s.timer) || ack.all then idle else s.timer))
    case FinWait1 =>
      Go(s.(state := if ack.ofFin then FinWait2 else FinWait1, timer := if ack.all then idle else s.timer))
    case FinWait2 | CloseWait => Go(s.(timer := idle))
    case Closing =>
      if ack.ofFin then Go(s.(state := TimeWait, timer := closing)) else Go(s.(timer := idle))
    case LastAck =>
      if ack.ofFin then Go(s.(state := Closed, tuple := None)) else Go(s.(timer := idle))
    case _ => Stop(s)
  }

  function Transition(cx: Context, s: Tcb, seg: Segment, control: Control, ack: AckInfo, isn: SeqNumber): (r: Next)
    ensures r.s.rx == s.rx && r.s.tx == s.tx && r.s.assembler == s.assembler
  {
    match control
    case Rst => Stop(OnRst(s))
    case Syn =>
      if s.state.Listen? then OnListenSyn(cx, s, seg, isn)
      else if s.state.SynSent? then OnSynSentSyn(cx, s, seg)
      else Stop(s)
    case Fin => OnFin(cx, s, ack.ofFin)
    case _ => OnPlain(cx, s, ack)
  }

  // ---- acknowledged data ----

  /** The window field, shifted unless the segment is a SYN. */
  function RemoteWindow(s: Tcb, seg: Segment): nat {
    Shl(seg.windowLen, if seg.control.Syn? || s.remoteWinScale.None? then 0 else s.remoteWinScale.value)
  }

  /** Take the remote window, drop acknowledged data, count duplicate ACKs, advance `localSeq`. */
  function ApplyAck(cx: Context, s: Tcb, seg: Segment, ackLen: nat): (r: Tcb)
    requires s.tx.Valid() && ackLen <= s.tx.length
    ensures r.rx == s.rx && r.assembler == s.assembler
  {
    var window := RemoteWindow(s, seg);
    var s1 := s.(remoteLastTs := Some(cx.now), remoteWinLen := window,
                 tx := if ackLen > 0 then Dequeue(s.tx, ackLen) else s.tx);
    if seg.ack.None? then s1
    else
      var duplicate :=
        && s.rxLastAck == Some(seg.ack.value)
        && seg.payload == []
        && Lt(seg.ack.value, s.remoteLastSeq)
        && window == s.remoteWinLen;
      var dups := if duplicate then MinOf(s.rxDupAcks + 1, 255) else 0;
      s1.(
        rxDupAcks := dups,
        rxLastAck := Some(seg.ack.value),
        timer := if duplicate && dups == 3 then FastRetransmit else s.timer,
        localSeq := seg.ack.value,
        remoteLastSeq := if Lt(s.remoteLastSeq, seg.ack.value) then seg.ack.value else s.remoteLastSeq)
  }

  // ---- received data ----

  function DelayAck(cx: Context, s: Tcb): Tcb
    requires s.rx.Valid() && s.rx.Capacity() <= MAX_RX_CAPACITY
  {
    if s.ackDelay.Some? && (AckToTransmit(s) || WindowToUpdate(s)) then
      s.(ackDelayTimer := if s.ackDelayTimer.AckIdle? then AckWaiting(cx.now + s.ackDelay.value) else AckImmediate)
    else s
  }

  /** Record the payload in the assembler and write it behind the queue; None if it is refused. */
  function StorePayload(s: Tcb, payload: seq<Byte>, offset: nat): (r: Option<Tcb>)
    requires s.rx.Valid() && Asm.Valid(s.assembler) && Asm.Extent(s.assembler) <= s.rx.Window()
    requires payload != [] && offset + |payload| <= s.rx.Window()
    ensures r.Some? ==> r.value == s.(rx := r.value.rx, assembler := r.value.assembler)
    ensures r.Some? ==> r.value.rx.Valid() && r.value.rx.Capacity() == s.rx.Capacity()
  {
    Asm.AddThenRemoveFrontMeaning(s.assembler, offset, |payload|);
    var added := Asm.AddThenRemoveFront(s.assembler, offset, |payload|);
    if added.None? then None
    else
      var (asm, contig) := added.value;
      var (written, _) := WriteUnallocated(s.rx, offset, payload);
      Some(s.(assembler := asm, rx := EnqueueUnallocated(written, contig)))
  }

  function ApplyPayload(cx: Context, s: Tcb, seg: Segment, payload: seq<Byte>, offset: nat): Outcome
    requires s.rx.Valid() && s.rx.Capacity() <= MAX_RX_CAPACITY
    requires Asm.Valid(s.assembler) && Asm.Extent(s.assembler) <= s.rx.Window()
    requires payload != [] ==> offset + |payload| <= s.rx.Window()
  {
    if payload == [] then Outcome(s, None)
    else
      var stored := StorePayload(s, payload, offset);
      if stored.None? then Outcome(s, None)
      else
        var s1 := DelayAck(cx, stored.value);
        if s1.assembler.Cons? || s.assembler.Cons? then AckReply(s1, seg)
        else Outcome(s1, None)
  }

  // ---- all of it ----

  /** Flags not acted on: PSH always, FIN unless the segment starts at the window start. */
  function EffectiveControl(s: Tcb, seg: Segment): Control
    requires s.rx.Valid() && s.rx.Capacity() <= MAX_RX_CAPACITY
  {
    match seg.control
    case Psh => NoFlag
    case Fin => if NextExpected(s) != seg.seqNo then NoFlag else Fin
    case c => c
  }

  function TakeRtt(cx: Context, s: Tcb, seg: Segment): (r: Tcb)
    ensures r == s.(rtte := r.rtte)
  {
    if seg.control.Rst? || seg.ack.None? then s
    else s.(rtte := OnAck(s.rtte, cx.now, seg.ack.value))
  }

  /** From the acknowledgement on, for a segment that passed both tests. */
  function ProcessAccepted(cx: Context, s: Tcb, seg: Segment, payload: seq<Byte>, offset: nat, isn: SeqNumber): Outcome
    requires Wf(s) && CheckAck(s, seg).AckAccept?
    requires s.state.Listen? ==> seg.ack.None?
    requires payload != [] ==> offset + |payload| <= s.rx.Window()
  {
    var ack := AckedBy(s, seg);
    match Transition(cx, TakeRtt(cx, s, seg), seg, EffectiveControl(s, seg), ack, isn)
    case Stop(s1) => Outcome(s1, None)
    case Go(s1) => ApplyPayload(cx, ApplyAck(cx, s1, seg, ack.len), seg, payload, offset)
  }

  function Process(cx: Context, s: Tcb, seg: Segment, isn: SeqNumber): Outcome
    requires Wf(s) && Accepts(s, seg) && WireOk(seg)
  {
    match CheckAck(s, seg)
    case AckIgnore => Outcome(s, None)
    case AckReset => Outcome(s, Some(RstReply(seg)))
    case AckChallenge => ChallengeAckReply(cx, s, seg)
    case AckAccept =>
      if s.state.Listen? || s.state.SynSent? then ProcessAccepted(cx, s, seg, [], 0, isn)
      else if SegmentInWindow(s, seg) then
        var (payload, offset) := Overlap(s, seg);
        ProcessAccepted(cx, s, seg, payload, offset, isn)
      else
        ChallengeAckReply(cx, if s.state.TimeWait? then s.(timer := Timer.Close(cx.now + CLOSE_DELAY)) else s, seg)
  }
}
