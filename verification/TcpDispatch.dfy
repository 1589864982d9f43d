/** `dispatch` and `poll_at`: what a socket sends, and when it wants to be asked. */
module TcpDispatch {
  import opened Common
  import opened SeqNumbers
  import opened RingBuffer
  import opened RttEstimation
  import opened Tcp

  predicate TimedOut(s: Tcb, now: int) {
    s.remoteLastTs.Some? && s.timeout.Some? && now >= s.remoteLastTs.value + s.timeout.value
  }

  /** How many octets past `remoteLastSeq` the remote window and the transmit buffer allow. */
  function MaxSend(s: Tcb): nat
    requires Wf(s)
  {
    var maxSendSeq := Add(s.localSeq, MinOf(s.remoteWinLen, s.tx.length));
    if Ge(maxSendSeq, s.remoteLastSeq) then Minus(maxSendSeq, s.remoteLastSeq) else 0
  }

  predicate SeqToTransmit(cx: Context, s: Tcb)
    requires Wf(s) && s.tuple.Some? && CxOk(cx, s)
  {
    var effectiveMss := MinOf(LocalMss(cx, s), s.remoteMss);
    var dataInFlight := s.remoteLastSeq != s.localSeq;
    if SentSyn(s.state) && !dataInFlight then true
    else
      var maxSend := MaxSend(s);
      var wantFin := SentFin(s.state);
      var held := s.nagle && dataInFlight && maxSend < effectiveMss && !wantFin;
      var canFin := wantFin && s.remoteLastSeq == Add(s.localSeq, s.tx.length);
      (maxSend != 0 && !held) || canFin
  }

  predicate DelayedAckExpired(s: Tcb, now: int) {
    s.ackDelayTimer.AckWaiting? ==> s.ackDelayTimer.at <= now
  }

  /** The timeout counts from the first transmission of a socket that was quiet. */
  function StartClock(s: Tcb, now: int): Tcb {
    if s.remoteLastTs.None? then s.(remoteLastTs := Some(now)) else s
  }

  /** As if nothing since the last acknowledgement had been sent. */
  function Rewind(s: Tcb, now: int): Tcb {
    s.(remoteLastSeq := s.localSeq, timer := IdleFor(now, s.keepAlive), rtte := OnRetransmit(s.rtte))
  }

  /** Everything before the decision to send: start the clock, give up, or rewind for a retransmission. */
  function BeforeSend(cx: Context, s: Tcb): (r: Tcb)
    requires Wf(s) && s.tuple.Some? && CxOk(cx, s)
    ensures Wf(r) && r.tuple == s.tuple && r.keepAlive == s.keepAlive
  {
    var s1 := StartClock(s, cx.now);
    if TimedOut(s1, cx.now) then s1.(state := Closed)
    else if !SeqToTransmit(cx, s1) && ShouldRetransmit(s1.timer, cx.now) then Rewind(s1, cx.now)
    else s1
  }

  lemma StartClockKeepsInv(s: Tcb, now: int)
    requires Inv(s)
    ensures Inv(StartClock(s, now))
  {
  }

  lemma RewindKeepsInv(s: Tcb, now: int)
    requires Inv(s)
    ensures Inv(Rewind(s, now))
  {
  }

  lemma AbortKeepsInv(s: Tcb)
    requires Inv(s)
    ensures Inv(Abort(s))
  {
  }

  lemma BeforeSendKeepsInv(cx: Context, s: Tcb)
    requires Inv(s) && s.tuple.Some? && CxOk(cx, s)
    ensures Inv(BeforeSend(cx, s))
  {
    hide Inv, SeqToTransmit, Rewind;
    StartClockKeepsInv(s, cx.now);
    var s1 := StartClock(s, cx.now);
    RewindKeepsInv(s1, cx.now);
    AbortKeepsInv(s1);
  }

  /** Whether all that is unacknowledged is to be sent again. */
  predicate Rewinds(cx: Context, s: Tcb)
    requires Wf(s) && s.tuple.Some? && CxOk(cx, s)
  {
    var s1 := StartClock(s, cx.now);
    !TimedOut(s1, cx.now) && !SeqToTransmit(cx, s1) && ShouldRetransmit(s1.timer, cx.now)
  }

  /** What all this touches, and what it leaves alone. */
  lemma BeforeSendFrame(cx: Context, s: Tcb)
    requires Wf(s) && s.tuple.Some? && CxOk(cx, s)
    ensures var r := BeforeSend(cx, s);
      && r == s.(state := r.state, timer := r.timer, rtte := r.rtte, remoteLastSeq := r.remoteLastSeq,
                 remoteLastTs := r.remoteLastTs)
      && r.state == (if TimedOut(StartClock(s, cx.now), cx.now) then Closed else s.state)
      && r.remoteLastTs == (if s.remoteLastTs.None? then Some(cx.now) else s.remoteLastTs)
      && (if Rewinds(cx, s) then
            && r.state == s.state && r.remoteLastSeq == s.localSeq
            && r.timer == IdleFor(cx.now, s.keepAlive) && r.rtte == OnRetransmit(s.rtte)
          else r.remoteLastSeq == s.remoteLastSeq && r.timer == s.timer && r.rtte == s.rtte)
  {
    hide Wf, SeqToTransmit, OnRetransmit;
  }

  datatype Plan = SendSegment | ResetSocket | DoNothing

  function WhatToDo(cx: Context, s: Tcb): Plan
    requires Wf(s) && s.tuple.Some? && CxOk(cx, s)
  {
    if || SeqToTransmit(cx, s)
       || (AckToTransmit(s) && DelayedAckExpired(s, cx.now))
       || (WindowToUpdate(s) && DelayedAckExpired(s, cx.now))
       || s.state.Closed?
       || ShouldKeepAlive(s.timer, cx.now)
    then if s.state.Listen? then DoNothing else SendSegment
    else if ShouldClose(s.timer, cx.now) then ResetSocket
    else DoNothing
  }

  /** The empty ACK every outgoing segment starts from. */
  function BareSegment(s: Tcb): Segment
    requires Wf(s) && s.tuple.Some?
  {
    Segment(s.tuple.value.local, s.tuple.value.remote, NoFlag, s.remoteLastSeq,
            Some(NextExpected(s)), ScaledWindow(s), None, None, [])
  }

  function SynSegment(cx: Context, s: Tcb): Segment
    requires Wf(s) && s.tuple.Some? && CxOk(cx, s)
  {
    BareSegment(s).(
      control := Syn,
      windowLen := MinOf(s.rx.Window(), 0xffff),
      ack := if s.state.SynSent? then None else Some(NextExpected(s)),
      windowScale := if s.state.SynSent? || s.remoteWinScale.Some? then Some(s.remoteWinShift) else None,
      maxSegSize := Some(LocalMss(cx, s) % 0x1_0000))
  }

  /** How much the remote window, its MSS and our MTU let one segment carry. */
  function SegmentRoom(cx: Context, s: Tcb): nat
    requires Wf(s) && s.tuple.Some? && CxOk(cx, s)
  {
    var winRightEdge := Add(s.localSeq, s.remoteWinLen);
    var winLimit := if Ge(winRightEdge, s.remoteLastSeq) then Minus(winRightEdge, s.remoteLastSeq) else 0;
    MinOf(MinOf(winLimit, s.remoteMss), LocalMss(cx, s))
  }

  function DataSegment(cx: Context, s: Tcb): Segment
    requires Wf(s) && s.tuple.Some? && CxOk(cx, s)
  {
    var offset := Minus(s.remoteLastSeq, s.localSeq);
    var payload := GetAllocated(s.tx, offset, SegmentRoom(cx, s));
    var control :=
      if offset + |payload| != s.tx.length then NoFlag
      else if SentFin(s.state) then Fin
      else if payload != [] then Psh
      else NoFlag;
    BareSegment(s).(control := control, payload := payload)
  }

  function Draft(cx: Context, s: Tcb): Segment
    requires Wf(s) && s.tuple.Some? && CxOk(cx, s)
  {
    match s.state
    case Closed => BareSegment(s).(control := Rst)
    case SynSent | SynReceived => SynSegment(cx, s)
    case Established | FinWait1 | Closing | CloseWait | LastAck => DataSegment(cx, s)
    case _ => BareSegment(s)
  }

  lemma DataSegmentFits(cx: Context, s: Tcb)
    requires Wf(s) && s.tuple.Some? && CxOk(cx, s)
    requires s.state.Established? || s.state.CloseWait? || SentFin(s.state)
    ensures var seg := DataSegment(cx, s);
      && |seg.payload| <= SegmentRoom(cx, s)
      && (seg.payload != [] ==> Diff(s.remoteLastSeq, s.localSeq) + |seg.payload| <= s.tx.length)
      && Diff(s.remoteLastSeq, s.localSeq) + SegmentLen(seg) <= s.tx.length + Slack(s.state)
      && (Diff(s.remoteLastSeq, s.localSeq) >= s.tx.length ==> seg.payload == [])
      && (Diff(s.remoteLastSeq, s.localSeq) < s.tx.length && SegmentRoom(cx, s) > 0 ==> seg.payload != [])
      && (seg.control.Fin? <==>
            (SentFin(s.state) && Diff(s.remoteLastSeq, s.localSeq) + |seg.payload| == s.tx.length))
  {
    GetAllocatedIsPrefix(s.tx, Diff(s.remoteLastSeq, s.localSeq), SegmentRoom(cx, s));
  }

  /** No segment runs past what may be outstanding, provided a SYN is only sent first. */
  lemma DraftFits(cx: Context, s: Tcb)
    requires Inv(s) && s.tuple.Some? && CxOk(cx, s)
    requires SentSyn(s.state) ==> s.remoteLastSeq == s.localSeq
    ensures Diff(s.remoteLastSeq, s.localSeq) + SegmentLen(Draft(cx, s)) <= s.tx.length + Slack(s.state)
    ensures Draft(cx, s).seqNo == s.remoteLastSeq
  {
    if s.state.Established? || s.state.CloseWait? || SentFin(s.state) {
      DataSegmentFits(cx, s);
    }
  }

  /** A SYN never goes out while one is unacknowledged. */
  lemma SynSentFirst(cx: Context, s: Tcb)
    requires Inv(s) && s.tuple.Some? && CxOk(cx, s) && WhatToDo(cx, s).SendSegment?
    ensures SentSyn(s.state) ==> s.remoteLastSeq == s.localSeq
  {
  }

  predicate IsKeepAlive(cx: Context, s: Tcb)
    requires Wf(s) && s.tuple.Some? && CxOk(cx, s)
  {
    ShouldKeepAlive(s.timer, cx.now) && IsEmptySegment(Draft(cx, s))
  }

  /** The segment handed to the device: a keep-alive probe only if there is nothing else to say. */
  function Outgoing(cx: Context, s: Tcb): Segment
    requires Wf(s) && s.tuple.Some? && CxOk(cx, s)
  {
    var seg := Draft(cx, s);
    if IsKeepAlive(cx, s) then seg.(seqNo := Pred(seg.seqNo), payload := [0]) else seg
  }

  /** `remoteLastSeq`, `remoteLastAck`, `remoteLastWin` and the estimator moved past the segment. */
  function Advanced(cx: Context, s: Tcb): (r: Tcb)
    requires Inv(s) && s.tuple.Some? && CxOk(cx, s) && WhatToDo(cx, s).SendSegment?
    ensures Wf(r) && r.tuple == s.tuple
    ensures Diff(r.remoteLastSeq, s.localSeq) == Diff(s.remoteLastSeq, s.localSeq) + SegmentLen(Draft(cx, s))
  {
    SynSentFirst(cx, s);
    DraftFits(cx, s);
    var seg := Draft(cx, s);
    DiffAdd(s.remoteLastSeq, s.localSeq, SegmentLen(seg));
    var seqEnd := Add(seg.seqNo, SegmentLen(seg));
    s.(timer := RewindKeepAlive(s.timer, cx.now, s.keepAlive),
       ackDelayTimer := AckIdle,
       remoteLastSeq := seqEnd,
       remoteLastAck := seg.ack,
       remoteLastWin := seg.windowLen,
       rtte := if SegmentLen(seg) > 0 then OnSend(s.rtte, cx.now, seqEnd) else s.rtte)
  }

  /** The retransmit timer is wound up once everything that can be sent has been. */
  function TimerAfter(cx: Context, s: Tcb): Timer
    requires Inv(s) && s.tuple.Some? && CxOk(cx, s) && WhatToDo(cx, s).SendSegment?
  {
    var s2 := Advanced(cx, s);
    if !SeqToTransmit(cx, s2) && SegmentLen(Draft(cx, s)) > 0 then
      SetForRetransmit(s2.timer, cx.now, RetransmissionTimeout(s2.rtte))
    else s2.timer
  }

  /** The bookkeeping once the segment is in the device buffer. */
  function AfterSend(cx: Context, s: Tcb): (r: Tcb)
    requires Inv(s) && s.tuple.Some? && CxOk(cx, s) && WhatToDo(cx, s).SendSegment?
    ensures r.keepAlive == s.keepAlive && (r.tuple == s.tuple || r.tuple.None?)
  {
    if IsKeepAlive(cx, s) then
      s.(timer := RewindKeepAlive(s.timer, cx.now, s.keepAlive), ackDelayTimer := AckIdle)
    else
      Advanced(cx, s).(
        timer := TimerAfter(cx, s),
        tuple := if s.state.Closed? then None else s.tuple)
  }

  /** What that touches, and what it leaves alone. */
  lemma AfterSendFrame(cx: Context, s: Tcb)
    requires Inv(s) && s.tuple.Some? && CxOk(cx, s) && WhatToDo(cx, s).SendSegment?
    ensures Draft(cx, s).seqNo == s.remoteLastSeq
    ensures var r, len := AfterSend(cx, s), SegmentLen(Draft(cx, s));
      && r == s.(timer := r.timer, ackDelayTimer := AckIdle, tuple := r.tuple, remoteLastSeq := r.remoteLastSeq,
                 remoteLastAck := r.remoteLastAck, remoteLastWin := r.remoteLastWin, rtte := r.rtte)
      && r.tuple == (if s.state.Closed? && !IsKeepAlive(cx, s) then None else s.tuple)
      && (if IsKeepAlive(cx, s) then
            && r.remoteLastSeq == s.remoteLastSeq && r.rtte == s.rtte
            && r.remoteLastAck == s.remoteLastAck && r.remoteLastWin == s.remoteLastWin
            && r.timer == RewindKeepAlive(s.timer, cx.now, s.keepAlive)
          else
            && Diff(r.remoteLastSeq, s.localSeq) == Diff(s.remoteLastSeq, s.localSeq) + len
            && len <= I32_MAX && r.remoteLastSeq == Add(s.remoteLastSeq, len)
            && r.rtte == (if len > 0 then OnSend(s.rtte, cx.now, r.remoteLastSeq) else s.rtte)
            && r.remoteLastAck == Draft(cx, s).ack && r.remoteLastWin == Draft(cx, s).windowLen
            && (len == 0 ==> r.timer == RewindKeepAlive(s.timer, cx.now, s.keepAlive)))
  {
    hide Wf, SynOk, ShapeOk, SeqToTransmit, OnSend, SetForRetransmit, RetransmissionTimeout;
    SynSentFirst(cx, s);
    hide WhatToDo;
    DraftFits(cx, s);
    hide Draft, IsEmptySegment, ShouldKeepAlive;
  }

  /** The new state, and the segment offered to the device if any. */
  datatype Dispatched = Dispatched(s: Tcb, out: Option<Segment>)

  /** `dispatch`; `emitOk` is whether the device took the segment. */
  function Dispatch(cx: Context, s: Tcb, emitOk: bool): (r: Dispatched)
    requires Inv(s) && CxOk(cx, s)
    ensures r.s.keepAlive == s.keepAlive && (r.s.tuple == s.tuple || r.s.tuple.None?)
  {
    if s.tuple.None? then Dispatched(s, None)
    else
      BeforeSendKeepsInv(cx, s);
      var s1 := BeforeSend(cx, s);
      match WhatToDo(cx, s1)
      case DoNothing => Dispatched(s1, None)
      case ResetSocket => Dispatched(Reset(s1), None)
      case SendSegment => Dispatched(if emitOk then AfterSend(cx, s1) else s1, Some(Outgoing(cx, s1)))
  }

  // ---- poll_at ----

  datatype PollAt = Now | At(time: int) | Ingress

  predicate Due(p: PollAt, now: int) {
    p.Now? || (p.At? && p.time <= now)
  }

  function Earlier(a: PollAt, b: PollAt): PollAt {
    if a.Now? || b.Ingress? then a
    else if b.Now? || a.Ingress? then b
    else if a.time <= b.time then a else b
  }

  function TimerPollAt(t: Timer): PollAt {
    match t
    case Idle(k) => if k.Some? then At(k.value) else Ingress
    case Retransmit(expiresAt, _) => At(expiresAt)
    case FastRetransmit => Now
    case Close(closeAt) => At(closeAt)
  }

  function PollAtOf(cx: Context, s: Tcb): PollAt
    requires Wf(s) && CxOk(cx, s)
  {
    if s.tuple.None? then Ingress
    else if s.remoteLastTs.None? then Now
    else if s.state.Closed? then Now
    else if SeqToTransmit(cx, s) then Now
    else
      var delayedAck :=
        if !AckToTransmit(s) && !WindowToUpdate(s) then Ingress
        else if s.ackDelayTimer.AckWaiting? then At(s.ackDelayTimer.at) else Now;
      var timeout := if s.timeout.Some? then At(s.remoteLastTs.value + s.timeout.value) else Ingress;
      Earlier(Earlier(TimerPollAt(s.timer), timeout), delayedAck)
  }
}
