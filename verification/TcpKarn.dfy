/**
 Karn's rule, section 3 of RFC 6298: a round-trip sample is never taken from an octet that was
 transmitted more than once. Segments, times and user calls are arbitrary; keep-alive is off.
 */
module TcpKarn {
  import opened Common
  import opened SeqNumbers
  import opened RingBuffer
  import opened RttEstimation
  import opened Tcp
  import opened TcpProcess
  import opened TcpDispatch
  import opened TcpPoll
  import opened TcpInvariant
  import opened TcpStream
  import opened TcpReceiver
  import opened TcpSide
  import opened TcpEgress
  import Asm = AssemblerList

  /** Positions `[from, to)` of the stream, SYN and FIN included, handed to the device at time `at`. */
  datatype Transmission = Transmission(at: int, from: nat, to: nat)

  datatype Log = Nothing | Then(before: Log, last: Transmission)

  predicate Covers(t: Transmission, p: int) {
    t.from <= p < t.to
  }

  /** When the octet at position `p` was transmitted, in order. */
  function Times(log: Log, p: int): seq<int> {
    match log
    case Nothing => []
    case Then(before, t) => Times(before, p) + (if Covers(t, p) then [t.at] else [])
  }

  predicate EndsWithin(log: Log, high: nat) {
    match log
    case Nothing => true
    case Then(before, t) => EndsWithin(before, high) && t.from < t.to <= high
  }

  lemma {:induction false} NeverSent(log: Log, high: nat, p: int)
    requires EndsWithin(log, high) && p >= high
    ensures Times(log, p) == []
  {
    if log.Then? {
      NeverSent(log.before, high, p);
    }
  }

  lemma {:induction false} EndsWithinMore(log: Log, high: nat, more: nat)
    requires EndsWithin(log, high) && high <= more
    ensures EndsWithin(log, more)
  {
    if log.Then? {
      EndsWithinMore(log.before, high, more);
    }
  }

  // ---- the estimator against the log ----

  function Next(s: Tcb, iss: SeqNumber): nat {
    Off(s.remoteLastSeq, iss)
  }

  /** The highest end of any transmission, as the estimator remembers it. */
  function High(r: Rtt, iss: SeqNumber): nat {
    if r.maxSeqSent.None? then 0 else Off(r.maxSeqSent.value, iss)
  }

  /** A running measurement is of one octet, transmitted once, when the estimator says, and unacknowledged. */
  predicate MeasuresOnce(r: Rtt, una: nat, next: nat, iss: SeqNumber, log: Log) {
    r.timestamp.Some? ==>
      && r.maxSeqSent.Some?
      && una < Off(r.timestamp.value.1, iss) <= next
      && Off(r.timestamp.value.1, iss) <= High(r, iss)
      && Times(log, Off(r.timestamp.value.1, iss) - 1) == [r.timestamp.value.0]
  }

  /** A leftover `max_seq_sent` that no position of this connection exceeds. */
  predicate OutOfReach(high: nat) {
    MAX_STREAM + 1 < high <= HALF + 1
  }

  /** One that every position of this connection exceeds. */
  predicate FarBehind(high: nat) {
    HALF + MAX_STREAM + 1 < high
  }

  /** The highest end sent is remembered, unless an earlier connection left something else behind. */
  predicate HighOk(r: Rtt, iss: SeqNumber, log: Log) {
    || (High(r, iss) <= MAX_STREAM + 1 && EndsWithin(log, High(r, iss)))
    || (r.timestamp.None? && OutOfReach(High(r, iss)))
    || (r.timestamp.None? && FarBehind(High(r, iss)) && log.Nothing?)
  }

  predicate Matches(r: Rtt, una: nat, next: nat, iss: SeqNumber, log: Log) {
    HighOk(r, iss, log) && MeasuresOnce(r, una, next, iss, log)
  }

  lemma Exceeds(seqEnd: SeqNumber, max: SeqNumber, iss: SeqNumber)
    requires 1 <= Off(seqEnd, iss) <= MAX_STREAM + 1
    ensures var high := Off(max, iss);
      && (high <= MAX_STREAM + 1 ==> (Gt(seqEnd, max) <==> Off(seqEnd, iss) > high))
      && (OutOfReach(high) ==> !Gt(seqEnd, max))
      && (FarBehind(high) ==> Gt(seqEnd, max))
  {
  }

  lemma SendHigh(r: Rtt, iss: SeqNumber, log: Log, now: int, seqEnd: SeqNumber, t: Transmission)
    requires HighOk(r, iss, log) && t.from < t.to == Off(seqEnd, iss) <= MAX_STREAM + 1
    ensures HighOk(OnSend(r, now, seqEnd), iss, Then(log, t))
    ensures OnSend(r, now, seqEnd) != r && r.timestamp.None? ==> Times(log, t.to - 1) == []
    ensures OnSend(r, now, seqEnd).maxSeqSent.Some?
    ensures OnSend(r, now, seqEnd) != r ==> High(OnSend(r, now, seqEnd), iss) == t.to
    ensures r.timestamp.Some? ==> High(r, iss) <= High(OnSend(r, now, seqEnd), iss)
  {
    hide Off, Diff, Gt;
    var high := High(r, iss);
    if r.maxSeqSent.Some? {
      Exceeds(seqEnd, r.maxSeqSent.value, iss);
    }
    if high <= MAX_STREAM + 1 && EndsWithin(log, high) {
      EndsWithinMore(log, high, MaxOf(high, t.to));
      if t.to > high {
        NeverSent(log, high, t.to - 1);
      }
    } else if log.Nothing? {
      assert EndsWithin(log, t.to);
    }
  }

  /** Sending `[next, end)` at `now`. */
  lemma SendMatches(r: Rtt, una: nat, next: nat, iss: SeqNumber, log: Log, now: int, seqEnd: SeqNumber, end: nat)
    requires Matches(r, una, next, iss, log) && una <= next < end <= MAX_STREAM + 1
    requires Off(seqEnd, iss) == end
    ensures Matches(OnSend(r, now, seqEnd), una, end, iss, Then(log, Transmission(now, next, end)))
  {
    hide Off, Diff, Gt, HighOk, High;
    SendHigh(r, iss, log, now, seqEnd, Transmission(now, next, end));
  }

  lemma AckMatches(r: Rtt, una: nat, next: nat, iss: SeqNumber, log: Log, now: int, ack: SeqNumber, una': nat,
                   next': nat)
    requires Matches(r, una, next, iss, log) && next <= next'
    requires una' == una || una' == Off(ack, iss) <= MAX_STREAM + 1
    ensures Matches(OnAck(r, now, ack), una', next', iss, log)
  {
    if r.timestamp.Some? && una' != una {
      OffDiff(ack, r.timestamp.value.1, iss);
    }
    hide Off, Times, EndsWithin;
  }

  lemma RetransmitMatches(r: Rtt, una: nat, next: nat, iss: SeqNumber, log: Log, next': nat)
    requires Matches(r, una, next, iss, log)
    ensures Matches(OnRetransmit(r), una, next', iss, log)
  {
  }

  // ---- what an incoming segment does to the sending side ----

  /** The connection is up, or being opened by us. */
  predicate Live(st: State) {
    !st.Closed? && !st.Listen?
  }

  /** Nothing of interest, or an acknowledgement: `localSeq` moves to it, `remoteLastSeq` never back. */
  predicate AckStep(s: Tcb, r: Tcb, now: int, seg: Segment, iss: SeqNumber) {
    || (r.rtte == s.rtte && r.localSeq == s.localSeq && r.remoteLastSeq == s.remoteLastSeq)
    || (&& seg.ack.Some? && r.rtte == OnAck(s.rtte, now, seg.ack.value)
        && (r.localSeq == s.localSeq || r.localSeq == seg.ack.value)
        && Next(s, iss) <= Next(r, iss))
  }

  lemma NextPos(s: Tcb, iss: SeqNumber, sent: seq<Byte>)
    requires Inv(s) && SenderOk(s, iss, sent) && Live(s.state)
    ensures Una(s, iss) <= Next(s, iss) <= |sent| + 2
    ensures Next(s, iss) == Una(s, iss) + Diff(s.remoteLastSeq, s.localSeq)
    ensures SentSyn(s.state) ==> Una(s, iss) == 0 && Next(s, iss) <= 1
  {
    hide SynOk, Ring.Data;
    OffSelf(iss);
    OffPlus(s.remoteLastSeq, s.localSeq, iss);
  }

  /** `ApplyAck` moves `remoteLastSeq` up to the acknowledgement and no further. */
  lemma ApplyAckSender(cx: Context, s: Tcb, seg: Segment, ackLen: nat)
    requires s.tx.Valid() && ackLen <= s.tx.length && seg.ack.Some?
    ensures var r := ApplyAck(cx, s, seg, ackLen);
      && r.rtte == s.rtte && r.localSeq == seg.ack.value && r.state == s.state
      && r.remoteLastSeq == (if Lt(s.remoteLastSeq, seg.ack.value) then seg.ack.value else s.remoteLastSeq)
  {
  }

  /** Both numbers being positions of the stream, the later of the two is not behind the earlier. */
  lemma NotBehind(a: SeqNumber, ack: SeqNumber, iss: SeqNumber)
    requires Off(a, iss) <= MAX_STREAM + 1 && Off(ack, iss) <= MAX_STREAM + 1
    ensures Off(a, iss) <= Off(if Lt(a, ack) then ack else a, iss)
  {
  }

  lemma GoesOn(cx: Context, s: Tcb, seg: Segment, isn: SeqNumber)
    requires Inv(s) && Live(s.state) && !seg.control.Rst? && CheckAck(s, seg).AckAccept? && WireOk(seg)
    ensures seg.ack.Some?
    ensures var next := Transition(cx, s, seg, EffectiveControl(s, seg), AckedBy(s, seg), isn);
      if next.Stop? then next.s == s
      else
        && next.s.rtte == s.rtte && next.s.localSeq == s.localSeq
        && (next.s.remoteLastSeq == s.remoteLastSeq
            || (s.state.SynSent? && next.s.remoteLastSeq == Add(s.localSeq, 1) == seg.ack.value))
  {
    hide AckedBy, SynOk, ReceiverShape, Asm.Valid, Asm.Extent;
    var ack := AckedBy(s, seg);
    if Synchronised(s.state) {
      AckFacts(s, seg);
      SyncTransition(cx, s, seg, ack, isn);
    }
  }

  lemma AcceptedAckStep(cx: Context, s: Tcb, seg: Segment, payload: seq<Byte>, offset: nat, iss: SeqNumber,
                        sent: seq<Byte>)
    requires Inv(s) && SenderOk(s, iss, sent) && Live(s.state) && WireOk(seg)
    requires !seg.control.Rst? && CheckAck(s, seg).AckAccept?
    requires payload != [] ==> offset + |payload| <= s.rx.Window()
    ensures var r := ProcessAccepted(cx, s, seg, payload, offset, iss).s;
      r.tx.Valid() && SenderOk(r, iss, sent) && (Live(r.state) ==> AckStep(s, r, cx.now, seg, iss))
  {
    hide AckedBy, CheckAck, SynOk, ShapeOk, SenderOk, Transition, EffectiveControl, ApplyAck, ApplyPayload, OnAck;
    hide Off, StorePayload, Asm.Valid, Asm.Extent, Lt;
    SenderAccepted(cx, s, seg, payload, offset, iss, iss, sent);
    AcceptedKeepsInvLive(cx, s, seg, payload, offset, iss);
    var s0 := TakeRtt(cx, s, seg);
    TakeRttKeepsInv(cx, s, seg);
    AckedByIgnoresRtt(s, s0, seg);
    ControlIgnoresRtt(s, s0, seg);
    GoesOn(cx, s0, seg, iss);
    var ack := AckedBy(s, seg);
    var next := Transition(cx, s0, seg, EffectiveControl(s0, seg), ack, iss);
    NextPos(s, iss, sent);
    SenderBound(s, iss, sent);
    if next.Go? {
      var s2 := ApplyAck(cx, next.s, seg, ack.len);
      ApplyAckSender(cx, next.s, seg, ack.len);
      AcceptedGoKeepsInv(cx, s, seg, iss);
      ApplyPayloadFrame(cx, s2, seg, payload, offset);
      var r := ProcessAccepted(cx, s, seg, payload, offset, iss).s;
      if Live(r.state) {
        NextPos(r, iss, sent);
        OffAdd(s.localSeq, iss, 1);
        NotBehind(s.remoteLastSeq, seg.ack.value, iss);
        NotBehind(next.s.remoteLastSeq, seg.ack.value, iss);
      }
    }
  }

  lemma SenderBound(s: Tcb, iss: SeqNumber, sent: seq<Byte>)
    requires s.tx.Valid() && SenderOk(s, iss, sent)
    ensures |sent| < MAX_STREAM
  {
  }

  lemma AcceptedKeepsInvLive(cx: Context, s: Tcb, seg: Segment, payload: seq<Byte>, offset: nat, isn: SeqNumber)
    requires Inv(s) && Live(s.state) && WireOk(seg) && CheckAck(s, seg).AckAccept?
    requires payload != [] ==> offset + |payload| <= s.rx.Window()
    ensures Inv(ProcessAccepted(cx, s, seg, payload, offset, isn).s)
  {
    hide SynOk, ShapeOk, Wf, ProcessAccepted, CheckAck;
    AcceptedKeepsInv(cx, s, seg, payload, offset, isn);
  }

  // ---- one end of one connection ----

  /**
   What a connection may find in the estimator: no measurement running, and no highest number left over
   that is about half the sequence space behind the new initial number, where comparisons change sign.
   */
  predicate Clear(r: Rtt, isn: SeqNumber) {
    && r.timestamp.None?
    && (r.maxSeqSent.Some? ==> !(HALF + 1 < Off(r.maxSeqSent.value, isn) <= HALF + MAX_STREAM + 1))
  }

  /** `over` once the connection has ended: CLOSED, or thrown back to LISTEN by a RST. */
  datatype Karn = Karn(s: Tcb, iss: SeqNumber, sent: seq<Byte>, log: Log, over: bool)

  predicate KarnOk(k: Karn) {
    && Inv(k.s) && Quiet(k.s) && SenderOk(k.s, k.iss, k.sent)
    && (!k.over ==>
          if Live(k.s.state) then Matches(k.s.rtte, Una(k.s, k.iss), Next(k.s, k.iss), k.iss, k.log)
          else k.s.state.Listen? && k.log.Nothing? && Clear(k.s.rtte, k.iss))
  }

  predicate Ended(s: Tcb, r: Tcb) {
    r.state.Closed? || (r.state.Listen? && Live(s.state))
  }

  /** The same connection with a new socket state. */
  function Now(k: Karn, s: Tcb): Karn {
    k.(s := s, over := k.over || Ended(k.s, s))
  }

  lemma QuietTransition(cx: Context, s: Tcb, seg: Segment, control: Control, ack: AckInfo, isn: SeqNumber)
    requires Quiet(s)
    ensures Quiet(Transition(cx, s, seg, control, ack, isn).s)
  {
  }

  lemma QuietAccepted(cx: Context, s: Tcb, seg: Segment, payload: seq<Byte>, offset: nat, isn: SeqNumber)
    requires Inv(s) && Quiet(s) && CheckAck(s, seg).AckAccept?
    requires s.state.Listen? ==> seg.ack.None?
    requires payload != [] ==> offset + |payload| <= s.rx.Window()
    ensures Quiet(ProcessAccepted(cx, s, seg, payload, offset, isn).s)
  {
    hide AckedBy, CheckAck, SynOk, ShapeOk, Transition, EffectiveControl, ApplyPayload, OnAck, RemoteWindow;
    hide StorePayload, Asm.Valid, Asm.Extent;
    var s0 := TakeRtt(cx, s, seg);
    var ack := AckedBy(s, seg);
    QuietTransition(cx, s0, seg, EffectiveControl(s, seg), ack, isn);
    var next := Transition(cx, s0, seg, EffectiveControl(s, seg), ack, isn);
    if next.Go? {
      ApplyPayloadFrame(cx, ApplyAck(cx, next.s, seg, ack.len), seg, payload, offset);
    }
  }

  /** Any segment at a live connection. */
  lemma LiveArrives(cx: Context, s: Tcb, seg: Segment, iss: SeqNumber, sent: seq<Byte>)
    requires Inv(s) && Quiet(s) && SenderOk(s, iss, sent) && Live(s.state) && Accepts(s, seg) && WireOk(seg)
    ensures var r := Process(cx, s, seg, iss).s;
      && Inv(r) && Quiet(r) && SenderOk(r, iss, sent)
      && (Live(r.state) ==> AckStep(s, r, cx.now, seg, iss))
  {
    hide SynOk, ShapeOk, SenderOk, CheckAck, ProcessAccepted, SegmentInWindow, AckStep, ChallengeAckReply, Overlap;
    hide RstReply, Asm.Valid, Asm.Extent, SegmentAt;
    ProcessKeepsInv(cx, s, seg, iss);
    var r := Process(cx, s, seg, iss).s;
    match CheckAck(s, seg)
    case AckIgnore => SameSender(s, r, cx.now, seg, iss, sent);
    case AckReset => SameSender(s, r, cx.now, seg, iss, sent);
    case AckChallenge =>
      ChallengeFrame(cx, s, seg);
      SameSender(s, r, cx.now, seg, iss, sent);
    case AckAccept =>
      if s.state.SynSent? {
        LiveAccepted(cx, s, seg, [], 0, iss, sent);
      } else if SegmentInWindow(s, seg) {
        var (payload, offset) := Overlap(s, seg);
        LiveAccepted(cx, s, seg, payload, offset, iss, sent);
      } else {
        ChallengeFrame(cx, if s.state.TimeWait? then s.(timer := Timer.Close(cx.now + CLOSE_DELAY)) else s, seg);
        SameSender(s, r, cx.now, seg, iss, sent);
      }
  }

  lemma ChallengeFrame(cx: Context, s: Tcb, seg: Segment)
    requires s.rx.Valid() && s.rx.Capacity() <= MAX_RX_CAPACITY
    ensures var r := ChallengeAckReply(cx, s, seg).s;
      r == s.(challengeAckAt := r.challengeAckAt, remoteLastAck := r.remoteLastAck, remoteLastWin := r.remoteLastWin)
  {
  }

  lemma SameSender(s: Tcb, r: Tcb, now: int, seg: Segment, iss: SeqNumber, sent: seq<Byte>)
    requires s.tx.Valid() && SenderOk(s, iss, sent)
    requires r.tx == s.tx && r.localSeq == s.localSeq && r.state == s.state && r.rtte == s.rtte
    requires r.remoteLastSeq == s.remoteLastSeq
    ensures SenderOk(r, iss, sent) && AckStep(s, r, now, seg, iss)
  {
    SenderFrame(s, r, iss, sent);
  }

  lemma LiveAccepted(cx: Context, s: Tcb, seg: Segment, payload: seq<Byte>, offset: nat, iss: SeqNumber,
                     sent: seq<Byte>)
    requires Inv(s) && Quiet(s) && SenderOk(s, iss, sent) && Live(s.state) && WireOk(seg) && CheckAck(s, seg).AckAccept?
    requires payload != [] ==> offset + |payload| <= s.rx.Window()
    ensures var r := ProcessAccepted(cx, s, seg, payload, offset, iss).s;
      && r.tx.Valid() && Quiet(r) && SenderOk(r, iss, sent)
      && (Live(r.state) ==> AckStep(s, r, cx.now, seg, iss))
  {
    hide SynOk, ShapeOk, SenderOk, CheckAck, ProcessAccepted, AckStep;
    QuietAccepted(cx, s, seg, payload, offset, iss);
    SenderAccepted(cx, s, seg, payload, offset, iss, iss, sent);
    if seg.control.Rst? {
      RstOutcome(cx, s, seg, payload, offset, iss);
    } else {
      AcceptedAckStep(cx, s, seg, payload, offset, iss, sent);
    }
  }

  lemma KarnLive(k: Karn, cx: Context, seg: Segment)
    requires KarnOk(k) && Live(k.s.state) && Accepts(k.s, seg) && WireOk(seg)
    ensures KarnOk(Now(k, Process(cx, k.s, seg, k.iss).s))
  {
    hide SynOk, ShapeOk, SenderOk, Process, OnAck, Off, Matches, Asm.Valid, Asm.Extent;
    LiveArrives(cx, k.s, seg, k.iss, k.sent);
    var r := Process(cx, k.s, seg, k.iss).s;
    if !k.over && Live(r.state) && seg.ack.Some? {
      NextPos(r, k.iss, k.sent);
      SenderBound(r, k.iss, k.sent);
      if r.rtte == OnAck(k.s.rtte, cx.now, seg.ack.value) && (r.localSeq == k.s.localSeq || r.localSeq == seg.ack.value)
         && Next(k.s, k.iss) <= Next(r, k.iss) {
        AckMatches(k.s.rtte, Una(k.s, k.iss), Next(k.s, k.iss), k.iss, k.log, cx.now, seg.ack.value,
                   Una(r, k.iss), Next(r, k.iss));
      }
    }
  }

  /** A SYN in LISTEN opens the connection; nothing has been sent in it. */
  lemma KarnOpens(k: Karn, cx: Context, seg: Segment)
    requires KarnOk(k) && k.s.state.Listen? && Accepts(k.s, seg) && WireOk(seg)
    ensures KarnOk(Now(k, Process(cx, k.s, seg, k.iss).s))
  {
    hide SynOk, ShapeOk, SenderOk, Off, Asm.Valid, Asm.Extent, ProcessAccepted, CheckAck;
    ProcessKeepsInv(cx, k.s, seg, k.iss);
    var r := Process(cx, k.s, seg, k.iss).s;
    ListenAccepts(k.s, seg);
    SenderAccepted(cx, k.s, seg, [], 0, k.iss, k.iss, k.sent);
    QuietAccepted(cx, k.s, seg, [], 0, k.iss);
    OpenedKarn(cx, k.s, seg, k.iss);
    OffSelf(k.iss);
  }

  lemma ListenAccepts(s: Tcb, seg: Segment)
    requires Wf(s) && s.state.Listen?
    ensures CheckAck(s, seg).AckAccept?
  {
  }

  lemma OpenedKarn(cx: Context, s: Tcb, seg: Segment, iss: SeqNumber)
    requires Inv(s) && s.state.Listen? && seg.ack.None? && CheckAck(s, seg).AckAccept?
    ensures var r := ProcessAccepted(cx, s, seg, [], 0, iss).s;
      && r.rtte == s.rtte && (r.state.Listen? || r.state.SynReceived?)
      && (r.state.SynReceived? ==> r.localSeq == iss && r.remoteLastSeq == iss)
  {
    hide SynOk, AckedBy, RemoteWindow, Asm.Valid, Asm.Extent;
  }

  // ---- sending ----

  lemma TupleLive(s: Tcb)
    requires Inv(s) && s.tuple.Some?
    ensures !s.state.Listen?
  {
  }

  lemma KarnBefore(k: Karn, cx: Context)
    requires KarnOk(k) && k.s.tuple.Some? && CxOk(cx, k.s)
    ensures KarnOk(Now(k, BeforeSend(cx, k.s)))
  {
    hide SynOk, ShapeOk, SenderOk, Off, Asm.Valid, Asm.Extent, BeforeSend, Matches, OnRetransmit, Rewinds;
    BeforeSendKeepsInv(cx, k.s);
    BeforeSendFrame(cx, k.s);
    TupleLive(k.s);
    var r := BeforeSend(cx, k.s);
    SenderFrame(k.s, r, k.iss, k.sent);
    if !k.over && Live(r.state) {
      RetransmitMatches(k.s.rtte, Una(k.s, k.iss), Next(k.s, k.iss), k.iss, k.log, Next(r, k.iss));
    }
  }

  /** What goes into the log when `dispatch` has handed a segment to the device. */
  function Logged(log: Log, now: int, seg: Segment, iss: SeqNumber): Log {
    if SegmentLen(seg) == 0 then log
    else Then(log, Transmission(now, PosOf(seg, iss), PosOf(seg, iss) + SegmentLen(seg)))
  }

  lemma AfterSendQuiet(cx: Context, s: Tcb)
    requires Inv(s) && Quiet(s) && s.tuple.Some? && CxOk(cx, s) && WhatToDo(cx, s).SendSegment?
    ensures Outgoing(cx, s) == Draft(cx, s) && !IsKeepAlive(cx, s) && Quiet(AfterSend(cx, s))
  {
    hide SynOk, ShapeOk, Asm.Valid, Asm.Extent, SeqToTransmit, WhatToDo, Draft, OnSend, TimerAfter, Diff;
    QuietTimer(cx, s);
  }

  lemma QuietTimer(cx: Context, s: Tcb)
    requires Inv(s) && Quiet(s) && s.tuple.Some? && CxOk(cx, s) && WhatToDo(cx, s).SendSegment?
    ensures TimerAfter(cx, s).Idle? ==> TimerAfter(cx, s).keepAliveAt.None?
  {
    hide SynOk, ShapeOk, Asm.Valid, Asm.Extent, SeqToTransmit, WhatToDo, Draft, OnSend, RetransmissionTimeout;
  }

  lemma KarnSends(k: Karn, cx: Context)
    requires KarnOk(k) && k.s.tuple.Some? && CxOk(cx, k.s) && WhatToDo(cx, k.s).SendSegment?
    ensures KarnOk(Now(k, AfterSend(cx, k.s)).(log := Logged(k.log, cx.now, Outgoing(cx, k.s), k.iss)))
  {
    hide SynOk, SenderOk, Off, Asm.Valid, Asm.Extent, WhatToDo, AfterSend, Outgoing, Draft, OnSend, Matches, Diff;
    var r := AfterSend(cx, k.s);
    AfterSendKeepsInv(cx, k.s);
    AfterSendFrame(cx, k.s);
    AfterSendQuiet(cx, k.s);
    SenderFrame(k.s, r, k.iss, k.sent);
    if !k.over && Live(r.state) {
      NextPos(k.s, k.iss, k.sent);
      NextPos(r, k.iss, k.sent);
      SenderBound(r, k.iss, k.sent);
      if SegmentLen(Draft(cx, k.s)) > 0 {
        SendMatches(k.s.rtte, Una(k.s, k.iss), Next(k.s, k.iss), k.iss, k.log, cx.now, r.remoteLastSeq, Next(r, k.iss));
      }
    }
  }

  /** `dispatch`: the new state and what has been transmitted. */
  function Transmit(k: Karn, cx: Context, emitOk: bool): Karn
    requires Inv(k.s) && CxOk(cx, k.s)
  {
    var r := Dispatch(cx, k.s, emitOk);
    Now(k, r.s).(log := if emitOk && r.out.Some? then Logged(k.log, cx.now, r.out.value, k.iss) else k.log)
  }

  lemma KarnTransmits(k: Karn, cx: Context, emitOk: bool)
    requires KarnOk(k) && CxOk(cx, k.s)
    ensures KarnOk(Transmit(k, cx, emitOk))
  {
    hide SynOk, ShapeOk, SenderOk, Off, Asm.Valid, Asm.Extent, WhatToDo, AfterSend, Outgoing, BeforeSend;
    hide Matches, Reset;
    if k.s.tuple.Some? {
      KarnBefore(k, cx);
      BeforeSendKeepsInv(cx, k.s);
      var k1 := Now(k, BeforeSend(cx, k.s));
      match WhatToDo(cx, k1.s)
      case DoNothing =>
      case ResetSocket =>
        ResetKeepsInv(k1.s);
        ResetQuiet(k1.s, k.iss, k.sent);
      case SendSegment =>
        KarnSends(k1, cx);
        EndedOnce(cx, k, k1);
    }
  }

  lemma ResetQuiet(s: Tcb, iss: SeqNumber, sent: seq<Byte>)
    requires Inv(s) && Quiet(s) && SenderOk(s, iss, sent)
    ensures Inv(Reset(s)) && Quiet(Reset(s)) && Reset(s).state.Closed? && SenderOk(Reset(s), iss, sent)
  {
    ResetKeepsInv(s);
    hide SynOk, InitialShift, Asm.Valid, Asm.Extent;
  }

  /** Sending does not change the state, so it ends nothing that preparing to send has not ended. */
  lemma EndedOnce(cx: Context, k: Karn, k1: Karn)
    requires Inv(k1.s) && Quiet(k1.s) && k1.s.tuple.Some? && CxOk(cx, k1.s) && WhatToDo(cx, k1.s).SendSegment?
    requires k1 == Now(k, k1.s)
    ensures Now(k, AfterSend(cx, k1.s)) == Now(k1, AfterSend(cx, k1.s))
  {
    hide SynOk, ShapeOk, WhatToDo, AfterSend, Asm.Valid, Asm.Extent;
    AfterSendFrame(cx, k1.s);
  }

  // ---- every run ----

  datatype Happening =
    | Arrive(cx: Context, seg: Segment)
    | Egress(cx: Context, emitOk: bool)
    | Send(data: seq<Byte>)
    | Recv(size: nat)
    | CloseTx
    | AbortAll
    | Configure(timeout: Option<nat>, ackDelay: Option<nat>, nagle: bool)

  function Follow(k: Karn, e: Happening): Karn
    requires Inv(k.s)
  {
    match e
    case Arrive(cx, seg) =>
      if Accepts(k.s, seg) && WireOk(seg) then Now(k, Process(cx, k.s, seg, k.iss).s) else k
    case Egress(cx, emitOk) => if CxOk(cx, k.s) then Transmit(k, cx, emitOk) else k
    case Send(data) =>
      if |k.sent| + |data| < MAX_STREAM then
        var (s, n) := SendSlice(k.s, data);
        Now(k, s).(sent := k.sent + (if n.Some? && n.value <= |data| then data[..n.value] else []))
      else k
    case Recv(size) => Now(k, RecvSlice(k.s, size).0)
    case CloseTx => Now(k, CloseCall(k.s))
    case AbortAll => Now(k, Abort(k.s))
    case Configure(timeout, ackDelay, nagle) =>
      Now(k, k.s.(timeout := timeout, ackDelay := ackDelay, nagle := nagle))
  }

  /** What the estimator and the sender positions do not look at. */
  lemma KarnFrame(k: Karn, s: Tcb, sent: seq<Byte>)
    requires KarnOk(k) && Inv(s) && Quiet(s) && SenderOk(s, k.iss, sent)
    requires s.rtte == k.s.rtte && s.localSeq == k.s.localSeq && s.remoteLastSeq == k.s.remoteLastSeq
    requires s.state == k.s.state || s.state.Closed? || (Live(s.state) && Live(k.s.state))
    ensures KarnOk(Now(k, s).(sent := sent))
  {
    hide SynOk, ShapeOk, SenderOk, Off, Asm.Valid, Asm.Extent, Matches;
  }

  lemma KarnCloses(k: Karn)
    requires KarnOk(k)
    ensures KarnOk(Now(k, CloseCall(k.s)))
  {
    hide SynOk, ShapeOk, SenderOk, Off, Asm.Valid, Asm.Extent, Matches, Ring.Data;
    CloseKeepsInv(k.s);
    CloseBuffers(k.s);
    CloseSender(k.s, k.iss, k.sent);
    KarnFrame(k, CloseCall(k.s), k.sent);
  }

  lemma KarnSendCall(k: Karn, data: seq<Byte>)
    requires KarnOk(k) && |k.sent| + |data| < MAX_STREAM
    ensures KarnOk(Follow(k, Happening.Send(data)))
  {
    hide SynOk, ShapeOk, SenderOk, Off, Asm.Valid, Asm.Extent, Matches, EnqueueSlice;
    SendKeepsInv(k.s, data);
    if MaySend(k.s) {
      SendStream(k.s, data, k.iss, k.sent);
      var (s, n) := SendSlice(k.s, data);
      KarnFrame(k, s, k.sent + data[..n.value]);
    } else {
      assert k.sent + [] == k.sent;
      KarnFrame(k, k.s, k.sent);
    }
  }

  lemma KarnRecv(k: Karn, size: nat)
    requires KarnOk(k)
    ensures KarnOk(Follow(k, Happening.Recv(size)))
  {
    hide SynOk, ShapeOk, SenderOk, Off, Asm.Valid, Asm.Extent, Matches, Dequeue;
    RecvKeepsInv(k.s, size);
    var s := RecvSlice(k.s, size).0;
    SenderFrame(k.s, s, k.iss, k.sent);
    KarnFrame(k, s, k.sent);
  }

  lemma KarnConfigure(k: Karn, timeout: Option<nat>, ackDelay: Option<nat>, nagle: bool)
    requires KarnOk(k)
    ensures KarnOk(Follow(k, Happening.Configure(timeout, ackDelay, nagle)))
  {
    hide SynOk, ShapeOk, SenderOk, Off, Asm.Valid, Asm.Extent, Matches;
    ConfigureKeepsInv(k.s, timeout, k.s.keepAlive, ackDelay, nagle);
    var s := k.s.(timeout := timeout, ackDelay := ackDelay, nagle := nagle);
    SenderFrame(k.s, s, k.iss, k.sent);
    KarnFrame(k, s, k.sent);
  }

  lemma KarnAborts(k: Karn)
    requires KarnOk(k)
    ensures KarnOk(Follow(k, Happening.AbortAll))
  {
    hide SynOk, ShapeOk, SenderOk, Off, Asm.Valid, Asm.Extent, Matches;
    AbortKeepsInv(k.s);
    SenderFrame(k.s, Abort(k.s), k.iss, k.sent);
    KarnFrame(k, Abort(k.s), k.sent);
  }

  lemma KarnStep(k: Karn, e: Happening)
    requires KarnOk(k)
    ensures KarnOk(Follow(k, e))
  {
    hide SynOk, ShapeOk, SenderOk, Process, Transmit, SendSlice, RecvSlice, CloseCall, Asm.Valid, Asm.Extent, Matches;
    match e
    case Arrive(cx, seg) =>
      if Accepts(k.s, seg) && WireOk(seg) {
        if k.s.state.Listen? {
          KarnOpens(k, cx, seg);
        } else {
          KarnLive(k, cx, seg);
        }
      }
    case Egress(cx, emitOk) =>
      if CxOk(cx, k.s) {
        KarnTransmits(k, cx, emitOk);
      }
    case Send(data) =>
      if |k.sent| + |data| < MAX_STREAM {
        KarnSendCall(k, data);
      }
    case Recv(size) => KarnRecv(k, size);
    case CloseTx => KarnCloses(k);
    case AbortAll => KarnAborts(k);
    case Configure(timeout, ackDelay, nagle) => KarnConfigure(k, timeout, ackDelay, nagle);
  }

  /** Every happening keeps the invariant of the socket, whatever the estimator holds. */
  lemma FollowKeepsInv(k: Karn, e: Happening)
    requires Inv(k.s)
    ensures Inv(Follow(k, e).s)
  {
    hide Inv, Process, Dispatch, SendSlice, RecvSlice, CloseCall, Accepts, WireOk, CxOk;
    InvIsWf(k.s);
    match e
    case Arrive(cx, seg) =>
      if Accepts(k.s, seg) && WireOk(seg) {
        ProcessKeepsInv(cx, k.s, seg, k.iss);
      }
    case Egress(cx, emitOk) =>
      if CxOk(cx, k.s) {
        DispatchKeepsInv(cx, k.s, emitOk);
      }
    case Send(data) => SendKeepsInv(k.s, data);
    case Recv(size) => RecvKeepsInv(k.s, size);
    case CloseTx => CloseKeepsInv(k.s);
    case AbortAll => AbortKeepsInv(k.s);
    case Configure(timeout, ackDelay, nagle) =>
      OptionsKeepInv(k.s, timeout, ackDelay, nagle);
  }

  lemma OptionsKeepInv(s: Tcb, timeout: Option<nat>, ackDelay: Option<nat>, nagle: bool)
    requires Inv(s)
    ensures Inv(s.(timeout := timeout, ackDelay := ackDelay, nagle := nagle))
  {
  }

  function FollowAll(k: Karn, es: seq<Happening>): (r: Karn)
    requires Inv(k.s)
    ensures Inv(r.s)
    decreases |es|
  {
    if es == [] then k
    else
      FollowKeepsInv(k, es[0]);
      FollowAll(Follow(k, es[0]), es[1..])
  }

  lemma {:induction false} KarnRun(k: Karn, es: seq<Happening>)
    requires KarnOk(k)
    ensures KarnOk(FollowAll(k, es))
    decreases |es|
  {
    hide SynOk, ShapeOk, Wf, SenderOk, Follow, Matches;
    if es != [] {
      KarnStep(k, es[0]);
      KarnRun(Follow(k, es[0]), es[1..]);
    }
  }

  /**
   A connection at its beginning: a socket that has just been told to connect, or that listens, newly or again,
   with nothing in its estimator that could be mistaken for this connection's.
   */
  predicate Begins(s: Tcb, isn: SeqNumber) {
    && (s.state.SynSent? || s.state.Listen?) && s.tx.length == 0 && Clear(s.rtte, isn)
    && (s.state.SynSent? ==> s.localSeq == isn)
  }

  lemma OpenedBegins(s: Tcb, local: Endpoint, remote: Endpoint, isn: SeqNumber, at: ListenEndpoint)
    requires Inv(s) && Quiet(s) && !IsOpen(s.state)
    ensures var (c, r) := Connect(s, local, remote, isn); r.OpenOk? ==> Inv(c) && Quiet(c) && Begins(c, isn)
    ensures var (l, r) := ListenOn(s, at); r.OpenOk? ==> Inv(l) && Quiet(l) && Begins(l, isn)
  {
    ConnectKeepsInv(s, local, remote, isn);
    ListenKeepsInv(s, at);
    hide SynOk, InitialShift, Asm.Valid, Asm.Extent, Diff;
  }

  lemma BeginsOk(s: Tcb, isn: SeqNumber)
    requires Inv(s) && Quiet(s) && Begins(s, isn)
    ensures KarnOk(Karn(s, isn, [], Nothing, false))
  {
    hide SynOk, Asm.Valid, Asm.Extent, Diff;
  }

  /** Whether `process` takes a sample from this segment. */
  predicate Sampled(s: Tcb, seg: Segment)
    requires Inv(s) && WireOk(seg)
  {
    && CheckAck(s, seg).AckAccept? && !seg.control.Rst? && seg.ack.Some?
    && (s.state.SynSent? || SegmentInWindow(s, seg))
    && Samples(s.rtte, seg.ack.value)
  }

  lemma AcceptedRtt(cx: Context, s: Tcb, seg: Segment, payload: seq<Byte>, offset: nat, isn: SeqNumber)
    requires Inv(s) && WireOk(seg) && Live(s.state) && CheckAck(s, seg).AckAccept?
    requires payload != [] ==> offset + |payload| <= s.rx.Window()
    ensures ProcessAccepted(cx, s, seg, payload, offset, isn).s.rtte == TakeRtt(cx, s, seg).rtte
  {
    hide AckedBy, CheckAck, SynOk, ShapeOk, EffectiveControl, ApplyPayload, Transition, ApplyAck, OnAck;
    hide StorePayload, Asm.Valid, Asm.Extent, TakeRtt;
    var s0 := TakeRtt(cx, s, seg);
    TakeRttKeepsInv(cx, s, seg);
    AckedByIgnoresRtt(s, s0, seg);
    ControlIgnoresRtt(s, s0, seg);
    var ack := AckedBy(s, seg);
    if seg.control.Rst? {
      RstOutcome(cx, s, seg, payload, offset, isn);
      assert OnRst(s0).rtte == s0.rtte;
    } else {
      GoesOn(cx, s0, seg, isn);
      var next := Transition(cx, s0, seg, EffectiveControl(s0, seg), ack, isn);
      if next.Go? {
        ApplyAckSender(cx, next.s, seg, ack.len);
        ApplyPayloadFrame(cx, ApplyAck(cx, next.s, seg, ack.len), seg, payload, offset);
      }
    }
  }

  /** A segment changes the estimator exactly by the sample taken from it, if any. */
  lemma ProcessRtt(cx: Context, s: Tcb, seg: Segment, isn: SeqNumber)
    requires Inv(s) && WireOk(seg) && Live(s.state) && Accepts(s, seg)
    ensures Process(cx, s, seg, isn).s.rtte ==
      (if Sampled(s, seg) then Sample(s.rtte, Elapsed(s.rtte, cx.now)).(timestamp := None) else s.rtte)
  {
    hide CheckAck, SynOk, ShapeOk, ProcessAccepted, SegmentInWindow, Overlap, ChallengeAckReply, RstReply;
    hide Asm.Valid, Asm.Extent, Sample, SegmentAt;
    match CheckAck(s, seg)
    case AckIgnore =>
    case AckReset =>
    case AckChallenge => ChallengeFrame(cx, s, seg);
    case AckAccept =>
      if s.state.SynSent? {
        AcceptedRtt(cx, s, seg, [], 0, isn);
      } else if SegmentInWindow(s, seg) {
        var (payload, offset) := Overlap(s, seg);
        AcceptedRtt(cx, s, seg, payload, offset, isn);
      } else {
        ChallengeFrame(cx, if s.state.TimeWait? then s.(timer := Timer.Close(cx.now + CLOSE_DELAY)) else s, seg);
      }
  }

  lemma AckPos(s: Tcb, seg: Segment, iss: SeqNumber, sent: seq<Byte>)
    requires Inv(s) && SenderOk(s, iss, sent) && Live(s.state) && CheckAck(s, seg).AckAccept? && !seg.control.Rst?
    ensures seg.ack.Some? && Off(seg.ack.value, iss) <= MAX_STREAM + 1
  {
    hide SynOk, AckedBy, Ring.Data;
    OffSelf(iss);
    if s.state.SynSent? {
      OffAdd(s.localSeq, iss, 1);
    } else {
      AckFacts(s, seg);
      OffPlus(seg.ack.value, s.localSeq, iss);
    }
  }

  /** Whatever sample is taken from `seg` times the one transmission of an octet it is the first to acknowledge. */
  predicate RuleAt(k: Karn, seg: Segment)
    requires Inv(k.s)
  {
    !k.over && Live(k.s.state) && WireOk(seg) && Sampled(k.s, seg) ==>
      var p := Off(k.s.rtte.timestamp.value.1, k.iss) - 1;
      && Times(k.log, p) == [k.s.rtte.timestamp.value.0]
      && Una(k.s, k.iss) <= p < Off(seg.ack.value, k.iss)
  }

  function Beginning(s: Tcb, isn: SeqNumber): Karn {
    Karn(s, isn, [], Nothing, false)
  }

  /** In every reachable state of a connection Karn's rule holds for every segment that may come. */
  lemma KarnsRule(s: Tcb, isn: SeqNumber, es: seq<Happening>, seg: Segment)
    requires Inv(s) && Quiet(s) && Begins(s, isn)
    ensures RuleAt(FollowAll(Beginning(s, isn), es), seg)
  {
    hide SynOk, ShapeOk, SenderOk, Follow, CheckAck, SegmentInWindow, Asm.Valid, Asm.Extent, Off, Diff;
    BeginsOk(s, isn);
    KarnRun(Beginning(s, isn), es);
    var k := FollowAll(Beginning(s, isn), es);
    if !k.over && Live(k.s.state) && WireOk(seg) && Sampled(k.s, seg) {
      AckPos(k.s, seg, k.iss, k.sent);
      OffDiff(seg.ack.value, k.s.rtte.timestamp.value.1, k.iss);
    }
  }
}
