/**
 Keep-alive probes: when they are sent, over every run, and what the peer makes of them. A probe repeats the number
 before the next one to be sent. With nothing in flight that number has been acknowledged, and the peer answers without
 taking the probe for data; otherwise it may be the number of an octet that was lost.
 */
module TcpKeepAlive {
  import opened Common
  import opened SeqNumbers
  import opened RingBuffer
  import opened Tcp
  import opened TcpProcess
  import opened TcpDispatch
  import opened TcpInvariant
  import opened TcpStream
  import opened TcpPeer
  import opened TcpProgress
  import opened TcpTimer
  import opened TcpNagle
  import opened TcpEffect
  import opened TcpClock
  import opened TcpTold
  import Asm = AssemblerList

  // ---- when ----

  /** A segment was last sent at `sent`, and `clock` is the latest time seen. */
  datatype Pace = Pace(sent: int, clock: int)

  /** With an interval of `k`: while nothing else is timed, a probe is due no sooner than `k` after the last send. */
  predicate Paced(s: Tcb, k: nat, p: Pace) {
    && s.keepAlive == Some(k) && p.sent <= p.clock
    && (Synchronised(s.state) && s.timer.Idle? ==>
          s.timer.keepAliveAt.Some? && p.sent + k <= s.timer.keepAliveAt.value <= p.clock + k)
  }

  /** The clock does not go back, and the interval stays. */
  predicate Steady(op: Op, k: nat, p: Pace) {
    match op
    case Arrive(cx, _, _) => p.clock <= cx.now
    case Egress(cx, _) => p.clock <= cx.now
    case Configure(_, keepAlive, _, _) => keepAlive == Some(k)
    case _ => true
  }

  function PaceAfter(s: Tcb, op: Op, p: Pace): Pace
    requires Inv(s)
  {
    match op
    case Arrive(cx, _, _) => p.(clock := cx.now)
    case Egress(cx, emitOk) =>
      if CxOk(cx, s) && Dispatch(cx, s, emitOk).out.Some? && emitOk then Pace(cx.now, cx.now) else p.(clock := cx.now)
    case _ => p
  }

  lemma ArrivePaced(cx: Context, s: Tcb, seg: Segment, isn: SeqNumber, k: nat, p: Pace)
    requires Inv(s) && Paced(s, k, p) && p.clock <= cx.now && Accepts(s, seg) && WireOk(seg)
    ensures Paced(Process(cx, s, seg, isn).s, k, p.(clock := cx.now))
  {
    hide SynOk, ShapeOk, Wf, Process, Heeded, OutOfWindow, ThirdDuplicate, WireOk, Opens;
    if Synchronised(s.state) {
      ArriveEffect(cx, s, seg, isn);
    } else {
      ArriveOpens(cx, s, seg, isn);
    }
  }

  lemma EgressPaced(cx: Context, s: Tcb, emitOk: bool, k: nat, p: Pace)
    requires Inv(s) && Paced(s, k, p) && p.clock <= cx.now && CxOk(cx, s)
    ensures Paced(Dispatch(cx, s, emitOk).s, k, PaceAfter(s, Egress(cx, emitOk), p))
  {
    hide SynOk, ShapeOk, Wf, Dispatch, SendsSome, MoreToSend, Rewinds, InitialShift;
    InvIsWf(s);
    if s.tuple.Some? {
      DispatchTimer(cx, s, emitOk);
      EgressPeer(cx, s, emitOk);
    } else {
      NoTuple(cx, s, emitOk);
      if Synchronised(s.state) {
        ConnectedTuple(s);
      }
    }
    DispatchSettings(cx, s, emitOk);
  }

  lemma DispatchSettings(cx: Context, s: Tcb, emitOk: bool)
    requires Inv(s) && CxOk(cx, s)
    ensures Dispatch(cx, s, emitOk).s.keepAlive == s.keepAlive
  {
    hide Inv, Dispatch;
  }

  lemma CallPaced(s: Tcb, op: Op, k: nat, p: Pace)
    requires Inv(s) && Paced(s, k, p) && Steady(op, k, p) && !op.Arrive? && !op.Egress?
    ensures Paced(Apply(s, op), k, p)
  {
    hide SynOk, ShapeOk, Wf, InitialShift, EnqueueSlice, Dequeue;
  }

  lemma StepPaced(s: Tcb, op: Op, k: nat, p: Pace)
    requires Inv(s) && Paced(s, k, p) && Steady(op, k, p)
    ensures Paced(Apply(s, op), k, PaceAfter(s, op, p))
  {
    hide SynOk, ShapeOk, Wf, Process, Dispatch, SendSlice, RecvSlice, Connect, ListenOn, CloseCall, SetKeepAlive;
    match op
    case Arrive(cx, seg, isn) =>
      if Accepts(s, seg) && WireOk(seg) {
        ArrivePaced(cx, s, seg, isn, k, p);
      }
    case Egress(cx, emitOk) =>
      if CxOk(cx, s) {
        EgressPaced(cx, s, emitOk, k, p);
      }
    case _ => CallPaced(s, op, k, p);
  }

  predicate AllSteady(s: Tcb, ops: seq<Op>, k: nat, p: Pace)
    requires Inv(s)
    decreases |ops|
  {
    ops != [] ==>
      && Steady(ops[0], k, p)
      && (ApplyKeepsInv(s, ops[0]); AllSteady(Apply(s, ops[0]), ops[1..], k, PaceAfter(s, ops[0], p)))
  }

  function PaceIn(s: Tcb, ops: seq<Op>, p: Pace): Pace
    requires Inv(s)
    decreases |ops|
  {
    if ops == [] then p
    else
      ApplyKeepsInv(s, ops[0]);
      PaceIn(Apply(s, ops[0]), ops[1..], PaceAfter(s, ops[0], p))
  }

  lemma {:induction false} RunPaced(s: Tcb, ops: seq<Op>, k: nat, p: Pace)
    requires Inv(s) && Paced(s, k, p) && AllSteady(s, ops, k, p)
    ensures Inv(Run(s, ops)) && Paced(Run(s, ops), k, PaceIn(s, ops, p))
    decreases |ops|
  {
    hide Inv, Apply, PaceAfter, Paced, Steady;
    if ops != [] {
      ApplyKeepsInv(s, ops[0]);
      StepPaced(s, ops[0], k, p);
      RunPaced(Apply(s, ops[0]), ops[1..], k, PaceAfter(s, ops[0], p));
    }
  }

  lemma ProbeIsDue(cx: Context, s: Tcb, emitOk: bool)
    requires Inv(s) && CxOk(cx, s) && Synchronised(s.state) && !GivesUp(s, cx.now)
    ensures s.tuple.Some?
    ensures ShouldKeepAlive(s.timer, cx.now) ==> Dispatch(cx, s, emitOk).out.Some?
    ensures Probes(cx, s) ==> ShouldKeepAlive(s.timer, cx.now) || (Rewinds(cx, s) && s.keepAlive == Some(0))
  {
    hide SynOk, BeforeSend, AfterSend, Outgoing, SeqToTransmit, Draft, AckToTransmit, WindowToUpdate, Asm.Valid;
    hide Asm.Extent;
    BeforeSendKeepsInv(cx, s);
    BeforeSendFrame(cx, s);
    if ShouldKeepAlive(s.timer, cx.now) && Rewinds(cx, s) {
      RewindsTimer(cx, s);
    }
  }

  /**
   Over every run with a clock that does not go back and one interval: no probe goes out before the interval has passed
   since the last segment sent, and a connection in which nothing else is timed sends something as soon as the interval
   has passed since anything happened.
   */
  lemma ProbesOnTime(s: Tcb, ops: seq<Op>, k: nat, p: Pace, cx: Context, emitOk: bool)
    requires Inv(s) && Paced(s, k, p) && AllSteady(s, ops, k, p)
    ensures var r, q := Run(s, ops), PaceIn(s, ops, p);
      && Inv(r)
      && (Synchronised(r.state) && CxOk(cx, r) && !GivesUp(r, cx.now) && q.clock <= cx.now ==>
            && r.tuple.Some?
            && (Probes(cx, r) ==> cx.now >= q.sent + k)
            && (r.timer.Idle? && cx.now >= q.clock + k ==> Dispatch(cx, r, emitOk).out.Some?))
  {
    hide Inv, Run, PaceIn, AllSteady, Dispatch, Probes, Rewinds, GivesUp;
    RunPaced(s, ops, k, p);
    var r := Run(s, ops);
    if Synchronised(r.state) && CxOk(cx, r) && !GivesUp(r, cx.now) {
      ProbeIsDue(cx, r, emitOk);
    }
  }

  // ---- what ----

  /** The next number to be sent, which is the first unacknowledged one if all is about to be sent again. */
  function NextNumber(cx: Context, s: Tcb): SeqNumber
    requires Inv(s) && s.tuple.Some? && CxOk(cx, s)
  {
    if Rewinds(cx, s) then s.localSeq else s.remoteLastSeq
  }

  predicate IsProbe(p: Segment, next: SeqNumber) {
    p.control.NoFlag? && p.payload == [0] && Add(p.seqNo, 1) == next
  }

  lemma DraftIsPlain(cx: Context, s: Tcb)
    requires Wf(s) && s.tuple.Some? && CxOk(cx, s) && IsEmptySegment(Draft(cx, s))
    ensures Draft(cx, s).control.NoFlag? && Draft(cx, s).seqNo == s.remoteLastSeq
  {
    hide Asm.Valid, Asm.Extent, GetAllocated, SegmentRoom, LocalMss;
  }

  lemma AfterPred(a: SeqNumber)
    ensures Add(Pred(a), 1) == a
  {
  }

  /**
   A probe carries one octet, the number before the next to be sent, and acknowledges all that was received. That
   number has been acknowledged exactly unless octets are in flight without a timer, which `TcpTimer.TimerRuns` says.
   */
  lemma ProbeNumber(cx: Context, s: Tcb, emitOk: bool)
    requires Inv(s) && CxOk(cx, s) && Synchronised(s.state) && s.tuple.Some? && !GivesUp(s, cx.now) && Probes(cx, s)
    ensures var out := Dispatch(cx, s, emitOk).out;
      && out.Some? && IsProbe(out.value, NextNumber(cx, s)) && out.value.ack == Some(NextExpected(s))
      && (Diff(out.value.seqNo, s.localSeq) < 0 <==> !NoTimer(s))
  {
    hide SynOk, ShapeOk, BeforeSend, AfterSend, SeqToTransmit, Draft, AckToTransmit, WindowToUpdate, Asm.Valid;
    hide Asm.Extent, Diff, Pred, Add, Rewinds;
    BeforeSendKeepsInv(cx, s);
    BeforeSendFrame(cx, s);
    var s1 := BeforeSend(cx, s);
    SameDue(s, s1);
    DraftIsPlain(cx, s1);
    Acknowledges(cx, s1);
    AfterPred(s1.remoteLastSeq);
    if Rewinds(cx, s) {
      RewindsTimer(cx, s);
    }
    BeforeNumber(s1.remoteLastSeq, s.localSeq, s.tx.length + 1);
  }

  lemma BeforeNumber(next: SeqNumber, local: SeqNumber, most: nat)
    requires 0 <= Diff(next, local) <= most <= I32_MAX
    ensures Diff(Pred(next), local) < 0 <==> next == local
  {
  }

  /** A peer that has that octet takes nothing from the probe, and answers it with what it expects next. */
  lemma ProbeIsAnswered(cx: Context, s: Tcb, p: Segment, next: SeqNumber, isn: SeqNumber)
    requires Inv(s) && Synchronised(s.state) && Accepts(s, p) && WireOk(p) && IsProbe(p, next)
    requires 0 <= Diff(NextExpected(s), next) < 0x4000_0000
    ensures var o := Process(cx, s, p, isn);
      && o.s.rx == s.rx && o.s.assembler == s.assembler && o.s.tx == s.tx && o.s.remoteSeq == s.remoteSeq
      && o.s.state == s.state
      && (CheckAck(s, p).AckAccept? && s.challengeAckAt <= cx.now ==>
            o.reply.Some? && o.reply.value.ack == Some(NextExpected(s)))
  {
    hide CheckAck, SynOk, ShapeOk, ProcessAccepted, SegmentInWindow, Overlap, RstReply, Asm.Valid, Asm.Extent;
    AcceptanceIsRfc(s, p);
    BeforeWindow(p.seqNo, next, NextExpected(s));
    hide Diff, Add, ScaledWindow;
  }

  lemma BeforeWindow(a: SeqNumber, next: SeqNumber, expected: SeqNumber)
    requires Add(a, 1) == next && 0 <= Diff(expected, next) < 0x4000_0000
    ensures Diff(a, expected) < 0
  {
  }

  /** A peer that lacks it and nothing before it takes the zero for data. */
  lemma ProbeTakenForData(cx: Context, s: Tcb, p: Segment, next: SeqNumber, isn: SeqNumber)
    requires Inv(s) && RxOpen(s.state) && Accepts(s, p) && WireOk(p) && IsProbe(p, next) && CheckAck(s, p).AckAccept?
    requires NextExpected(s) == p.seqNo && s.rx.Window() > 0
    ensures var r := Process(cx, s, p, isn).s; Inv(r) && s.rx.Data() + [0] <= r.rx.Data()
  {
    InOrderIsTaken(cx, s, p, isn);
  }
}
