/**
 The clocks of a socket, over every run against arbitrary segments, times and calls: when it sends again, when it gives
 up, and how long TIME-WAIT lasts.
 */
module TcpClock {
  import opened Common
  import opened SeqNumbers
  import opened RingBuffer
  import opened RttEstimation
  import opened Tcp
  import opened TcpProcess
  import opened TcpDispatch
  import opened TcpPoll
  import opened TcpInvariant
  import opened TcpPeer
  import opened TcpTimer
  import opened TcpNagle
  import opened TcpEffect
  import Asm = AssemblerList

  /** The retransmission timeout in microseconds: at least 10 ms, at most 10 s. */
  function Rto(r: Rtt): nat {
    1000 * MinOf(MaxOf(r.rtt + MaxOf(5, 4 * r.deviation), 10), 10000)
  }

  /** What is in flight is to be sent again `length` after `at`; a timer left to expire then waits for `next`. */
  datatype Wait = Wait(at: int, length: nat, next: nat)

  /**
   The wait for an acknowledgement, whether a third duplicate was taken since the last retransmission, when the peer
   was last heard or we first spoke to it, and since when TIME-WAIT counts.
   */
  datatype Clock = Clock(wait: Wait, fast: bool, heard: Option<int>, since: int)

  const START: Clock := Clock(Wait(0, 0, 0), false, None, 0)

  // ---- how the clocks go ----

  function ArriveClock(s: Tcb, cx: Context, seg: Segment, c: Clock): Clock
    requires Inv(s)
  {
    if !Accepts(s, seg) || !WireOk(seg) then c
    else if !Synchronised(s.state) then (if Opens(s, seg) then c.(heard := Some(cx.now)) else c)
    else
      c.(fast := c.fast || (Heeded(s, seg) && ThirdDuplicate(s, seg)),
         heard := if Heeded(s, seg) then Some(cx.now) else c.heard,
         since := if Heeded(s, seg) || OutOfWindow(s, seg) then cx.now else c.since)
  }

  /** All that can be sent has been: the wait begins, or begins anew if it was over. */
  function WaitAfter(s: Tcb, cx: Context, emitOk: bool, w: Wait): Wait
    requires Inv(s) && CxOk(cx, s) && s.tuple.Some?
  {
    if !SendsSome(cx, s, emitOk) || MoreToSend(cx, s, emitOk) then w
    else if !s.timer.Retransmit? || Rewinds(cx, s) then
      var rto := Rto(Dispatch(cx, s, emitOk).s.rtte);
      Wait(cx.now, rto, rto)
    else if cx.now < w.at + w.length then w
    else Wait(cx.now, w.next, 2 * w.next)
  }

  /** TIME-WAIT is over: the socket is reset without a word. */
  predicate Forgets(s: Tcb, d: Dispatched) {
    s.state.TimeWait? && d.s.state.Closed? && d.out.None?
  }

  function EgressClock(s: Tcb, cx: Context, emitOk: bool, c: Clock): Clock
    requires Inv(s)
  {
    if !CxOk(cx, s) || s.tuple.None? then c
    else
      c.(wait := WaitAfter(s, cx, emitOk, c.wait),
         fast := c.fast && !Rewinds(cx, s),
         heard := if Forgets(s, Dispatch(cx, s, emitOk)) then None
                  else if c.heard.None? then Some(cx.now) else c.heard)
  }

  function ClockAfter(s: Tcb, op: Op, c: Clock): Clock
    requires Inv(s)
  {
    match op
    case Arrive(cx, seg, _) => ArriveClock(s, cx, seg, c)
    case Egress(cx, emitOk) => EgressClock(s, cx, emitOk, c)
    case Send(data) =>
      if MaySend(s) && s.tx.length == 0 && s.tx.Capacity() > 0 && data != [] then c.(heard := None) else c
    case StartListen(at) => if !IsOpen(s.state) && at.port != 0 then c.(heard := None) else c
    case StartConnect(local, remote, isn) =>
      if Connect(s, local, remote, isn).1.OpenOk? then c.(heard := None) else c
    case _ => c
  }

  /** The timers of the socket are these clocks. */
  predicate Keeps(s: Tcb, c: Clock) {
    && (s.timer.Retransmit? ==>
          && s.timer.expiresAt == c.wait.at + c.wait.length && s.timer.delay == c.wait.next
          && c.wait.length >= 10_000 && c.wait.next >= 10_000)
    && (s.timer.FastRetransmit? ==> c.fast)
    && s.remoteLastTs == c.heard
    && (s.state.TimeWait? ==> s.timer == Timer.Close(c.since + 10_000_000))
  }

  // ---- segments ----

  lemma ArriveKeeps(cx: Context, s: Tcb, seg: Segment, isn: SeqNumber, c: Clock)
    requires Inv(s) && Keeps(s, c) && Accepts(s, seg) && WireOk(seg)
    ensures Keeps(Process(cx, s, seg, isn).s, ArriveClock(s, cx, seg, c))
  {
    hide SynOk, ShapeOk, Wf, Process, Heeded, OutOfWindow, ThirdDuplicate, Accepts, WireOk, Opens, Tells;
    InvIsWf(s);
    if Synchronised(s.state) {
      ArriveEffect(cx, s, seg, isn);
      HeededEnds(s, seg);
    } else {
      AcceptsWaiting(s, seg);
      ArriveOpens(cx, s, seg, isn);
      OpeningState(cx, s, seg, isn);
    }
  }

  lemma AcceptsWaiting(s: Tcb, seg: Segment)
    requires Accepts(s, seg) && !Synchronised(s.state)
    ensures s.state.Listen? || s.state.SynSent?
  {
  }

  lemma OpeningState(cx: Context, s: Tcb, seg: Segment, isn: SeqNumber)
    requires Inv(s) && (s.state.Listen? || s.state.SynSent?) && Accepts(s, seg) && WireOk(seg)
    ensures !Process(cx, s, seg, isn).s.state.TimeWait?
  {
    hide Process, Inv;
    OpeningPeer(cx, s, seg, isn);
  }

  lemma HeededEnds(s: Tcb, seg: Segment)
    requires Inv(s) && WireOk(seg)
    ensures s.state.TimeWait? ==> !Heeded(s, seg)
  {
    hide Inv, EffectiveControl, TcpTimer.Taken;
  }

  // ---- dispatch ----

  /** The timer a segment leaves behind. */
  lemma SentTimer(cx: Context, s: Tcb)
    requires Inv(s) && s.tuple.Some? && CxOk(cx, s) && WhatToDo(cx, s).SendSegment?
    ensures var r, t := AfterSend(cx, s), RewindKeepAlive(s.timer, cx.now, s.keepAlive);
      r.timer ==
        if !IsKeepAlive(cx, s) && SegmentLen(Draft(cx, s)) > 0 && !SeqToTransmit(cx, Advanced(cx, s)) then
          if t.Idle? || t.FastRetransmit? then Retransmit(cx.now + Rto(r.rtte), Rto(r.rtte))
          else if t.Retransmit? && cx.now >= t.expiresAt then Retransmit(cx.now + t.delay, 2 * t.delay)
          else t
        else t
  {
    hide SynOk, ShapeOk, Wf, SeqToTransmit, WhatToDo, OnSend, Draft, IsKeepAlive;
  }

  /** The timer before the send. */
  function Before(cx: Context, s: Tcb): Timer
    requires Wf(s) && s.tuple.Some? && CxOk(cx, s)
  {
    if Rewinds(cx, s) then IdleFor(cx.now, s.keepAlive) else s.timer
  }

  /** The timer after `dispatch`, whatever it does. */
  lemma DispatchTimer(cx: Context, s: Tcb, emitOk: bool)
    requires Inv(s) && CxOk(cx, s) && s.tuple.Some?
    ensures var d, t := Dispatch(cx, s, emitOk), Before(cx, s);
      if SendsSome(cx, s, emitOk) && !MoreToSend(cx, s, emitOk) then
        d.s.timer ==
          if t.Idle? || t.FastRetransmit? then Retransmit(cx.now + Rto(d.s.rtte), Rto(d.s.rtte))
          else if t.Retransmit? && cx.now >= t.expiresAt then Retransmit(cx.now + t.delay, 2 * t.delay)
          else t
      else if emitOk && d.out.Some? then d.s.timer == RewindKeepAlive(t, cx.now, s.keepAlive)
      else d.s.timer == t || (d.out.None? && d.s == Reset(d.s))
  {
    hide SynOk, ShapeOk, Wf, BeforeSend, WhatToDo, AfterSend, SeqToTransmit, IsKeepAlive, Draft, Advanced, Outgoing;
    hide Rewinds, InitialShift;
    InvIsWf(s);
    BeforeSendKeepsInv(cx, s);
    BeforeSendFrame(cx, s);
    var s1 := BeforeSend(cx, s);
    match WhatToDo(cx, s1) {
      case DoNothing =>
      case ResetSocket => ResetTwice(s1);
      case SendSegment => SentTimer(cx, s1);
    }
  }

  lemma ResetTwice(s: Tcb)
    requires s.rx.Valid() && s.tx.Valid()
    ensures Reset(Reset(s)) == Reset(s)
  {
    hide InitialShift;
  }

  lemma DispatchHeard(cx: Context, s: Tcb, emitOk: bool)
    requires Inv(s) && CxOk(cx, s) && s.tuple.Some?
    ensures var d := Dispatch(cx, s, emitOk);
      && d.s.remoteLastTs == (if Forgets(s, d) then None
                              else if s.remoteLastTs.None? then Some(cx.now) else s.remoteLastTs)
      && (d.s.state.TimeWait? ==> s.state.TimeWait?)
  {
    hide SynOk, ShapeOk, Wf, BeforeSend, AfterSend, SeqToTransmit, IsKeepAlive, Draft, Outgoing, InitialShift, WhatToDo;
    BeforeSendKeepsInv(cx, s);
    BeforeSendFrame(cx, s);
    var s1 := BeforeSend(cx, s);
    match WhatToDo(cx, s1) {
      case SendSegment => AfterSendFrame(cx, s1);
      case ResetSocket => OnlyWaitingResets(cx, s1);
      case DoNothing => ClosedSpeaks(cx, s1);
    }
  }

  lemma ClosedSpeaks(cx: Context, s: Tcb)
    requires Wf(s) && s.tuple.Some? && CxOk(cx, s)
    ensures s.state.Closed? ==> WhatToDo(cx, s).SendSegment?
  {
  }

  lemma OnlyWaitingResets(cx: Context, s: Tcb)
    requires Inv(s) && s.tuple.Some? && CxOk(cx, s) && WhatToDo(cx, s).ResetSocket?
    ensures s.state.TimeWait?
  {
    hide SynOk, Wf, SeqToTransmit, AckToTransmit, WindowToUpdate;
  }

  lemma EgressKeeps(cx: Context, s: Tcb, emitOk: bool, c: Clock)
    requires Inv(s) && Keeps(s, c) && CxOk(cx, s) && s.tuple.Some?
    ensures Keeps(Dispatch(cx, s, emitOk).s, EgressClock(s, cx, emitOk, c))
  {
    hide SynOk, ShapeOk, Wf, Dispatch, SendsSome, MoreToSend, Rewinds, InitialShift;
    InvIsWf(s);
    DispatchHeard(cx, s, emitOk);
    DispatchTimer(cx, s, emitOk);
    if Rewinds(cx, s) {
      RewindsTimer(cx, s);
    }
  }

  lemma RewindsTimer(cx: Context, s: Tcb)
    requires Wf(s) && s.tuple.Some? && CxOk(cx, s) && Rewinds(cx, s)
    ensures IsRetransmit(s.timer) && (s.timer.Retransmit? ==> s.timer.expiresAt <= cx.now)
  {
    hide Wf, SeqToTransmit;
  }

  lemma CallKeeps(s: Tcb, op: Op, c: Clock)
    requires Inv(s) && Keeps(s, c) && !op.Arrive? && !op.Egress?
    ensures Keeps(Apply(s, op), ClockAfter(s, op, c))
  {
    hide SynOk, ShapeOk, InitialShift, EnqueueSlice, Dequeue, Asm.Valid, Asm.Extent;
    if op.Send? && s.tx.length == 0 {
      TakesSome(s.tx, op.data);
    }
  }

  /** An empty ring takes something of anything, unless it has no room at all. */
  lemma TakesSome(r: Ring, data: seq<Byte>)
    requires r.Valid() && r.length == 0
    ensures EnqueueSlice(r, data).1 > 0 <==> r.Capacity() > 0 && data != []
  {
  }

  // ---- every run ----

  lemma StepKeeps(s: Tcb, op: Op, c: Clock)
    requires Inv(s) && Keeps(s, c)
    ensures Keeps(Apply(s, op), ClockAfter(s, op, c))
  {
    hide Inv, Keeps, Process, Dispatch, ArriveClock, SendSlice, RecvSlice, Connect, ListenOn, CloseCall, SetKeepAlive;
    hide Reset;
    InvIsWf(s);
    match op
    case Arrive(cx, seg, isn) =>
      if Accepts(s, seg) && WireOk(seg) {
        ArriveKeeps(cx, s, seg, isn, c);
      } else {
        NotForUs(s, cx, seg, c);
      }
    case Egress(cx, emitOk) =>
      if CxOk(cx, s) {
        if s.tuple.Some? {
          EgressKeeps(cx, s, emitOk, c);
        } else {
          NoTuple(cx, s, emitOk);
        }
      }
    case _ => CallKeeps(s, op, c);
  }

  lemma NotForUs(s: Tcb, cx: Context, seg: Segment, c: Clock)
    requires Inv(s) && !(Accepts(s, seg) && WireOk(seg))
    ensures ArriveClock(s, cx, seg, c) == c
  {
    hide Inv;
  }

  function ClockIn(s: Tcb, ops: seq<Op>, c: Clock): Clock
    requires Inv(s)
    decreases |ops|
  {
    if ops == [] then c
    else
      ApplyKeepsInv(s, ops[0]);
      ClockIn(Apply(s, ops[0]), ops[1..], ClockAfter(s, ops[0], c))
  }

  lemma {:induction false} RunKeeps(s: Tcb, ops: seq<Op>, c: Clock)
    requires Inv(s) && Keeps(s, c)
    ensures Keeps(TcpInvariant.Run(s, ops), ClockIn(s, ops, c)) && Inv(TcpInvariant.Run(s, ops))
    decreases |ops|
  {
    hide Inv, Apply, ClockAfter, Keeps;
    if ops != [] {
      ApplyKeepsInv(s, ops[0]);
      StepKeeps(s, ops[0], c);
      RunKeeps(Apply(s, ops[0]), ops[1..], ClockAfter(s, ops[0], c));
    }
  }

  lemma NewKeeps(rx: Ring, tx: Ring, ops: seq<Op>)
    requires FreshRings(rx, tx)
    ensures Inv(NewSocket(rx, tx))
    ensures Keeps(TcpInvariant.Run(NewSocket(rx, tx), ops), ClockIn(NewSocket(rx, tx), ops, START))
    ensures Inv(TcpInvariant.Run(NewSocket(rx, tx), ops))
  {
    hide Inv, TcpInvariant.Run, ClockIn;
    NewSocketInv(rx, tx);
    RunKeeps(NewSocket(rx, tx), ops, START);
  }

  // ---- sending again ----

  /**
   Over every run, whatever arrives: what is in flight is sent again exactly if there is nothing new to send, the user
   timeout has not passed, and the wait that began with the last send is over, which is never less than 10 ms, or a
   third duplicate acknowledgement has come since the last time.
   */
  lemma RetransmitsOnTime(rx: Ring, tx: Ring, ops: seq<Op>, cx: Context)
    requires FreshRings(rx, tx)
    ensures Inv(NewSocket(rx, tx))
    ensures var s, c := TcpInvariant.Run(NewSocket(rx, tx), ops), ClockIn(NewSocket(rx, tx), ops, START);
      && Inv(s)
      && (s.tuple.Some? && CxOk(cx, s) ==>
            && (Rewinds(cx, s) <==>
                  && !GivesUp(s, cx.now) && !SeqToTransmit(cx, s)
                  && (s.timer.FastRetransmit? || (s.timer.Retransmit? && cx.now >= c.wait.at + c.wait.length)))
            && (Rewinds(cx, s) && !c.fast ==> cx.now >= c.wait.at + c.wait.length && c.wait.length >= 10_000))
  {
    hide Inv, TcpInvariant.Run, ClockIn;
    NewKeeps(rx, tx, ops);
    var s := TcpInvariant.Run(NewSocket(rx, tx), ops);
    if s.tuple.Some? && CxOk(cx, s) {
      InvIsWf(s);
      SameToTransmit(cx, s);
      hide SeqToTransmit, Wf;
    }
  }

  lemma SameToTransmit(cx: Context, s: Tcb)
    requires Wf(s) && s.tuple.Some? && CxOk(cx, s)
    ensures SeqToTransmit(cx, StartClock(s, cx.now)) == SeqToTransmit(cx, s)
  {
  }

  // ---- giving up ----

  lemma SaysReset(cx: Context, s: Tcb)
    requires Inv(s) && s.tuple.Some? && CxOk(cx, s)
    ensures Outgoing(cx, s).control.Rst? <==> s.state.Closed?
  {
    hide SynOk, ShapeOk, Asm.Valid, Asm.Extent, GetAllocated, SegmentRoom, ScaledWindow, LocalMss;
  }

  lemma ResetIsSaid(cx: Context, s: Tcb, emitOk: bool)
    requires Inv(s) && CxOk(cx, s) && s.tuple.Some? && !s.state.Closed?
    ensures var d := Dispatch(cx, s, emitOk);
      && (d.out.Some? && d.out.value.control.Rst? <==> GivesUp(s, cx.now))
      && (GivesUp(s, cx.now) ==> d.s.state.Closed? && (emitOk ==> d.s.tuple.None?))
  {
    hide SynOk, ShapeOk, Wf, BeforeSend, AfterSend, SeqToTransmit, Outgoing, InitialShift, WhatToDo, IsKeepAlive, Draft;
    hide Rewinds;
    BeforeSendKeepsInv(cx, s);
    BeforeSendFrame(cx, s);
    var s1 := BeforeSend(cx, s);
    ClosedSpeaks(cx, s1);
    SaysReset(cx, s1);
    if WhatToDo(cx, s1).SendSegment? {
      AfterSendFrame(cx, s1);
      ClosedSendsOnce(cx, s1);
    }
  }

  /**
   Over every run: a connection is given up, with a reset, exactly if a timeout is set and nothing was heard of the
   peer for that long, counted from the first time we spoke to it if it has not been heard since.
   */
  lemma GivesUpExactly(rx: Ring, tx: Ring, ops: seq<Op>, cx: Context, emitOk: bool)
    requires FreshRings(rx, tx)
    ensures Inv(NewSocket(rx, tx))
    ensures var s, c := TcpInvariant.Run(NewSocket(rx, tx), ops), ClockIn(NewSocket(rx, tx), ops, START);
      && Inv(s)
      && (s.tuple.Some? && CxOk(cx, s) && !s.state.Closed? ==>
            var d := Dispatch(cx, s, emitOk);
            && (d.out.Some? && d.out.value.control.Rst? <==>
                  s.timeout.Some? && cx.now >= (if c.heard.Some? then c.heard.value else cx.now) + s.timeout.value)
            && (d.out.Some? && d.out.value.control.Rst? ==> d.s.state.Closed? && (emitOk ==> d.s.tuple.None?)))
  {
    hide Inv, TcpInvariant.Run, ClockIn, Dispatch;
    NewKeeps(rx, tx, ops);
    var s := TcpInvariant.Run(NewSocket(rx, tx), ops);
    if s.tuple.Some? && CxOk(cx, s) && !s.state.Closed? {
      ResetIsSaid(cx, s, emitOk);
    }
  }

  // ---- TIME-WAIT ----

  /** With the wait over, a dispatch ends it, or sends the last acknowledgement first. */
  lemma WaitEnds(cx: Context, s: Tcb)
    requires Inv(s) && CxOk(cx, s) && s.state.TimeWait? && s.timer.Close? && s.timer.closeAt <= cx.now
    ensures var d := Dispatch(cx, s, true);
      || (d.s.state.Closed? && d.s.tuple.None?)
      || (Inv(d.s) && CxOk(cx, d.s) && d.s.state.TimeWait? && d.s.timer == s.timer && d.s.remoteLastTs.Some?
          && !TimedOut(d.s, cx.now) && !AckToTransmit(d.s))
  {
    hide SynOk, ShapeOk, Wf, BeforeSend, AfterSend, SeqToTransmit, Outgoing, InitialShift, IsKeepAlive, Draft, WhatToDo;
    hide Rewinds, AckToTransmit;
    DispatchKeepsInv(cx, s, true);
    WaitingTuple(s);
    DispatchTimer(cx, s, true);
    BeforeSendKeepsInv(cx, s);
    BeforeSendFrame(cx, s);
    var s1 := BeforeSend(cx, s);
    ClosedSpeaks(cx, s1);
    if Rewinds(cx, s) {
      RewindsTimer(cx, s);
    } else if !s1.state.Closed? {
      WaitingDoes(cx, s1);
      if WhatToDo(cx, s1).SendSegment? {
        AfterSendFrame(cx, s1);
        NoProbe(cx, s1);
        SendProgress(cx, s1);
      }
    } else {
      AfterSendFrame(cx, s1);
      ClosedSendsOnce(cx, s1);
    }
  }

  lemma WaitingTuple(s: Tcb)
    requires Inv(s) && s.state.TimeWait?
    ensures s.tuple.Some? && Wf(s)
  {
  }

  lemma NoProbe(cx: Context, s: Tcb)
    requires Wf(s) && s.tuple.Some? && CxOk(cx, s) && s.timer.Close?
    ensures !IsKeepAlive(cx, s)
  {
  }

  lemma WaitingDoes(cx: Context, s: Tcb)
    requires Inv(s) && s.tuple.Some? && CxOk(cx, s) && s.state.TimeWait? && s.timer.Close?
    ensures !WhatToDo(cx, s).SendSegment? <==> !(AckToTransmit(s) && DelayedAckExpired(s, cx.now))
    ensures WhatToDo(cx, s).ResetSocket? <==>
      !(AckToTransmit(s) && DelayedAckExpired(s, cx.now)) && s.timer.closeAt <= cx.now
  {
  }

  lemma WaitIsOver(cx: Context, s: Tcb)
    requires Inv(s) && CxOk(cx, s) && s.state.TimeWait? && s.timer.Close? && s.timer.closeAt <= cx.now
    requires s.remoteLastTs.Some? && !TimedOut(s, cx.now) && !AckToTransmit(s)
    ensures var d := Dispatch(cx, s, true); d.s.state.Closed? && d.s.tuple.None?
  {
    hide SynOk, ShapeOk, BeforeSend, AfterSend, SeqToTransmit, Outgoing, InitialShift, IsKeepAlive, Draft, WhatToDo;
    hide AckToTransmit;
    WaitingTuple(s);
    BeforeSendFrame(cx, s);
    BeforeSendKeepsInv(cx, s);
    var s1 := BeforeSend(cx, s);
    assert s1 == s;
    WaitingDoes(cx, s1);
  }

  lemma NotBefore(cx: Context, s: Tcb, emitOk: bool)
    requires Inv(s) && CxOk(cx, s) && s.state.TimeWait? && s.timer.Close? && cx.now < s.timer.closeAt
    requires !GivesUp(s, cx.now)
    ensures Dispatch(cx, s, emitOk).s.state.TimeWait?
  {
    hide SynOk, ShapeOk, Wf, BeforeSend, AfterSend, SeqToTransmit, Outgoing, InitialShift, IsKeepAlive, Draft, WhatToDo;
    hide AckToTransmit;
    WaitingTuple(s);
    BeforeSendFrame(cx, s);
    BeforeSendKeepsInv(cx, s);
    var s1 := BeforeSend(cx, s);
    WaitingDoes(cx, s1);
    if WhatToDo(cx, s1).SendSegment? {
      AfterSendFrame(cx, s1);
    }
  }

  lemma TwoDispatches(cx: Context, s: Tcb)
    requires Inv(s) && CxOk(cx, s)
    ensures var d := Dispatch(cx, s, true).s;
      Inv(d) && CxOk(cx, d) && Poll(cx, s, 2) == Dispatch(cx, d, true).s
  {
    hide Inv, Dispatch;
    DispatchKeepsInv(cx, s, true);
    var d := Dispatch(cx, s, true).s;
    DispatchKeepsInv(cx, d, true);
    assert Poll(cx, d, 1) == Poll(cx, Dispatch(cx, d, true).s, 0);
  }

  /**
   Over every run: TIME-WAIT lasts ten seconds from the segment that led to it, or from the last one out of the window,
   and two dispatches after that are enough to leave it. Before it ends only by giving up.
   */
  lemma TimeWaitLasts(rx: Ring, tx: Ring, ops: seq<Op>, cx: Context, emitOk: bool)
    requires FreshRings(rx, tx)
    ensures Inv(NewSocket(rx, tx))
    ensures var s, c := TcpInvariant.Run(NewSocket(rx, tx), ops), ClockIn(NewSocket(rx, tx), ops, START);
      && Inv(s)
      && (s.state.TimeWait? && CxOk(cx, s) ==>
            if cx.now < c.since + 10_000_000 then GivesUp(s, cx.now) || Dispatch(cx, s, emitOk).s.state.TimeWait?
            else Poll(cx, s, 2).state.Closed? && Poll(cx, s, 2).tuple.None?)
  {
    hide Inv, TcpInvariant.Run, ClockIn, Dispatch, Poll, AckToTransmit, TimedOut;
    NewKeeps(rx, tx, ops);
    var s := TcpInvariant.Run(NewSocket(rx, tx), ops);
    if s.state.TimeWait? && CxOk(cx, s) {
      if s.timer.closeAt <= cx.now {
        WaitEnds(cx, s);
        TwoDispatches(cx, s);
        var d := Dispatch(cx, s, true).s;
        if d.state.Closed? {
          NoTuple(cx, d, true);
        } else {
          WaitIsOver(cx, d);
        }
      } else if !GivesUp(s, cx.now) {
        NotBefore(cx, s, emitOk);
      }
    }
  }
}
