/** `poll_at` predicts `dispatch`, and polling a socket whenever it asks for it comes to rest. */
module TcpPoll {
  import opened Common
  import opened SeqNumbers
  import opened RttEstimation
  import opened Tcp
  import opened TcpDispatch

  /** `dispatch` sends something or changes something. */
  predicate Acts(cx: Context, s: Tcb, emitOk: bool)
    requires Inv(s) && CxOk(cx, s)
  {
    var d := Dispatch(cx, s, emitOk);
    d.out.Some? || d.s != s
  }

  /** A socket that is not due is left alone. */
  lemma NotDueDoesNothing(cx: Context, s: Tcb, emitOk: bool)
    requires Inv(s) && CxOk(cx, s) && !Due(PollAtOf(cx, s), cx.now)
    ensures Dispatch(cx, s, emitOk) == Dispatched(s, None)
  {
    if s.tuple.Some? {
      assert BeforeSend(cx, s) == s;
    }
  }

  /** The first dispatch of a quiet socket starts its clock. */
  lemma TimestampTaken(cx: Context, s: Tcb, emitOk: bool)
    requires Inv(s) && CxOk(cx, s) && s.tuple.Some? && s.remoteLastTs.None?
    ensures Acts(cx, s, emitOk)
  {
  }

  lemma DueActs(cx: Context, s: Tcb, emitOk: bool)
    requires Inv(s) && CxOk(cx, s) && Due(PollAtOf(cx, s), cx.now)
    ensures Acts(cx, s, emitOk)
  {
    BeforeSendKeepsInv(cx, s);
    var s1 := BeforeSend(cx, s);
    if s.remoteLastTs.None? {
      TimestampTaken(cx, s, emitOk);
    } else if TimedOut(s, cx.now) || s.state.Closed? {
      assert WhatToDo(cx, s1).SendSegment?;
    } else if !SeqToTransmit(cx, s) && ShouldRetransmit(s.timer, cx.now) {
      assert s1.timer.Idle?;
    } else {
      assert s1 == s;
    }
  }

  /**
   At every time, in every reachable state: `poll_at` is due exactly when `dispatch` would send a
   segment or change the socket, whether or not the device takes the segment.
   */
  lemma PollAtIsExact(cx: Context, s: Tcb, emitOk: bool)
    requires Inv(s) && CxOk(cx, s)
    ensures Due(PollAtOf(cx, s), cx.now) <==> Acts(cx, s, emitOk)
  {
    if Due(PollAtOf(cx, s), cx.now) {
      DueActs(cx, s, emitOk);
    } else {
      NotDueDoesNothing(cx, s, emitOk);
    }
  }

  // ---- every dispatch keeps the invariant ----

  lemma {:induction false} ShrAtMost(w: nat, k: nat)
    ensures Shr(w, k) <= w
    decreases k
  {
    if k > 0 {
      ShrAtMost(w / 2, k - 1);
    }
  }

  /** Once a segment has gone out, nothing is left to acknowledge and no window to announce. */
  lemma AdvancedIsAcked(cx: Context, s: Tcb)
    requires Inv(s) && s.tuple.Some? && CxOk(cx, s) && WhatToDo(cx, s).SendSegment?
    ensures var r := Advanced(cx, s); !AckToTransmit(r) && !WindowToUpdate(r)
  {
    ShrAtMost(s.rx.Window(), s.remoteWinShift);
  }

  /** With a SYN just sent, the retransmit timer runs. */
  lemma TimerAfterSyn(cx: Context, s: Tcb)
    requires Inv(s) && s.tuple.Some? && CxOk(cx, s) && WhatToDo(cx, s).SendSegment?
    requires SentSyn(s.state)
    ensures TimerAfter(cx, s).Retransmit?
  {
    SynSentFirst(cx, s);
  }

  lemma TimerAfterShape(cx: Context, s: Tcb)
    requires Inv(s) && s.tuple.Some? && CxOk(cx, s) && WhatToDo(cx, s).SendSegment?
    ensures var t := TimerAfter(cx, s);
      && (t.Close? ==> s.timer.Close?)
      && (t.Retransmit? ==> t.delay > 0)
      && (KeepAliveOk(s) && TimerDue(t, cx.now) ==> TimerDue(s.timer, cx.now) && !s.timer.Idle?)
  {
  }

  lemma AfterSendKeepsInv(cx: Context, s: Tcb)
    requires Inv(s) && s.tuple.Some? && CxOk(cx, s) && WhatToDo(cx, s).SendSegment?
    ensures Inv(AfterSend(cx, s))
  {
    if !IsKeepAlive(cx, s) {
      AdvancedIsAcked(cx, s);
      TimerAfterShape(cx, s);
      if SentSyn(s.state) {
        TimerAfterSyn(cx, s);
      }
    }
  }

  lemma ResetKeepsInv(s: Tcb)
    requires Inv(s)
    ensures Inv(Reset(s))
  {
  }

  lemma DispatchKeepsInv(cx: Context, s: Tcb, emitOk: bool)
    requires Inv(s) && CxOk(cx, s)
    ensures Inv(Dispatch(cx, s, emitOk).s)
  {
    if s.tuple.Some? {
      BeforeSendKeepsInv(cx, s);
      var s1 := BeforeSend(cx, s);
      match WhatToDo(cx, s1)
      case DoNothing =>
      case ResetSocket => ResetKeepsInv(s1);
      case SendSegment => AfterSendKeepsInv(cx, s1);
    }
  }

  // ---- no polling loop ----

  predicate TimerDue(t: Timer, now: int) {
    ShouldKeepAlive(t, now) || ShouldRetransmit(t, now) || ShouldClose(t, now)
  }

  /** What is still unsent, counting the FIN or SYN that may go with it. */
  function Remaining(s: Tcb): nat
    requires Wf(s)
  {
    s.tx.length + 1 - Diff(s.remoteLastSeq, s.localSeq)
  }

  predicate WantsAck(s: Tcb)
    requires Wf(s)
  {
    AckToTransmit(s) || WindowToUpdate(s)
  }

  function Weight(b: bool, w: nat): nat {
    if b then w else 0
  }

  /** A bound on the dispatches at one moment; a due timer may rewind all that has been sent. */
  function Rank(s: Tcb, now: int): nat
    requires Wf(s)
  {
    if s.tuple.None? then 0
    else 1 + Weight(s.remoteLastTs.None?, 1) + Weight(TimerDue(s.timer, now), s.tx.length + 2)
           + Remaining(s) + Weight(WantsAck(s), 1)
  }

  /** The interval is not zero, so a keep-alive timer just wound is not due. */
  predicate KeepAliveOk(s: Tcb) {
    s.keepAlive != Some(0)
  }

  /** Sending takes exactly the segment off what remains, and settles every want unless it is a probe. */
  lemma SendProgress(cx: Context, s: Tcb)
    requires Inv(s) && s.tuple.Some? && CxOk(cx, s) && WhatToDo(cx, s).SendSegment?
    ensures var r := AfterSend(cx, s);
      && Wf(r) && r.tx == s.tx && r.remoteLastTs == s.remoteLastTs
      && Remaining(r) == Remaining(s) - (if IsKeepAlive(cx, s) then 0 else SegmentLen(Draft(cx, s)))
      && (WantsAck(r) <==> IsKeepAlive(cx, s) && WantsAck(s))
  {
    if !IsKeepAlive(cx, s) {
      AdvancedIsAcked(cx, s);
    }
  }

  /** Sending never makes a timer due; a keep-alive timer that was due no longer is. */
  lemma SendTimers(cx: Context, s: Tcb)
    requires Inv(s) && s.tuple.Some? && CxOk(cx, s) && KeepAliveOk(s) && WhatToDo(cx, s).SendSegment?
    ensures var r := AfterSend(cx, s);
      && (TimerDue(r.timer, cx.now) ==> TimerDue(s.timer, cx.now))
      && (ShouldKeepAlive(s.timer, cx.now) ==> !TimerDue(r.timer, cx.now))
  {
    hide SynOk, ShapeOk, Wf, WhatToDo, IsKeepAlive, Draft, Advanced, TimerAfter;
    if !IsKeepAlive(cx, s) {
      TimerAfterShape(cx, s);
    }
  }

  /** With something to transmit, the segment occupies sequence space. */
  lemma TransmitsSomething(cx: Context, s: Tcb)
    requires Inv(s) && s.tuple.Some? && CxOk(cx, s) && SeqToTransmit(cx, s) && !s.state.Closed?
    ensures SegmentLen(Draft(cx, s)) > 0 && !IsKeepAlive(cx, s)
  {
    if s.state.Established? || s.state.CloseWait? || SentFin(s.state) {
      DataSegmentFits(cx, s);
      if MaxSend(s) > 0 {
        RoomToSend(cx, s);
      }
    }
  }

  lemma RoomToSend(cx: Context, s: Tcb)
    requires Inv(s) && s.tuple.Some? && CxOk(cx, s) && MaxSend(s) > 0
    ensures SegmentRoom(cx, s) > 0 && Diff(s.remoteLastSeq, s.localSeq) < s.tx.length
  {
  }

  lemma SendRanks(cx: Context, s: Tcb)
    requires Inv(s) && s.tuple.Some? && CxOk(cx, s) && KeepAliveOk(s) && WhatToDo(cx, s).SendSegment?
    ensures var r := AfterSend(cx, s); Wf(r) && Rank(r, cx.now) < Rank(s, cx.now)
  {
    SendProgress(cx, s);
    SendTimers(cx, s);
    if SeqToTransmit(cx, s) && !s.state.Closed? {
      TransmitsSomething(cx, s);
    }
  }

  /** Rewinding costs a due timer, which weighs more than all that has been sent. */
  lemma RewindRanks(cx: Context, s: Tcb)
    requires Wf(s) && s.tuple.Some? && KeepAliveOk(s) && ShouldRetransmit(s.timer, cx.now)
    ensures var s1 := Rewind(s, cx.now); Wf(s1) && Rank(s1, cx.now) < Rank(s, cx.now)
  {
  }

  /** What precedes the decision only ever lowers the rank, and lowers it if it changes anything. */
  lemma BeforeSendRanks(cx: Context, s: Tcb)
    requires Inv(s) && s.tuple.Some? && CxOk(cx, s) && KeepAliveOk(s)
    ensures var s1 := BeforeSend(cx, s);
      s1 == s || s1.state.Closed? || Rank(s1, cx.now) < Rank(s, cx.now)
  {
    hide SeqToTransmit, SynOk, ShapeOk, OnRetransmit;
    var started := StartClock(s, cx.now);
    if !TimedOut(started, cx.now) && !SeqToTransmit(cx, started) && ShouldRetransmit(s.timer, cx.now) {
      RewindRanks(cx, started);
    }
  }

  /** A due socket loses rank with every dispatch the device takes. */
  lemma DispatchRanks(cx: Context, s: Tcb)
    requires Inv(s) && CxOk(cx, s) && KeepAliveOk(s) && Due(PollAtOf(cx, s), cx.now)
    ensures var r := Dispatch(cx, s, true).s; Inv(r) && Rank(r, cx.now) < Rank(s, cx.now)
  {
    assert s.tuple.Some?;
    DueActs(cx, s, true);
    DispatchKeepsInv(cx, s, true);
    hide SynOk, ShapeOk, Wf, Remaining, WantsAck, PollAtOf, WhatToDo, AfterSend, BeforeSend, Outgoing;
    BeforeSendKeepsInv(cx, s);
    BeforeSendRanks(cx, s);
    var s1 := BeforeSend(cx, s);
    if WhatToDo(cx, s1).SendSegment? {
      SendRanks(cx, s1);
      ClosedSendsOnce(cx, s1);
    }
  }

  lemma ClosedSendsOnce(cx: Context, s: Tcb)
    requires Inv(s) && s.tuple.Some? && CxOk(cx, s) && WhatToDo(cx, s).SendSegment?
    ensures s.state.Closed? ==> AfterSend(cx, s).tuple.None?
  {
  }

  /** `n` dispatches at one moment, all taken by the device. */
  function Poll(cx: Context, s: Tcb, n: nat): (r: Tcb)
    requires Inv(s) && CxOk(cx, s)
    ensures Inv(r) && CxOk(cx, r)
    decreases n
  {
    if n == 0 then s
    else
      DispatchKeepsInv(cx, s, true);
      Poll(cx, Dispatch(cx, s, true).s, n - 1)
  }

  /**
   No polling loop: at a fixed moment a socket is at rest after at most `Rank` dispatches, and stays so.
   */
  lemma {:induction false} PollingComesToRest(cx: Context, s: Tcb, n: nat)
    requires Inv(s) && CxOk(cx, s) && KeepAliveOk(s) && n >= Rank(s, cx.now)
    ensures !Due(PollAtOf(cx, Poll(cx, s, n)), cx.now)
    decreases n
  {
    hide Dispatch, PollAtOf, Rank;
    if !Due(PollAtOf(cx, s), cx.now) {
      NotDueStays(cx, s, n);
    } else {
      DispatchRanks(cx, s);
      var next := Dispatch(cx, s, true).s;
      PollingComesToRest(cx, next, n - 1);
      assert Poll(cx, s, n) == Poll(cx, next, n - 1);
    }
  }

  lemma {:induction false} NotDueStays(cx: Context, s: Tcb, n: nat)
    requires Inv(s) && CxOk(cx, s) && !Due(PollAtOf(cx, s), cx.now)
    ensures Poll(cx, s, n) == s
    decreases n
  {
    if n > 0 {
      NotDueDoesNothing(cx, s, true);
      NotDueStays(cx, s, n - 1);
    }
  }

  /** The bound in plain numbers: two passes over the transmit buffer and a handful of acknowledgements. */
  lemma RankBound(s: Tcb, now: int)
    requires Wf(s)
    ensures Rank(s, now) <= 2 * s.tx.length + 6
  {
  }
}
