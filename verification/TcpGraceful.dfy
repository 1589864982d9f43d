/**
 What an acknowledgement is worth between two sockets: no acknowledgement in flight runs ahead of the
 receiver, so what a sender drops from its buffer its peer has, and a FIN that counts as acknowledged was
 sent and taken, unless `close` was called in SYN-RECEIVED.
 */
module TcpGraceful {
  import opened Common
  import opened SeqNumbers
  import opened RingBuffer
  import opened Tcp
  import opened TcpProcess
  import opened TcpDispatch
  import opened TcpPoll
  import opened TcpInvariant
  import opened TcpStream
  import opened TcpReceiver
  import opened TcpSide
  import Asm = AssemblerList

  // ---- what one segment does ----

  /** The receive side only grows, and a FIN is only taken from a segment that has it at the window start. */
  predicate Receives(s: Tcb, r: Tcb, seg: Segment)
    requires s.rx.Valid() && s.rx.Capacity() <= MAX_RX_CAPACITY
  {
    && s.rx.length <= r.rx.length && (s.rxFin ==> r.rxFin)
    && (r.rxFin && !s.rxFin ==> seg.control.Fin? && seg.seqNo == NextExpected(s))
  }

  /** `localSeq` only moves to what the segment acknowledges, or to a fresh initial number. */
  predicate MovesTo(s: Tcb, r: Tcb, seg: Segment, isn: SeqNumber) {
    || r.localSeq == s.localSeq
    || (!seg.control.Rst? && seg.ack == Some(r.localSeq))
    || (s.state.Listen? && r.localSeq == isn)
  }

  predicate Effect(s: Tcb, r: Tcb, seg: Segment, isn: SeqNumber)
    requires s.rx.Valid() && s.rx.Capacity() <= MAX_RX_CAPACITY
  {
    && MovesTo(s, r, seg, isn)
    && (Synchronised(s.state) && Synchronised(r.state) ==> Receives(s, r, seg))
    && (r.state.Listen? ==> s.state.Listen? || s.state.SynReceived?)
    && (r.state.SynSent? ==> s.state.SynSent?)
    && (!Synchronised(s.state) ==>
          r.state == s.state || r.state.Closed? || r.state.SynReceived? || (s.state.SynSent? && r.state.Established?))
  }

  lemma StoredGrows(s: Tcb, payload: seq<Byte>, offset: nat)
    requires s.rx.Valid() && Asm.Valid(s.assembler) && Asm.Extent(s.assembler) <= s.rx.Window()
    requires payload != [] && offset + |payload| <= s.rx.Window()
    ensures var r := StorePayload(s, payload, offset); r.Some? ==> s.rx.length <= r.value.rx.length
  {
    Asm.AddThenRemoveFrontMeaning(s.assembler, offset, |payload|);
    hide Asm.AddThenRemoveFront, Asm.Valid, Asm.Extent, Asm.Has;
  }

  /** A segment that passed both tests, in a synchronised connection. */
  lemma SyncEffect(cx: Context, s: Tcb, seg: Segment, payload: seq<Byte>, offset: nat, isn: SeqNumber)
    requires Inv(s) && Synchronised(s.state) && WireOk(seg) && CheckAck(s, seg).AckAccept?
    requires payload != [] ==> offset + |payload| <= s.rx.Window()
    ensures Effect(s, ProcessAccepted(cx, s, seg, payload, offset, isn).s, seg, isn)
  {
    hide CheckAck, AckedBy, SynOk, ShapeOk, StorePayload, ApplyPayload, ApplyAck, TakeRtt, Asm.Valid, Asm.Extent;
    hide Transition, TransitionShape;
    var s0 := TakeRtt(cx, s, seg);
    TakeRttKeepsInv(cx, s, seg);
    AckedByIgnoresRtt(s, s0, seg);
    var ack := AckedBy(s, seg);
    if seg.control.Rst? {
      RstOutcome(cx, s, seg, payload, offset, isn);
    } else {
      SyncTransition(cx, s0, seg, ack, isn);
      AcceptedGoKeepsInv(cx, s, seg, isn);
      AckFacts(s, seg);
      var next := Transition(cx, s0, seg, EffectiveControl(s, seg), ack, isn);
      if next.Go? {
        ShapeStates(s0, next.s, ack);
        MovedEffect(cx, s, next.s, seg, payload, offset, ack.len);
      }
    }
  }

  /** What is left to do once the state machine has moved. */
  lemma MovedEffect(cx: Context, s: Tcb, s1: Tcb, seg: Segment, payload: seq<Byte>, offset: nat, ackLen: nat)
    requires Inv(s) && seg.ack.Some? && s1.tx.Valid() && ackLen <= s1.tx.length
    requires Inv(ApplyAck(cx, s1, seg, ackLen)) && s1.rx == s.rx && (s.rxFin ==> s1.rxFin)
    requires s1.rxFin && !s.rxFin ==> seg.control.Fin? && seg.seqNo == NextExpected(s)
    requires payload != [] ==> offset + |payload| <= s.rx.Window()
    ensures var r := ApplyPayload(cx, ApplyAck(cx, s1, seg, ackLen), seg, payload, offset).s;
      Receives(s, r, seg) && r.localSeq == seg.ack.value && r.state == s1.state
  {
    hide SynOk, ShapeOk, StorePayload, ApplyPayload, ApplyAck, Asm.Valid, Asm.Extent, NextExpected;
    var s2 := ApplyAck(cx, s1, seg, ackLen);
    ApplyAckReceiver(cx, s1, seg, ackLen);
    ApplyPayloadFrame(cx, s2, seg, payload, offset);
    if payload != [] {
      StoredGrows(s2, payload, offset);
    }
  }

  lemma ShapeStates(s: Tcb, s1: Tcb, ack: AckInfo)
    requires TransitionShape(s, s1, ack)
    ensures !s1.state.Listen? && !s1.state.SynSent?
  {
  }

  lemma OpeningEffect(cx: Context, s: Tcb, seg: Segment, isn: SeqNumber)
    requires Inv(s) && (s.state.Listen? || s.state.SynSent?) && CheckAck(s, seg).AckAccept?
    requires s.state.Listen? ==> seg.ack.None?
    ensures Effect(s, ProcessAccepted(cx, s, seg, [], 0, isn).s, seg, isn)
  {
    hide CheckAck, AckedBy, SynOk, Asm.Valid, Asm.Extent, RemoteWindow;
    if seg.control.Rst? {
      RstOutcome(cx, s, seg, [], 0, isn);
    } else if !seg.control.Syn? {
      TakeRttKeepsInv(cx, s, seg);
      UnsynchronisedStops(cx, TakeRtt(cx, s, seg), seg, AckedBy(s, seg), isn);
    }
  }

  lemma ChallengeEffect(cx: Context, s: Tcb, seg: Segment, isn: SeqNumber)
    requires s.rx.Valid() && s.rx.Capacity() <= MAX_RX_CAPACITY
    ensures Effect(s, ChallengeAckReply(cx, s, seg).s, seg, isn)
  {
  }

  lemma ProcessEffect(cx: Context, s: Tcb, seg: Segment, isn: SeqNumber)
    requires Inv(s) && Accepts(s, seg) && WireOk(seg)
    ensures Effect(s, Process(cx, s, seg, isn).s, seg, isn)
  {
    hide CheckAck, SynOk, ShapeOk, ProcessAccepted, SegmentInWindow, Overlap, ChallengeAckReply, RstReply;
    hide Asm.Valid, Asm.Extent, SegmentAt;
    match CheckAck(s, seg)
    case AckIgnore =>
    case AckReset =>
    case AckChallenge => ChallengeEffect(cx, s, seg, isn);
    case AckAccept =>
      if s.state.Listen? || s.state.SynSent? {
        OpeningEffect(cx, s, seg, isn);
      } else if SegmentInWindow(s, seg) {
        var (payload, offset) := Overlap(s, seg);
        SyncEffect(cx, s, seg, payload, offset, isn);
      } else {
        ChallengeEffect(cx, if s.state.TimeWait? then s.(timer := Timer.Close(cx.now + CLOSE_DELAY)) else s, seg, isn);
      }
  }

  // ---- close in SYN-RECEIVED, and after ----

  /**
   `early` is whether `close` was called in SYN-RECEIVED. Then the FIN takes the place of the SYN, and its
   acknowledgement is the SYN's.
   */
  predicate EarlyOk(s: Tcb, iss: SeqNumber, sent: seq<Byte>, early: bool) {
    && (SentFin(s.state) ==> (early <==> s.localSeq == iss))
    && (FinAcked(s.state) ==> Una(s, iss) == if early then 1 else |sent| + 2)
    && (early ==> sent == [] && (Shut(s.state) || s.state.Closed?) && !s.state.LastAck?)
  }

  /** An acknowledgement keeps to the one case or the other. */
  lemma AckKeepsEarly(s: Tcb, r: Tcb, seg: Segment, iss: SeqNumber, sent: seq<Byte>, early: bool)
    requires Inv(s) && SenderOk(s, iss, sent) && EarlyOk(s, iss, sent, early)
    requires CheckAck(s, seg).AckAccept? && !seg.control.Rst? && Synchronised(s.state)
    requires AllowedAfter(s, r.state, AckedBy(s, seg)) && seg.ack == Some(r.localSeq)
    requires r.state.LastAck? ==> s.state.LastAck?
    ensures EarlyOk(r, iss, sent, early)
  {
    hide AckedBy, CheckAck, Inv, Wf, SenderOk, Off, Diff;
    InvIsWf(s);
    AckFacts(s, seg);
    AckWithin(s, seg);
    SenderNumbers(s, iss, sent);
    OffZero(r.localSeq, iss);
    DiffZero(r.localSeq, s.localSeq);
    if Shut(s.state) {
      OffPlus(r.localSeq, s.localSeq, iss);
    }
  }

  lemma OffZero(a: SeqNumber, iss: SeqNumber)
    ensures Off(a, iss) == 0 <==> a == iss
  {
  }

  /** Where the sender is once it has closed its half. */
  lemma SenderNumbers(s: Tcb, iss: SeqNumber, sent: seq<Byte>)
    requires Inv(s) && SenderOk(s, iss, sent)
    ensures |sent| < MAX_STREAM && s.tx.length < HALF
    ensures SentFin(s.state) ==>
      if s.localSeq == iss then sent == [] && s.tx.length == 0 && Una(s, iss) == 0
      else 1 <= Una(s, iss) && Una(s, iss) - 1 + s.tx.length == |sent|
    ensures FinAcked(s.state) ==> s.tx.length == 0 && Una(s, iss) <= |sent| + 2
  {
    hide SynOk, Ring.Data;
    OffSelf(iss);
  }

  lemma AckWithin(s: Tcb, seg: Segment)
    requires Wf(s) && CheckAck(s, seg).AckAccept? && !seg.control.Rst? && Synchronised(s.state)
    ensures seg.ack.Some? && 0 <= Diff(seg.ack.value, s.localSeq) <= s.tx.length + OutstandingControl(s.state)
  {
  }

  lemma EarlyFrame(s: Tcb, r: Tcb, iss: SeqNumber, sent: seq<Byte>, early: bool)
    requires EarlyOk(s, iss, sent, early) && r.localSeq == s.localSeq
    requires r.state == s.state || r.state.Closed? || (!Shut(s.state) && !s.state.Closed? && !Shut(r.state))
    ensures EarlyOk(r, iss, sent, early)
  {
  }

  /** Only a call of `close` leads to LAST-ACK. */
  lemma NoNewLastAck(cx: Context, s: Tcb, seg: Segment, control: Control, ack: AckInfo, isn: SeqNumber)
    ensures Transition(cx, s, seg, control, ack, isn).s.state.LastAck? ==> s.state.LastAck?
  {
  }

  lemma SyncKeepsEarly(cx: Context, s: Tcb, seg: Segment, payload: seq<Byte>, offset: nat, isn: SeqNumber,
                       iss: SeqNumber, sent: seq<Byte>, early: bool)
    requires Inv(s) && Synchronised(s.state) && WireOk(seg) && CheckAck(s, seg).AckAccept?
    requires SenderOk(s, iss, sent) && EarlyOk(s, iss, sent, early)
    requires payload != [] ==> offset + |payload| <= s.rx.Window()
    ensures EarlyOk(ProcessAccepted(cx, s, seg, payload, offset, isn).s, iss, sent, early)
  {
    hide CheckAck, AckedBy, SynOk, ShapeOk, StorePayload, ApplyPayload, ApplyAck, TakeRtt, Asm.Valid, Asm.Extent;
    hide Transition, EarlyOk, SenderOk, EffectiveControl;
    var s0 := TakeRtt(cx, s, seg);
    TakeRttKeepsInv(cx, s, seg);
    AckedByIgnoresRtt(s, s0, seg);
    ControlIgnoresRtt(s, s0, seg);
    var ack := AckedBy(s, seg);
    if seg.control.Rst? {
      RstOutcome(cx, s, seg, payload, offset, isn);
      EarlyFrame(s, OnRst(s0), iss, sent, early);
    } else {
      SyncTransition(cx, s0, seg, ack, isn);
      AcceptedGoKeepsInv(cx, s, seg, isn);
      AckFacts(s, seg);
      var next := Transition(cx, s0, seg, EffectiveControl(s, seg), ack, isn);
      if next.Go? {
        var s2 := ApplyAck(cx, next.s, seg, ack.len);
        ApplyAckReceiver(cx, next.s, seg, ack.len);
        ApplyPayloadFrame(cx, s2, seg, payload, offset);
        NoNewLastAck(cx, s0, seg, EffectiveControl(s, seg), ack, isn);
        AckKeepsEarly(s, ApplyPayload(cx, s2, seg, payload, offset).s, seg, iss, sent, early);
      } else {
        EarlyFrame(s, s0, iss, sent, early);
      }
    }
  }

  lemma ProcessKeepsEarly(cx: Context, s: Tcb, seg: Segment, iss: SeqNumber, sent: seq<Byte>, early: bool)
    requires Inv(s) && Accepts(s, seg) && WireOk(seg) && SenderOk(s, iss, sent) && EarlyOk(s, iss, sent, early)
    ensures EarlyOk(Process(cx, s, seg, iss).s, iss, sent, early)
  {
    hide CheckAck, SynOk, ShapeOk, ProcessAccepted, SegmentInWindow, Overlap, ChallengeAckReply, RstReply;
    hide Asm.Valid, Asm.Extent, SegmentAt, SenderOk;
    match CheckAck(s, seg)
    case AckIgnore =>
    case AckReset =>
    case AckChallenge => ChallengeSame(cx, s, seg);
    case AckAccept =>
      if s.state.Listen? || s.state.SynSent? {
        OpeningEffect(cx, s, seg, iss);
      } else if SegmentInWindow(s, seg) {
        var (payload, offset) := Overlap(s, seg);
        SyncKeepsEarly(cx, s, seg, payload, offset, iss, iss, sent, early);
      } else {
        ChallengeSame(cx, if s.state.TimeWait? then s.(timer := Timer.Close(cx.now + CLOSE_DELAY)) else s, seg);
      }
  }

  lemma ChallengeSame(cx: Context, s: Tcb, seg: Segment)
    requires s.rx.Valid() && s.rx.Capacity() <= MAX_RX_CAPACITY
    ensures var r := ChallengeAckReply(cx, s, seg).s; r.state == s.state && r.localSeq == s.localSeq
  {
  }

  // ---- what one end sends ----

  /** A segment that says how far this end has got, or says nothing about it. */
  predicate SaysHowFar(seg: Segment, s: Tcb)
    requires s.rx.Valid() && s.rx.Capacity() <= MAX_RX_CAPACITY
  {
    seg.control.Rst? || seg.ack.None? || (Synchronised(s.state) && seg.ack == Some(NextExpected(s)))
  }

  lemma ReplySays(cx: Context, x: Side, y: Side, seg: Segment)
    requires SideOk(x, y) && SegOk(seg, y, x) && Accepts(x.s, seg)
    ensures var r := Process(cx, x.s, seg, x.iss);
      Inv(r.s) && (r.reply.Some? ==> SaysHowFar(r.reply.value, r.s) && !r.reply.value.control.Fin?)
  {
    hide SynOk, ShapeOk, SenderOk, ReceiverOk, InitialShift, Off, ProcessAccepted, Overlap, SegmentInWindow;
    hide CheckAck, CarriesStream, Shl, Windows, ScaledWindow, Asm.Valid, Asm.Extent, SegmentAt;
    var s := x.s;
    SegOkWire(seg, y, x);
    ProcessKeepsInv(cx, s, seg, x.iss);
    match CheckAck(s, seg)
    case AckIgnore =>
    case AckReset =>
    case AckChallenge => ChallengeIsSynchronised(s, seg);
    case AckAccept =>
      if s.state.Listen? || s.state.SynSent? {
        AcceptedSays(cx, x, y, seg, [], 0);
      } else if SegmentInWindow(s, seg) {
        var (payload, offset) := Overlap(s, seg);
        AcceptedSays(cx, x, y, seg, payload, offset);
      }
  }

  lemma AcceptedSays(cx: Context, x: Side, y: Side, seg: Segment, payload: seq<Byte>, offset: nat)
    requires SideOk(x, y) && SegOk(seg, y, x) && CheckAck(x.s, seg).AckAccept? && !x.s.state.Closed? && WireOk(seg)
    requires x.s.state.Listen? ==> seg.ack.None?
    requires Kept(x.s, seg, payload, offset)
    requires payload != [] ==> offset + |payload| <= x.s.rx.Window()
    ensures var r := ProcessAccepted(cx, x.s, seg, payload, offset, x.iss);
      && r.s.rx.Valid() && r.s.rx.Capacity() <= MAX_RX_CAPACITY
      && (r.reply.Some? ==> SaysHowFar(r.reply.value, r.s) && !r.reply.value.control.Fin?)
  {
    hide SynOk, ShapeOk, Windows, SenderOk, ReceiverOk, CheckAck, ProcessAccepted, CarriesStream, InitialShift;
    hide SegmentInWindow, Overlap, ScaledWindow, Asm.Valid, Asm.Extent;
    if seg.control.Rst? {
      RstOutcome(cx, x.s, seg, payload, offset, x.iss);
    } else {
      KeptFits(x, y, seg, payload, offset);
      AcceptedReply(cx, x.s, seg, payload, offset, x.iss);
    }
  }

  /** What a draft says, and that a FIN has the SYN's number exactly as long as the SYN is unacknowledged. */
  lemma DraftSays(cx: Context, s: Tcb, iss: SeqNumber, sent: seq<Byte>)
    requires Inv(s) && s.tuple.Some? && CxOk(cx, s) && SenderOk(s, iss, sent)
    ensures SaysHowFar(Draft(cx, s), s)
    ensures Draft(cx, s).control.Fin? ==> SentFin(s.state) && (Draft(cx, s).seqNo == iss <==> s.localSeq == iss)
  {
    hide SynOk, Asm.Valid, Asm.Extent, ScaledWindow, SegmentRoom, GetAllocated, SenderOk, Off;
    if s.state.Established? || s.state.CloseWait? || SentFin(s.state) {
      DataSegmentFits(cx, s);
      DiffZero(s.remoteLastSeq, s.localSeq);
      SenderNumbers(s, iss, sent);
      NextSeqPos(s, iss, sent);
      OffZero(s.remoteLastSeq, iss);
      OffZero(s.localSeq, iss);
    }
  }

  lemma DraftIsOutgoing(cx: Context, s: Tcb)
    requires Wf(s) && s.tuple.Some? && CxOk(cx, s) && Quiet(s)
    ensures Outgoing(cx, s) == Draft(cx, s)
  {
  }

  /** What `dispatch` keeps, and what it says. */
  lemma DispatchSays(cx: Context, s: Tcb, iss: SeqNumber, sent: seq<Byte>, emitOk: bool)
    requires Inv(s) && CxOk(cx, s) && Quiet(s) && SenderOk(s, iss, sent)
    ensures var d := Dispatch(cx, s, emitOk);
      && Inv(d.s)
      && (d.s.state.Closed? ||
            (d.s.state == s.state && d.s.rx == s.rx && d.s.remoteSeq == s.remoteSeq && d.s.rxFin == s.rxFin
             && d.s.localSeq == s.localSeq))
      && (d.out.Some? ==>
            && SaysHowFar(d.out.value, d.s)
            && (d.out.value.control.Fin? ==>
                  SentFin(s.state) && (d.out.value.seqNo == iss <==> s.localSeq == iss)))
  {
    hide SynOk, ShapeOk, BeforeSend, WhatToDo, AfterSend, Outgoing, InitialShift, Asm.Valid, Asm.Extent, Draft;
    hide SenderOk, Rewinds, Diff;
    DispatchKeepsInv(cx, s, emitOk);
    if s.tuple.Some? {
      BeforeSendKeepsInv(cx, s);
      BeforeSendFrame(cx, s);
      var s1 := BeforeSend(cx, s);
      if WhatToDo(cx, s1).SendSegment? {
        AfterSendFrame(cx, s1);
        DraftIsOutgoing(cx, s1);
        SenderFrame(s, s1, iss, sent);
        DraftSays(cx, s1, iss, sent);
      }
    }
  }
}
