/**
 The invariant of a TCP socket holds in every reachable state, whatever segments arrive: no sequence
 subtraction underflows, no ACK takes more than is buffered, no payload misses the free window.
 */
module TcpInvariant {
  import opened Common
  import opened SeqNumbers
  import opened RingBuffer
  import opened Tcp
  import opened TcpProcess
  import opened TcpDispatch
  import opened TcpPoll
  import opened TcpWindow
  import Asm = AssemblerList

  // ---- replies ----

  lemma InvIsWf(s: Tcb)
    requires Inv(s)
    ensures Wf(s)
  {
  }

  lemma AckReplyKeepsInv(s: Tcb, seg: Segment)
    requires Inv(s)
    ensures Inv(AckReply(s, seg).s)
  {
  }

  lemma ChallengeKeepsInv(cx: Context, s: Tcb, seg: Segment)
    requires Inv(s)
    ensures Inv(ChallengeAckReply(cx, s, seg).s)
  {
    AckReplyKeepsInv(s.(challengeAckAt := cx.now + CHALLENGE_PERIOD), seg);
  }

  lemma TakeRttKeepsInv(cx: Context, s: Tcb, seg: Segment)
    requires Inv(s)
    ensures Inv(TakeRtt(cx, s, seg))
  {
  }

  lemma OnRstKeepsInv(s: Tcb)
    requires Inv(s)
    ensures Inv(OnRst(s))
  {
  }

  // ---- acknowledgements ----

  /** How far an accepted acknowledgement moves `localSeq`, in every synchronised state. */
  lemma AckFacts(s: Tcb, seg: Segment)
    requires Wf(s) && CheckAck(s, seg).AckAccept? && !seg.control.Rst?
    requires !s.state.Listen? && !s.state.SynSent?
    ensures seg.ack.Some?
    ensures var d, ack := Diff(seg.ack.value, s.localSeq), AckedBy(s, seg);
      if s.state.SynReceived? then d == 1 && ack.len == d - 1 && !ack.ofFin
      else
        && d == ack.len + (if ack.ofFin then 1 else 0)
        && (ack.ofFin <==> SentFin(s.state) && d == s.tx.length + 1)
  {
  }

  /** `ApplyAck` keeps the order of the sequence numbers if the acknowledgement leaves enough behind it. */
  lemma ApplyAckWf(cx: Context, s: Tcb, seg: Segment, ackLen: nat)
    requires Wf(s.(state := Closed)) && WireOk(seg) && seg.ack.Some? && ackLen <= s.tx.length
    requires 0 <= Diff(seg.ack.value, s.localSeq)
    requires MaxOf(Diff(s.remoteLastSeq, s.localSeq) - Diff(seg.ack.value, s.localSeq), 0)
             <= s.tx.length - ackLen + Slack(s.state)
    ensures Wf(ApplyAck(cx, s, seg, ackLen))
  {
    RemoteWindowBound(s, seg);
    hide Asm.Valid, Asm.Extent, RemoteWindow;
  }

  /** The timer and buffers after `ApplyAck`. */
  lemma ApplyAckShape(cx: Context, s: Tcb, seg: Segment, ackLen: nat)
    requires s.tx.Valid() && ackLen <= s.tx.length && seg.ack.Some?
    ensures var r := ApplyAck(cx, s, seg, ackLen);
      && r.tx.length == s.tx.length - ackLen && r.state == s.state && r.tuple == s.tuple
      && (r.timer == s.timer || r.timer.FastRetransmit?) && r.remoteMss == s.remoteMss
      && r.localSeq == seg.ack.value && r.tx.Valid() && r.tx.Data() == s.tx.Data()[ackLen..]
  {
    DequeueDrops(s.tx, ackLen);
  }

  /** The states in which a plain segment or a FIN is processed further. */
  predicate Synchronised(st: State) {
    !st.Closed? && !st.Listen? && !st.SynSent?
  }

  /** What a transition out of `s` must leave behind for `ApplyAck`. */
  predicate ReadyForAck(s: Tcb, seg: Segment, ackLen: nat) {
    && Wf(s.(state := Closed)) && seg.ack.Some? && ackLen <= s.tx.length
    && 0 <= Diff(seg.ack.value, s.localSeq)
    && MaxOf(Diff(s.remoteLastSeq, s.localSeq) - Diff(seg.ack.value, s.localSeq), 0)
       <= s.tx.length - ackLen + Slack(s.state)
  }

  /** Which new states an acknowledgement may leave `s` in. */
  predicate AllowedAfter(s: Tcb, st: State, ack: AckInfo) {
    && Synchronised(s.state) && !SentSyn(st)
    && (st.FinWait2? || st.TimeWait? ==> ack.ofFin || s.state.FinWait2?)
    && (SentFin(s.state) ==> ack.ofFin || SentFin(st))
    && (SentFin(st) ==> SentFin(s.state))
    && (s.state.FinWait2? || s.state.TimeWait? ==> st.FinWait2? || st.TimeWait?)
    && (ack.ofFin ==> st.FinWait2? || st.TimeWait? || st.Closed?)
  }

  lemma AllowedIsReady(s: Tcb, s1: Tcb, seg: Segment)
    requires Inv(s) && CheckAck(s, seg).AckAccept? && !seg.control.Rst? && Synchronised(s.state)
    requires AllowedAfter(s, s1.state, AckedBy(s, seg))
    requires s1.tx == s.tx && s1.rx == s.rx && s1.assembler == s.assembler
    requires s1.localSeq == s.localSeq && s1.remoteLastSeq == s.remoteLastSeq
    requires s1.remoteWinLen == s.remoteWinLen && s1.remoteWinScale == s.remoteWinScale
    ensures ReadyForAck(s1, seg, AckedBy(s, seg).len)
    ensures s1.state.FinWait2? || s1.state.TimeWait? ==> AckedBy(s, seg).len == s.tx.length
  {
    AckFacts(s, seg);
    hide AckedBy, CheckAck, SynOk, Asm.Valid, Asm.Extent;
  }

  lemma ReadyKeepsInv(cx: Context, s: Tcb, seg: Segment, ackLen: nat)
    requires ReadyForAck(s, seg, ackLen) && WireOk(seg) && !SentSyn(s.state) && !s.state.Listen?
    requires s.tuple.None? ==> s.state.Closed?
    requires s.state.FinWait2? || s.state.TimeWait? ==> ackLen == s.tx.length
    requires s.timer.Close? ==> s.state.TimeWait? || s.state.Closed?
    requires s.timer.Retransmit? ==> s.timer.delay > 0
    requires s.remoteMss > 0
    ensures Inv(ApplyAck(cx, s, seg, ackLen))
  {
    ApplyAckWf(cx, s, seg, ackLen);
    ApplyAckShape(cx, s, seg, ackLen);
    hide ApplyAck, Wf;
  }

  /** What a transition may do to `s`, whichever arm is taken. */
  predicate TransitionShape(s: Tcb, s1: Tcb, ack: AckInfo) {
    && AllowedAfter(s, s1.state, ack) && !s1.state.Listen?
    && s1 == s.(state := s1.state, timer := s1.timer, tuple := s1.tuple, remoteSeq := s1.remoteSeq, rxFin := s1.rxFin)
    && (s1.tuple == s.tuple || (s1.tuple.None? && s1.state.Closed?))
    && (s1.timer == s.timer || s1.timer.Idle? || (s1.timer.Close? && s1.state.TimeWait?))
    && (s.timer.Close? && s1.timer == s.timer ==> s1.state.Closed?)
    && (s1.state.Closed? ==> ack.ofFin)
  }

  lemma OnPlainShape(cx: Context, s: Tcb, ack: AckInfo)
    requires Synchronised(s.state) && OnPlain(cx, s, ack).Go? && (s.timer.Close? ==> s.state.TimeWait?)
    requires ack.ofFin ==> SentFin(s.state)
    ensures TransitionShape(s, OnPlain(cx, s, ack).s, ack)
  {
  }

  lemma OnFinShape(cx: Context, s: Tcb, ack: AckInfo)
    requires Synchronised(s.state) && OnFin(cx, s, ack.ofFin).Go? && (s.timer.Close? ==> s.state.TimeWait?)
    requires ack.ofFin ==> SentFin(s.state)
    ensures TransitionShape(s, OnFin(cx, s, ack.ofFin).s, ack)
  {
  }

  lemma ShapeKeepsInv(cx: Context, s: Tcb, s1: Tcb, seg: Segment)
    requires Inv(s) && WireOk(seg) && CheckAck(s, seg).AckAccept? && !seg.control.Rst? && Synchronised(s.state)
    requires TransitionShape(s, s1, AckedBy(s, seg))
    ensures Inv(ApplyAck(cx, s1, seg, AckedBy(s, seg).len))
  {
    var ack := AckedBy(s, seg);
    hide AckedBy, CheckAck, ApplyAck, SynOk, ReadyForAck;
    AllowedIsReady(s, s1, seg);
    ReadyKeepsInv(cx, s1, seg, ack.len);
  }

  lemma SynSentSynKeepsInv(cx: Context, s: Tcb, seg: Segment)
    requires Inv(s) && WireOk(seg) && CheckAck(s, seg).AckAccept? && seg.control.Syn? && s.state.SynSent?
    requires OnSynSentSyn(cx, s, seg).Go?
    ensures AckedBy(s, seg).len == 0
    ensures Inv(ApplyAck(cx, OnSynSentSyn(cx, s, seg).s, seg, 0))
  {
    var s1 := OnSynSentSyn(cx, s, seg).s;
    ApplyAckWf(cx, s1, seg, 0);
    ApplyAckShape(cx, s1, seg, 0);
    hide ApplyAck;
  }

  lemma ListenSynKeepsInv(cx: Context, s: Tcb, seg: Segment, isn: SeqNumber)
    requires Inv(s) && WireOk(seg) && s.state.Listen? && seg.ack.None?
    requires OnListenSyn(cx, s, seg, isn).Go?
    ensures Inv(ApplyAck(cx, OnListenSyn(cx, s, seg, isn).s, seg, 0))
  {
    RemoteWindowBound(OnListenSyn(cx, s, seg, isn).s, seg);
    hide RemoteWindow;
  }

  // ---- payload ----

  /** Recorded ranges stay inside the free window. */
  lemma StorePayloadKeepsInv(s: Tcb, payload: seq<Byte>, offset: nat)
    requires Inv(s) && !SentSyn(s.state) && !s.state.Listen?
    requires payload != [] && offset + |payload| <= s.rx.Window()
    requires StorePayload(s, payload, offset).Some?
    ensures Inv(StorePayload(s, payload, offset).value)
  {
    Asm.AddThenRemoveFrontMeaning(s.assembler, offset, |payload|);
    hide Asm.AddThenRemoveFront, Asm.Has, Asm.Valid, Asm.Extent, EnqueueContiguous, WriteContiguous;
  }

  lemma DelayAckKeepsInv(cx: Context, s: Tcb)
    requires Inv(s)
    ensures Inv(DelayAck(cx, s))
  {
  }

  lemma ApplyPayloadKeepsInv(cx: Context, s: Tcb, seg: Segment, payload: seq<Byte>, offset: nat)
    requires Inv(s)
    requires payload != [] ==> !SentSyn(s.state) && !s.state.Listen? && offset + |payload| <= s.rx.Window()
    ensures Inv(ApplyPayload(cx, s, seg, payload, offset).s)
  {
    if payload != [] && StorePayload(s, payload, offset).Some? {
      StorePayloadKeepsInv(s, payload, offset);
      var s1 := StorePayload(s, payload, offset).value;
      hide StorePayload, DelayAck, AckReply, SynOk, ShapeOk;
      DelayAckKeepsInv(cx, s1);
      AckReplyKeepsInv(DelayAck(cx, s1), seg);
    }
  }

  // ---- process ----

  lemma AcceptedGoKeepsInv(cx: Context, s: Tcb, seg: Segment, isn: SeqNumber)
    requires Inv(s) && WireOk(seg) && CheckAck(s, seg).AckAccept?
    requires s.state.Listen? ==> seg.ack.None?
    requires !s.state.Closed?
    ensures var next := Transition(cx, TakeRtt(cx, s, seg), seg, EffectiveControl(s, seg), AckedBy(s, seg), isn);
      if next.Stop? then Inv(next.s)
      else
        && Inv(ApplyAck(cx, next.s, seg, AckedBy(s, seg).len))
        && (!s.state.Listen? ==> !SentSyn(next.s.state) && !next.s.state.Listen?)
  {
    var s0 := TakeRtt(cx, s, seg);
    TakeRttKeepsInv(cx, s, seg);
    AckedByIgnoresRtt(s, s0, seg);
    hide AckedBy, CheckAck, ApplyAck, Wf, SynOk, ShapeOk, TakeRtt, OnFin, OnPlain, OnRst, OnListenSyn, OnSynSentSyn;
    if EffectiveControl(s, seg).Rst? {
      OnRstKeepsInv(s0);
    } else if EffectiveControl(s, seg).Syn? {
      SynKeepsInv(cx, s0, seg, isn);
    } else if s.state.SynSent? {
      SynSentNeedsSyn(s, seg);
    } else if EffectiveControl(s, seg).Fin? {
      FinKeepsInv(cx, s0, seg);
    } else {
      PlainKeepsInv(cx, s0, seg);
    }
  }

  lemma FinKeepsInv(cx: Context, s: Tcb, seg: Segment)
    requires Inv(s) && WireOk(seg) && CheckAck(s, seg).AckAccept? && !seg.control.Rst?
    requires !s.state.Closed? && !s.state.SynSent? && (s.state.Listen? ==> seg.ack.None?)
    ensures var ack := AckedBy(s, seg); var next := OnFin(cx, s, ack.ofFin);
      if next.Stop? then next.s == s
      else
        && next.s.tx == s.tx && Inv(ApplyAck(cx, next.s, seg, ack.len))
        && !s.state.Listen? && !SentSyn(next.s.state) && !next.s.state.Listen?
  {
    var ack := AckedBy(s, seg);
    hide AckedBy, CheckAck, ApplyAck, SynOk, Wf;
    if Synchronised(s.state) && OnFin(cx, s, ack.ofFin).Go? {
      OnFinShape(cx, s, ack);
      ShapeKeepsInv(cx, s, OnFin(cx, s, ack.ofFin).s, seg);
    }
  }

  lemma PlainKeepsInv(cx: Context, s: Tcb, seg: Segment)
    requires Inv(s) && WireOk(seg) && CheckAck(s, seg).AckAccept? && !seg.control.Rst?
    requires !s.state.Closed? && !s.state.SynSent? && (s.state.Listen? ==> seg.ack.None?)
    ensures var ack := AckedBy(s, seg); var next := OnPlain(cx, s, ack);
      if next.Stop? then next.s == s
      else
        && next.s.tx == s.tx && Inv(ApplyAck(cx, next.s, seg, ack.len))
        && !s.state.Listen? && !SentSyn(next.s.state) && !next.s.state.Listen?
  {
    var ack := AckedBy(s, seg);
    hide AckedBy, CheckAck, ApplyAck, SynOk, Wf;
    if Synchronised(s.state) && OnPlain(cx, s, ack).Go? {
      OnPlainShape(cx, s, ack);
      ShapeKeepsInv(cx, s, OnPlain(cx, s, ack).s, seg);
    }
  }

  /** A SYN, in the two states that take one. */
  lemma SynKeepsInv(cx: Context, s: Tcb, seg: Segment, isn: SeqNumber)
    requires Inv(s) && WireOk(seg) && CheckAck(s, seg).AckAccept? && seg.control.Syn?
    requires s.state.Listen? ==> seg.ack.None?
    ensures var ack := AckedBy(s, seg); var next := Transition(cx, s, seg, Syn, ack, isn);
      if next.Stop? then next.s == s
      else
        && Inv(ApplyAck(cx, next.s, seg, ack.len))
        && (!s.state.Listen? ==> !SentSyn(next.s.state) && !next.s.state.Listen?)
  {
    if s.state.Listen? {
      NoAckLen(s, seg);
      if OnListenSyn(cx, s, seg, isn).Go? {
        ListenSynKeepsInv(cx, s, seg, isn);
      }
    } else if s.state.SynSent? && OnSynSentSyn(cx, s, seg).Go? {
      SynSentSynKeepsInv(cx, s, seg);
    }
    hide AckedBy, CheckAck, ApplyAck, SynOk, Wf;
  }

  lemma AckedByIgnoresRtt(s: Tcb, s0: Tcb, seg: Segment)
    requires Wf(s) && CheckAck(s, seg).AckAccept? && (s.state.Listen? ==> seg.ack.None?)
    requires s0 == s.(rtte := s0.rtte)
    ensures Wf(s0) && CheckAck(s0, seg).AckAccept? && AckedBy(s0, seg) == AckedBy(s, seg)
  {
  }

  lemma NoAckLen(s: Tcb, seg: Segment)
    requires Wf(s) && CheckAck(s, seg).AckAccept? && s.state.Listen? && seg.ack.None?
    ensures AckedBy(s, seg).len == 0
  {
  }

  lemma SynSentNeedsSyn(s: Tcb, seg: Segment)
    requires Wf(s) && s.state.SynSent? && CheckAck(s, seg).AckAccept?
    ensures seg.control.Syn? || seg.control.Rst?
  {
  }

  lemma AcceptedKeepsInv(cx: Context, s: Tcb, seg: Segment, payload: seq<Byte>, offset: nat, isn: SeqNumber)
    requires Inv(s) && WireOk(seg) && CheckAck(s, seg).AckAccept? && !s.state.Closed?
    requires s.state.Listen? ==> seg.ack.None?
    requires payload != [] ==> !s.state.Listen? && offset + |payload| <= s.rx.Window()
    ensures Inv(ProcessAccepted(cx, s, seg, payload, offset, isn).s)
  {
    AcceptedGoKeepsInv(cx, s, seg, isn);
    var ack := AckedBy(s, seg);
    var next := Transition(cx, TakeRtt(cx, s, seg), seg, EffectiveControl(s, seg), ack, isn);
    hide AckedBy, CheckAck, Wf, SynOk, ShapeOk, Transition, EffectiveControl, ApplyAck, ApplyPayload;
    if next.Go? {
      var s2 := ApplyAck(cx, next.s, seg, ack.len);
      assert s2.state == next.s.state by { ApplyAckState(cx, next.s, seg, ack.len); }
      ApplyPayloadKeepsInv(cx, s2, seg, payload, offset);
    }
  }

  lemma ApplyAckState(cx: Context, s: Tcb, seg: Segment, ackLen: nat)
    requires s.tx.Valid() && ackLen <= s.tx.length
    ensures ApplyAck(cx, s, seg, ackLen).state == s.state
  {
  }

  lemma ProcessKeepsInv(cx: Context, s: Tcb, seg: Segment, isn: SeqNumber)
    requires Inv(s) && Accepts(s, seg) && WireOk(seg)
    ensures Inv(Process(cx, s, seg, isn).s)
  {
    hide ProcessAccepted, ChallengeAckReply, SegmentInWindow, SynOk, ShapeOk, CheckAck;
    match CheckAck(s, seg)
    case AckIgnore =>
    case AckReset =>
    case AckChallenge => ChallengeKeepsInv(cx, s, seg);
    case AckAccept =>
      if s.state.Listen? || s.state.SynSent? {
        AcceptedKeepsInv(cx, s, seg, [], 0, isn);
      } else if SegmentInWindow(s, seg) {
        var (payload, offset) := Overlap(s, seg);
        AcceptedKeepsInv(cx, s, seg, payload, offset, isn);
      } else {
        if s.state.TimeWait? {
          RestartKeepsInv(cx, s);
        }
        ChallengeKeepsInv(cx, if s.state.TimeWait? then s.(timer := Timer.Close(cx.now + CLOSE_DELAY)) else s, seg);
      }
  }

  lemma RestartKeepsInv(cx: Context, s: Tcb)
    requires Inv(s) && s.state.TimeWait?
    ensures Inv(s.(timer := Timer.Close(cx.now + CLOSE_DELAY)))
  {
  }

  // ---- user calls ----

  predicate FreshRings(rx: Ring, tx: Ring) {
    && rx.Valid() && rx.length == 0 && rx.Capacity() <= MAX_RX_CAPACITY
    && tx.Valid() && tx.length == 0 && tx.Capacity() < I32_MAX
  }

  lemma NewSocketInv(rx: Ring, tx: Ring)
    requires FreshRings(rx, tx)
    ensures Inv(NewSocket(rx, tx))
  {
  }

  lemma ListenKeepsInv(s: Tcb, e: ListenEndpoint)
    requires Inv(s)
    ensures Inv(ListenOn(s, e).0)
  {
    ResetKeepsInv(s);
    hide InitialShift, Asm.Valid, Asm.Extent;
  }

  lemma ConnectKeepsInv(s: Tcb, local: Endpoint, remote: Endpoint, isn: SeqNumber)
    requires Inv(s)
    ensures Inv(Connect(s, local, remote, isn).0)
  {
    hide InitialShift;
  }

  lemma CloseKeepsInv(s: Tcb)
    requires Inv(s)
    ensures Inv(CloseCall(s))
  {
    hide Asm.Valid, Asm.Extent, ScaledWindow, Diff;
  }

  lemma SendKeepsInv(s: Tcb, data: seq<Byte>)
    requires Inv(s)
    ensures Inv(SendSlice(s, data).0)
  {
    hide EnqueueContiguous;
  }

  lemma RecvKeepsInv(s: Tcb, size: nat)
    requires Inv(s)
    ensures Inv(RecvSlice(s, size).0)
  {
  }

  // ---- every run ----

  /** Everything that can happen to a socket. Segments, times and random numbers are arbitrary. */
  datatype Op =
    | Arrive(cx: Context, seg: Segment, isn: SeqNumber)
    | Egress(cx: Context, emitOk: bool)
    | Send(data: seq<Byte>)
    | Recv(size: nat)
    | CloseTx
    | AbortAll
    | StartListen(at: ListenEndpoint)
    | StartConnect(local: Endpoint, remote: Endpoint, isn: SeqNumber)
    | Configure(timeout: Option<nat>, keepAlive: Option<nat>, ackDelay: Option<nat>, nagle: bool)

  /** One event; a segment the interface would not hand over, or a dispatch it could not do, is skipped. */
  function Apply(s: Tcb, op: Op): Tcb
    requires Inv(s)
  {
    match op
    case Arrive(cx, seg, isn) => if Accepts(s, seg) && WireOk(seg) then Process(cx, s, seg, isn).s else s
    case Egress(cx, emitOk) => if CxOk(cx, s) then Dispatch(cx, s, emitOk).s else s
    case Send(data) => SendSlice(s, data).0
    case Recv(size) => RecvSlice(s, size).0
    case CloseTx => CloseCall(s)
    case AbortAll => Abort(s)
    case StartListen(e) => ListenOn(s, e).0
    case StartConnect(local, remote, isn) => Connect(s, local, remote, isn).0
    case Configure(timeout, keepAlive, ackDelay, nagle) =>
      SetKeepAlive(s, keepAlive).(timeout := timeout, ackDelay := ackDelay, nagle := nagle)
  }

  lemma ConfigureKeepsInv(s: Tcb, timeout: Option<nat>, keepAlive: Option<nat>, ackDelay: Option<nat>, nagle: bool)
    requires Inv(s)
    ensures Inv(SetKeepAlive(s, keepAlive).(timeout := timeout, ackDelay := ackDelay, nagle := nagle))
  {
  }

  lemma ApplyKeepsInv(s: Tcb, op: Op)
    requires Inv(s)
    ensures Inv(Apply(s, op))
  {
    hide Wf, SynOk, ShapeOk, Process, Dispatch, SendSlice, RecvSlice, CloseCall, ListenOn, Connect;
    match op
    case Arrive(cx, seg, isn) =>
      if Accepts(s, seg) && WireOk(seg) {
        ProcessKeepsInv(cx, s, seg, isn);
      }
    case Egress(cx, emitOk) =>
      if CxOk(cx, s) {
        DispatchKeepsInv(cx, s, emitOk);
      }
    case Send(data) => SendKeepsInv(s, data);
    case Recv(size) => RecvKeepsInv(s, size);
    case CloseTx => CloseKeepsInv(s);
    case AbortAll => AbortKeepsInv(s);
    case StartListen(e) => ListenKeepsInv(s, e);
    case StartConnect(local, remote, isn) => ConnectKeepsInv(s, local, remote, isn);
    case Configure(timeout, keepAlive, ackDelay, nagle) =>
      ConfigureKeepsInv(s, timeout, keepAlive, ackDelay, nagle);
  }

  /** The states a run goes through, the last one included. */
  function Run(s: Tcb, ops: seq<Op>): Tcb
    requires Inv(s)
    decreases |ops|
  {
    if ops == [] then s
    else
      ApplyKeepsInv(s, ops[0]);
      Run(Apply(s, ops[0]), ops[1..])
  }

  /** How far `remoteLastSeq` may run ahead of `localSeq`; the slack of 1 is only there for a SYN or FIN,
      for an aborted socket, or for a listener that a RST threw back. */
  predicate SenderInOrder(s: Tcb) {
    && 0 <= Diff(s.remoteLastSeq, s.localSeq) <= s.tx.length + Slack(s.state)
    && (Slack(s.state) == 1 <==>
          SentSyn(s.state) || SentFin(s.state) || s.state.Closed? || s.state.Listen?)
  }

  /** Recorded out-of-order ranges lie inside the free window, also after the application has read. */
  ghost predicate ReceiverInBounds(s: Tcb) {
    && s.rx.Valid() && Asm.Valid(s.assembler)
    && forall o: int :: Asm.Has(s.assembler, o) ==> 0 <= o < s.rx.Window()
  }

  /**
   Every socket ever created, after any sequence of user calls, dispatches and arbitrary segments,
   is in order on the sending side and in bounds on the receiving side.
   */
  lemma {:induction false} RunKeepsInv(rx: Ring, tx: Ring, ops: seq<Op>)
    requires FreshRings(rx, tx)
    ensures Inv(NewSocket(rx, tx))
    ensures var s := Run(NewSocket(rx, tx), ops);
      Inv(s) && SenderInOrder(s) && ReceiverInBounds(s)
  {
    NewSocketInv(rx, tx);
    RunInv(NewSocket(rx, tx), ops);
    var s := Run(NewSocket(rx, tx), ops);
    forall o: int | Asm.Has(s.assembler, o)
      ensures 0 <= o < s.rx.Window()
    {
      Asm.HasBounds(s.assembler, o);
    }
  }

  lemma {:induction false} RunInv(s: Tcb, ops: seq<Op>)
    requires Inv(s)
    ensures Inv(Run(s, ops))
    decreases |ops|
  {
    hide Inv, Apply;
    if ops != [] {
      ApplyKeepsInv(s, ops[0]);
      RunInv(Apply(s, ops[0]), ops[1..]);
    }
  }

  /**
   What one segment can do to the transmit buffer: an ACK drops a prefix of what is queued and moves
   `localSeq` by that much, plus one for our SYN or FIN; `remoteLastSeq` never falls behind it.
   */
  lemma AckDropsPrefix(s: Tcb, seg: Segment)
    requires Inv(s) && WireOk(seg) && CheckAck(s, seg).AckAccept? && !seg.control.Rst? && Synchronised(s.state)
    ensures var n := AckedBy(s, seg).len; var d := Diff(seg.ack.value, s.localSeq);
      && n <= s.tx.length && d - n == (if SentSyn(s.state) || AckedBy(s, seg).ofFin then 1 else 0)
      && Dequeue(s.tx, n).Data() == s.tx.Data()[n..]
  {
    AckFacts(s, seg);
    DequeueDrops(s.tx, AckedBy(s, seg).len);
    hide AckedBy, CheckAck;
  }
}
