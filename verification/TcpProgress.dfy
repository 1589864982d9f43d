/** What gets done: a handshake connects, and data that comes in order is taken. */
module TcpProgress {
  import opened Common
  import opened SeqNumbers
  import opened RingBuffer
  import opened RttEstimation
  import opened Tcp
  import opened TcpProcess
  import opened TcpDispatch
  import opened TcpPoll
  import opened TcpInvariant
  import opened TcpStream
  import opened TcpReceiver
  import opened TcpSide
  import Asm = AssemblerList

  // ---- data in order ----

  /** A payload at the window start is appended to the queue, with whatever it joins up with. */
  lemma StoredAtFront(s: Tcb, payload: seq<Byte>)
    requires s.rx.Valid() && Asm.Valid(s.assembler) && Asm.Extent(s.assembler) <= s.rx.Window()
    requires payload != [] && |payload| <= s.rx.Window()
    ensures var r := StorePayload(s, payload, 0);
      && r.Some? && s.rx.Data() + payload <= r.value.rx.Data()
      && (s.assembler.Nil? ==> r.value.rx.Data() == s.rx.Data() + payload && r.value.assembler.Nil?)
  {
    hide Asm.Valid, Asm.Extent, Ring.Data, Ring.Free;
    Asm.AddThenRemoveFrontMeaning(s.assembler, 0, |payload|);
    WriteUnallocatedWrites(s.rx, 0, payload);
    var (asm, contig) := Asm.AddThenRemoveFront(s.assembler, 0, |payload|).value;
    var (rx1, _) := WriteUnallocated(s.rx, 0, payload);
    FrontRunCovers(s.assembler, contig, |payload|);
    hide Asm.Has, Asm.AddThenRemoveFront, WriteUnallocated;
    EnqueueUnallocatedTakes(rx1, contig);
    FrontIsPayload(s.rx.Free(), payload, contig);
    if s.assembler.Nil? {
      EmptyFront(|payload|);
    }
  }

  lemma FrontRunCovers(l: Asm.Contigs, n: nat, size: nat)
    requires !(Asm.Has(l, n) || 0 <= n < 0 + size)
    ensures n >= size
  {
  }

  lemma FrontIsPayload(free: seq<Byte>, payload: seq<Byte>, contig: nat)
    requires |payload| <= contig <= |free|
    ensures payload <= Splice(free, 0, payload)[..contig]
    ensures contig == |payload| ==> Splice(free, 0, payload)[..contig] == payload
  {
  }

  lemma EmptyFront(size: nat)
    requires size > 0
    ensures Asm.AddThenRemoveFront(Asm.Nil, 0, size) == Some((Asm.Nil, size))
  {
  }

  /**
   A plain segment at the window start that fits the window is taken whole: the application can read
   it behind what it already had.
   */
  lemma InOrderIsTaken(cx: Context, s: Tcb, seg: Segment, isn: SeqNumber)
    requires Inv(s) && Accepts(s, seg) && WireOk(seg) && CheckAck(s, seg).AckAccept? && RxOpen(s.state)
    requires seg.control.NoFlag? || seg.control.Psh?
    requires seg.seqNo == NextExpected(s) && 0 < |seg.payload| <= s.rx.Window()
    ensures var r := Process(cx, s, seg, isn).s;
      && Inv(r) && s.rx.Data() + seg.payload <= r.rx.Data()
      && (s.assembler.Nil? ==> r.rx.Data() == s.rx.Data() + seg.payload && r.remoteSeq == s.remoteSeq)
  {
    hide SynOk, ShapeOk, ProcessAccepted, CheckAck, Asm.Valid, Asm.Extent;
    ProcessKeepsInv(cx, s, seg, isn);
    assert SegmentAt(s, seg) == 0;
    AcceptanceIsRfc(s, seg);
    var (payload, offset) := Overlap(s, seg);
    assert payload == seg.payload && offset == 0;
    hide Overlap, SegmentInWindow, Ring.Data;
    AcceptedInOrder(cx, s, seg, isn);
  }

  lemma AcceptedInOrder(cx: Context, s: Tcb, seg: Segment, isn: SeqNumber)
    requires Inv(s) && WireOk(seg) && CheckAck(s, seg).AckAccept? && RxOpen(s.state)
    requires seg.control.NoFlag? || seg.control.Psh?
    requires 0 < |seg.payload| <= s.rx.Window()
    ensures var r := ProcessAccepted(cx, s, seg, seg.payload, 0, isn).s;
      && r.rx.Valid() && s.rx.Data() + seg.payload <= r.rx.Data()
      && (s.assembler.Nil? ==> r.rx.Data() == s.rx.Data() + seg.payload && r.remoteSeq == s.remoteSeq)
  {
    hide SynOk, ShapeOk, CheckAck, AckedBy, TakeRtt, ApplyAck, ApplyPayload, StorePayload, Asm.Valid, Asm.Extent;
    hide Ring.Data, OnPlain;
    var s0 := TakeRtt(cx, s, seg);
    var ack := AckedBy(s, seg);
    PlainGoes(cx, s0, ack);
    var next := OnPlain(cx, s0, ack);
    var s2 := ApplyAck(cx, next.s, seg, ack.len);
    ApplyAckReceiver(cx, next.s, seg, ack.len);
    ApplyPayloadFrame(cx, s2, seg, seg.payload, 0);
    StoredAtFront(s2, seg.payload);
  }

  lemma PlainGoes(cx: Context, s: Tcb, ack: AckInfo)
    requires RxOpen(s.state)
    ensures var next := OnPlain(cx, s, ack);
      && next.Go? && next.s.rx == s.rx && next.s.assembler == s.assembler && next.s.tx == s.tx
      && next.s.remoteSeq == s.remoteSeq
  {
  }

  // ---- the handshake ----

  /** A socket that has not been told to give up, and has nothing to send. */
  predicate Patient(s: Tcb) {
    Inv(s) && Quiet(s) && s.timeout.None? && s.tx.length == 0 && s.rx.length == 0
  }

  /** The advertised MSS does not come out as 0, which the peer would ignore. */
  predicate MssOk(cx: Context, s: Tcb) {
    s.tuple.Some? && CxOk(cx, s) && LocalMss(cx, s) % 0x1_0000 != 0
  }

  /** What a socket has learnt from its peer's SYN, and the shift it uses itself. */
  predicate SameTerms(s: Tcb, r: Tcb) {
    r.remoteMss == s.remoteMss && r.remoteWinScale == s.remoteWinScale && r.remoteWinShift == s.remoteWinShift
  }

  /** The terms are those of the SYN. */
  predicate TermsOf(s: Tcb, r: Tcb, syn: Segment) {
    && syn.maxSegSize == Some(r.remoteMss) && r.remoteWinScale == syn.windowScale
    && r.remoteWinShift == if syn.windowScale.Some? then s.remoteWinShift else 0
  }

  lemma NothingBefore(cx: Context, s: Tcb)
    requires Patient(s) && s.tuple.Some? && CxOk(cx, s)
    requires SeqToTransmit(cx, StartClock(s, cx.now)) || !IsRetransmit(s.timer)
    ensures BeforeSend(cx, s) == StartClock(s, cx.now)
  {
    hide SynOk, SeqToTransmit, Asm.Valid, Asm.Extent;
  }

  /** A SYN that has not been sent goes out, and only `remoteLastSeq` moves past it. */
  lemma SynGoesOut(cx: Context, s: Tcb)
    requires Patient(s) && SentSyn(s.state) && s.remoteLastSeq == s.localSeq && MssOk(cx, s)
    ensures var d := Dispatch(cx, s, true);
      && d.out == Some(SynSegment(cx, StartClock(s, cx.now)))
      && Patient(d.s) && d.s.state == s.state && d.s.tuple == s.tuple && d.s.ackDelayTimer.AckIdle?
      && d.s.localSeq == s.localSeq && d.s.remoteLastSeq == Add(s.localSeq, 1) && d.s.remoteSeq == s.remoteSeq
      && d.s.rtte == OnSend(s.rtte, cx.now, Add(s.localSeq, 1)) && SameTerms(s, d.s)
  {
    hide SynOk, Asm.Valid, Asm.Extent, AfterSend, Outgoing, SynSegment, InitialShift, OnSend;
    var s1 := StartClock(s, cx.now);
    StartClockKeepsInv(s, cx.now);
    assert SeqToTransmit(cx, s1);
    NothingBefore(cx, s);
    BeforeSendKeepsInv(cx, s);
    assert WhatToDo(cx, s1).SendSegment?;
    DispatchKeepsInv(cx, s, true);
    hide SeqToTransmit, WhatToDo, BeforeSend;
    SynSentFields(cx, s1);
  }

  lemma SynSentFields(cx: Context, s: Tcb)
    requires Patient(s) && SentSyn(s.state) && s.remoteLastSeq == s.localSeq && s.tuple.Some? && CxOk(cx, s)
    requires WhatToDo(cx, s).SendSegment?
    ensures Outgoing(cx, s) == SynSegment(cx, s)
    ensures var r := AfterSend(cx, s);
      && Quiet(r) && r.timeout == s.timeout && r.tx == s.tx && r.rx == s.rx && r.state == s.state && r.tuple == s.tuple
      && r.ackDelayTimer.AckIdle? && r.localSeq == s.localSeq && r.remoteSeq == s.remoteSeq
      && r.remoteLastSeq == Add(s.localSeq, 1) && r.rtte == OnSend(s.rtte, cx.now, Add(s.localSeq, 1))
      && SameTerms(s, r)
  {
    hide SynOk, Asm.Valid, Asm.Extent, WhatToDo, SeqToTransmit, OnSend, RetransmissionTimeout, ScaledWindow;
  }

  /** A SYN opens a listener. */
  lemma ListenerTakesSyn(cx: Context, s: Tcb, syn: Segment, isn: SeqNumber)
    requires Patient(s) && s.state.Listen? && Accepts(s, syn) && WireOk(syn)
    requires syn.control.Syn? && syn.ack.None? && syn.maxSegSize.Some? && syn.maxSegSize.value != 0
    ensures var r := Process(cx, s, syn, isn).s;
      && Patient(r) && r.state.SynReceived? && r.localSeq == isn && r.remoteLastSeq == isn
      && r.remoteSeq == Add(syn.seqNo, 1) && r.tuple == Some(Tuple(syn.dst, syn.src))
      && TermsOf(s, r, syn)
  {
    hide SynOk, ShapeOk, Asm.Valid, Asm.Extent, AckedBy, RemoteWindow, SegmentInWindow, Overlap, ChallengeAckReply;
    ProcessKeepsInv(cx, s, syn, isn);
  }

  /** The SYN|ACK that answers our SYN establishes the connection and is to be acknowledged. */
  lemma ConnectorTakesSynAck(cx: Context, s: Tcb, synAck: Segment, isn: SeqNumber)
    requires Patient(s) && s.state.SynSent? && Accepts(s, synAck) && WireOk(synAck)
    requires synAck.control.Syn? && synAck.ack == Some(Add(s.localSeq, 1))
    requires synAck.maxSegSize.Some? && synAck.maxSegSize.value != 0
    requires s.remoteLastSeq == Add(s.localSeq, 1) && s.ackDelayTimer.AckIdle?
    ensures var r := Process(cx, s, synAck, isn).s;
      && Patient(r) && r.state.Established? && r.localSeq == Add(s.localSeq, 1) && r.remoteLastSeq == r.localSeq
      && r.remoteSeq == Add(synAck.seqNo, 1) && r.tuple == s.tuple && r.ackDelayTimer.AckIdle?
      && !IsRetransmit(r.timer) && r.remoteLastAck == Some(synAck.seqNo) && r.remoteLastTs.Some?
      && TermsOf(s, r, synAck)
  {
    hide SynOk, ShapeOk, Asm.Valid, Asm.Extent, RemoteWindow, SegmentInWindow, Overlap, ChallengeAckReply, OnAck;
    ProcessKeepsInv(cx, s, synAck, isn);
    SynAckIsAccepted(s, synAck);
    hide CheckAck, AckedBy;
  }

  lemma SynAckIsAccepted(s: Tcb, synAck: Segment)
    requires Inv(s) && s.state.SynSent? && synAck.control.Syn? && synAck.ack == Some(Add(s.localSeq, 1))
    ensures CheckAck(s, synAck).AckAccept? && AckedBy(s, synAck).len == 0
  {
  }

  /** It is acknowledged at once, with an empty segment. */
  lemma AckGoesOut(cx: Context, s: Tcb)
    requires Patient(s) && s.state.Established? && s.tuple.Some? && CxOk(cx, s)
    requires s.remoteLastSeq == s.localSeq && !IsRetransmit(s.timer) && s.remoteLastTs.Some?
    requires s.remoteLastAck.Some? && Add(s.remoteLastAck.value, 1) == s.remoteSeq && s.ackDelayTimer.AckIdle?
    ensures var d := Dispatch(cx, s, true);
      && d.out == Some(BareSegment(s))
      && d.s.state.Established? && d.s.rx == s.rx && d.s.localSeq == s.localSeq && d.s.remoteSeq == s.remoteSeq
      && SameTerms(s, d.s) && d.s.tuple == s.tuple
  {
    hide SynOk, ShapeOk, Asm.Valid, Asm.Extent, ScaledWindow, AfterSend, Outgoing, BareSegment;
    assert StartClock(s, cx.now) == s;
    NothingBefore(cx, s);
    assert AckToTransmit(s) && !SeqToTransmit(cx, s);
    assert WhatToDo(cx, s).SendSegment?;
    hide WhatToDo, SeqToTransmit, BeforeSend;
    EmptyAckFields(cx, s);
  }

  lemma EmptyAckFields(cx: Context, s: Tcb)
    requires Patient(s) && s.state.Established? && s.tuple.Some? && CxOk(cx, s) && s.remoteLastSeq == s.localSeq
    requires WhatToDo(cx, s).SendSegment?
    ensures Outgoing(cx, s) == BareSegment(s)
    ensures var r := AfterSend(cx, s);
      && r.state.Established? && r.rx == s.rx && r.localSeq == s.localSeq && r.remoteSeq == s.remoteSeq
      && SameTerms(s, r) && r.tuple == s.tuple
  {
    hide SynOk, ShapeOk, Asm.Valid, Asm.Extent, WhatToDo, SeqToTransmit, OnSend, RetransmissionTimeout, ScaledWindow;
    GetAllocatedIsPrefix(s.tx, 0, SegmentRoom(cx, s));
  }

  /** The acknowledgement of its SYN|ACK establishes the other end. */
  lemma ListenerTakesAck(cx: Context, s: Tcb, ack: Segment, isn: SeqNumber)
    requires Patient(s) && s.state.SynReceived? && Accepts(s, ack) && WireOk(ack)
    requires ack.control.NoFlag? && ack.payload == [] && ack.ack == Some(Add(s.localSeq, 1)) && ack.seqNo == s.remoteSeq
    ensures var r := Process(cx, s, ack, isn).s;
      && r.state.Established? && r.rx == s.rx && r.localSeq == Add(s.localSeq, 1) && r.remoteSeq == s.remoteSeq
      && SameTerms(s, r) && r.tuple == s.tuple
  {
    hide SynOk, ShapeOk, Asm.Valid, Asm.Extent, RemoteWindow, ChallengeAckReply, OnAck;
    AckOfSynAccepted(s, ack);
    hide CheckAck, AckedBy;
  }

  lemma AckOfSynAccepted(s: Tcb, ack: Segment)
    requires Inv(s) && s.state.SynReceived? && ack.control.NoFlag? && ack.ack == Some(Add(s.localSeq, 1))
    ensures CheckAck(s, ack).AckAccept? && AckedBy(s, ack).len == 0
  {
  }

  /** One dispatch that sends something. */
  function Sends(cx: Context, s: Tcb): (r: Option<(Tcb, Segment)>)
    requires Inv(s)
    ensures r.Some? ==> Inv(r.value.0)
  {
    if !CxOk(cx, s) then None
    else
      DispatchKeepsInv(cx, s, true);
      var d := Dispatch(cx, s, true);
      if d.out.None? then None else Some((d.s, d.out.value))
  }

  /** One segment handed over and accepted. */
  function Takes(cx: Context, s: Tcb, seg: Segment, isn: SeqNumber): (r: Option<Tcb>)
    requires Inv(s)
    ensures r.Some? ==> Inv(r.value)
  {
    if !WireOk(seg) || !Accepts(s, seg) then None
    else
      ProcessKeepsInv(cx, s, seg, isn);
      Some(Process(cx, s, seg, isn).s)
  }

  /** SYN, SYN|ACK, ACK, each sent by one end and delivered to the other. */
  function Handshake(cxA: Context, cxB: Context, a: Tcb, b: Tcb, isn: SeqNumber): Option<(Tcb, Tcb)>
    requires Inv(a) && Inv(b)
  {
    var syn := Sends(cxA, a);
    if syn.None? then None
    else
      var b1 := Takes(cxB, b, syn.value.1, isn);
      if b1.None? then None
      else
        var synAck := Sends(cxB, b1.value);
        if synAck.None? then None
        else
          var a2 := Takes(cxA, syn.value.0, synAck.value.1, isn);
          if a2.None? then None
          else
            var ack := Sends(cxA, a2.value);
            if ack.None? then None
            else
              var b3 := Takes(cxB, synAck.value.0, ack.value.1, isn);
              if b3.None? then None else Some((ack.value.0, b3.value))
  }

  /** The MSS a socket names. */
  function NamedMss(cx: Context, s: Tcb): nat
    requires s.tuple.Some? && CxOk(cx, s)
  {
    LocalMss(cx, s) % 0x1_0000
  }

  /** Each goes by the MSS the other named, and reads its windows with the shift the other applies to them. */
  predicate Agreed(cxA: Context, cxB: Context, a: Tcb, b: Tcb) {
    && a.tuple.Some? && b.tuple.Some? && CxOk(cxA, a) && CxOk(cxB, b)
    && a.remoteMss == NamedMss(cxB, b) && b.remoteMss == NamedMss(cxA, a)
    && a.remoteWinScale == Some(b.remoteWinShift) && b.remoteWinScale == Some(a.remoteWinShift)
  }

  /** Both ends are established, and each expects exactly what the other will send next. */
  predicate Connected(a: Tcb, b: Tcb)
    requires Inv(a) && Inv(b)
  {
    && a.state.Established? && b.state.Established?
    && a.localSeq == NextExpected(b) && b.localSeq == NextExpected(a)
  }

  predicate ListensFor(s: Tcb, at: Endpoint) {
    && s.state.Listen? && at.port != 0 && at.port == s.listenEndpoint.port
    && (s.listenEndpoint.addr.None? || s.listenEndpoint.addr.value == at.addr)
  }

  lemma SynIsHeard(cx: Context, s: Tcb)
    requires Patient(s) && SentSyn(s.state) && MssOk(cx, s) && s.remoteWinShift <= 14
    ensures var syn := SynSegment(cx, s);
      && WireOk(syn) && syn.control.Syn? && syn.seqNo == s.remoteLastSeq
      && syn.maxSegSize == Some(NamedMss(cx, s)) && syn.maxSegSize.value != 0
      && syn.windowScale == (if s.state.SynSent? || s.remoteWinScale.Some? then Some(s.remoteWinShift) else None)
      && syn.src == s.tuple.value.local && syn.dst == s.tuple.value.remote
      && syn.ack == (if s.state.SynSent? then None else Some(NextExpected(s)))
      && NextExpected(s) == s.remoteSeq
  {
    hide SynOk, ShapeOk, Asm.Valid, Asm.Extent, ScaledWindow;
  }

  lemma AckIsHeard(s: Tcb)
    requires Patient(s) && s.tuple.Some?
    ensures var ack := BareSegment(s);
      && WireOk(ack) && ack.control.NoFlag? && ack.payload == [] && ack.seqNo == s.remoteLastSeq
      && ack.ack == Some(s.remoteSeq) && NextExpected(s) == s.remoteSeq
      && ack.src == s.tuple.value.local && ack.dst == s.tuple.value.remote
  {
    hide SynOk, ShapeOk, Asm.Valid, Asm.Extent, Shr;
  }

  lemma StartClockPatient(cx: Context, s: Tcb)
    requires Patient(s)
    ensures Patient(StartClock(s, cx.now))
  {
    hide SynOk, ShapeOk, Asm.Valid, Asm.Extent;
    StartClockKeepsInv(s, cx.now);
  }

  /** The SYN of a connector, or the SYN|ACK of a listener. */
  lemma SynExchanged(cx: Context, s: Tcb)
    requires Patient(s) && SentSyn(s.state) && s.remoteLastSeq == s.localSeq && MssOk(cx, s) && s.remoteWinShift <= 14
    ensures var r := Sends(cx, s);
      && r.Some? && WireOk(r.value.1) && r.value.1.control.Syn? && r.value.1.seqNo == s.localSeq
      && r.value.1.maxSegSize == Some(NamedMss(cx, s)) && r.value.1.maxSegSize.value != 0 && SameTerms(s, r.value.0)
      && r.value.1.windowScale == (if s.state.SynSent? || s.remoteWinScale.Some? then Some(s.remoteWinShift) else None)
      && r.value.1.src == s.tuple.value.local && r.value.1.dst == s.tuple.value.remote
      && r.value.1.ack == (if s.state.SynSent? then None else Some(s.remoteSeq))
      && Patient(r.value.0) && r.value.0.state == s.state && r.value.0.tuple == s.tuple
      && r.value.0.ackDelayTimer.AckIdle? && r.value.0.localSeq == s.localSeq
      && r.value.0.remoteLastSeq == Add(s.localSeq, 1) && r.value.0.remoteSeq == s.remoteSeq
  {
    hide SynOk, ShapeOk, Asm.Valid, Asm.Extent, Dispatch, SynSegment, NextExpected;
    SynGoesOut(cx, s);
    StartClockPatient(cx, s);
    SynIsHeard(cx, StartClock(s, cx.now));
  }

  /**
   Any socket told to connect and any socket listening where it connects to: if their segments arrive,
   three of them connect the two, and they agree on how large segments and windows are.
   */
  lemma HandshakeConnects(cxA: Context, cxB: Context, a: Tcb, b: Tcb, isn: SeqNumber)
    requires Patient(a) && a.state.SynSent? && a.remoteLastSeq == a.localSeq && MssOk(cxA, a) && a.remoteWinShift <= 14
    requires Patient(b) && ListensFor(b, a.tuple.value.remote) && b.remoteWinShift <= 14 && b.tuple.None?
    requires MssOk(cxB, b.(tuple := Some(Tuple(a.tuple.value.remote, a.tuple.value.local))))
    ensures var r := Handshake(cxA, cxB, a, b, isn);
      && r.Some? && Inv(r.value.0) && Inv(r.value.1) && Connected(r.value.0, r.value.1)
      && Agreed(cxA, cxB, r.value.0, r.value.1)
  {
    hide SynOk, ShapeOk, Asm.Valid, Asm.Extent, Dispatch, Process, LocalMss;
    SynExchanged(cxA, a);
    var syn := Sends(cxA, a).value;
    ListenerTakesSyn(cxB, b, syn.1, isn);
    var b1 := Takes(cxB, b, syn.1, isn).value;
    assert MssOk(cxB, b1) by { SameMss(cxB, b1, b.(tuple := b1.tuple)); }
    SynExchanged(cxB, b1);
    var synAck := Sends(cxB, b1).value;
    ConnectorTakesSynAck(cxA, syn.0, synAck.1, isn);
    var a2 := Takes(cxA, syn.0, synAck.1, isn).value;
    LastAck(cxA, cxB, a2, synAck.0, isn);
    var r := Handshake(cxA, cxB, a, b, isn).value;
    SameNamed(cxA, a, r.0);
    SameNamed(cxB, b1, r.1);
  }

  lemma SameNamed(cx: Context, s: Tcb, r: Tcb)
    requires s.tuple.Some? && CxOk(cx, s) && r.tuple == s.tuple
    ensures CxOk(cx, r) && NamedMss(cx, r) == NamedMss(cx, s)
  {
  }

  lemma SameMss(cx: Context, s: Tcb, s': Tcb)
    requires MssOk(cx, s') && s.tuple == s'.tuple
    ensures MssOk(cx, s)
  {
  }

  lemma LastAck(cxA: Context, cxB: Context, a: Tcb, b: Tcb, isn: SeqNumber)
    requires Patient(a) && a.state.Established? && a.tuple.Some? && CxOk(cxA, a)
    requires a.remoteLastSeq == a.localSeq && !IsRetransmit(a.timer) && a.remoteLastTs.Some? && a.ackDelayTimer.AckIdle?
    requires a.remoteLastAck == Some(b.localSeq) && a.remoteSeq == Add(b.localSeq, 1)
    requires Patient(b) && b.state.SynReceived? && b.remoteSeq == a.localSeq
    requires b.tuple == Some(Tuple(a.tuple.value.remote, a.tuple.value.local))
    ensures var ack := Sends(cxA, a);
      && ack.Some?
      && var b3 := Takes(cxB, b, ack.value.1, isn);
         && b3.Some? && Connected(ack.value.0, b3.value)
         && SameTerms(a, ack.value.0) && SameTerms(b, b3.value)
         && ack.value.0.tuple == a.tuple && b3.value.tuple == b.tuple
  {
    hide SynOk, ShapeOk, Asm.Valid, Asm.Extent, Dispatch, Process, BareSegment;
    AckGoesOut(cxA, a);
    AckIsHeard(a);
    var ack := Sends(cxA, a).value;
    ListenerTakesAck(cxB, b, ack.1, isn);
  }
}
