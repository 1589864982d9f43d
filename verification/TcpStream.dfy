/**
 One direction of a connection as byte streams. `SenderOk` ties a socket's transmit side to everything
 its application ever enqueued, `ReceiverOk` its receive side to what the peer's application enqueued.
 Positions count from the initial sequence number: SYN at 0, octet i at i + 1, FIN after the last octet.
 */
module TcpStream {
  import opened Common
  import opened SeqNumbers
  import opened RingBuffer
  import opened Tcp
  import opened TcpProcess
  import opened TcpInvariant
  import Asm = AssemblerList

  /** Streams shorter than 2^30 octets keep all positions of a connection within half the space. */
  const MAX_STREAM: nat := 0x4000_0000

  // ---- sender ----

  /** The states in which data may be buffered or in flight. */
  predicate DataState(st: State) {
    st.Established? || st.CloseWait? || SentFin(st)
  }

  predicate FinAcked(st: State) {
    st.FinWait2? || st.TimeWait?
  }

  /** The position of the first unacknowledged octet. */
  function Una(s: Tcb, iss: SeqNumber): nat {
    Off(s.localSeq, iss)
  }

  /** `close` was called in SYN-RECEIVED: a FIN is wanted while the SYN is still unacknowledged. */
  predicate ClosedEarly(s: Tcb, iss: SeqNumber) {
    SentFin(s.state) && s.localSeq == iss
  }

  predicate SenderOk(s: Tcb, iss: SeqNumber, sent: seq<Byte>)
    requires s.tx.Valid()
  {
    && |sent| < MAX_STREAM
    && (s.state.Listen? ==> sent == [])
    && (SentSyn(s.state) ==> s.localSeq == iss && sent == [])
    && (DataState(s.state) ==>
          if ClosedEarly(s, iss) then sent == [] && s.tx.length == 0
          else
            && 1 <= Una(s, iss) && Una(s, iss) - 1 + s.tx.length == |sent|
            && s.tx.Data() == sent[Una(s, iss) - 1..])
    && (FinAcked(s.state) ==> Una(s, iss) == |sent| + 2 || (sent == [] && Una(s, iss) == 1))
  }

  /** Positions and wrapping differences agree. */
  lemma OffPlus(a: SeqNumber, b: SeqNumber, origin: SeqNumber)
    requires 0 <= Off(b, origin) + Diff(a, b) < MODULUS
    ensures Off(a, origin) == Off(b, origin) + Diff(a, b)
  {
  }

  lemma DropDrop(s: seq<Byte>, a: nat, n: nat)
    requires a + n <= |s|
    ensures s[a..][n..] == s[a + n..]
  {
  }

  /** An accepted acknowledgement moves the sender along its stream. */
  lemma AckMovesAlong(cx: Context, s: Tcb, s1: Tcb, seg: Segment, iss: SeqNumber, sent: seq<Byte>)
    requires Inv(s) && SenderOk(s, iss, sent)
    requires CheckAck(s, seg).AckAccept? && !seg.control.Rst? && Synchronised(s.state)
    requires AllowedAfter(s, s1.state, AckedBy(s, seg)) && s1.tx == s.tx && !s1.state.Listen?
    ensures ApplyAck(cx, s1, seg, AckedBy(s, seg).len).tx.Valid()
    ensures SenderOk(ApplyAck(cx, s1, seg, AckedBy(s, seg).len), iss, sent)
  {
    hide AckedBy, CheckAck, ApplyAck, SynOk, Off, Diff, Ring.Data, SenderOk, AllowedAfter;
    AckFacts(s, seg);
    var ack := AckedBy(s, seg);
    ApplyAckShape(cx, s1, seg, ack.len);
    AckedOk(s, ApplyAck(cx, s1, seg, ack.len), ack, Diff(seg.ack.value, s.localSeq), iss, sent);
  }

  lemma AckedOk(s: Tcb, r: Tcb, ack: AckInfo, d: int, iss: SeqNumber, sent: seq<Byte>)
    requires Inv(s) && SenderOk(s, iss, sent) && ack.len <= s.tx.length
    requires AllowedAfter(s, r.state, ack) && !r.state.Listen? && r.tx.Valid()
    requires d == Diff(r.localSeq, s.localSeq) && r.tx.Data() == s.tx.Data()[ack.len..]
    requires r.tx.length == s.tx.length - ack.len
    requires if s.state.SynReceived? then d == 1 && ack.len == 0 && !ack.ofFin
             else
               && d == ack.len + (if ack.ofFin then 1 else 0)
               && (ack.ofFin <==> SentFin(s.state) && d == s.tx.length + 1)
    ensures SenderOk(r, iss, sent)
  {
    hide SynOk, Diff, Off, Asm.Valid, Asm.Extent;
    var una := Una(s, iss);
    OffSelf(iss);
    OffPlus(r.localSeq, s.localSeq, iss);
    DiffZero(r.localSeq, s.localSeq);
    if DataState(s.state) && !ClosedEarly(s, iss) {
      DropDrop(sent, una - 1, ack.len);
      assert r.localSeq == iss ==> Una(r, iss) == 0;
    } else if SentSyn(s.state) {
      assert s.tx.Data() == [] && sent[0..] == [];
    }
  }

  lemma OffSelf(a: SeqNumber)
    ensures Off(a, a) == 0
  {
  }

  lemma DiffZero(a: SeqNumber, b: SeqNumber)
    ensures Diff(a, b) == 0 <==> a == b
  {
  }

  // ---- what process does, in the terms both streams need ----

  /** The FIN arm, and every other arm that goes on, as far as the receiver is concerned. */
  predicate ReceiverShape(s: Tcb, s1: Tcb, fin: bool)
    requires s.rx.Valid() && s.rx.Capacity() <= MAX_RX_CAPACITY
  {
    if fin then
      && (s.state.SynReceived? || s.state.Established? || s.state.FinWait1? || s.state.FinWait2?)
      && (s1.state.CloseWait? || s1.state.Closing? || s1.state.TimeWait?)
      && s1.remoteSeq == Add(s.remoteSeq, 1) && s1.rxFin
    else
      && s1.remoteSeq == s.remoteSeq && s1.rxFin == s.rxFin
      && (RxOpen(s.state) <==> RxOpen(s1.state) && !s1.state.Closed?)
  }

  /** The states in which the peer's FIN has not been taken. */
  predicate RxOpen(st: State) {
    st.SynReceived? || st.Established? || st.FinWait1? || st.FinWait2?
  }

  lemma SyncTransition(cx: Context, s: Tcb, seg: Segment, ack: AckInfo, isn: SeqNumber)
    requires Inv(s) && Synchronised(s.state) && !seg.control.Rst? && (ack.ofFin ==> SentFin(s.state))
    ensures var control := EffectiveControl(s, seg);
      var next := Transition(cx, s, seg, control, ack, isn);
      if next.Stop? then next.s == s
      else TransitionShape(s, next.s, ack) && ReceiverShape(s, next.s, control.Fin?)
  {
    hide SynOk, TransitionShape, ReceiverShape, OnFin, OnPlain, Asm.Valid, Asm.Extent;
    var control := EffectiveControl(s, seg);
    if control.Fin? {
      if OnFin(cx, s, ack.ofFin).Go? {
        OnFinShape(cx, s, ack);
      }
      FinReceives(cx, s, ack.ofFin);
    } else if !control.Syn? {
      if OnPlain(cx, s, ack).Go? {
        OnPlainShape(cx, s, ack);
      }
      PlainReceives(cx, s, ack);
    }
  }

  lemma FinReceives(cx: Context, s: Tcb, ackOfFin: bool)
    requires s.rx.Valid() && s.rx.Capacity() <= MAX_RX_CAPACITY
    ensures var next := OnFin(cx, s, ackOfFin);
      if next.Stop? then next.s == s else ReceiverShape(s, next.s, true)
  {
  }

  lemma PlainReceives(cx: Context, s: Tcb, ack: AckInfo)
    requires s.rx.Valid() && s.rx.Capacity() <= MAX_RX_CAPACITY
    ensures var next := OnPlain(cx, s, ack);
      if next.Stop? then next.s == s else ReceiverShape(s, next.s, false)
  {
  }

  /** Taking a payload leaves everything but the receive side and the acknowledgement schedule alone. */
  lemma ApplyPayloadFrame(cx: Context, s: Tcb, seg: Segment, payload: seq<Byte>, offset: nat)
    requires s.rx.Valid() && s.rx.Capacity() <= MAX_RX_CAPACITY
    requires Asm.Valid(s.assembler) && Asm.Extent(s.assembler) <= s.rx.Window()
    requires payload != [] ==> offset + |payload| <= s.rx.Window()
    ensures var r := ApplyPayload(cx, s, seg, payload, offset);
      && r.s == s.(rx := r.s.rx, assembler := r.s.assembler, ackDelayTimer := r.s.ackDelayTimer,
                   remoteLastAck := r.s.remoteLastAck, remoteLastWin := r.s.remoteLastWin)
      && (if payload == [] || StorePayload(s, payload, offset).None?
          then r.s.rx == s.rx && r.s.assembler == s.assembler && r.reply.None?
          else
            var stored := StorePayload(s, payload, offset).value;
            && r.s.rx == stored.rx && r.s.assembler == stored.assembler
            && (r.reply.Some? ==> r.reply.value == AckSegment(r.s, seg)))
  {
    hide StorePayload, Shr, Diff, Asm.Valid, Asm.Extent;
  }

  /** `SenderOk` looks at the state, the transmit buffer and `localSeq` only. */
  lemma SenderFrame(s: Tcb, s': Tcb, iss: SeqNumber, sent: seq<Byte>)
    requires s.tx.Valid() && SenderOk(s, iss, sent)
    requires s'.tx == s.tx && s'.localSeq == s.localSeq
    requires s'.state == s.state || s'.state.Closed? || (s'.state.Listen? && SentSyn(s.state))
    ensures SenderOk(s', iss, sent)
  {
    assert Una(s', iss) == Una(s, iss);
    hide Ring.Data, Ring.Valid, Una;
  }

  /** A SYN in LISTEN starts the stream at the initial number handed to it. */
  lemma SenderListens(cx: Context, s: Tcb, seg: Segment, iss: SeqNumber, sent: seq<Byte>)
    requires Inv(s) && SenderOk(s, iss, sent) && s.state.Listen? && seg.ack.None?
    ensures var next := OnListenSyn(cx, s, seg, iss);
      if next.Go? then next.s.tx == s.tx && SenderOk(ApplyAck(cx, next.s, seg, 0), iss, sent) else next.s == s
  {
    hide SynOk, Asm.Valid, Asm.Extent, RemoteWindow, Ring.Data, Off, Diff;
  }

  /** A SYN|ACK in SYN-SENT acknowledges our SYN. */
  lemma SenderConnects(cx: Context, s: Tcb, seg: Segment, iss: SeqNumber, sent: seq<Byte>)
    requires Inv(s) && SenderOk(s, iss, sent) && s.state.SynSent? && seg.ack == Some(Add(s.localSeq, 1))
    ensures var next := OnSynSentSyn(cx, s, seg);
      if next.Go? then next.s.tx == s.tx && SenderOk(ApplyAck(cx, next.s, seg, 0), iss, sent) else next.s == s
  {
    hide SynOk, Asm.Valid, Asm.Extent, RemoteWindow, Off, Diff;
    OffSelf(iss);
    OffAdd(iss, iss, 1);
  }

  lemma SynAckNumber(s: Tcb, seg: Segment)
    requires Wf(s) && s.state.SynSent? && seg.control.Syn? && CheckAck(s, seg).AckAccept?
    ensures seg.ack == Some(Add(s.localSeq, 1)) && AckedBy(s, seg).len == 0
  {
  }

  /** Handing the right initial number to a SYN in LISTEN, or taking a SYN|ACK in SYN-SENT. */
  lemma SenderOpens(cx: Context, s: Tcb, seg: Segment, isn: SeqNumber, iss: SeqNumber, sent: seq<Byte>)
    requires Inv(s) && SenderOk(s, iss, sent) && WireOk(seg)
    requires CheckAck(s, seg).AckAccept? && seg.control.Syn?
    requires (s.state.Listen? && seg.ack.None? && isn == iss) || s.state.SynSent?
    ensures var next := Transition(cx, s, seg, Syn, AckedBy(s, seg), isn);
      if next.Go? then SenderOk(ApplyAck(cx, next.s, seg, AckedBy(s, seg).len), iss, sent) else next.s == s
  {
    hide AckedBy, CheckAck, SynOk, ShapeOk, SenderOk, ApplyAck, OnListenSyn, OnSynSentSyn, Asm.Valid, Asm.Extent;
    if s.state.Listen? {
      NoAckLen(s, seg);
      SenderListens(cx, s, seg, iss, sent);
    } else {
      SynAckNumber(s, seg);
      SenderConnects(cx, s, seg, iss, sent);
    }
  }

  /** The sending side follows its stream through any segment at all. */
  lemma SenderAccepted(cx: Context, s: Tcb, seg: Segment, payload: seq<Byte>, offset: nat, isn: SeqNumber,
                       iss: SeqNumber, sent: seq<Byte>)
    requires Inv(s) && SenderOk(s, iss, sent) && WireOk(seg) && CheckAck(s, seg).AckAccept? && !s.state.Closed?
    requires s.state.Listen? ==> seg.ack.None? && isn == iss
    requires payload != [] ==> offset + |payload| <= s.rx.Window()
    ensures ProcessAccepted(cx, s, seg, payload, offset, isn).s.tx.Valid()
    ensures SenderOk(ProcessAccepted(cx, s, seg, payload, offset, isn).s, iss, sent)
  {
    hide AckedBy, CheckAck, SynOk, ShapeOk, Transition, TakeRtt, ApplyAck, SenderOk, ReceiverShape;
    hide Asm.Valid, Asm.Extent;
    var s0 := TakeRtt(cx, s, seg);
    TakeRttKeepsInv(cx, s, seg);
    AckedByIgnoresRtt(s, s0, seg);
    SenderFrame(s, s0, iss, sent);
    var ack := AckedBy(s, seg);
    var control := EffectiveControl(s, seg);
    assert control == EffectiveControl(s0, seg);
    var next := Transition(cx, s0, seg, control, ack, isn);
    if seg.control.Rst? {
      SenderRst(s0, iss, sent);
      RstStops(cx, s0, seg, ack, isn);
    } else if Synchronised(s.state) {
      SyncTransition(cx, s0, seg, ack, isn);
      if next.Go? {
        AckMovesAlong(cx, s0, next.s, seg, iss, sent);
      }
    } else if control.Syn? {
      SenderOpens(cx, s0, seg, isn, iss, sent);
    } else {
      UnsynchronisedStops(cx, s0, seg, ack, isn);
    }
    AcceptedGoKeepsInv(cx, s, seg, isn);
    if next.Go? {
      var s2 := ApplyAck(cx, next.s, seg, ack.len);
      AppliedPayloadSender(cx, s2, seg, payload, offset, iss, sent);
    }
  }

  lemma RstStops(cx: Context, s: Tcb, seg: Segment, ack: AckInfo, isn: SeqNumber)
    ensures Transition(cx, s, seg, Rst, ack, isn) == Stop(OnRst(s)) && OnRst(s).tx == s.tx
  {
  }

  lemma SenderRst(s: Tcb, iss: SeqNumber, sent: seq<Byte>)
    requires s.tx.Valid() && SenderOk(s, iss, sent)
    ensures SenderOk(OnRst(s), iss, sent)
  {
  }

  lemma UnsynchronisedStops(cx: Context, s: Tcb, seg: Segment, ack: AckInfo, isn: SeqNumber)
    requires Inv(s) && (s.state.Listen? || s.state.SynSent?) && !seg.control.Rst? && !seg.control.Syn?
    ensures Transition(cx, s, seg, EffectiveControl(s, seg), ack, isn) == Stop(s)
  {
  }

  lemma AppliedPayloadSender(cx: Context, s: Tcb, seg: Segment, payload: seq<Byte>, offset: nat,
                             iss: SeqNumber, sent: seq<Byte>)
    requires Inv(s) && SenderOk(s, iss, sent)
    requires payload != [] ==> offset + |payload| <= s.rx.Window()
    ensures ApplyPayload(cx, s, seg, payload, offset).s.tx.Valid()
    ensures SenderOk(ApplyPayload(cx, s, seg, payload, offset).s, iss, sent)
  {
    ApplyPayloadFrame(cx, s, seg, payload, offset);
    hide ApplyPayload, StorePayload;
    SenderFrame(s, ApplyPayload(cx, s, seg, payload, offset).s, iss, sent);
  }

  // ---- receiver ----

  /** Queue and recorded ranges agree with the peer's stream, of which `read` has been handed out. */
  ghost predicate Holds(rx: Ring, asm: Asm.Contigs, read: seq<Byte>, peer: seq<Byte>)
    requires rx.Valid()
  {
    && |read| + rx.length <= |peer|
    && read + rx.Data() == peer[..|read| + rx.length]
    && forall o: int {:trigger Asm.Has(asm, o)} :: Asm.Has(asm, o) ==> Placed(rx, o, |read| + rx.length, peer)
  }

  /** The octet at offset `o` of the free region is the peer's octet `o` past position `n`. */
  predicate Placed(rx: Ring, o: int, n: nat, peer: seq<Byte>)
    requires rx.Valid()
  {
    0 <= o < rx.Window() && n + o < |peer| && rx.Free()[o] == peer[n + o]
  }

  /** `read` is what the application has been given; `peer` all that the peer's has enqueued. */
  ghost predicate ReceiverOk(s: Tcb, irs: SeqNumber, peer: seq<Byte>, peerClosed: bool, read: seq<Byte>)
    requires s.rx.Valid()
  {
    if s.state.Closed? then
      read + s.rx.Data() <= peer && (s.rxFin ==> peerClosed && read + s.rx.Data() == peer)
    else if s.state.Listen? || s.state.SynSent? then
      read == [] && !s.rxFin && s.assembler.Nil?
    else
      && Holds(s.rx, s.assembler, read, peer)
      && Off(s.remoteSeq, irs) == 1 + |read| + (if s.rxFin then 1 else 0)
      && (s.rxFin <==> !RxOpen(s.state))
      && (s.rxFin ==> peerClosed && |read| + s.rx.length == |peer|)
      && (s.state.SynReceived? ==> read == [] && s.assembler.Nil?)
  }

  /** The position of a segment in its sender's stream. */
  function PosOf(seg: Segment, iss: SeqNumber): nat {
    Off(seg.seqNo, iss)
  }

  /** What a segment of the peer carries, and that it stays within `room` octets of the stream. */
  predicate CarriesStream(seg: Segment, iss: SeqNumber, sent: seq<Byte>, closed: bool, room: nat) {
    var k := PosOf(seg, iss);
    && k <= |sent| + 2
    && (seg.payload != [] ==>
          && 1 <= k && k - 1 + |seg.payload| <= |sent| && k - 1 + |seg.payload| <= room
          && seg.payload == sent[k - 1..k - 1 + |seg.payload|])
    && (seg.control.Fin? ==> closed && (k - 1 + |seg.payload| == |sent| || (k == 0 && sent == [])))
  }

  lemma StoredByte(rx: Ring, rx1: Ring, asm: Asm.Contigs, payload: seq<Byte>, offset: nat, o: int,
                   read: seq<Byte>, peer: seq<Byte>)
    requires rx.Valid() && rx1.Valid() && Holds(rx, asm, read, peer)
    requires offset + |payload| <= rx.Window() && rx1.Free() == Splice(rx.Free(), offset, payload)
    requires rx1.length == rx.length && rx1.Capacity() == rx.Capacity()
    requires var n := |read| + rx.length;
      n + offset + |payload| <= |peer| && payload == peer[n + offset..n + offset + |payload|]
    requires Asm.Has(asm, o) || offset <= o < offset + |payload|
    ensures Placed(rx1, o, |read| + rx.length, peer)
  {
    if !(offset <= o < offset + |payload|) {
      assert Placed(rx, o, |read| + rx.length, peer);
    }
    hide Ring.Free, Ring.Data, Asm.Has;
  }

  lemma TakeMore(read: seq<Byte>, data: seq<Byte>, more: seq<Byte>, peer: seq<Byte>)
    requires |read| + |data| + |more| <= |peer| && read + data == peer[..|read| + |data|]
    requires forall i :: 0 <= i < |more| ==> more[i] == peer[|read| + |data| + i]
    ensures read + (data + more) == peer[..|read| + |data| + |more|]
  {
    assert read + (data + more) == (read + data) + more;
  }

  /** Storing a piece of the stream keeps the receive side on the stream. */
  lemma StoreHolds(s: Tcb, payload: seq<Byte>, offset: nat, read: seq<Byte>, peer: seq<Byte>)
    requires s.rx.Valid() && Asm.Valid(s.assembler) && Asm.Extent(s.assembler) <= s.rx.Window()
    requires payload != [] && offset + |payload| <= s.rx.Window()
    requires Holds(s.rx, s.assembler, read, peer)
    requires var n := |read| + s.rx.length;
      n + offset + |payload| <= |peer| && payload == peer[n + offset..n + offset + |payload|]
    ensures var r := StorePayload(s, payload, offset);
      && (offset == 0 ==> r.Some?)
      && (r.Some? ==>
            && Holds(r.value.rx, r.value.assembler, read, peer)
            && (offset == 0 ==> r.value.rx.length >= s.rx.length + |payload|))
  {
    var r := StorePayload(s, payload, offset);
    Asm.AddThenRemoveFrontMeaning(s.assembler, offset, |payload|);
    WriteUnallocatedWrites(s.rx, offset, payload);
    if r.Some? {
      var (asm, contig) := Asm.AddThenRemoveFront(s.assembler, offset, |payload|).value;
      var (rx1, _) := WriteUnallocated(s.rx, offset, payload);
      var n := |read| + s.rx.length;
      AllPlaced(s.rx, rx1, s.assembler, payload, offset, n, read, peer);
      hide WriteUnallocated, Asm.AddThenRemoveFront, Asm.Valid, Asm.Extent, Asm.Has;
      hide Ring.Data, Ring.Free, Splice, Holds, Placed, EnqueueUnallocated;
      TakenHolds(s.rx, rx1, asm, contig, n, read, peer);
    }
  }

  lemma AllPlaced(rx: Ring, rx1: Ring, asm: Asm.Contigs, payload: seq<Byte>, offset: nat, n: nat,
                  read: seq<Byte>, peer: seq<Byte>)
    requires rx.Valid() && rx1.Valid() && Holds(rx, asm, read, peer) && n == |read| + rx.length
    requires offset + |payload| <= rx.Window() && rx1.Free() == Splice(rx.Free(), offset, payload)
    requires rx1.length == rx.length && rx1.Capacity() == rx.Capacity()
    requires n + offset + |payload| <= |peer| && payload == peer[n + offset..n + offset + |payload|]
    ensures read + rx.Data() == peer[..n] && n <= |peer|
    ensures forall o: int :: Asm.Has(asm, o) || offset <= o < offset + |payload| ==> Placed(rx1, o, n, peer)
  {
    hide Ring.Data, Ring.Free, Placed;
    forall o: int | Asm.Has(asm, o) || offset <= o < offset + |payload|
      ensures Placed(rx1, o, n, peer)
    {
      StoredByte(rx, rx1, asm, payload, offset, o, read, peer);
    }
  }

  /** What is taken from the free region continues the stream. */
  lemma TakenData(rx: Ring, contig: nat, n: nat, read: seq<Byte>, peer: seq<Byte>)
    requires rx.Valid() && contig <= rx.Window() && n == |read| + rx.length <= |peer|
    requires read + rx.Data() == peer[..n]
    requires forall i :: 0 <= i < contig ==> Placed(rx, i, n, peer)
    ensures n + contig <= |peer| && read + (rx.Data() + rx.Free()[..contig]) == peer[..n + contig]
  {
    hide Ring.Data, Ring.Free;
    var more := rx.Free()[..contig];
    assert contig > 0 ==> Placed(rx, contig - 1, n, peer);
    forall i | 0 <= i < contig
      ensures more[i] == peer[n + i]
    {
      assert Placed(rx, i, n, peer);
    }
    TakeMore(read, rx.Data(), more, peer);
  }

  /** What stays recorded moves down with the free region. */
  lemma MovedDown(rx: Ring, rx2: Ring, contig: nat, n: nat, peer: seq<Byte>, o: nat)
    requires rx.Valid() && rx2.Valid() && contig <= rx.Window() && rx2.Free() == rx.Free()[contig..]
    requires Placed(rx, o + contig, n, peer)
    ensures Placed(rx2, o, n + contig, peer)
  {
    hide Ring.Free;
  }

  /** The front run moves into the queue, the rest of the recorded ranges moves down. */
  lemma TakenHolds(rx: Ring, rx1: Ring, asm: Asm.Contigs, contig: nat, n: nat, read: seq<Byte>, peer: seq<Byte>)
    requires rx.Valid() && rx1.Valid() && rx1.length == rx.length && rx1.Data() == rx.Data()
    requires contig <= rx1.Window() && n == |read| + rx.length <= |peer|
    requires read + rx.Data() == peer[..n]
    requires forall i :: 0 <= i < contig ==> Placed(rx1, i, n, peer)
    requires forall o: int {:trigger Asm.Has(asm, o)} ::
        o >= 0 && Asm.Has(asm, o) ==> Placed(rx1, o + contig, n, peer)
    ensures Holds(EnqueueUnallocated(rx1, contig), asm, read, peer)
  {
    hide Ring.Data, Ring.Free, Asm.Has, Placed;
    var rx2 := EnqueueUnallocated(rx1, contig);
    EnqueueUnallocatedTakes(rx1, contig);
    TakenData(rx1, contig, n, read, peer);
    forall o: int | Asm.Has(asm, o)
      ensures Placed(rx2, o, n + contig, peer)
    {
      Asm.HasBounds(asm, o);
      MovedDown(rx1, rx2, contig, n, peer, o);
    }
  }
}
