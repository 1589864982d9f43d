/**
 Two sockets over any network: every packet of a connection fits the MTU of both ends. The MSS an end names in its SYN
 is what its MTU leaves, and the other end keeps to it.
 */
module TcpMtu {
  import opened Common
  import opened SeqNumbers
  import opened RingBuffer
  import opened Tcp
  import opened TcpProcess
  import opened TcpDispatch
  import opened TcpInvariant
  import opened TcpStream
  import opened TcpReceiver
  import opened TcpSide
  import opened TcpEgress
  import opened TcpSystem
  import opened TcpPeer
  import Asm = AssemblerList

  /** The headers of a packet sent from here. */
  function Headers(e: Endpoint): nat {
    HeaderLen(e.addr) + 20
  }

  predicate OneFamily(a: Endpoint, b: Endpoint) {
    a.addr.V4? == b.addr.V4?
  }

  /** A segment from an end with MTU `mine` to one with MTU `theirs`. */
  predicate Fits(seg: Segment, mine: nat, theirs: nat) {
    && OneFamily(seg.src, seg.dst)
    && (seg.payload != [] ==> Headers(seg.src) + |seg.payload| <= MinOf(mine, theirs))
    && (seg.control.Syn? ==>
          && seg.maxSegSize.Some? && Headers(seg.src) + seg.maxSegSize.value <= mine
          && (mine - Headers(seg.src) <= 0xffff ==> Headers(seg.src) + seg.maxSegSize.value == mine))
  }

  predicate AllFit(segs: set<Segment>, mine: nat, theirs: nat) {
    forall seg :: seg in segs ==> Fits(seg, mine, theirs)
  }

  /** The socket goes by an MSS that fits the other end's MTU. */
  predicate EndFits(s: Tcb, theirs: nat) {
    && (s.tuple.Some? ==> OneFamily(s.tuple.value.local, s.tuple.value.remote))
    && (Synchronised(s.state) && s.tuple.Some? ==> Headers(s.tuple.value.local) + s.remoteMss <= theirs)
  }

  lemma DeliverFits(cx: Context, s: Tcb, seg: Segment, isn: SeqNumber, mine: nat, theirs: nat)
    requires Inv(s) && EndFits(s, theirs) && Fits(seg, theirs, mine) && Accepts(s, seg) && WireOk(seg)
    ensures EndFits(Process(cx, s, seg, isn).s, theirs)
  {
    hide SynOk, ShapeOk, Wf, Process, Inv, InitialShift;
    if Synchronised(s.state) {
      ArrivePeer(cx, s, seg, isn);
    } else {
      OpeningPeer(cx, s, seg, isn);
    }
    TupleAfter(cx, s, seg, isn);
  }

  lemma TupleAfter(cx: Context, s: Tcb, seg: Segment, isn: SeqNumber)
    requires Inv(s) && Accepts(s, seg) && WireOk(seg)
    ensures var r := Process(cx, s, seg, isn).s;
      r.tuple == s.tuple || r.tuple.None? || r.tuple == Some(Tuple(seg.dst, seg.src))
  {
    hide SynOk, ShapeOk, CheckAck, ProcessAccepted, Overlap, SegmentInWindow, AckSegment, NextExpected, ScaledWindow;
    hide Asm.Valid, Asm.Extent, RstReply;
    if CheckAck(s, seg).AckAccept? {
      if s.state.Listen? || s.state.SynSent? {
        AcceptedTuple(cx, s, seg, [], 0, isn);
      } else if SegmentInWindow(s, seg) {
        var (payload, offset) := Overlap(s, seg);
        AcceptedTuple(cx, s, seg, payload, offset, isn);
      }
    }
  }

  lemma AcceptedTuple(cx: Context, s: Tcb, seg: Segment, payload: seq<Byte>, offset: nat, isn: SeqNumber)
    requires Inv(s) && Accepts(s, seg) && WireOk(seg) && CheckAck(s, seg).AckAccept?
    requires payload != [] ==> offset + |payload| <= s.rx.Window()
    ensures var r := ProcessAccepted(cx, s, seg, payload, offset, isn).s;
      r.tuple == s.tuple || r.tuple.None? || r.tuple == Some(Tuple(seg.dst, seg.src))
  {
    hide SynOk, ShapeOk, CheckAck, AckedBy, EffectiveControl, Asm.Valid, Asm.Extent, Transition, ApplyAck, ApplyPayload;
    hide TakeRtt;
    MovedTuple(cx, s, seg, isn);
    AcceptedGoKeepsInv(cx, s, seg, isn);
    var ack := AckedBy(s, seg);
    var next := Transition(cx, TakeRtt(cx, s, seg), seg, EffectiveControl(s, seg), ack, isn);
    if next.Go? {
      ApplyAckReceiver(cx, next.s, seg, ack.len);
      ApplyPayloadFrame(cx, ApplyAck(cx, next.s, seg, ack.len), seg, payload, offset);
    }
  }

  lemma MovedTuple(cx: Context, s: Tcb, seg: Segment, isn: SeqNumber)
    requires Inv(s) && Accepts(s, seg) && WireOk(seg) && CheckAck(s, seg).AckAccept?
    ensures var next := Transition(cx, TakeRtt(cx, s, seg), seg, EffectiveControl(s, seg), AckedBy(s, seg), isn);
      next.s.tuple == s.tuple || next.s.tuple.None? || next.s.tuple == Some(Tuple(seg.dst, seg.src))
  {
    hide SynOk, ShapeOk, CheckAck, AckedBy, EffectiveControl, Asm.Valid, Asm.Extent;
  }

  lemma ReplyFits(cx: Context, s: Tcb, seg: Segment, isn: SeqNumber, mine: nat, theirs: nat)
    requires Inv(s) && OneFamily(seg.src, seg.dst) && Accepts(s, seg) && WireOk(seg)
    ensures var r := Process(cx, s, seg, isn); r.reply.Some? ==> Fits(r.reply.value, mine, theirs)
  {
    hide SynOk, ShapeOk, CheckAck, AckedBy, Overlap, SegmentInWindow, RemoteWindow, StorePayload, DelayAck;
    hide Asm.Valid, Asm.Extent, Transition, TakeRtt, EffectiveControl, ApplyAck;
  }

  lemma EgressFits(cx: Context, s: Tcb, emitOk: bool, theirs: nat)
    requires Inv(s) && CxOk(cx, s) && EndFits(s, theirs)
    ensures var r := Dispatch(cx, s, emitOk);
      EndFits(r.s, theirs) && (r.out.Some? ==> Fits(r.out.value, cx.ipMtu, theirs))
  {
    hide SynOk, ShapeOk, Wf, BeforeSend, WhatToDo, AfterSend, Outgoing, InitialShift;
    if s.tuple.Some? {
      BeforeSendKeepsInv(cx, s);
      BeforeSendFrame(cx, s);
      var s1 := BeforeSend(cx, s);
      if WhatToDo(cx, s1).SendSegment? {
        AfterSendFrame(cx, s1);
        OutgoingFits(cx, s1, theirs);
      }
    }
  }

  lemma OutgoingFits(cx: Context, s: Tcb, theirs: nat)
    requires Inv(s) && s.tuple.Some? && CxOk(cx, s) && EndFits(s, theirs) && WhatToDo(cx, s).SendSegment?
    ensures Fits(Outgoing(cx, s), cx.ipMtu, theirs)
  {
    OutgoingWithinMss(cx, s);
    SynSentFirst(cx, s);
    OutgoingHead(cx, s);
    hide Outgoing, WhatToDo, Inv;
  }

  /** The head of what goes out; a probe is never a SYN. */
  lemma OutgoingHead(cx: Context, s: Tcb)
    requires Inv(s) && s.tuple.Some? && CxOk(cx, s) && WhatToDo(cx, s).SendSegment?
    ensures var out := Outgoing(cx, s);
      && out.src == s.tuple.value.local && out.dst == s.tuple.value.remote
      && (out.payload != [] ==> Synchronised(s.state))
      && (out.control.Syn? ==> out.maxSegSize == Some(LocalMss(cx, s) % 0x1_0000))
  {
    hide SynOk, Wf, GetAllocated, SegmentRoom, Diff, WindowToUpdate, AckToTransmit, SeqToTransmit;
  }

  // ---- one event at one end ----

  /** The event, if it is a dispatch, sees this MTU. */
  predicate Sees(e: Event, mtu: nat) {
    e.Egress? ==> e.cx.ipMtu == mtu
  }

  lemma RefuseFits(seg: Segment, mine: nat, theirs: nat)
    requires WireOk(seg) && OneFamily(seg.src, seg.dst)
    ensures Fits(RstReply(seg), mine, theirs)
  {
  }

  lemma CallFits(x: Side, inbox: set<Segment>, e: Event, theirs: nat)
    requires Inv(x.s) && EndFits(x.s, theirs) && !e.Deliver? && !e.Refuse? && !e.Egress?
    ensures var (x', out) := Happen(x, inbox, e); EndFits(x'.s, theirs) && out == {}
  {
    hide SynOk, ShapeOk, Wf, EnqueueSlice, Dequeue, InitialShift;
  }

  lemma HappenFits(x: Side, inbox: set<Segment>, e: Event, mine: nat, theirs: nat)
    requires Inv(x.s) && EndFits(x.s, theirs) && AllFit(inbox, theirs, mine) && Sees(e, mine)
    ensures var (x', out) := Happen(x, inbox, e); EndFits(x'.s, theirs) && AllFit(out, mine, theirs)
  {
    hide SynOk, ShapeOk, Wf, Process, Dispatch, EndFits, RstReply, Sent, Given, Shutdown, Abort;
    match e
    case Deliver(cx, seg) =>
      if seg in inbox && WireOk(seg) && Accepts(x.s, seg) {
        DeliverFits(cx, x.s, seg, x.iss, mine, theirs);
        ReplyFits(cx, x.s, seg, x.iss, mine, theirs);
      }
    case Refuse(seg) =>
      if seg in inbox && WireOk(seg) {
        RefuseFits(seg, mine, theirs);
      }
    case Egress(cx, emitOk) =>
      if CxOk(cx, x.s) {
        EgressFits(cx, x.s, emitOk, theirs);
      }
    case _ => CallFits(x, inbox, e, theirs);
  }

  // ---- every run ----

  predicate AllSee(es: seq<(Who, Event)>, mtuA: nat, mtuB: nat) {
    forall i :: 0 <= i < |es| ==> Sees(es[i].1, if es[i].0.A? then mtuA else mtuB)
  }

  predicate SystemFits(sys: System, mtuA: nat, mtuB: nat) {
    && EndFits(sys.a.s, mtuB) && EndFits(sys.b.s, mtuA)
    && AllFit(sys.fromA, mtuA, mtuB) && AllFit(sys.fromB, mtuB, mtuA)
  }

  lemma {:induction false} AfterFits(sys: System, es: seq<(Who, Event)>, mtuA: nat, mtuB: nat)
    requires SystemOk(sys) && SystemFits(sys, mtuA, mtuB) && AllSee(es, mtuA, mtuB)
    ensures SystemFits(After(sys, es), mtuA, mtuB)
    decreases |es|
  {
    hide SynOk, ShapeOk, ReceiverOk, SenderOk, Windows, SegOk, Wf, Happen, Fits, EndFits, Sees;
    if es != [] {
      var (who, e) := es[0];
      assert Sees(es[0].1, if es[0].0.A? then mtuA else mtuB);
      StepInv(sys, who, e);
      if who.A? {
        HappenFits(sys.a, sys.fromB, e, mtuA, mtuB);
      } else {
        HappenFits(sys.b, sys.fromA, e, mtuB, mtuA);
      }
      forall i | 0 <= i < |es[1..]|
        ensures Sees(es[1..][i].1, if es[1..][i].0.A? then mtuA else mtuB)
      {
        assert es[1..][i] == es[i + 1];
      }
      AfterFits(Step(sys, who, e), es[1..], mtuA, mtuB);
    }
  }

  /**
   Over every run of the two sockets in which each end keeps its MTU: every packet with data, its headers included,
   fits both MTUs, and every SYN names as MSS what the MTU of its sender leaves, if 16 bits hold it.
   */
  lemma PacketsFit(rxA: Ring, txA: Ring, rxB: Ring, txB: Ring, local: Endpoint, remote: Endpoint,
                   at: ListenEndpoint, issA: SeqNumber, issB: SeqNumber, es: seq<(Who, Event)>, mtuA: nat, mtuB: nat)
    requires SmallRings(rxA, txA) && SmallRings(rxB, txB) && AllSee(es, mtuA, mtuB)
    ensures SystemOk(Start(rxA, txA, rxB, txB, local, remote, at, issA, issB))
    ensures var sys := After(Start(rxA, txA, rxB, txB, local, remote, at, issA, issB), es);
      AllFit(sys.fromA, mtuA, mtuB) && AllFit(sys.fromB, mtuB, mtuA)
  {
    hide SystemOk, After, Fits, AllSee;
    StartOk(rxA, txA, rxB, txB, local, remote, at, issA, issB);
    var start := Start(rxA, txA, rxB, txB, local, remote, at, issA, issB);
    assert SystemFits(start, mtuA, mtuB);
    AfterFits(start, es, mtuA, mtuB);
  }
}
