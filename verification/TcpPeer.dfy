/**
 What a socket takes from its peer's SYN, over every run against arbitrary segments: the largest segment the peer
 accepts, and whether windows are scaled. No payload ever exceeds what the peer asked for.
 */
module TcpPeer {
  import opened Common
  import opened SeqNumbers
  import opened RingBuffer
  import opened Tcp
  import opened TcpProcess
  import opened TcpDispatch
  import opened TcpInvariant
  import opened TcpStream
  import opened TcpReceiver
  import opened TcpSide
  import opened TcpEgress
  import Asm = AssemblerList

  /** The segment opens a connection: a SYN to a listener, or the SYN|ACK a connecting socket waits for. */
  predicate Opens(s: Tcb, seg: Segment) {
    && Accepts(s, seg) && WireOk(seg) && seg.control.Syn? && seg.maxSegSize != Some(0)
    && (s.state.Listen? || (s.state.SynSent? && seg.ack == Some(Add(s.localSeq, 1))))
  }

  /**
   The SYNs a socket has taken since `listen` or `connect`, the latest last. There is more than one only if a reset
   threw a listener back from SYN-RECEIVED.
   */
  function HeardAfter(s: Tcb, op: Op, heard: seq<Segment>): seq<Segment> {
    match op
    case Arrive(_, seg, _) => if Opens(s, seg) then heard + [seg] else heard
    case StartListen(at) => if !IsOpen(s.state) && ListenOn(s, at).1.OpenOk? then [] else heard
    case StartConnect(local, remote, isn) => if Connect(s, local, remote, isn).1.OpenOk? then [] else heard
    case _ => heard
  }

  /** The last MSS among them, or the 536 octets of section 3.7.1 of RFC 9293. */
  function MssOf(heard: seq<Segment>): nat {
    if heard == [] then 536
    else
      var last := heard[|heard| - 1];
      if last.maxSegSize.Some? then last.maxSegSize.value else MssOf(heard[..|heard| - 1])
  }

  /** All of them offered to scale windows. */
  predicate AllScale(heard: seq<Segment>) {
    forall i :: 0 <= i < |heard| ==> heard[i].windowScale.Some?
  }

  predicate Knows(s: Tcb, heard: seq<Segment>) {
    !s.state.Closed? ==>
      && s.remoteMss == MssOf(heard)
      && s.remoteWinShift == (if AllScale(heard) then InitialShift(s.rx.Capacity()) else 0)
      && (Synchronised(s.state) ==>
            && heard != [] && s.remoteWinScale == heard[|heard| - 1].windowScale
            && s.tuple == Some(Tuple(heard[|heard| - 1].dst, heard[|heard| - 1].src)))
      && (s.state.SynSent? ==> heard == [])
  }

  // ---- segments ----

  /** The same peer. */
  predicate SamePeer(s: Tcb, r: Tcb) {
    && r.remoteMss == s.remoteMss && r.remoteWinScale == s.remoteWinScale && r.remoteWinShift == s.remoteWinShift
    && r.rx.Capacity() == s.rx.Capacity()
    && (Synchronised(r.state) ==> Synchronised(s.state) && r.tuple == s.tuple) && (s.state.Closed? ==> r.state.Closed?)
    && (r.state.SynSent? ==> s.state.SynSent?)
  }

  lemma SameKnows(s: Tcb, r: Tcb, heard: seq<Segment>)
    requires Knows(s, heard) && SamePeer(s, r)
    ensures Knows(r, heard)
  {
    hide InitialShift, MssOf;
  }

  lemma ApplyAckPeer(cx: Context, s: Tcb, seg: Segment, ackLen: nat)
    requires s.tx.Valid() && ackLen <= s.tx.length
    ensures SamePeer(s, ApplyAck(cx, s, seg, ackLen)) && ApplyAck(cx, s, seg, ackLen).state == s.state
  {
    hide RemoteWindow, InitialShift;
  }

  lemma AcceptedPeer(cx: Context, s: Tcb, seg: Segment, payload: seq<Byte>, offset: nat, isn: SeqNumber)
    requires Inv(s) && Synchronised(s.state) && WireOk(seg) && CheckAck(s, seg).AckAccept?
    requires payload != [] ==> offset + |payload| <= s.rx.Window()
    ensures SamePeer(s, ProcessAccepted(cx, s, seg, payload, offset, isn).s)
  {
    hide CheckAck, AckedBy, SynOk, ShapeOk, StorePayload, ApplyPayload, ApplyAck, Asm.Valid, Asm.Extent;
    hide EffectiveControl, Transition;
    var s0 := TakeRtt(cx, s, seg);
    TakeRttKeepsInv(cx, s, seg);
    AckedByIgnoresRtt(s, s0, seg);
    ControlIgnoresRtt(s, s0, seg);
    hide TakeRtt;
    var ack := AckedBy(s, seg);
    if seg.control.Rst? {
      RstOutcome(cx, s, seg, payload, offset, isn);
    } else {
      SyncTransition(cx, s0, seg, ack, isn);
      AcceptedGoKeepsInv(cx, s, seg, isn);
      var next := Transition(cx, s0, seg, EffectiveControl(s, seg), ack, isn);
      if next.Go? {
        ApplyAckPeer(cx, next.s, seg, ack.len);
        ApplyPayloadFrame(cx, ApplyAck(cx, next.s, seg, ack.len), seg, payload, offset);
      }
    }
  }

  lemma ArrivePeer(cx: Context, s: Tcb, seg: Segment, isn: SeqNumber)
    requires Inv(s) && Synchronised(s.state) && Accepts(s, seg) && WireOk(seg)
    ensures SamePeer(s, Process(cx, s, seg, isn).s)
  {
    hide CheckAck, SegmentInWindow, ProcessAccepted, Overlap, SynOk, ShapeOk, Asm.Valid, Asm.Extent, NextExpected;
    hide ScaledWindow, RstReply;
    if CheckAck(s, seg).AckAccept? && SegmentInWindow(s, seg) {
      var (payload, offset) := Overlap(s, seg);
      AcceptedPeer(cx, s, seg, payload, offset, isn);
    }
  }

  /** A socket waiting for a SYN takes from it what it says, and from anything else nothing. */
  lemma OpeningPeer(cx: Context, s: Tcb, seg: Segment, isn: SeqNumber)
    requires Inv(s) && (s.state.Listen? || s.state.SynSent?) && Accepts(s, seg) && WireOk(seg)
    ensures var r := Process(cx, s, seg, isn).s;
      if Opens(s, seg) then
        && r.state == (if s.state.Listen? then SynReceived else Established)
        && r.remoteMss == (if seg.maxSegSize.Some? then seg.maxSegSize.value else s.remoteMss)
        && r.remoteWinScale == seg.windowScale && r.rx.Capacity() == s.rx.Capacity()
        && r.tuple == Some(Tuple(seg.dst, seg.src))
        && r.remoteWinShift == (if seg.windowScale.Some? then s.remoteWinShift else 0)
      else SamePeer(s, r)
  {
    hide SynOk, Asm.Valid, Asm.Extent, RemoteWindow, InitialShift, Lt, SegmentInWindow, Overlap, RstReply;
    if CheckAck(s, seg).AckAccept? {
      if seg.control.Rst? {
        RstOutcome(cx, s, seg, [], 0, isn);
      } else if seg.control.Syn? {
        if s.state.SynSent? {
          SynAckNumber(s, seg);
        }
      } else {
        TakeRttKeepsInv(cx, s, seg);
        UnsynchronisedStops(cx, TakeRtt(cx, s, seg), seg, AckedBy(s, seg), isn);
      }
    }
  }

  lemma OpenedKnows(s: Tcb, r: Tcb, seg: Segment, heard: seq<Segment>)
    requires Knows(s, heard) && !s.state.Closed?
    requires Synchronised(r.state) && r.remoteWinScale == seg.windowScale && r.rx.Capacity() == s.rx.Capacity()
    requires r.tuple == Some(Tuple(seg.dst, seg.src))
    requires r.remoteMss == if seg.maxSegSize.Some? then seg.maxSegSize.value else s.remoteMss
    requires r.remoteWinShift == if seg.windowScale.Some? then s.remoteWinShift else 0
    ensures Knows(r, heard + [seg])
  {
    hide InitialShift;
    var more := heard + [seg];
    assert more[..|more| - 1] == heard && more[|heard|] == seg;
    assert AllScale(more) <==> AllScale(heard) && seg.windowScale.Some? by {
      assert forall i :: 0 <= i < |heard| ==> more[i] == heard[i];
    }
  }

  // ---- everything else ----

  lemma EgressPeer(cx: Context, s: Tcb, emitOk: bool)
    requires Inv(s) && CxOk(cx, s)
    ensures var r := Dispatch(cx, s, emitOk).s; r.state.Closed? || SamePeer(s, r)
  {
    hide SynOk, ShapeOk, Wf, BeforeSend, WhatToDo, AfterSend, Outgoing, InitialShift;
    if s.tuple.Some? {
      BeforeSendKeepsInv(cx, s);
      BeforeSendFrame(cx, s);
      var s1 := BeforeSend(cx, s);
      if WhatToDo(cx, s1).SendSegment? {
        AfterSendFrame(cx, s1);
      }
    }
  }

  lemma CallPeer(s: Tcb, op: Op, heard: seq<Segment>)
    requires Inv(s) && Knows(s, heard) && !op.Arrive? && !op.Egress?
    ensures Knows(Apply(s, op), HeardAfter(s, op, heard))
  {
    hide SynOk, ShapeOk, Wf, InitialShift, SendSlice;
    if op.Send? {
      SendKeepsCapacity(s, op.data);
    }
  }

  lemma SendKeepsCapacity(s: Tcb, data: seq<Byte>)
    requires Inv(s)
    ensures var r := SendSlice(s, data).0; r == s.(tx := r.tx, remoteLastTs := r.remoteLastTs)
  {
  }

  lemma StepKnows(s: Tcb, op: Op, heard: seq<Segment>)
    requires Inv(s) && Knows(s, heard)
    ensures Knows(Apply(s, op), HeardAfter(s, op, heard))
  {
    hide SynOk, ShapeOk, Wf, Process, Dispatch, InitialShift, Knows, SamePeer, MssOf;
    match op
    case Arrive(cx, seg, isn) =>
      if Accepts(s, seg) && WireOk(seg) {
        var r := Process(cx, s, seg, isn).s;
        if Synchronised(s.state) {
          ArrivePeer(cx, s, seg, isn);
          SameKnows(s, r, heard);
        } else {
          OpeningPeer(cx, s, seg, isn);
          if Opens(s, seg) {
            OpenedKnows(s, r, seg, heard);
          } else {
            SameKnows(s, r, heard);
          }
        }
      }
    case Egress(cx, emitOk) =>
      if CxOk(cx, s) {
        EgressPeer(cx, s, emitOk);
        var r := Dispatch(cx, s, emitOk).s;
        if r.state.Closed? {
          ClosedKnows(r, heard);
        } else {
          SameKnows(s, r, heard);
        }
      }
    case _ => CallPeer(s, op, heard);
  }

  lemma ClosedKnows(s: Tcb, heard: seq<Segment>)
    requires s.state.Closed?
    ensures Knows(s, heard)
  {
  }

  // ---- every run ----

  function Heard(s: Tcb, ops: seq<Op>, heard: seq<Segment>): seq<Segment>
    requires Inv(s)
    decreases |ops|
  {
    if ops == [] then heard
    else
      ApplyKeepsInv(s, ops[0]);
      Heard(Apply(s, ops[0]), ops[1..], HeardAfter(s, ops[0], heard))
  }

  lemma {:induction false} RunKnows(s: Tcb, ops: seq<Op>, heard: seq<Segment>)
    requires Inv(s) && Knows(s, heard)
    ensures Knows(Run(s, ops), Heard(s, ops, heard)) && Inv(Run(s, ops))
    decreases |ops|
  {
    hide Inv, Apply, HeardAfter, Knows;
    if ops != [] {
      ApplyKeepsInv(s, ops[0]);
      StepKnows(s, ops[0], heard);
      RunKnows(Apply(s, ops[0]), ops[1..], HeardAfter(s, ops[0], heard));
    }
  }

  /**
   Over every run of a socket, whatever arrives: it goes by the last MSS a SYN named since `listen` or `connect`,
   reads windows with the scale of the last SYN, and scales its own only if every SYN offered to.
   */
  lemma PeerIsKnown(rx: Ring, tx: Ring, ops: seq<Op>)
    requires FreshRings(rx, tx)
    ensures Inv(NewSocket(rx, tx))
    ensures Knows(Run(NewSocket(rx, tx), ops), Heard(NewSocket(rx, tx), ops, []))
  {
    hide Run, Heard, Inv;
    NewSocketInv(rx, tx);
    RunKnows(NewSocket(rx, tx), ops, []);
  }

  lemma PayloadWithinMss(cx: Context, s: Tcb, emitOk: bool)
    requires Inv(s) && CxOk(cx, s)
    ensures var r := Dispatch(cx, s, emitOk);
      r.out.Some? ==>
        && |r.out.value.payload| <= s.remoteMss && s.tuple.Some? && |r.out.value.payload| <= LocalMss(cx, s)
        && (r.out.value.payload != [] ==> !s.state.Closed?)
  {
    hide SynOk, BeforeSend, WhatToDo, AfterSend, Asm.Valid, Asm.Extent, Outgoing, Diff;
    if s.tuple.Some? {
      BeforeSendKeepsInv(cx, s);
      BeforeSendFrame(cx, s);
      OutgoingWithinMss(cx, BeforeSend(cx, s));
    }
  }

  lemma OutgoingWithinMss(cx: Context, s: Tcb)
    requires Inv(s) && s.tuple.Some? && CxOk(cx, s)
    ensures |Outgoing(cx, s).payload| <= s.remoteMss && |Outgoing(cx, s).payload| <= LocalMss(cx, s)
    ensures Outgoing(cx, s).payload != [] ==> !s.state.Closed?
  {
    hide SynOk, Asm.Valid, Asm.Extent, GetAllocated, SegmentRoom, Diff;
    if DataState(s.state) {
      DataSegmentFits(cx, s);
      RoomEndsAtWindow(cx, s);
    }
  }

  /**
   Over every run, whatever arrives: no payload `dispatch` sends, keep-alive probes included, exceeds the last MSS a
   SYN of the peer named, 536 octets if none did, nor what our own MTU leaves.
   */
  lemma PeerMssIsKept(rx: Ring, tx: Ring, ops: seq<Op>, cx: Context, emitOk: bool)
    requires FreshRings(rx, tx)
    ensures Inv(NewSocket(rx, tx))
    ensures var s := Run(NewSocket(rx, tx), ops);
      && Inv(s)
      && (CxOk(cx, s) && Dispatch(cx, s, emitOk).out.Some? ==>
            var payload := Dispatch(cx, s, emitOk).out.value.payload;
            payload != [] ==>
              && |payload| <= MssOf(Heard(NewSocket(rx, tx), ops, []))
              && s.tuple.Some? && |payload| <= LocalMss(cx, s))
  {
    hide Run, Heard, Inv, Dispatch, MssOf;
    NewSocketInv(rx, tx);
    RunKnows(NewSocket(rx, tx), ops, []);
    var s := Run(NewSocket(rx, tx), ops);
    if CxOk(cx, s) {
      PayloadWithinMss(cx, s, emitOk);
    }
  }

  /**
   Over every run: a connection hears only the endpoint whose SYN opened it, at the address that SYN was sent to, and
   everything it sends goes there. Any other segment leaves it as it is.
   */
  lemma OnlyThePeer(rx: Ring, tx: Ring, ops: seq<Op>, cx: Context, seg: Segment, isn: SeqNumber, emitOk: bool)
    requires FreshRings(rx, tx)
    ensures Inv(NewSocket(rx, tx))
    ensures var s, heard := Run(NewSocket(rx, tx), ops), Heard(NewSocket(rx, tx), ops, []);
      && Inv(s)
      && (Synchronised(s.state) ==>
            && heard != []
            && (seg.src != heard[|heard| - 1].src || seg.dst != heard[|heard| - 1].dst ==>
                  Apply(s, Arrive(cx, seg, isn)) == s)
            && (CxOk(cx, s) && Dispatch(cx, s, emitOk).out.Some? ==>
                  var out := Dispatch(cx, s, emitOk).out.value;
                  out.dst == heard[|heard| - 1].src && out.src == heard[|heard| - 1].dst))
  {
    hide Run, Heard, Inv, Dispatch, MssOf, Process, InitialShift;
    NewSocketInv(rx, tx);
    RunKnows(NewSocket(rx, tx), ops, []);
    var s := Run(NewSocket(rx, tx), ops);
    if CxOk(cx, s) {
      DispatchAddress(cx, s, emitOk);
    }
  }

  lemma DispatchAddress(cx: Context, s: Tcb, emitOk: bool)
    requires Inv(s) && CxOk(cx, s)
    ensures var r := Dispatch(cx, s, emitOk);
      r.out.Some? ==> s.tuple == Some(Tuple(r.out.value.src, r.out.value.dst))
  {
    hide SynOk, ShapeOk, Wf, BeforeSend, WhatToDo, AfterSend, Outgoing;
    if s.tuple.Some? {
      BeforeSendKeepsInv(cx, s);
      BeforeSendFrame(cx, s);
      OutgoingAddress(cx, BeforeSend(cx, s));
    }
  }

  lemma OutgoingAddress(cx: Context, s: Tcb)
    requires Wf(s) && s.tuple.Some? && CxOk(cx, s)
    ensures s.tuple == Some(Tuple(Outgoing(cx, s).src, Outgoing(cx, s).dst))
  {
    hide Wf, GetAllocated, SegmentRoom, ScaledWindow, NextExpected, IsKeepAlive, LocalMss;
  }

  /** The MSS of the SYN that opened the connection, or the default. */
  function MssOfSyn(syn: Segment): nat {
    if syn.maxSegSize.Some? then syn.maxSegSize.value else 536
  }

  /**
   That is what the opening SYN asked for exactly if it names an MSS, or those before it left the default: a listener
   that a reset threw back still goes by the MSS of the peer that was reset.
   */
  lemma MssExactly(s: Tcb, heard: seq<Segment>)
    requires Knows(s, heard) && Synchronised(s.state)
    ensures heard != []
    ensures var syn := heard[|heard| - 1];
      s.remoteMss == MssOfSyn(syn) <==> syn.maxSegSize.Some? || MssOf(heard[..|heard| - 1]) == 536
  {
    hide InitialShift;
  }
}
