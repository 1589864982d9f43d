/**
 Two sockets over a network that loses, duplicates and reorders. The network is the set of all segments
 ever sent: delivering one does not remove it, and not delivering one is losing it.
 */
module TcpSystem {
  import opened Common
  import opened SeqNumbers
  import opened RingBuffer
  import opened Tcp
  import opened TcpProcess
  import opened TcpDispatch
  import opened TcpInvariant
  import opened TcpStream
  import opened TcpSide
  import opened TcpEgress

  datatype System = System(a: Side, b: Side, fromA: set<Segment>, fromB: set<Segment>)

  datatype Who = A | B

  /** What can happen at one end. */
  datatype Event =
    | Deliver(cx: Context, seg: Segment)
    | Refuse(seg: Segment)
    | Egress(cx: Context, emitOk: bool)
    | Send(data: seq<Byte>)
    | Recv(size: nat)
    | CloseTx
    | AbortAll
    | Configure(timeout: Option<nat>, ackDelay: Option<nat>, nagle: bool)

  /** One event at `x`, given what the other end has sent: the new end, and what it sends. */
  function Happen(x: Side, inbox: set<Segment>, e: Event): (Side, set<Segment>)
    requires Inv(x.s)
  {
    match e
    case Deliver(cx, seg) =>
      if seg in inbox && WireOk(seg) && Accepts(x.s, seg) then
        var r := Process(cx, x.s, seg, x.iss);
        (x.(s := r.s), Emitted(r.reply))
      else (x, {})
    case Refuse(seg) =>
      // the interface answers a segment no socket wants, unless it is itself a reset
      if seg in inbox && WireOk(seg) && !Accepts(x.s, seg) && !seg.control.Rst? then (x, {RstReply(seg)})
      else (x, {})
    case Egress(cx, emitOk) =>
      if CxOk(cx, x.s) then
        var r := Dispatch(cx, x.s, emitOk);
        (x.(s := r.s), if emitOk then Emitted(r.out) else {})
      else (x, {})
    case Send(data) => (if |x.sent| + |data| < MAX_STREAM then Sent(x, data) else x, {})
    case Recv(size) => (Given(x, size), {})
    case CloseTx => (Shutdown(x), {})
    case AbortAll => (x.(s := Abort(x.s)), {})
    case Configure(timeout, ackDelay, nagle) =>
      (x.(s := x.s.(timeout := timeout, ackDelay := ackDelay, nagle := nagle)), {})
  }

  function Emitted(o: Option<Segment>): set<Segment> {
    if o.Some? then {o.value} else {}
  }

  predicate AllOk(segs: set<Segment>, x: Side, y: Side) {
    forall seg :: seg in segs ==> SegOk(seg, x, y)
  }

  /** The invariant of the two ends and of everything in flight between them. */
  ghost predicate SystemOk(sys: System) {
    && SideOk(sys.a, sys.b) && SideOk(sys.b, sys.a)
    && AllOk(sys.fromA, sys.a, sys.b) && AllOk(sys.fromB, sys.b, sys.a)
  }

  lemma ConfigureSide(x: Side, y: Side, timeout: Option<nat>, ackDelay: Option<nat>, nagle: bool)
    requires SideOk(x, y)
    ensures var s := x.s.(timeout := timeout, ackDelay := ackDelay, nagle := nagle);
      SideOk(x.(s := s), y) && Grows(x, x.(s := s))
  {
    hide SynOk, ShapeOk, SenderOk, ReceiverOk, InitialShift, Off, SetKeepAlive;
    ConfigureIsPlain(x.s, timeout, ackDelay, nagle);
    ConfigureKeepsInv(x.s, timeout, x.s.keepAlive, ackDelay, nagle);
    SideFrame(x, y, x.s.(timeout := timeout, ackDelay := ackDelay, nagle := nagle));
  }

  lemma ConfigureIsPlain(s: Tcb, timeout: Option<nat>, ackDelay: Option<nat>, nagle: bool)
    requires s.keepAlive.None?
    ensures SetKeepAlive(s, s.keepAlive).(timeout := timeout, ackDelay := ackDelay, nagle := nagle)
            == s.(timeout := timeout, ackDelay := ackDelay, nagle := nagle)
  {
  }

  /** One event keeps this end's invariant, and everything it sends is a piece of its stream. */
  lemma HappenOk(x: Side, y: Side, inbox: set<Segment>, e: Event)
    requires SideOk(x, y) && AllOk(inbox, y, x)
    ensures var (x', out) := Happen(x, inbox, e);
      SideOk(x', y) && Grows(x, x') && |x'.sent| < MAX_STREAM && AllOk(out, x', y)
  {
    hide SynOk, ShapeOk, ReceiverOk, InitialShift, Process, Dispatch, SegOk, Windows, Sent, Given, Shutdown, Abort;
    hide RstReply;
    match e
    case Deliver(cx, seg) =>
      if seg in inbox && WireOk(seg) && Accepts(x.s, seg) {
        ProcessSide(cx, x, y, seg);
      }
    case Refuse(seg) =>
      if WireOk(seg) {
        RstReplyOk(seg, x, y);
      }
    case Egress(cx, emitOk) =>
      if CxOk(cx, x.s) {
        DispatchSide(cx, x, y, emitOk);
      }
    case Send(data) =>
      if |x.sent| + |data| < MAX_STREAM {
        SendSide(x, y, data);
      }
    case Recv(size) => RecvSide(x, y, size);
    case CloseTx => ShutdownSide(x, y);
    case AbortAll => AbortSide(x, y);
    case Configure(timeout, ackDelay, nagle) => ConfigureSide(x, y, timeout, ackDelay, nagle);
  }

  function Step(sys: System, who: Who, e: Event): System
    requires Inv(sys.a.s) && Inv(sys.b.s)
  {
    if who.A? then
      var (a', out) := Happen(sys.a, sys.fromB, e);
      sys.(a := a', fromA := sys.fromA + out)
    else
      var (b', out) := Happen(sys.b, sys.fromA, e);
      sys.(b := b', fromB := sys.fromB + out)
  }

  lemma AllOkGrows(segs: set<Segment>, x: Side, y: Side, x': Side, y': Side)
    requires AllOk(segs, x, y) && Grows(x, x') && Grows(y, y')
    ensures AllOk(segs, x', y')
  {
    hide SegOk, Grows;
    forall seg | seg in segs
      ensures SegOk(seg, x', y')
    {
      SegOkGrows(seg, x, y, x', y');
    }
  }

  lemma GrowsRefl(x: Side)
    ensures Grows(x, x)
  {
  }

  lemma StepOk(sys: System, who: Who, e: Event)
    requires SystemOk(sys)
    ensures SystemOk(Step(sys, who, e))
  {
    hide SynOk, ShapeOk, ReceiverOk, SenderOk, Windows, SegOk, Grows, Happen;
    GrowsRefl(sys.a);
    GrowsRefl(sys.b);
    if who.A? {
      HappenOk(sys.a, sys.b, sys.fromB, e);
      var (a', out) := Happen(sys.a, sys.fromB, e);
      SideOkGrows(sys.b, sys.a, a');
      AllOkGrows(sys.fromA, sys.a, sys.b, a', sys.b);
      AllOkGrows(sys.fromB, sys.b, sys.a, sys.b, a');
    } else {
      HappenOk(sys.b, sys.a, sys.fromA, e);
      var (b', out) := Happen(sys.b, sys.fromA, e);
      SideOkGrows(sys.a, sys.b, b');
      AllOkGrows(sys.fromB, sys.b, sys.a, b', sys.a);
      AllOkGrows(sys.fromA, sys.a, sys.b, sys.a, b');
    }
  }

  // ---- the beginning ----

  /** Empty buffers below 2^30 octets. */
  predicate SmallRings(rx: Ring, tx: Ring) {
    FreshRings(rx, tx) && rx.Capacity() < MAX_STREAM
  }

  /** A client that calls `connect` and a server that calls `listen`, each with its own sequence number. */
  function Start(rxA: Ring, txA: Ring, rxB: Ring, txB: Ring, local: Endpoint, remote: Endpoint,
                 at: ListenEndpoint, issA: SeqNumber, issB: SeqNumber): System
  {
    System(Side(Connect(NewSocket(rxA, txA), local, remote, issA).0, issA, [], [], false),
           Side(ListenOn(NewSocket(rxB, txB), at).0, issB, [], [], false), {}, {})
  }

  lemma StartOk(rxA: Ring, txA: Ring, rxB: Ring, txB: Ring, local: Endpoint, remote: Endpoint,
                at: ListenEndpoint, issA: SeqNumber, issB: SeqNumber)
    requires SmallRings(rxA, txA) && SmallRings(rxB, txB)
    ensures SystemOk(Start(rxA, txA, rxB, txB, local, remote, at, issA, issB))
  {
    hide SynOk, InitialShift, ScaledWindow;
    NewSocketInv(rxA, txA);
    NewSocketInv(rxB, txB);
    ConnectKeepsInv(NewSocket(rxA, txA), local, remote, issA);
    ListenKeepsInv(NewSocket(rxB, txB), at);
    OffSelf(issA);
  }

  // ---- every run ----

  lemma StepInv(sys: System, who: Who, e: Event)
    requires SystemOk(sys)
    ensures SystemOk(Step(sys, who, e)) && Inv(Step(sys, who, e).a.s) && Inv(Step(sys, who, e).b.s)
  {
    hide SynOk, ShapeOk, ReceiverOk, SenderOk, Windows, SegOk, Step, Wf;
    StepOk(sys, who, e);
  }

  function After(sys: System, es: seq<(Who, Event)>): System
    requires SystemOk(sys)
    decreases |es|
  {
    if es == [] then sys
    else
      StepInv(sys, es[0].0, es[0].1);
      After(Step(sys, es[0].0, es[0].1), es[1..])
  }

  lemma {:induction false} AfterOk(sys: System, es: seq<(Who, Event)>)
    requires SystemOk(sys)
    ensures SystemOk(After(sys, es))
    decreases |es|
  {
    hide SynOk, ShapeOk, ReceiverOk, SenderOk, Windows, SegOk, Step, Wf;
    if es != [] {
      StepInv(sys, es[0].0, es[0].1);
      AfterOk(Step(sys, es[0].0, es[0].1), es[1..]);
    }
  }
}
