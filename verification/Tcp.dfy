/**
 A TCP socket as a value: its fields, and what `process`, `dispatch`, `poll_at` and the user calls
 do to them. Congestion control is `None` and selective acknowledgement is off.
 */
module Tcp {
  import opened Common
  import opened SeqNumbers
  import opened RingBuffer
  import opened RttEstimation
  import Asm = AssemblerList

  const DEFAULT_MSS: nat := 536
  const ACK_DELAY_DEFAULT: nat := 10_000
  const CLOSE_DELAY: nat := 10_000_000
  const CHALLENGE_PERIOD: nat := 1_000_000
  const TCP_HEADER_LEN: nat := 20
  const MAX_RX_CAPACITY: nat := 0x4000_0000

  datatype State =
    | Closed | Listen | SynSent | SynReceived | Established | FinWait1 | FinWait2
    | CloseWait | Closing | LastAck | TimeWait

  datatype Timer =
    | Idle(keepAliveAt: Option<int>)
    | Retransmit(expiresAt: int, delay: nat)
    | FastRetransmit
    | Close(closeAt: int)

  datatype AckDelayTimer = AckIdle | AckWaiting(at: int) | AckImmediate

  datatype IpAddr = V4(bits: nat) | V6(bits: nat)
  datatype Endpoint = Endpoint(addr: IpAddr, port: nat)
  datatype ListenEndpoint = ListenEndpoint(addr: Option<IpAddr>, port: nat)
  datatype Tuple = Tuple(local: Endpoint, remote: Endpoint)

  datatype Control = NoFlag | Psh | Syn | Fin | Rst

  datatype Segment = Segment(
    src: Endpoint, dst: Endpoint,
    control: Control,
    seqNo: SeqNumber,
    ack: Option<SeqNumber>,
    windowLen: nat,
    windowScale: Option<nat>,
    maxSegSize: Option<nat>,
    payload: seq<Byte>)

  /** What the interface offers a socket: the clock and the MTU. */
  datatype Context = Context(now: int, ipMtu: nat)

  datatype Tcb = Tcb(
    state: State,
    timer: Timer,
    rtte: Rtt,
    assembler: Asm.Contigs,
    rx: Ring,
    rxFin: bool,
    tx: Ring,
    timeout: Option<nat>,
    keepAlive: Option<nat>,
    listenEndpoint: ListenEndpoint,
    tuple: Option<Tuple>,
    localSeq: SeqNumber,
    remoteSeq: SeqNumber,
    remoteLastSeq: SeqNumber,
    remoteLastAck: Option<SeqNumber>,
    remoteLastWin: nat,
    remoteWinShift: nat,
    remoteWinLen: nat,
    remoteWinScale: Option<nat>,
    remoteMss: nat,
    remoteLastTs: Option<int>,
    rxLastAck: Option<SeqNumber>,
    rxDupAcks: nat,
    ackDelay: Option<nat>,
    ackDelayTimer: AckDelayTimer,
    challengeAckAt: int,
    nagle: bool)

  // ---- small helpers ----

  function Shl(w: nat, k: nat): nat
    decreases k
  {
    if k == 0 then w else Shl(2 * w, k - 1)
  }

  function Shr(w: nat, k: nat): nat
    decreases k
  {
    if k == 0 then w else Shr(w / 2, k - 1)
  }

  /** The position of the highest set bit, counted from 1; 0 for 0. */
  function BitLength(n: nat): nat {
    if n == 0 then 0 else 1 + BitLength(n / 2)
  }

  /** The window shift a socket starts with. */
  function InitialShift(rxCapacity: nat): nat {
    MaxOf(BitLength(rxCapacity) - 16, 0)
  }

  function HeaderLen(a: IpAddr): nat {
    if a.V4? then 20 else 40
  }

  predicate CxOk(cx: Context, s: Tcb) {
    s.tuple.Some? ==> cx.ipMtu > HeaderLen(s.tuple.value.local.addr) + TCP_HEADER_LEN
  }

  function LocalMss(cx: Context, s: Tcb): nat
    requires s.tuple.Some? && CxOk(cx, s)
  {
    cx.ipMtu - HeaderLen(s.tuple.value.local.addr) - TCP_HEADER_LEN
  }

  function ControlLen(c: Control): nat {
    if c.Syn? || c.Fin? then 1 else 0
  }

  function SegmentLen(seg: Segment): nat {
    |seg.payload| + ControlLen(seg.control)
  }

  predicate IsEmptySegment(seg: Segment) {
    seg.payload == [] && (seg.control.NoFlag? || seg.control.Psh?)
  }

  /** What a parsed wire segment satisfies. */
  predicate WireOk(seg: Segment) {
    && |seg.payload| < 0x1_0000
    && seg.windowLen < 0x1_0000
    && (seg.windowScale.Some? ==> seg.windowScale.value <= 14)
    && (seg.maxSegSize.Some? ==> seg.maxSegSize.value < 0x1_0000)
  }

  // ---- timers ----

  function IdleFor(now: int, interval: Option<nat>): Timer {
    Idle(if interval.None? then None else Some(now + interval.value))
  }

  predicate ShouldKeepAlive(t: Timer, now: int) {
    t.Idle? && t.keepAliveAt.Some? && now >= t.keepAliveAt.value
  }

  predicate ShouldRetransmit(t: Timer, now: int) {
    t.FastRetransmit? || (t.Retransmit? && now >= t.expiresAt)
  }

  predicate ShouldClose(t: Timer, now: int) {
    t.Close? && now >= t.closeAt
  }

  predicate IsRetransmit(t: Timer) {
    t.Retransmit? || t.FastRetransmit?
  }

  function SetForRetransmit(t: Timer, now: int, delay: nat): Timer {
    if t.Idle? || t.FastRetransmit? then Retransmit(now + delay, delay)
    else if t.Retransmit? && now >= t.expiresAt then Retransmit(now + t.delay, t.delay * 2)
    else t
  }

  function RewindKeepAlive(t: Timer, now: int, interval: Option<nat>): Timer {
    if t.Idle? then IdleFor(now, interval) else t
  }

  function WoundKeepAlive(t: Timer): Timer {
    if t.Idle? && t.keepAliveAt.None? then Idle(Some(0)) else t
  }

  // ---- what may be outstanding ----

  predicate SentSyn(st: State) {
    st.SynSent? || st.SynReceived?
  }

  predicate SentFin(st: State) {
    st.FinWait1? || st.LastAck? || st.Closing?
  }

  function OutstandingControl(st: State): nat {
    if SentSyn(st) || SentFin(st) then 1 else 0
  }

  /**
   How far past the buffered data `remoteLastSeq` may be. Beside the states with a SYN or FIN
   outstanding, CLOSED keeps what it had when aborted, and LISTEN what it had when a RST sent it
   back from SYN-RECEIVED.
   */
  function Slack(st: State): nat {
    if OutstandingControl(st) == 1 || st.Closed? || st.Listen? then 1 else 0
  }

  /** The part of the invariant without which an operation could panic. */
  predicate Wf(s: Tcb) {
    && s.rx.Valid() && s.rx.Capacity() <= MAX_RX_CAPACITY
    && s.tx.Valid() && s.tx.Capacity() < I32_MAX
    && s.remoteWinLen <= 0x4000_0000
    && (s.remoteWinScale.Some? ==> s.remoteWinScale.value <= 14)
    && Asm.Valid(s.assembler) && Asm.Extent(s.assembler) <= s.rx.Window()
    && 0 <= Diff(s.remoteLastSeq, s.localSeq) <= s.tx.length + Slack(s.state)
  }

  // ---- construction and user calls ----

  function NewSocket(rx: Ring, tx: Ring): Tcb {
    Tcb(Closed, Idle(None), DEFAULT_RTT, Asm.Nil, rx, false, tx, None, None,
        ListenEndpoint(None, 0), None, 0, 0, 0, None, 0, InitialShift(rx.Capacity()), 0, None,
        DEFAULT_MSS, None, None, 0, Some(ACK_DELAY_DEFAULT), AckIdle, 0, true)
  }

  /** `reset`: the connection is forgotten; the last peer ACK and its duplicate count are not. */
  function Reset(s: Tcb): Tcb {
    NewSocket(s.rx.Clear(), s.tx.Clear()).(
      timeout := s.timeout, keepAlive := s.keepAlive, ackDelay := s.ackDelay, nagle := s.nagle,
      rxLastAck := s.rxLastAck, rxDupAcks := s.rxDupAcks)
  }

  predicate IsOpen(st: State) {
    !st.Closed? && !st.TimeWait?
  }

  datatype OpenResult = OpenOk | InvalidState | Unaddressable

  function ListenOn(s: Tcb, e: ListenEndpoint): (Tcb, OpenResult) {
    if e.port == 0 then (s, Unaddressable)
    else if IsOpen(s.state) then
      (s, if s.state.Listen? && s.listenEndpoint == e then OpenOk else InvalidState)
    else (Reset(s).(listenEndpoint := e, tuple := None, state := Listen), OpenOk)
  }

  /** `connect` with the local address already chosen by the interface. */
  function Connect(s: Tcb, local: Endpoint, remote: Endpoint, isn: SeqNumber): (Tcb, OpenResult) {
    if IsOpen(s.state) then (s, InvalidState)
    else if remote.port == 0 || remote.addr.bits == 0 || local.port == 0 || local.addr.bits == 0
         || local.addr.V4? != remote.addr.V4? then (s, Unaddressable)
    else (Reset(s).(tuple := Some(Tuple(local, remote)), state := SynSent,
                    localSeq := isn, remoteLastSeq := isn), OpenOk)
  }

  function CloseCall(s: Tcb): Tcb {
    match s.state
    case Listen | SynSent => s.(state := Closed)
    case SynReceived | Established => s.(state := FinWait1)
    case CloseWait => s.(state := LastAck)
    case _ => s
  }

  function Abort(s: Tcb): Tcb {
    s.(state := Closed)
  }

  predicate MaySend(s: Tcb) {
    s.state.Established? || s.state.CloseWait?
  }

  predicate MayRecv(s: Tcb) {
    s.state.Established? || s.state.FinWait1? || s.state.FinWait2? || s.rx.length > 0
  }

  /** `send_slice`: the bytes taken, or None for `InvalidState`. */
  function SendSlice(s: Tcb, data: seq<Byte>): (Tcb, Option<nat>)
    requires s.tx.Valid()
  {
    if !MaySend(s) then (s, None)
    else
      var (tx', n) := EnqueueSlice(s.tx, data);
      (s.(tx := tx', remoteLastTs := if n > 0 && s.tx.length == 0 then None else s.remoteLastTs), Some(n))
  }

  datatype RecvResult = Received(data: seq<Byte>) | RecvInvalidState | Finished

  /** `recv_slice` of up to `size` bytes. */
  function RecvSlice(s: Tcb, size: nat): (Tcb, RecvResult)
    requires s.rx.Valid() && s.rx.Capacity() <= MAX_RX_CAPACITY
  {
    if !MayRecv(s) then (s, if s.rxFin then Finished else RecvInvalidState)
    else
      var n := MinOf(size, s.rx.length);
      (s.(rx := Dequeue(s.rx, n), remoteSeq := Add(s.remoteSeq, n)), Received(s.rx.Data()[..n]))
  }

  function SetKeepAlive(s: Tcb, interval: Option<nat>): Tcb {
    s.(keepAlive := interval, timer := if interval.Some? then WoundKeepAlive(s.timer) else s.timer)
  }

  // ---- replies ----

  function ScaledWindow(s: Tcb): nat
    requires s.rx.Valid()
  {
    MinOf(Shr(s.rx.Window(), s.remoteWinShift), 0xffff)
  }

  function NextExpected(s: Tcb): SeqNumber
    requires s.rx.Valid() && s.rx.Capacity() <= MAX_RX_CAPACITY
  {
    Add(s.remoteSeq, s.rx.length)
  }

  function RstReply(seg: Segment): Segment
    requires WireOk(seg)
  {
    Segment(seg.dst, seg.src, Rst, if seg.ack.Some? then seg.ack.value else 0,
            if seg.control.Syn? && seg.ack.None? then Some(Add(seg.seqNo, SegmentLen(seg))) else None,
            0, None, None, [])
  }

  function AckSegment(s: Tcb, seg: Segment): Segment
    requires s.rx.Valid() && s.rx.Capacity() <= MAX_RX_CAPACITY
  {
    Segment(seg.dst, seg.src, NoFlag, s.remoteLastSeq, Some(NextExpected(s)), ScaledWindow(s), None, None, [])
  }

  datatype Outcome = Outcome(s: Tcb, reply: Option<Segment>)

  function AckReply(s: Tcb, seg: Segment): Outcome
    requires s.rx.Valid() && s.rx.Capacity() <= MAX_RX_CAPACITY
  {
    Outcome(s.(remoteLastAck := Some(NextExpected(s)), remoteLastWin := ScaledWindow(s)),
            Some(AckSegment(s, seg)))
  }

  function ChallengeAckReply(cx: Context, s: Tcb, seg: Segment): Outcome
    requires s.rx.Valid() && s.rx.Capacity() <= MAX_RX_CAPACITY
  {
    if cx.now < s.challengeAckAt then Outcome(s, None)
    else AckReply(s.(challengeAckAt := cx.now + CHALLENGE_PERIOD), seg)
  }

  // ---- what is due to be acknowledged ----

  predicate AckToTransmit(s: Tcb)
    requires s.rx.Valid() && s.rx.Capacity() <= MAX_RX_CAPACITY
  {
    s.remoteLastAck.Some? && Lt(s.remoteLastAck.value, NextExpected(s))
  }

  predicate WindowToUpdate(s: Tcb)
    requires s.rx.Valid()
  {
    && (s.state.SynSent? || s.state.SynReceived? || s.state.Established? || s.state.FinWait1? || s.state.FinWait2?)
    && ScaledWindow(s) > s.remoteLastWin
  }

  // ---- the invariant ----

  /**
   A SYN that is out is covered by the retransmit timer, and nothing else wants to be sent before it
   is acknowledged. Otherwise a second SYN would go out one sequence number too high.
   */
  predicate SynOk(s: Tcb)
    requires s.rx.Valid() && s.rx.Capacity() <= MAX_RX_CAPACITY
  {
    SentSyn(s.state) && s.remoteLastSeq != s.localSeq ==>
      s.timer.Retransmit? && !AckToTransmit(s) && !WindowToUpdate(s)
  }

  /** What the state alone says about the buffers, the peer and the timer. */
  predicate ShapeOk(s: Tcb) {
    && (s.state.Listen? ==> s.tuple.None?)
    && (s.tuple.None? ==> s.state.Listen? || s.state.Closed?)
    && (s.state.Listen? || SentSyn(s.state) ==> s.rx.length == 0)
    && (s.state.Listen? || SentSyn(s.state) || s.state.FinWait2? || s.state.TimeWait? ==> s.tx.length == 0)
    && (s.timer.Close? ==> s.state.TimeWait? || s.state.Closed?)
    && (s.timer.Retransmit? ==> s.timer.delay > 0)
    && s.remoteMss > 0
  }

  /** Holds in every reachable state, whatever segments arrive; see `TcpInvariant.RunKeepsInv`. */
  predicate Inv(s: Tcb) {
    Wf(s) && SynOk(s) && ShapeOk(s)
  }
}
