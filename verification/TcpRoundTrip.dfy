/** Round trips are measured: the time from a send to its acknowledgement goes into the estimate. */
module TcpRoundTrip {
  import opened Common
  import opened SeqNumbers
  import opened RttEstimation
  import opened Tcp
  import opened TcpProcess
  import opened TcpDispatch
  import opened TcpTimer
  import opened TcpKarn

  /** With no measurement running, a send that goes beyond all before it starts one. */
  lemma SendIsMeasured(cx: Context, s: Tcb)
    requires Inv(s) && CxOk(cx, s) && s.tuple.Some? && SendsSome(cx, s, true) && s.rtte.timestamp.None?
    ensures var r := Dispatch(cx, s, true).s;
      s.rtte.maxSeqSent.None? || Gt(r.remoteLastSeq, s.rtte.maxSeqSent.value) ==>
        && r.rtte.timestamp == Some((cx.now, r.remoteLastSeq))
        && (!Rewinds(cx, s) ==> r.rtte.rtt == s.rtte.rtt && r.rtte.deviation == s.rtte.deviation)
  {
    hide SynOk, ShapeOk, Wf, BeforeSend, WhatToDo, AfterSend, SeqToTransmit, IsKeepAlive, Draft, Outgoing, Rewinds;
    hide Diff, Add;
    BeforeSendKeepsInv(cx, s);
    BeforeSendFrame(cx, s);
    AfterSendFrame(cx, BeforeSend(cx, s));
  }

  /** The segment acknowledges all that was sent. */
  predicate AcksAll(s: Tcb, seg: Segment)
    requires Inv(s)
  {
    && Live(s.state) && Accepts(s, seg) && WireOk(seg) && CheckAck(s, seg).AckAccept? && !seg.control.Rst?
    && seg.ack == Some(s.remoteLastSeq) && (s.state.SynSent? || SegmentInWindow(s, seg))
  }

  /**
   New octets are sent with no measurement running, and the next segment acknowledges them: an eighth of the estimate
   is then the time between, in milliseconds, and a quarter of the deviation how far that is from the new estimate.
   */
  lemma RoundTripIsMeasured(cx: Context, s: Tcb, later: Context, seg: Segment, isn: SeqNumber)
    requires Inv(s) && CxOk(cx, s) && s.tuple.Some? && SendsSome(cx, s, true) && !Rewinds(cx, s)
    requires s.rtte.timestamp.None? && Bounded(s.rtte, HALF - 1)
    requires Inv(Dispatch(cx, s, true).s) && AcksAll(Dispatch(cx, s, true).s, seg)
    requires s.rtte.maxSeqSent.None? || Gt(Dispatch(cx, s, true).s.remoteLastSeq, s.rtte.maxSeqSent.value)
    requires cx.now <= later.now && (later.now - cx.now) / 1000 < HALF
    ensures var ms := (later.now - cx.now) / 1000;
      var rtte := Process(later, Dispatch(cx, s, true).s, seg, isn).s.rtte;
      && rtte.rtt == (7 * s.rtte.rtt + ms + 7) / 8
      && rtte.deviation == (3 * s.rtte.deviation + Abs(rtte.rtt - ms) + 3) / 4
      && rtte.timestamp.None? && rtte.rtoCount == 0
  {
    hide Inv, Dispatch, Process, CheckAck, SegmentInWindow, SendsSome, Rewinds, Sample, Elapsed, Bounded;
    SendIsMeasured(cx, s);
    var r := Dispatch(cx, s, true).s;
    NotBefore(r.remoteLastSeq);
    ProcessRtt(later, r, seg, isn);
    var ms := (later.now - cx.now) / 1000;
    ElapsedIs(r.rtte, later.now, ms);
    SampleIs(s.rtte, r.rtte, ms);
  }

  lemma ElapsedIs(r: Rtt, now: int, ms: nat)
    requires r.timestamp.Some? && r.timestamp.value.0 <= now && (now - r.timestamp.value.0) / 1000 == ms < HALF
    ensures Elapsed(r, now) == ms
  {
  }

  lemma SampleIs(s: Rtt, r: Rtt, ms: nat)
    requires Bounded(s, HALF - 1) && ms < HALF && r.rtt == s.rtt && r.deviation == s.deviation
    ensures var t := Sample(r, ms);
      && t.rtt == (7 * s.rtt + ms + 7) / 8 && t.deviation == (3 * s.deviation + Abs(t.rtt - ms) + 3) / 4
      && t.rtoCount == 0
  {
  }

  lemma NotBefore(a: SeqNumber)
    ensures Ge(a, a)
  {
  }
}
