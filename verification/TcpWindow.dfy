/** Window scaling: what the advertised window promises, and that the promise fits what is stored. */
module TcpWindow {
  import opened Common
  import opened Tcp
  import opened TcpProcess
  import opened TcpDispatch

  function Pow2(k: nat): nat {
    if k == 0 then 1 else 2 * Pow2(k - 1)
  }

  lemma {:induction false} ShlBound(w: nat, k: nat, bits: nat)
    requires k <= bits && w < Pow2(bits - k)
    ensures Shl(w, k) < Pow2(bits)
    decreases k
  {
    if k > 0 {
      ShlBound(2 * w, k - 1, bits);
    }
  }

  /** A scaled window stays below 2^30. */
  lemma RemoteWindowBound(s: Tcb, seg: Segment)
    requires WireOk(seg) && (s.remoteWinScale.Some? ==> s.remoteWinScale.value <= 14)
    ensures RemoteWindow(s, seg) < 0x4000_0000
  {
    var k := if seg.control.Syn? || s.remoteWinScale.None? then 0 else s.remoteWinScale.value;
    Pow2Values();
    Pow2Monotone(16, 30 - k);
    ShlBound(seg.windowLen, k, 30);
  }

  lemma Pow2Values()
    ensures Pow2(16) == 0x1_0000 && Pow2(30) == 0x4000_0000
  {
    assert Pow2(4) == 16;
    assert Pow2(8) == 256;
    assert Pow2(12) == 0x1000;
    assert Pow2(16) == 0x1_0000;
    assert Pow2(20) == 0x10_0000;
    assert Pow2(24) == 0x100_0000;
    assert Pow2(28) == 0x1000_0000;
  }

  lemma {:induction false} Pow2Monotone(a: nat, b: nat)
    requires a <= b
    ensures Pow2(a) <= Pow2(b)
    decreases b
  {
    if a < b {
      Pow2Monotone(a, b - 1);
    }
  }

  // ---- the shift a socket starts with ----

  lemma {:induction false} BitLengthMeaning(n: nat, bits: nat)
    ensures BitLength(n) <= bits <==> n < Pow2(bits)
    decreases n, bits
  {
    if n > 0 && bits > 0 {
      BitLengthMeaning(n / 2, bits - 1);
    } else if n > 0 {
      assert BitLength(n) >= 1;
    } else {
      Pow2Monotone(0, bits);
    }
  }

  /** The limit of section 2.3 of RFC 7323 is kept exactly for capacities below 2^30. */
  lemma ShiftWithinRfc(capacity: nat)
    ensures InitialShift(capacity) <= 14 <==> capacity < 0x4000_0000
  {
    Pow2Values();
    BitLengthMeaning(capacity, 30);
  }

  /** The capacity guard of the constructor lets 2^30 through, which gives a shift of 15. */
  lemma ShiftAtGuard()
    ensures InitialShift(MAX_RX_CAPACITY) > 14
  {
    ShiftWithinRfc(MAX_RX_CAPACITY);
  }

  lemma {:induction false} ShrBound(w: nat, k: nat, bits: nat)
    requires w < Pow2(bits + k)
    ensures Shr(w, k) < Pow2(bits)
    decreases k
  {
    if k > 0 {
      ShrBound(w / 2, k - 1, bits);
    }
  }

  lemma Pow2Sixteen()
    ensures Pow2(16) == 0x1_0000
  {
    Pow2Values();
  }

  /** The whole capacity, shifted, fits the 16-bit window field. */
  lemma ShiftedCapacityFits(capacity: nat)
    ensures Shr(capacity, InitialShift(capacity)) < 0x1_0000
  {
    hide Pow2, Shr, BitLength;
    Pow2Sixteen();
    BitLengthMeaning(capacity, BitLength(capacity));
    Pow2Monotone(BitLength(capacity), 16 + InitialShift(capacity));
    ShrBound(capacity, InitialShift(capacity), 16);
  }

  // ---- what is advertised ----

  lemma {:induction false} ShlMonotone(a: nat, b: nat, k: nat)
    requires a <= b
    ensures Shl(a, k) <= Shl(b, k)
    decreases k
  {
    if k > 0 {
      ShlMonotone(2 * a, 2 * b, k - 1);
    }
  }

  lemma {:induction false} ShlDouble(w: nat, k: nat)
    ensures Shl(2 * w, k) == 2 * Shl(w, k)
    decreases k
  {
    if k > 0 {
      ShlDouble(2 * w, k - 1);
    }
  }

  lemma {:induction false} ShlShr(w: nat, k: nat)
    ensures Shl(Shr(w, k), k) <= w
    decreases k
  {
    if k > 0 {
      ShlShr(w / 2, k - 1);
      ShlDouble(Shr(w / 2, k - 1), k - 1);
    }
  }

  lemma {:induction false} ShlNext(w: nat, k: nat)
    ensures w < Shl(Shr(w, k) + 1, k)
    decreases k
  {
    if k > 0 {
      ShlNext(w / 2, k - 1);
      ShlDouble(Shr(w / 2, k - 1) + 1, k - 1);
    }
  }

  /**
   The advertised window, shifted back as the peer does, never exceeds the free space, and the next number would,
   if the field can hold it.
   */
  lemma AdvertisedFits(s: Tcb)
    requires s.rx.Valid()
    ensures Shl(ScaledWindow(s), s.remoteWinShift) <= s.rx.Window()
    ensures ScaledWindow(s) == 0xffff || s.rx.Window() < Shl(ScaledWindow(s) + 1, s.remoteWinShift)
  {
    ShlShr(s.rx.Window(), s.remoteWinShift);
    ShlNext(s.rx.Window(), s.remoteWinShift);
    ShlMonotone(ScaledWindow(s), Shr(s.rx.Window(), s.remoteWinShift), s.remoteWinShift);
  }

  /** The shift the peer applies to the window field of `seg`. */
  function AppliedShift(s: Tcb, seg: Segment): nat {
    if seg.control.Syn? then 0 else s.remoteWinShift
  }

  /**
   Every segment a socket sends, on its own or in reply, promises at most the room behind the next expected octet:
   acknowledgement plus window is at most `remoteSeq + capacity`. And it promises all of it, as far as the field and
   its unit can say: a window one larger would not fit the field or not the room. In a SYN the unit is one octet, and
   so the window is the free space itself, up to 65535.
   */
  predicate Promises(s: Tcb, seg: Segment)
    requires s.rx.Valid() && s.rx.Capacity() <= MAX_RX_CAPACITY
  {
    && (seg.ack.Some? ==> seg.ack.value == NextExpected(s))
    && s.rx.length + Shl(seg.windowLen, AppliedShift(s, seg)) <= s.rx.Capacity()
    && seg.windowLen < 0x1_0000
    && (seg.windowLen == 0xffff || s.rx.Window() < Shl(seg.windowLen + 1, AppliedShift(s, seg)))
    && (seg.control.Syn? ==> seg.windowLen == MinOf(s.rx.Window(), 0xffff))
  }

  lemma OutgoingPromises(cx: Context, s: Tcb)
    requires Wf(s) && s.tuple.Some? && CxOk(cx, s)
    ensures Promises(s, Outgoing(cx, s))
  {
    AdvertisedFits(s);
    hide Shr;
  }

  lemma AckSegmentPromises(s: Tcb, seg: Segment)
    requires s.rx.Valid() && s.rx.Capacity() <= MAX_RX_CAPACITY
    ensures Promises(s, AckSegment(s, seg))
  {
    AdvertisedFits(s);
  }

  /** A segment that ends inside the window is not cut on the right. */
  lemma InsideIsNotCut(s: Tcb, seg: Segment)
    requires s.rx.Valid() && s.rx.Capacity() <= MAX_RX_CAPACITY && WireOk(seg) && SegmentInWindow(s, seg)
    requires SegmentAt(s, seg) + |seg.payload| <= s.rx.Window()
    ensures var (payload, offset) := Overlap(s, seg);
      && offset + |payload| == SegmentAt(s, seg) + |seg.payload|
      && payload == seg.payload[|seg.payload| - |payload|..]
  {
  }
}
