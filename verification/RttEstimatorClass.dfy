/** The estimator as stored: unsigned 32-bit fields updated in place, with overflow ruled out. */
module RttEstimatorClass {
  import opened Common
  import opened SeqNumbers
  import R = RttEstimation

  newtype u32 = x: int | 0 <= x < 0x1_0000_0000
  newtype u8 = x: int | 0 <= x < 0x100
  newtype i32 = x: int | -0x8000_0000 <= x < 0x8000_0000

  function AsI32(x: u32): (r: i32)
    ensures r as int == R.AsI32(x as nat)
  {
    R.AsI32(x as nat) as i32
  }

  function UnsignedAbs(x: i32): (r: u32)
    ensures r as int == R.Abs(x as int)
  {
    if x < 0 then (-(x as int)) as u32 else x as u32
  }

  class RttEstimator {
    var rtt: u32
    var deviation: u32
    var timestamp: Option<(int, SeqNumber)>
    var maxSeqSent: Option<SeqNumber>
    var rtoCount: u8

    function View(): R.Rtt
      reads this
    {
      R.Rtt(rtt as nat, deviation as nat, timestamp, maxSeqSent, rtoCount as nat)
    }

    /** The timeout of the present estimate can be computed. */
    ghost predicate Valid()
      reads this
    {
      R.Fits(View())
    }

    constructor ()
      ensures Valid() && View() == R.DEFAULT_RTT
    {
      rtt, deviation := 300, 100;
      timestamp, maxSeqSent := None, None;
      rtoCount := 0;
    }

    method Reset()
      modifies this
      ensures Valid() && View() == R.DEFAULT_RTT
    {
      rtt, deviation := 300, 100;
      timestamp, maxSeqSent := None, None;
      rtoCount := 0;
    }

    method RetransmissionTimeout() returns (ms: u32)
      requires Valid()
      ensures ms as nat == R.RtoMillis(View())
    {
      var margin := if deviation * 4 > 5 then deviation * 4 else 5;
      ms := rtt + margin;
      if ms < 10 {
        ms := 10;
      }
      if ms > 10000 {
        ms := 10000;
      }
    }

    method Sample(newRtt: u32)
      requires Valid() && R.SampleFits(View(), newRtt as nat)
      modifies this
      ensures Valid() && View() == old(R.Sample(View(), newRtt as nat))
    {
      rtt := (rtt * 7 + newRtt + 7) / 8;
      var diff := AsI32(rtt) - AsI32(newRtt);
      deviation := (deviation * 3 + UnsignedAbs(diff) + 3) / 4;
      rtoCount := 0;
    }

    method OnSend(now: int, seqEnd: SeqNumber)
      requires Valid()
      modifies this`maxSeqSent, this`timestamp
      ensures Valid() && View() == old(R.OnSend(View(), now, seqEnd))
    {
      if maxSeqSent.None? || Gt(seqEnd, maxSeqSent.value) {
        maxSeqSent := Some(seqEnd);
        if timestamp.None? {
          timestamp := Some((now, seqEnd));
        }
      }
    }

    method OnAck(now: int, ack: SeqNumber)
      requires Valid()
      requires R.Samples(View(), ack) ==> R.SampleFits(View(), R.Elapsed(View(), now))
      modifies this
      ensures Valid() && View() == old(R.OnAck(View(), now, ack))
    {
      if timestamp.Some? {
        var (sentAt, sentSeq) := timestamp.value;
        if Ge(ack, sentSeq) {
          Sample((R.Abs(now - sentAt) / 1000 % R.U32) as u32);
          timestamp := None;
        }
      }
    }

    method OnRetransmit()
      requires Valid() && R.Fits(R.OnRetransmit(View()))
      modifies this
      ensures Valid() && View() == old(R.OnRetransmit(View()))
    {
      timestamp := None;
      rtoCount := if rtoCount == 255 then 255 else rtoCount + 1;
      if rtoCount >= 3 {
        rtoCount := 0;
        rtt := if rtt * 2 < 10000 then rtt * 2 else 10000;
      }
    }
  }
}
