/** From the packets that arrive to the ACK that the peer reads (section 19.3 of RFC 9000). */
module AckPipeline {
  import opened Bytes
  import opened VarInts
  import opened AckRanges
  import opened ReceivedPackets
  import AckFrames

  lemma {:induction false} ReceivedBound(es: seq<Event>, max: nat)
    requires forall i :: 0 <= i < |es| && es[i].Receive? ==> es[i].pn <= max
    ensures forall q :: q in Received(es) ==> q <= max
  {
    if es != [] {
      ReceivedBound(es[..|es|-1], max);
    }
  }

  lemma SomethingToAck(rs: seq<AckRange>, es: seq<Event>)
    requires Acknowledges(rs, es)
    ensures rs != [] <==> exists q :: q in Received(es) && Lowest(es) <= q
  {
    if rs != [] {
      LargestIsCovered(rs);
      assert LargestAcked(rs) in Received(es);
    } else {
      forall q | q in Received(es) ensures q < Lowest(es) {
        assert !Covers(rs, q);
      }
    }
  }

  lemma RangesWritable(rs: seq<AckRange>, es: seq<Event>, delay: nat)
    requires Acknowledges(rs, es) && rs != [] && delay < 0x8000_0000_0000_0000
    requires forall i :: 0 <= i < |es| && es[i].Receive? ==> es[i].pn <= MAX_VAR_INT_8
    ensures AckFrames.Writable(AckFrames.AckFrame(rs, delay))
  {
    LargestIsCovered(rs);
    ReceivedBound(es, MAX_VAR_INT_8);
  }

  lemma WellFormedPrefix(rs: seq<AckRange>, m: nat)
    requires WellFormed(rs) && 0 < m <= |rs|
    ensures WellFormed(rs[..m]) && LowestAcked(rs[..m]) == rs[m-1].smallest
  {
  }

  lemma HighestCover(rs: seq<AckRange>, m: nat, es: seq<Event>)
    requires Acknowledges(rs, es) && 0 < m <= |rs|
    ensures WellFormed(rs[..m])
    ensures forall q :: Covers(rs[..m], q) <==> q in Received(es) && Lowest(es) <= q && LowestAcked(rs[..m]) <= q
    ensures forall q: nat ::
              Covers(rs[..m], q) <==> Receive(q) in es && OfInterest(es, q) && LowestAcked(rs[..m]) <= q
  {
    hide WellFormed, Covers, Received, Lowest, OfInterest, LowestAcked;
    WellFormedPrefix(rs, m);
    AcknowledgesIff(rs, es);
    forall q ensures Covers(rs[..m], q) <==> Covers(rs, q) && rs[m-1].smallest <= q {
      AckFrames.WrittenCover(rs, m, q);
    }
  }

  /** For every run of arriving packets and limits, up to the first packet that comes when too many ranges are tracked:
      there is an ACK exactly if a number received is not ignored; it has at most 1008 bytes, the peer reads from it as
      many of the tracked ranges as numEncodableAckRanges allows, highest first, and they acknowledge exactly the
      numbers received and not ignored, down to the lowest range that was written. */
  method Acknowledge(es: seq<Event>, delay: nat)
    returns (ok: bool, n: nat, tracked: seq<AckRange>, bs: seq<byte>, read: AckFrames.Parsed)
    requires forall i :: 0 <= i < |es| && es[i].Receive? ==> es[i].pn <= MAX_VAR_INT_8
    requires delay < 0x8000_0000_0000_0000
    ensures n <= |es| && (forall k :: 0 <= k < n ==> !Overfull(es, k)) && (n < |es| ==> Overfull(es, n))
    ensures |es| <= MAX_TRACKED_RANGES ==> n == |es|
    ensures ok <==> exists q :: q in Received(es[..n]) && Lowest(es[..n]) <= q
    ensures Acknowledges(tracked, es[..n]) && (ok <==> tracked != [])
    ensures ok ==> |bs| <= 1008 && read == AckFrames.Parse(bs, 3) && read.Parsed? && read.rest == []
    ensures ok ==> AckFrames.Writable(AckFrames.AckFrame(tracked, delay))
    ensures ok ==> var m := AckFrames.NumEncodable(AckFrames.AckFrame(tracked, delay));
                   m <= |tracked| && read.frame.ranges == tracked[..m]
    ensures ok ==> WellFormed(read.frame.ranges) && read.frame.delay == delay - delay % 8000
    ensures ok ==> forall q :: Covers(read.frame.ranges, q) <==>
              q in Received(es[..n]) && Lowest(es[..n]) <= q && LowestAcked(read.frame.ranges) <= q
    ensures ok ==> forall q: nat :: Covers(read.frame.ranges, q) <==>
              Receive(q) in es[..n] && OfInterest(es[..n], q) && LowestAcked(read.frame.ranges) <= q
  {
    hide AckFrames.Parse, AckFrames.Encode, AckFrames.NumEncodable, AckFrames.Writable, Overfull, Acknowledges, Covers;
    hide Received, Lowest, OfInterest, WellFormed, LowestAcked;
    tracked, n := ReceivedPackets.Run(es);
    ok := tracked != [];
    SomethingToAck(tracked, es[..n]);
    if !ok {
      return ok, n, tracked, [], AckFrames.Invalid(AckFrames.UnexpectedEof);
    }
    RangesWritable(tracked, es[..n], delay);
    var frame := AckFrames.AckFrame(tracked, delay);
    bs := AckFrames.Write(frame);
    var length := AckFrames.Length(frame);
    read := AckFrames.Parse(bs, 3);
    HighestCover(tracked, AckFrames.NumEncodable(frame), es[..n]);
  }
}
