/** The ranges of an ACK frame and the two ways the source looks a packet number up in them:
    AcksPacket's binary search (internal/wire/ack_frame.go) and, in module SentPacketHandlers, the
    ascending walk of determineNewlyAckedPackets. */
module AckRanges {

  datatype AckRange = AckRange(smallest: nat, largest: nat)

  predicate InRange(r: AckRange, pn: int) {
    r.smallest <= pn <= r.largest
  }

  /** What an ACK frame acknowledges. */
  ghost predicate Covers(rs: seq<AckRange>, pn: int) {
    exists i :: 0 <= i < |rs| && InRange(rs[i], pn)
  }

  /** Highest range first, ranges neither empty nor overlapping nor adjacent. */
  predicate WellFormed(rs: seq<AckRange>) {
    && 0 < |rs|
    && (forall i :: 0 <= i < |rs| ==> rs[i].smallest <= rs[i].largest)
    && (forall i, j :: 0 <= i < j < |rs| ==> rs[j].largest + 1 < rs[i].smallest)
  }

  function LargestAcked(rs: seq<AckRange>): nat
    requires 0 < |rs|
  {
    rs[0].largest
  }

  function LowestAcked(rs: seq<AckRange>): nat
    requires 0 < |rs|
  {
    rs[|rs|-1].smallest
  }

  /** Checking neighbours only, as the source does, decides well-formedness of the whole list. */
  method ValidateAckRanges(rs: seq<AckRange>) returns (ok: bool)
    ensures ok <==> WellFormed(rs)
  {
    if |rs| == 0 {
      return false;
    }
    for i := 0 to |rs|
      invariant forall k :: 0 <= k < i ==> rs[k].smallest <= rs[k].largest
    {
      if rs[i].smallest > rs[i].largest {
        return false;
      }
    }
    for i := 1 to |rs|
      invariant forall k, j :: 0 <= k < j < i ==> rs[j].largest + 1 < rs[k].smallest
    {
      var last := rs[i-1];
      if last.smallest <= rs[i].smallest {
        return false;
      }
      if last.smallest <= rs[i].largest + 1 {
        return false;
      }
    }
    return true;
  }

  /** sort.Search over the ranges: the first index whose range starts at or below p. */
  method AcksPacket(rs: seq<AckRange>, p: int) returns (acked: bool)
    requires WellFormed(rs)
    ensures acked <==> Covers(rs, p)
  {
    if p < LowestAcked(rs) || p > LargestAcked(rs) {
      return false;
    }
    var i, j := 0, |rs|;
    while i < j
      invariant 0 <= i <= j <= |rs|
      invariant forall k :: 0 <= k < i ==> p < rs[k].smallest
      invariant forall k :: j <= k < |rs| ==> rs[k].smallest <= p
    {
      var h := (i + j) / 2;
      if p >= rs[h].smallest {
        j := h;
      } else {
        i := h + 1;
      }
    }
    assert i < |rs|;
    acked := p <= rs[i].largest;
    assert acked ==> InRange(rs[i], p);
  }
}
