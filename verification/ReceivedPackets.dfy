/** Which packets to acknowledge: the range list of internal/ackhandler/received_packet_history.go and the tracker above
    it (internal/ackhandler/received_packet_tracker.go). */
module ReceivedPackets {
  import opened Common
  import opened AckRanges

  const MAX_TRACKED_RANGES := 1000

  predicate Within(r: Interval, p: int) {
    r.start <= p <= r.end
  }

  /** The set of packet numbers a list of intervals stands for. */
  ghost predicate Has(rs: seq<Interval>, p: int) {
    exists i :: 0 <= i < |rs| && Within(rs[i], p)
  }

  /** Lowest interval first, none empty, overlapping or adjacent to the next. */
  ghost predicate Sorted(rs: seq<Interval>) {
    && (forall i :: 0 <= i < |rs| ==> rs[i].start <= rs[i].end)
    && (forall i, j :: 0 <= i < j < |rs| ==> rs[i].end + 1 < rs[j].start)
  }

  /** The list rs' stands for the numbers of rs and p. */
  ghost predicate Adds(rs': seq<Interval>, rs: seq<Interval>, p: nat) {
    Sorted(rs') && forall q :: Has(rs', q) <==> Has(rs, q) || q == p
  }

  // ----- editing part of a list

  ghost predicate Apart(a: seq<Interval>, b: seq<Interval>) {
    a == [] || b == [] || a[|a|-1].end + 1 < b[0].start
  }

  lemma SortedSplit(a: seq<Interval>, b: seq<Interval>)
    requires Sorted(a + b)
    ensures Sorted(a) && Sorted(b) && Apart(a, b)
  {
    var ab := a + b;
    assert forall i :: 0 <= i < |a| ==> a[i] == ab[i];
    assert forall i :: 0 <= i < |b| ==> b[i] == ab[|a| + i];
  }

  lemma SortedJoin(a: seq<Interval>, b: seq<Interval>)
    requires Sorted(a) && Sorted(b) && Apart(a, b)
    ensures Sorted(a + b)
  {
    var ab := a + b;
    forall i, j | 0 <= i < j < |ab| ensures ab[i].end + 1 < ab[j].start {
      if i < |a| <= j {
        assert a[i].end <= a[|a|-1].end && b[0].start <= b[j-|a|].start;
      }
    }
  }

  lemma HasConcat(a: seq<Interval>, b: seq<Interval>, q: int)
    ensures Has(a + b, q) <==> Has(a, q) || Has(b, q)
  {
    var ab := a + b;
    if Has(ab, q) {
      var i :| 0 <= i < |ab| && Within(ab[i], q);
      assert if i < |a| then Within(a[i], q) else Within(b[i-|a|], q);
    }
    if Has(a, q) {
      var i :| 0 <= i < |a| && Within(a[i], q);
      assert Within(ab[i], q);
    }
    if Has(b, q) {
      var i :| 0 <= i < |b| && Within(b[i], q);
      assert Within(ab[|a| + i], q);
    }
  }

  lemma HasOne(r: Interval, q: int)
    ensures Has([r], q) <==> Within(r, q)
  {
    assert [r][0] == r;
  }

  lemma SortedReplace(a: seq<Interval>, mid: seq<Interval>, r: Interval, b: seq<Interval>)
    requires Sorted(a + mid + b) && r.start <= r.end && Apart(a, [r]) && Apart([r], b)
    ensures Sorted(a + [r] + b)
  {
    SortedSplit(a + mid, b);
    SortedSplit(a, mid);
    SortedJoin(a, [r]);
    SortedJoin(a + [r], b);
  }

  lemma HasReplace(a: seq<Interval>, mid: seq<Interval>, r: Interval, b: seq<Interval>, p: nat, q: int)
    requires Within(r, q) <==> Has(mid, q) || q == p
    ensures Has(a + [r] + b, q) <==> Has(a + mid + b, q) || q == p
  {
    hide Has, Within;
    HasConcat(a + [r], b, q);
    HasConcat(a, [r], q);
    HasConcat(a + mid, b, q);
    HasConcat(a, mid, q);
    HasOne(r, q);
  }

  // One part of the list is replaced by an interval that also holds p.
  lemma Replace(a: seq<Interval>, mid: seq<Interval>, r: Interval, b: seq<Interval>, p: nat)
    requires Sorted(a + mid + b) && r.start <= r.end && Apart(a, [r]) && Apart([r], b)
    requires forall q :: Within(r, q) <==> Has(mid, q) || q == p
    ensures Adds(a + [r] + b, a + mid + b, p)
  {
    hide Has, Within, Sorted;
    SortedReplace(a, mid, r, b);
    forall q ensures Has(a + [r] + b, q) <==> Has(a + mid + b, q) || q == p {
      HasReplace(a, mid, r, b, p, q);
    }
  }

  // ----- the edits of ReceivedPacket at interval k; p lies below all later intervals

  lemma Already(rs: seq<Interval>, k: nat, p: nat)
    requires Sorted(rs) && k < |rs| && Within(rs[k], p)
    ensures Adds(rs, rs, p)
  {
    assert Has(rs, p);
  }

  // Interval k grows by p; the intervals beside it stay apart.
  lemma Extend(rs: seq<Interval>, k: nat, p: nat, r: Interval)
    requires Sorted(rs) && k < |rs|
    requires (r == Interval(rs[k].start, p) && rs[k].end + 1 == p) ||
              (r == Interval(p, rs[k].end) && rs[k].start == p + 1)
    requires k + 1 < |rs| ==> r.end + 1 < rs[k+1].start
    requires 0 < k ==> rs[k-1].end + 1 < r.start
    ensures Adds(rs[k := r], rs, p)
  {
    assert rs == rs[..k] + [rs[k]] + rs[k+1..];
    assert rs[k := r] == rs[..k] + [r] + rs[k+1..];
    forall q ensures Within(r, q) <==> Has([rs[k]], q) || q == p {
      HasOne(rs[k], q);
    }
    Replace(rs[..k], [rs[k]], r, rs[k+1..], p);
  }

  // Interval k grows downwards by p and meets interval k-1.
  lemma Merge(rs: seq<Interval>, k: nat, p: nat)
    requires Sorted(rs) && 0 < k < |rs|
    requires rs[k].start == p + 1 && rs[k-1].end + 1 == p
    ensures Adds(rs[..k-1] + [Interval(rs[k-1].start, rs[k].end)] + rs[k+1..], rs, p)
  {
    var x, y := rs[k-1], rs[k];
    assert rs == rs[..k-1] + [x, y] + rs[k+1..];
    forall q ensures Within(Interval(x.start, y.end), q) <==> Has([x, y], q) || q == p {
      assert [x, y] == [x] + [y];
      HasConcat([x], [y], q);
      HasOne(x, q);
      HasOne(y, q);
    }
    Replace(rs[..k-1], [x, y], Interval(x.start, y.end), rs[k+1..], p);
  }

  // A new interval between k-1 and k.
  lemma Insert(rs: seq<Interval>, k: nat, p: nat)
    requires Sorted(rs) && k <= |rs|
    requires 0 < k ==> rs[k-1].end + 1 < p
    requires k < |rs| ==> p + 1 < rs[k].start
    ensures Adds(rs[..k] + [Interval(p, p)] + rs[k..], rs, p)
  {
    hide Adds;
    assert rs == rs[..k] + [] + rs[k..];
    Replace(rs[..k], [], Interval(p, p), rs[k..], p);
  }

  /** The walk of ReceivedPacket, from the highest interval down. */
  method AddNumber(rs: seq<Interval>, p: nat) returns (rs': seq<Interval>)
    requires Sorted(rs)
    ensures Adds(rs', rs, p) && |rs'| <= |rs| + 1
  {
    hide Adds, Has;
    var k := |rs|;
    while k > 0
      invariant 0 <= k <= |rs| && (k < |rs| ==> p + 1 < rs[k].start)
    {
      var el := rs[k-1];
      if el.start <= p <= el.end {
        Already(rs, k-1, p);
        return rs;
      }
      if el.end + 1 == p || el.start == p + 1 {
        var extended := if el.end + 1 == p then Interval(el.start, p) else Interval(p, el.end);
        if k > 1 && rs[k-2].end + 1 == extended.start {
          Merge(rs, k-1, p);
          return rs[..k-2] + [Interval(rs[k-2].start, extended.end)] + rs[k..];
        }
        Extend(rs, k-1, p, extended);
        return rs[k-1 := extended];
      }
      if p > el.end {
        break;
      }
      k := k - 1;
    }
    Insert(rs, k, p);
    return rs[..k] + [Interval(p, p)] + rs[k..];
  }

  // ----- the edits of DeleteBelow

  ghost predicate Trims(rs': seq<Interval>, rs: seq<Interval>, p: nat) {
    Sorted(rs') && forall q :: Has(rs', q) <==> Has(rs, q) && p <= q
  }

  lemma DropFirst(rs: seq<Interval>, p: nat)
    requires Sorted(rs) && rs != [] && rs[0].end < p
    ensures Sorted(rs[1..]) && forall q :: p <= q ==> (Has(rs[1..], q) <==> Has(rs, q))
  {
    forall q | p <= q ensures Has(rs[1..], q) <==> Has(rs, q) {
      if Has(rs[1..], q) {
        var i :| 0 <= i < |rs[1..]| && Within(rs[1..][i], q);
        assert Within(rs[i+1], q);
      }
      if Has(rs, q) {
        var i :| 0 <= i < |rs| && Within(rs[i], q);
        assert Within(rs[1..][i-1], q);
      }
    }
  }

  lemma CutFirst(rs: seq<Interval>, p: nat)
    requires Sorted(rs) && rs != [] && rs[0].start < p <= rs[0].end
    ensures Trims(rs[0 := Interval(p, rs[0].end)], rs, p)
  {
    var rs' := rs[0 := Interval(p, rs[0].end)];
    forall q ensures Has(rs', q) <==> Has(rs, q) && p <= q {
      if Has(rs', q) {
        var i :| 0 <= i < |rs'| && Within(rs'[i], q);
        assert Within(rs[i], q);
        assert 0 < i ==> rs[0].end + 1 < rs[i].start;
      }
      if Has(rs, q) && p <= q {
        var i :| 0 <= i < |rs| && Within(rs[i], q);
        assert Within(rs'[i], q);
      }
    }
  }

  lemma NothingBelow(rs: seq<Interval>, p: nat)
    requires Sorted(rs) && (rs != [] ==> p <= rs[0].start)
    ensures Trims(rs, rs, p)
  {
    forall q | Has(rs, q) ensures p <= q {
      var i :| 0 <= i < |rs| && Within(rs[i], q);
      assert 0 < i ==> rs[0].end + 1 < rs[i].start;
    }
  }

  /** The ranges, highest first, as an ACK frame wants them. */
  function HighestFirst(ranges: seq<Interval>): (rs: seq<AckRange>)
    ensures |rs| == |ranges|
    ensures forall i :: 0 <= i < |rs| ==> rs[i] == AckRange(ranges[|ranges|-1-i].start, ranges[|ranges|-1-i].end)
  {
    seq(|ranges|, i requires 0 <= i < |ranges| => AckRange(ranges[|ranges|-1-i].start, ranges[|ranges|-1-i].end))
  }

  lemma HighestFirstIs(ranges: seq<Interval>)
    requires Sorted(ranges)
    ensures ranges != [] ==> WellFormed(HighestFirst(ranges))
    ensures forall p :: Covers(HighestFirst(ranges), p) <==> Has(ranges, p)
  {
    var rs := HighestFirst(ranges);
    forall p ensures Covers(rs, p) <==> Has(ranges, p) {
      if Covers(rs, p) {
        var i :| 0 <= i < |rs| && InRange(rs[i], p);
        assert Within(ranges[|ranges|-1-i], p);
      }
      if Has(ranges, p) {
        var i :| 0 <= i < |ranges| && Within(ranges[i], p);
        assert InRange(rs[|ranges|-1-i], p);
      }
    }
  }

  class ReceivedPacketHistory {
    var ranges: seq<Interval>
    var lowestInReceivedPacketNumbers: nat

    ghost predicate Valid()
      reads this
    {
      Sorted(ranges)
    }

    constructor ()
      ensures Valid() && ranges == [] && lowestInReceivedPacketNumbers == 0
    {
      ranges, lowestInReceivedPacketNumbers := [], 0;
    }

    /** The number is added to those the ranges stand for, unless there are too many ranges. */
    method ReceivedPacket(p: nat) returns (ok: bool)
      requires Valid()
      modifies this`ranges
      ensures Valid()
      ensures ok <==> |old(ranges)| < MAX_TRACKED_RANGES
      ensures ok ==> Adds(ranges, old(ranges), p) && |ranges| <= |old(ranges)| + 1
      ensures !ok ==> ranges == old(ranges)
    {
      if |ranges| >= MAX_TRACKED_RANGES {
        return false;
      }
      ranges := AddNumber(ranges, p);
      return true;
    }

    /** What lies below p is forgotten, unless that has been done before. */
    method DeleteBelow(p: nat)
      requires Valid()
      modifies this
      ensures Valid()
      ensures lowestInReceivedPacketNumbers ==
                if p <= old(lowestInReceivedPacketNumbers) then old(lowestInReceivedPacketNumbers) else p
      ensures p <= old(lowestInReceivedPacketNumbers) ==> ranges == old(ranges)
      ensures p > old(lowestInReceivedPacketNumbers) ==> Trims(ranges, old(ranges), p) && |ranges| <= |old(ranges)|
    {
      if p <= lowestInReceivedPacketNumbers {
        return;
      }
      lowestInReceivedPacketNumbers := p;
      while ranges != []
        invariant Sorted(ranges) && lowestInReceivedPacketNumbers == p && |ranges| <= |old(ranges)|
        invariant forall q :: p <= q ==> (Has(ranges, q) <==> Has(old(ranges), q))
        decreases |ranges|
      {
        hide Has;
        var el := ranges[0];
        if el.start < p <= el.end {
          CutFirst(ranges, p);
          ranges := ranges[0 := Interval(p, el.end)];
          return;
        } else if el.end < p {
          DropFirst(ranges, p);
          ranges := ranges[1..];
        } else {
          NothingBelow(ranges, p);
          return;
        }
      }
    }

    /** The ranges, highest first, as an ACK frame wants them. */
    method GetAckRanges() returns (rs: seq<AckRange>)
      requires Valid()
      ensures rs == HighestFirst(ranges) && |rs| == |ranges|
      ensures rs != [] ==> WellFormed(rs)
      ensures forall p :: Covers(rs, p) <==> Has(ranges, p)
    {
      rs := [];
      var k := |ranges|;
      while k > 0
        invariant 0 <= k <= |ranges| && |rs| == |ranges| - k
        invariant forall i :: 0 <= i < |rs| ==> rs[i] == AckRange(ranges[|ranges|-1-i].start, ranges[|ranges|-1-i].end)
      {
        k := k - 1;
        rs := rs + [AckRange(ranges[k].start, ranges[k].end)];
      }
      HighestFirstIs(ranges);
    }
  }

  // ----- the tracker

  class ReceivedPacketTracker {
    const packetHistory: ReceivedPacketHistory
    var largestObserved: nat
    var ignoreBelow: nat

    ghost var received: set<nat>

    /** The ranges stand for exactly the packets received and not ignored. */
    ghost predicate Valid()
      reads this, packetHistory
    {
      && packetHistory.Valid() && packetHistory.lowestInReceivedPacketNumbers == ignoreBelow
      && (forall q :: Has(packetHistory.ranges, q) <==> q in received && ignoreBelow <= q)
      && (forall q :: q in received ==> q <= largestObserved)
    }

    constructor ()
      ensures Valid() && received == {} && ignoreBelow == 0 && fresh(packetHistory) && packetHistory.ranges == []
    {
      packetHistory := new ReceivedPacketHistory();
      largestObserved, ignoreBelow, received := 0, 0, {};
    }

    method ReceivedPacket(pn: nat) returns (ok: bool)
      requires Valid()
      modifies this`largestObserved, this`received, packetHistory
      ensures Valid()
      ensures received == if ok && pn >= ignoreBelow then old(received) + {pn} else old(received)
      ensures ok <==> pn < ignoreBelow || |old(packetHistory.ranges)| < MAX_TRACKED_RANGES
      ensures |packetHistory.ranges| <= |old(packetHistory.ranges)| + 1
      ensures !ok ==> packetHistory.ranges == old(packetHistory.ranges)
      ensures largestObserved == if ignoreBelow <= pn && old(largestObserved) < pn then pn else old(largestObserved)
    {
      if pn < ignoreBelow {
        return true;
      }
      if pn >= largestObserved {
        largestObserved := pn;
      }
      ok := packetHistory.ReceivedPacket(pn);
      if ok {
        received := received + {pn};
      }
    }

    lemma AckOf(es: seq<Event>)
      requires Valid() && received == Received(es) && ignoreBelow == Lowest(es)
      ensures Acknowledges(HighestFirst(packetHistory.ranges), es) && packetHistory.Valid()
    {
      HighestFirstIs(packetHistory.ranges);
    }

    method IgnoreBelow(p: nat)
      requires Valid()
      modifies this`ignoreBelow, packetHistory
      ensures Valid() && ignoreBelow == if p <= old(ignoreBelow) then old(ignoreBelow) else p
      ensures |packetHistory.ranges| <= |old(packetHistory.ranges)|
    {
      if p <= ignoreBelow {
        return;
      }
      ignoreBelow := p;
      packetHistory.DeleteBelow(p);
    }
  }

  // ----- whole runs

  datatype Event = Receive(pn: nat) | Ignore(below: nat)

  /** The lowest number that is still of interest after the events. */
  function Lowest(es: seq<Event>): nat {
    if es == [] then 0
    else
      var low, e := Lowest(es[..|es|-1]), es[|es|-1];
      if e.Ignore? && e.below > low then e.below else low
  }

  /** The numbers of all packets that arrived and were not below the limit of their time. */
  function Received(es: seq<Event>): set<nat> {
    if es == [] then {}
    else
      var before, e := Received(es[..|es|-1]), es[|es|-1];
      if e.Receive? && e.pn >= Lowest(es[..|es|-1]) then before + {e.pn} else before
  }

  /** The ranges acknowledge exactly the numbers received and not ignored. */
  ghost predicate Acknowledges(rs: seq<AckRange>, es: seq<Event>) {
    && (rs != [] ==> WellFormed(rs))
    && forall q :: Covers(rs, q) <==> q in Received(es) && Lowest(es) <= q
  }

  lemma LargestIsCovered(rs: seq<AckRange>)
    requires WellFormed(rs)
    ensures Covers(rs, LargestAcked(rs))
  {
    assert InRange(rs[0], LargestAcked(rs));
  }

  // In ranges that are neither overlapping nor adjacent, the highest range is as long as it can be.
  lemma SameHighest(a: seq<AckRange>, b: seq<AckRange>)
    requires WellFormed(a) && WellFormed(b) && forall q :: Covers(a, q) <==> Covers(b, q)
    ensures a[0] == b[0]
  {
    LargestIsCovered(a);
    LargestIsCovered(b);
    assert a[0].largest == b[0].largest;
    if a[0].smallest < b[0].smallest {
      assert InRange(a[0], b[0].smallest - 1);
      JustBelow(b);
    } else if b[0].smallest < a[0].smallest {
      assert InRange(b[0], a[0].smallest - 1);
      JustBelow(a);
    }
  }

  lemma JustBelow(a: seq<AckRange>)
    requires WellFormed(a)
    ensures !Covers(a, a[0].smallest - 1)
  {
  }

  lemma CoversTail(a: seq<AckRange>, q: int)
    requires WellFormed(a)
    ensures Covers(a[1..], q) <==> Covers(a, q) && q < a[0].smallest
  {
    if Covers(a[1..], q) {
      var i :| 0 <= i < |a[1..]| && InRange(a[1..][i], q);
      assert InRange(a[i+1], q);
    }
    if Covers(a, q) && q < a[0].smallest {
      var i :| 0 <= i < |a| && InRange(a[i], q);
      assert InRange(a[1..][i-1], q);
    }
  }

  /** Numbers determine their ranges. */
  lemma {:induction false} RangesUnique(a: seq<AckRange>, b: seq<AckRange>)
    requires (a != [] ==> WellFormed(a)) && (b != [] ==> WellFormed(b)) && forall q :: Covers(a, q) <==> Covers(b, q)
    ensures a == b
  {
    if a != [] {
      LargestIsCovered(a);
      assert b != [];
      SameHighest(a, b);
      forall q ensures Covers(a[1..], q) <==> Covers(b[1..], q) {
        CoversTail(a, q);
        CoversTail(b, q);
      }
      RangesUnique(a[1..], b[1..]);
    } else if b != [] {
      LargestIsCovered(b);
    }
  }

  /** Event k brings a packet of interest when the numbers so far already take as many ranges as are tracked. */
  ghost predicate Overfull(es: seq<Event>, k: nat)
    requires k < |es|
  {
    && es[k].Receive? && es[k].pn >= Lowest(es[..k])
    && exists rs :: Acknowledges(rs, es[..k]) && |rs| >= MAX_TRACKED_RANGES
  }

  lemma OverfullIff(es: seq<Event>, k: nat, rs: seq<AckRange>)
    requires k < |es| && Acknowledges(rs, es[..k])
    ensures Overfull(es, k) <==> es[k].Receive? && es[k].pn >= Lowest(es[..k]) && |rs| >= MAX_TRACKED_RANGES
  {
    forall rs' | Acknowledges(rs', es[..k]) ensures rs' == rs {
      RangesUnique(rs, rs');
    }
  }

  lemma NextEvent(es: seq<Event>, k: nat)
    requires k < |es|
    ensures Lowest(es[..k+1]) ==
            if es[k].Ignore? && es[k].below > Lowest(es[..k]) then es[k].below else Lowest(es[..k])
    ensures Received(es[..k+1]) ==
            if es[k].Receive? && es[k].pn >= Lowest(es[..k]) then Received(es[..k]) + {es[k].pn} else Received(es[..k])
  {
    assert es[..k+1][..k] == es[..k];
  }

  /** No event declared the number to be of no interest. */
  predicate OfInterest(es: seq<Event>, q: int) {
    forall e :: e in es && e.Ignore? ==> e.below <= q
  }

  lemma {:induction false} LowestIff(es: seq<Event>, q: nat)
    ensures Lowest(es) <= q <==> OfInterest(es, q)
  {
    if es != [] {
      var rest, e := es[..|es|-1], es[|es|-1];
      LowestIff(rest, q);
      assert es == rest + [e];
      assert e in es && forall e' :: e' in es <==> e' in rest || e' == e;
    }
  }

  /** A number that was received and lies above the limit at the end was above it all along. */
  lemma {:induction false} ReceivedIff(es: seq<Event>, q: nat)
    requires Lowest(es) <= q
    ensures q in Received(es) <==> Receive(q) in es
  {
    if es != [] {
      ReceivedIff(es[..|es|-1], q);
      assert es == es[..|es|-1] + [es[|es|-1]];
    }
  }

  lemma AcknowledgesIff(rs: seq<AckRange>, es: seq<Event>)
    requires Acknowledges(rs, es)
    ensures forall q: nat :: Covers(rs, q) <==> Receive(q) in es && OfInterest(es, q)
  {
    forall q: nat ensures Covers(rs, q) <==> Receive(q) in es && OfInterest(es, q) {
      LowestIff(es, q);
      if Lowest(es) <= q {
        ReceivedIff(es, q);
      }
    }
  }

  /** For every run: the ACK covers exactly the numbers received that are not ignored, up to the first packet of
      interest that arrives when a thousand ranges are tracked; there the run stops.  That takes more than a thousand
      events. */
  method Run(es: seq<Event>) returns (rs: seq<AckRange>, n: nat)
    ensures n <= |es| && Acknowledges(rs, es[..n])
    ensures forall q: nat :: Covers(rs, q) <==> Receive(q) in es[..n] && OfInterest(es[..n], q)
    ensures forall k :: 0 <= k < n ==> !Overfull(es, k)
    ensures n < |es| ==> Overfull(es, n)
    ensures |es| <= MAX_TRACKED_RANGES ==> n == |es|
  {
    var tracker := new ReceivedPacketTracker();
    n := 0;
    var stopped := false;
    while n < |es| && !stopped
      invariant n <= |es| && tracker.Valid() && fresh(tracker) && fresh(tracker.packetHistory)
      invariant |tracker.packetHistory.ranges| <= n
      invariant tracker.received == Received(es[..n]) && tracker.ignoreBelow == Lowest(es[..n])
      invariant forall k :: 0 <= k < n ==> !Overfull(es, k)
      invariant stopped ==> n < |es| && Overfull(es, n) && MAX_TRACKED_RANGES <= n
      decreases |es| - n, !stopped
    {
      hide Acknowledges, Overfull, Received, Lowest, HighestFirst;
      hide ReceivedPacketTracker.Valid;
      tracker.AckOf(es[..n]);
      NextEvent(es, n);
      OverfullIff(es, n, HighestFirst(tracker.packetHistory.ranges));
      match es[n] {
        case Receive(pn) =>
          var ok := tracker.ReceivedPacket(pn);
          stopped := !ok;
        case Ignore(below) => tracker.IgnoreBelow(below);
      }
      if !stopped {
        n := n + 1;
      }
    }
    tracker.AckOf(es[..n]);
    rs := tracker.packetHistory.GetAckRanges();
    AcknowledgesIff(rs, es[..n]);
  }
}
