/** Loss recovery and retransmission (internal/ackhandler/sent_packet_handler.go).

    A packet history is the plain list of tracked packets here, which class SentPacketHistory implements; its
    operations are Put, Delete and SentAgain on that list.  Times are integers.  The loss delay, which the source
    computes from the RTT estimate, and the numbers that were left out, which class PacketNumberGenerator
    records, are parameters; congestion control and alarm deadlines are not part of this model. */
module SentPacketHandlers {
  import opened Common
  import opened SentPacketHistories
  import opened RetransmissionLedgers
  import opened AckRanges

  const INVALID_PACKET_NUMBER := -1

  /** A packet-number space; `first` is the number it started at. */
  datatype Space = Space(
    packets: seq<Packet>,
    first: nat,
    largestAcked: int,
    largestSent: int,
    sent: set<nat>,
    acked: set<nat>)

  // A space nothing was sent in.
  function EmptySpace(first: nat): Space {
    Space([], first, INVALID_PACKET_NUMBER, INVALID_PACKET_NUMBER, {}, {})
  }

  // The entries of one encryption level, in order.
  function OfLevel(ps: seq<Packet>, level: EncLevel): seq<Packet> {
    if ps == [] then [] else (if ps[0].level == level then [ps[0]] else []) + OfLevel(ps[1..], level)
  }

  lemma {:induction false} OfLevelConcat(a: seq<Packet>, b: seq<Packet>, level: EncLevel)
    ensures OfLevel(a + b, level) == OfLevel(a, level) + OfLevel(b, level)
  {
    if a == [] {
      assert a + b == b;
    } else {
      var first := if a[0].level == level then [a[0]] else [];
      assert (a + b)[1..] == a[1..] + b;
      assert OfLevel(a + b, level) == first + OfLevel(a[1..] + b, level);
      assert OfLevel(a, level) == first + OfLevel(a[1..], level);
      hide OfLevel;
      OfLevelConcat(a[1..], b, level);
      Assoc(first, OfLevel(a[1..], level), OfLevel(b, level));
    }
  }

  // ----- stopping the retransmission of everything that repeats a packet

  ghost predicate SameLinks(m: Tracked, m': Tracked) {
    m.Keys == m'.Keys && forall k :: k in m ==> m'[k] == m[k].(canBeRetransmitted := m'[k].canBeRetransmitted)
  }

  lemma SameLinksDown(m: Tracked, m': Tracked)
    requires SameLinks(m, m') && LinksDown(m)
    ensures LinksDown(m')
  {
    forall p, c | p in m' && c in m'[p].retransmittedAs ensures LinkOk(m', p, c) {
      assert LinkOk(m, p, c);
    }
  }

  // Is b reached from one of the packets cs?
  ghost predicate FromAny(m: Tracked, cs: seq<nat>, b: nat) {
    exists c :: c in cs && Descendant(m, c, b)
  }

  // m is m0 with the flags of pn and of the descendants of cs cleared.
  ghost predicate PartlyStopped(m0: Tracked, m: Tracked, pn: nat, cs: seq<nat>) {
    && SameLinks(m0, m)
    && forall k :: k in m0 ==> (m[k].canBeRetransmitted <==> m0[k].canBeRetransmitted && k != pn && !FromAny(m0, cs, k))
  }

  lemma StopStep(m0: Tracked, m: Tracked, pn: nat, cs: seq<nat>, c: nat)
    requires PartlyStopped(m0, m, pn, cs)
    ensures PartlyStopped(m0, Stopped(m, c), pn, cs + [c])
  {
    forall k | k in m0 ensures FromAny(m0, cs + [c], k) <==> FromAny(m0, cs, k) || Descendant(m, c, k) {
      DescendantSameLinks(m0, m, c, k);
      assert forall x :: x in cs + [c] <==> x in cs || x == c;
    }
  }

  lemma StopDone(m0: Tracked, m: Tracked, pn: nat)
    requires pn in m0 && PartlyStopped(m0, m, pn, m0[pn].retransmittedAs)
    ensures m == Stopped(m0, pn)
  {
    forall k | k in m0 ensures Descendant(m0, pn, k) <==> k == pn || FromAny(m0, m0[pn].retransmittedAs, k) {
      DescendantUnfold(m0, pn, k);
    }
  }

  /** stopRetransmissionsFor: clears the flag of the packet and of everything it was retransmitted as, directly or
      not.  The recursion ends because retransmissions have higher numbers; `found` is false if a link leads to a
      packet that is not tracked, which the source reports as a bug. */
  method StopRetransmissionsFor(ps: seq<Packet>, pn: nat, ghost bound: nat) returns (qs: seq<Packet>, found: bool)
    requires Increasing(ps) && LinksDown(Table(ps)) && pn in Table(ps)
    requires forall k :: k in Table(ps) ==> k < bound
    ensures found
    ensures Increasing(qs) && Table(qs) == Stopped(Table(ps), pn)
    ensures FlightSize(qs) == FlightSize(ps)
    decreases bound - pn
  {
    var cs := Table(ps)[pn].retransmittedAs;
    Cleared(ps, pn);
    qs, found := Put(ps, Table(ps)[pn].(canBeRetransmitted := false)), true;
    for i := 0 to |cs|
      invariant Increasing(qs) && found
      invariant PartlyStopped(Table(ps), Table(qs), pn, cs[..i])
      invariant FlightSize(qs) == FlightSize(ps)
    {
      var r := cs[i];
      assert cs[..i+1] == cs[..i] + [r];
      assert LinkOk(Table(ps), pn, r);
      if r !in Table(qs) {
        return qs, false;
      }
      SameLinksDown(Table(ps), Table(qs));
      StopStep(Table(ps), Table(qs), pn, cs[..i], r);
      qs, found := StopRetransmissionsFor(qs, r, bound);
    }
    assert cs[..|cs|] == cs;
    StopDone(Table(ps), Table(qs), pn);
  }

  lemma Cleared(ps: seq<Packet>, pn: nat)
    requires Increasing(ps) && pn in Table(ps)
    ensures var q := Table(ps)[pn].(canBeRetransmitted := false);
            && q.pn == pn
            && Increasing(Put(ps, q)) && Table(Put(ps, q)) == Table(ps)[pn := q]
            && FlightSize(Put(ps, q)) == FlightSize(ps)
            && PartlyStopped(Table(ps), Table(Put(ps, q)), pn, [])
  {
    var i := TableIndex(ps, pn);
    Replaced(ps, Table(ps)[pn].(canBeRetransmitted := false));
  }

  // ----- which tracked packets an ACK acknowledges

  lemma {:induction false} ListedIsTracked(ps: seq<Packet>)
    ensures forall pn :: pn in Table(ps) <==> pn in PacketNumbers(ps)
  {
    if ps != [] {
      ListedIsTracked(ps[1..]);
    }
  }

  // p is in the range at index k or in none, if it lies above all lower ranges and not above this one.
  lemma OnlyRange(rs: seq<AckRange>, k: nat, p: nat)
    requires WellFormed(rs) && k < |rs| && p <= rs[k].largest
    requires forall j :: k < j < |rs| ==> rs[j].largest < p
    ensures Covers(rs, p) <==> rs[k].smallest <= p
  {
    if rs[k].smallest <= p {
      assert InRange(rs[k], p);
    }
  }

  /** The numbers of a list that an ACK covers, in order. */
  ghost function Covered(list: seq<nat>, rs: seq<AckRange>): seq<nat> {
    if list == [] then []
    else Covered(list[..|list|-1], rs) + if Covers(rs, list[|list|-1]) then [list[|list|-1]] else []
  }

  lemma {:induction false} CoveredIs(list: seq<nat>, rs: seq<AckRange>)
    requires forall i, j :: 0 <= i < j < |list| ==> list[i] < list[j]
    ensures forall pn :: pn in Covered(list, rs) <==> pn in list && Covers(rs, pn)
    ensures forall i, j :: 0 <= i < j < |Covered(list, rs)| ==> Covered(list, rs)[i] < Covered(list, rs)[j]
  {
    if list != [] {
      var front, last := list[..|list|-1], list[|list|-1];
      CoveredIs(front, rs);
      assert list == front + [last];
      forall i | 0 <= i < |Covered(front, rs)| ensures Covered(front, rs)[i] < last {
        assert Covered(front, rs)[i] in front;
      }
    }
  }

  lemma {:induction false} CoveredNoMore(list: seq<nat>, n: nat, rs: seq<AckRange>)
    requires n <= |list| && forall x :: n <= x < |list| ==> !Covers(rs, list[x])
    ensures Covered(list, rs) == Covered(list[..n], rs)
  {
    if n == |list| {
      assert list[..n] == list;
    } else {
      CoveredNoMore(list[..|list|-1], n, rs);
      assert list[..|list|-1][..n] == list[..n];
    }
  }

  lemma OutsideAll(rs: seq<AckRange>, p: nat)
    requires WellFormed(rs) && (p < LowestAcked(rs) || p > LargestAcked(rs))
    ensures !Covers(rs, p)
  {
  }

  lemma RestOutside(list: seq<nat>, i: nat, rs: seq<AckRange>)
    requires WellFormed(rs) && i < |list| && list[i] > LargestAcked(rs)
    requires forall i, j :: 0 <= i < j < |list| ==> list[i] < list[j]
    ensures Covered(list, rs) == Covered(list[..i], rs)
  {
    forall x | i <= x < |list| ensures !Covers(rs, list[x]) {
      OutsideAll(rs, list[x]);
    }
    CoveredNoMore(list, i, rs);
  }

  /** The walk over the packet numbers of the history and, in step with it, over the ranges from the lowest up,
      finds exactly the numbers that lie in some range.  `bug` is the error the source reports if it is about to
      acknowledge a packet outside the range at hand. */
  method WalkRanges(list: seq<nat>, rs: seq<AckRange>) returns (acked: seq<nat>, bug: bool)
    requires WellFormed(rs)
    requires forall i, j :: 0 <= i < j < |list| ==> list[i] < list[j]
    ensures !bug && acked == Covered(list, rs)
  {
    hide Covers;
    acked, bug := [], false;
    var k := |rs| - 1;
    var i := 0;
    while i < |list|
      invariant 0 <= i <= |list| && 0 <= k < |rs| && !bug
      invariant acked == Covered(list[..i], rs)
      invariant i < |list| ==> forall j :: k < j < |rs| ==> rs[j].largest < list[i]
    {
      var p := list[i];
      assert list[..i+1][..|list[..i+1]|-1] == list[..i];
      if p < LowestAcked(rs) {
        OutsideAll(rs, p);
        i := i + 1;
        continue;
      }
      if p > LargestAcked(rs) {
        RestOutside(list, i, rs);
        return;
      }
      if |rs| > 1 {
        while p > rs[k].largest && k > 0
          invariant 0 <= k < |rs|
          invariant forall j :: k < j < |rs| ==> rs[j].largest < p
        {
          k := k - 1;
        }
        OnlyRange(rs, k, p);
        if p >= rs[k].smallest {
          if p > rs[k].largest {
            return acked, true;
          }
          acked := acked + [p];
        }
      } else {
        OnlyRange(rs, k, p);
        acked := acked + [p];
      }
      i := i + 1;
    }
    assert list[..i] == list;
  }

  /** determineNewlyAckedPackets returns exactly the tracked packets the ACK covers, lowest first. */
  method DetermineNewlyAckedPackets(ps: seq<Packet>, rs: seq<AckRange>) returns (acked: seq<nat>, bug: bool)
    requires Increasing(ps) && WellFormed(rs)
    ensures !bug && acked == Covered(PacketNumbers(ps), rs)
    ensures ExactlyCovered(ps, rs, acked)
  {
    NumbersAt(ps);
    CoveredNumbers(ps, rs);
    acked, bug := WalkRanges(PacketNumbers(ps), rs);
  }

  /** The numbers are those of the tracked packets that the ACK covers, lowest first. */
  ghost predicate ExactlyCovered(ps: seq<Packet>, rs: seq<AckRange>, pns: seq<nat>) {
    && (forall pn :: pn in pns <==> pn in Table(ps) && Covers(rs, pn))
    && (forall i, j :: 0 <= i < j < |pns| ==> pns[i] < pns[j])
  }

  lemma CoveredNumbers(ps: seq<Packet>, rs: seq<AckRange>)
    requires Increasing(ps)
    ensures ExactlyCovered(ps, rs, Covered(PacketNumbers(ps), rs))
  {
    NumbersAt(ps);
    ListedIsTracked(ps);
    CoveredIs(PacketNumbers(ps), rs);
  }

  // ----- the handler

  datatype AckError = NoError | UnsentPacket | SkippedPacket | Bug

  lemma OfLevelPush(hand: seq<Packet>, queue: seq<Packet>, q: Packet, level: EncLevel)
    ensures OfLevel(hand + (queue + [q]), level) == OfLevel(hand + queue, level) + if q.level == level then [q] else []
  {
    assert hand + (queue + [q]) == (hand + queue) + [q];
    OfLevelConcat(hand + queue, [q], level);
    assert OfLevel([q], level) == if q.level == level then [q] else [];
  }

  /** The part of the handler's state that the retransmission logic works on. */
  datatype Book = Book(
    initialPackets: Option<Space>,
    handshakePackets: Option<Space>,
    oneRttPackets: Option<Space>,
    inHand: seq<Packet>,                // the packet dequeued last, until it has been sent again
    retransmissionQueue: seq<Packet>,
    lossTime: Option<int>)
  {
    function Get(level: EncLevel): Option<Space> {
      match level
      case Initial => initialPackets
      case Handshake => handshakePackets
      case OneRtt => oneRttPackets
    }

    function With(level: EncLevel, s: Option<Space>): Book {
      match level
      case Initial => this.(initialPackets := s)
      case Handshake => this.(handshakePackets := s)
      case OneRtt => this.(oneRttPackets := s)
    }

    function Pending(level: EncLevel): seq<Packet> {
      OfLevel(inHand + retransmissionQueue, level)
    }

    function Flight(level: EncLevel): nat {
      if Get(level).Some? then FlightSize(Get(level).value.packets) else 0
    }

    function TotalFlight(): nat {
      Flight(Initial) + Flight(Handshake) + Flight(OneRtt)
    }

    ghost predicate LevelOk(level: EncLevel) {
      if Get(level).Some? then SpaceOk(Get(level).value, level, Pending(level)) else Pending(level) == []
    }

    ghost predicate Ok() {
      |inHand| <= 1 && forall level :: LevelOk(level)
    }
  }

  ghost predicate SpaceOk(s: Space, level: EncLevel, pending: seq<Packet>) {
    && Increasing(s.packets) && INVALID_PACKET_NUMBER <= s.largestSent
    && Ledger(Table(s.packets), level, s.first, s.largestSent, pending, s.sent, s.acked)
  }

  // Changing one space, and only its own share of the queue, is all there is to check.
  lemma OneLevelChanged(b: Book, b': Book, level: EncLevel)
    requires b.Ok() && b'.LevelOk(level) && |b'.inHand| <= 1
    requires forall l :: l != level ==> b'.Get(l) == b.Get(l) && b'.Pending(l) == b.Pending(l)
    ensures b'.Ok()
  {
    forall l ensures b'.LevelOk(l) {
      if l != level {
        SameLevel(b, b', l);
      }
    }
  }

  lemma SameLevel(b: Book, b': Book, level: EncLevel)
    requires b.LevelOk(level) && b'.Get(level) == b.Get(level) && b'.Pending(level) == b.Pending(level)
    ensures b'.LevelOk(level)
  {
  }

  lemma WithTwice(b: Book, level: EncLevel, s: Option<Space>, s': Option<Space>)
    ensures b.With(level, s).With(level, s') == b.With(level, s') && b.With(level, s).Get(level) == s
  {
  }

  // The loss alarm is no part of the ledgers.
  lemma AlarmChanged(b: Book, alarm: Option<int>)
    requires b.Ok()
    ensures b.(lossTime := alarm).Ok() && b.(lossTime := alarm).TotalFlight() == b.TotalFlight()
  {
    forall l ensures b.(lossTime := alarm).LevelOk(l) {
      SameLevel(b, b.(lossTime := alarm), l);
    }
  }

  lemma SpaceChanged(b: Book, level: EncLevel, s: Space)
    requires b.Ok() && b.Get(level).Some? && SpaceOk(s, level, b.Pending(level))
    ensures b.With(level, Some(s)).Ok()
    ensures b.With(level, Some(s)).TotalFlight() == b.TotalFlight() - b.Flight(level) + FlightSize(s.packets)
  {
    OneLevelChanged(b, b.With(level, Some(s)), level);
  }

  // ----- queueing

  function Queued(b: Book, level: EncLevel, pn: nat): Book
    requires b.Get(level).Some? && pn in Table(b.Get(level).value.packets)
  {
    var s := b.Get(level).value;
    var q := Table(s.packets)[pn].(canBeRetransmitted := false);
    b.With(level, Some(s.(packets := Put(s.packets, q)))).(retransmissionQueue := b.retransmissionQueue + [q])
  }

  lemma QueuedLevel(b: Book, level: EncLevel, pn: nat)
    requires b.LevelOk(level) && b.Get(level).Some? && pn in Table(b.Get(level).value.packets)
    requires Table(b.Get(level).value.packets)[pn].canBeRetransmitted
    ensures Queued(b, level, pn).LevelOk(level)
  {
    var s, b' := b.Get(level).value, Queued(b, level, pn);
    var q := Table(s.packets)[pn].(canBeRetransmitted := false);
    assert q.level == level by {
      assert PacketOk(Table(s.packets)[pn], pn, level, s.first, s.largestSent);
    }
    QueueKeepsLedger(Table(s.packets), level, s.first, s.largestSent, b.Pending(level), s.sent, s.acked, pn);
    Cleared(s.packets, pn);
    OfLevelPush(b.inHand, b.retransmissionQueue, q, level);
  }

  lemma QueuedOther(b: Book, level: EncLevel, pn: nat, l: EncLevel)
    requires b.LevelOk(level) && b.Get(level).Some? && pn in Table(b.Get(level).value.packets)
    requires l != level
    ensures Queued(b, level, pn).Get(l) == b.Get(l) && Queued(b, level, pn).Pending(l) == b.Pending(l)
  {
    var s := b.Get(level).value;
    var q := Table(s.packets)[pn].(canBeRetransmitted := false);
    assert q.level == level by {
      assert PacketOk(Table(s.packets)[pn], pn, level, s.first, s.largestSent);
    }
    OfLevelPush(b.inHand, b.retransmissionQueue, q, l);
  }

  lemma QueuedOk(b: Book, level: EncLevel, pn: nat)
    requires b.Ok() && b.Get(level).Some? && pn in Table(b.Get(level).value.packets)
    requires Table(b.Get(level).value.packets)[pn].canBeRetransmitted
    ensures Queued(b, level, pn).Ok()
    ensures Queued(b, level, pn).TotalFlight() == b.TotalFlight()
  {
    var b' := Queued(b, level, pn);
    assert b.LevelOk(level);
    QueuedLevel(b, level, pn);
    forall l | l != level ensures b'.Get(l) == b.Get(l) && b'.Pending(l) == b.Pending(l) {
      QueuedOther(b, level, pn, l);
    }
    OneLevelChanged(b, b', level);
    QueuedFlight(b, level, pn);
  }

  lemma QueuedFlight(b: Book, level: EncLevel, pn: nat)
    requires b.Get(level).Some? && pn in Table(b.Get(level).value.packets) && Increasing(b.Get(level).value.packets)
    ensures Queued(b, level, pn).TotalFlight() == b.TotalFlight()
  {
    Cleared(b.Get(level).value.packets, pn);
  }

  // ----- sending

  /** What the caller owes: a number of this space not used before, a send time that does not go back, and a packet
      without a retransmission history. */
  predicate SendableIn(p: Packet, s: Space) {
    && s.first <= p.pn && s.largestSent < p.pn
    && p.retransmittedAs == [] && !p.isRetransmission
    && forall k :: k in Table(s.packets) ==> Table(s.packets)[k].sendTime <= p.sendTime
  }

  function Registered(p: Packet): Packet {
    p.(canBeRetransmitted := true, includedInBytesInFlight := true)
  }

  function AfterSending(s: Space, p: Packet): Space {
    if p.units == {} then s.(largestSent := p.pn)
    else s.(largestSent := p.pn, packets := s.packets + [Registered(p)], sent := s.sent + p.units)
  }

  lemma NoNewerPacket(s: Space, level: EncLevel, pending: seq<Packet>, pn: nat)
    requires SpaceOk(s, level, pending) && s.largestSent < pn
    ensures forall i :: 0 <= i < |s.packets| ==> s.packets[i].pn < pn
  {
    TableAll(s.packets);
    forall i | 0 <= i < |s.packets| ensures s.packets[i].pn < pn {
      assert PacketOk(Table(s.packets)[s.packets[i].pn], s.packets[i].pn, level, s.first, s.largestSent);
    }
  }

  lemma LargerLargestSent(m: Tracked, level: EncLevel, first: nat, a: int, b: int, pending: seq<Packet>,
                          sent: set<nat>, acked: set<nat>)
    requires Ledger(m, level, first, a, pending, sent, acked) && a <= b
    ensures Ledger(m, level, first, b, pending, sent, acked)
  {
    forall k | k in m ensures PacketOk(m[k], k, level, first, b) {
      assert PacketOk(m[k], k, level, first, a);
    }
  }

  lemma SentOk(s: Space, level: EncLevel, pending: seq<Packet>, p: Packet)
    requires SpaceOk(s, level, pending) && p.level == level && SendableIn(p, s)
    ensures SpaceOk(AfterSending(s, p), level, pending)
    ensures FlightSize(AfterSending(s, p).packets) == FlightSize(s.packets) + if p.units == {} then 0 else p.length
  {
    if p.units == {} {
      LargerLargestSent(Table(s.packets), level, s.first, s.largestSent, p.pn, pending, s.sent, s.acked);
    } else {
      NoNewerPacket(s, level, pending, p.pn);
      Pushed(s.packets, Registered(p));
      SendKeepsLedger(Table(s.packets), level, s.first, s.largestSent, pending, s.sent, s.acked, Registered(p));
    }
  }

  /** The packet queued first is taken out of the queue. */
  function Dequeued(b: Book): Book {
    if b.retransmissionQueue == [] then b
    else b.(inHand := [b.retransmissionQueue[0]], retransmissionQueue := b.retransmissionQueue[1..])
  }

  lemma DequeuedOk(b: Book)
    requires b.Ok() && b.inHand == [] && b.retransmissionQueue != []
    ensures Dequeued(b).Ok() && Dequeued(b).TotalFlight() == b.TotalFlight()
  {
    var b' := Dequeued(b);
    assert b'.inHand + b'.retransmissionQueue == b.inHand + b.retransmissionQueue;
    forall l ensures b'.LevelOk(l) {
      SameLevel(b, b', l);
    }
  }

  lemma {:induction false} FirstTracked(ps: seq<Packet>)
    ensures FirstRetransmittable(ps).Some? ==> FirstRetransmittable(ps).value in Table(ps)
  {
    if ps != [] {
      FirstTracked(ps[1..]);
    }
  }

  /** A probe repeats the packet queued first or, if there is none, the first 1-RTT packet not acknowledged. */
  function ProbeTaken(b: Book): Book
    requires b.oneRttPackets.Some?
  {
    var first := FirstRetransmittable(b.oneRttPackets.value.packets);
    if b.retransmissionQueue == [] && first.Some? then
      FirstTracked(b.oneRttPackets.value.packets);
      Dequeued(Queued(b, OneRtt, first.value))
    else Dequeued(b)
  }

  // ----- acknowledging one packet

  /** The loop that builds the parent's list anew without the acknowledged packet. */
  method RemoveChild(cs: seq<nat>, pn: nat) returns (rest: seq<nat>)
    ensures rest == WithoutChild(cs, pn)
  {
    if |cs| == 1 {
      return [];
    }
    rest := [];
    for i := 0 to |cs|
      invariant Filter(cs, pn) == rest + Filter(cs[i..], pn)
    {
      if cs[i] != pn {
        rest := rest + [cs[i]];
      }
      assert cs[i..][1..] == cs[i+1..];
    }
  }

  lemma UnlinkedList(ps: seq<Packet>, pn: nat)
    requires Increasing(ps) && pn in Table(ps)
    requires Table(ps)[pn].isRetransmission && Table(ps)[pn].retransmissionOf in Table(ps)
    ensures var parent := Table(ps)[Table(ps)[pn].retransmissionOf];
            var q := parent.(retransmittedAs := WithoutChild(parent.retransmittedAs, pn));
            && Increasing(Put(ps, q)) && Table(Put(ps, q)) == Unlinked(Table(ps), pn)
            && FlightSize(Put(ps, q)) == FlightSize(ps)
  {
    var of := Table(ps)[pn].retransmissionOf;
    var i := TableIndex(ps, of);
    var parent := Table(ps)[of];
    Replaced(ps, parent.(retransmittedAs := WithoutChild(parent.retransmittedAs, pn)));
  }

  /** onPacketAcked: unlinks the packet from its parent, stops all its retransmissions and drops it. */
  method AckPacket(ps: seq<Packet>, pn: nat, ghost bound: nat) returns (qs: seq<Packet>, found: bool)
    requires Increasing(ps) && LinksDown(Table(ps)) && LinksUp(Table(ps)) && pn in Table(ps)
    requires forall k :: k in Table(ps) ==>
              k < bound && (Table(ps)[k].isRetransmission ==> Table(ps)[k].retransmissionOf < k)
    ensures found && Increasing(qs)
    ensures Table(qs) == Acked(Table(ps), pn)
    ensures FlightSize(qs) == FlightSize(ps) - FlightLength(Table(ps)[pn])
  {
    qs := ps;
    var p := Table(ps)[pn];
    if p.isRetransmission {
      if p.retransmissionOf in Table(ps) {
        var parent := Table(ps)[p.retransmissionOf];
        var rest := RemoveChild(parent.retransmittedAs, pn);
        UnlinkedList(ps, pn);
        qs := Put(ps, parent.(retransmittedAs := rest));
      }
    }
    UnlinkKeepsLinks(Table(ps), pn);
    assert Table(qs) == Unlinked(Table(ps), pn);
    qs, found := StopRetransmissionsFor(qs, pn, bound);
    Dropped(qs, pn);
    DeleteIncreasing(qs, pn);
    qs := Delete(qs, pn);
  }

  // The packets of ps that are still in m, as m has them.
  ghost function Listing(ps: seq<Packet>, m: Tracked): seq<Packet> {
    if ps == [] then [] else (if ps[0].pn in m then [m[ps[0].pn]] else []) + Listing(ps[1..], m)
  }

  lemma {:induction false} ListingAgrees(ps: seq<Packet>, m: Tracked, m': Tracked)
    requires forall i :: 0 <= i < |ps| ==> (ps[i].pn in m <==> ps[i].pn in m')
    requires forall i :: 0 <= i < |ps| && ps[i].pn in m ==> m[ps[i].pn] == m'[ps[i].pn]
    ensures Listing(ps, m) == Listing(ps, m')
  {
    if ps != [] {
      ListingAgrees(ps[1..], m, m');
    }
  }

  // The first packets of two lists are the same if one list is part of the other and holds its first number.
  lemma SameFirst(ps: seq<Packet>, qs: seq<Packet>)
    requires Increasing(ps) && Increasing(qs) && ps != [] && forall k :: k in Table(qs) ==> k in Table(ps)
    requires ps[0].pn in Table(qs)
    ensures qs != [] && qs[0].pn == ps[0].pn && Table(qs)[ps[0].pn] == qs[0]
  {
    DropFirst(ps);
    var j := TableIndex(qs, ps[0].pn);
    TableHas(qs, 0);
  }

  /** A list in increasing order is determined by its table. */
  lemma {:induction false} ListingIs(ps: seq<Packet>, qs: seq<Packet>)
    requires Increasing(ps) && Increasing(qs) && forall k :: k in Table(qs) ==> k in Table(ps)
    ensures qs == Listing(ps, Table(qs))
  {
    if ps == [] {
      if qs != [] {
        TableHas(qs, 0);
      }
    } else if ps[0].pn in Table(qs) {
      SameFirst(ps, qs);
      TableAbove(qs[1..], qs[0].pn);
      forall k | k in Table(qs[1..]) ensures k in Table(ps[1..]) {
        assert k in Table(qs);
      }
      TableAbove(ps[1..], ps[0].pn);
      ListingIs(ps[1..], qs[1..]);
      ListingAgrees(ps[1..], Table(qs), Table(qs[1..]));
    } else {
      ListingIs(ps[1..], qs);
    }
  }

  lemma SameTable(ps: seq<Packet>, qs: seq<Packet>)
    requires Increasing(ps) && Increasing(qs) && Table(ps) == Table(qs)
    ensures ps == qs
  {
    ListingIs(ps, qs);
    ListingIs(ps, ps);
  }

  /** A space after onPacketAcked for one number: nothing happens if the packet is no longer tracked. */
  ghost function AckedOne(s: Space, pn: nat): Space {
    if pn !in Table(s.packets) then s
    else s.(packets := Listing(s.packets, Acked(Table(s.packets), pn)), acked := s.acked + Table(s.packets)[pn].units)
  }

  lemma AckedOneIs(s: Space, pn: nat, qs: seq<Packet>)
    requires Increasing(s.packets) && pn in Table(s.packets)
    requires Increasing(qs) && Table(qs) == Acked(Table(s.packets), pn)
    ensures AckedOne(s, pn) == s.(packets := qs, acked := s.acked + Table(s.packets)[pn].units)
  {
    ListingIs(s.packets, qs);
  }

  lemma AckedOk(s: Space, level: EncLevel, pending: seq<Packet>, pn: nat, qs: seq<Packet>)
    requires SpaceOk(s, level, pending) && pn in Table(s.packets)
    requires Increasing(qs) && Table(qs) == Acked(Table(s.packets), pn)
    ensures SpaceOk(s.(packets := qs, acked := s.acked + Table(s.packets)[pn].units), level, pending)
  {
    AckKeepsLedger(Table(s.packets), level, s.first, s.largestSent, pending, s.sent, s.acked, pn);
  }

  // ----- losing packets

  predicate Expired(p: Packet, largestAcked: int, now: int, lossDelay: int) {
    p.pn <= largestAcked && now - p.sendTime > lossDelay
  }

  predicate TimesIncrease(ps: seq<Packet>) {
    forall i, j :: 0 <= i < j < |ps| ==> ps[i].sendTime <= ps[j].sendTime
  }

  lemma TimesAlong(s: Space, level: EncLevel, pending: seq<Packet>)
    requires SpaceOk(s, level, pending)
    ensures TimesIncrease(s.packets)
  {
    TableAll(s.packets);
    forall i, j | 0 <= i < j < |s.packets| ensures s.packets[i].sendTime <= s.packets[j].sendTime {
      assert Table(s.packets)[s.packets[i].pn].sendTime <= Table(s.packets)[s.packets[j].pn].sendTime;
    }
  }

  // How many packets at the front of the history are expired.
  function LostCount(ps: seq<Packet>, largestAcked: int, now: int, lossDelay: int): (n: nat)
    ensures n <= |ps|
  {
    if ps == [] || !Expired(ps[0], largestAcked, now, lossDelay) then 0
    else 1 + LostCount(ps[1..], largestAcked, now, lossDelay)
  }

  lemma {:induction false} LostCountIs(ps: seq<Packet>, largestAcked: int, now: int, lossDelay: int, n: nat)
    requires n <= |ps| && forall i :: 0 <= i < n ==> Expired(ps[i], largestAcked, now, lossDelay)
    requires n < |ps| ==> !Expired(ps[n], largestAcked, now, lossDelay)
    ensures n == LostCount(ps, largestAcked, now, lossDelay)
  {
    if n > 0 {
      LostCountIs(ps[1..], largestAcked, now, lossDelay, n-1);
    }
  }

  // When the first of the remaining packets will expire, if it is old enough by number.
  function LossAlarm(ps: seq<Packet>, largestAcked: int, lossDelay: int): Option<int> {
    if ps != [] && ps[0].pn <= largestAcked then Some(ps[0].sendTime + lossDelay) else None
  }

  /** The first loop of detectLostPackets: the lost packets are the oldest ones, without a gap, and the alarm is set
      for the first packet that is old enough by number but not yet by time. */
  method FindLostPackets(ps: seq<Packet>, largestAcked: int, now: int, lossDelay: int)
    returns (lost: seq<Packet>, alarm: Option<int>)
    requires Increasing(ps) && TimesIncrease(ps)
    ensures lost <= ps
    ensures forall i :: 0 <= i < |ps| ==> (i < |lost| <==> Expired(ps[i], largestAcked, now, lossDelay))
    ensures |lost| == LostCount(ps, largestAcked, now, lossDelay)
    ensures alarm == LossAlarm(ps[|lost|..], largestAcked, lossDelay)
  {
    hide LostCount;
    lost, alarm := [], None;
    var i := 0;
    while i < |ps|
      invariant 0 <= i <= |ps| && |lost| <= i && lost == ps[..|lost|]
      invariant forall k :: 0 <= k < |lost| ==> Expired(ps[k], largestAcked, now, lossDelay)
      invariant |lost| < i ==> ps[|lost|].pn <= largestAcked && now - ps[|lost|].sendTime <= lossDelay
      invariant alarm == if |lost| < i then Some(ps[|lost|].sendTime + lossDelay) else None
    {
      var packet := ps[i];
      if packet.pn > largestAcked {
        break;
      }
      var timeSinceSent := now - packet.sendTime;
      if timeSinceSent > lossDelay {
        assert |lost| == i;
        lost := lost + [packet];
      } else if alarm == None {
        alarm := Some(now + (lossDelay - timeSinceSent));
      }
      i := i + 1;
    }
    LostCountIs(ps, largestAcked, now, lossDelay, |lost|);
  }

  /** The oldest packet is lost: it leaves the history, and goes to the queue if it may be retransmitted. */
  function LostFirst(b: Book, level: EncLevel): Book
    requires b.Get(level).Some? && b.Get(level).value.packets != []
  {
    var s := b.Get(level).value;
    var p := s.packets[0];
    b.With(level, Some(s.(packets := s.packets[1..])))
    .(retransmissionQueue :=
        if p.canBeRetransmitted then b.retransmissionQueue + [p.(canBeRetransmitted := false)]
            else b.retransmissionQueue)
  }

  lemma DropFirst(ps: seq<Packet>)
    requires ps != [] && Increasing(ps)
    ensures Table(ps[1..]) == Table(ps) - {ps[0].pn} && ps[0].pn in Table(ps) && Table(ps)[ps[0].pn] == ps[0]
    ensures FlightSize(ps[1..]) == FlightSize(ps) - FlightLength(ps[0])
    ensures forall k :: k in Table(ps) ==> ps[0].pn <= k
  {
    TableAbove(ps[1..], ps[0].pn);
  }

  lemma DroppedFirstOk(s: Space, level: EncLevel, pending: seq<Packet>)
    requires SpaceOk(s, level, pending) && s.packets != [] && !s.packets[0].canBeRetransmitted
    ensures SpaceOk(s.(packets := s.packets[1..]), level, pending)
  {
    DropFirst(s.packets);
    DropLowestKeepsLedger(Table(s.packets), level, s.first, s.largestSent, pending, s.sent, s.acked, s.packets[0].pn);
  }

  lemma LostFirstOk(b: Book, level: EncLevel)
    requires b.Ok() && b.Get(level).Some? && b.Get(level).value.packets != []
    ensures LostFirst(b, level).Ok()
    ensures LostFirst(b, level).TotalFlight() == b.TotalFlight() - FlightLength(b.Get(level).value.packets[0])
  {
    var ps := b.Get(level).value.packets;
    var p := ps[0];
    assert b.LevelOk(level);
    DropFirst(ps);
    var c := b;
    if p.canBeRetransmitted {
      QueuedOk(b, level, p.pn);
      c := Queued(b, level, p.pn);
      PutAbsent(ps[1..], p.(canBeRetransmitted := false));
      assert c.Get(level).value.packets == [p.(canBeRetransmitted := false)] + ps[1..];
    }
    var s := c.Get(level).value;
    assert c.LevelOk(level) && s.packets[1..] == ps[1..];
    DroppedFirstOk(s, level, c.Pending(level));
    SpaceChanged(c, level, s.(packets := s.packets[1..]));
    DropFirst(s.packets);
    assert c.With(level, Some(s.(packets := s.packets[1..]))) == LostFirst(b, level);
  }

  // ----- acknowledging and losing many packets

  // The units of the packets numbered pns.
  function UnitsOf(m: Tracked, pns: seq<nat>): set<nat>
    requires forall i :: 0 <= i < |pns| ==> pns[i] in m
  {
    if pns == [] then {} else UnitsOf(m, pns[..|pns|-1]) + m[pns[|pns|-1]].units
  }

  /** What an ACK newly acknowledges: the units of the tracked packets it covers. */
  ghost predicate NewlyAcked(m: Tracked, rs: seq<AckRange>, u: nat) {
    exists pn :: pn in m && Covers(rs, pn) && u in m[pn].units
  }

  lemma {:induction false} UnitsOfIs(m: Tracked, pns: seq<nat>, u: nat)
    requires forall i :: 0 <= i < |pns| ==> pns[i] in m
    ensures u in UnitsOf(m, pns) <==> exists pn :: pn in pns && u in m[pn].units
  {
    if pns != [] {
      UnitsOfIs(m, pns[..|pns|-1], u);
      assert pns == pns[..|pns|-1] + [pns[|pns|-1]];
    }
  }

  /** m is what is left of m0 after the packets numbered pns are acknowledged: what repeats one of them, directly or
      not, is no longer retransmitted, and they are struck from the lists of what the others were repeated as. */
  ghost predicate Left(m0: Tracked, m: Tracked, pns: seq<nat>) {
    && (forall k :: k in m <==> k in m0 && k !in pns)
    && (forall k :: k in m ==>
          m[k] == m0[k].(retransmittedAs := m[k].retransmittedAs,
                         canBeRetransmitted := m0[k].canBeRetransmitted && !FromAny(m0, pns, k)))
    && (forall k :: k in m ==> Struck(m0[k].retransmittedAs, m[k].retransmittedAs, pns))
  }

  ghost predicate Struck(list: seq<nat>, left: seq<nat>, pns: seq<nat>) {
    forall c :: c in left <==> c in list && c !in pns
  }

  // What the next packet leads to has higher numbers, and is what it was at the beginning.
  lemma LeftDescendants(m0: Tracked, m: Tracked, pns: seq<nat>, pn: nat, k: nat)
    requires Left(m0, m, pns) && pn in m && LinksDown(m0) && LinksDown(m) && LinksUp(m)
    requires forall k :: k in m && m[k].isRetransmission ==> m[k].retransmissionOf < k
    requires forall i :: 0 <= i < |pns| ==> pns[i] < pn
    ensures Descendant(Unlinked(m, pn), pn, k) <==> Descendant(m0, pn, k)
  {
    UnlinkKeepsLinks(m, pn);
    var u := Unlinked(m, pn);
    forall a, c | pn <= a && a in u ensures c in u[a].retransmittedAs <==> c in m0[a].retransmittedAs {
      assert Struck(m0[a].retransmittedAs, m[a].retransmittedAs, pns);
      if c in m0[a].retransmittedAs {
        assert LinkOk(m0, a, c);
      }
    }
    DescendantAbove(m0, u, pn, k);
  }

  lemma LeftStep(m0: Tracked, m: Tracked, pns: seq<nat>, pn: nat, level: EncLevel, first: nat, largestSent: int)
    requires Left(m0, m, pns) && pn in m && LinksDown(m0)
    requires Shape(m, level, first, largestSent) && LinksDown(m) && LinksUp(m)
    requires forall i :: 0 <= i < |pns| ==> pns[i] < pn
    ensures Left(m0, Acked(m, pn), pns + [pn])
  {
    forall k | k in m ensures m[k].isRetransmission ==> m[k].retransmissionOf < k {
      assert PacketOk(m[k], k, level, first, largestSent);
    }
    AckedPackets(m, pn);
    assert forall x :: x in pns + [pn] <==> x in pns || x == pn;
    forall k | k in m
      ensures FromAny(m0, pns + [pn], k) <==> FromAny(m0, pns, k) || Descendant(Unlinked(m, pn), pn, k)
    {
      LeftDescendants(m0, m, pns, pn, k);
    }
    var m' := Acked(m, pn);
    forall k | k in m' ensures Struck(m0[k].retransmittedAs, m'[k].retransmittedAs, pns + [pn]) {
      assert Struck(m0[k].retransmittedAs, m[k].retransmittedAs, pns);
    }
  }

  /** The space s0 after the packets numbered pns were acknowledged, one after the other. */
  ghost predicate AckedSpace(s0: Space, s: Space, pns: seq<nat>) {
    && (forall i :: 0 <= i < |pns| ==> pns[i] in Table(s0.packets))
    && Left(Table(s0.packets), Table(s.packets), pns)
    && s == s0.(packets := s.packets, acked := s0.acked + UnitsOf(Table(s0.packets), pns))
  }

  lemma LeftHas(m0: Tracked, m: Tracked, pns: seq<nat>, pn: nat)
    requires Left(m0, m, pns)
    ensures pn in m <==> pn in m0 && pn !in pns
    ensures pn in m ==> m[pn].units == m0[pn].units
  {
  }

  lemma SpaceLinks(s: Space, level: EncLevel, pending: seq<Packet>)
    requires SpaceOk(s, level, pending)
    ensures Shape(Table(s.packets), level, s.first, s.largestSent)
    ensures LinksDown(Table(s.packets)) && LinksUp(Table(s.packets))
  {
  }

  lemma AckedSpaceStep(s0: Space, s: Space, s': Space, pns: seq<nat>, pn: nat, level: EncLevel, pending: seq<Packet>)
    requires AckedSpace(s0, s, pns) && SpaceOk(s, level, pending) && LinksDown(Table(s0.packets))
    requires pn in Table(s0.packets) && forall i :: 0 <= i < |pns| ==> pns[i] < pn
    requires pn in Table(s.packets) ==> Table(s'.packets) == Acked(Table(s.packets), pn) &&
                                        s' == s.(packets := s'.packets, acked := s.acked + Table(s.packets)[pn].units)
    ensures AckedSpace(s0, s', pns + [pn])
  {
    hide Left, SpaceOk, Table, Acked, LinksDown, LinksUp, Shape;
    assert pn !in pns;
    LeftHas(Table(s0.packets), Table(s.packets), pns, pn);
    SpaceLinks(s, level, pending);
    LeftStep(Table(s0.packets), Table(s.packets), pns, pn, level, s.first, s.largestSent);
    assert (pns + [pn])[..|pns|] == pns;
  }

  lemma NoneAcked(s: Space)
    ensures AckedSpace(s, s, []) && AckedAll(s, []) == s
  {
  }

  /** The space after the packets numbered pns were acknowledged, one after the other. */
  ghost function AckedAll(s: Space, pns: seq<nat>): Space {
    if pns == [] then s else AckedOne(AckedAll(s, pns[..|pns|-1]), pns[|pns|-1])
  }

  lemma AckedAllPush(s: Space, pns: seq<nat>, pn: nat)
    ensures AckedAll(s, pns + [pn]) == AckedOne(AckedAll(s, pns), pn)
  {
    assert (pns + [pn])[..|pns|] == pns;
  }

  function LostMany(b: Book, level: EncLevel, n: nat): (b': Book)
    requires b.Get(level).Some? && n <= |b.Get(level).value.packets|
    ensures b'.Get(level) == Some(b.Get(level).value.(packets := b.Get(level).value.packets[n..]))
    ensures b'.inHand == b.inHand && b'.lossTime == b.lossTime && forall l :: l != level ==> b'.Get(l) == b.Get(l)
  {
    if n == 0 then
      assert b.Get(level).value.packets[0..] == b.Get(level).value.packets;
      b
    else
      var c := LostMany(b, level, n-1);
      assert c.Get(level).value.packets[1..] == b.Get(level).value.packets[n..];
      LostFirst(c, level)
  }

  /** detectLostPackets: the expired packets at the front of the history leave it, and the retransmittable ones among
      them join the queue; for 1-RTT packets the alarm is set for the first one that is left. */
  function Detected(b: Book, level: EncLevel, now: int, lossDelay: int): Book
    requires b.Get(level).Some?
  {
    var s := b.Get(level).value;
    var n := LostCount(s.packets, s.largestAcked, now, lossDelay);
    var alarm := if level == OneRtt then LossAlarm(s.packets[n..], s.largestAcked, lossDelay) else b.lossTime;
    LostMany(b.(lossTime := alarm), level, n)
  }

  ghost predicate HitsSkipped(rs: seq<AckRange>, skipped: seq<nat>) {
    exists i :: 0 <= i < |skipped| && Covers(rs, skipped[i])
  }

  /** The state after an ACK.  An ACK for a packet never sent changes nothing; one for a number left out on purpose, or
      for no tracked packet, changes only the largest acknowledged number. */
  ghost function AfterAck(b: Book, rs: seq<AckRange>, level: EncLevel, skipped: seq<nat>, now: int,
                          lossDelay: int): Book
    requires b.Get(level).Some? && 0 < |rs|
  {
    var s := b.Get(level).value;
    var s0 := s.(largestAcked := Max(s.largestAcked, LargestAcked(rs)));
    var pns := Covered(PacketNumbers(s.packets), rs);
    if LargestAcked(rs) > s.largestSent then b
    else if HitsSkipped(rs, skipped) then b.With(level, Some(s0))
    else AckApplied(b.With(level, Some(s0)), level, pns, now, lossDelay)
  }

  /** The packets numbered pns are acknowledged, and then what has expired is lost; without newly acknowledged packets
      nothing happens. */
  ghost function AckApplied(b: Book, level: EncLevel, pns: seq<nat>, now: int, lossDelay: int): Book
    requires b.Get(level).Some?
  {
    if pns == [] then b else Detected(b.With(level, Some(AckedAll(b.Get(level).value, pns))), level, now, lossDelay)
  }

  lemma ApplyNothing(b: Book, level: EncLevel, now: int, lossDelay: int)
    requires b.Get(level).Some?
    ensures AckApplied(b, level, [], now, lossDelay) == b
  {
  }

  /** What processing an ACK does to a space: exactly the covered packets count as acknowledged, no covered packet is
      tracked any longer, and of the others exactly those leave that are old enough to be declared lost, provided the
      ACK covers any packet at all. */
  ghost predicate Processed(s: Space, s': Space, rs: seq<AckRange>, now: int, lossDelay: int)
    requires 0 < |rs|
  {
    var m, m' := Table(s.packets), Table(s'.packets);
    && s'.largestAcked == Max(s.largestAcked, LargestAcked(rs))
    && s'.largestSent == s.largestSent && s'.sent == s.sent && s'.first == s.first
    && (forall u :: u in s'.acked <==> u in s.acked || NewlyAcked(m, rs, u))
    && (forall k :: k in m' <==>
                    && k in m && !Covers(rs, k)
                    && !(CoversAny(m, rs) && Expired(m[k], s'.largestAcked, now, lossDelay)))
  }

  ghost predicate CoversAny(m: Tracked, rs: seq<AckRange>) {
    exists k :: k in m && Covers(rs, k)
  }

  function Max(a: int, b: int): int {
    if a < b then b else a
  }

  lemma {:induction false} TableTail(ps: seq<Packet>, n: nat)
    requires Increasing(ps) && n <= |ps|
    ensures forall k :: k in Table(ps[n..]) ==> k in Table(ps) && Table(ps[n..])[k] == Table(ps)[k]
    ensures forall k :: k in Table(ps) && k !in Table(ps[n..]) ==>
              exists i :: 0 <= i < n && ps[i] == Table(ps)[k] && ps[i].pn == k
  {
    if n == 0 {
      assert ps[n..] == ps;
    } else {
      TableTail(ps[1..], n-1);
      assert ps[1..][n-1..] == ps[n..];
      TableAbove(ps[1..], ps[0].pn);
      forall k | k in Table(ps) && k !in Table(ps[n..])
          ensures exists i :: 0 <= i < n && ps[i] == Table(ps)[k] && ps[i].pn == k {
        if k != ps[0].pn {
          var i :| 0 <= i < n-1 && ps[1..][i] == Table(ps[1..])[k] && ps[1..][i].pn == k;
          assert ps[i+1] == Table(ps)[k];
        }
      }
    }
  }

  lemma ProcessedIs(s: Space, s1: Space, s2: Space, pns: seq<nat>, rs: seq<AckRange>, n: nat, now: int, lossDelay: int)
    requires 0 < |rs| && Increasing(s1.packets) && n <= |s1.packets|
    requires forall pn :: pn in pns <==> pn in Table(s.packets) && Covers(rs, pn)
    requires AckedSpace(s.(largestAcked := Max(s.largestAcked, LargestAcked(rs))), s1, pns)
    requires s2 == s1.(packets := s1.packets[n..])
    requires forall i :: 0 <= i < |s1.packets| ==> (i < n <==> Expired(s1.packets[i], s1.largestAcked, now, lossDelay))
    requires pns != []
    ensures Processed(s, s2, rs, now, lossDelay)
  {
    var m, m1, m2 := Table(s.packets), Table(s1.packets), Table(s2.packets);
    forall u ensures u in s2.acked <==> u in s.acked || NewlyAcked(m, rs, u) {
      UnitsOfIs(m, pns, u);
    }
    assert pns[0] in pns;
    assert CoversAny(m, rs);
    forall k ensures k in m2 <==> k in m1 && !Expired(m1[k], s1.largestAcked, now, lossDelay) {
      NotExpiredTail(s1.packets, n, s1.largestAcked, now, lossDelay, k);
    }
    forall k | k in m1 ensures m1[k].pn == m[k].pn && m1[k].sendTime == m[k].sendTime {
      MapsToItself(s.packets, k);
      MapsToItself(s1.packets, k);
    }
  }

  lemma NotExpiredTail(ps: seq<Packet>, n: nat, largestAcked: int, now: int, lossDelay: int, k: nat)
    requires Increasing(ps) && n <= |ps|
    requires forall i :: 0 <= i < |ps| ==> (i < n <==> Expired(ps[i], largestAcked, now, lossDelay))
    ensures k in Table(ps[n..]) <==> k in Table(ps) && !Expired(Table(ps)[k], largestAcked, now, lossDelay)
  {
    TableTail(ps, n);
    if k in Table(ps[n..]) {
      var i := TableIndex(ps[n..], k);
      assert ps[n..][i] == ps[n + i];
    }
  }

  lemma Exactly(ps: seq<Packet>, rs: seq<AckRange>, pns: seq<nat>)
    requires ExactlyCovered(ps, rs, pns)
    ensures forall pn :: pn in pns <==> pn in Table(ps) && Covers(rs, pn)
    ensures forall i :: 0 <= i < |pns| ==> pns[i] in Table(ps)
    ensures forall i, j :: 0 <= i < j < |pns| ==> pns[i] < pns[j]
  {
  }

  lemma SomeRange(rs: seq<AckRange>)
    requires WellFormed(rs)
    ensures 0 < |rs|
  {
  }

  lemma NothingAcked(s: Space, s': Space, rs: seq<AckRange>, now: int, lossDelay: int)
    requires 0 < |rs| && ExactlyCovered(s.packets, rs, [])
    requires s' == s.(largestAcked := Max(s.largestAcked, LargestAcked(rs)))
    ensures Processed(s, s', rs, now, lossDelay)
  {
  }

  method NoneSkipped(rs: seq<AckRange>, skipped: seq<nat>) returns (ok: bool)
    requires WellFormed(rs)
    ensures ok <==> !HitsSkipped(rs, skipped)
  {
    for i := 0 to |skipped|
      invariant forall k :: 0 <= k < i ==> !Covers(rs, skipped[k])
    {
      var hit := AcksPacket(rs, skipped[i]);
      if hit {
        return false;
      }
    }
    return true;
  }

  lemma MapsToItself(ps: seq<Packet>, k: nat)
    requires k in Table(ps)
    ensures Table(ps)[k].pn == k
  {
    if ps[0].pn != k {
      MapsToItself(ps[1..], k);
    }
  }

  // ----- sending again what was dequeued

  // The packets that are tracked after sending ps: those with frames, marked as in flight and retransmittable.
  function Eliciting(ps: seq<Packet>): seq<Packet> {
    if ps == [] then [] else (if ps[0].units == {} then [] else [Registered(ps[0])]) + Eliciting(ps[1..])
  }

  /** What the caller owes when it reports packets as the retransmission of d: unused numbers in increasing order,
      send times that do not go back, and frames that are together those of d. */
  predicate Repeats(news: seq<Packet>, d: Packet, s: Space) {
    && news != [] && Increasing(news) && TimesIncrease(news)
    && (forall i :: 0 <= i < |news| ==> news[i].level == d.level && SendableIn(news[i], s) && news[i].units <= d.units)
    && (forall u :: u in d.units ==> exists i :: 0 <= i < |news| && u in news[i].units)
  }

  // A tracked new packet is one of those sent.
  lemma {:induction false} ElicitingIndex(ps: seq<Packet>, i: nat) returns (j: nat)
    requires i < |Eliciting(ps)|
    ensures i <= j < |ps| && Eliciting(ps)[i] == Registered(ps[j]) && ps[j].units != {}
  {
    if ps[0].units == {} {
      j := ElicitingIndex(ps[1..], i);
      j := j + 1;
    } else if i == 0 {
      j := 0;
    } else {
      j := ElicitingIndex(ps[1..], i-1);
      j := j + 1;
    }
  }

  lemma {:induction false} ElicitingHas(ps: seq<Packet>, j: nat) returns (i: nat)
    requires j < |ps| && ps[j].units != {}
    ensures i < |Eliciting(ps)| && Eliciting(ps)[i] == Registered(ps[j])
  {
    if j == 0 {
      i := 0;
    } else {
      i := ElicitingHas(ps[1..], j-1);
      i := if ps[0].units == {} then i else i + 1;
    }
  }

  lemma ConsOrdered(p: Packet, es: seq<Packet>)
    requires Increasing(es) && TimesIncrease(es)
    requires forall i :: 0 <= i < |es| ==> p.pn < es[i].pn && p.sendTime <= es[i].sendTime
    ensures Increasing([p] + es) && TimesIncrease([p] + es)
  {
    var all := [p] + es;
    assert forall i :: 0 < i < |all| ==> all[i] == es[i-1];
  }

  lemma TailOrdered(ps: seq<Packet>)
    requires Increasing(ps) && TimesIncrease(ps) && ps != []
    ensures Increasing(ps[1..]) && TimesIncrease(ps[1..])
  {
  }

  lemma {:induction false} ElicitingIncreasing(ps: seq<Packet>)
    requires Increasing(ps) && TimesIncrease(ps)
    ensures Increasing(Eliciting(ps)) && TimesIncrease(Eliciting(ps))
  {
    if ps != [] {
      var es := Eliciting(ps[1..]);
      assert Eliciting(ps) == if ps[0].units == {} then es else [Registered(ps[0])] + es;
      forall i | 0 <= i < |es| ensures ps[0].pn < es[i].pn && ps[0].sendTime <= es[i].sendTime {
        var j := ElicitingIndex(ps[1..], i);
        assert ps[1..][j] == ps[j+1];
      }
      hide Eliciting, Increasing, TimesIncrease;
      TailOrdered(ps);
      ElicitingIncreasing(ps[1..]);
      ConsOrdered(Registered(ps[0]), es);
    }
  }

  // The packets that enter the history, as it records them.
  function Entered(es: seq<Packet>, of: nat, tracked: bool): seq<Packet> {
    if tracked then AsChildren(es, of) else es
  }

  lemma EnteredAt(es: seq<Packet>, of: nat, tracked: bool)
    ensures |Entered(es, of, tracked)| == |es|
    ensures forall i :: 0 <= i < |es| ==>
              Entered(es, of, tracked)[i] ==
                  (if tracked then es[i].(isRetransmission := true, retransmissionOf := of) else es[i])
  {
    AsChildrenAt(es, of);
  }

  lemma {:induction false} EnteredFlight(es: seq<Packet>, of: nat, tracked: bool)
    ensures FlightSize(Entered(es, of, tracked)) == FlightSize(es)
    ensures PacketNumbers(Entered(es, of, tracked)) == PacketNumbers(es)
  {
    if es != [] && tracked {
      EnteredFlight(es[1..], of, tracked);
    }
  }

  // The history after the retransmission, as a table and as a sum.
  lemma SentAgainTable(ps: seq<Packet>, es: seq<Packet>, of: nat)
    requires Increasing(ps + es)
    ensures var n := Entered(es, of, of in Table(ps));
            Increasing(SentAgain(ps, es, of)) &&
                Table(SentAgain(ps, es, of)) == Again(Table(ps), of, PacketNumbers(es), Table(n))
  {
    IncreasingPrefix(ps, es);
    if of in Table(ps) {
      var i := TableIndex(ps, of);
      var q := Table(ps)[of].(retransmittedAs := PacketNumbers(es));
      AgainIncreasing(ps, es, q, of);
      TableConcat(Put(ps, q), AsChildren(es, of));
      Replaced(ps, q);
    } else {
      TableConcat(ps, es);
    }
  }

  lemma IncreasingPrefix(a: seq<Packet>, b: seq<Packet>)
    requires Increasing(a + b)
    ensures Increasing(a)
  {
    assert forall i :: 0 <= i < |a| ==> a[i] == (a + b)[i];
  }

  lemma SentAgainFlight(ps: seq<Packet>, es: seq<Packet>, of: nat)
    requires Increasing(ps)
    ensures FlightSize(SentAgain(ps, es, of)) == FlightSize(ps) + FlightSize(es)
  {
    if of in Table(ps) {
      var i := TableIndex(ps, of);
      var q := Table(ps)[of].(retransmittedAs := PacketNumbers(es));
      Replaced(ps, q);
      EnteredFlight(es, of, true);
      ConcatSums(Put(ps, q), AsChildren(es, of));
    } else {
      ConcatSums(ps, es);
    }
  }

  // An entry of the new table is one of the packets that were sent.
  lemma EntryIs(s: Space, d: Packet, news: seq<Packet>, k: nat) returns (j: nat)
    requires Repeats(news, d, s) && k in Table(Entered(Eliciting(news), d.pn, d.pn in Table(s.packets)))
    ensures j < |news| && news[j].pn == k && news[j].units != {}
    ensures var tracked := d.pn in Table(s.packets);
            Table(Entered(Eliciting(news), d.pn, tracked))[k] ==
            if tracked then Registered(news[j]).(isRetransmission := true, retransmissionOf := d.pn)
                else Registered(news[j])
  {
    var es, tracked := Eliciting(news), d.pn in Table(s.packets);
    ElicitingIncreasing(news);
    EnteredAt(es, d.pn, tracked);
    var i := TableIndex(Entered(es, d.pn, tracked), k);
    j := ElicitingIndex(news, i);
  }

  lemma CarriedOn(s: Space, d: Packet, news: seq<Packet>, u: nat)
    requires Repeats(news, d, s) && u in d.units
    ensures Live(Table(Entered(Eliciting(news), d.pn, d.pn in Table(s.packets))), u)
  {
    var es, tracked := Eliciting(news), d.pn in Table(s.packets);
    var j :| 0 <= j < |news| && u in news[j].units;
    var i := ElicitingHas(news, j);
    ElicitingIncreasing(news);
    EnteredAt(es, d.pn, tracked);
    TableHas(Entered(es, d.pn, tracked), i);
  }

  ghost predicate EntryOk(s: Space, level: EncLevel, d: Packet, newLargest: int, k: nat, p: Packet) {
    && PacketOk(p, k, level, s.first, newLargest) && s.largestSent < k && p.canBeRetransmitted
    && p.units <= d.units
    && p.isRetransmission == (d.pn in Table(s.packets)) && (p.isRetransmission ==> p.retransmissionOf == d.pn)
    && forall a :: a in Table(s.packets) ==> Table(s.packets)[a].sendTime <= p.sendTime
  }

  lemma EntryIsOk(s: Space, level: EncLevel, d: Packet, news: seq<Packet>, k: nat)
    requires PendingOk(Table(s.packets), level, s.first, s.largestSent, d)
    requires Repeats(news, d, s) && k in Table(Entered(Eliciting(news), d.pn, d.pn in Table(s.packets)))
    ensures EntryOk(s, level, d, news[|news|-1].pn, k,
              Table(Entered(Eliciting(news), d.pn, d.pn in Table(s.packets)))[k])
  {
    var j := EntryIs(s, d, news, k);
    assert SendableIn(news[j], s);
  }

  lemma ReplacementsHold(s: Space, level: EncLevel, pending: seq<Packet>, d: Packet, news: seq<Packet>)
    requires SpaceOk(s, level, pending) && PendingOk(Table(s.packets), level, s.first, s.largestSent, d)
    requires Repeats(news, d, s)
    ensures Replacements(Table(s.packets), level, s.first, s.largestSent, d,
                         Table(Entered(Eliciting(news), d.pn, d.pn in Table(s.packets))),
                             PacketNumbers(Eliciting(news)), news[|news|-1].pn)
  {
    var tracked := d.pn in Table(s.packets);
    var es := Entered(Eliciting(news), d.pn, tracked);
    var m, n := Table(s.packets), Table(es);
    assert forall k :: k in n <==> k in PacketNumbers(Eliciting(news)) by {
      ListedIsTracked(es);
      EnteredFlight(Eliciting(news), d.pn, tracked);
    }
    assert s.largestSent < news[|news|-1].pn by {
      assert SendableIn(news[|news|-1], s);
    }
    forall k | k in n ensures EntryOk(s, level, d, news[|news|-1].pn, k, n[k]) {
      EntryIsOk(s, level, d, news, k);
    }
    forall a, b | a in n && b in n && a < b ensures n[a].sendTime <= n[b].sendTime {
      var i := EntryIs(s, d, news, a);
      var j := EntryIs(s, d, news, b);
    }
    forall u | u in d.units ensures Live(n, u) {
      CarriedOn(s, d, news, u);
    }
  }

  function AfterResending(s: Space, d: Packet, news: seq<Packet>): Space
    requires news != []
  {
    s.(largestSent := news[|news|-1].pn, packets := SentAgain(s.packets, Eliciting(news), d.pn))
  }

  lemma HistoryThenNew(s: Space, level: EncLevel, pending: seq<Packet>, d: Packet, news: seq<Packet>)
    requires SpaceOk(s, level, pending) && Repeats(news, d, s)
    ensures Increasing(s.packets + Eliciting(news))
  {
    var es := Eliciting(news);
    ElicitingIncreasing(news);
    forall i, j | 0 <= i < |s.packets| && 0 <= j < |es| ensures s.packets[i].pn < es[j].pn {
      var k := ElicitingIndex(news, j);
      assert SendableIn(news[k], s);
      NoNewerPacket(s, level, pending, news[k].pn);
    }
    OneThenOther(s.packets, es);
  }

  lemma OneThenOther(a: seq<Packet>, b: seq<Packet>)
    requires Increasing(a) && Increasing(b)
    requires forall i, j :: 0 <= i < |a| && 0 <= j < |b| ==> a[i].pn < b[j].pn
    ensures Increasing(a + b)
  {
    var all := a + b;
    forall i, j | 0 <= i < j < |all| ensures all[i].pn < all[j].pn {
      if |a| <= i {
        assert b[i - |a|].pn < b[j - |a|].pn;
      }
    }
  }

  lemma ResentOk(s: Space, level: EncLevel, d: Packet, rest: seq<Packet>, news: seq<Packet>)
    requires SpaceOk(s, level, [d] + rest) && Repeats(news, d, s)
    ensures SpaceOk(AfterResending(s, d, news), level, rest)
    ensures FlightSize(AfterResending(s, d, news).packets) == FlightSize(s.packets) + FlightSize(Eliciting(news))
  {
    assert ([d] + rest)[0] == d;
    ReplacementsHold(s, level, [d] + rest, d, news);
    HistoryThenNew(s, level, [d] + rest, d, news);
    SentAgainTable(s.packets, Eliciting(news), d.pn);
    SentAgainFlight(s.packets, Eliciting(news), d.pn);
    AgainKeepsLedger(Table(s.packets), level, s.first, s.largestSent, d, rest, s.sent, s.acked,
                     Table(Entered(Eliciting(news), d.pn, d.pn in Table(s.packets))), PacketNumbers(Eliciting(news)),
                         news[|news|-1].pn);
  }

  // The dequeued packet is the first of its level that is pending.
  lemma HandFirst(b: Book, d: Packet, l: EncLevel)
    requires b.inHand == [d]
    ensures b.Pending(l) == (if l == d.level then [d] else []) + b.(inHand := []).Pending(l)
  {
    OfLevelConcat([d], b.retransmissionQueue, l);
    assert [] + b.retransmissionQueue == b.retransmissionQueue;
    assert OfLevel([d], l) == if l == d.level then [d] else [];
  }

  function Resent(b: Book, d: Packet, news: seq<Packet>): Book
    requires b.Get(d.level).Some? && news != []
  {
    b.With(d.level, Some(AfterResending(b.Get(d.level).value, d, news))).(inHand := [])
  }

  lemma ResentBookOk(b: Book, d: Packet, news: seq<Packet>)
    requires b.Ok() && b.inHand == [d] && b.Get(d.level).Some? && Repeats(news, d, b.Get(d.level).value)
    ensures Resent(b, d, news).Ok()
    ensures Resent(b, d, news).TotalFlight() == b.TotalFlight() + FlightSize(Eliciting(news))
  {
    hide SpaceOk, OfLevel, FlightSize, Eliciting;
    var b', level, s := Resent(b, d, news), d.level, b.Get(d.level).value;
    var rest := b.(inHand := []).Pending(level);
    HandFirst(b, d, level);
    assert b.LevelOk(level);
    ResentOk(s, level, d, rest, news);
    forall l | l != level ensures b'.Get(l) == b.Get(l) && b'.Pending(l) == b.Pending(l) {
      HandFirst(b, d, l);
    }
    OneLevelChanged(b, b', level);
  }

  lemma {:induction false} ElicitingPush(a: seq<Packet>, p: Packet)
    ensures Eliciting(a + [p]) == Eliciting(a) + if p.units == {} then [] else [Registered(p)]
  {
    if a != [] {
      assert (a + [p])[1..] == a[1..] + [p];
      ElicitingPush(a[1..], p);
    }
  }

  lemma ElicitingFlight(a: seq<Packet>, p: Packet)
    ensures FlightSize(Eliciting(a + [p])) == FlightSize(Eliciting(a)) + if p.units == {} then 0 else p.length
  {
    ElicitingPush(a, p);
    if p.units == {} {
      assert Eliciting(a) + [] == Eliciting(a);
    } else {
      ConcatSums(Eliciting(a), [Registered(p)]);
      assert FlightSize([Registered(p)]) == p.length;
    }
  }

  // ----- queueing a whole space, dropping a space, Retry

  // Table m0 with the packets numbered pns no longer retransmittable.
  ghost predicate ClearedOnly(m0: Tracked, m: Tracked, pns: seq<nat>) {
    && m.Keys == m0.Keys
    && forall k :: k in m0 ==> m[k] == if k in pns then m0[k].(canBeRetransmitted := false) else m0[k]
  }

  lemma ClearedOnlyStep(m0: Tracked, m: Tracked, pns: seq<nat>, pn: nat)
    requires ClearedOnly(m0, m, pns) && pn in m0 && pn !in pns
    ensures pn in m && m[pn] == m0[pn]
    ensures ClearedOnly(m0, m[pn := m[pn].(canBeRetransmitted := false)], pns + [pn])
  {
    assert forall k :: k in pns + [pn] <==> k in pns || k == pn;
  }

  // The packets, none of them retransmittable any more.
  function ClearedAll(ps: seq<Packet>): seq<Packet> {
    if ps == [] then [] else [ps[0].(canBeRetransmitted := false)] + ClearedAll(ps[1..])
  }

  lemma {:induction false} ClearedAllAt(ps: seq<Packet>)
    ensures |ClearedAll(ps)| == |ps|
    ensures forall i :: 0 <= i < |ps| ==> ClearedAll(ps)[i] == ps[i].(canBeRetransmitted := false)
  {
    if ps != [] {
      ClearedAllAt(ps[1..]);
    }
  }

  lemma ClearedAllPush(ps: seq<Packet>, i: nat)
    requires i < |ps|
    ensures ClearedAll(ps[..i+1]) == ClearedAll(ps[..i]) + [ps[i].(canBeRetransmitted := false)]
  {
    ClearedAllAt(ps[..i]);
    ClearedAllAt(ps[..i+1]);
  }

  lemma {:induction false} ClearedAllTable(ps: seq<Packet>)
    requires Increasing(ps)
    ensures Increasing(ClearedAll(ps)) && Table(ClearedAll(ps)).Keys == Table(ps).Keys
    ensures forall k :: k in Table(ps) ==> Table(ClearedAll(ps))[k] == Table(ps)[k].(canBeRetransmitted := false)
  {
    ClearedAllAt(ps);
    if ps != [] {
      ClearedAllTable(ps[1..]);
    }
  }

  /** queueAllPacketsForRetransmission: the retransmittable packets of the space join the queue in order. */
  function AllQueued(b: Book, level: EncLevel): Book
    requires b.Get(level).Some?
  {
    var s := b.Get(level).value;
    b.With(level, Some(s.(packets := ClearedAll(s.packets))))
    .(retransmissionQueue := b.retransmissionQueue + ClearedAll(Retransmittable(s.packets)))
  }

  // Once every retransmittable packet is cleared, the list is the cleared list.
  lemma ClearedOnlyAll(ps: seq<Packet>, qs: seq<Packet>, pns: seq<nat>)
    requires Increasing(ps) && Increasing(qs) && ClearedOnly(Table(ps), Table(qs), pns)
    requires forall k :: k in Table(ps) && Table(ps)[k].canBeRetransmitted ==> k in pns
    ensures qs == ClearedAll(ps)
  {
    ClearedAllTable(ps);
    assert Table(qs) == Table(ClearedAll(ps));
    SameTable(qs, ClearedAll(ps));
  }

  // The loop of queueAllPacketsForRetransmission after n packets.
  function QueuedEach(b: Book, level: EncLevel, rs: seq<Packet>, n: nat): (b': Book)
    requires b.Get(level).Some? && n <= |rs|
    ensures b'.Get(level).Some?
  {
    if n == 0 then b
    else
      var c, pn := QueuedEach(b, level, rs, n-1), rs[n-1].pn;
      if pn in Table(c.Get(level).value.packets) then Queued(c, level, pn) else c
  }

  // After queueing the first n of rs, exactly these are cleared and at the back of the queue.
  ghost predicate QueuedPart(b: Book, c: Book, level: EncLevel, rs: seq<Packet>, n: nat)
    requires b.Get(level).Some? && c.Get(level).Some? && n <= |rs| == |PacketNumbers(rs)|
  {
    var s, s' := b.Get(level).value, c.Get(level).value;
    && Increasing(s'.packets)
    && c == b.With(level, Some(s.(packets := s'.packets))).(retransmissionQueue :=
       b.retransmissionQueue + ClearedAll(rs[..n]))
    && ClearedOnly(Table(s.packets), Table(s'.packets), PacketNumbers(rs)[..n])
  }

  lemma QueuedPartStep(b: Book, c: Book, level: EncLevel, rs: seq<Packet>, n: nat)
    requires b.Get(level).Some? && c.Get(level).Some? && n < |rs| == |PacketNumbers(rs)|
    requires QueuedPart(b, c, level, rs, n) && PacketNumbers(rs)[n] == rs[n].pn
    requires rs[n].pn !in PacketNumbers(rs)[..n] && RetransmittableIn(b.Get(level).value.packets, rs[n])
    ensures rs[n].pn in Table(c.Get(level).value.packets)
    ensures Table(c.Get(level).value.packets)[rs[n].pn] == rs[n]
    ensures QueuedPart(b, Queued(c, level, rs[n].pn), level, rs, n + 1)
  {
    var s, s' := b.Get(level).value, c.Get(level).value;
    var q := rs[n].(canBeRetransmitted := false);
    TakeNext(PacketNumbers(rs), n);
    ClearedAllPush(rs, n);
    ClearedOnlyStep(Table(s.packets), Table(s'.packets), PacketNumbers(rs)[..n], rs[n].pn);
    Cleared(s'.packets, rs[n].pn);
    hide Table, ClearedAll, ClearedOnly, Increasing, Put, PacketNumbers;
    assert b.retransmissionQueue + ClearedAll(rs[..n]) + [q] == b.retransmissionQueue + ClearedAll(rs[..n+1]);
  }

  lemma QueuedEachUnfold(b: Book, level: EncLevel, rs: seq<Packet>, n: nat)
    requires b.Get(level).Some? && n < |rs|
    ensures var c := QueuedEach(b, level, rs, n);
            QueuedEach(b, level, rs, n + 1) ==
            if rs[n].pn in Table(c.Get(level).value.packets) then Queued(c, level, rs[n].pn) else c
  {
    hide Queued, Table;
  }

  lemma {:induction false} QueuedEachPart(b: Book, level: EncLevel, rs: seq<Packet>, n: nat)
    requires b.Get(level).Some? && Increasing(b.Get(level).value.packets) && Increasing(rs) && n <= |rs|
    requires forall i :: 0 <= i < |rs| ==> RetransmittableIn(b.Get(level).value.packets, rs[i])
    ensures |PacketNumbers(rs)| == |rs| && QueuedPart(b, QueuedEach(b, level, rs, n), level, rs, n)
    decreases n, 0
  {
    NumbersAt(rs);
    if n == 0 {
      assert b.retransmissionQueue + ClearedAll(rs[..0]) == b.retransmissionQueue;
    } else {
      QueuedEachStep(b, level, rs, n-1);
    }
  }

  lemma {:induction false} QueuedEachStep(b: Book, level: EncLevel, rs: seq<Packet>, n: nat)
    requires b.Get(level).Some? && Increasing(b.Get(level).value.packets) && Increasing(rs) && n < |rs|
    requires forall i :: 0 <= i < |rs| ==> RetransmittableIn(b.Get(level).value.packets, rs[i])
    ensures var c := QueuedEach(b, level, rs, n);
            && rs[n].pn in Table(c.Get(level).value.packets)
            && Table(c.Get(level).value.packets)[rs[n].pn].canBeRetransmitted
            && QueuedEach(b, level, rs, n + 1) == Queued(c, level, rs[n].pn)
    ensures |PacketNumbers(rs)| == |rs| && QueuedPart(b, QueuedEach(b, level, rs, n + 1), level, rs, n + 1)
    decreases n, 1
  {
    NumbersAt(rs);
    NotBefore(PacketNumbers(rs), n);
    assert RetransmittableIn(b.Get(level).value.packets, rs[n]);
    assert rs[n].canBeRetransmitted;
    var c := QueuedEach(b, level, rs, n);
    QueuedEachUnfold(b, level, rs, n);
    QueuedEachPart(b, level, rs, n);
    hide QueuedPart, RetransmittableIn, PacketNumbers, Queued, Table, QueuedEach, Increasing;
    QueuedPartStep(b, c, level, rs, n);
  }

  lemma QueuedEachIsAll(b: Book, level: EncLevel)
    requires b.LevelOk(level) && b.Get(level).Some?
    ensures var ps := b.Get(level).value.packets;
            && QueuedEach(b, level, Retransmittable(ps), |Retransmittable(ps)|) == AllQueued(b, level)
            && Increasing(Retransmittable(ps))
            && forall i :: 0 <= i < |Retransmittable(ps)| ==> RetransmittableIn(ps, Retransmittable(ps)[i])
  {
    var ps := b.Get(level).value.packets;
    var rs := Retransmittable(ps);
    AllQueueable(ps);
    RetransmittableTracked(ps);
    RetransmittableIncreasing(ps);
    assert rs[..|rs|] == rs && PacketNumbers(rs)[..|rs|] == PacketNumbers(rs);
    QueuedEachPart(b, level, rs, |rs|);
    ClearedOnlyAll(ps, QueuedEach(b, level, rs, |rs|).Get(level).value.packets, PacketNumbers(rs));
  }

  lemma TakeNext(pns: seq<nat>, i: nat)
    requires i < |pns|
    ensures pns[..i+1] == pns[..i] + [pns[i]]
  {
  }

  lemma NotBefore(pns: seq<nat>, i: nat)
    requires i < |pns| && forall i, j :: 0 <= i < j < |pns| ==> pns[i] < pns[j]
    ensures pns[i] !in pns[..i]
  {
  }

  lemma AllQueueable(ps: seq<Packet>)
    requires Increasing(ps)
    ensures var pns := PacketNumbers(Retransmittable(ps));
            && |pns| == |Retransmittable(ps)|
            && (forall i, j :: 0 <= i < j < |pns| ==> pns[i] < pns[j])
            && (forall i :: 0 <= i < |pns| ==> pns[i] in Table(ps) && Table(ps)[pns[i]].canBeRetransmitted)
            && (forall i :: 0 <= i < |pns| ==> Table(ps)[pns[i]] == Retransmittable(ps)[i])
            && (forall k :: k in Table(ps) && Table(ps)[k].canBeRetransmitted ==> k in pns)
  {
    var rs := Retransmittable(ps);
    NumbersAt(rs);
    RetransmittableIncreasing(ps);
    RetransmittableTracked(ps);
    forall i | 0 <= i < |rs| ensures RetransmittableIn(ps, rs[i]) {
    }
    forall k | k in Table(ps) && Table(ps)[k].canBeRetransmitted ensures k in PacketNumbers(rs) {
      var i := RetransmittableIndex(ps, k);
      MapsToItself(ps, k);
      assert PacketNumbers(rs)[i] == k;
    }
  }

  lemma {:induction false} FilterLevel(ps: seq<Packet>, level: EncLevel, l: EncLevel)
    ensures OfLevel(NotOfLevel(ps, level), l) == if l == level then [] else OfLevel(ps, l)
  {
    if ps != [] {
      var rest := NotOfLevel(ps[1..], level);
      FilterLevel(ps[1..], level, l);
      if ps[0].level == level {
        assert NotOfLevel(ps, level) == rest;
      } else {
        OfLevelConcat([ps[0]], rest, l);
      }
    }
  }

  function NotOfLevel(ps: seq<Packet>, level: EncLevel): seq<Packet> {
    if ps == [] then [] else (if ps[0].level == level then [] else [ps[0]]) + NotOfLevel(ps[1..], level)
  }

  lemma {:induction false} FilterShorter(ps: seq<Packet>, level: EncLevel)
    ensures |NotOfLevel(ps, level)| <= |ps|
  {
    if ps != [] {
      FilterShorter(ps[1..], level);
    }
  }

  lemma {:induction false} NotOfLevelPush(ps: seq<Packet>, p: Packet, level: EncLevel)
    ensures NotOfLevel(ps + [p], level) == NotOfLevel(ps, level) + if p.level == level then [] else [p]
  {
    if ps != [] {
      assert (ps + [p])[1..] == ps[1..] + [p];
      NotOfLevelPush(ps[1..], p, level);
    }
  }

  method RemoveLevel(ps: seq<Packet>, level: EncLevel) returns (queue: seq<Packet>)
    ensures queue == NotOfLevel(ps, level)
  {
    queue := [];
    for i := 0 to |ps|
      invariant queue == NotOfLevel(ps[..i], level)
    {
      assert ps[..i+1] == ps[..i] + [ps[i]];
      NotOfLevelPush(ps[..i], ps[i], level);
      if ps[i].level != level {
        queue := queue + [ps[i]];
      }
    }
    assert ps[..|ps|] == ps;
  }

  /** The packets of a dropped space leave the queue, too, and one in hand cannot be sent again any more. */
  function Without(b: Book, level: EncLevel): Book {
    b.With(level, None).(retransmissionQueue := NotOfLevel(b.retransmissionQueue, level),
                         inHand := NotOfLevel(b.inHand, level))
  }

  lemma DroppedOk(b: Book, level: EncLevel)
    requires b.Ok()
    ensures Without(b, level).Ok()
  {
    var b' := Without(b, level);
    FilterShorter(b.inHand, level);
    forall l ensures b'.LevelOk(l) {
      FilterLevel(b.retransmissionQueue, level, l);
      FilterLevel(b.inHand, level, l);
      OfLevelConcat(b.inHand, b.retransmissionQueue, l);
      OfLevelConcat(b'.inHand, b'.retransmissionQueue, l);
      if l != level {
        SameLevel(b, b', l);
      }
    }
  }

  lemma {:induction false} AllOfLevel(ps: seq<Packet>, level: EncLevel, l: EncLevel)
    requires forall i :: 0 <= i < |ps| ==> ps[i].level == level
    ensures OfLevel(ps, l) == if l == level then ps else []
  {
    if ps != [] {
      AllOfLevel(ps[1..], level, l);
    }
  }

  function Retried(b: Book, first: nat): Book
    requires b.initialPackets.Some?
  {
    var s := b.initialPackets.value;
    b.(initialPackets := Some(Space([], first, INVALID_PACKET_NUMBER, INVALID_PACKET_NUMBER, s.sent, s.acked)),
       retransmissionQueue := b.retransmissionQueue + Retransmittable(s.packets))
  }

  lemma RetransmittableLevel(s: Space, level: EncLevel, pending: seq<Packet>)
    requires SpaceOk(s, level, pending)
    ensures forall i :: 0 <= i < |Retransmittable(s.packets)| ==> Retransmittable(s.packets)[i].level == level
  {
    RetransmittableTracked(s.packets);
    var rs := Retransmittable(s.packets);
    forall i | 0 <= i < |rs| ensures rs[i].level == level {
      assert RetransmittableIn(s.packets, rs[i]);
      assert PacketOk(Table(s.packets)[rs[i].pn], rs[i].pn, level, s.first, s.largestSent);
    }
  }

  lemma RetriedPending(b: Book, first: nat, l: EncLevel)
    requires b.initialPackets.Some? && b.LevelOk(Initial)
    ensures Retried(b, first).Pending(l) == b.Pending(l) +
              if l == Initial then Retransmittable(b.initialPackets.value.packets) else []
  {
    var rs := Retransmittable(b.initialPackets.value.packets);
    RetransmittableLevel(b.initialPackets.value, Initial, b.Pending(Initial));
    AllOfLevel(rs, Initial, l);
    hide OfLevel, Retransmittable, Book.LevelOk;
    OfLevelConcat(b.inHand + b.retransmissionQueue, rs, l);
    Assoc(b.inHand, b.retransmissionQueue, rs);
  }

  lemma RetriedInitial(b: Book, first: nat)
    requires b.initialPackets.Some? && b.LevelOk(Initial)
    requires b.initialPackets.value.first <= first && b.initialPackets.value.largestSent < first
    ensures Retried(b, first).LevelOk(Initial)
  {
    var s := b.initialPackets.value;
    RetriedPending(b, first, Initial);
    RetryKeepsLedger(s.packets, Initial, s.first, s.largestSent, b.Pending(Initial), s.sent, s.acked, first);
  }

  lemma RetriedOk(b: Book, first: nat)
    requires b.Ok() && b.initialPackets.Some?
    requires b.initialPackets.value.first <= first && b.initialPackets.value.largestSent < first
    ensures Retried(b, first).Ok()
    ensures Retried(b, first).TotalFlight() == b.Flight(Handshake) + b.Flight(OneRtt)
  {
    assert b.LevelOk(Initial);
    RetriedInitial(b, first);
    forall l | l != Initial ensures Retried(b, first).Pending(l) == b.Pending(l) {
      RetriedPending(b, first, l);
    }
    OneLevelChanged(b, Retried(b, first), Initial);
  }

  predicate HasOutstanding(s: Option<Space>) {
    s.Some? && CountOutstanding(s.value.packets) > 0
  }

  predicate CryptoOutstanding(b: Book) {
    HasOutstanding(b.initialPackets) || HasOutstanding(b.handshakePackets)
  }

  /** The state after the alarm: in crypto mode everything of the Initial and then of the Handshake space is queued, as
      far as the spaces exist; in loss-timer mode expired 1-RTT packets are lost; otherwise nothing moves. */
  function AfterAlarm(b: Book, now: int, lossDelay: int): Book
    requires b.oneRttPackets.Some?
  {
    if CryptoOutstanding(b) then
      if b.initialPackets == None then b
      else if b.handshakePackets == None then AllQueued(b, Initial)
      else AllQueued(AllQueued(b, Initial), Handshake)
    else if HasOutstanding(b.oneRttPackets) && b.lossTime != None then Detected(b, OneRtt, now, lossDelay)
    else b
  }

  lemma {:induction false} ClearedNoneOutstanding(ps: seq<Packet>)
    ensures CountOutstanding(ClearedAll(ps)) == 0
  {
    if ps != [] {
      ClearedNoneOutstanding(ps[1..]);
    }
  }

  // ----- what the operations mean, packet by packet

  // The packets in the order of their numbers that were appended to the queue.
  function Joined(b: Book, b': Book): seq<Packet>
    requires b.retransmissionQueue <= b'.retransmissionQueue
  {
    b'.retransmissionQueue[|b.retransmissionQueue|..]
  }

  /** A lost packet: not above the largest number acknowledged, and sent longer ago than the delay. */
  predicate Overdue(p: Packet, largestAcked: int, now: int, lossDelay: int) {
    p.pn <= largestAcked && p.sendTime + lossDelay < now
  }

  /** Losses are taken: exactly the overdue packets leave the space; those of them that may be retransmitted join the
      queue behind what is there, in the order of their numbers and marked as queued; the alarm for 1-RTT packets is
      set for the first one left if it is not above the largest number acknowledged; and nothing else changes. */
  ghost predicate LossesTaken(b: Book, b': Book, level: EncLevel, now: int, lossDelay: int)
    requires b.Get(level).Some?
  {
    && b'.Get(level).Some?
    && var s, s' := b.Get(level).value, b'.Get(level).value;
    && Increasing(s'.packets)
    && (forall p :: p in s'.packets <==> p in s.packets && !Overdue(p, s.largestAcked, now, lossDelay))
    && b.retransmissionQueue <= b'.retransmissionQueue && Increasing(Joined(b, b'))
    && (forall q :: q in Joined(b, b') <==>
          && !q.canBeRetransmitted && q.(canBeRetransmitted := true) in s.packets
          && Overdue(q, s.largestAcked, now, lossDelay))
    && b'.lossTime == (if level != OneRtt then b.lossTime
                       else if s'.packets != [] && s'.packets[0].pn <= s.largestAcked then
                         Some(s'.packets[0].sendTime + lossDelay)
                       else None)
    && b' == b.With(level, Some(s.(packets := s'.packets)))
             .(retransmissionQueue := b'.retransmissionQueue, lossTime := b'.lossTime)
  }

  lemma {:induction false} LostCountExact(ps: seq<Packet>, largestAcked: int, now: int, lossDelay: int)
    requires Increasing(ps) && TimesIncrease(ps)
    ensures forall i :: 0 <= i < |ps| ==>
              (i < LostCount(ps, largestAcked, now, lossDelay) <==> Overdue(ps[i], largestAcked, now, lossDelay))
  {
    if ps != [] {
      if Expired(ps[0], largestAcked, now, lossDelay) {
        TailOrdered(ps);
        LostCountExact(ps[1..], largestAcked, now, lossDelay);
        forall i | 0 < i < |ps| ensures i < LostCount(ps, largestAcked, now, lossDelay) <==>
                                        Overdue(ps[i], largestAcked, now, lossDelay) {
          assert ps[1..][i-1] == ps[i];
        }
      }
    }
  }

  lemma {:induction false} RetransmittablePush(ps: seq<Packet>, p: Packet)
    ensures Retransmittable(ps + [p]) == Retransmittable(ps) + if p.canBeRetransmitted then [p] else []
  {
    if ps != [] {
      assert (ps + [p])[1..] == ps[1..] + [p];
      RetransmittablePush(ps[1..], p);
    }
  }

  lemma {:induction false} RetransmittableMembers(ps: seq<Packet>)
    ensures forall p :: p in Retransmittable(ps) <==> p in ps && p.canBeRetransmitted
  {
    if ps != [] {
      RetransmittableMembers(ps[1..]);
      assert forall p :: p in ps <==> p == ps[0] || p in ps[1..];
    }
  }

  // The retransmittable packets, marked as queued.
  lemma MarkedMembers(ps: seq<Packet>)
    requires Increasing(ps)
    ensures Increasing(ClearedAll(Retransmittable(ps)))
    ensures forall q :: q in ClearedAll(Retransmittable(ps)) <==>
              !q.canBeRetransmitted && q.(canBeRetransmitted := true) in ps
  {
    var rs := Retransmittable(ps);
    RetransmittableMembers(ps);
    RetransmittableIncreasing(ps);
    ClearedAllAt(rs);
    forall q ensures q in ClearedAll(rs) <==> !q.canBeRetransmitted && q.(canBeRetransmitted := true) in ps {
      if q in ClearedAll(rs) {
        var i :| 0 <= i < |rs| && ClearedAll(rs)[i] == q;
        assert rs[i] in rs && rs[i] == q.(canBeRetransmitted := true);
      }
      if !q.canBeRetransmitted && q.(canBeRetransmitted := true) in ps {
        var p := q.(canBeRetransmitted := true);
        assert p in rs;
        var i :| 0 <= i < |rs| && rs[i] == p;
        assert ClearedAll(rs)[i] == q;
      }
    }
  }

  lemma MarkedPush(ps: seq<Packet>, n: nat)
    requires n < |ps|
    ensures ClearedAll(Retransmittable(ps[..n+1])) ==
              ClearedAll(Retransmittable(ps[..n])) +
              if ps[n].canBeRetransmitted then [ps[n].(canBeRetransmitted := false)] else []
  {
    var rs, p := Retransmittable(ps[..n]), ps[n];
    assert ps[..n+1] == ps[..n] + [p];
    RetransmittablePush(ps[..n], p);
    if p.canBeRetransmitted {
      ClearedAllPush(rs + [p], |rs|);
      assert (rs + [p])[..|rs|] == rs && (rs + [p])[..|rs|+1] == rs + [p];
    } else {
      assert rs + [] == rs;
    }
  }

  lemma {:induction false} LostManyQueue(b: Book, level: EncLevel, n: nat)
    requires b.Get(level).Some? && n <= |b.Get(level).value.packets|
    ensures LostMany(b, level, n).retransmissionQueue ==
              b.retransmissionQueue + ClearedAll(Retransmittable(b.Get(level).value.packets[..n]))
    decreases n
  {
    hide ClearedAll, Retransmittable;
    var ps := b.Get(level).value.packets;
    if n == 0 {
      NoneMarked(ps);
    } else {
      LostManyQueue(b, level, n-1);
      MarkedPush(ps, n-1);
      var marked := if ps[n-1].canBeRetransmitted then [ps[n-1].(canBeRetransmitted := false)] else [];
      Assoc(b.retransmissionQueue, ClearedAll(Retransmittable(ps[..n-1])), marked);
      assert LostMany(b, level, n-1).retransmissionQueue + [] == LostMany(b, level, n-1).retransmissionQueue;
    }
  }

  lemma NoneMarked(ps: seq<Packet>)
    ensures ClearedAll(Retransmittable(ps[..0])) == []
  {
  }

  lemma OneSpaceDiffers(b: Book, b': Book, level: EncLevel)
    requires forall l :: l != level ==> b'.Get(l) == b.Get(l)
    requires b'.inHand == b.inHand
    ensures b' == b.With(level, b'.Get(level))
                  .(retransmissionQueue := b'.retransmissionQueue, lossTime := b'.lossTime)
  {
    assert level != Initial ==> b'.Get(Initial) == b.Get(Initial);
    assert level != Handshake ==> b'.Get(Handshake) == b.Get(Handshake);
    assert level != OneRtt ==> b'.Get(OneRtt) == b.Get(OneRtt);
  }

  lemma SlicesIncrease(ps: seq<Packet>, n: nat)
    requires Increasing(ps) && n <= |ps|
    ensures Increasing(ps[n..]) && Increasing(ps[..n])
  {
  }

  lemma PrefixSuffix(ps: seq<Packet>, n: nat, largestAcked: int, now: int, lossDelay: int)
    requires n <= |ps|
    requires forall i :: 0 <= i < |ps| ==> (i < n <==> Overdue(ps[i], largestAcked, now, lossDelay))
    ensures forall p :: p in ps[n..] <==> p in ps && !Overdue(p, largestAcked, now, lossDelay)
    ensures forall p :: p in ps[..n] <==> p in ps && Overdue(p, largestAcked, now, lossDelay)
  {
    hide Overdue;
    forall p ensures p in ps[n..] <==> p in ps && !Overdue(p, largestAcked, now, lossDelay) {
      if p in ps[n..] {
        var i :| 0 <= i < |ps[n..]| && ps[n..][i] == p;
        assert ps[n + i] == p;
      }
      if p in ps && !Overdue(p, largestAcked, now, lossDelay) {
        var i :| 0 <= i < |ps| && ps[i] == p;
        assert ps[n..][i - n] == p;
      }
    }
    forall p ensures p in ps[..n] <==> p in ps && Overdue(p, largestAcked, now, lossDelay) {
      if p in ps && Overdue(p, largestAcked, now, lossDelay) {
        var i :| 0 <= i < |ps| && ps[i] == p;
        assert ps[..n][i] == p;
      }
    }
  }

  lemma DetectedIs(b: Book, level: EncLevel, now: int, lossDelay: int)
    requires b.Ok() && b.Get(level).Some?
    ensures LossesTaken(b, Detected(b, level, now, lossDelay), level, now, lossDelay)
  {
    var s := b.Get(level).value;
    assert b.LevelOk(level);
    TimesAlong(s, level, b.Pending(level));
    LossesOf(b, level, now, lossDelay);
  }

  lemma LossesOf(b: Book, level: EncLevel, now: int, lossDelay: int)
    requires b.Get(level).Some? && Increasing(b.Get(level).value.packets) && TimesIncrease(b.Get(level).value.packets)
    ensures LossesTaken(b, Detected(b, level, now, lossDelay), level, now, lossDelay)
  {
    hide LostMany, LostCount, ClearedAll, Retransmittable, Overdue, Increasing;
    var s := b.Get(level).value;
    var n := LostCount(s.packets, s.largestAcked, now, lossDelay);
    LostCountExact(s.packets, s.largestAcked, now, lossDelay);
    PrefixSuffix(s.packets, n, s.largestAcked, now, lossDelay);
    SlicesIncrease(s.packets, n);
    var b' := Detected(b, level, now, lossDelay);
    LostManyQueue(b.(lossTime := b'.lossTime), level, n);
    OneSpaceDiffers(b, b', level);
    MarkedMembers(s.packets[..n]);
    OverdueFlag(s.largestAcked, now, lossDelay);
  }

  // The mark does not matter for being overdue.
  lemma OverdueFlag(largestAcked: int, now: int, lossDelay: int)
    ensures forall q: Packet, flag :: Overdue(q.(canBeRetransmitted := flag), largestAcked, now, lossDelay) <==>
                                      Overdue(q, largestAcked, now, lossDelay)
  {
  }

  // Packet k repeats, directly or not, a packet the ACK covers.
  ghost predicate RepeatsCovered(m: Tracked, rs: seq<AckRange>, k: nat) {
    exists c :: c in m && Covers(rs, c) && Descendant(m, c, k)
  }

  /** An ACK is taken: exactly the packets it covers leave the space, and their units count as acknowledged; what
      repeats one of them, directly or not, is no longer retransmitted; and they are struck from the lists of what the
      others were repeated as. */
  ghost predicate AcksTaken(s: Space, s': Space, rs: seq<AckRange>)
    requires 0 < |rs|
  {
    var m, m' := Table(s.packets), Table(s'.packets);
    && Increasing(s'.packets)
    && (forall k :: k in m' <==> k in m && !Covers(rs, k))
    && (forall k :: k in m' ==>
          m'[k] == m[k].(retransmittedAs := m'[k].retransmittedAs,
                         canBeRetransmitted := m[k].canBeRetransmitted && !RepeatsCovered(m, rs, k)))
    && (forall k :: k in m' ==> StruckFrom(m, rs, m[k].retransmittedAs, m'[k].retransmittedAs))
    && (forall u :: u in s'.acked <==> u in s.acked || exists k :: k in m && Covers(rs, k) && u in m[k].units)
    && s' == s.(packets := s'.packets, acked := s'.acked, largestAcked :=
                  if s.largestAcked < LargestAcked(rs) then LargestAcked(rs) else s.largestAcked)
  }

  // Of a list of numbers those are left that the ACK does not acknowledge.
  ghost predicate StruckFrom(m: Tracked, rs: seq<AckRange>, list: seq<nat>, left: seq<nat>) {
    forall c :: c in left <==> c in list && !(c in m && Covers(rs, c))
  }

  lemma StruckIs(ps: seq<Packet>, rs: seq<AckRange>, pns: seq<nat>, list: seq<nat>, left: seq<nat>)
    requires ExactlyCovered(ps, rs, pns) && Struck(list, left, pns)
    ensures StruckFrom(Table(ps), rs, list, left)
  {
    hide Table, Covers;
  }

  lemma FromCovered(ps: seq<Packet>, rs: seq<AckRange>, pns: seq<nat>, k: nat)
    requires ExactlyCovered(ps, rs, pns)
    ensures FromAny(Table(ps), pns, k) <==> RepeatsCovered(Table(ps), rs, k)
  {
    hide Table, Covers, Descendant;
  }

  lemma UnitsCovered(ps: seq<Packet>, rs: seq<AckRange>, pns: seq<nat>, u: nat)
    requires ExactlyCovered(ps, rs, pns) && forall i :: 0 <= i < |pns| ==> pns[i] in Table(ps)
    ensures u in UnitsOf(Table(ps), pns) <==> exists k :: k in Table(ps) && Covers(rs, k) && u in Table(ps)[k].units
  {
    hide Table, Covers;
    UnitsOfIs(Table(ps), pns, u);
  }

  lemma MaxIs(a: int, b: int)
    ensures Max(a, b) == if a < b then b else a
  {
  }

  lemma AcksTakenIs(s: Space, s': Space, pns: seq<nat>, rs: seq<AckRange>)
    requires 0 < |rs| && Increasing(s'.packets) && ExactlyCovered(s.packets, rs, pns)
    requires AckedSpace(s.(largestAcked := Max(s.largestAcked, LargestAcked(rs))), s', pns)
    ensures AcksTaken(s, s', rs)
  {
    hide Covers, Increasing, Descendant, LargestAcked, FromAny, RepeatsCovered, ExactlyCovered, UnitsOf, Max;
    hide StruckFrom, Struck;
    var m, m' := Table(s.packets), Table(s'.packets);
    Exactly(s.packets, rs, pns);
    forall k ensures FromAny(m, pns, k) <==> RepeatsCovered(m, rs, k) {
      FromCovered(s.packets, rs, pns, k);
    }
    forall u ensures u in UnitsOf(m, pns) <==> exists k :: k in m && Covers(rs, k) && u in m[k].units {
      UnitsCovered(s.packets, rs, pns, u);
    }
    assert Max(s.largestAcked, LargestAcked(rs)) ==
           if s.largestAcked < LargestAcked(rs) then LargestAcked(rs) else s.largestAcked by {
      MaxIs(s.largestAcked, LargestAcked(rs));
    }
    forall k | k in m' ensures StruckFrom(m, rs, m[k].retransmittedAs, m'[k].retransmittedAs) {
      StruckIs(s.packets, rs, pns, m[k].retransmittedAs, m'[k].retransmittedAs);
    }
  }

  /** First the ACK is taken, and then the losses it shows. */
  ghost predicate AckThenLosses(b: Book, s: Space, b': Book, level: EncLevel, rs: seq<AckRange>, now: int,
                                lossDelay: int)
    requires 0 < |rs|
  {
    exists s' :: AcksTaken(s, s', rs) && LossesTaken(b.With(level, Some(s')), b', level, now, lossDelay)
  }

  lemma AckThenLossesOver(b: Book, s0: Space, s: Space, b': Book, level: EncLevel, rs: seq<AckRange>, now: int,
                          lossDelay: int)
    requires 0 < |rs| && AckThenLosses(b.With(level, Some(s0)), s, b', level, rs, now, lossDelay)
    ensures AckThenLosses(b, s, b', level, rs, now, lossDelay)
  {
    hide AcksTaken, LossesTaken;
    var s' :| AcksTaken(s, s', rs)
              && LossesTaken(b.With(level, Some(s0)).With(level, Some(s')), b', level, now, lossDelay);
    WithTwice(b, level, Some(s0), Some(s'));
  }

  /** What an acceptable ACK does: if it covers no tracked packet it only raises the largest number acknowledged. */
  ghost predicate AckTaken(b: Book, b': Book, level: EncLevel, rs: seq<AckRange>, now: int, lossDelay: int)
    requires b.Get(level).Some? && 0 < |rs|
  {
    var s := b.Get(level).value;
    if exists k :: k in Table(s.packets) && Covers(rs, k) then AckThenLosses(b, s, b', level, rs, now, lossDelay)
    else b' == b.With(level, Some(s.(largestAcked :=
                 if s.largestAcked < LargestAcked(rs) then LargestAcked(rs) else s.largestAcked)))
  }

  /** A whole space is queued: its retransmittable packets join the queue in the order of their numbers, behind what is
      there; no packet leaves the space, and none of them is retransmittable any more. */
  ghost predicate SpaceQueued(b: Book, b': Book, level: EncLevel)
    requires b.Get(level).Some?
  {
    && b'.Get(level).Some?
    && var s, s' := b.Get(level).value, b'.Get(level).value;
    && |s'.packets| == |s.packets|
    && (forall i :: 0 <= i < |s.packets| ==> s'.packets[i] == s.packets[i].(canBeRetransmitted := false))
    && b.retransmissionQueue <= b'.retransmissionQueue && Increasing(Joined(b, b'))
    && (forall q :: q in Joined(b, b') <==> !q.canBeRetransmitted && q.(canBeRetransmitted := true) in s.packets)
    && b' == b.With(level, Some(s.(packets := s'.packets))).(retransmissionQueue := b'.retransmissionQueue)
  }

  lemma AllQueuedIs(b: Book, level: EncLevel)
    requires b.Get(level).Some? && Increasing(b.Get(level).value.packets)
    ensures SpaceQueued(b, AllQueued(b, level), level)
  {
    var s := b.Get(level).value;
    ClearedAllAt(s.packets);
    MarkedMembers(s.packets);
    hide ClearedAll, Retransmittable, Increasing;
    var b' := AllQueued(b, level);
    assert Joined(b, b') == ClearedAll(Retransmittable(s.packets));
  }

  // Some packet of the space may be retransmitted.
  predicate SomeOutstanding(s: Option<Space>) {
    s.Some? && exists i :: 0 <= i < |s.value.packets| && s.value.packets[i].canBeRetransmitted
  }

  lemma {:induction false} CountsSome(ps: seq<Packet>)
    ensures CountOutstanding(ps) > 0 <==> exists i :: 0 <= i < |ps| && ps[i].canBeRetransmitted
  {
    if ps != [] {
      CountsSome(ps[1..]);
      if CountOutstanding(ps[1..]) > 0 {
        var i :| 0 <= i < |ps[1..]| && ps[1..][i].canBeRetransmitted;
        assert ps[i+1].canBeRetransmitted;
      }
      if i :| 0 < i < |ps| && ps[i].canBeRetransmitted {
        assert ps[1..][i-1].canBeRetransmitted;
      }
    }
  }

  lemma OutstandingIff(s: Option<Space>)
    ensures HasOutstanding(s) <==> SomeOutstanding(s)
  {
    if s.Some? {
      CountsSome(s.value.packets);
    }
  }

  /** The alarm is taken.  With crypto packets outstanding, the Initial and then the Handshake space is queued, as far
      as they exist; otherwise, with 1-RTT packets outstanding and the loss timer set, losses are taken at that level;
      otherwise nothing moves. */
  ghost predicate AlarmTaken(b: Book, b': Book, now: int, lossDelay: int)
    requires b.oneRttPackets.Some?
  {
    if SomeOutstanding(b.initialPackets) || SomeOutstanding(b.handshakePackets) then
      if b.initialPackets == None then b' == b
      else if b.handshakePackets == None then SpaceQueued(b, b', Initial)
      else exists c: Book :: c.handshakePackets.Some? && SpaceQueued(b, c, Initial) && SpaceQueued(c, b', Handshake)
    else if SomeOutstanding(b.oneRttPackets) && b.lossTime != None then LossesTaken(b, b', OneRtt, now, lossDelay)
    else b' == b
  }

  lemma AlarmIs(b: Book, now: int, lossDelay: int)
    requires b.Ok() && b.oneRttPackets.Some?
    ensures AlarmTaken(b, AfterAlarm(b, now, lossDelay), now, lossDelay)
    ensures CryptoOutstanding(b) <==> SomeOutstanding(b.initialPackets) || SomeOutstanding(b.handshakePackets)
    ensures HasOutstanding(b.oneRttPackets) <==> SomeOutstanding(b.oneRttPackets)
  {
    hide SomeOutstanding, HasOutstanding, LossesTaken, SpaceQueued, Detected, AllQueued;
    OutstandingIff(b.initialPackets);
    OutstandingIff(b.handshakePackets);
    OutstandingIff(b.oneRttPackets);
    DetectedIs(b, OneRtt, now, lossDelay);
    if b.initialPackets.Some? {
      SpaceOrdered(b, Initial);
      AllQueuedIs(b, Initial);
      if b.handshakePackets.Some? {
        SpaceOrdered(b, Handshake);
        QueuedLeaves(b);
        AllQueuedIs(AllQueued(b, Initial), Handshake);
      }
    }
  }

  // The largest number acknowledged is no part of the ledgers.
  lemma LargestChanged(b: Book, level: EncLevel, largestAcked: int)
    requires b.Ok() && b.Get(level).Some?
    ensures var b' := b.With(level, Some(b.Get(level).value.(largestAcked := largestAcked)));
            b'.Ok() && b'.TotalFlight() == b.TotalFlight()
  {
    assert b.LevelOk(level);
    SpaceChanged(b, level, b.Get(level).value.(largestAcked := largestAcked));
  }

  lemma SpaceOrdered(b: Book, level: EncLevel)
    requires b.Ok() && b.Get(level).Some?
    ensures Increasing(b.Get(level).value.packets)
  {
    assert b.LevelOk(level);
  }

  lemma QueuedLeaves(b: Book)
    requires b.initialPackets.Some?
    ensures AllQueued(b, Initial).handshakePackets == b.handshakePackets && AllQueued(b, Initial).Get(Initial).Some?
  {
  }

  lemma NoneLeftOutstanding(b: Book)
    requires b.initialPackets.Some? && b.handshakePackets.Some?
    ensures var c := AllQueued(AllQueued(b, Initial), Handshake);
            !HasOutstanding(c.initialPackets) && !HasOutstanding(c.handshakePackets)
  {
    ClearedNoneOutstanding(b.initialPackets.value.packets);
    ClearedNoneOutstanding(b.handshakePackets.value.packets);
  }

  /** A packet is sent: its number is the largest; if it has frames it is tracked behind all others, retransmittable and
      in flight, and its units count as sent. */
  predicate SentAlone(s: Space, s': Space, p: Packet) {
    && s'.packets == s.packets + (if p.units == {} then []
                                  else [p.(canBeRetransmitted := true, includedInBytesInFlight := true)])
    && s' == s.(packets := s'.packets, largestSent := p.pn, sent := s.sent + p.units)
  }

  lemma SentAloneIs(s: Space, p: Packet)
    ensures SentAlone(s, AfterSending(s, p), p)
  {
    assert s.packets + [] == s.packets;
    assert p.units == {} ==> s.sent + p.units == s.sent;
  }

  lemma SentBookOk(b: Book, p: Packet)
    requires b.Ok() && b.Get(p.level).Some? && SendableIn(p, b.Get(p.level).value)
    ensures var b' := b.With(p.level, Some(AfterSending(b.Get(p.level).value, p)));
            b'.Ok() && b'.TotalFlight() == b.TotalFlight() + if p.units == {} then 0 else p.length
  {
    hide AfterSending, SendableIn, SpaceOk, OfLevel, FlightSize;
    var s := b.Get(p.level).value;
    assert b.LevelOk(p.level);
    SentOk(s, p.level, b.Pending(p.level), p);
    SpaceChanged(b, p.level, AfterSending(s, p));
  }

  // The numbers of the packets with frames.
  ghost predicate NumbersOf(news: seq<Packet>, pns: seq<nat>) {
    && (forall i, j :: 0 <= i < j < |pns| ==> pns[i] < pns[j])
    && (forall k :: k in pns <==> CarriesAs(news, k))
  }

  ghost predicate CarriesAs(news: seq<Packet>, k: nat) {
    exists i :: 0 <= i < |news| && news[i].pn == k && news[i].units != {}
  }

  /** The dequeued packet d was sent again as `news`: those with frames are tracked, retransmittable and in flight; if d
      is still tracked, they and d are linked both ways; and nothing else changes. */
  ghost predicate ResendTaken(b: Book, b': Book, d: Packet, news: seq<Packet>)
    requires b.Get(d.level).Some? && news != []
  {
    && b'.Get(d.level).Some?
    && var s, s' := b.Get(d.level).value, b'.Get(d.level).value;
    && var m, m' := Table(s.packets), Table(s'.packets);
    && Increasing(s'.packets)
    && (forall k :: k in m' <==> k in m || CarriesAs(news, k))
    && (forall k :: k in m && k != d.pn ==> m'[k] == m[k])
    && (d.pn in m ==>
          && m'[d.pn] == m[d.pn].(retransmittedAs := m'[d.pn].retransmittedAs)
          && NumbersOf(news, m'[d.pn].retransmittedAs))
    && (forall i :: 0 <= i < |news| && news[i].units != {} ==> EntryOf(m', d.pn in m, d, news[i]))
    && b' == b.With(d.level, Some(s.(packets := s'.packets, largestSent := news[|news|-1].pn))).(inHand := [])
  }

  lemma ElicitingNumbers(news: seq<Packet>)
    requires Increasing(news) && TimesIncrease(news)
    ensures NumbersOf(news, PacketNumbers(Eliciting(news)))
  {
    var es := Eliciting(news);
    ElicitingIncreasing(news);
    NumbersAt(es);
    forall k ensures k in PacketNumbers(es) <==> CarriesAs(news, k) {
      if k in PacketNumbers(es) {
        var i :| 0 <= i < |es| && PacketNumbers(es)[i] == k;
        var j := ElicitingIndex(news, i);
      }
      if CarriesAs(news, k) {
        var j :| 0 <= j < |news| && news[j].pn == k && news[j].units != {};
        var i := ElicitingHas(news, j);
        assert PacketNumbers(es)[i] == k;
      }
    }
  }

  // The new entries are those of the packets with frames.
  lemma EnteredIs(s: Space, d: Packet, news: seq<Packet>, i: nat)
    requires Repeats(news, d, s) && i < |news| && news[i].units != {}
    ensures var tracked := d.pn in Table(s.packets);
            var n := Table(Entered(Eliciting(news), d.pn, tracked));
            && news[i].pn in n
            && n[news[i].pn] == if tracked then
                 Registered(news[i]).(isRetransmission := true, retransmissionOf := d.pn)
               else Registered(news[i])
  {
    var es, tracked := Eliciting(news), d.pn in Table(s.packets);
    ElicitingIncreasing(news);
    EnteredAt(es, d.pn, tracked);
    var j := ElicitingHas(news, i);
    TableHas(Entered(es, d.pn, tracked), j);
  }

  lemma EnteredKeys(s: Space, d: Packet, news: seq<Packet>)
    requires Repeats(news, d, s)
    ensures forall k :: k in Table(Entered(Eliciting(news), d.pn, d.pn in Table(s.packets))) <==> CarriesAs(news, k)
  {
    var es, tracked := Eliciting(news), d.pn in Table(s.packets);
    ListedIsTracked(Entered(es, d.pn, tracked));
    EnteredFlight(es, d.pn, tracked);
    ElicitingNumbers(news);
  }

  // The entry of a packet that was sent with frames.
  ghost predicate EntryOf(m: Tracked, tracked: bool, d: Packet, p: Packet) {
    && p.pn in m && m[p.pn].canBeRetransmitted && m[p.pn].includedInBytesInFlight
    && (tracked ==> m[p.pn].isRetransmission && m[p.pn].retransmissionOf == d.pn)
    && m[p.pn] == p.(canBeRetransmitted := true, includedInBytesInFlight := true,
                     isRetransmission := tracked || p.isRetransmission,
                     retransmissionOf := if tracked then d.pn else p.retransmissionOf)
  }

  lemma ResentTable(s: Space, level: EncLevel, pending: seq<Packet>, d: Packet, news: seq<Packet>)
    requires SpaceOk(s, level, pending) && Repeats(news, d, s)
    ensures var tracked, s' := d.pn in Table(s.packets), AfterResending(s, d, news);
            var n := Table(Entered(Eliciting(news), d.pn, tracked));
            && Increasing(s'.packets) && Table(s'.packets) ==
               Again(Table(s.packets), d.pn, PacketNumbers(Eliciting(news)), n)
            && (forall i :: 0 <= i < |news| && news[i].units != {} ==> EntryOf(n, tracked, d, news[i]))
  {
    HistoryThenNew(s, level, pending, d, news);
    SentAgainTable(s.packets, Eliciting(news), d.pn);
    forall i | 0 <= i < |news| && news[i].units != {}
      ensures EntryOf(Table(Entered(Eliciting(news), d.pn, d.pn in Table(s.packets))), d.pn in Table(s.packets), d,
                      news[i])
    {
      EnteredIs(s, d, news, i);
    }
  }

  lemma AgainIs(m: Tracked, n: Tracked, d: Packet, pns: seq<nat>, news: seq<Packet>)
    requires (forall k :: k in n <==> CarriesAs(news, k)) && (forall k :: k in m ==> !CarriesAs(news, k))
    requires forall i :: 0 <= i < |news| && news[i].units != {} ==> EntryOf(n, d.pn in m, d, news[i])
    ensures var m' := Again(m, d.pn, pns, n);
            && (forall k :: k in m' <==> k in m || CarriesAs(news, k))
            && (forall k :: k in m && k != d.pn ==> m'[k] == m[k])
            && (d.pn in m ==> m'[d.pn] == m[d.pn].(retransmittedAs := pns))
            && (forall i :: 0 <= i < |news| && news[i].units != {} ==> EntryOf(m', d.pn in m, d, news[i]))
  {
    hide CarriesAs;
    var m' := Again(m, d.pn, pns, n);
    forall i | 0 <= i < |news| && news[i].units != {} ensures EntryOf(m', d.pn in m, d, news[i]) {
      assert EntryOf(n, d.pn in m, d, news[i]);
    }
  }

  lemma ResentIs(b: Book, d: Packet, news: seq<Packet>)
    requires b.Ok() && b.Get(d.level).Some? && Repeats(news, d, b.Get(d.level).value)
    ensures news != [] && ResendTaken(b, Resent(b, d, news), d, news)
  {
    hide Eliciting, Entered, SentAgain, NumbersOf, Increasing, Repeats, SpaceOk, OfLevel, CarriesAs, EntryOf, Again;
    hide Book.Ok;
    var s := b.Get(d.level).value;
    Nonempty(news, d, s);
    SpaceOfBook(b, d.level);
    ResentTable(s, d.level, b.Pending(d.level), d, news);
    NumbersFresh(s, d.level, b.Pending(d.level), d, news);
    SentInOrder(news, d, s);
    ElicitingNumbers(news);
    EnteredKeys(s, d, news);
    var m := Table(s.packets);
    AgainIs(m, Table(Entered(Eliciting(news), d.pn, d.pn in m)), d, PacketNumbers(Eliciting(news)), news);
  }

  lemma SpaceOfBook(b: Book, level: EncLevel)
    requires b.Ok() && b.Get(level).Some?
    ensures SpaceOk(b.Get(level).value, level, b.Pending(level))
  {
    assert b.LevelOk(level);
  }

  lemma SentInOrder(news: seq<Packet>, d: Packet, s: Space)
    requires Repeats(news, d, s)
    ensures Increasing(news) && TimesIncrease(news)
  {
  }

  lemma Nonempty(news: seq<Packet>, d: Packet, s: Space)
    requires Repeats(news, d, s)
    ensures news != []
  {
  }

  lemma NumbersFresh(s: Space, level: EncLevel, pending: seq<Packet>, d: Packet, news: seq<Packet>)
    requires SpaceOk(s, level, pending) && Repeats(news, d, s)
    ensures forall k :: k in Table(s.packets) ==> !CarriesAs(news, k)
  {
    forall k | k in Table(s.packets) ensures !CarriesAs(news, k) {
      assert PacketOk(Table(s.packets)[k], k, level, s.first, s.largestSent);
      forall i | 0 <= i < |news| ensures news[i].pn != k {
        assert SendableIn(news[i], s);
      }
    }
  }

  /** A probe is taken: the packet queued first or, if none is queued, a copy of the first retransmittable 1-RTT packet,
      which is not retransmittable any more; nothing is taken if there is neither. */
  ghost predicate ProbeIsTaken(b: Book, b': Book)
    requires b.oneRttPackets.Some?
  {
    var s := b.oneRttPackets.value;
    if b.retransmissionQueue != [] then
      b' == b.(inHand := [b.retransmissionQueue[0]], retransmissionQueue := b.retransmissionQueue[1..])
    else if SomeOutstanding(b.oneRttPackets) then
      exists i :: 0 <= i < |s.packets| && TakenAt(b, b', i)
    else b' == b
  }

  ghost predicate TakenAt(b: Book, b': Book, i: nat)
    requires b.oneRttPackets.Some? && i < |b.oneRttPackets.value.packets|
  {
    var s := b.oneRttPackets.value;
    var q := s.packets[i].(canBeRetransmitted := false);
    && s.packets[i].canBeRetransmitted && (forall k :: 0 <= k < i ==> !s.packets[k].canBeRetransmitted)
    && b' == b.(inHand := [q], oneRttPackets := Some(s.(packets := s.packets[i := q])))
  }

  lemma ProbeTakenIs(b: Book)
    requires b.oneRttPackets.Some? && Increasing(b.oneRttPackets.value.packets)
    ensures ProbeIsTaken(b, ProbeTaken(b))
  {
    var s := b.oneRttPackets.value;
    if b.retransmissionQueue == [] {
      CountsSome(s.packets);
      OutstandingCount(s.packets);
      if FirstRetransmittable(s.packets).Some? {
        var i := FirstIndex(s.packets);
        TableHas(s.packets, i);
        var q := s.packets[i].(canBeRetransmitted := false);
        PutAt(s.packets, i, q);
        assert ProbeTaken(b) == b.(inHand := [q], oneRttPackets := Some(s.(packets := s.packets[i := q])));
        assert TakenAt(b, ProbeTaken(b), i);
      }
    }
  }

  /** qs is ps without the packets of the level, in order: `picks` are the positions of what is left. */
  ghost predicate Picks(ps: seq<Packet>, qs: seq<Packet>, level: EncLevel, picks: seq<nat>) {
    && |picks| == |qs| && (forall i, j :: 0 <= i < j < |picks| ==> picks[i] < picks[j])
    && (forall j :: 0 <= j < |qs| ==> picks[j] < |ps| && qs[j] == ps[picks[j]])
    && (forall i :: 0 <= i < |ps| ==> (i in picks <==> ps[i].level != level))
  }

  ghost predicate FilteredOut(ps: seq<Packet>, qs: seq<Packet>, level: EncLevel) {
    exists picks :: Picks(ps, qs, level, picks)
  }

  lemma PicksPush(ps: seq<Packet>, p: Packet, qs: seq<Packet>, level: EncLevel, picks: seq<nat>)
    requires Picks(ps, qs, level, picks)
    ensures p.level == level ==> Picks(ps + [p], qs, level, picks)
    ensures p.level != level ==> Picks(ps + [p], qs + [p], level, picks + [|ps|])
  {
    forall i | i in picks ensures i < |ps| {
      var j :| 0 <= j < |picks| && picks[j] == i;
    }
    var more := picks + [|ps|];
    assert forall i :: i in more <==> i in picks || i == |ps|;
  }

  lemma {:induction false} NotOfLevelIs(ps: seq<Packet>, level: EncLevel) returns (picks: seq<nat>)
    ensures Picks(ps, NotOfLevel(ps, level), level, picks)
  {
    picks := [];
    if ps != [] {
      hide Picks;
      var front, p := ps[..|ps|-1], ps[|ps|-1];
      assert ps == front + [p];
      picks := NotOfLevelIs(front, level);
      NotOfLevelPush(front, p, level);
      PicksPush(front, p, NotOfLevel(front, level), level, picks);
      if p.level == level {
        assert NotOfLevel(front, level) + [] == NotOfLevel(front, level);
      } else {
        picks := picks + [|front|];
      }
    }
  }

  /** A space is dropped, with everything of its level that waits to be sent again. */
  ghost predicate DropTaken(b: Book, b': Book, level: EncLevel) {
    && FilteredOut(b.retransmissionQueue, b'.retransmissionQueue, level) && FilteredOut(b.inHand, b'.inHand, level)
    && b' == b.With(level, None).(retransmissionQueue := b'.retransmissionQueue, inHand := b'.inHand)
  }

  lemma WithoutIs(b: Book, level: EncLevel)
    ensures DropTaken(b, Without(b, level), level)
  {
    var q := NotOfLevelIs(b.retransmissionQueue, level);
    var h := NotOfLevelIs(b.inHand, level);
    hide Picks, NotOfLevel;
  }

  /** A Retry is taken: the Initial space starts over at `first`; its retransmittable packets join the queue in the
      order of their numbers. */
  ghost predicate RetryTaken(b: Book, b': Book, first: nat)
    requires b.initialPackets.Some?
  {
    var s := b.initialPackets.value;
    && b.retransmissionQueue <= b'.retransmissionQueue && Increasing(Joined(b, b'))
    && (forall q :: q in Joined(b, b') <==> q in s.packets && q.canBeRetransmitted)
    && b' == b.(initialPackets := Some(Space([], first, -1, -1, s.sent, s.acked)),
                retransmissionQueue := b'.retransmissionQueue)
  }

  lemma RetriedIs(b: Book, first: nat)
    requires b.initialPackets.Some? && Increasing(b.initialPackets.value.packets)
    ensures RetryTaken(b, Retried(b, first), first)
  {
    var ps := b.initialPackets.value.packets;
    RetransmittableMembers(ps);
    RetransmittableIncreasing(ps);
    assert Joined(b, Retried(b, first)) == Retransmittable(ps);
  }

  // ----- the class

  class SentPacketHandler {
    var initialPackets: Option<Space>     // None once dropped
    var handshakePackets: Option<Space>   // None once dropped
    var oneRttPackets: Option<Space>
    var retransmissionQueue: seq<Packet>
    var bytesInFlight: int
    var cryptoCount: nat
    var ptoCount: nat
    var numProbesToSend: nat
    var lossTime: Option<int>

    ghost var inHand: seq<Packet>
    ghost var uncounted: int              // what the last Retry left out of bytesInFlight

    ghost function State(): Book
      reads this`initialPackets, this`handshakePackets, this`oneRttPackets
      reads this`inHand, this`retransmissionQueue, this`lossTime
    {
      Book(initialPackets, handshakePackets, oneRttPackets, inHand, retransmissionQueue, lossTime)
    }

    /** The invariant of every reachable state: each space keeps its ledger, and bytesInFlight is the sum of the
        lengths of the tracked packets, less what the last Retry did not count. */
    ghost predicate Valid()
      reads this`initialPackets, this`handshakePackets, this`oneRttPackets
      reads this`inHand, this`retransmissionQueue, this`lossTime, this`bytesInFlight, this`uncounted
    {
      State().Ok() && oneRttPackets.Some? && bytesInFlight == State().TotalFlight() - uncounted
    }

    constructor (initialPn: nat)
      ensures Valid() && bytesInFlight == 0 && uncounted == 0
      ensures State() == Book(Some(EmptySpace(initialPn)), Some(EmptySpace(0)), Some(EmptySpace(0)), [], [], None)
      ensures cryptoCount == 0 && ptoCount == 0 && numProbesToSend == 0
    {
      initialPackets, handshakePackets := Some(EmptySpace(initialPn)), Some(EmptySpace(0));
      oneRttPackets := Some(EmptySpace(0));
      retransmissionQueue, inHand, bytesInFlight, uncounted := [], [], 0, 0;
      cryptoCount, ptoCount, numProbesToSend, lossTime := 0, 0, 0, None;
      new;
      assert inHand + retransmissionQueue == [];
    }

    lemma InSpace(level: EncLevel)
      requires Valid() && State().Get(level).Some?
      ensures SpaceOk(State().Get(level).value, level, State().Pending(level))
    {
      assert State().LevelOk(level);
    }

    lemma InOrder(level: EncLevel)
      requires Valid() && State().Get(level).Some?
      ensures Increasing(State().Get(level).value.packets)
    {
      assert State().LevelOk(level);
    }

    function GetPacketNumberSpace(level: EncLevel): (s: Option<Space>)
      reads this`initialPackets, this`handshakePackets, this`oneRttPackets
      reads this`inHand, this`retransmissionQueue, this`lossTime
      ensures s == State().Get(level)
    {
      match level
      case Initial => initialPackets
      case Handshake => handshakePackets
      case OneRtt => oneRttPackets
    }

    method SetSpace(level: EncLevel, s: Space)
      modifies this`initialPackets, this`handshakePackets, this`oneRttPackets
      ensures State() == old(State()).With(level, Some(s))
    {
      match level
      case Initial => initialPackets := Some(s);
      case Handshake => handshakePackets := Some(s);
      case OneRtt => oneRttPackets := Some(s);
    }

    /** queuePacketForRetransmission: refuses a packet that was queued before. */
    method QueuePacketForRetransmission(level: EncLevel, pn: nat) returns (ok: bool)
      requires Valid() && State().Get(level).Some? && pn in Table(State().Get(level).value.packets)
      modifies this`retransmissionQueue, this`initialPackets, this`handshakePackets, this`oneRttPackets
      ensures Valid()
      ensures ok <==> Table(old(State()).Get(level).value.packets)[pn].canBeRetransmitted
      ensures State() == if ok then Queued(old(State()), level, pn) else old(State())
      ensures ok ==>
                var q := Table(old(State()).Get(level).value.packets)[pn].(canBeRetransmitted := false);
                && retransmissionQueue == old(retransmissionQueue) + [q] && State().Get(level).Some?
                && Table(State().Get(level).value.packets) == Table(old(State()).Get(level).value.packets)[pn := q]
    {
      var s := GetPacketNumberSpace(level).value;
      var p := Table(s.packets)[pn];
      if !p.canBeRetransmitted {
        return false;
      }
      QueuedOk(State(), level, pn);
      InOrder(level);
      Cleared(s.packets, pn);
      var q := p.(canBeRetransmitted := false);
      SetSpace(level, s.(packets := Put(s.packets, q)));
      retransmissionQueue := retransmissionQueue + [q];
      return true;
    }

    /** SentPacket: an ack-eliciting packet is tracked and counted as in flight, any other is not. */
    method SentPacket(p: Packet)
      requires Valid() && State().Get(p.level).Some? && SendableIn(p, State().Get(p.level).value)
      modifies this
      ensures Valid() && uncounted == old(uncounted)
      ensures State() == old(State()).With(p.level, Some(AfterSending(old(State()).Get(p.level).value, p)))
      ensures bytesInFlight == old(bytesInFlight) + if p.units == {} then 0 else p.length
      ensures State().Get(p.level).Some? && SentAlone(old(State()).Get(p.level).value, State().Get(p.level).value, p)
      ensures numProbesToSend ==
                if p.units != {} && old(numProbesToSend) > 0 then old(numProbesToSend) - 1 else old(numProbesToSend)
    {
      hide Book.Ok, Book.TotalFlight, AfterSending, SendableIn, SentAlone;
      var s := GetPacketNumberSpace(p.level).value;
      SentBookOk(State(), p);
      SentAloneIs(s, p);
      if p.units != {} {
        bytesInFlight := bytesInFlight + p.length;
        if numProbesToSend > 0 {
          numProbesToSend := numProbesToSend - 1;
        }
      }
      SetSpace(p.level, AfterSending(s, p));
      WithTwice(old(State()), p.level, Some(AfterSending(s, p)), None);
    }

    /** DequeuePacketForRetransmission hands out the packet queued first. */
    method DequeuePacketForRetransmission() returns (p: Option<Packet>)
      requires Valid() && inHand == []
      modifies this`retransmissionQueue, this`inHand
      ensures Valid()
      ensures State() == Dequeued(old(State()))
      ensures p == if old(retransmissionQueue) == [] then None else Some(old(retransmissionQueue)[0])
      ensures inHand == if p.Some? then [p.value] else []
      ensures retransmissionQueue == if p.Some? then old(retransmissionQueue)[1..] else old(retransmissionQueue)
    {
      if retransmissionQueue == [] {
        return None;
      }
      p := Some(retransmissionQueue[0]);
      DequeuedOk(State());
      inHand := [retransmissionQueue[0]];
      retransmissionQueue := retransmissionQueue[1..];
    }

    /** onPacketAcked: the packet, if it is still tracked, leaves the history and the bytes in flight; whatever
        repeats it is stopped. */
    method OnPacketAcked(level: EncLevel, pn: nat) returns (found: bool)
      requires Valid() && State().Get(level).Some?
      modifies this`bytesInFlight, this`initialPackets, this`handshakePackets, this`oneRttPackets
      ensures Valid() && found
      ensures State() == old(State()).With(level, State().Get(level)) && State().Get(level).Some?
      ensures State().Get(level).value == AckedOne(old(State()).Get(level).value, pn)
      ensures var s, s' := old(State()).Get(level).value, State().Get(level).value;
              if pn !in Table(s.packets) then s' == s
              else
                && Table(s'.packets) == Acked(Table(s.packets), pn)
                && s' == s.(packets := s'.packets, acked := s.acked + Table(s.packets)[pn].units)
    {
      var s := GetPacketNumberSpace(level).value;
      if pn !in Table(s.packets) {
        return true;
      }
      assert State().LevelOk(level);
      ghost var m := Table(s.packets);
      forall k | k in m ensures k < s.largestSent + 1 && (m[k].isRetransmission ==> m[k].retransmissionOf < k) {
        assert PacketOk(m[k], k, level, s.first, s.largestSent);
      }
      var p := Table(s.packets)[pn];
      assert PacketOk(p, pn, level, s.first, s.largestSent);
      var qs;
      qs, found := AckPacket(s.packets, pn, s.largestSent + 1);
      AckedOk(s, level, State().Pending(level), pn, qs);
      AckedOneIs(s, pn, qs);
      hide Table, SpaceOk, OfLevel, Acked, AckedOne, PacketOk;
      SpaceChanged(State(), level, s.(packets := qs, acked := s.acked + p.units));
      if p.includedInBytesInFlight {
        bytesInFlight := bytesInFlight - p.length;
      }
      SetSpace(level, s.(packets := qs, acked := s.acked + p.units));
    }

    method LoseFirstPacket(level: EncLevel)
      requires Valid() && State().Get(level).Some? && State().Get(level).value.packets != []
      modifies this`bytesInFlight, this`retransmissionQueue, this`initialPackets, this`handshakePackets,
          this`oneRttPackets
      ensures Valid()
      ensures State() == LostFirst(old(State()), level)
    {
      var s := GetPacketNumberSpace(level).value;
      var p := s.packets[0];
      assert State().LevelOk(level);
      LostFirstOk(State(), level);
      // a lost packet is no longer in flight, whether or not it can be repeated
      if p.includedInBytesInFlight {
        bytesInFlight := bytesInFlight - p.length;
      }
      if p.canBeRetransmitted {
        retransmissionQueue := retransmissionQueue + [p.(canBeRetransmitted := false)];
      }
      SetSpace(level, s.(packets := s.packets[1..]));
    }

    method LosePackets(level: EncLevel, n: nat)
      requires Valid() && State().Get(level).Some? && n <= |State().Get(level).value.packets|
      modifies this`bytesInFlight, this`retransmissionQueue, this`initialPackets, this`handshakePackets,
          this`oneRttPackets
      ensures Valid()
      ensures State() == LostMany(old(State()), level, n)
    {
      for i := 0 to n
        invariant Valid()
        invariant State() == LostMany(old(State()), level, i)
      {
        LoseFirstPacket(level);
      }
    }

    /** detectLostPackets drops exactly the packets that are old enough by number and by time, and queues those of
        them that may be retransmitted. */
    method DetectLostPackets(now: int, level: EncLevel, lossDelay: int) returns (lost: seq<Packet>)
      requires Valid() && State().Get(level).Some?
      modifies this`lossTime, this`bytesInFlight, this`retransmissionQueue, this`initialPackets, this`handshakePackets,
          this`oneRttPackets
      ensures Valid()
      ensures var s := old(State()).Get(level).value;
              && lost <= s.packets
              && (forall i :: 0 <= i < |s.packets| ==>
                    (i < |lost| <==> Expired(s.packets[i], s.largestAcked, now, lossDelay)))
      ensures State() == Detected(old(State()), level, now, lossDelay)
      ensures LossesTaken(old(State()), State(), level, now, lossDelay)
      ensures State().Get(level) ==
                Some(old(State()).Get(level).value.(packets := old(State()).Get(level).value.packets[|lost|..]))
    {
      hide SpaceOk, OfLevel, FlightSize, LostFirst, LostMany, LostCount, LossesTaken, Book.Ok, Book.TotalFlight;
      var s := GetPacketNumberSpace(level).value;
      InSpace(level);
      InOrder(level);
      DetectedIs(State(), level, now, lossDelay);
      TimesAlong(s, level, State().Pending(level));
      var alarm;
      lost, alarm := FindLostPackets(s.packets, s.largestAcked, now, lossDelay);
      AlarmChanged(State(), alarm);
      if level == OneRtt {
        lossTime := alarm;
      }
      LosePackets(level, |lost|);
    }

    method AckPackets(level: EncLevel, pns: seq<nat>) returns (found: bool)
      requires Valid() && State().Get(level).Some?
      requires forall i :: 0 <= i < |pns| ==> pns[i] in Table(State().Get(level).value.packets)
      requires forall i, j :: 0 <= i < j < |pns| ==> pns[i] < pns[j]
      modifies this`bytesInFlight, this`initialPackets, this`handshakePackets, this`oneRttPackets
      ensures Valid() && found
      ensures State() == old(State()).With(level, State().Get(level)) && State().Get(level).Some?
      ensures State().Get(level).value == AckedAll(old(State()).Get(level).value, pns)
      ensures AckedSpace(old(State()).Get(level).value, State().Get(level).value, pns)
    {
      hide Valid, AckedSpace, AckedAll, AckedOne, SpaceOk, Acked, Table, LinksDown, LinksUp, Shape;
      ghost var s0 := State().Get(level).value;
      InSpace(level);
      SpaceLinks(s0, level, State().Pending(level));
      NoneAcked(s0);
      found := true;
      for i := 0 to |pns|
        invariant Valid() && found
        invariant State() == old(State()).With(level, State().Get(level)) && State().Get(level).Some?
        invariant State().Get(level).value == AckedAll(s0, pns[..i])
        invariant AckedSpace(s0, State().Get(level).value, pns[..i])
      {
        TakeNext(pns, i);
        ghost var s := State().Get(level).value;
        InSpace(level);
        ghost var pending := State().Pending(level);
        AckedAllPush(s0, pns[..i], pns[i]);
        found := OnPacketAcked(level, pns[i]);
        AckedSpaceStep(s0, s, State().Get(level).value, pns[..i], pns[i], level, pending);
      }
      assert pns[..|pns|] == pns;
    }

    // The acknowledged packets leave first, then the lost ones.
    method ProcessAck(pns: seq<nat>, level: EncLevel, now: int, lossDelay: int, ghost s: Space, ghost rs: seq<AckRange>)
      returns (found: bool)
      requires Valid() && 0 < |rs|
      requires State().Get(level) == Some(s.(largestAcked := Max(s.largestAcked, LargestAcked(rs))))
      requires pns != [] && ExactlyCovered(s.packets, rs, pns)
      modifies this`lossTime, this`bytesInFlight, this`retransmissionQueue
      modifies this`initialPackets, this`handshakePackets, this`oneRttPackets
      ensures Valid() && found && State().Get(level).Some?
      ensures State() == AckApplied(old(State()), level, pns, now, lossDelay)
      ensures Processed(s, State().Get(level).value, rs, now, lossDelay)
      ensures AckThenLosses(old(State()), s, State(), level, rs, now, lossDelay)
    {
      hide Valid, AckedAll, Detected, Processed, AckedSpace, LossesTaken, AcksTaken, LargestAcked, ExactlyCovered;
      hide Table, Increasing;
      Exactly(s.packets, rs, pns);
      found := AckPackets(level, pns);
      ghost var s1 := State().Get(level).value;
      InOrder(level);
      AcksTakenIs(s, s1, pns, rs);
      var lost := DetectLostPackets(now, level, lossDelay);
      ProcessedIs(s, s1, State().Get(level).value, pns, rs, |lost|, now, lossDelay);
    }

    // What is left of ReceivedAck once the ACK has been found acceptable; s is the space as it was before.
    method ProcessAcceptable(rs: seq<AckRange>, level: EncLevel, now: int, lossDelay: int, ghost s: Space)
      returns (bug: bool)
      requires Valid() && WellFormed(rs)
      requires State().Get(level) == Some(s.(largestAcked := Max(s.largestAcked, LargestAcked(rs))))
      modifies this`lossTime, this`bytesInFlight, this`retransmissionQueue, this`ptoCount, this`cryptoCount
      modifies this`numProbesToSend, this`initialPackets, this`handshakePackets, this`oneRttPackets
      ensures Valid() && !bug && State().Get(level).Some?
      ensures State() == AckApplied(old(State()), level, Covered(PacketNumbers(s.packets), rs), now, lossDelay)
      ensures Processed(s, State().Get(level).value, rs, now, lossDelay)
      ensures if exists k :: k in Table(s.packets) && Covers(rs, k) then
                && AckThenLosses(old(State()), s, State(), level, rs, now, lossDelay)
                && ptoCount == cryptoCount == numProbesToSend == 0
              else
                && State() == old(State()) && ptoCount == old(ptoCount) && cryptoCount == old(cryptoCount)
                && numProbesToSend == old(numProbesToSend)
    {
      hide Valid, Processed, Table, WellFormed, Covered, PacketNumbers, Increasing, ExactlyCovered, LargestAcked, Max;
      hide AckApplied, AckThenLosses, Covers;
      SomeRange(rs);
      ApplyNothing(State(), level, now, lossDelay);
      var ps := GetPacketNumberSpace(level).value.packets;
      InOrder(level);
      var pns;
      pns, bug := DetermineNewlyAckedPackets(ps, rs);
      Exactly(ps, rs, pns);
      assert pns != [] ==> pns[0] in pns;
      if pns == [] {
        NothingAcked(s, State().Get(level).value, rs, now, lossDelay);
      } else if !bug {
        var found := ProcessAck(pns, level, now, lossDelay, s, rs);
        bug := !found;
        if found {
          ptoCount, cryptoCount, numProbesToSend := 0, 0, 0;
        }
      }
    }

    /** ReceivedAck.  `skipped` are the numbers the generator left out on purpose.  Neither of the errors that stand
        for a bug in the bookkeeping is ever reported. */
    method ReceivedAck(rs: seq<AckRange>, level: EncLevel, skipped: seq<nat>, now: int, lossDelay: int)
      returns (err: AckError)
      requires Valid() && State().Get(level).Some? && WellFormed(rs)
      modifies this
      ensures Valid() && State().Get(level).Some? && uncounted == old(uncounted)
      ensures err != Bug
      ensures err == UnsentPacket <==> LargestAcked(rs) > old(State()).Get(level).value.largestSent
      ensures err == SkippedPacket <==> err != UnsentPacket && HitsSkipped(rs, skipped)
      ensures State() == AfterAck(old(State()), rs, level, skipped, now, lossDelay)
      ensures err == NoError ==> Processed(old(State()).Get(level).value, State().Get(level).value, rs, now, lossDelay)
      ensures err == NoError ==> AckTaken(old(State()), State(), level, rs, now, lossDelay)
      ensures err == UnsentPacket ==> State() == old(State())
      ensures var resets := err == NoError &&
                exists k :: k in Table(old(State()).Get(level).value.packets) && Covers(rs, k);
              && ptoCount == (if resets then 0 else old(ptoCount))
              && cryptoCount == (if resets then 0 else old(cryptoCount))
              && numProbesToSend == (if resets then 0 else old(numProbesToSend))
    {
      hide Processed, OfLevel, FlightSize, WellFormed, Detected, AckedAll, Covered, HitsSkipped, PacketNumbers, SpaceOk;
      hide Book.Ok, Book.TotalFlight, AckApplied, AckThenLosses, Table, Covers, LargestAcked, ExactlyCovered;
      SomeRange(rs);
      var s := GetPacketNumberSpace(level).value;
      if LargestAcked(rs) > s.largestSent {
        return UnsentPacket;
      }
      var s0 := s.(largestAcked := Max(s.largestAcked, LargestAcked(rs)));
      LargestChanged(State(), level, s0.largestAcked);
      SetSpace(level, s0);
      WithTwice(old(State()), level, Some(s0), None);
      var ok := NoneSkipped(rs, skipped);
      if !ok {
        return SkippedPacket;
      }
      var bug := ProcessAcceptable(rs, level, now, lossDelay, s);
      if exists k :: k in Table(s.packets) && Covers(rs, k) {
        AckThenLossesOver(old(State()), s0, s, State(), level, rs, now, lossDelay);
      }
      return if bug then Bug else NoError;
    }

    // sentPacketImpl for each packet: those with frames are in flight from now on.
    method CountAsSent(news: seq<Packet>) returns (es: seq<Packet>)
      modifies this`bytesInFlight, this`numProbesToSend
      ensures es == Eliciting(news)
      ensures bytesInFlight == old(bytesInFlight) + FlightSize(es)
      ensures numProbesToSend == if |es| < old(numProbesToSend) then old(numProbesToSend) - |es| else 0
    {
      es := [];
      for i := 0 to |news|
        invariant es == Eliciting(news[..i])
        invariant bytesInFlight == old(bytesInFlight) + FlightSize(es)
        invariant numProbesToSend == if |es| < old(numProbesToSend) then old(numProbesToSend) - |es| else 0
      {
        assert news[..i+1] == news[..i] + [news[i]];
        ElicitingPush(news[..i], news[i]);
        ElicitingFlight(news[..i], news[i]);
        if news[i].units != {} {
          es := es + [Registered(news[i])];
          bytesInFlight := bytesInFlight + news[i].length;
          if numProbesToSend > 0 {
            numProbesToSend := numProbesToSend - 1;
          }
        }
      }
      assert news[..|news|] == news;
    }

    /** SentPacketsAsRetransmission: the dequeued packet has been sent again as `news`. */
    method SentPacketsAsRetransmission(news: seq<Packet>, d: Packet)
      requires Valid() && inHand == [d] && State().Get(d.level).Some?
      requires Repeats(news, d, State().Get(d.level).value)
      modifies this
      ensures Valid() && uncounted == old(uncounted)
      ensures State() == Resent(old(State()), d, news) && ResendTaken(old(State()), State(), d, news)
      ensures bytesInFlight == old(bytesInFlight) + FlightSize(Eliciting(news))
    {
      hide ResendTaken, Repeats, Book.Ok, Book.TotalFlight, FlightSize, Eliciting, SentAgain;
      var s := GetPacketNumberSpace(d.level).value;
      Nonempty(news, d, s);
      ResentBookOk(State(), d, news);
      ResentIs(State(), d, news);
      var es := CountAsSent(news);
      SetSpace(d.level, s.(largestSent := news[|news|-1].pn, packets := SentAgain(s.packets, es, d.pn)));
      inHand := [];
    }

    /** DequeueProbePacket takes the packet queued first or, if there is none, the first outstanding 1-RTT packet. */
    method DequeueProbePacket() returns (p: Option<Packet>)
      requires Valid() && inHand == []
      modifies this`inHand, this`retransmissionQueue, this`initialPackets, this`handshakePackets, this`oneRttPackets
      ensures Valid()
      ensures State() == ProbeTaken(old(State())) && ProbeIsTaken(old(State()), State())
      ensures p == None <==>
                old(retransmissionQueue) == [] && FirstRetransmittable(old(oneRttPackets.value.packets)) == None
      ensures inHand == if p.Some? then [p.value] else []
      ensures p.Some? && old(retransmissionQueue) != [] ==> p.value == old(retransmissionQueue)[0]
      ensures p.Some? && old(retransmissionQueue) == [] ==>
                FirstRetransmittable(old(oneRttPackets.value.packets)) == Some(p.value.pn)
    {
      hide ProbeIsTaken;
      InOrder(OneRtt);
      ProbeTakenIs(State());
      if retransmissionQueue == [] {
        var s := oneRttPackets.value;
        var first := FirstRetransmittable(s.packets);
        if first == None {
          return None;
        }
        assert State().LevelOk(OneRtt);
        ghost var i := FirstIndex(s.packets);
        TableHas(s.packets, i);
        var _ := QueuePacketForRetransmission(OneRtt, first.value);
      }
      p := DequeuePacketForRetransmission();
    }

    method QueueEach(level: EncLevel, rs: seq<Packet>)
      requires Valid() && State().Get(level).Some? && Increasing(rs)
      requires forall i :: 0 <= i < |rs| ==> RetransmittableIn(State().Get(level).value.packets, rs[i])
      modifies this`retransmissionQueue, this`initialPackets, this`handshakePackets, this`oneRttPackets
      ensures Valid() && State() == QueuedEach(old(State()), level, rs, |rs|)
    {
      ghost var b := State();
      assert b.LevelOk(level);
      for i := 0 to |rs|
        invariant Valid() && State() == QueuedEach(b, level, rs, i)
      {
        hide QueuedEach, Queued, RetransmittableIn, OfLevel, SpaceOk, Table, Book.Ok, Book.TotalFlight;
        QueuedEachStep(b, level, rs, i);
        var _ := QueuePacketForRetransmission(level, rs[i].pn);
      }
    }

    /** queueAllPacketsForRetransmission queues every retransmittable packet of the space, in order, and leaves none of
        them retransmittable. */
    method QueueAllPacketsForRetransmission(level: EncLevel)
      requires Valid() && State().Get(level).Some?
      modifies this`retransmissionQueue, this`initialPackets, this`handshakePackets, this`oneRttPackets
      ensures Valid() && State().Get(level).Some?
      ensures State() == AllQueued(old(State()), level) && SpaceQueued(old(State()), State(), level)
    {
      hide SpaceQueued;
      var s := GetPacketNumberSpace(level).value;
      assert State().LevelOk(level);
      AllQueuedIs(State(), level);
      QueuedEachIsAll(State(), level);
      QueueEach(level, Retransmittable(s.packets));
    }

    predicate HasOutstandingCryptoPackets()
      reads this
    {
      HasOutstanding(initialPackets) || HasOutstanding(handshakePackets)
    }

    /** OnAlarm.  `crashed` says that the source dereferences a nil space: in crypto mode it queues the packets of
        the Initial and of the Handshake space, without asking whether they have been dropped. */
    method OnAlarm(now: int, lossDelay: int) returns (crashed: bool)
      requires Valid()
      modifies this
      ensures Valid() && uncounted == old(uncounted)
      ensures State() == AfterAlarm(old(State()), now, lossDelay)
      ensures AlarmTaken(old(State()), State(), now, lossDelay)
      ensures var crypto := SomeOutstanding(old(initialPackets)) || SomeOutstanding(old(handshakePackets));
              && (crashed <==> crypto && (old(initialPackets) == None || old(handshakePackets) == None))
              && (crypto && !crashed ==> !HasOutstandingCryptoPackets())
              && cryptoCount == old(cryptoCount) + (if crypto then 1 else 0)
      ensures var crypto := SomeOutstanding(old(initialPackets)) || SomeOutstanding(old(handshakePackets));
              var pto := !crypto && SomeOutstanding(old(oneRttPackets)) && old(lossTime) == None;
              && ptoCount == old(ptoCount) + (if pto then 1 else 0)
              && numProbesToSend == old(numProbesToSend) + (if pto then 2 else 0)
    {
      hide SomeOutstanding, HasOutstanding, AlarmTaken, Detected, AllQueued, LossesTaken, Book.Ok, ClearedAll;
      hide CountOutstanding;
      AlarmIs(State(), now, lossDelay);
      if !HasOutstanding(oneRttPackets) && !HasOutstandingCryptoPackets() {
        return false;
      }
      if HasOutstandingCryptoPackets() {
        cryptoCount := cryptoCount + 1;
        if initialPackets == None {
          return true;
        }
        QueuedLeaves(State());
        QueueAllPacketsForRetransmission(Initial);
        if handshakePackets == None {
          return true;
        }
        NoneLeftOutstanding(old(State()));
        QueueAllPacketsForRetransmission(Handshake);
      } else if lossTime != None {
        var lost := DetectLostPackets(now, OneRtt, lossDelay);
      } else {
        ptoCount := ptoCount + 1;
        numProbesToSend := numProbesToSend + 2;
      }
      return false;
    }

    /** DropPackets: the packets of the dropped space leave the bytes in flight and the queue. */
    method DropPackets(level: EncLevel)
      requires Valid() && level != OneRtt && State().Get(level).Some?
      modifies this`bytesInFlight, this`retransmissionQueue, this`inHand, this`initialPackets, this`handshakePackets
      ensures Valid()
      ensures State() == Without(old(State()), level) && DropTaken(old(State()), State(), level)
      ensures bytesInFlight == old(bytesInFlight) - old(State()).Flight(level)
    {
      hide DropTaken;
      var ps := GetPacketNumberSpace(level).value.packets;
      DroppedOk(State(), level);
      WithoutIs(State(), level);
      for i := 0 to |ps|
        invariant bytesInFlight == old(bytesInFlight) - FlightSize(ps) + FlightSize(ps[i..])
        invariant State() == old(State())
      {
        assert ps[i..][1..] == ps[i+1..];
        if ps[i].includedInBytesInFlight {
          bytesInFlight := bytesInFlight - ps[i].length;
        }
      }
      retransmissionQueue := RemoveLevel(retransmissionQueue, level);
      inHand := NotOfLevel(inHand, level);
      if level == Initial {
        initialPackets := None;
      } else {
        handshakePackets := None;
      }
    }

    /** ResetForRetry.  `first` is the next number of the old Initial space.  Every ledger is kept, but bytesInFlight
        is set to zero outright: that is the right sum if and only if only Initial packets were in flight. */
    method ResetForRetry(first: nat)
      requires Valid() && initialPackets.Some?
      requires initialPackets.value.first <= first && initialPackets.value.largestSent < first
      modifies this`cryptoCount, this`bytesInFlight, this`uncounted, this`retransmissionQueue, this`initialPackets
      ensures Valid() && bytesInFlight == 0 && cryptoCount == 0
      ensures State() == Retried(old(State()), first) && RetryTaken(old(State()), State(), first)
      ensures uncounted == old(State()).Flight(Handshake) + old(State()).Flight(OneRtt)
      ensures bytesInFlight == State().TotalFlight() <==>
              old(State()).Flight(Handshake) == 0 && old(State()).Flight(OneRtt) == 0
    {
      hide RetryTaken;
      InOrder(Initial);
      RetriedIs(State(), first);
      RetriedOk(State(), first);
      uncounted := State().Flight(Handshake) + State().Flight(OneRtt);
      cryptoCount := 0;
      bytesInFlight := 0;
      var s := initialPackets.value;
      retransmissionQueue := retransmissionQueue + Retransmittable(s.packets);
      initialPackets := Some(Space([], first, INVALID_PACKET_NUMBER, INVALID_PACKET_NUMBER, s.sent, s.acked));
    }
  }
}
