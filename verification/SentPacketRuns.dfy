/** Whole runs of the sent packet handler: the state after any script of events is a function of the script, and in
    every state reached nothing that was sent is forgotten. */
module SentPacketRuns {
  import opened Common
  import opened SentPacketHistories
  import opened RetransmissionLedgers
  import opened AckRanges
  import opened SentPacketHandlers

  datatype Event =
    | Send(p: Packet)
    | Retransmit                           // dequeue the packet queued first
    | Probe                                // dequeue a probe packet
    | Resend(news: seq<Packet>)            // send the dequeued packet again as `news`
    | Ack(rs: seq<AckRange>, level: EncLevel, skipped: seq<nat>, now: int, lossDelay: int)
    | Alarm(now: int, lossDelay: int)
    | Drop(level: EncLevel)
    | Retry(first: nat)

  /** A run is over when the source has crashed. */
  datatype Model = Model(book: Book, uncounted: int, crashed: bool)

  // ----- the specification of a run

  /** What the caller owes: it names spaces that exist and unused numbers, and its ACKs are well formed.  A packet that
      was dequeued is sent again before the next one is dequeued; anything else may happen in between. */
  predicate Accepts(b: Book, e: Event) {
    match e
    case Send(p) => b.Get(p.level).Some? && SendableIn(p, b.Get(p.level).value)
    case Retransmit => b.inHand == []
    case Probe => b.inHand == []
    case Resend(news) =>
      b.inHand != [] && b.Get(b.inHand[0].level).Some? && Repeats(news, b.inHand[0], b.Get(b.inHand[0].level).value)
    case Ack(rs, level, _, _, _) => b.Get(level).Some? && WellFormed(rs)
    case Drop(level) => b.Get(level).Some? && level != OneRtt
    case Retry(first) =>
      b.initialPackets.Some? && b.initialPackets.value.first <= first && b.initialPackets.value.largestSent < first
    case Alarm(_, _) => true
  }

  ghost function BookAfter(b: Book, e: Event): Book
    requires b.oneRttPackets.Some? && Accepts(b, e)
  {
    match e
    case Send(p) => b.With(p.level, Some(AfterSending(b.Get(p.level).value, p)))
    case Retransmit => Dequeued(b)
    case Probe => ProbeTaken(b)
    case Resend(news) => Resent(b, b.inHand[0], news)
    case Ack(rs, level, skipped, now, lossDelay) => AfterAck(b, rs, level, skipped, now, lossDelay)
    case Alarm(now, lossDelay) => AfterAlarm(b, now, lossDelay)
    case Drop(level) => Without(b, level)
    case Retry(first) => Retried(b, first)
  }

  /** The alarm crashes the source if crypto packets are outstanding and one of their two spaces is gone. */
  predicate Crashes(b: Book, e: Event) {
    && e.Alarm? && (SomeOutstanding(b.initialPackets) || SomeOutstanding(b.handshakePackets))
    && (b.initialPackets == None || b.handshakePackets == None)
  }

  predicate Takes(m: Model, e: Event) {
    !m.crashed && m.book.oneRttPackets.Some? && Accepts(m.book, e)
  }

  ghost function After(m: Model, e: Event): Model {
    if Takes(m, e) then
      Model(BookAfter(m.book, e),
            if e.Retry? then m.book.Flight(Handshake) + m.book.Flight(OneRtt) else m.uncounted,
            Crashes(m.book, e))
    else m
  }

  function Start(initialPn: nat): Model {
    Model(Book(Some(EmptySpace(initialPn)), Some(EmptySpace(0)), Some(EmptySpace(0)), [], [], None), 0, false)
  }

  ghost function AfterAll(initialPn: nat, script: seq<Event>): Model {
    if script == [] then Start(initialPn) else After(AfterAll(initialPn, script[..|script|-1]), script[|script|-1])
  }

  // ----- what an event does to the units sent and acknowledged

  function SentAt(b: Book, level: EncLevel): set<nat> {
    if b.Get(level).Some? then b.Get(level).value.sent else {}
  }

  function AckedAt(b: Book, level: EncLevel): set<nat> {
    if b.Get(level).Some? then b.Get(level).value.acked else {}
  }

  /** Only a Send adds units to those sent before, exactly its own; dropping a space forgets about it. */
  function SentNext(before: set<nat>, e: Event, level: EncLevel): set<nat> {
    match e
    case Send(p) => before + if p.level == level then p.units else {}
    case Drop(l) => if l == level then {} else before
    case _ => before
  }

  ghost function CoveredUnits(m: Tracked, rs: seq<AckRange>): set<nat> {
    set k, u | k in m && Covers(rs, k) && u in m[k].units :: u
  }

  /** Only an acceptable ACK adds units to those acknowledged before, exactly those of the tracked packets it covers. */
  ghost function AckedNext(b: Book, before: set<nat>, e: Event, level: EncLevel): set<nat>
    requires Accepts(b, e)
  {
    match e
    case Ack(rs, l, skipped, _, _) =>
      var s := b.Get(l).value;
      if l == level && LargestAcked(rs) <= s.largestSent && !HitsSkipped(rs, skipped)
      then before + CoveredUnits(Table(s.packets), rs)
      else before
    case Drop(l) => if l == level then {} else before
    case _ => before
  }

  /** Everything sent in a run at one level. */
  ghost function SentBy(initialPn: nat, script: seq<Event>, level: EncLevel): set<nat> {
    if script == [] then {}
    else
      var front, e := script[..|script|-1], script[|script|-1];
      var before := SentBy(initialPn, front, level);
      if Takes(AfterAll(initialPn, front), e) then SentNext(before, e, level) else before
  }

  /** Everything acknowledged in a run at one level. */
  ghost function AckedBy(initialPn: nat, script: seq<Event>, level: EncLevel): set<nat> {
    if script == [] then {}
    else
      var front, e := script[..|script|-1], script[|script|-1];
      var m, before := AfterAll(initialPn, front), AckedBy(initialPn, front, level);
      if Takes(m, e) then AckedNext(m.book, before, e, level) else before
  }

  ghost predicate Effect(b: Book, e: Event, b': Book)
    requires Accepts(b, e)
  {
    forall level ::
      && SentAt(b', level) == SentNext(SentAt(b, level), e, level)
      && AckedAt(b', level) == AckedNext(b, AckedAt(b, level), e, level)
  }

  ghost predicate SameUnits(b: Book, b': Book) {
    forall level :: SentAt(b', level) == SentAt(b, level) && AckedAt(b', level) == AckedAt(b, level)
  }

  lemma SendEffect(b: Book, p: Packet)
    requires Accepts(b, Send(p))
    ensures Effect(b, Send(p), b.With(p.level, Some(AfterSending(b.Get(p.level).value, p))))
  {
  }

  lemma DropEffect(b: Book, level: EncLevel)
    requires Accepts(b, Drop(level))
    ensures Effect(b, Drop(level), Without(b, level))
  {
  }

  lemma AgainEffect(b: Book)
    requires b.oneRttPackets.Some?
    ensures SameUnits(b, Dequeued(b)) && SameUnits(b, ProbeTaken(b))
  {
    hide FirstRetransmittable, Table, Put;
  }

  lemma ResendEffect(b: Book, news: seq<Packet>)
    requires Accepts(b, Resend(news))
    ensures SameUnits(b, Resent(b, b.inHand[0], news))
  {
    hide SentAgain;
  }

  lemma DetectedUnits(b: Book, level: EncLevel, now: int, lossDelay: int)
    requires b.Get(level).Some?
    ensures SameUnits(b, Detected(b, level, now, lossDelay)) && Detected(b, level, now, lossDelay).inHand == b.inHand
  {
    hide LostMany, LostCount;
    var b' := Detected(b, level, now, lossDelay);
    forall l ensures SentAt(b', l) == SentAt(b, l) && AckedAt(b', l) == AckedAt(b, l) {
      if l != level {
        assert b'.Get(l) == b.Get(l);
      }
    }
  }

  lemma AlarmEffect(b: Book, now: int, lossDelay: int)
    requires b.oneRttPackets.Some?
    ensures SameUnits(b, AfterAlarm(b, now, lossDelay)) && AfterAlarm(b, now, lossDelay).inHand == b.inHand
  {
    hide Detected;
    DetectedUnits(b, OneRtt, now, lossDelay);
  }

  lemma RetryEffect(b: Book, first: nat)
    requires Accepts(b, Retry(first))
    ensures SameUnits(b, Retried(b, first))
  {
  }

  // The other levels do not notice an ACK.
  lemma OtherLevels(b: Book, rs: seq<AckRange>, level: EncLevel, skipped: seq<nat>, now: int, lossDelay: int,
                    l: EncLevel)
    requires b.Get(level).Some? && 0 < |rs| && l != level
    ensures AfterAck(b, rs, level, skipped, now, lossDelay).Get(l) == b.Get(l)
  {
    hide LostMany, LostCount, AckedAll, Covered;
  }

  lemma AckInHand(b: Book, rs: seq<AckRange>, level: EncLevel, skipped: seq<nat>, now: int, lossDelay: int)
    requires b.Get(level).Some? && 0 < |rs|
    ensures AfterAck(b, rs, level, skipped, now, lossDelay).inHand == b.inHand
  {
    hide LostMany, LostCount, AckedAll, Covered;
  }

  lemma AckEffect(b: Book, e: Event, b': Book)
    requires e.Ack? && Accepts(b, e) && b' == AfterAck(b, e.rs, e.level, e.skipped, e.now, e.lossDelay)
    requires b'.Get(e.level).Some?
    requires LargestAcked(e.rs) <= b.Get(e.level).value.largestSent && !HitsSkipped(e.rs, e.skipped) ==>
               Processed(b.Get(e.level).value, b'.Get(e.level).value, e.rs, e.now, e.lossDelay)
    ensures Effect(b, e, b') && b'.inHand == b.inHand
  {
    AckInHand(b, e.rs, e.level, e.skipped, e.now, e.lossDelay);
    var s, s' := b.Get(e.level).value, b'.Get(e.level).value;
    assert 0 < |e.rs|;
    hide Table, Covers, WellFormed, Covered, PacketNumbers, Detected, AckedAll, HitsSkipped;
    forall l
      ensures SentAt(b', l) == SentNext(SentAt(b, l), e, l) && AckedAt(b', l) == AckedNext(b, AckedAt(b, l), e, l)
    {
      if l != e.level {
        OtherLevels(b, e.rs, e.level, e.skipped, e.now, e.lossDelay, l);
      } else if LargestAcked(e.rs) <= s.largestSent && !HitsSkipped(e.rs, e.skipped) {
        AckedUnits(s, s', e.rs, e.now, e.lossDelay);
      }
    }
  }

  lemma AckedUnits(s: Space, s': Space, rs: seq<AckRange>, now: int, lossDelay: int)
    requires 0 < |rs| && Processed(s, s', rs, now, lossDelay)
    ensures s'.sent == s.sent && s'.acked == s.acked + CoveredUnits(Table(s.packets), rs)
  {
    hide Table, Covers;
  }

  // ----- no unit is forgotten

  // What a space still holds for retransmission: units of retransmittable packets and units that are pending.
  function LiveUnits(ps: seq<Packet>): set<nat> {
    if ps == [] then {} else (if ps[0].canBeRetransmitted then ps[0].units else {}) + LiveUnits(ps[1..])
  }

  function UnitsIn(ps: seq<Packet>, level: EncLevel): set<nat> {
    if ps == [] then {} else (if ps[0].level == level then ps[0].units else {}) + UnitsIn(ps[1..], level)
  }

  function LiveAt(b: Book, level: EncLevel): set<nat> {
    if b.Get(level).Some? then LiveUnits(b.Get(level).value.packets) else {}
  }

  function PendingAt(b: Book, level: EncLevel): set<nat> {
    UnitsIn(b.inHand + b.retransmissionQueue, level)
  }

  lemma {:induction false} LiveUnitsHas(ps: seq<Packet>, k: nat, u: nat)
    requires k in Table(ps) && Table(ps)[k].canBeRetransmitted && u in Table(ps)[k].units
    ensures u in LiveUnits(ps)
  {
    if ps[0].pn != k {
      LiveUnitsHas(ps[1..], k, u);
    }
  }

  lemma {:induction false} LiveUnitsOnly(ps: seq<Packet>, sent: set<nat>)
    requires forall i :: 0 <= i < |ps| ==> ps[i].units <= sent
    ensures LiveUnits(ps) <= sent
  {
    if ps != [] {
      LiveUnitsOnly(ps[1..], sent);
    }
  }

  lemma {:induction false} UnitsInHas(ps: seq<Packet>, level: EncLevel, i: nat, u: nat)
    requires i < |OfLevel(ps, level)| && u in OfLevel(ps, level)[i].units
    ensures u in UnitsIn(ps, level)
  {
    if ps[0].level != level {
      UnitsInHas(ps[1..], level, i, u);
    } else if i > 0 {
      UnitsInHas(ps[1..], level, i-1, u);
    }
  }

  lemma {:induction false} UnitsInOnly(ps: seq<Packet>, level: EncLevel, sent: set<nat>)
    requires forall i :: 0 <= i < |OfLevel(ps, level)| ==> OfLevel(ps, level)[i].units <= sent
    ensures UnitsIn(ps, level) <= sent
  {
    if ps != [] {
      var rest := OfLevel(ps[1..], level);
      var k := if ps[0].level == level then 1 else 0;
      assert OfLevel(ps, level)[k..] == rest;
      forall i | 0 <= i < |rest| ensures rest[i].units <= sent {
        assert rest[i] == OfLevel(ps, level)[k + i];
      }
      UnitsInOnly(ps[1..], level, sent);
      if ps[0].level == level {
        assert OfLevel(ps, level)[0] == ps[0];
      }
    }
  }

  lemma SentIsAccounted(b: Book, level: EncLevel)
    requires b.Ok() && b.Get(level).Some?
    ensures SentAt(b, level) <= AckedAt(b, level) + LiveAt(b, level) + PendingAt(b, level)
  {
    var s := b.Get(level).value;
    assert b.LevelOk(level);
    forall u | u in s.sent ensures u in s.acked + LiveUnits(s.packets) + PendingAt(b, level) {
      if Live(Table(s.packets), u) {
        var k :| k in Table(s.packets) && Table(s.packets)[k].canBeRetransmitted && u in Table(s.packets)[k].units;
        LiveUnitsHas(s.packets, k, u);
      } else if Awaiting(b.Pending(level), u) {
        var i :| 0 <= i < |b.Pending(level)| && u in b.Pending(level)[i].units;
        UnitsInHas(b.inHand + b.retransmissionQueue, level, i, u);
      }
    }
  }

  lemma AccountedWasSent(b: Book, level: EncLevel)
    requires b.Ok() && b.Get(level).Some?
    ensures AckedAt(b, level) + LiveAt(b, level) + PendingAt(b, level) <= SentAt(b, level)
  {
    var s := b.Get(level).value;
    assert b.LevelOk(level);
    TableAll(s.packets);
    LiveUnitsOnly(s.packets, s.sent);
    UnitsInOnly(b.inHand + b.retransmissionQueue, level, s.sent);
  }

  lemma {:induction false} NothingPending(ps: seq<Packet>, level: EncLevel)
    requires OfLevel(ps, level) == []
    ensures UnitsIn(ps, level) == {}
  {
    if ps != [] {
      NothingPending(ps[1..], level);
    }
  }

  /** In every state that satisfies the invariant, what was sent at a level is exactly what is acknowledged, still
      retransmittable, or waiting to be sent again. */
  lemma AllAccounted(b: Book, level: EncLevel)
    requires b.Ok()
    ensures SentAt(b, level) == AckedAt(b, level) + LiveAt(b, level) + PendingAt(b, level)
  {
    if b.Get(level).Some? {
      SentIsAccounted(b, level);
      AccountedWasSent(b, level);
    } else {
      assert b.LevelOk(level);
      NothingPending(b.inHand + b.retransmissionQueue, level);
    }
  }

  // ----- running the handler

  method Allowed(h: SentPacketHandler, hand: seq<Packet>, e: Event) returns (ok: bool)
    requires h.inHand == hand
    ensures ok <==> Accepts(h.State(), e)
  {
    hide SendableIn, WellFormed, Repeats;
    match e
    case Send(p) =>
      var s := h.GetPacketNumberSpace(p.level);
      ok := s.Some? && SendableIn(p, s.value);
    case Retransmit =>
      ok := hand == [];
    case Probe =>
      ok := hand == [];
    case Resend(news) =>
      ok := false;
      if hand != [] {
        var s := h.GetPacketNumberSpace(hand[0].level);
        ok := s.Some? && Repeats(news, hand[0], s.value);
      }
    case Ack(rs, level, _, _, _) =>
      var s := h.GetPacketNumberSpace(level);
      ok := s.Some? && WellFormed(rs);
    case Alarm(_, _) =>
      ok := true;
    case Drop(level) =>
      var s := h.GetPacketNumberSpace(level);
      ok := s.Some? && level != OneRtt;
    case Retry(first) =>
      var s := h.initialPackets;
      ok := s.Some? && s.value.first <= first && s.value.largestSent < first;
  }

  lemma HasOneRtt(h: SentPacketHandler)
    requires h.Valid()
    ensures h.State().oneRttPackets.Some? && |h.inHand| <= 1
  {
    assert h.State().LevelOk(OneRtt);
  }

  /** The events that take a packet in hand or let it go. */
  method Handle(h: SentPacketHandler, hand: seq<Packet>, e: Event) returns (hand': seq<Packet>)
    requires h.Valid() && h.inHand == hand && Accepts(h.State(), e) && (e.Retransmit? || e.Probe? || e.Resend?)
    modifies h
    ensures h.Valid() && h.inHand == hand' && h.uncounted == old(h.uncounted)
    ensures h.State() == BookAfter(old(h.State()), e) && Effect(old(h.State()), e, h.State())
  {
    hide SentPacketHandler.Valid, Book.Ok, Book.TotalFlight, SentAt, AckedAt, Repeats, ProbeTaken, ProbeIsTaken;
    hide ResendTaken, Eliciting;
    ghost var b := h.State();
    HasOneRtt(h);
    AgainEffect(b);
    match e
    case Retransmit =>
      var p := h.DequeuePacketForRetransmission();
      hand' := if p.Some? then [p.value] else [];
    case Probe =>
      var p := h.DequeueProbePacket();
      hand' := if p.Some? then [p.value] else [];
    case Resend(news) =>
      ResendEffect(b, news);
      h.SentPacketsAsRetransmission(news, hand[0]);
      hand' := [];
  }

  /** One event on the handler itself: the new state is the one of the specification, and the units sent and
      acknowledged at each level change as the event says and in no other way. */
  method Step(h: SentPacketHandler, hand: seq<Packet>, e: Event) returns (hand': seq<Packet>, crashed: bool)
    requires h.Valid() && h.inHand == hand && Accepts(h.State(), e)
    modifies h
    ensures h.Valid() && h.inHand == hand'
    ensures Model(h.State(), h.uncounted, crashed) == After(Model(old(h.State()), old(h.uncounted), false), e)
    ensures Effect(old(h.State()), e, h.State())
  {
    hide SentPacketHandler.Valid, Book.Ok, Book.TotalFlight, OfLevel, SendableIn, WellFormed, AfterSending, Dequeued;
    hide ProbeTaken, Repeats, AfterAck, AfterAlarm, Retried, SentAt, AckedAt, CryptoOutstanding, CoveredUnits;
    hide HitsSkipped, Processed, SomeOutstanding, AckTaken, AlarmTaken, DropTaken, RetryTaken, SentAlone, Table, Covers;
    hand', crashed := hand, false;
    ghost var b := h.State();
    HasOneRtt(h);
    match e
    case Send(p) =>
      SendEffect(b, p);
      h.SentPacket(p);
    case Retransmit =>
      hand' := Handle(h, hand, e);
    case Probe =>
      hand' := Handle(h, hand, e);
    case Resend(_) =>
      hand' := Handle(h, hand, e);
    case Ack(rs, level, skipped, now, lossDelay) =>
      var err := h.ReceivedAck(rs, level, skipped, now, lossDelay);
      AckEffect(b, e, h.State());
    case Alarm(now, lossDelay) =>
      AlarmEffect(b, now, lossDelay);
      crashed := h.OnAlarm(now, lossDelay);
    case Drop(level) =>
      DropEffect(b, level);
      h.DropPackets(level);
      hand' := RemoveLevel(hand, level);
    case Retry(first) =>
      RetryEffect(b, first);
      h.ResetForRetry(first);
  }

  lemma RunStep(initialPn: nat, script: seq<Event>, i: nat, level: EncLevel)
    requires i < |script|
    ensures var m := AfterAll(initialPn, script[..i]);
            && AfterAll(initialPn, script[..i+1]) == After(m, script[i])
            && SentBy(initialPn, script[..i+1], level) ==
               (if Takes(m, script[i]) then SentNext(SentBy(initialPn, script[..i], level), script[i], level)
                else SentBy(initialPn, script[..i], level))
            && AckedBy(initialPn, script[..i+1], level) ==
               (if Takes(m, script[i]) then
                  AckedNext(m.book, AckedBy(initialPn, script[..i], level), script[i], level)
                else AckedBy(initialPn, script[..i], level))
  {
    hide After, Takes, SentNext, AckedNext;
    assert script[..i+1][..i] == script[..i];
  }

  /** Safety of every run: whatever the order of sends, retransmissions, probes, ACKs, alarms, dropped keys and Retries,
      the units sent at a level are those of the accepted sends, the units acknowledged those of the packets that the
      ACKs covered, and each unit sent is acknowledged, retransmittable or waiting to be sent again.  bytesInFlight is
      what the tracked packets add up to, except for what was in flight at the other levels during the last Retry. */
  method Run(initialPn: nat, script: seq<Event>, level: EncLevel)
    returns (sent: set<nat>, acked: set<nat>, live: set<nat>, pending: set<nat>,
             bytesInFlight: int, tracked: int, crashed: bool)
    ensures sent == SentBy(initialPn, script, level) && acked == AckedBy(initialPn, script, level)
    ensures var m := AfterAll(initialPn, script);
            && live == LiveAt(m.book, level) && pending == PendingAt(m.book, level)
            && tracked == m.book.TotalFlight() && bytesInFlight == tracked - m.uncounted && crashed == m.crashed
    ensures sent == acked + live + pending
  {
    var h := new SentPacketHandler(initialPn);
    var hand;
    hand, crashed := [], false;
    for i := 0 to |script|
      invariant h.Valid() && h.inHand == hand && fresh(h)
      invariant Model(h.State(), h.uncounted, crashed) == AfterAll(initialPn, script[..i])
      invariant SentAt(h.State(), level) == SentBy(initialPn, script[..i], level)
      invariant AckedAt(h.State(), level) == AckedBy(initialPn, script[..i], level)
    {
      hide After, SentBy, AckedBy, SentNext, AckedNext, SentAt, AckedAt, AfterAll, Accepts, Book.Ok, Book.TotalFlight;
      RunStep(initialPn, script, i, level);
      ghost var m := AfterAll(initialPn, script[..i]);
      var ok := Allowed(h, hand, script[i]);
      if ok && !crashed {
        assert Takes(m, script[i]);
        hand, crashed := Step(h, hand, script[i]);
      } else {
        NotTaken(m, script[i]);
      }
    }
    assert script[..|script|] == script;
    AllAccounted(h.State(), level);
    sent, acked, live, pending := Report(h, hand, level);
    bytesInFlight := h.bytesInFlight;
    tracked := FlightSize(h.oneRttPackets.value.packets)
               + (if h.initialPackets.Some? then FlightSize(h.initialPackets.value.packets) else 0)
               + (if h.handshakePackets.Some? then FlightSize(h.handshakePackets.value.packets) else 0);
  }

  lemma NotTaken(m: Model, e: Event)
    requires !Takes(m, e)
    ensures After(m, e) == m
  {
  }

  method Report(h: SentPacketHandler, hand: seq<Packet>, level: EncLevel)
    returns (sent: set<nat>, acked: set<nat>, live: set<nat>, pending: set<nat>)
    requires h.inHand == hand
    ensures sent == SentAt(h.State(), level) && acked == AckedAt(h.State(), level)
    ensures live == LiveAt(h.State(), level) && pending == PendingAt(h.State(), level)
  {
    var s := h.GetPacketNumberSpace(level);
    sent, acked, live, pending := {}, {}, {}, UnitsIn(hand + h.retransmissionQueue, level);
    if s.Some? {
      sent, acked, live := s.value.sent, s.value.acked, LiveUnits(s.value.packets);
    }
  }

  // ----- two properties that fail

  function Plain(pn: nat, level: EncLevel): Packet {
    Packet(pn, level, {0}, 1200, 0, false, false, [], false, 0)
  }

  /** The Initial space is dropped, a Handshake packet is outstanding, and the alarm fires. */
  method AlarmAfterDrop() returns (crashed: bool)
    ensures crashed
  {
    var h := new SentPacketHandler(0);
    h.DropPackets(Initial);
    h.SentPacket(Plain(0, Handshake));
    crashed := h.OnAlarm(0, 0);
  }

  /** A Retry arrives while a Handshake packet is in flight: it stays tracked but is no longer counted. */
  method RetryMiscounts() returns (bytesInFlight: int, tracked: int)
    ensures tracked == 1200 && bytesInFlight == 0
  {
    var h := new SentPacketHandler(0);
    h.SentPacket(Plain(0, Handshake));
    tracked := FlightSize(h.handshakePackets.value.packets);
    h.ResetForRetry(0);
    bytesInFlight := h.bytesInFlight;
    assert h.State().TotalFlight() == tracked;
  }
}
