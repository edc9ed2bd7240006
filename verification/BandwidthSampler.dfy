/** The bandwidth sampler (internal/congestion/bandwidth_sampler.go).  Times are nanoseconds; 0 is the zero time. */
module BandwidthSamplers {
  import opened Common

  const SECOND := 1_000_000_000
  const TWO_64 := 0x1_0000_0000_0000_0000

  // ----- rates

  /** BandwidthFromDelta, in bits per second, on 64-bit unsigned integers. */
  function BandwidthFromDelta(bytes: nat, delta: int): nat
    requires 0 < delta
  {
    ((bytes * SECOND % TWO_64) / delta * 8) % TWO_64
  }

  lemma DivMul(a: nat, b: int)
    requires 0 < b
    ensures a / b * b <= a
  {
  }

  lemma MulMono(a: nat, b: nat, c: int)
    requires a <= b && 0 < c
    ensures a * c <= b * c
  {
  }

  /** A rate never promises more than the bytes that were counted, even where the arithmetic wraps around. */
  lemma RateBound(bytes: nat, delta: int)
    requires 0 < delta
    ensures BandwidthFromDelta(bytes, delta) * delta <= 8 * SECOND * bytes
  {
    var w := bytes * SECOND % TWO_64;
    var q := w / delta;
    DivMul(w, delta);
    MulMono(BandwidthFromDelta(bytes, delta), q * 8, delta);
    assert q * 8 * delta == 8 * (q * delta);
  }

  /** Where nothing wraps around, it is that rate, rounded down to a whole number of bytes per second. */
  lemma RateTight(bytes: nat, delta: int)
    requires 0 < delta && bytes * SECOND < TWO_64 && bytes * SECOND / delta * 8 < TWO_64
    ensures 8 * SECOND * bytes < (BandwidthFromDelta(bytes, delta) + 8) * delta
  {
    var w := bytes * SECOND;
    var q := w / delta;
    assert BandwidthFromDelta(bytes, delta) == q * 8;
    DivRest(w, delta);
    assert (q * 8 + 8) * delta == 8 * (q * delta + delta);
  }

  lemma DivRest(a: nat, b: int)
    requires 0 < b
    ensures a < a / b * b + b
  {
  }

  // ----- state

  datatype SendTimeState = SendTimeState(isValid: bool, isAppLimited: bool, totalBytesSent: nat, totalBytesAcked: nat,
      totalBytesLost: nat)

  datatype ConnectionState = ConnectionState(sendTime: int, size: nat, totalBytesSentAtLastAckedPacket: nat,
                                             lastAckedPacketSentTime: int, lastAckedPacketAckTime: int,
                                             sendTimeState: SendTimeState)

  /** A sample, if one could be made; the round-trip time is otherwise infinite. */
  datatype BandwidthSample = BandwidthSample(bandwidth: nat, rtt: Option<int>, stateAtSend: SendTimeState)

  const NO_STATE := SendTimeState(false, false, 0, 0, 0)
  const NO_SAMPLE := BandwidthSample(0, None, NO_STATE)

  /** The sizes of all packets still tracked. */
  ghost function Tracked(stats: map<nat, ConnectionState>): nat {
    if stats == map[] then 0
    else
      var pn :| pn in stats;
      stats[pn].size + Tracked(stats - {pn})
  }

  lemma {:induction false} TrackedRemove(stats: map<nat, ConnectionState>, pn: nat)
    requires pn in stats
    ensures Tracked(stats) == stats[pn].size + Tracked(stats - {pn})
  {
    var x :| x in stats && Tracked(stats) == stats[x].size + Tracked(stats - {x});
    if x != pn {
      TrackedRemove(stats - {x}, pn);
      TrackedRemove(stats - {pn}, x);
      assert stats - {x} - {pn} == stats - {pn} - {x};
    }
  }

  lemma TrackedInsert(stats: map<nat, ConnectionState>, pn: nat, st: ConnectionState)
    requires pn !in stats
    ensures Tracked(stats[pn := st]) == Tracked(stats) + st.size
  {
    TrackedRemove(stats[pn := st], pn);
    assert stats[pn := st] - {pn} == stats;
  }

  /** What was recorded when a packet was sent lies below what the totals are now, so no difference is negative. */
  predicate Recorded(st: ConnectionState, sent: nat, acked: nat, lost: nat) {
    && st.sendTimeState.isValid
    && st.size <= st.sendTimeState.totalBytesSent <= sent
    && st.sendTimeState.totalBytesAcked <= acked && st.sendTimeState.totalBytesLost <= lost
    && st.totalBytesSentAtLastAckedPacket <= st.sendTimeState.totalBytesSent
  }

  ghost predicate AllRecorded(stats: map<nat, ConnectionState>, sent: nat, acked: nat, lost: nat) {
    forall pn :: pn in stats ==> Recorded(stats[pn], sent, acked, lost)
  }

  /** All tracked packets were numbered up to `last`, and those above `end` were sent in the app-limited phase. */
  ghost predicate Marked(stats: map<nat, ConnectionState>, last: nat, phase: bool, end: nat) {
    && (forall pn :: pn in stats ==> pn <= last)
    && (phase ==> end <= last && forall pn :: pn in stats && end < pn ==> stats[pn].sendTimeState.isAppLimited)
  }

  /** Every byte sent is acked, lost or tracked, unless its packet number was still in use. */
  ghost predicate Inv(stats: map<nat, ConnectionState>, sent: nat, acked: nat, lost: nat, repeated: nat) {
    sent == acked + lost + Tracked(stats) + repeated && AllRecorded(stats, sent, acked, lost)
  }

  lemma RecordedMore(stats: map<nat, ConnectionState>, sent: nat, acked: nat, lost: nat, sent': nat, acked': nat,
                     lost': nat)
    requires AllRecorded(stats, sent, acked, lost) && sent <= sent' && acked <= acked' && lost <= lost'
    ensures AllRecorded(stats, sent', acked', lost')
  {
  }

  lemma RecordedInsert(stats: map<nat, ConnectionState>, sent: nat, acked: nat, lost: nat, pn: nat, st: ConnectionState)
    requires AllRecorded(stats, sent, acked, lost) && Recorded(st, sent, acked, lost)
    ensures AllRecorded(stats[pn := st], sent, acked, lost)
  {
  }

  lemma RecordedRemove(stats: map<nat, ConnectionState>, sent: nat, acked: nat, lost: nat, pn: nat)
    requires AllRecorded(stats, sent, acked, lost)
    ensures AllRecorded(stats - {pn}, sent, acked, lost)
  {
  }

  lemma MarkedUpTo(stats: map<nat, ConnectionState>, last: nat, phase: bool, end: nat, pn: nat)
    requires Marked(stats, last, phase, end) && (last < pn || (stats == map[] && last == 0))
    ensures Marked(stats, pn, phase, end) && pn !in stats
  {
  }

  lemma MarkedRemove(stats: map<nat, ConnectionState>, last: nat, phase: bool, end: nat, phase': bool, pn: nat)
    requires Marked(stats, last, phase, end) && (phase' ==> phase)
    ensures Marked(stats - {pn}, last, phase', end)
  {
  }

  lemma InvSend(stats: map<nat, ConnectionState>, sent: nat, acked: nat, lost: nat, repeated: nat, pn: nat,
                st: ConnectionState)
    requires Inv(stats, sent, acked, lost, repeated) && Recorded(st, sent + st.size, acked, lost)
    ensures pn in stats ==> Inv(stats, sent + st.size, acked, lost, repeated + st.size)
    ensures pn !in stats ==> Inv(stats[pn := st], sent + st.size, acked, lost, repeated)
  {
    hide Tracked;
    RecordedMore(stats, sent, acked, lost, sent + st.size, acked, lost);
    if pn !in stats {
      TrackedInsert(stats, pn, st);
      RecordedInsert(stats, sent + st.size, acked, lost, pn, st);
    }
  }

  lemma InvAck(stats: map<nat, ConnectionState>, sent: nat, acked: nat, lost: nat, repeated: nat, pn: nat)
    requires Inv(stats, sent, acked, lost, repeated) && pn in stats
    ensures Recorded(stats[pn], sent, acked + stats[pn].size, lost)
    ensures Inv(stats - {pn}, sent, acked + stats[pn].size, lost, repeated)
    ensures Inv(stats - {pn}, sent, acked, lost + stats[pn].size, repeated)
  {
    hide Tracked;
    TrackedRemove(stats, pn);
    RecordedMore(stats, sent, acked, lost, sent, acked + stats[pn].size, lost);
    RecordedRemove(stats, sent, acked + stats[pn].size, lost, pn);
    RecordedMore(stats, sent, acked, lost, sent, acked, lost + stats[pn].size);
    RecordedRemove(stats, sent, acked, lost + stats[pn].size, pn);
  }

  /** A sample is bounded by the rate at which the packet's bytes were sent and by the rate at which bytes were
      acked. */
  ghost predicate Bounded(s: BandwidthSample, st: ConnectionState, ackTime: int, acked: nat) {
    && st.lastAckedPacketAckTime < ackTime
    && st.sendTimeState.totalBytesAcked <= acked &&
       st.totalBytesSentAtLastAckedPacket <= st.sendTimeState.totalBytesSent
    && s.bandwidth * (ackTime - st.lastAckedPacketAckTime) <= 8 * SECOND * (acked - st.sendTimeState.totalBytesAcked)
    && (st.lastAckedPacketSentTime < st.sendTime ==>
          s.bandwidth * (st.sendTime - st.lastAckedPacketSentTime) <=
          8 * SECOND * (st.sendTimeState.totalBytesSent - st.totalBytesSentAtLastAckedPacket))
  }

  // The rate at which bytes were acked between the last ack before the packet was sent and its own ack.
  function AckRate(st: ConnectionState, ackTime: int, acked: nat): nat
    requires st.lastAckedPacketAckTime < ackTime && st.sendTimeState.totalBytesAcked <= acked
  {
    BandwidthFromDelta(acked - st.sendTimeState.totalBytesAcked, ackTime - st.lastAckedPacketAckTime)
  }

  // The rate at which bytes were sent between the packet acked last before and the packet itself.
  function SendRate(st: ConnectionState): nat
    requires st.lastAckedPacketSentTime < st.sendTime &&
              st.totalBytesSentAtLastAckedPacket <= st.sendTimeState.totalBytesSent
  {
    BandwidthFromDelta(st.sendTimeState.totalBytesSent - st.totalBytesSentAtLastAckedPacket,
        st.sendTime - st.lastAckedPacketSentTime)
  }

  /** onPacketAckedInner's sample; `acked` already includes the packet. */
  function SampleFor(st: ConnectionState, ackTime: int, sent: nat, acked: nat, lost: nat): BandwidthSample
    requires Recorded(st, sent, acked, lost)
  {
    if st.lastAckedPacketSentTime == 0 then NO_SAMPLE
    else if ackTime <= st.lastAckedPacketAckTime then NO_SAMPLE
    else
      var ackRate := AckRate(st, ackTime, acked);
      var rate := if st.lastAckedPacketSentTime < st.sendTime && SendRate(st) < ackRate then SendRate(st) else ackRate;
      BandwidthSample(rate, Some(ackTime - st.sendTime), st.sendTimeState)
  }

  lemma RateReached(s: BandwidthSample, bytes: nat, delta: int)
    requires 0 < delta
    ensures NoWrap(bytes, delta) && s.bandwidth == BandwidthFromDelta(bytes, delta) ==> Reaches(s, bytes, delta)
  {
    if NoWrap(bytes, delta) {
      RateTight(bytes, delta);
    }
  }

  // Neither product leaves 64 bits.
  predicate NoWrap(bytes: nat, delta: int)
    requires 0 < delta
  {
    bytes * SECOND < TWO_64 && bytes * SECOND / delta * 8 < TWO_64
  }

  // The sample is that many bytes in that time, up to one byte per second.
  predicate Reaches(s: BandwidthSample, bytes: nat, delta: int) {
    8 * SECOND * bytes < (s.bandwidth + 8) * delta
  }

  /** Where nothing wraps around, a sample reaches one of the two rates: it is the smaller one. */
  ghost predicate Tight(s: BandwidthSample, st: ConnectionState, ackTime: int, acked: nat)
    requires st.lastAckedPacketAckTime < ackTime && st.sendTimeState.totalBytesAcked <= acked
    requires st.totalBytesSentAtLastAckedPacket <= st.sendTimeState.totalBytesSent
  {
    var ackedBytes, ackDelta := acked - st.sendTimeState.totalBytesAcked, ackTime - st.lastAckedPacketAckTime;
    var sentBytes := st.sendTimeState.totalBytesSent - st.totalBytesSentAtLastAckedPacket;
    var sendDelta := st.sendTime - st.lastAckedPacketSentTime;
    if 0 < sendDelta then
      NoWrap(ackedBytes, ackDelta) && NoWrap(sentBytes, sendDelta) ==>
        Reaches(s, ackedBytes, ackDelta) || Reaches(s, sentBytes, sendDelta)
    else NoWrap(ackedBytes, ackDelta) ==> Reaches(s, ackedBytes, ackDelta)
  }

  /** There is a sample unless no packet had been acked when this one was sent, or the clock has not moved since.  It is
      bounded by both rates, and is one of them. */
  lemma SampleBounded(st: ConnectionState, ackTime: int, sent: nat, acked: nat, lost: nat)
    requires Recorded(st, sent, acked, lost)
    ensures var s := SampleFor(st, ackTime, sent, acked, lost);
            && (s.rtt.Some? <==> st.lastAckedPacketSentTime != 0 && st.lastAckedPacketAckTime < ackTime)
            && (s.rtt.Some? ==>
               Bounded(s, st, ackTime, acked) && s.rtt.value == ackTime - st.sendTime &&
                   s.stateAtSend == st.sendTimeState)
            && (s.rtt.Some? ==>
               s.bandwidth == AckRate(st, ackTime, acked) ||
                   (st.lastAckedPacketSentTime < st.sendTime && s.bandwidth == SendRate(st)))
            && (s.rtt.Some? ==> Tight(s, st, ackTime, acked))
            && (s.rtt == None ==> s == NO_SAMPLE)
  {
    hide BandwidthFromDelta, Reaches, NoWrap;
    var s := SampleFor(st, ackTime, sent, acked, lost);
    if s.rtt.Some? {
      RateReached(s, acked - st.sendTimeState.totalBytesAcked, ackTime - st.lastAckedPacketAckTime);
      if st.lastAckedPacketSentTime < st.sendTime {
        RateReached(s, st.sendTimeState.totalBytesSent - st.totalBytesSentAtLastAckedPacket,
                    st.sendTime - st.lastAckedPacketSentTime);
      }
      RateBound(acked - st.sendTimeState.totalBytesAcked, ackTime - st.lastAckedPacketAckTime);
      MulMono(s.bandwidth, AckRate(st, ackTime, acked), ackTime - st.lastAckedPacketAckTime);
      if st.lastAckedPacketSentTime < st.sendTime {
        RateBound(st.sendTimeState.totalBytesSent - st.totalBytesSentAtLastAckedPacket,
            st.sendTime - st.lastAckedPacketSentTime);
        MulMono(s.bandwidth, SendRate(st), st.sendTime - st.lastAckedPacketSentTime);
      }
    }
  }

  // ----- what a run of the sampler has to add up to

  datatype Event =
    | Sent(sentTime: int, pn: nat, bytes: nat, bytesInFlight: nat, retransmittable: bool)
    | Acked(ackTime: int, pn: nat)
    | Lost(pn: nat)
    | AppLimited

  function BytesSent(es: seq<Event>): nat {
    if es == [] then 0
    else
      var e := es[|es|-1];
      BytesSent(es[..|es|-1]) + if e.Sent? && e.retransmittable then e.bytes else 0
  }

  function LastSent(es: seq<Event>): int {
    if es == [] then -1 else if es[|es|-1].Sent? then es[|es|-1].pn else LastSent(es[..|es|-1])
  }

  /** Packets are sent in the order of their numbers. */
  predicate InOrder(es: seq<Event>) {
    es == [] || (InOrder(es[..|es|-1]) && (es[|es|-1].Sent? ==> LastSent(es[..|es|-1]) < es[|es|-1].pn))
  }

  /** The sizes of the packets that are tracked after a run: sent with retransmittable data under a number not in use,
      and neither acked nor lost since. */
  function SizesAfter(es: seq<Event>): map<nat, nat> {
    if es == [] then map[] else SizesNext(SizesAfter(es[..|es|-1]), es[|es|-1])
  }

  function SizesNext(m: map<nat, nat>, e: Event): map<nat, nat> {
    match e
    case Sent(_, pn, bytes, _, retransmittable) => if retransmittable && pn !in m then m[pn := bytes] else m
    case Acked(_, pn) => m - {pn}
    case Lost(pn) => m - {pn}
    case AppLimited => m
  }

  function SizeOf(m: map<nat, nat>, pn: nat): nat {
    if pn in m then m[pn] else 0
  }

  function AckedBytes(es: seq<Event>): nat {
    if es == [] then 0
    else
      var front, e := es[..|es|-1], es[|es|-1];
      AckedBytes(front) + if e.Acked? then SizeOf(SizesAfter(front), e.pn) else 0
  }

  function LostBytes(es: seq<Event>): nat {
    if es == [] then 0
    else
      var front, e := es[..|es|-1], es[|es|-1];
      LostBytes(front) + if e.Lost? then SizeOf(SizesAfter(front), e.pn) else 0
  }

  /** Bytes sent under a number that was still in use. */
  function RepeatedBytes(es: seq<Event>): nat {
    if es == [] then 0
    else
      var front, e := es[..|es|-1], es[|es|-1];
      RepeatedBytes(front) + if e.Sent? && e.retransmittable && e.pn in SizesAfter(front) then e.bytes else 0
  }

  function Sizes(stats: map<nat, ConnectionState>): map<nat, nat> {
    map k | k in stats :: stats[k].size
  }

  lemma OneMore(es: seq<Event>, e: Event)
    ensures BytesSent(es + [e]) == BytesSent(es) + if e.Sent? && e.retransmittable then e.bytes else 0
    ensures AckedBytes(es + [e]) == AckedBytes(es) + if e.Acked? then SizeOf(SizesAfter(es), e.pn) else 0
    ensures LostBytes(es + [e]) == LostBytes(es) + if e.Lost? then SizeOf(SizesAfter(es), e.pn) else 0
    ensures RepeatedBytes(es + [e]) ==
            RepeatedBytes(es) + if e.Sent? && e.retransmittable && e.pn in SizesAfter(es) then e.bytes else 0
    ensures SizesAfter(es + [e]) == SizesNext(SizesAfter(es), e)
    ensures LastSent(es + [e]) == if e.Sent? then e.pn else LastSent(es)
    ensures InOrder(es + [e]) <==> InOrder(es) && (e.Sent? ==> LastSent(es) < e.pn)
  {
    assert (es + [e])[..|es|] == es;
  }

  lemma SizesMove(stats: map<nat, ConnectionState>, pn: nat, st: ConnectionState)
    ensures Sizes(stats[pn := st]) == Sizes(stats)[pn := st.size] && Sizes(stats - {pn}) == Sizes(stats) - {pn}
    ensures SizeOf(Sizes(stats), pn) == (if pn in stats then stats[pn].size else 0) &&
              (pn in Sizes(stats) <==> pn in stats)
  {
  }

  /** The state of a sampler agrees with what has happened to it so far. */
  ghost predicate Consistent(h: seq<Event>, stats: map<nat, ConnectionState>, sent: nat, acked: nat, lost: nat,
                             sentAtLastAcked: nat, last: nat, phase: bool, end: nat)
  {
    && Sizes(stats) == SizesAfter(h)
    && sent == BytesSent(h) && acked == AckedBytes(h) && lost == LostBytes(h) && sentAtLastAcked <= sent
    && Inv(stats, sent, acked, lost, RepeatedBytes(h))
    && (InOrder(h) ==> RepeatedBytes(h) == 0 && Marked(stats, last, phase, end))
    && (if LastSent(h) == -1 then stats == map[] && last == end == 0 else LastSent(h) == last)
  }

  lemma ConsistentEmpty()
    ensures Consistent([], map[], 0, 0, 0, 0, 0, false, 0)
  {
  }

  lemma ConsistentUnsent(h: seq<Event>, stats: map<nat, ConnectionState>, sent: nat, acked: nat, lost: nat,
                         sentAtLastAcked: nat, last: nat, phase: bool, end: nat, e: Event)
    requires Consistent(h, stats, sent, acked, lost, sentAtLastAcked, last, phase, end)
    requires e.Sent? && !e.retransmittable
    ensures Consistent(h + [e], stats, sent, acked, lost, sentAtLastAcked, e.pn, phase, end)
  {
    OneMore(h, e);
    hide Inv, BytesSent, AckedBytes, LostBytes, RepeatedBytes, SizesAfter, LastSent, InOrder, Marked, Sizes;
    if InOrder(h + [e]) {
      MarkedUpTo(stats, last, phase, end, e.pn);
    }
  }

  lemma ConsistentSent(h: seq<Event>, stats: map<nat, ConnectionState>, sent: nat, acked: nat, lost: nat,
                       sentAtLastAcked: nat, last: nat, phase: bool, end: nat, e: Event, st: ConnectionState,
                           later: nat)
    requires Consistent(h, stats, sent, acked, lost, sentAtLastAcked, last, phase, end)
    requires e.Sent? && e.retransmittable && later <= sent + e.bytes
    requires Recorded(st, sent + e.bytes, acked, lost) && st.size == e.bytes &&
              (phase ==> st.sendTimeState.isAppLimited)
    ensures Consistent(h + [e],
              if e.pn in stats then stats else stats[e.pn := st], sent + e.bytes, acked, lost, later, e.pn, phase, end)
  {
    OneMore(h, e);
    SizesMove(stats, e.pn, st);
    InvSend(stats, sent, acked, lost, RepeatedBytes(h), e.pn, st);
    hide Inv, BytesSent, AckedBytes, LostBytes, RepeatedBytes, SizesAfter, LastSent, InOrder, Marked, Sizes;
    if InOrder(h + [e]) {
      MarkedUpTo(stats, last, phase, end, e.pn);
      MarkedInsert(stats, e.pn, phase, end, st);
    }
  }

  lemma MarkedInsert(stats: map<nat, ConnectionState>, pn: nat, phase: bool, end: nat, st: ConnectionState)
    requires Marked(stats, pn, phase, end) && (phase ==> st.sendTimeState.isAppLimited)
    ensures Marked(stats[pn := st], pn, phase, end)
  {
  }

  lemma ConsistentGone(h: seq<Event>, stats: map<nat, ConnectionState>, sent: nat, acked: nat, lost: nat,
                       sentAtLastAcked: nat, last: nat, phase: bool, end: nat, e: Event, later: nat, phase': bool)
    requires Consistent(h, stats, sent, acked, lost, sentAtLastAcked, last, phase, end)
    requires (e.Acked? || e.Lost?) && e.pn in stats && later <= sent && (phase' ==> phase)
    ensures Recorded(stats[e.pn], sent, acked + stats[e.pn].size, lost)
    ensures var size := stats[e.pn].size;
            Consistent(h + [e], stats - {e.pn}, sent, acked + (if e.Acked? then size else 0),
                lost + (if e.Lost? then size else 0),
                       later, last, phase', end)
  {
    OneMore(h, e);
    SizesMove(stats, e.pn, stats[e.pn]);
    InvAck(stats, sent, acked, lost, RepeatedBytes(h), e.pn);
    hide Inv, BytesSent, AckedBytes, LostBytes, RepeatedBytes, SizesAfter, LastSent, InOrder, Marked, Sizes;
    if InOrder(h) {
      MarkedRemove(stats, last, phase, end, phase', e.pn);
    }
  }

  lemma ConsistentUnknown(h: seq<Event>, stats: map<nat, ConnectionState>, sent: nat, acked: nat, lost: nat,
                          sentAtLastAcked: nat, last: nat, phase: bool, end: nat, e: Event)
    requires Consistent(h, stats, sent, acked, lost, sentAtLastAcked, last, phase, end)
    requires (e.Acked? || e.Lost?) && e.pn !in stats
    ensures Consistent(h + [e], stats, sent, acked, lost, sentAtLastAcked, last, phase, end) && stats - {e.pn} == stats
  {
    OneMore(h, e);
    assert stats - {e.pn} == stats && SizeOf(Sizes(stats), e.pn) == 0 && Sizes(stats) - {e.pn} == Sizes(stats);
    hide Inv, BytesSent, AckedBytes, LostBytes, RepeatedBytes, SizesAfter, LastSent, InOrder, Marked, Sizes;
  }

  lemma ConsistentLimited(h: seq<Event>, stats: map<nat, ConnectionState>, sent: nat, acked: nat, lost: nat,
                          sentAtLastAcked: nat, last: nat, phase: bool, end: nat)
    requires Consistent(h, stats, sent, acked, lost, sentAtLastAcked, last, phase, end)
    ensures Consistent(h + [AppLimited], stats, sent, acked, lost, sentAtLastAcked, last, true, last)
  {
    OneMore(h, AppLimited);
    hide Inv, BytesSent, AckedBytes, LostBytes, RepeatedBytes, SizesAfter, LastSent, InOrder, Sizes;
  }

  // ----- the sampler

  /** The state of a sampler, as a value. */
  datatype Sampling = Sampling(totalBytesSent: nat, totalBytesAcked: nat, totalBytesLost: nat, sentAtLastAcked: nat,
                               lastAckedSentTime: int, lastAckedAckTime: int, lastSendPacket: nat, isAppLimited: bool,
                               endOfAppLimitedPhase: nat, stats: map<nat, ConnectionState>)

  /** What a sampler makes of one event. */
  function After(s: Sampling, e: Event): Sampling {
    match e
    case Sent(sentTime, pn, bytes, bytesInFlight, retransmittable) =>
      if retransmittable then TrackedBy(s, sentTime, pn, bytes, bytesInFlight) else s.(lastSendPacket := pn)
    case Acked(ackTime, pn) => if pn in s.stats then AckedBy(s, ackTime, pn) else s
    case Lost(pn) =>
      if pn in s.stats then s.(totalBytesLost := s.totalBytesLost + s.stats[pn].size, stats := s.stats - {pn}) else s
    case AppLimited => s.(isAppLimited := true, endOfAppLimitedPhase := s.lastSendPacket)
  }

  // Rates are counted anew from a packet that finds nothing in flight.
  function TrackedBy(s: Sampling, sentTime: int, pn: nat, bytes: nat, bytesInFlight: nat): Sampling {
    var sent := s.totalBytesSent + bytes;
    var t := s.(totalBytesSent := sent, lastSendPacket := pn);
    var u := if bytesInFlight == 0 then
               t.(sentAtLastAcked := sent, lastAckedSentTime := sentTime, lastAckedAckTime := sentTime)
             else t;
    if pn in s.stats then u
    else
      var state := SendTimeState(true, s.isAppLimited, sent, s.totalBytesAcked, s.totalBytesLost);
      u.(stats := s.stats[pn := ConnectionState(sentTime, bytes, u.sentAtLastAcked, u.lastAckedSentTime,
                                                u.lastAckedAckTime, state)])
  }

  function AckedBy(s: Sampling, ackTime: int, pn: nat): Sampling
    requires pn in s.stats
  {
    var st := s.stats[pn];
    s.(totalBytesAcked := s.totalBytesAcked + st.size, sentAtLastAcked := st.sendTimeState.totalBytesSent,
       lastAckedSentTime := st.sendTime, lastAckedAckTime := ackTime,
       isAppLimited := s.isAppLimited && pn <= s.endOfAppLimitedPhase, stats := s.stats - {pn})
  }

  /** The sample that the ACK of a packet yields. */
  function SampleOf(s: Sampling, ackTime: int, pn: nat): BandwidthSample {
    if pn in s.stats && Recorded(s.stats[pn], s.totalBytesSent, s.totalBytesAcked + s.stats[pn].size, s.totalBytesLost)
    then SampleFor(s.stats[pn], ackTime, s.totalBytesSent, s.totalBytesAcked + s.stats[pn].size, s.totalBytesLost)
    else NO_SAMPLE
  }

  class BandwidthSampler {
    var totalBytesSent: nat
    var totalBytesAcked: nat
    var totalBytesLost: nat
    var totalBytesSentAtLastAckedPacket: nat
    var lastAckedPacketSentTime: int
    var lastAckedPacketAckTime: int
    var lastSendPacket: nat
    var isAppLimited: bool
    var endOfAppLimitedPhase: nat
    var stats: map<nat, ConnectionState>

    ghost var history: seq<Event>   // what has happened so far

    ghost predicate Valid()
      reads this
    {
      Consistent(history, stats, totalBytesSent, totalBytesAcked, totalBytesLost, totalBytesSentAtLastAckedPacket,
                 lastSendPacket, isAppLimited, endOfAppLimitedPhase)
    }

    function Look(): Sampling
      reads this
    {
      Sampling(totalBytesSent, totalBytesAcked, totalBytesLost, totalBytesSentAtLastAckedPacket,
               lastAckedPacketSentTime, lastAckedPacketAckTime, lastSendPacket, isAppLimited, endOfAppLimitedPhase,
               stats)
    }

    constructor ()
      ensures Valid() && history == [] && stats == map[] && lastSendPacket == 0 && !isAppLimited
      ensures totalBytesSent == totalBytesAcked == totalBytesLost == 0
      ensures Look() == Sampling(0, 0, 0, 0, 0, 0, 0, false, 0, map[])
    {
      hide Consistent, After;
      ConsistentEmpty();
      totalBytesSent, totalBytesAcked, totalBytesLost, totalBytesSentAtLastAckedPacket := 0, 0, 0, 0;
      lastAckedPacketSentTime, lastAckedPacketAckTime, lastSendPacket := 0, 0, 0;
      isAppLimited, endOfAppLimitedPhase, stats, history := false, 0, map[], [];
    }

    /** The totals are those of the run so far. */
    lemma Totals()
      requires Valid()
      ensures Sizes(stats) == SizesAfter(history)
      ensures totalBytesSent == BytesSent(history)
      ensures totalBytesAcked == AckedBytes(history) && totalBytesLost == LostBytes(history)
      ensures BytesSent(history) == totalBytesAcked + totalBytesLost + Tracked(stats) + RepeatedBytes(history)
      ensures InOrder(history) ==> RepeatedBytes(history) == 0
    {
    }

    lemma InBounds()
      requires Valid()
      ensures totalBytesSentAtLastAckedPacket <= totalBytesSent
    {
    }

    lemma Known(pn: nat)
      requires Valid() && pn in stats
      ensures stats[pn].sendTimeState.totalBytesSent <= totalBytesSent
      ensures InOrder(history) && isAppLimited && endOfAppLimitedPhase < pn ==> stats[pn].sendTimeState.isAppLimited
    {
      assert Recorded(stats[pn], totalBytesSent, totalBytesAcked, totalBytesLost);
    }

    /** A packet without retransmittable data is only numbered; any other counts as sent and is tracked from then on. */
    method OnPacketSent(sentTime: int, pn: nat, sentBytes: nat, bytesInFlight: nat, hasRetransmittableData: bool)
      requires Valid()
      modifies this
      ensures Valid() &&
                history == old(history) + [Sent(sentTime, pn, sentBytes, bytesInFlight, hasRetransmittableData)]
      ensures totalBytesSent == old(totalBytesSent) + if hasRetransmittableData then sentBytes else 0
      ensures totalBytesAcked == old(totalBytesAcked) && totalBytesLost == old(totalBytesLost)
      ensures !hasRetransmittableData ==> stats == old(stats)
      ensures hasRetransmittableData ==>
                stats == if pn in old(stats) then old(stats) else old(stats)[pn := Snapshot(sentTime, sentBytes)]
      ensures hasRetransmittableData && bytesInFlight == 0 ==>
                && totalBytesSentAtLastAckedPacket == totalBytesSent
                && lastAckedPacketSentTime == lastAckedPacketAckTime == sentTime
      ensures isAppLimited == old(isAppLimited) && lastSendPacket == pn
      ensures Look() == After(old(Look()), Sent(sentTime, pn, sentBytes, bytesInFlight, hasRetransmittableData))
    {
      hide Consistent;
      ghost var e := Sent(sentTime, pn, sentBytes, bytesInFlight, hasRetransmittableData);
      if hasRetransmittableData {
        Track(sentTime, pn, sentBytes, bytesInFlight);
      } else {
        ConsistentUnsent(history, stats, totalBytesSent, totalBytesAcked, totalBytesLost,
            totalBytesSentAtLastAckedPacket,
                         lastSendPacket, isAppLimited, endOfAppLimitedPhase, e);
        lastSendPacket, history := pn, history + [e];
      }
    }

    /** The state of the connection as a packet records it when it is sent. */
    function Snapshot(sentTime: int, size: nat): ConnectionState
      reads this
    {
      ConnectionState(sentTime, size, totalBytesSentAtLastAckedPacket, lastAckedPacketSentTime, lastAckedPacketAckTime,
                      SendTimeState(true, isAppLimited, totalBytesSent, totalBytesAcked, totalBytesLost))
    }

    // OnPacketSent for retransmittable data.
    method Track(sentTime: int, pn: nat, sentBytes: nat, bytesInFlight: nat)
      requires Valid()
      modifies this`totalBytesSent, this`stats, this`totalBytesSentAtLastAckedPacket, this`lastAckedPacketSentTime
      modifies this`lastAckedPacketAckTime, this`lastSendPacket, this`history
      ensures Valid() && history == old(history) + [Sent(sentTime, pn, sentBytes, bytesInFlight, true)]
      ensures totalBytesSent == old(totalBytesSent) + sentBytes && lastSendPacket == pn
      ensures stats == if pn in old(stats) then old(stats) else old(stats)[pn := Snapshot(sentTime, sentBytes)]
      ensures bytesInFlight == 0 ==>
                && totalBytesSentAtLastAckedPacket == totalBytesSent
                && lastAckedPacketSentTime == lastAckedPacketAckTime == sentTime
      ensures Look() == TrackedBy(old(Look()), sentTime, pn, sentBytes, bytesInFlight)
    {
      hide Consistent;
      InBounds();
      ghost var e := Sent(sentTime, pn, sentBytes, bytesInFlight, true);
      ghost var sentAtLastAcked, last := totalBytesSentAtLastAckedPacket, lastSendPacket;
      lastSendPacket := pn;
      totalBytesSent := totalBytesSent + sentBytes;
      if bytesInFlight == 0 {
        lastAckedPacketAckTime := sentTime;
        totalBytesSentAtLastAckedPacket := totalBytesSent;
        lastAckedPacketSentTime := sentTime;
      }
      var st := Snapshot(sentTime, sentBytes);
      ConsistentSent(history, stats, totalBytesSent - sentBytes, totalBytesAcked, totalBytesLost, sentAtLastAcked, last,
                     isAppLimited, endOfAppLimitedPhase, e, st, totalBytesSentAtLastAckedPacket);
      stats := if pn in stats then stats else stats[pn := st];
      history := history + [e];
    }

    /** A tracked packet yields a sample bounded by both rates; it is no longer tracked and its bytes count as acked.
        The first packet acked that was sent after the app-limited phase began is itself marked and ends the phase. */
    method OnPacketAckedInner(ackTime: int, pn: nat) returns (s: BandwidthSample)
      requires Valid() && pn in stats
      modifies this`totalBytesAcked, this`totalBytesSentAtLastAckedPacket, this`lastAckedPacketSentTime
      modifies this`lastAckedPacketAckTime, this`isAppLimited, this`stats, this`history
      ensures Valid() && stats == old(stats) - {pn} && history == old(history) + [Acked(ackTime, pn)]
      ensures totalBytesAcked == old(totalBytesAcked) + old(stats)[pn].size
      ensures totalBytesSentAtLastAckedPacket == old(stats)[pn].sendTimeState.totalBytesSent
      ensures lastAckedPacketSentTime == old(stats)[pn].sendTime && lastAckedPacketAckTime == ackTime
      ensures Recorded(old(stats)[pn], totalBytesSent, totalBytesAcked, totalBytesLost)
      ensures s == SampleFor(old(stats)[pn], ackTime, totalBytesSent, totalBytesAcked, totalBytesLost)
      ensures s.rtt.Some? <==> old(stats)[pn].lastAckedPacketSentTime != 0
                               && old(stats)[pn].lastAckedPacketAckTime < ackTime
      ensures s.rtt.Some? ==>
                && Bounded(s, old(stats)[pn], ackTime, totalBytesAcked)
                && Tight(s, old(stats)[pn], ackTime, totalBytesAcked)
                && s.stateAtSend == old(stats)[pn].sendTimeState && s.rtt.value == ackTime - old(stats)[pn].sendTime
      ensures s.rtt == None ==> s == NO_SAMPLE
      ensures isAppLimited <==> old(isAppLimited) && pn <= endOfAppLimitedPhase
      ensures s.rtt.Some? && InOrder(old(history)) && old(isAppLimited) && endOfAppLimitedPhase < pn ==>
                s.stateAtSend.isAppLimited && !isAppLimited
      ensures Look() == AckedBy(old(Look()), ackTime, pn)
    {
      hide Bounded, Tight, SampleFor, Consistent, Recorded, InOrder;
      var st := stats[pn];
      Known(pn);
      ghost var e := Acked(ackTime, pn);
      var phase := isAppLimited && pn <= endOfAppLimitedPhase;
      ConsistentGone(history, stats, totalBytesSent, totalBytesAcked, totalBytesLost, totalBytesSentAtLastAckedPacket,
                     lastSendPacket, isAppLimited, endOfAppLimitedPhase, e, st.sendTimeState.totalBytesSent, phase);
      var acked := totalBytesAcked + st.size;
      SampleBounded(st, ackTime, totalBytesSent, acked, totalBytesLost);
      s := SampleFor(st, ackTime, totalBytesSent, acked, totalBytesLost);
      totalBytesAcked, totalBytesSentAtLastAckedPacket := acked, st.sendTimeState.totalBytesSent;
      lastAckedPacketSentTime, lastAckedPacketAckTime := st.sendTime, ackTime;
      isAppLimited, stats, history := phase, stats - {pn}, history + [e];
    }

    method OnPacketAcked(ackTime: int, pn: nat) returns (s: BandwidthSample)
      requires Valid()
      modifies this`totalBytesAcked, this`totalBytesSentAtLastAckedPacket, this`lastAckedPacketSentTime
      modifies this`lastAckedPacketAckTime, this`isAppLimited, this`stats, this`history
      ensures Valid() && stats == old(stats) - {pn} && history == old(history) + [Acked(ackTime, pn)]
      ensures totalBytesAcked == old(totalBytesAcked) + if pn in old(stats) then old(stats)[pn].size else 0
      ensures pn !in old(stats) || s.rtt == None ==> s == NO_SAMPLE
      ensures pn in old(stats) ==>
                (s.rtt.Some? <==> old(stats)[pn].lastAckedPacketSentTime != 0
                                  && old(stats)[pn].lastAckedPacketAckTime < ackTime)
      ensures pn in old(stats) && s.rtt.Some? ==>
                && Bounded(s, old(stats)[pn], ackTime, totalBytesAcked)
                && Tight(s, old(stats)[pn], ackTime, totalBytesAcked)
                && s.stateAtSend == old(stats)[pn].sendTimeState && s.rtt.value == ackTime - old(stats)[pn].sendTime
      ensures isAppLimited <==> old(isAppLimited) && (pn in old(stats) ==> pn <= endOfAppLimitedPhase)
      ensures Look() == After(old(Look()), Acked(ackTime, pn)) && s == SampleOf(old(Look()), ackTime, pn)
    {
      hide Bounded, Tight, Consistent;
      if pn !in stats {
        ConsistentUnknown(history, stats, totalBytesSent, totalBytesAcked, totalBytesLost,
            totalBytesSentAtLastAckedPacket,
                          lastSendPacket, isAppLimited, endOfAppLimitedPhase, Acked(ackTime, pn));
        history := history + [Acked(ackTime, pn)];
        return NO_SAMPLE;
      }
      s := OnPacketAckedInner(ackTime, pn);
    }

    method OnPacketLost(pn: nat) returns (s: SendTimeState)
      requires Valid()
      modifies this`totalBytesLost, this`stats, this`history
      ensures Valid() && stats == old(stats) - {pn} && history == old(history) + [Lost(pn)]
      ensures s == if pn in old(stats) then old(stats)[pn].sendTimeState else NO_STATE
      ensures totalBytesLost == old(totalBytesLost) + if pn in old(stats) then old(stats)[pn].size else 0
      ensures Look() == After(old(Look()), Lost(pn))
    {
      hide Consistent;
      InBounds();
      if pn !in stats {
        ConsistentUnknown(history, stats, totalBytesSent, totalBytesAcked, totalBytesLost,
            totalBytesSentAtLastAckedPacket,
                          lastSendPacket, isAppLimited, endOfAppLimitedPhase, Lost(pn));
        history := history + [Lost(pn)];
        return NO_STATE;
      }
      s := stats[pn].sendTimeState;
      ConsistentGone(history, stats, totalBytesSent, totalBytesAcked, totalBytesLost, totalBytesSentAtLastAckedPacket,
                     lastSendPacket, isAppLimited, endOfAppLimitedPhase, Lost(pn), totalBytesSentAtLastAckedPacket,
                         isAppLimited);
      totalBytesLost, stats, history := totalBytesLost + stats[pn].size, stats - {pn}, history + [Lost(pn)];
    }

    method OnAppLimited()
      requires Valid()
      modifies this`isAppLimited, this`endOfAppLimitedPhase, this`history
      ensures Valid() && isAppLimited && endOfAppLimitedPhase == lastSendPacket
      ensures history == old(history) + [AppLimited] && Look() == After(old(Look()), AppLimited)
    {
      hide Consistent;
      ConsistentLimited(history, stats, totalBytesSent, totalBytesAcked, totalBytesLost,
          totalBytesSentAtLastAckedPacket,
                        lastSendPacket, isAppLimited, endOfAppLimitedPhase);
      isAppLimited, endOfAppLimitedPhase, history := true, lastSendPacket, history + [AppLimited];
    }
  }

  // ----- whole runs

  /** Whatever is sent, acked or declared lost, in any order and any number of times: each packet counts once, as
      acked or as lost, with the size it was sent with, and what was sent is what is acked, lost and still tracked;
      bytes sent under a number still in use, which are none if packets are sent in the order of their numbers, stay
      out. */
  method Run(es: seq<Event>) returns (acked: nat, lost: nat, stats: map<nat, ConnectionState>)
    ensures acked == AckedBytes(es) && lost == LostBytes(es) && Sizes(stats) == SizesAfter(es)
    ensures BytesSent(es) == acked + lost + Tracked(stats) + RepeatedBytes(es)
    ensures InOrder(es) ==> RepeatedBytes(es) == 0
  {
    var sampler := new BandwidthSampler();
    for i := 0 to |es|
      invariant sampler.Valid() && fresh(sampler) && sampler.history == es[..i]
    {
      hide BandwidthSampler.Valid;
      assert es[..i+1] == es[..i] + [es[i]];
      match es[i] {
        case Sent(sentTime, pn, bytes, bytesInFlight, retransmittable) =>
          sampler.OnPacketSent(sentTime, pn, bytes, bytesInFlight, retransmittable);
        case Acked(ackTime, pn) =>
          var _ := sampler.OnPacketAcked(ackTime, pn);
        case Lost(pn) =>
          var _ := sampler.OnPacketLost(pn);
        case AppLimited =>
          sampler.OnAppLimited();
      }
    }
    assert es[..|es|] == es;
    sampler.Totals();
    acked, lost, stats := sampler.totalBytesAcked, sampler.totalBytesLost, sampler.stats;
  }
}
