/** The bookkeeping argument behind internal/ackhandler/sent_packet_handler.go, on plain tables.

    One packet-number space is a table `m` of tracked packets, a list `pending` of packets taken out for
    retransmission (the one being re-sent right now, then the retransmission queue), and two sets of units:
    everything ever `sent` and everything `acked`.  `Ledger` is the invariant; each lemma below is one step
    of the handler. */
module RetransmissionLedgers {
  import opened Common
  import opened SentPacketHistories

  type Tracked = map<nat, Packet>

  // ----- retransmission links

  ghost predicate LinkOk(m: Tracked, p: nat, c: nat)
    requires p in m
  {
    && c in m && p < c
    && m[c].isRetransmission && m[c].retransmissionOf == p
    && m[c].units <= m[p].units
  }

  ghost predicate LinksDown(m: Tracked) {
    forall p, c :: p in m && c in m[p].retransmittedAs ==> LinkOk(m, p, c)
  }

  ghost predicate LinksUp(m: Tracked) {
    forall c :: c in m && m[c].isRetransmission && m[c].retransmissionOf in m ==>
        c in m[m[c].retransmissionOf].retransmittedAs
  }

  /** Packet b is reached from packet a by following retransmission links, in n steps. */
  ghost predicate Descends(m: Tracked, a: nat, b: nat, n: nat)
    decreases n
  {
    && a in m
    && if n == 0 then a == b else exists c :: c in m[a].retransmittedAs && Descends(m, c, b, n-1)
  }

  ghost predicate Descendant(m: Tracked, a: nat, b: nat) {
    exists n: nat :: Descends(m, a, b, n)
  }

  lemma {:induction false} DescendsBelow(m: Tracked, a: nat, b: nat, n: nat)
    requires LinksDown(m) && Descends(m, a, b, n)
    ensures b in m && a <= b && m[b].units <= m[a].units
    decreases n
  {
    if n > 0 {
      var c :| c in m[a].retransmittedAs && Descends(m, c, b, n-1);
      assert LinkOk(m, a, c);
      DescendsBelow(m, c, b, n-1);
    }
  }

  lemma {:induction false} DescendsSameLinks(m: Tracked, m': Tracked, a: nat, b: nat, n: nat)
    requires m.Keys == m'.Keys && forall k :: k in m ==> m[k].retransmittedAs == m'[k].retransmittedAs
    ensures Descends(m, a, b, n) <==> Descends(m', a, b, n)
    decreases n
  {
    if n > 0 && a in m {
      forall c | c in m[a].retransmittedAs ensures Descends(m, c, b, n-1) <==> Descends(m', c, b, n-1) {
        DescendsSameLinks(m, m', c, b, n-1);
      }
    }
  }

  lemma DescendantSameLinks(m: Tracked, m': Tracked, a: nat, b: nat)
    requires m.Keys == m'.Keys && forall k :: k in m ==> m[k].retransmittedAs == m'[k].retransmittedAs
    ensures Descendant(m, a, b) <==> Descendant(m', a, b)
  {
    forall n: nat ensures Descends(m, a, b, n) <==> Descends(m', a, b, n) {
      DescendsSameLinks(m, m', a, b, n);
    }
  }

  /** A descendant is the packet itself or a descendant of one of its retransmissions. */
  lemma DescendantUnfold(m: Tracked, a: nat, b: nat)
    requires a in m
    ensures Descendant(m, a, b) <==> a == b || exists c :: c in m[a].retransmittedAs && Descendant(m, c, b)
  {
    if Descendant(m, a, b) {
      var n: nat :| Descends(m, a, b, n);
      if n > 0 {
        var c :| c in m[a].retransmittedAs && Descends(m, c, b, n-1);
        assert Descendant(m, c, b);
      }
    }
    if a == b {
      assert Descends(m, a, b, 0);
    }
    if c :| c in m[a].retransmittedAs && Descendant(m, c, b) {
      var n: nat :| Descends(m, c, b, n);
      assert Descends(m, a, b, n + 1);
    }
  }

  /** The table after acknowledging pn has stopped the retransmission of everything that repeats it. */
  ghost function Stopped(m: Tracked, pn: nat): Tracked {
    map k | k in m :: if Descendant(m, pn, k) then m[k].(canBeRetransmitted := false) else m[k]
  }

  // ----- the invariant of one space

  /** Numbers this space has used: the ones sent, and the ones from before it was recreated by a Retry. */
  predicate Used(first: nat, largestSent: int, pn: nat) {
    pn < first || pn <= largestSent
  }

  ghost predicate PacketOk(p: Packet, k: nat, level: EncLevel, first: nat, largestSent: int) {
    && p.pn == k && p.level == level && p.includedInBytesInFlight && p.units != {}
    && first <= k <= largestSent
    && (p.canBeRetransmitted ==> p.retransmittedAs == [])
    && (p.isRetransmission ==> p.retransmissionOf < k)
  }

  ghost predicate Shape(m: Tracked, level: EncLevel, first: nat, largestSent: int) {
    && (forall k :: k in m ==> PacketOk(m[k], k, level, first, largestSent))
    && (forall a, b :: a in m && b in m && a < b ==> m[a].sendTime <= m[b].sendTime)
  }

  ghost predicate PendingOk(m: Tracked, level: EncLevel, first: nat, largestSent: int, q: Packet) {
    && q.level == level && q.units != {}
    && Used(first, largestSent, q.pn)
    && (q.pn in m ==> m[q.pn].units == q.units && !m[q.pn].canBeRetransmitted && m[q.pn].retransmittedAs == [])
  }

  ghost predicate AllPendingOk(m: Tracked, level: EncLevel, first: nat, largestSent: int, pending: seq<Packet>) {
    && (forall i :: 0 <= i < |pending| ==> PendingOk(m, level, first, largestSent, pending[i]))
    && (forall i, j :: 0 <= i < j < |pending| ==> pending[i].pn != pending[j].pn)
  }

  ghost predicate Live(m: Tracked, u: nat) {
    exists k :: k in m && m[k].canBeRetransmitted && u in m[k].units
  }

  ghost predicate Awaiting(pending: seq<Packet>, u: nat) {
    exists i :: 0 <= i < |pending| && u in pending[i].units
  }

  /** No unit is forgotten: it was acknowledged, or a packet that may still be retransmitted carries it, or it
      is waiting to be sent again. */
  ghost predicate NothingForgotten(m: Tracked, pending: seq<Packet>, sent: set<nat>, acked: set<nat>) {
    forall u :: u in sent ==> u in acked || Live(m, u) || Awaiting(pending, u)
  }

  /** Nothing is tracked, pending or acknowledged that was not sent. */
  ghost predicate OnlySent(m: Tracked, pending: seq<Packet>, sent: set<nat>, acked: set<nat>) {
    && acked <= sent
    && (forall k :: k in m ==> m[k].units <= sent)
    && (forall i :: 0 <= i < |pending| ==> pending[i].units <= sent)
  }

  ghost predicate Ledger(m: Tracked, level: EncLevel, first: nat, largestSent: int,
                         pending: seq<Packet>, sent: set<nat>, acked: set<nat>)
  {
    && Shape(m, level, first, largestSent)
    && LinksDown(m) && LinksUp(m)
    && AllPendingOk(m, level, first, largestSent, pending)
    && NothingForgotten(m, pending, sent, acked)
    && OnlySent(m, pending, sent, acked)
  }

  // ----- sending

  /** What the handler demands of a packet it is told about: a number not used before, a send time that does
      not go back, no retransmission history of its own. */
  ghost predicate Fresh(m: Tracked, level: EncLevel, first: nat, largestSent: int, p: Packet) {
    && p.level == level && first <= p.pn && largestSent < p.pn
    && p.units != {} && p.canBeRetransmitted && p.includedInBytesInFlight && p.retransmittedAs == [] &&
       !p.isRetransmission
    && forall k :: k in m ==> m[k].sendTime <= p.sendTime
  }

  lemma SendKeepsLedger(m: Tracked, level: EncLevel, first: nat, largestSent: int,
                        pending: seq<Packet>, sent: set<nat>, acked: set<nat>, p: Packet)
    requires Ledger(m, level, first, largestSent, pending, sent, acked)
    requires Fresh(m, level, first, largestSent, p)
    ensures Ledger(m[p.pn := p], level, first, p.pn, pending, sent + p.units, acked)
  {
    var m' := m[p.pn := p];
    assert Shape(m', level, first, p.pn);
    assert LinksDown(m') by {
      forall a, c | a in m' && c in m'[a].retransmittedAs ensures LinkOk(m', a, c) {
        assert LinkOk(m, a, c);
      }
    }
    forall u | u in sent + p.units ensures u in acked || Live(m', u) || Awaiting(pending, u) {
      if u in p.units {
        assert m'[p.pn].canBeRetransmitted;
      } else if Live(m, u) {
        var k :| k in m && m[k].canBeRetransmitted && u in m[k].units;
        assert m'[k] == m[k];
      }
    }
  }

  // ----- queueing for retransmission

  lemma QueueKeepsLedger(m: Tracked, level: EncLevel, first: nat, largestSent: int,
                         pending: seq<Packet>, sent: set<nat>, acked: set<nat>, pn: nat)
    requires Ledger(m, level, first, largestSent, pending, sent, acked)
    requires pn in m && m[pn].canBeRetransmitted
    ensures var q := m[pn].(canBeRetransmitted := false);
            Ledger(m[pn := q], level, first, largestSent, pending + [q], sent, acked)
  {
    var q := m[pn].(canBeRetransmitted := false);
    var m', pending' := m[pn := q], pending + [q];
    assert LinksDown(m') by {
      forall a, c | a in m' && c in m'[a].retransmittedAs ensures LinkOk(m', a, c) {
        assert LinkOk(m, a, c);
      }
    }
    assert AllPendingOk(m', level, first, largestSent, pending') by {
      forall i | 0 <= i < |pending'| ensures PendingOk(m', level, first, largestSent, pending'[i]) {
        assert i < |pending| ==> PendingOk(m, level, first, largestSent, pending[i]);
      }
    }
    forall u | u in sent ensures u in acked || Live(m', u) || Awaiting(pending', u) {
      if u in q.units {
        assert u in pending'[|pending|].units;
      } else if Live(m, u) {
        var k :| k in m && m[k].canBeRetransmitted && u in m[k].units;
        assert m'[k] == m[k];
      } else if Awaiting(pending, u) {
        var i :| 0 <= i < |pending| && u in pending[i].units;
        assert pending'[i] == pending[i];
      }
    }
  }

  // ----- declaring the oldest packet lost

  /** Dropping the lowest tracked packet breaks no link: retransmissions have higher numbers. */
  lemma DropLowestKeepsLedger(m: Tracked, level: EncLevel, first: nat, largestSent: int,
                              pending: seq<Packet>, sent: set<nat>, acked: set<nat>, pn: nat)
    requires Ledger(m, level, first, largestSent, pending, sent, acked)
    requires pn in m && !m[pn].canBeRetransmitted
    requires forall k :: k in m ==> pn <= k
    ensures Ledger(m - {pn}, level, first, largestSent, pending, sent, acked)
  {
    var m' := m - {pn};
    assert LinksDown(m') by {
      forall a, c | a in m' && c in m'[a].retransmittedAs ensures LinkOk(m', a, c) {
        assert LinkOk(m, a, c);
      }
    }
    forall u | u in sent ensures u in acked || Live(m', u) || Awaiting(pending, u) {
      if Live(m, u) {
        var k :| k in m && m[k].canBeRetransmitted && u in m[k].units;
        assert m'[k] == m[k];
      }
    }
  }

  // ----- acknowledging

  /** onPacketAcked takes the packet out of its parent's list of retransmissions. */
  function WithoutChild(cs: seq<nat>, pn: nat): seq<nat> {
    if |cs| == 1 then [] else Filter(cs, pn)
  }

  function Filter(cs: seq<nat>, pn: nat): seq<nat> {
    if cs == [] then [] else if cs[0] == pn then Filter(cs[1..], pn) else [cs[0]] + Filter(cs[1..], pn)
  }

  lemma {:induction false} FilterIs(cs: seq<nat>, pn: nat)
    ensures forall c :: c in Filter(cs, pn) <==> c in cs && c != pn
  {
    if cs != [] {
      FilterIs(cs[1..], pn);
      assert forall c :: c in cs <==> c == cs[0] || c in cs[1..];
    }
  }

  function Unlinked(m: Tracked, pn: nat): Tracked
    requires pn in m
  {
    var p := m[pn];
    if p.isRetransmission && p.retransmissionOf in m then
      var parent := m[p.retransmissionOf];
      m[p.retransmissionOf := parent.(retransmittedAs := WithoutChild(parent.retransmittedAs, pn))]
    else m
  }

  // Taking pn out of its parent's list leaves all other links alone, and no list mentions pn any more.
  lemma UnlinkKeepsLinks(m: Tracked, pn: nat)
    requires LinksDown(m) && LinksUp(m) && pn in m
    requires forall k :: k in m && m[k].isRetransmission ==> m[k].retransmissionOf < k
    ensures var m' := Unlinked(m, pn);
            && m'.Keys == m.Keys
            && LinksDown(m')
            && (forall k :: k in m ==> m'[k] == m[k].(retransmittedAs := m'[k].retransmittedAs))
            && (forall k :: k in m && m[k].retransmittedAs == [] ==> m'[k].retransmittedAs == [])
            && (forall k :: k in m ==> pn !in m'[k].retransmittedAs)
            && (forall k, c :: k in m && c in m[k].retransmittedAs && c != pn ==> c in m'[k].retransmittedAs)
            && (forall k, c :: k in m && c in m'[k].retransmittedAs ==> c in m[k].retransmittedAs)
  {
    var m' := Unlinked(m, pn);
    forall k | k in m ensures forall c :: c in m'[k].retransmittedAs <==> c in m[k].retransmittedAs && c != pn {
      FilterIs(m[k].retransmittedAs, pn);
      if pn in m[k].retransmittedAs {
        assert LinkOk(m, k, pn);
      }
    }
    forall a, c | a in m' && c in m'[a].retransmittedAs ensures LinkOk(m', a, c) {
      assert LinkOk(m, a, c);
    }
  }

  /** The space after one packet is acknowledged. */
  ghost function Acked(m: Tracked, pn: nat): Tracked
    requires pn in m
  {
    Stopped(Unlinked(m, pn), pn) - {pn}
  }

  // Packet by packet, acknowledging only clears flags and shortens lists of retransmissions.
  lemma AckedPackets(m: Tracked, pn: nat)
    requires LinksDown(m) && LinksUp(m) && pn in m
    requires forall k :: k in m && m[k].isRetransmission ==> m[k].retransmissionOf < k
    ensures var m' := Acked(m, pn);
            && m'.Keys == m.Keys - {pn}
            && (forall k :: k in m' ==>
               m'[k] == m[k].(retransmittedAs := m'[k].retransmittedAs, canBeRetransmitted := m'[k].canBeRetransmitted))
            && (forall k :: k in m' ==>
               (m'[k].canBeRetransmitted <==> m[k].canBeRetransmitted && !Descendant(Unlinked(m, pn), pn, k)))
            && (forall k :: k in m' && m[k].retransmittedAs == [] ==> m'[k].retransmittedAs == [])
            && (forall k, c :: k in m' ==>
               (c in m'[k].retransmittedAs <==> c in m[k].retransmittedAs && c != pn))
  {
    UnlinkKeepsLinks(m, pn);
  }

  // Links from `low` on lead upwards, so what is below does not matter.
  lemma {:induction false} DescendsAbove(m: Tracked, m': Tracked, low: nat, a: nat, b: nat, n: nat)
    requires LinksDown(m) && low <= a && forall k :: low <= k ==> (k in m <==> k in m')
    requires forall k, c :: low <= k && k in m' ==> (c in m'[k].retransmittedAs <==> c in m[k].retransmittedAs)
    ensures Descends(m, a, b, n) <==> Descends(m', a, b, n)
    decreases n
  {
    if n > 0 && a in m {
      forall c | c in m[a].retransmittedAs ensures Descends(m, c, b, n-1) <==> Descends(m', c, b, n-1) {
        assert LinkOk(m, a, c);
        DescendsAbove(m, m', low, c, b, n-1);
      }
    }
  }

  lemma DescendantAbove(m: Tracked, m': Tracked, low: nat, b: nat)
    requires LinksDown(m) && forall k :: low <= k ==> (k in m <==> k in m')
    requires forall k, c :: low <= k && k in m' ==> (c in m'[k].retransmittedAs <==> c in m[k].retransmittedAs)
    ensures Descendant(m, low, b) <==> Descendant(m', low, b)
  {
    forall n: nat ensures Descends(m, low, b, n) <==> Descends(m', low, b, n) {
      DescendsAbove(m, m', low, low, b, n);
    }
  }

  lemma AckKeepsLinks(m: Tracked, pn: nat)
    requires LinksDown(m) && LinksUp(m) && pn in m
    requires forall k :: k in m && m[k].isRetransmission ==> m[k].retransmissionOf < k
    ensures LinksDown(Acked(m, pn)) && LinksUp(Acked(m, pn))
  {
    var u, m' := Unlinked(m, pn), Acked(m, pn);
    UnlinkKeepsLinks(m, pn);
    assert forall k :: k in m' ==> m'[k] == u[k].(canBeRetransmitted := m'[k].canBeRetransmitted);
    forall a, c | a in m' && c in m'[a].retransmittedAs ensures LinkOk(m', a, c) {
      assert LinkOk(u, a, c);
    }
  }

  lemma AckForgetsNothing(m: Tracked, pending: seq<Packet>, sent: set<nat>, acked: set<nat>, pn: nat)
    requires LinksDown(m) && LinksUp(m) && pn in m
    requires forall k :: k in m && m[k].isRetransmission ==> m[k].retransmissionOf < k
    requires NothingForgotten(m, pending, sent, acked)
    ensures NothingForgotten(Acked(m, pn), pending, sent, acked + m[pn].units)
  {
    var u, m' := Unlinked(m, pn), Acked(m, pn);
    UnlinkKeepsLinks(m, pn);
    AckedPackets(m, pn);
    forall x | x in sent ensures x in acked + m[pn].units || Live(m', x) || Awaiting(pending, x) {
      if Live(m, x) {
        var k :| k in m && m[k].canBeRetransmitted && x in m[k].units;
        if Descendant(u, pn, k) {
          var n: nat :| Descends(u, pn, k, n);
          DescendsBelow(u, pn, k, n);
        } else {
          assert Descends(u, pn, pn, 0);
          assert k in m' && m'[k].canBeRetransmitted && x in m'[k].units;
        }
      }
    }
  }

  /** Acknowledging a packet forgets nothing, although it stops all its retransmissions at once: what they
      carry is part of what the packet carried. */
  lemma AckKeepsLedger(m: Tracked, level: EncLevel, first: nat, largestSent: int,
                       pending: seq<Packet>, sent: set<nat>, acked: set<nat>, pn: nat)
    requires Ledger(m, level, first, largestSent, pending, sent, acked)
    requires pn in m
    ensures Ledger(Acked(m, pn), level, first, largestSent, pending, sent, acked + m[pn].units)
  {
    AckForgetsNothing(m, pending, sent, acked, pn);
    AckKeepsLinks(m, pn);
    AckedPackets(m, pn);
  }

  // ----- sending a packet again

  lemma TableCons(p: Packet, ps: seq<Packet>)
    ensures Table([p] + ps) == Table(ps)[p.pn := p]
  {
    assert ([p] + ps)[1..] == ps;
  }

  lemma IncreasingConcat(a: seq<Packet>, b: seq<Packet>)
    requires Increasing(a + b) && a != []
    ensures Increasing(a[1..] + b) && a + b == [a[0]] + (a[1..] + b)
    ensures forall i :: 0 <= i < |b| ==> a[0].pn < b[i].pn
  {
    assert a[1..] + b == (a + b)[1..];
    forall i | 0 <= i < |b| ensures a[0].pn < b[i].pn {
      assert (a + b)[0] == a[0] && (a + b)[|a| + i] == b[i];
    }
  }

  lemma {:induction false} TableConcat(a: seq<Packet>, b: seq<Packet>)
    requires Increasing(a + b)
    ensures Table(a + b) == Table(a) + Table(b)
  {
    if a == [] {
      assert a + b == b;
    } else {
      IncreasingConcat(a, b);
      TableConcat(a[1..], b);
      TableAbove(b, a[0].pn);
      assert a == [a[0]] + a[1..];
      hide Table, Increasing;
      TableCons(a[0], a[1..] + b);
      TableCons(a[0], a[1..]);
    }
  }

  function Again(m: Tracked, of: nat, pns: seq<nat>, n: Tracked): Tracked {
    (if of in m then m[of := m[of].(retransmittedAs := pns)] else m) + n
  }

  /** The packets a retransmission of d consists of: new numbers, in order of sending, each carrying part of
      what d carried and together all of it. */
  ghost predicate Replacements(m: Tracked, level: EncLevel, first: nat, largestSent: int, d: Packet,
                               n: Tracked, pns: seq<nat>, newLargest: int)
  {
    && largestSent <= newLargest
    && (forall k :: k in n <==> k in pns)
    && (forall k :: k in n ==>
       PacketOk(n[k], k, level, first, newLargest) && largestSent < k && n[k].canBeRetransmitted)
    && (forall k :: k in n ==> n[k].units <= d.units)
    && (forall k :: k in n ==>
       n[k].isRetransmission == (d.pn in m) && (n[k].isRetransmission ==> n[k].retransmissionOf == d.pn))
    && (forall a, b :: a in m && b in n ==> m[a].sendTime <= n[b].sendTime)
    && (forall a, b :: a in n && b in n && a < b ==> n[a].sendTime <= n[b].sendTime)
    && (forall u :: u in d.units ==> Live(n, u))
  }

  lemma AgainKeepsShape(m: Tracked, level: EncLevel, first: nat, largestSent: int, d: Packet,
                        n: Tracked, pns: seq<nat>, newLargest: int)
    requires Shape(m, level, first, largestSent) && PendingOk(m, level, first, largestSent, d)
    requires Replacements(m, level, first, largestSent, d, n, pns, newLargest)
    ensures Shape(Again(m, d.pn, pns, n), level, first, newLargest)
  {
    var m' := Again(m, d.pn, pns, n);
    forall k | k in m' ensures PacketOk(m'[k], k, level, first, newLargest) {
      assert k in n ==> PacketOk(n[k], k, level, first, newLargest);
      assert k in m ==> PacketOk(m[k], k, level, first, largestSent);
    }
    AgainKeepsTimes(m, level, first, largestSent, d, n, pns, newLargest);
  }

  lemma AgainKeepsTimes(m: Tracked, level: EncLevel, first: nat, largestSent: int, d: Packet,
                        n: Tracked, pns: seq<nat>, newLargest: int)
    requires Shape(m, level, first, largestSent)
    requires Replacements(m, level, first, largestSent, d, n, pns, newLargest)
    ensures var m' := Again(m, d.pn, pns, n); forall a, b :: a in m' && b in m' && a < b ==>
              m'[a].sendTime <= m'[b].sendTime
  {
    hide Live;
    NewNumbers(m, level, first, largestSent, d, n, pns, newLargest);
    var m' := Again(m, d.pn, pns, n);
    forall k | k in m' ensures m'[k].sendTime == if k in n then n[k].sendTime else m[k].sendTime {
    }
    forall a, b | a in m' && b in m' && a < b ensures m'[a].sendTime <= m'[b].sendTime {
      assert a in m ==> PacketOk(m[a], a, level, first, largestSent);
      assert b in m ==> PacketOk(m[b], b, level, first, largestSent);
    }
  }

  lemma AgainKeepsLinks(m: Tracked, level: EncLevel, first: nat, largestSent: int, d: Packet,
                        n: Tracked, pns: seq<nat>, newLargest: int)
    requires Shape(m, level, first, largestSent) && LinksDown(m) && LinksUp(m)
    requires PendingOk(m, level, first, largestSent, d)
    requires Replacements(m, level, first, largestSent, d, n, pns, newLargest)
    ensures LinksDown(Again(m, d.pn, pns, n)) && LinksUp(Again(m, d.pn, pns, n))
  {
    var m' := Again(m, d.pn, pns, n);
    NewNumbers(m, level, first, largestSent, d, n, pns, newLargest);
    forall a, c | a in m' && c in m'[a].retransmittedAs ensures LinkOk(m', a, c) {
      if a == d.pn {
        assert PacketOk(n[c], c, level, first, newLargest);
      } else if a !in n {
        assert LinkOk(m, a, c);
      }
    }
    forall c | c in m' && m'[c].isRetransmission && m'[c].retransmissionOf in m'
      ensures c in m'[m'[c].retransmissionOf].retransmittedAs
    {
      if c !in n {
        assert PacketOk(m[c], c, level, first, largestSent);
        assert c in m[m[c].retransmissionOf].retransmittedAs;
      }
    }
  }

  lemma AgainForgetsNothing(m: Tracked, d: Packet, rest: seq<Packet>, sent: set<nat>, acked: set<nat>, pns: seq<nat>,
                            n: Tracked)
    requires NothingForgotten(m, [d] + rest, sent, acked)
    requires m.Keys !! n.Keys && forall u :: u in d.units ==> Live(n, u)
    ensures NothingForgotten(Again(m, d.pn, pns, n), rest, sent, acked)
  {
    var m' := Again(m, d.pn, pns, n);
    forall u | u in sent ensures u in acked || Live(m', u) || Awaiting(rest, u) {
      if u in d.units {
        var k :| k in n && n[k].canBeRetransmitted && u in n[k].units;
        assert m'[k] == n[k];
      } else if Live(m, u) {
        var k :| k in m && m[k].canBeRetransmitted && u in m[k].units;
        assert m'[k].canBeRetransmitted && m'[k].units == m[k].units;
      } else if Awaiting([d] + rest, u) {
        var i :| 0 <= i < |[d] + rest| && u in ([d] + rest)[i].units;
        assert rest[i-1] == ([d] + rest)[i];
      }
    }
  }

  lemma AgainOnlySent(m: Tracked, d: Packet, rest: seq<Packet>, sent: set<nat>, acked: set<nat>, pns: seq<nat>,
                      n: Tracked)
    requires OnlySent(m, [d] + rest, sent, acked) && forall k :: k in n ==> n[k].units <= d.units
    ensures OnlySent(Again(m, d.pn, pns, n), rest, sent, acked)
  {
    assert ([d] + rest)[0] == d;
    forall i | 0 <= i < |rest| ensures rest[i].units <= sent {
      assert rest[i] == ([d] + rest)[i+1];
    }
  }

  lemma NewNumbers(m: Tracked, level: EncLevel, first: nat, largestSent: int, d: Packet, n: Tracked, pns: seq<nat>,
                   newLargest: int)
    requires Shape(m, level, first, largestSent) && Replacements(m, level, first, largestSent, d, n, pns, newLargest)
    ensures m.Keys !! n.Keys
  {
    forall k | k in m ensures k !in n {
      assert PacketOk(m[k], k, level, first, largestSent);
    }
  }

  lemma StillPending(m: Tracked, level: EncLevel, first: nat, largestSent: int, d: Packet, q: Packet,
                     n: Tracked, pns: seq<nat>, newLargest: int)
    requires PendingOk(m, level, first, largestSent, q) && q.pn != d.pn
    requires Replacements(m, level, first, largestSent, d, n, pns, newLargest)
    ensures PendingOk(Again(m, d.pn, pns, n), level, first, newLargest, q)
  {
    assert q.pn in n ==> PacketOk(n[q.pn], q.pn, level, first, newLargest);
  }

  lemma AgainKeepsPending(m: Tracked, level: EncLevel, first: nat, largestSent: int, d: Packet, rest: seq<Packet>,
                          n: Tracked, pns: seq<nat>, newLargest: int)
    requires AllPendingOk(m, level, first, largestSent, [d] + rest)
    requires Replacements(m, level, first, largestSent, d, n, pns, newLargest)
    ensures PendingOk(m, level, first, largestSent, d)
    ensures AllPendingOk(Again(m, d.pn, pns, n), level, first, newLargest, rest)
  {
    hide PendingOk, Replacements, Again;
    var all := [d] + rest;
    assert all[0] == d;
    forall i | 0 <= i < |rest| ensures PendingOk(Again(m, d.pn, pns, n), level, first, newLargest, rest[i]) {
      assert rest[i] == all[i+1] && PendingOk(m, level, first, largestSent, all[i+1]);
      StillPending(m, level, first, largestSent, d, rest[i], n, pns, newLargest);
    }
    forall i, j | 0 <= i < j < |rest| ensures rest[i].pn != rest[j].pn {
      assert all[i+1].pn != all[j+1].pn;
    }
  }

  lemma AgainKeepsLedger(m: Tracked, level: EncLevel, first: nat, largestSent: int, d: Packet, rest: seq<Packet>,
                         sent: set<nat>, acked: set<nat>, n: Tracked, pns: seq<nat>, newLargest: int)
    requires Ledger(m, level, first, largestSent, [d] + rest, sent, acked)
    requires Replacements(m, level, first, largestSent, d, n, pns, newLargest)
    ensures Ledger(Again(m, d.pn, pns, n), level, first, newLargest, rest, sent, acked)
  {
    AgainOnlySent(m, d, rest, sent, acked, pns, n);
    hide OnlySent, NothingForgotten, Shape, LinksDown, LinksUp, AllPendingOk, Again;
    AgainKeepsPending(m, level, first, largestSent, d, rest, n, pns, newLargest);
    AgainKeepsShape(m, level, first, largestSent, d, n, pns, newLargest);
    AgainKeepsLinks(m, level, first, largestSent, d, n, pns, newLargest);
    NewNumbers(m, level, first, largestSent, d, n, pns, newLargest);
    AgainForgetsNothing(m, d, rest, sent, acked, pns, n);
  }

  // ----- a Retry

  /** All Initial packets leave the history; the retransmittable ones, in order, join the queue. */
  function Retransmittable(ps: seq<Packet>): seq<Packet> {
    if ps == [] then [] else (if ps[0].canBeRetransmitted then [ps[0]] else []) + Retransmittable(ps[1..])
  }

  lemma {:induction false} RetransmittableTracked(ps: seq<Packet>)
    requires Increasing(ps)
    ensures forall i :: 0 <= i < |Retransmittable(ps)| ==> RetransmittableIn(ps, Retransmittable(ps)[i])
  {
    if ps != [] {
      RetransmittableTracked(ps[1..]);
      TableAbove(ps[1..], ps[0].pn);
      var rs := Retransmittable(ps[1..]);
      forall i | 0 <= i < |Retransmittable(ps)| ensures RetransmittableIn(ps, Retransmittable(ps)[i]) {
        var j := if ps[0].canBeRetransmitted then i - 1 else i;
        if 0 <= j {
          assert RetransmittableIn(ps[1..], rs[j]);
        }
      }
    }
  }

  ghost predicate RetransmittableIn(ps: seq<Packet>, q: Packet) {
    q.pn in Table(ps) && Table(ps)[q.pn] == q && q.canBeRetransmitted
  }

  lemma {:induction false} RetransmittableIncreasing(ps: seq<Packet>)
    requires Increasing(ps)
    ensures Increasing(Retransmittable(ps))
  {
    if ps != [] {
      RetransmittableIncreasing(ps[1..]);
      RetransmittableTracked(ps[1..]);
      TableAbove(ps[1..], ps[0].pn);
      var rs := Retransmittable(ps[1..]);
      assert forall i :: 0 <= i < |rs| ==> RetransmittableIn(ps[1..], rs[i]);
    }
  }

  lemma {:induction false} RetransmittableIndex(ps: seq<Packet>, pn: nat) returns (i: nat)
    requires pn in Table(ps) && Table(ps)[pn].canBeRetransmitted
    ensures i < |Retransmittable(ps)| && Retransmittable(ps)[i] == Table(ps)[pn]
  {
    if pn == ps[0].pn {
      i := 0;
    } else {
      i := RetransmittableIndex(ps[1..], pn);
      i := if ps[0].canBeRetransmitted then i + 1 else i;
    }
  }

  /** After the Retry the space starts over at a number above all used ones; nothing is forgotten. */
  lemma RetryKeepsLedger(ps: seq<Packet>, level: EncLevel, first: nat, largestSent: int,
                         pending: seq<Packet>, sent: set<nat>, acked: set<nat>, first': nat)
    requires Increasing(ps)
    requires Ledger(Table(ps), level, first, largestSent, pending, sent, acked)
    requires first <= first' && largestSent < first'
    ensures Ledger(map[], level, first', -1, pending + Retransmittable(ps), sent, acked)
  {
    var m, rs := Table(ps), Retransmittable(ps);
    var pending' := pending + rs;
    RetransmittableTracked(ps);
    RetransmittableIncreasing(ps);
    forall i | 0 <= i < |pending'| ensures PendingOk(map[], level, first', -1, pending'[i]) {
      if i < |pending| {
        assert PendingOk(m, level, first, largestSent, pending[i]);
      } else {
        assert RetransmittableIn(ps, rs[i - |pending|]);
      }
    }
    forall i, j | 0 <= i < j < |pending'| ensures pending'[i].pn != pending'[j].pn {
      if i < |pending| <= j {
        assert PendingOk(m, level, first, largestSent, pending[i]);
        assert RetransmittableIn(ps, rs[j - |pending|]);
      }
    }
    forall i | 0 <= i < |pending'| ensures pending'[i].units <= sent {
      if |pending| <= i {
        assert RetransmittableIn(ps, rs[i - |pending|]);
      }
    }
    forall u | u in sent ensures u in acked || Awaiting(pending', u) {
      if Live(m, u) {
        var k :| k in m && m[k].canBeRetransmitted && u in m[k].units;
        var i := RetransmittableIndex(ps, k);
        assert pending'[|pending| + i] == m[k];
      } else if Awaiting(pending, u) {
        var i :| 0 <= i < |pending| && u in pending[i].units;
        assert pending'[i] == pending[i];
      }
    }
  }
}
