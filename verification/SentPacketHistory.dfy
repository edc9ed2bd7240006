/** The packets a packet-number space still tracks (internal/ackhandler/sent_packet_history.go).

    The source keeps a doubly linked list, a map from packet number to list element, a counter of
    retransmittable packets and a pointer to the first of them.  An element of the list is named by
    its packet number here: `list` gives the order of the elements, `packetMap` their contents. */
module SentPacketHistories {

  import opened Common

  datatype EncLevel = Initial | Handshake | OneRtt

  /** A sent packet.  `units` is what its frames carry, cut down to indivisible pieces: one unit per
      control frame and one per stream byte, so that splitting a STREAM frame splits a set. */
  datatype Packet = Packet(
    pn: nat,
    level: EncLevel,
    units: set<nat>,
    length: nat,
    sendTime: int,
    canBeRetransmitted: bool,
    includedInBytesInFlight: bool,
    retransmittedAs: seq<nat>,
    isRetransmission: bool,
    retransmissionOf: nat)

  function FlightLength(p: Packet): nat {
    if p.includedInBytesInFlight then p.length else 0
  }

  function Weight(p: Packet): nat {
    if p.canBeRetransmitted then 1 else 0
  }

  // ----- what the fields have to agree with, computed from the plain list of tracked packets

  function CountOutstanding(ps: seq<Packet>): nat {
    if ps == [] then 0 else Weight(ps[0]) + CountOutstanding(ps[1..])
  }

  function FlightSize(ps: seq<Packet>): nat {
    if ps == [] then 0 else FlightLength(ps[0]) + FlightSize(ps[1..])
  }

  function FirstRetransmittable(ps: seq<Packet>): Option<nat> {
    if ps == [] then None
    else if ps[0].canBeRetransmitted then Some(ps[0].pn)
    else FirstRetransmittable(ps[1..])
  }

  function PacketNumbers(ps: seq<Packet>): seq<nat> {
    if ps == [] then [] else [ps[0].pn] + PacketNumbers(ps[1..])
  }

  function Table(ps: seq<Packet>): map<nat, Packet> {
    if ps == [] then map[] else Table(ps[1..])[ps[0].pn := ps[0]]
  }

  // Packet numbers strictly increase along the list.
  predicate Increasing(ps: seq<Packet>) {
    forall i, j :: 0 <= i < j < |ps| ==> ps[i].pn < ps[j].pn
  }

  lemma {:induction false} ConcatSums(a: seq<Packet>, b: seq<Packet>)
    ensures CountOutstanding(a + b) == CountOutstanding(a) + CountOutstanding(b)
    ensures FlightSize(a + b) == FlightSize(a) + FlightSize(b)
    ensures PacketNumbers(a + b) == PacketNumbers(a) + PacketNumbers(b)
    ensures FirstRetransmittable(a + b) ==
              if FirstRetransmittable(a).Some? then FirstRetransmittable(a) else FirstRetransmittable(b)
  {
    if a == [] {
      assert a + b == b;
    } else {
      assert (a + b)[1..] == a[1..] + b;
      ConcatSums(a[1..], b);
    }
  }

  lemma {:induction false} NumbersAt(ps: seq<Packet>)
    ensures |PacketNumbers(ps)| == |ps|
    ensures forall i :: 0 <= i < |ps| ==> PacketNumbers(ps)[i] == ps[i].pn
  {
    if ps != [] {
      NumbersAt(ps[1..]);
      assert forall i :: 0 < i < |ps| ==> ps[i] == ps[1..][i-1];
    }
  }

  // The table read from the list holds exactly the listed packets, each under its own number.
  lemma {:induction false} TableHas(ps: seq<Packet>, i: nat)
    requires Increasing(ps) && i < |ps|
    ensures ps[i].pn in Table(ps) && Table(ps)[ps[i].pn] == ps[i]
  {
    if i > 0 {
      TableHas(ps[1..], i-1);
    }
  }

  lemma TableAll(ps: seq<Packet>)
    requires Increasing(ps)
    ensures forall i :: 0 <= i < |ps| ==> ps[i].pn in Table(ps) && Table(ps)[ps[i].pn] == ps[i]
  {
    forall i | 0 <= i < |ps| ensures ps[i].pn in Table(ps) && Table(ps)[ps[i].pn] == ps[i] {
      TableHas(ps, i);
    }
  }

  lemma {:induction false} TableIndex(ps: seq<Packet>, pn: nat) returns (i: nat)
    requires Increasing(ps) && pn in Table(ps)
    ensures i < |ps| && ps[i].pn == pn && ps[i] == Table(ps)[pn]
  {
    if pn == ps[0].pn {
      i := 0;
    } else {
      i := TableIndex(ps[1..], pn);
      i := i + 1;
    }
  }

  lemma {:induction false} TableAbove(ps: seq<Packet>, low: int)
    requires forall i :: 0 <= i < |ps| ==> low < ps[i].pn
    ensures forall pn :: pn in Table(ps) ==> low < pn
  {
    if ps != [] {
      TableAbove(ps[1..], low);
    }
  }

  // ----- the three edits of the list

  lemma {:induction false} PushedTable(ps: seq<Packet>, p: Packet)
    requires forall i :: 0 <= i < |ps| ==> ps[i].pn < p.pn
    ensures Table(ps + [p]) == Table(ps)[p.pn := p]
  {
    if ps == [] {
      assert ps + [p] == [p];
    } else {
      assert (ps + [p])[1..] == ps[1..] + [p];
      PushedTable(ps[1..], p);
    }
  }

  lemma OneOf(p: Packet)
    ensures CountOutstanding([p]) == Weight(p) && FlightSize([p]) == FlightLength(p) && PacketNumbers([p]) == [p.pn]
    ensures FirstRetransmittable([p]) == if p.canBeRetransmitted then Some(p.pn) else None
  {
  }

  lemma Pushed(ps: seq<Packet>, p: Packet)
    requires Increasing(ps)
    requires forall i :: 0 <= i < |ps| ==> ps[i].pn < p.pn
    ensures Increasing(ps + [p])
    ensures Table(ps + [p]) == Table(ps)[p.pn := p]
    ensures CountOutstanding(ps + [p]) == CountOutstanding(ps) + Weight(p)
    ensures FlightSize(ps + [p]) == FlightSize(ps) + FlightLength(p)
    ensures PacketNumbers(ps + [p]) == PacketNumbers(ps) + [p.pn]
    ensures FirstRetransmittable(ps + [p]) ==
            if FirstRetransmittable(ps).Some? then FirstRetransmittable(ps)
            else if p.canBeRetransmitted then Some(p.pn) else None
  {
    hide Table, CountOutstanding, FlightSize, PacketNumbers, FirstRetransmittable;
    PushedTable(ps, p);
    ConcatSums(ps, [p]);
    OneOf(p);
  }

  // The list with the packet numbered q.pn replaced by q.
  function Put(ps: seq<Packet>, q: Packet): seq<Packet> {
    if ps == [] then [] else [if ps[0].pn == q.pn then q else ps[0]] + Put(ps[1..], q)
  }

  lemma {:induction false} PutAt(ps: seq<Packet>, i: nat, q: Packet)
    requires i < |ps| && Increasing(ps) && q.pn == ps[i].pn
    ensures Put(ps, q) == ps[i := q]
  {
    if i == 0 {
      PutAbsent(ps[1..], q);
    } else {
      PutAt(ps[1..], i-1, q);
    }
  }

  lemma {:induction false} PutAbsent(ps: seq<Packet>, q: Packet)
    requires forall i :: 0 <= i < |ps| ==> ps[i].pn != q.pn
    ensures Put(ps, q) == ps
  {
    if ps != [] {
      PutAbsent(ps[1..], q);
    }
  }

  lemma {:induction false} ReplacedTable(ps: seq<Packet>, q: Packet)
    requires Increasing(ps) && q.pn in Table(ps)
    ensures Table(Put(ps, q)) == Table(ps)[q.pn := q]
  {
    if q.pn == ps[0].pn {
      PutAbsent(ps[1..], q);
    } else {
      ReplacedTable(ps[1..], q);
    }
  }

  lemma {:induction false} ReplacedSums(ps: seq<Packet>, q: Packet)
    requires Increasing(ps) && q.pn in Table(ps)
    ensures CountOutstanding(Put(ps, q)) == CountOutstanding(ps) - Weight(Table(ps)[q.pn]) + Weight(q)
    ensures FlightSize(Put(ps, q)) == FlightSize(ps) - FlightLength(Table(ps)[q.pn]) + FlightLength(q)
  {
    if q.pn == ps[0].pn {
      PutAbsent(ps[1..], q);
    } else {
      ReplacedSums(ps[1..], q);
    }
  }

  lemma {:induction false} ReplacedNumbers(ps: seq<Packet>, q: Packet)
    ensures PacketNumbers(Put(ps, q)) == PacketNumbers(ps)
  {
    if ps != [] {
      ReplacedNumbers(ps[1..], q);
    }
  }

  lemma Replaced(ps: seq<Packet>, q: Packet)
    requires Increasing(ps) && q.pn in Table(ps)
    ensures Increasing(Put(ps, q))
    ensures Table(Put(ps, q)) == Table(ps)[q.pn := q]
    ensures CountOutstanding(Put(ps, q)) == CountOutstanding(ps) - Weight(Table(ps)[q.pn]) + Weight(q)
    ensures FlightSize(Put(ps, q)) == FlightSize(ps) - FlightLength(Table(ps)[q.pn]) + FlightLength(q)
    ensures PacketNumbers(Put(ps, q)) == PacketNumbers(ps)
  {
    hide Table, CountOutstanding, FlightSize, PacketNumbers, Put;
    PutNumbers(ps, q);
    ReplacedTable(ps, q);
    ReplacedSums(ps, q);
    ReplacedNumbers(ps, q);
  }

  lemma {:induction false} PutNumbers(ps: seq<Packet>, q: Packet)
    ensures |Put(ps, q)| == |ps| && forall i :: 0 <= i < |ps| ==> Put(ps, q)[i].pn == ps[i].pn
  {
    if ps != [] {
      PutNumbers(ps[1..], q);
    }
  }

  // The list without the packet numbered pn.
  function Delete(ps: seq<Packet>, pn: nat): seq<Packet> {
    if ps == [] then [] else if ps[0].pn == pn then Delete(ps[1..], pn) else [ps[0]] + Delete(ps[1..], pn)
  }

  lemma {:induction false} DeleteAt(ps: seq<Packet>, i: nat)
    requires i < |ps| && Increasing(ps)
    ensures Delete(ps, ps[i].pn) == ps[..i] + ps[i+1..]
  {
    if i == 0 {
      DeleteAbsent(ps[1..], ps[0].pn);
    } else {
      DeleteAt(ps[1..], i-1);
    }
  }

  lemma {:induction false} DeleteAbsent(ps: seq<Packet>, pn: nat)
    requires forall i :: 0 <= i < |ps| ==> ps[i].pn != pn
    ensures Delete(ps, pn) == ps
  {
    if ps != [] {
      DeleteAbsent(ps[1..], pn);
    }
  }

  lemma {:induction false} Dropped(ps: seq<Packet>, pn: nat)
    requires Increasing(ps) && pn in Table(ps)
    ensures Table(Delete(ps, pn)) == Table(ps) - {pn}
    ensures CountOutstanding(Delete(ps, pn)) == CountOutstanding(ps) - Weight(Table(ps)[pn])
    ensures FlightSize(Delete(ps, pn)) == FlightSize(ps) - FlightLength(Table(ps)[pn])
  {
    if pn == ps[0].pn {
      DeleteAbsent(ps[1..], pn);
      TableAbove(ps[1..], pn);
    } else {
      Dropped(ps[1..], pn);
    }
  }

  lemma {:induction false} DeleteAbove(ps: seq<Packet>, pn: nat, low: int)
    requires forall i :: 0 <= i < |ps| ==> low < ps[i].pn
    ensures forall i :: 0 <= i < |Delete(ps, pn)| ==> low < Delete(ps, pn)[i].pn
  {
    if ps != [] {
      DeleteAbove(ps[1..], pn, low);
    }
  }

  lemma {:induction false} DeleteIncreasing(ps: seq<Packet>, pn: nat)
    requires Increasing(ps)
    ensures Increasing(Delete(ps, pn))
  {
    if ps != [] {
      DeleteIncreasing(ps[1..], pn);
      DeleteAbove(ps[1..], pn, ps[0].pn);
    }
  }

  lemma CutOut(a: seq<nat>, x: nat, b: seq<nat>)
    ensures (a + [x] + b)[..|a|] == a && (a + [x] + b)[|a|+1..] == b
  {
  }

  lemma NumbersOfSplit(a: seq<Packet>, b: seq<Packet>, p: Packet)
    ensures |PacketNumbers(a)| == |a| && |PacketNumbers(b)| == |b|
    ensures PacketNumbers(a + [p] + b) == PacketNumbers(a) + [p.pn] + PacketNumbers(b)
    ensures PacketNumbers(a + b) == PacketNumbers(a) + PacketNumbers(b)
  {
    ConcatSums(a + [p], b);
    ConcatSums(a, [p]);
    ConcatSums(a, b);
    NumbersAt(a);
    NumbersAt(b);
    assert PacketNumbers([p]) == [p.pn];
  }

  lemma DeleteNumbers(ps: seq<Packet>, i: nat)
    requires i < |ps| && Increasing(ps)
    ensures |PacketNumbers(ps)| == |ps|
    ensures PacketNumbers(Delete(ps, ps[i].pn)) == PacketNumbers(ps)[..i] + PacketNumbers(ps)[i+1..]
  {
    hide PacketNumbers, Delete;
    var a, b := PacketNumbers(ps[..i]), PacketNumbers(ps[i+1..]);
    assert PacketNumbers(ps) == a + [ps[i].pn] + b && |a| == i && |b| == |ps| - i - 1 by {
      NumbersOfSplit(ps[..i], ps[i+1..], ps[i]);
      assert ps == ps[..i] + [ps[i]] + ps[i+1..];
    }
    assert PacketNumbers(Delete(ps, ps[i].pn)) == a + b by {
      DeleteAt(ps, i);
      NumbersOfSplit(ps[..i], ps[i+1..], ps[i]);
    }
    CutOut(a, ps[i].pn, b);
  }

  function IndexOf(s: seq<nat>, x: nat): (i: nat)
    requires x in s
    ensures i < |s| && s[i] == x
  {
    if s[0] == x then 0 else 1 + IndexOf(s[1..], x)
  }

  lemma PositionOf(ps: seq<Packet>, i: nat)
    requires i < |ps| && Increasing(ps)
    ensures ps[i].pn in PacketNumbers(ps) && IndexOf(PacketNumbers(ps), ps[i].pn) == i
  {
    NumbersAt(ps);
    assert PacketNumbers(ps)[i] == ps[i].pn;
  }

  // ----- the first retransmittable packet

  // The first retransmittable packet behind the one numbered pn.
  function FirstAfter(ps: seq<Packet>, pn: nat): Option<nat> {
    if ps == [] then None
    else if ps[0].pn == pn then FirstRetransmittable(ps[1..])
    else FirstAfter(ps[1..], pn)
  }

  // The first retransmittable packet is a tracked one, so a number below all of them is not it.
  lemma {:induction false} FirstAbove(ps: seq<Packet>, low: int)
    requires forall i :: 0 <= i < |ps| ==> low < ps[i].pn
    ensures FirstRetransmittable(ps).Some? ==> low < FirstRetransmittable(ps).value
  {
    if ps != [] {
      FirstAbove(ps[1..], low);
    }
  }

  lemma {:induction false} MarkedFirst(ps: seq<Packet>, q: Packet)
    requires Increasing(ps) && q.pn in Table(ps) && !q.canBeRetransmitted
    ensures FirstAfter(Put(ps, q), q.pn) == FirstAfter(ps, q.pn)
    ensures FirstRetransmittable(Put(ps, q)) ==
            if FirstRetransmittable(ps) == Some(q.pn) then FirstAfter(ps, q.pn) else FirstRetransmittable(ps)
  {
    if ps[0].pn == q.pn {
      PutAbsent(ps[1..], q);
      FirstAbove(ps[1..], q.pn);
    } else {
      MarkedFirst(ps[1..], q);
    }
  }

  lemma {:induction false} DroppedFirst(ps: seq<Packet>, pn: nat)
    requires Increasing(ps) && pn in Table(ps)
    ensures FirstRetransmittable(Delete(ps, pn)) ==
            if FirstRetransmittable(ps) == Some(pn) then FirstAfter(ps, pn) else FirstRetransmittable(ps)
  {
    if ps[0].pn == pn {
      DeleteAbsent(ps[1..], pn);
      FirstAbove(ps[1..], pn);
    } else {
      DroppedFirst(ps[1..], pn);
    }
  }

  lemma {:induction false} FirstAfterAt(ps: seq<Packet>, k: nat, i: nat)
    requires Increasing(ps) && k < i <= |ps|
    requires forall j :: k < j < i ==> !ps[j].canBeRetransmitted
    requires i < |ps| ==> ps[i].canBeRetransmitted
    ensures FirstAfter(ps, ps[k].pn) == if i < |ps| then Some(ps[i].pn) else None
  {
    if k == 0 {
      FirstAt(ps[1..], i-1);
    } else {
      FirstAfterAt(ps[1..], k-1, i-1);
    }
  }

  lemma {:induction false} FirstAt(ps: seq<Packet>, k: nat)
    requires k <= |ps|
    requires forall i :: 0 <= i < k ==> !ps[i].canBeRetransmitted
    requires k < |ps| ==> ps[k].canBeRetransmitted
    ensures FirstRetransmittable(ps) == if k < |ps| then Some(ps[k].pn) else None
  {
    if 0 < k {
      FirstAt(ps[1..], k-1);
    }
  }

  lemma {:induction false} FirstIndex(ps: seq<Packet>) returns (k: nat)
    requires FirstRetransmittable(ps).Some?
    ensures k < |ps| && ps[k].canBeRetransmitted && ps[k].pn == FirstRetransmittable(ps).value
    ensures forall i :: 0 <= i < k ==> !ps[i].canBeRetransmitted
  {
    if ps[0].canBeRetransmitted {
      k := 0;
    } else {
      k := FirstIndex(ps[1..]);
      assert forall i :: 0 < i < |ps| ==> ps[i] == ps[1..][i-1];
      k := k + 1;
    }
  }

  lemma {:induction false} OutstandingCount(ps: seq<Packet>)
    ensures CountOutstanding(ps) == 0 <==> FirstRetransmittable(ps) == None
  {
    if ps != [] {
      OutstandingCount(ps[1..]);
    }
  }

  lemma {:induction false} StoredFirst(ps: seq<Packet>, q: Packet)
    requires Increasing(ps) && q.pn in Table(ps)
    requires q.canBeRetransmitted == Table(ps)[q.pn].canBeRetransmitted
    ensures FirstRetransmittable(Put(ps, q)) == FirstRetransmittable(ps)
  {
    if ps[0].pn == q.pn {
      PutAbsent(ps[1..], q);
    } else {
      StoredFirst(ps[1..], q);
    }
  }

  function AsChildren(ps: seq<Packet>, of: nat): seq<Packet> {
    if ps == [] then [] else [ps[0].(isRetransmission := true, retransmissionOf := of)] + AsChildren(ps[1..], of)
  }

  lemma {:induction false} AsChildrenAt(ps: seq<Packet>, of: nat)
    ensures |AsChildren(ps, of)| == |ps|
    ensures forall i :: 0 <= i < |ps| ==>
              AsChildren(ps, of)[i] == ps[i].(isRetransmission := true, retransmissionOf := of)
  {
    if ps != [] {
      AsChildrenAt(ps[1..], of);
    }
  }

  lemma AgainIncreasing(ps: seq<Packet>, news: seq<Packet>, q: Packet, of: nat)
    requires Increasing(ps + news)
    ensures Increasing(Put(ps, q) + AsChildren(news, of))
  {
    PutNumbers(ps, q);
    AsChildrenAt(news, of);
    var a, b := ps + news, Put(ps, q) + AsChildren(news, of);
    assert |a| == |b| && forall i :: 0 <= i < |a| ==> a[i].pn == b[i].pn;
  }

  /** The list after packet number `of` was retransmitted as `news`: the new packets are at the back, and
      parent and children are linked if the parent was still tracked. */
  function SentAgain(ps: seq<Packet>, news: seq<Packet>, of: nat): seq<Packet> {
    if of in Table(ps)
    then Put(ps, Table(ps)[of].(retransmittedAs := PacketNumbers(news))) + AsChildren(news, of)
    else ps + news
  }

  lemma NextIsLater(base: seq<Packet>, news: seq<Packet>, i: nat)
    requires Increasing(base + news) && i < |news|
    ensures forall k :: 0 <= k < |base + news[..i]| ==> (base + news[..i])[k].pn < news[i].pn
    ensures base + news[..i] + [news[i]] == base + news[..i+1]
  {
    assert news[i] == (base + news)[|base| + i];
    assert forall k :: 0 <= k < |base| + i ==> (base + news[..i])[k] == (base + news)[k];
  }

  // Where the pointer is after packets were appended.
  function PointerAfter(first: Option<nat>, news: seq<Packet>): Option<nat> {
    if first == None && news != [] then Some(news[0].pn) else first
  }

  lemma FirstOfNews(news: seq<Packet>)
    requires Increasing(news) && news != []
    ensures FirstRetransmittable(news) == Some(news[0].pn) <==> news[0].canBeRetransmitted
  {
    FirstAbove(news[1..], news[0].pn);
  }

  lemma IncreasingEnd(ps: seq<Packet>, news: seq<Packet>)
    requires Increasing(ps + news)
    ensures Increasing(news)
  {
    assert forall i :: 0 <= i < |news| ==> news[i] == (ps + news)[|ps| + i];
  }

  lemma PointerRight(ps: seq<Packet>, news: seq<Packet>)
    requires Increasing(ps + news)
    ensures PointerAfter(FirstRetransmittable(ps), news) == FirstRetransmittable(ps + news) <==>
            FirstRetransmittable(ps) != None || news == [] || news[0].canBeRetransmitted
  {
    ConcatSums(ps, news);
    IncreasingEnd(ps, news);
    if news != [] {
      FirstOfNews(news);
    } else {
      assert FirstRetransmittable(news) == None;
    }
    hide FirstRetransmittable;
  }

  // The list without one packet, in all respects.
  lemma Deleted(ps: seq<Packet>, pn: nat)
    requires Increasing(ps) && pn in Table(ps)
    ensures pn in PacketNumbers(ps) && Increasing(Delete(ps, pn)) && Table(Delete(ps, pn)) == Table(ps) - {pn}
    ensures var ns, at := PacketNumbers(ps), IndexOf(PacketNumbers(ps), pn);
            PacketNumbers(Delete(ps, pn)) == ns[..at] + ns[at+1..]
    ensures CountOutstanding(Delete(ps, pn)) == CountOutstanding(ps) - Weight(Table(ps)[pn])
    ensures FirstRetransmittable(Delete(ps, pn)) ==
            if FirstRetransmittable(ps) == Some(pn) then FirstAfter(ps, pn) else FirstRetransmittable(ps)
  {
    hide Increasing, Table, PacketNumbers, CountOutstanding, FlightSize, FirstRetransmittable, FirstAfter, Delete;
    hide IndexOf;
    var i := TableIndex(ps, pn);
    PositionOf(ps, i);
    DeleteNumbers(ps, i);
    Dropped(ps, pn);
    DeleteIncreasing(ps, pn);
    DroppedFirst(ps, pn);
  }

  class SentPacketHistory {
    var list: seq<nat>                  // packetList: the elements in list order
    var packetMap: map<nat, Packet>     // packetMap: packet number to element
    var numOutstandingPackets: int
    var firstOutstanding: Option<nat>   // an element of the list

    ghost var packets: seq<Packet>      // the plain list all of these stand for

    /** List, map and counter are those of the plain list. */
    ghost predicate Listed()
      reads this
    {
      && Increasing(packets)
      && list == PacketNumbers(packets)
      && packetMap == Table(packets)
      && numOutstandingPackets == CountOutstanding(packets)
    }

    /** And so is the pointer. */
    ghost predicate Valid()
      reads this
    {
      Listed() && firstOutstanding == FirstRetransmittable(packets)
    }

    constructor ()
      ensures Valid() && packets == []
    {
      list, packetMap := [], map[];
      numOutstandingPackets, firstOutstanding := 0, None;
      packets := [];
    }

    /** sentPacketImpl: the packet goes to the back of the list.  If nothing was outstanding, the pointer is set to it
        whether or not it may be retransmitted. */
    method Append(p: Packet)
      requires Listed()
      requires forall i :: 0 <= i < |packets| ==> packets[i].pn < p.pn
      modifies this
      ensures Listed() && packets == old(packets) + [p]
      ensures firstOutstanding == if old(firstOutstanding) == None then Some(p.pn) else old(firstOutstanding)
    {
      hide PacketNumbers, Table, CountOutstanding, FirstRetransmittable;
      Pushed(packets, p);
      list := list + [p.pn];
      packetMap := packetMap[p.pn := p];
      if firstOutstanding == None {
        firstOutstanding := Some(p.pn);
      }
      if p.canBeRetransmitted {
        numOutstandingPackets := numOutstandingPackets + 1;
      }
      packets := packets + [p];
    }

    /** SentPacket keeps the pointer right if and only if the packet may be retransmitted or is not the first one
        outstanding.  The handler only registers ack-eliciting packets, which may. */
    method SentPacket(p: Packet)
      requires Valid()
      requires forall i :: 0 <= i < |packets| ==> packets[i].pn < p.pn
      modifies this
      ensures Listed() && packets == old(packets) + [p]
      ensures firstOutstanding == if old(firstOutstanding) == None then Some(p.pn) else old(firstOutstanding)
      ensures Valid() <==> p.canBeRetransmitted || old(firstOutstanding) != None
    {
      hide Increasing, PacketNumbers, Table, CountOutstanding;
      Pushed(packets, p);
      Append(p);
    }

    predicate HasOutstandingPackets()
      reads this
    {
      numOutstandingPackets > 0
    }

    /** Walks on from the first outstanding element to the next retransmittable one. */
    method ReadjustFirstOutstanding()
      requires list == PacketNumbers(packets) && Increasing(packets) && packetMap == Table(packets)
      requires firstOutstanding.Some? && firstOutstanding.value in packetMap
      modifies this`firstOutstanding
      ensures firstOutstanding == FirstAfter(packets, old(firstOutstanding.value))
    {
      NumbersAt(packets);
      TableAll(packets);
      ghost var k := TableIndex(packets, firstOutstanding.value);
      PositionOf(packets, k);
      var i := IndexOf(list, firstOutstanding.value) + 1;
      while i < |list| && !packetMap[list[i]].canBeRetransmitted
        invariant k < i <= |list|
        invariant forall j :: k < j < i ==> !packets[j].canBeRetransmitted
      {
        i := i + 1;
      }
      FirstAfterAt(packets, k, i);
      firstOutstanding := if i < |list| then Some(list[i]) else None;
    }

    /** Clears the flag of one packet; fails exactly when the packet is not tracked. */
    method MarkCannotBeRetransmitted(pn: nat) returns (ok: bool)
      requires Valid()
      modifies this
      ensures Valid()
      ensures ok <==> pn in old(packetMap)
      ensures packets ==
                if ok then Put(old(packets), old(packetMap)[pn].(canBeRetransmitted := false)) else old(packets)
    {
      if pn !in packetMap {
        return false;
      }
      hide Increasing, Table, PacketNumbers, CountOutstanding, FlightSize, FirstRetransmittable, FirstAfter, Put;
      var el := packetMap[pn];
      assert el.pn == pn by {
        var i := TableIndex(packets, pn);
      }
      var cleared := el.(canBeRetransmitted := false);
      Replaced(packets, cleared);
      MarkedFirst(packets, cleared);
      if el.canBeRetransmitted {
        numOutstandingPackets := numOutstandingPackets - 1;
      }
      packetMap := packetMap[pn := cleared];
      packets := Put(packets, cleared);
      if firstOutstanding == Some(pn) {
        ReadjustFirstOutstanding();
      }
      return true;
    }

    /** Takes one packet out; fails exactly when the packet is not tracked. */
    method Remove(pn: nat) returns (ok: bool)
      requires Valid()
      modifies this
      ensures Valid()
      ensures ok <==> pn in old(packetMap)
      ensures packets == if ok then Delete(old(packets), pn) else old(packets)
    {
      hide Increasing, Table, PacketNumbers, CountOutstanding, FirstRetransmittable, FirstAfter, Delete, IndexOf;
      ok := pn in packetMap;
      if ok {
        ghost var before := packets;
        Deleted(before, pn);
        if firstOutstanding == Some(pn) {
          ReadjustFirstOutstanding();
        }
        if packetMap[pn].canBeRetransmitted {
          numOutstandingPackets := numOutstandingPackets - 1;
        }
        var at := IndexOf(list, pn);
        list := list[..at] + list[at+1..];
        packetMap := packetMap - {pn};
        packets := Delete(before, pn);
      }
    }

    /** Writes through a pointer to a tracked packet; only the retransmission links change. */
    method Store(q: Packet)
      requires Valid()
      requires q.pn in packetMap && q == packetMap[q.pn].(retransmittedAs := q.retransmittedAs)
      modifies this`packetMap, this`packets
      ensures Valid()
      ensures packets == Put(old(packets), q)
    {
      Replaced(packets, q);
      StoredFirst(packets, q);
      packetMap := packetMap[q.pn := q];
      packets := Put(packets, q);
    }

    method SentAll(news: seq<Packet>)
      requires Listed() && Increasing(packets + news)
      modifies this
      ensures Listed() && packets == old(packets) + news
      ensures firstOutstanding == PointerAfter(old(firstOutstanding), news)
    {
      ghost var base := packets;
      for i := 0 to |news|
        invariant Listed() && packets == base + news[..i]
        invariant firstOutstanding == PointerAfter(old(firstOutstanding), news[..i])
      {
        hide Table, PacketNumbers, CountOutstanding, FirstRetransmittable;
        NextIsLater(base, news, i);
        Append(news[i]);
      }
      assert news[..|news|] == news;
    }

    /** SentPacketsAsRetransmission: the parent, if it is still tracked, is linked to the new packets.  The pointer is
        right afterwards if and only if something was outstanding or the first new packet may be retransmitted. */
    method SentPacketsAsRetransmission(news: seq<Packet>, of: nat)
      requires Valid() && Increasing(packets + news)
      modifies this
      ensures Listed() && packets == SentAgain(old(packets), news, of)
      ensures Valid() <==> old(firstOutstanding) != None || news == [] || news[0].canBeRetransmitted
    {
      hide PacketNumbers, Table, CountOutstanding, Put, Delete, FirstRetransmittable, AsChildren, Increasing;
      if of !in packetMap {
        PointerRight(packets, news);
        SentAll(news);
        return;
      }
      var parent := packetMap[of];
      assert parent.pn == of by {
        var i := TableIndex(packets, of);
      }
      var linked, children := parent.(retransmittedAs := PacketNumbers(news)), AsChildren(news, of);
      AgainIncreasing(packets, news, linked, of);
      AsChildrenAt(news, of);
      Store(linked);
      PointerRight(packets, children);
      SentAll(children);
    }
  }

  /** A packet that may not be retransmitted is taken for the first outstanding one although none is outstanding. */
  method PointerAtOther() returns (first: Option<nat>, outstanding: bool)
    ensures first == Some(0) && !outstanding
  {
    var history := new SentPacketHistory();
    var p := Packet(0, OneRtt, {0}, 1200, 0, false, false, [], false, 0);
    history.SentPacket(p);
    OneOf(p);
    assert history.packets == [p];
    first, outstanding := history.firstOutstanding, history.HasOutstandingPackets();
  }

  // ----- whole runs

  /** The edits that the handler makes; StoreOp writes the links of a packet that is tracked. */
  datatype Op =
    | SendOp(p: Packet)
    | AgainOp(news: seq<Packet>, of: nat)
    | MarkOp(pn: nat)
    | RemoveOp(pn: nat)
    | StoreOp(pn: nat, links: seq<nat>)

  /** New packets: retransmittable, and numbered upwards from behind the last one tracked. */
  predicate Follow(last: Option<nat>, news: seq<Packet>) {
    && Increasing(news) && (forall i :: 0 <= i < |news| ==> news[i].canBeRetransmitted)
    && (last.Some? && news != [] ==> last.value < news[0].pn)
  }

  function Last(numbers: seq<nat>): Option<nat> {
    if numbers == [] then None else Some(numbers[|numbers|-1])
  }

  /** What an operation does to the plain list; one that the handler would not ask for does nothing. */
  function After(ps: seq<Packet>, op: Op): seq<Packet> {
    match op
    case SendOp(p) => if Follow(Last(PacketNumbers(ps)), [p]) then ps + [p] else ps
    case AgainOp(news, of) => if Follow(Last(PacketNumbers(ps)), news) then SentAgain(ps, news, of) else ps
    case MarkOp(pn) => if pn in Table(ps) then Put(ps, Table(ps)[pn].(canBeRetransmitted := false)) else ps
    case RemoveOp(pn) => if pn in Table(ps) then Delete(ps, pn) else ps
    case StoreOp(pn, links) => if pn in Table(ps) then Put(ps, Table(ps)[pn].(retransmittedAs := links)) else ps
  }

  function AfterAll(ops: seq<Op>): seq<Packet> {
    if ops == [] then [] else After(AfterAll(ops[..|ops|-1]), ops[|ops|-1])
  }

  lemma FollowIncreasing(ps: seq<Packet>, news: seq<Packet>)
    requires Increasing(ps) && Follow(Last(PacketNumbers(ps)), news)
    ensures Increasing(ps + news)
  {
    NumbersAt(ps);
    if ps != [] && news != [] {
      assert ps[|ps|-1].pn < news[0].pn;
    }
  }

  // One operation on the object.
  method Perform(h: SentPacketHistory, op: Op)
    requires h.Valid()
    modifies h
    ensures h.Valid() && h.packets == After(old(h.packets), op)
  {
    hide Increasing, PacketNumbers, Table, CountOutstanding, FirstRetransmittable, Put, Delete, SentAgain;
    match op
    case SendOp(p) =>
      if Follow(Last(h.list), [p]) {
        FollowIncreasing(h.packets, [p]);
        NoneLater(h.packets, p);
        h.SentPacket(p);
      }
    case AgainOp(news, of) =>
      if Follow(Last(h.list), news) {
        FollowIncreasing(h.packets, news);
        h.SentPacketsAsRetransmission(news, of);
      }
    case MarkOp(pn) => var _ := h.MarkCannotBeRetransmitted(pn);
    case RemoveOp(pn) => var _ := h.Remove(pn);
    case StoreOp(pn, links) =>
      if pn in h.packetMap {
        assert h.packetMap[pn].pn == pn by {
          var i := TableIndex(h.packets, pn);
        }
        h.Store(h.packetMap[pn].(retransmittedAs := links));
      }
  }

  lemma NoneLater(ps: seq<Packet>, p: Packet)
    requires Increasing(ps + [p])
    ensures forall i :: 0 <= i < |ps| ==> ps[i].pn < p.pn
  {
    assert forall i :: 0 <= i < |ps| ==> ps[i] == (ps + [p])[i];
    assert (ps + [p])[|ps|] == p;
  }

  /** After every run of operations the counter, the pointer and the order of the elements are those of the plain
      list. */
  method Run(ops: seq<Op>) returns (numbers: seq<nat>, table: map<nat, Packet>, outstanding: int, first: Option<nat>)
    ensures var ps := AfterAll(ops);
            numbers == PacketNumbers(ps) && table == Table(ps) && outstanding == CountOutstanding(ps) &&
                first == FirstRetransmittable(ps)
  {
    var h := new SentPacketHistory();
    for i := 0 to |ops|
      invariant h.Valid() && fresh(h) && h.packets == AfterAll(ops[..i])
    {
      hide SentPacketHistory.Valid, After;
      assert ops[..i+1][..i] == ops[..i];
      Perform(h, ops[i]);
    }
    assert ops[..|ops|] == ops;
    return h.list, h.packetMap, h.numOutstandingPackets, h.firstOutstanding;
  }
}
