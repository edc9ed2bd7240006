/** Streams opened by the peer (streams_map_incoming_generic.go): the credit that is given out, and the order in which
    the application accepts them.  Every call is one step; a call of AcceptStream that would wait returns None. */
module IncomingStreams {

  import opened Common

  datatype GetResult = LimitExceeded | Gone | Stream(num: nat)
  datatype DeleteResult = Deleted | Deferred | UnknownStream | DeletedTwice

  datatype Event = Accept | GetOrOpen(num: nat) | Delete(num: nat)
  datatype Outcome = Accepted(num: Option<nat>) | Got(result: GetResult) | Removed(removal: DeleteResult)

  /** All there is to know about a run: how many streams the peer opened, how many of them were accepted, and which ones
      were asked to be deleted; the order of acceptance and deletion makes no difference. */
  datatype Peer = Peer(highest: nat, accepted: nat, asked: set<nat>) {
    /** Streams that are gone: deleted and accepted. */
    function Gone(): set<nat> {
      set n | n in asked && n <= accepted
    }

    function Present(): set<nat> {
      set n | 1 <= n <= highest && n !in Gone()
    }

    function Limit(maxStreams: nat): nat {
      maxStreams + |Gone()|
    }
  }

  function Next(maxStreams: nat, p: Peer, e: Event): Peer {
    match e
    case Accept => if p.accepted < p.highest then p.(accepted := p.accepted + 1) else p
    case GetOrOpen(n) => if p.highest < n <= p.Limit(maxStreams) then p.(highest := n) else p
    case Delete(n) => if 1 <= n <= p.highest then p.(asked := p.asked + {n}) else p
  }

  function Answer(maxStreams: nat, p: Peer, e: Event): Outcome {
    match e
    case Accept => Accepted(if p.accepted < p.highest then Some(p.accepted + 1) else None)
    case GetOrOpen(n) =>
      Got(if n > p.Limit(maxStreams) then LimitExceeded
          else if n == 0 || (n <= p.highest && n in p.asked) then GetResult.Gone
          else Stream(n))
    case Delete(n) => Removed(Removal(p, n))
  }

  function Removal(p: Peer, n: nat): DeleteResult {
    if n !in p.Present() then UnknownStream
    else if n in p.asked then DeletedTwice
    else if n <= p.accepted then Deleted
    else Deferred
  }

  function NextAll(maxStreams: nat, es: seq<Event>): Peer {
    if es == [] then Peer(0, 0, {}) else Next(maxStreams, NextAll(maxStreams, es[..|es|-1]), es[|es|-1])
  }

  lemma GoneGrows(p: Peer, n: nat)
    requires n in p.asked && n == p.accepted + 1
    ensures p.(accepted := n).Gone() == p.Gone() + {n} && n !in p.Gone()
  {
  }

  lemma GoneStays(p: Peer, n: nat)
    requires n !in p.asked && n == p.accepted + 1
    ensures p.(accepted := n).Gone() == p.Gone()
  {
  }

  lemma AskedGone(p: Peer, n: nat)
    ensures p.(asked := p.asked + {n}).Gone() == p.Gone() + if n <= p.accepted then {n} else {}
  {
  }

  /** The maps hold what the run so far amounts to. */
  ghost predicate Holds(p: Peer, maxStreams: nat, streams: set<nat>, toDelete: set<nat>, limit: nat) {
    streams == p.Present() && toDelete == p.asked - p.Gone() && limit == p.Limit(maxStreams)
  }

  lemma DeleteHolds(p: Peer, maxStreams: nat, streams: set<nat>, toDelete: set<nat>, limit: nat, n: nat)
    requires Holds(p, maxStreams, streams, toDelete, limit)
    ensures var r := Removal(p, n);
            && (r.UnknownStream? <==> n !in streams) && (r.Deleted? <==> n in streams && n <= p.accepted)
            && (r.DeletedTwice? <==> n in streams && n > p.accepted && n in toDelete)
            && Holds(Next(maxStreams, p, Delete(n)), maxStreams,
                  if r.Deleted? then streams - {n} else streams,
                  if r.Deferred? then toDelete + {n} else toDelete,
                  if r.Deleted? then limit + 1 else limit)
  {
    AskedGone(p, n);
    var p' := Next(maxStreams, p, Delete(n));
    if n in p.Present() && n <= p.accepted {
      DeletedNow(p, n);
    } else {
      assert p'.Gone() == p.Gone();
      assert p'.Present() == p.Present();
    }
  }

  lemma DeletedNow(p: Peer, n: nat)
    requires n in p.Present() && n <= p.accepted
    ensures var p' := p.(asked := p.asked + {n});
            n !in p.asked && p'.Present() == p.Present() - {n} && |p'.Gone()| == |p.Gone()| + 1 &&
                p'.asked - p'.Gone() == p.asked - p.Gone()
  {
    AskedGone(p, n);
    assert n !in p.Gone();
  }

  lemma AcceptHolds(p: Peer, maxStreams: nat, streams: set<nat>, toDelete: set<nat>, limit: nat)
    requires Holds(p, maxStreams, streams, toDelete, limit) && p.accepted < p.highest
    ensures var n := p.accepted + 1;
            n in streams &&
            Holds(p.(accepted := n), maxStreams, if n in toDelete then streams - {n} else streams, toDelete - {n},
                  if n in toDelete then limit + 1 else limit)
  {
    var n := p.accepted + 1;
    if n in p.asked {
      GoneGrows(p, n);
      assert p.(accepted := n).Present() == p.Present() - {n};
    } else {
      GoneStays(p, n);
      assert p.(accepted := n).Present() == p.Present();
    }
  }

  lemma OpenHolds(p: Peer, maxStreams: nat, streams: set<nat>, toDelete: set<nat>, limit: nat, n: nat, more: set<nat>)
    requires Holds(p, maxStreams, streams, toDelete, limit) && p.highest < n &&
              (forall k :: k in p.asked ==> k <= p.highest)
    requires forall k :: k in more <==> k in streams || p.highest < k <= n
    ensures Holds(p.(highest := n), maxStreams, more, toDelete, limit)
  {
    assert p.(highest := n).Gone() == p.Gone();
    assert p.(highest := n).Present() == more;
  }

  class StreamsMap {
    var streams: set<nat>
    var streamsToDelete: set<nat>
    var nextStreamToAccept: nat
    var nextStreamToOpen: nat
    var maxStream: nat
    const maxNumStreams: nat
    var maxStreamsFrames: seq<nat>   // the limits announced so far

    ghost var peer: Peer

    ghost predicate Represents()
      reads this
    {
      && nextStreamToOpen == peer.highest + 1 && nextStreamToAccept == peer.accepted + 1
      && (forall n :: n in peer.asked ==> n <= peer.highest)
      && Holds(peer, maxNumStreams, streams, streamsToDelete, maxStream)
    }

    /** Streams in the map and streams that may still be opened add up to the maximum. */
    ghost predicate Credit()
      reads this
    {
      |streams| + maxStream + 1 - nextStreamToOpen == maxNumStreams
    }

    /** A stream stays in the map until it has been accepted, and is only then removed. */
    ghost predicate Kept()
      reads this
    {
      && 1 <= nextStreamToAccept <= nextStreamToOpen <= maxStream + 1
      && (forall n :: n in streams ==> 1 <= n < nextStreamToOpen)
      && (forall n :: nextStreamToAccept <= n < nextStreamToOpen ==> n in streams)
      && (forall n :: n in streamsToDelete ==> nextStreamToAccept <= n < nextStreamToOpen)
    }

    /** Every limit announced is one more than the last. */
    ghost predicate Announced()
      reads this
    {
      && maxStream == maxNumStreams + |maxStreamsFrames|
      && forall i :: 0 <= i < |maxStreamsFrames| ==> maxStreamsFrames[i] == maxNumStreams + i + 1
    }

    ghost predicate Valid()
      reads this
    {
      Credit() && Kept() && Announced() && Represents()
    }

    constructor (maxStreams: nat)
      ensures Valid() && maxNumStreams == maxStreams && peer == Peer(0, 0, {}) && maxStreamsFrames == []
    {
      streams, streamsToDelete, nextStreamToAccept, nextStreamToOpen := {}, {}, 1, 1;
      maxStream, maxNumStreams, maxStreamsFrames := maxStreams, maxStreams, [];
      peer := Peer(0, 0, {});
    }

    lemma Summary()
      requires Valid()
      ensures streams == peer.Present() && nextStreamToOpen == peer.highest + 1 &&
                maxStream == peer.Limit(maxNumStreams)
      ensures peer.accepted <= peer.highest <= maxStream && |streams| + maxStream - peer.highest == maxNumStreams
      ensures maxStreamsFrames == seq(|peer.Gone()|, i requires 0 <= i => maxNumStreams + i + 1)
    {
    }

    // deleteStream
    method RemoveStream(num: nat) returns (r: DeleteResult)
      requires Credit() && Kept() && Announced()
      modifies this`streams, this`streamsToDelete, this`maxStream, this`maxStreamsFrames
      ensures Credit() && Kept() && Announced()
      ensures r.UnknownStream? <==> num !in old(streams)
      ensures r.Deleted? <==> num in old(streams) && num < nextStreamToAccept
      ensures r.DeletedTwice? <==> num in old(streams) && num >= nextStreamToAccept && num in old(streamsToDelete)
      ensures streams == if r.Deleted? then old(streams) - {num} else old(streams)
      ensures streamsToDelete == if r.Deferred? then old(streamsToDelete) + {num} else old(streamsToDelete)
      ensures maxStream == if r.Deleted? then old(maxStream) + 1 else old(maxStream)
    {
      if num !in streams {
        return UnknownStream;
      }
      if num >= nextStreamToAccept {
        if num in streamsToDelete {
          return DeletedTwice;
        }
        streamsToDelete := streamsToDelete + {num};
        return Deferred;
      }
      streams := streams - {num};
      if maxNumStreams > |streams| {
        maxStream := nextStreamToOpen + (maxNumStreams - |streams|) - 1;
        maxStreamsFrames := maxStreamsFrames + [maxStream];
      }
      return Deleted;
    }

    /** Deletes a stream that was accepted, which raises the limit by one, and notes the deletion of any other; a stream
        that is not there and one whose deletion has been noted are refused. */
    method DeleteStream(num: nat) returns (r: DeleteResult)
      requires Valid()
      modifies this`streams, this`streamsToDelete, this`maxStream, this`maxStreamsFrames, this`peer
      ensures Valid() && peer == Next(maxNumStreams, old(peer), Delete(num))
      ensures Removed(r) == Answer(maxNumStreams, old(peer), Delete(num))
      ensures r.UnknownStream? <==> num !in old(streams)
      ensures r.Deleted? <==> num in old(streams) && num < nextStreamToAccept
      ensures r.DeletedTwice? <==> num in old(streams) && num >= nextStreamToAccept && num in old(streamsToDelete)
      ensures streams == if r.Deleted? then old(streams) - {num} else old(streams)
      ensures streamsToDelete == if r.Deferred? then old(streamsToDelete) + {num} else old(streamsToDelete)
      ensures maxStream == if r.Deleted? then old(maxStream) + 1 else old(maxStream)
    {
      hide Holds, Removal;
      DeleteHolds(peer, maxNumStreams, streams, streamsToDelete, maxStream, num);
      r := RemoveStream(num);
      peer := Next(maxNumStreams, peer, Delete(num));
    }

    /** The next stream in order; one that was completed before is removed now, which cannot fail. */
    method AcceptStream() returns (r: Option<nat>, failed: bool)
      requires Valid()
      modifies this`streams, this`streamsToDelete, this`maxStream, this`maxStreamsFrames, this`nextStreamToAccept,
          this`peer
      ensures Valid() && !failed && peer == Next(maxNumStreams, old(peer), Accept)
      ensures Accepted(r) == Answer(maxNumStreams, old(peer), Accept)
      ensures r.Some? <==> old(nextStreamToAccept) < nextStreamToOpen
      ensures r.Some? ==>
                r.value == old(nextStreamToAccept) && nextStreamToAccept == r.value + 1 && r.value in old(streams)
      ensures r == None ==> nextStreamToAccept == old(nextStreamToAccept)
      ensures var completed := r.Some? && r.value in old(streamsToDelete);
              && streams == (if completed then old(streams) - {r.value} else old(streams))
              && streamsToDelete == (if completed then old(streamsToDelete) - {r.value} else old(streamsToDelete))
              && maxStream == (if completed then old(maxStream) + 1 else old(maxStream))
    {
      var num := nextStreamToAccept;
      hide Holds;
      if peer.accepted < peer.highest {
        AcceptHolds(peer, maxNumStreams, streams, streamsToDelete, maxStream);
      }
      if num !in streams {
        return None, false;
      }
      var wasDeleted := num in streamsToDelete;
      streamsToDelete := streamsToDelete - {num};
      nextStreamToAccept := nextStreamToAccept + 1;
      if wasDeleted {
        var d := RemoveStream(num);
        if !d.Deleted? {
          return None, true;
        }
      }
      peer := peer.(accepted := num);
      return Some(num), false;
    }

    /** All streams up to the one asked for are opened; beyond the limit nothing is. */
    method GetOrOpenStream(num: nat) returns (r: GetResult)
      requires Valid()
      modifies this`streams, this`nextStreamToOpen, this`peer
      ensures Valid() && peer == Next(maxNumStreams, old(peer), GetOrOpen(num))
      ensures Got(r) == Answer(maxNumStreams, old(peer), GetOrOpen(num))
      ensures r.LimitExceeded? <==> num > maxStream
      ensures r.Stream? ==> r.num == num && num in streams && num !in streamsToDelete
      ensures r.Gone? <==>
                num < old(nextStreamToOpen) && num <= maxStream && (num !in old(streams) || num in streamsToDelete)
      ensures nextStreamToOpen == if r.Stream? && old(nextStreamToOpen) <= num then num + 1 else old(nextStreamToOpen)
      ensures forall n :: n in streams <==> n in old(streams) || old(nextStreamToOpen) <= n < nextStreamToOpen
    {
      if num > maxStream {
        return LimitExceeded;
      }
      if num < nextStreamToOpen {
        return if num in streams && num !in streamsToDelete then Stream(num) else GetResult.Gone;
      }
      for newNum := nextStreamToOpen to num + 1
        invariant nextStreamToOpen == old(nextStreamToOpen)
        invariant |streams| == |old(streams)| + newNum - nextStreamToOpen && peer == old(peer)
        invariant forall n :: n in streams <==> n in old(streams) || nextStreamToOpen <= n < newNum
      {
        streams := streams + {newNum};
      }
      nextStreamToOpen := num + 1;
      OpenHolds(peer, maxNumStreams, old(streams), streamsToDelete, maxStream, num, streams);
      peer := peer.(highest := num);
      return Stream(num);
    }
  }

  // ----- whole runs

  /** Every answer is the one the simple model gives at that point. */
  ghost predicate Answers(maxStreams: nat, es: seq<Event>, outcomes: seq<Outcome>) {
    |outcomes| <= |es| && forall k :: 0 <= k < |outcomes| ==>
        outcomes[k] == Answer(maxStreams, NextAll(maxStreams, es[..k]), es[k])
  }

  lemma NextAllStep(maxStreams: nat, es: seq<Event>, k: nat)
    requires k < |es|
    ensures NextAll(maxStreams, es[..k+1]) == Next(maxStreams, NextAll(maxStreams, es[..k]), es[k])
  {
    hide Next;
    assert es[..k+1][..k] == es[..k];
  }

  method Step(m: StreamsMap, e: Event) returns (o: Outcome)
    requires m.Valid()
    modifies m
    ensures m.Valid() && m.peer == Next(m.maxNumStreams, old(m.peer), e) && o == Answer(m.maxNumStreams, old(m.peer), e)
  {
    hide StreamsMap.Valid, Next, Answer;
    match e
    case Accept =>
      var r, _ := m.AcceptStream();
      o := Accepted(r);
    case GetOrOpen(num) =>
      var r := m.GetOrOpenStream(num);
      o := Got(r);
    case Delete(num) =>
      var r := m.DeleteStream(num);
      o := Removed(r);
  }

  /** For every run, the object answers and ends as the simple model: the streams in the map are those opened and not
      both deleted and accepted, the limit has been raised once for each that was, by one every time, and streams and
      credit add up to the maximum. */
  method Run(maxStreams: nat, es: seq<Event>)
    returns (outcomes: seq<Outcome>, limits: seq<nat>, streams: set<nat>, mayOpen: nat)
    ensures |outcomes| == |es| && Answers(maxStreams, es, outcomes)
    ensures AcceptedNumbers(outcomes) == UpTo(NextAll(maxStreams, es).accepted)
    ensures var p := NextAll(maxStreams, es);
            && streams == p.Present() && limits == seq(|p.Gone()|, i requires 0 <= i => maxStreams + i + 1)
            && p.accepted <= p.highest <= p.Limit(maxStreams) && mayOpen == p.Limit(maxStreams) - p.highest
    ensures |streams| + mayOpen == maxStreams
  {
    hide StreamsMap.Valid, Next, Answer;
    var m := new StreamsMap(maxStreams);
    outcomes := [];
    for k := 0 to |es|
      invariant m.Valid() && fresh(m) && m.maxNumStreams == maxStreams && m.peer == NextAll(maxStreams, es[..k])
      invariant |outcomes| == k && Answers(maxStreams, es, outcomes)
    {
      hide NextAll;
      NextAllStep(maxStreams, es, k);
      var o := Step(m, es[k]);
      outcomes := outcomes + [o];
    }
    assert es[..|es|] == es;
    hide NextAll;
    AcceptedInOrder(maxStreams, es, outcomes, |es|);
    assert outcomes[..|es|] == outcomes;
    m.Summary();
    limits, streams, mayOpen := m.maxStreamsFrames, m.streams, m.maxStream + 1 - m.nextStreamToOpen;
  }

  /** Streams are accepted as 1, 2, 3, ..., whatever else happens. */
  lemma {:induction false} AcceptedInOrder(maxStreams: nat, es: seq<Event>, outcomes: seq<Outcome>, k: nat)
    requires Answers(maxStreams, es, outcomes) && k <= |outcomes|
    ensures AcceptedNumbers(outcomes[..k]) == UpTo(NextAll(maxStreams, es[..k]).accepted)
  {
    hide Next, Answer, NextAll, AcceptedNumbers, AcceptedNumber;
    if k == 0 {
      NothingAccepted(maxStreams, es, outcomes);
    } else {
      var p := NextAll(maxStreams, es[..k-1]);
      assert outcomes[k-1] == Answer(maxStreams, p, es[k-1]);
      hide Answers;
      AcceptedPush(outcomes, k-1);
      NextAllStep(maxStreams, es, k-1);
      OneAccepted(maxStreams, p, es[k-1]);
      AcceptedInOrder(maxStreams, es, outcomes, k-1);
    }
  }

  lemma NothingAccepted(maxStreams: nat, es: seq<Event>, outcomes: seq<Outcome>)
    ensures AcceptedNumbers(outcomes[..0]) == UpTo(NextAll(maxStreams, es[..0]).accepted)
  {
  }

  lemma AcceptedPush(outcomes: seq<Outcome>, k: nat)
    requires k < |outcomes|
    ensures AcceptedNumbers(outcomes[..k+1]) == AcceptedNumbers(outcomes[..k]) + AcceptedNumber(outcomes[k])
  {
    assert outcomes[..k+1][..k] == outcomes[..k];
  }

  lemma OneAccepted(maxStreams: nat, p: Peer, e: Event)
    ensures var n := AcceptedNumber(Answer(maxStreams, p, e));
            Next(maxStreams, p, e).accepted == p.accepted + |n| && (n == [] || n == [p.accepted + 1])
  {
  }

  // 1, 2, ..., n
  function UpTo(n: nat): seq<nat> {
    if n == 0 then [] else UpTo(n-1) + [n]
  }

  function AcceptedNumber(o: Outcome): seq<nat> {
    if o.Accepted? && o.num.Some? then [o.num.value] else []
  }

  function AcceptedNumbers(outcomes: seq<Outcome>): seq<nat> {
    if outcomes == [] then []
    else AcceptedNumbers(outcomes[..|outcomes|-1]) + AcceptedNumber(outcomes[|outcomes|-1])
  }
}
