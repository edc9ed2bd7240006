/** The generator of packet numbers, which leaves out a number now and then
    (internal/ackhandler/packet_number_generator.go). */
module PacketNumberGenerators {
  import opened AckRanges

  const MAX_TRACKED_SKIPPED_PACKETS := 10

  // The last n of a sequence, or all if there are no more.
  function LastOf(s: seq<nat>, n: nat): seq<nat> {
    if |s| <= n then s else s[|s|-n..]
  }

  lemma LastOfPush(s: seq<nat>, n: nat, x: nat)
    requires 0 < n
    ensures LastOf(s + [x], n) == (if |LastOf(s, n)| + 1 > n then LastOf(s, n)[1..] else LastOf(s, n)) + [x]
    ensures |LastOf(s, n)| <= n
  {
  }

  // In order, and no two of them are neighbours.
  ghost predicate Apart(s: seq<nat>) {
    forall i, j :: 0 <= i < j < |s| ==> s[i] + 1 < s[j]
  }

  lemma ApartPush(s: seq<nat>, x: nat)
    requires Apart(s) && forall n :: n in s ==> n + 1 < x
    ensures Apart(s + [x])
  {
    assert forall i :: 0 <= i < |s| ==> s[i] in s;
  }

  class PacketNumberGenerator {
    const initial: nat
    const averagePeriod: nat
    var next: nat
    var nextToSkip: nat
    var history: seq<nat>      // the last numbers left out

    ghost var popped: set<nat>
    ghost var skipped: seq<nat>   // all numbers left out, in order

    /** Every number below `next` was either handed out or left out, never both, and no two neighbours were
        left out; the last ten of those left out are recorded.  (`1 <= averagePeriod` is what makes the distance to the
        next skip a natural number.) */
    ghost predicate Valid()
      reads this
    {
      && 1 <= averagePeriod
      && initial <= next < nextToSkip
      && (forall n :: n in popped || n in skipped <==> initial <= n < next)
      && (forall n :: n in skipped ==> n !in popped && n + 1 != nextToSkip)
      && Apart(skipped)
      && history == LastOf(skipped, 10)
    }

    constructor (first: nat, period: nat, random: nat)
      requires 1 <= period
      ensures Valid() && initial == first && next == first && popped == {} && skipped == []
      ensures nextToSkip == first + 2 + random * (period - 1) / 32767
    {
      initial, averagePeriod, next, history := first, period, first, [];
      nextToSkip := first + 2 + random * (period - 1) / 32767;
      popped, skipped := {}, [];
    }

    static lemma SkipDistance(random: nat, period: nat)
      requires 1 <= period
      ensures 0 <= random * (period - 1) / 32767
    {
      assert 0 <= random * (period - 1);
    }

    /** `random` stands for the 16-bit random number that places the next gap. */
    method GenerateNewSkip(random: nat)
      requires 1 <= averagePeriod
      modifies this`nextToSkip
      ensures next + 2 <= nextToSkip == next + 2 + random * (averagePeriod - 1) / 32767
    {
      SkipDistance(random, averagePeriod);
      nextToSkip := next + 2 + random * (averagePeriod - 1) / 32767;
    }

    function Peek(): nat
      reads this
    {
      next
    }

    /** Numbers come out in increasing order and are never repeated; the number that was chosen is left out and
        recorded, and the next one is chosen. */
    method Pop(random: nat) returns (r: nat)
      requires Valid()
      modifies this
      ensures Valid()
      ensures r == old(Peek()) && popped == old(popped) + {r}
      ensures next == if old(nextToSkip) == r + 1 then r + 2 else r + 1
      ensures skipped == old(skipped) + if old(nextToSkip) == r + 1 then [r + 1] else []
      ensures nextToSkip == if old(nextToSkip) == r + 1 then next + 2 + random * (averagePeriod - 1) / 32767
                            else old(nextToSkip)
    {
      hide LastOf, Apart;
      r := next;
      next := next + 1;
      popped := popped + {r};
      if next == nextToSkip {
        LastOfPush(skipped, MAX_TRACKED_SKIPPED_PACKETS, next);
        ApartPush(skipped, next);
        if |history| + 1 > MAX_TRACKED_SKIPPED_PACKETS {
          history := history[1..];
        }
        history := history + [next];
        skipped := skipped + [next];
        next := next + 1;
        GenerateNewSkip(random);
      }
    }

    /** An ACK is refused exactly when it covers one of the last ten numbers left out. */
    method Validate(rs: seq<AckRange>) returns (ok: bool)
      requires Valid() && WellFormed(rs)
      ensures ok <==> forall i :: 0 <= i < |skipped| && |skipped| - 10 <= i ==> !Covers(rs, skipped[i])
      ensures (forall n: nat :: Covers(rs, n) ==> n in popped) ==> ok
    {
      for i := 0 to |history|
        invariant forall k :: 0 <= k < i ==> !Covers(rs, history[k])
      {
        var hit := AcksPacket(rs, history[i]);
        if hit {
          assert history[i] in skipped;
          return false;
        }
      }
      return true;
    }
  }

  /** For every run: the numbers handed out increase by one or, where one is left out, by two, so none comes twice and
      no two neighbours are left out. */
  method Run(first: nat, period: nat, randoms: seq<nat>) returns (numbers: seq<nat>, skipped: seq<nat>)
    requires 1 <= period && randoms != []
    ensures |numbers| == |randoms| - 1 && (numbers != [] ==> numbers[0] == first) && Apart(skipped)
    ensures forall i :: 0 <= i < |numbers| - 1 ==>
              numbers[i+1] == numbers[i] + if numbers[i] + 1 in skipped then 2 else 1
    ensures forall n :: n in numbers ==> n !in skipped
  {
    hide LastOf, Apart;
    var g := new PacketNumberGenerator(first, period, randoms[0]);
    numbers, skipped := [], [];
    for i := 1 to |randoms|
      invariant g.Valid() && fresh(g) && |numbers| == i - 1 && skipped == g.skipped
      invariant g.next == if numbers == [] then first else numbers[i-2] + if numbers[i-2] + 1 in skipped then 2 else 1
      invariant numbers != [] ==> numbers[0] == first
      invariant forall k :: 0 <= k < |numbers| - 1 ==>
                  numbers[k+1] == numbers[k] + if numbers[k] + 1 in skipped then 2 else 1
      invariant forall n :: n in numbers ==> n in g.popped && n < g.next
      invariant forall n :: n in skipped ==> n < g.next
    {
      var skip := g.nextToSkip == g.next + 1;
      var r := g.Pop(randoms[i]);
      numbers := numbers + [r];
      if skip {
        skipped := skipped + [r + 1];
      }
    }
  }
}
