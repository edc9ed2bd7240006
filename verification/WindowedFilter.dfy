/** The three-slot summary of a history of samples (internal/congestion/windowed_filter.go). */
module WindowedFilters {

  datatype Sample = Sample(sample: int, time: int)

  /** The comparator that the filter is built with. */
  datatype Kind = MaxFilter | MinFilter

  predicate Better(kind: Kind, a: int, b: int) {
    if kind == MaxFilter then a >= b else a <= b
  }

  /** Times that start at 1 or later and do not decrease. */
  ghost predicate Timed(h: seq<Sample>) {
    && (forall i :: 0 <= i < |h| ==> 1 <= h[i].time)
    && (forall i, j :: 0 <= i < j < |h| ==> h[i].time <= h[j].time)
  }

  /** No sample from position b on is better. */
  ghost predicate Best(kind: Kind, h: seq<Sample>, b: nat, s: int) {
    forall k :: b <= k < |h| ==> Better(kind, s, h[k].sample)
  }

  /** Slot e holds the sample submitted at position b, which is the best of all submitted since. */
  ghost predicate Slot(kind: Kind, h: seq<Sample>, b: nat, e: Sample) {
    b < |h| && h[b] == e && Best(kind, h, b, e.sample)
  }

  lemma SlotStays(kind: Kind, h: seq<Sample>, b: nat, e: Sample, x: Sample)
    requires Slot(kind, h, b, e) && Better(kind, e.sample, x.sample)
    ensures Slot(kind, h + [x], b, e)
  {
  }

  lemma SlotNew(kind: Kind, h: seq<Sample>, x: Sample)
    ensures Slot(kind, h + [x], |h|, x)
  {
  }

  lemma SlotOrder(kind: Kind, h: seq<Sample>, b: nat, e: Sample, c: nat, f: Sample)
    requires Timed(h) && Slot(kind, h, b, e) && Slot(kind, h, c, f) && b <= c
    ensures Better(kind, e.sample, f.sample) && 1 <= e.time <= f.time
  {
    assert b == c || h[b].time <= h[c].time;
  }

  lemma SlotLast(kind: Kind, h: seq<Sample>)
    requires h != []
    ensures Slot(kind, h, |h| - 1, h[|h|-1])
  {
  }

  lemma SlotBound(kind: Kind, h: seq<Sample>, b: nat, e: Sample)
    requires Slot(kind, h, b, e)
    ensures b < |h|
  {
  }

  lemma SlotPast(kind: Kind, h: seq<Sample>, b: nat, e: Sample)
    requires Timed(h) && Slot(kind, h, b, e)
    ensures e.time <= h[|h|-1].time
  {
  }

  datatype Estimates = Estimates(best: Sample, second: Sample, third: Sample)

  const NOTHING := Estimates(Sample(0, 0), Sample(0, 0), Sample(0, 0))

  /** What a filter makes of one sample. */
  function Updated(kind: Kind, window: int, e: Estimates, x: Sample): Estimates {
    if e.best.time == 0 || Better(kind, x.sample, e.best.sample) || x.time - e.third.time > window then
      Estimates(x, x, x)
    else Aged(window, Inserted(kind, e, x), x)
  }

  function Inserted(kind: Kind, e: Estimates, x: Sample): Estimates {
    if Better(kind, x.sample, e.second.sample) then Estimates(e.best, x, x)
    else if Better(kind, x.sample, e.third.sample) then Estimates(e.best, e.second, x)
    else e
  }

  function Aged(window: int, e: Estimates, x: Sample): Estimates {
    if x.time - e.best.time > window then
      if x.time - e.second.time > window then Estimates(e.third, x, x) else Estimates(e.second, e.third, x)
    else if e.second.sample == e.best.sample && x.time - e.second.time > window / 4 then Estimates(e.best, x, x)
    else if e.third.sample == e.second.sample && x.time - e.third.time > window / 2 then Estimates(e.best, e.second, x)
    else e
  }

  /** Second and third best are renewed after a quarter and a half of the window. */
  predicate Spread(window: int, e: Estimates, time: int) {
    && (e.second.sample == e.best.sample ==> time - e.second.time <= window / 4)
    && (e.third.sample == e.second.sample ==> time - e.third.time <= window / 2)
  }

  /** From one sample to the next: the best estimate does not get older, it does not get worse than any of the three
      that is still in the window, and it stays for as long as it is there unless the new sample is as good.  When it
      goes, the others move up and the new sample is third; when it stays, the others give way only to the new sample,
      if that is as good or comes a part of the window later. */
  predicate Advances(kind: Kind, window: int, e: Estimates, x: Sample, e': Estimates) {
    && e.best.time <= e'.best.time
    && (x.time - e.best.time <= window ==> Better(kind, e'.best.sample, e.best.sample))
    && (x.time - e.second.time <= window ==> Better(kind, e'.best.sample, e.second.sample))
    && (x.time - e.third.time <= window ==> Better(kind, e'.best.sample, e.third.sample))
    && (x.time - e.best.time <= window && !Better(kind, x.sample, e.best.sample) ==>
       e'.best == e.best && Spread(window, e', x.time) && GivesWay(kind, window, e, x, e'))
    && (x.time - e.best.time > window ==>
       && e'.third == x && (e'.second == e.third || e'.second == x)
       && (x.time - e.second.time <= window ==> Better(kind, e'.second.sample, e.third.sample)))
    && (Better(kind, x.sample, e.best.sample) ==> e' == Estimates(x, x, x))
  }

  predicate GivesWay(kind: Kind, window: int, e: Estimates, x: Sample, e': Estimates) {
    && (e'.second == e.second || e'.second == e'.third == x)
    && (e'.third == e.third || e'.third == x)
    && (e'.second == e.second ==> !Better(kind, x.sample, e.second.sample) || x == e.second)
    && (e'.third == e.third ==> !Better(kind, x.sample, e.third.sample) || x == e.third)
    && (e'.second != e.second ==>
       || Better(kind, x.sample, e.second.sample)
       || (e.second.sample == e.best.sample && x.time - e.second.time > window / 4))
    && (e'.third != e.third ==>
       || e'.second == x || Better(kind, x.sample, e.third.sample)
       || (e.third.sample == e.second.sample && x.time - e.third.time > window / 2))
  }

  class WindowedFilter {
    var windowLength: int
    const estimates: array<Sample>
    const kind: Kind

    ghost var history: seq<Sample>
    ghost var at: (nat, nat, nat)   // where in the history the estimates come from

    ghost predicate Valid()
      reads this, estimates
    {
      && 0 <= windowLength && estimates.Length == 3 && Timed(history)
      && (history == [] ==> estimates[0].time == 0)
      && (history != [] ==> Tracks())
    }

    function Look(): Estimates
      reads estimates
      requires estimates.Length == 3
    {
      Estimates(estimates[0], estimates[1], estimates[2])
    }

    lemma Shape()
      requires Valid()
      ensures estimates.Length == 3 && (history != [] ==> Slot(kind, history, at.0, estimates[0]))
    {
    }

    ghost predicate Tracks()
      reads this, estimates
      requires estimates.Length == 3
    {
      && at.0 <= at.1 <= at.2
      && Slot(kind, history, at.0, estimates[0])
      && Slot(kind, history, at.1, estimates[1])
      && Slot(kind, history, at.2, estimates[2])
    }

    constructor (windowLength: int, kind: Kind)
      requires 0 <= windowLength
      ensures Valid() && history == [] && fresh(estimates) && this.windowLength == windowLength && this.kind == kind
      ensures Look() == NOTHING
    {
      this.windowLength, this.kind := windowLength, kind;
      estimates := new Sample[3](_ => Sample(0, 0));
      history, at := [], (0, 0, 0);
    }

    method Reset(newSample: int, newTime: int)
      requires estimates.Length == 3
      modifies estimates
      ensures estimates[0] == estimates[1] == estimates[2] == Sample(newSample, newTime)
    {
      estimates[0] := Sample(newSample, newTime);
      estimates[1] := Sample(newSample, newTime);
      estimates[2] := Sample(newSample, newTime);
    }

    // All estimates become the new sample.
    method Restart(sample: int, time: int)
      requires Valid() && 1 <= time && (history != [] ==> history[|history|-1].time <= time)
      modifies this`history, this`at, estimates
      ensures Valid() && history == old(history) + [Sample(sample, time)]
      ensures estimates[0] == estimates[1] == estimates[2] == Sample(sample, time)
    {
      hide Slot;
      ghost var h := history;
      SlotNew(kind, h, Sample(sample, time));
      Reset(sample, time);
      history, at := h + [Sample(sample, time)], (|h|, |h|, |h|);
    }

    // The first half of Update: the new sample takes the place of second and third best if it is at least as good.
    method Insert(sample: int, time: int)
      requires Valid() && history != [] && history[|history|-1].time <= time
      requires Better(kind, estimates[0].sample, sample)
      modifies this`history, this`at, estimates
      ensures Valid() && history == old(history) + [Sample(sample, time)]
      ensures estimates[0] == old(estimates[0])
      ensures estimates[1] ==
                if Better(kind, sample, old(estimates[1]).sample) then Sample(sample, time) else old(estimates[1])
      ensures estimates[2] == if Better(kind, sample, old(estimates[1]).sample) ||
                Better(kind, sample, old(estimates[2]).sample) then Sample(sample, time) else old(estimates[2])
      ensures Look() == Inserted(kind, old(Look()), Sample(sample, time))
    {
      hide Slot;
      ghost var h := history;
      var x := Sample(sample, time);
      SlotNew(kind, h, x);
      SlotStays(kind, h, at.0, estimates[0], x);
      history := h + [x];
      if Better(kind, sample, estimates[1].sample) {
        estimates[1], estimates[2] := x, x;
        at := (at.0, |h|, |h|);
      } else if Better(kind, sample, estimates[2].sample) {
        SlotStays(kind, h, at.1, estimates[1], x);
        estimates[2] := x;
        SlotBound(kind, h, at.1, estimates[1]);
        at := (at.0, at.1, |h|);
      } else {
        SlotStays(kind, h, at.1, estimates[1], x);
        SlotStays(kind, h, at.2, estimates[2], x);
      }
    }

    /** Update.  The best estimate is a sample from the window and no sample submitted since is better; second and third
        are later and not better.  No estimate that is still in the window is lost for a worse best one. */
    method Update(sample: int, time: int)
      requires Valid() && 1 <= time && (history != [] ==> history[|history|-1].time <= time)
      modifies this`history, this`at, estimates
      ensures Valid() && history == old(history) + [Sample(sample, time)]
      ensures Better(kind, estimates[0].sample, estimates[1].sample) &&
                Better(kind, estimates[1].sample, estimates[2].sample)
      ensures estimates[0].time <= estimates[1].time <= estimates[2].time <= time
      ensures time - estimates[0].time <= windowLength
      ensures old(history) != [] ==>
                Outlives(old(estimates[0]), time) && Outlives(old(estimates[1]), time) &&
                    Outlives(old(estimates[2]), time)
      ensures old(history) != [] ==> old(estimates[0]).time <= estimates[0].time
      ensures old(history) != [] ==> Advances(kind, windowLength, old(Look()), Sample(sample, time), Look())
      ensures Look() == Updated(kind, windowLength, old(Look()), Sample(sample, time))
    {
      hide Slot;
      if history != [] {
        SlotOrder(kind, history, at.0, estimates[0], at.1, estimates[1]);
        SlotOrder(kind, history, at.1, estimates[1], at.2, estimates[2]);
        SlotPast(kind, history, at.2, estimates[2]);
      }
      if estimates[0].time == 0 || Better(kind, sample, estimates[0].sample) ||
          time - estimates[2].time > windowLength {
        Restart(sample, time);
        return;
      }
      Insert(sample, time);
      Age(sample, time);
    }

    /** An estimate that is still in the window is not better than the best one. */
    ghost predicate Outlives(e: Sample, time: int)
      reads this`windowLength, estimates
      requires estimates.Length == 3
    {
      time - e.time <= windowLength ==> Better(kind, estimates[0].sample, e.sample)
    }

    // The second half of Update: what is too old makes room for what is newer.
    method Age(sample: int, time: int)
      requires Valid() && history != [] && history[|history|-1] == Sample(sample, time)
      requires time - estimates[2].time <= windowLength
      modifies this`at, estimates
      ensures Valid()
      ensures Better(kind, estimates[0].sample, estimates[1].sample) &&
                Better(kind, estimates[1].sample, estimates[2].sample)
      ensures estimates[0].time <= estimates[1].time <= estimates[2].time <= time
      ensures time - estimates[0].time <= windowLength
      ensures Outlives(old(estimates[0]), time) && Outlives(old(estimates[1]), time) &&
                Outlives(old(estimates[2]), time)
      ensures old(estimates[0]).time <= estimates[0].time
      ensures time - old(estimates[0]).time <= windowLength ==>
                estimates[0] == old(estimates[0]) && Spread(windowLength, Look(), time)
      ensures Look() == Aged(windowLength, old(Look()), Sample(sample, time))
    {
      hide Slot;
      ghost var last := |history| - 1;
      SlotLast(kind, history);
      SlotBound(kind, history, at.0, estimates[0]);
      SlotBound(kind, history, at.1, estimates[1]);
      SlotBound(kind, history, at.2, estimates[2]);
      SlotOrder(kind, history, at.0, estimates[0], at.1, estimates[1]);
      SlotOrder(kind, history, at.1, estimates[1], at.2, estimates[2]);
      SlotOrder(kind, history, at.2, estimates[2], last, Sample(sample, time));
      if time - estimates[0].time > windowLength {
        estimates[0], estimates[1], estimates[2] := estimates[1], estimates[2], Sample(sample, time);
        at := (at.1, at.2, last);
        if time - estimates[0].time > windowLength {
          estimates[0], estimates[1] := estimates[1], estimates[2];
          at := (at.1, at.2, last);
        }
      } else if estimates[1].sample == estimates[0].sample && time - estimates[1].time > windowLength / 4 {
        estimates[1], estimates[2] := Sample(sample, time), Sample(sample, time);
        at := (at.0, last, last);
      } else if estimates[2].sample == estimates[1].sample && time - estimates[2].time > windowLength / 2 {
        estimates[2] := Sample(sample, time);
        at := (at.0, at.1, last);
      }
    }

    function GetBest(): int
      reads estimates
      requires estimates.Length == 3
    {
      estimates[0].sample
    }
  }

  // ----- whole runs

  /** After the sample at position j: the best estimate is a sample from the window, and no sample submitted since is
      better; second and third are later and not better. */
  ghost predicate Summary(kind: Kind, window: int, samples: seq<Sample>, j: nat, e: Estimates)
    requires j < |samples|
  {
    && (exists b: nat :: Since(kind, samples, b, j, e.best))
    && samples[j].time - e.best.time <= window
    && Better(kind, e.best.sample, e.second.sample) && Better(kind, e.second.sample, e.third.sample)
    && e.best.time <= e.second.time <= e.third.time <= samples[j].time
  }

  ghost predicate Since(kind: Kind, samples: seq<Sample>, b: nat, j: nat, s: Sample)
    requires j < |samples|
  {
    b <= j && samples[b] == s && forall k :: b <= k <= j ==> Better(kind, s.sample, samples[k].sample)
  }

  ghost predicate Follows(kind: Kind, window: int, samples: seq<Sample>, trace: seq<Estimates>) {
    && |trace| <= |samples|
    && (forall j :: 0 <= j < |trace| ==> Summary(kind, window, samples, j, trace[j]))
    && (forall j :: 0 <= j < |trace|-1 ==> Advances(kind, window, trace[j], samples[j+1], trace[j+1]))
  }

  lemma FollowsOn(kind: Kind, window: int, samples: seq<Sample>, trace: seq<Estimates>, e: Estimates)
    requires Follows(kind, window, samples, trace) && |trace| < |samples| && Summary(kind, window, samples, |trace|, e)
    requires trace != [] ==> Advances(kind, window, trace[|trace|-1], samples[|trace|], e)
    ensures Follows(kind, window, samples, trace + [e])
  {
    hide Summary, Advances;
    var t := trace + [e];
    forall j | 0 <= j < |t|-1 ensures Advances(kind, window, t[j], samples[j+1], t[j+1]) {
      assert j < |trace|-1 ==> t[j] == trace[j] && t[j+1] == trace[j+1];
    }
  }

  lemma SummaryIs(kind: Kind, window: int, samples: seq<Sample>, j: nat, e: Estimates, b: nat)
    requires j < |samples| && Slot(kind, samples[..j+1], b, e.best)
    requires samples[j].time - e.best.time <= window
    requires Better(kind, e.best.sample, e.second.sample) && Better(kind, e.second.sample, e.third.sample)
    requires e.best.time <= e.second.time <= e.third.time <= samples[j].time
    ensures Summary(kind, window, samples, j, e)
  {
    var h := samples[..j+1];
    forall k | b <= k <= j ensures Better(kind, e.best.sample, samples[k].sample) {
      assert h[k] == samples[k];
    }
    assert Since(kind, samples, b, j, e.best);
  }

  /** As long as the best estimate of position k is in the window, the best one is at least as good as it is, and as the
      sample submitted at position k. */
  lemma {:induction false} Remembers(kind: Kind, window: int, samples: seq<Sample>, trace: seq<Estimates>, k: nat,
                                     j: nat)
    requires Timed(samples) && Follows(kind, window, samples, trace) && k <= j < |trace|
    requires samples[j].time - trace[k].best.time <= window
    ensures trace[k].best.time <= trace[j].best.time
    ensures Better(kind, trace[j].best.sample, trace[k].best.sample) &&
              Better(kind, trace[j].best.sample, samples[k].sample)
    decreases j
  {
    if k == j {
      assert Summary(kind, window, samples, k, trace[k]);
      var b: nat :| Since(kind, samples, b, k, trace[k].best);
    } else {
      assert samples[j-1].time <= samples[j].time;
      Remembers(kind, window, samples, trace, k, j-1);
      assert Advances(kind, window, trace[j-1], samples[j-1+1], trace[j-1+1]);
    }
  }

  lemma NotBeforeFirst(kind: Kind, window: int, samples: seq<Sample>, k: nat, e: Estimates)
    requires Timed(samples) && k < |samples| && Summary(kind, window, samples, k, e)
    ensures samples[0].time <= e.best.time
  {
    var b: nat :| Since(kind, samples, b, k, e.best);
    assert b == 0 || samples[0].time <= samples[b].time;
  }

  /** As long as all samples are in the window, the best estimate is the best of all. */
  lemma BestOfAll(kind: Kind, window: int, samples: seq<Sample>, trace: seq<Estimates>, j: nat)
    requires Timed(samples) && Follows(kind, window, samples, trace) && j < |trace|
    requires samples[j].time - samples[0].time <= window
    ensures Best(kind, samples[..j+1], 0, trace[j].best.sample)
  {
    var h := samples[..j+1];
    forall k | 0 <= k < |h| ensures Better(kind, trace[j].best.sample, h[k].sample) {
      NotBeforeFirst(kind, window, samples, k, trace[k]);
      Remembers(kind, window, samples, trace, k, j);
    }
  }

  lemma LastTwo(h: seq<Sample>, x: Sample, samples: seq<Sample>)
    requires h + [x] == samples && Timed(samples)
    ensures samples[|samples|-1] == x && 1 <= x.time && (h != [] ==> h[|h|-1].time <= x.time)
  {
    assert h != [] ==> samples[|h|-1] == h[|h|-1];
  }

  // One sample more, at position |samples| - 1.
  method Submit(filter: WindowedFilter, x: Sample, ghost samples: seq<Sample>) returns (e: Estimates)
    requires filter.Valid() && filter.history + [x] == samples && Timed(samples)
    modifies filter`history, filter`at, filter.estimates
    ensures filter.Valid() && filter.history == samples && e == filter.Look()
    ensures Summary(filter.kind, filter.windowLength, samples, |samples|-1, e)
    ensures old(filter.history) != [] ==> Advances(filter.kind, filter.windowLength, old(filter.Look()), x, e)
  {
    LastTwo(filter.history, x, samples);
    filter.Shape();
    hide WindowedFilter.Valid, Timed, Slot;
    filter.Update(x.sample, x.time);
    filter.Shape();
    e := filter.Look();
    assert samples[..|samples|] == samples;
    SummaryIs(filter.kind, filter.windowLength, samples, |samples|-1, e, filter.at.0);
  }

  lemma SummaryMore(kind: Kind, window: int, samples: seq<Sample>, i: nat, e: Estimates)
    requires i < |samples| && Summary(kind, window, samples[..i+1], i, e)
    ensures Summary(kind, window, samples, i, e)
  {
    var h := samples[..i+1];
    var b: nat :| Since(kind, h, b, i, e.best);
    forall k | b <= k <= i ensures Better(kind, e.best.sample, samples[k].sample) {
      assert h[k] == samples[k];
    }
    assert Since(kind, samples, b, i, e.best);
  }

  /** The estimates after each sample of a run: in every state they are a summary of what was submitted, the best one
      is not forgotten while it is in the window, and while everything is in the window it is the extremum of
      everything. */
  method Run(kind: Kind, windowLength: nat, samples: seq<Sample>) returns (trace: seq<Estimates>)
    requires Timed(samples)
    ensures |trace| == |samples| && Follows(kind, windowLength, samples, trace)
    ensures forall k, j :: 0 <= k <= j < |samples| && samples[j].time - trace[k].best.time <= windowLength ==>
              Better(kind, trace[j].best.sample, samples[k].sample)
    ensures forall j :: 0 <= j < |samples| && samples[j].time - samples[0].time <= windowLength ==>
              Best(kind, samples[..j+1], 0, trace[j].best.sample)
  {
    hide WindowedFilter.Valid, Follows, Summary, Advances;
    var filter := new WindowedFilter(windowLength, kind);
    trace := [];
    StartsEmpty(kind, windowLength, samples);
    for i := 0 to |samples|
      invariant filter.Valid() && fresh(filter) && fresh(filter.estimates) && filter.kind == kind
      invariant filter.estimates.Length == 3 && filter.windowLength == windowLength && filter.history == samples[..i]
      invariant |trace| == i && Follows(kind, windowLength, samples, trace)
      invariant 0 < i ==> trace[i-1] == filter.Look()
    {
      assert samples[..i+1] == samples[..i] + [samples[i]];
      TimedPrefix(samples, i + 1);
      var e := Submit(filter, samples[i], samples[..i+1]);
      SummaryMore(kind, windowLength, samples, i, e);
      FollowsOn(kind, windowLength, samples, trace, e);
      trace := trace + [e];
    }
    forall k, j | 0 <= k <= j < |samples| && samples[j].time - trace[k].best.time <= windowLength
      ensures Better(kind, trace[j].best.sample, samples[k].sample)
    {
      Remembers(kind, windowLength, samples, trace, k, j);
    }
    forall j | 0 <= j < |samples| && samples[j].time - samples[0].time <= windowLength
      ensures Best(kind, samples[..j+1], 0, trace[j].best.sample)
    {
      BestOfAll(kind, windowLength, samples, trace, j);
    }
  }

  lemma StartsEmpty(kind: Kind, window: int, samples: seq<Sample>)
    ensures Follows(kind, window, samples, [])
  {
  }

  lemma TimedPrefix(samples: seq<Sample>, n: nat)
    requires Timed(samples) && n <= |samples|
    ensures Timed(samples[..n])
  {
  }
}
