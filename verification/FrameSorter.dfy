/** Stream reassembly (frame_sorter.go): a sorted list of gaps in what was received, and a map from offset to the
    chunk of data stored there. */
module FrameSorters {
  import opened Common
  import opened Bytes

  const MAX_STREAM_FRAME_SORTER_GAPS := 1000

  type Queue = map<nat, seq<byte>>

  // ----- gaps as sets of offsets

  predicate InInterval(g: Interval, x: nat) {
    g.start <= x < g.end
  }

  /** Offset x is in one of the gaps. */
  predicate Missing(gs: seq<Interval>, x: nat) {
    gs != [] && (InInterval(gs[0], x) || Missing(gs[1..], x))
  }

  /** The gaps without the offsets from a up to b. */
  function Punch(gs: seq<Interval>, a: nat, b: nat): seq<Interval> {
    if gs == [] then [] else Pieces(gs[0], a, b) + Punch(gs[1..], a, b)
  }

  function Pieces(g: Interval, a: nat, b: nat): seq<Interval> {
    if g.end <= a || b <= g.start then [g]
    else (if g.start < a then [Interval(g.start, a)] else []) + (if b < g.end then [Interval(b, g.end)] else [])
  }

  predicate Proper(gs: seq<Interval>) {
    forall i :: 0 <= i < |gs| ==> gs[i].start < gs[i].end
  }

  /** Gaps that are not empty, in order, and do not touch. */
  predicate Separated(gs: seq<Interval>) {
    Proper(gs) && forall i :: 0 <= i < |gs|-1 ==> gs[i].end < gs[i+1].start
  }

  lemma SeparatedConcat(xs: seq<Interval>, ys: seq<Interval>)
    requires Separated(xs) && Separated(ys) && (xs != [] && ys != [] ==> xs[|xs|-1].end < ys[0].start)
    ensures Separated(xs + ys)
  {
  }

  lemma SeparatedTail(gs: seq<Interval>)
    requires Separated(gs) && gs != []
    ensures Separated(gs[1..]) && gs[0].start < gs[0].end && (|gs| > 1 ==> gs[0].end < gs[1].start)
  {
    assert forall i :: 0 <= i < |gs|-1 ==> gs[1..][i] == gs[i+1];
  }

  lemma PiecesSeparated(g: Interval, a: nat, b: nat)
    requires g.start < g.end && a < b
    ensures var xs := Pieces(g, a, b);
            Separated(xs) && (xs != [] ==> g.start <= xs[0].start && xs[|xs|-1].end <= g.end)
  {
  }

  lemma {:induction false} PunchSeparated(gs: seq<Interval>, a: nat, b: nat)
    requires Separated(gs) && a < b
    ensures Separated(Punch(gs, a, b))
    ensures Punch(gs, a, b) != [] ==> gs != [] && gs[0].start <= Punch(gs, a, b)[0].start
  {
    if gs != [] {
      var xs, ys := Pieces(gs[0], a, b), Punch(gs[1..], a, b);
      assert Punch(gs, a, b) == xs + ys;
      SeparatedTail(gs);
      hide Separated, Punch, Pieces;
      PunchSeparated(gs[1..], a, b);
      PiecesSeparated(gs[0], a, b);
      SeparatedConcat(xs, ys);
    }
  }

  lemma {:induction false} MissingConcat(xs: seq<Interval>, ys: seq<Interval>, x: nat)
    ensures Missing(xs + ys, x) <==> Missing(xs, x) || Missing(ys, x)
  {
    if xs == [] {
      assert xs + ys == ys;
    } else {
      assert (xs + ys)[1..] == xs[1..] + ys;
      MissingConcat(xs[1..], ys, x);
    }
  }

  lemma PiecesMissing(g: Interval, a: nat, b: nat, x: nat)
    requires a <= b && g.start < g.end
    ensures Missing(Pieces(g, a, b), x) <==> InInterval(g, x) && !(a <= x < b)
  {
    var left := if g.start < a then [Interval(g.start, a)] else [];
    var right := if b < g.end then [Interval(b, g.end)] else [];
    MissingConcat(left, right, x);
    assert Missing(left, x) <==> g.start <= x < a;
    assert Missing(right, x) <==> b <= x < g.end;
    assert Missing([g], x) <==> InInterval(g, x);
  }

  lemma {:induction false} PunchMissing(gs: seq<Interval>, a: nat, b: nat, x: nat)
    requires a <= b && Proper(gs)
    ensures Missing(Punch(gs, a, b), x) <==> Missing(gs, x) && !(a <= x < b)
  {
    if gs != [] {
      PunchMissing(gs[1..], a, b, x);
      MissingConcat(Pieces(gs[0], a, b), Punch(gs[1..], a, b), x);
      PiecesMissing(gs[0], a, b, x);
    }
  }

  lemma {:induction false} PunchConcat(xs: seq<Interval>, ys: seq<Interval>, a: nat, b: nat)
    ensures Punch(xs + ys, a, b) == Punch(xs, a, b) + Punch(ys, a, b)
  {
    if xs == [] {
      assert xs + ys == ys;
    } else {
      assert (xs + ys)[1..] == xs[1..] + ys;
      PunchConcat(xs[1..], ys, a, b);
    }
  }

  /** No gap has an offset from lo up to hi. */
  predicate Clear(gs: seq<Interval>, lo: nat, hi: nat) {
    gs != [] ==> (gs[0].end <= lo || hi <= gs[0].start) && Clear(gs[1..], lo, hi)
  }

  lemma {:induction false} PunchClear(gs: seq<Interval>, a: nat, b: nat)
    requires Clear(gs, a, b)
    ensures Punch(gs, a, b) == gs
  {
    if gs != [] {
      PunchClear(gs[1..], a, b);
    }
  }

  lemma {:induction false} PunchOutside(gs: seq<Interval>, a: nat, b: nat)
    requires forall i :: 0 <= i < |gs| ==> gs[i].end <= a || b <= gs[i].start
    ensures Punch(gs, a, b) == gs
  {
    if gs != [] {
      PunchOutside(gs[1..], a, b);
    }
  }

  lemma {:induction false} PunchInside(gs: seq<Interval>, a: nat, b: nat)
    requires forall i :: 0 <= i < |gs| ==> a <= gs[i].start < gs[i].end <= b
    ensures Punch(gs, a, b) == []
  {
    if gs != [] {
      PunchInside(gs[1..], a, b);
    }
  }

  // Offsets that are not missing anyway make no difference.
  lemma {:induction false} PunchReceived(gs: seq<Interval>, a: nat, a': nat, b: nat)
    requires a <= a' < b && Clear(gs, a, a') && Proper(gs)
    ensures Punch(gs, a, b) == Punch(gs, a', b)
  {
    if gs != [] {
      PunchReceived(gs[1..], a, a', b);
    }
  }

  lemma {:induction false} ClearConcat(xs: seq<Interval>, ys: seq<Interval>, lo: nat, hi: nat)
    ensures Clear(xs + ys, lo, hi) <==> Clear(xs, lo, hi) && Clear(ys, lo, hi)
  {
    if xs == [] {
      assert xs + ys == ys;
    } else {
      assert (xs + ys)[1..] == xs[1..] + ys;
      ClearConcat(xs[1..], ys, lo, hi);
    }
  }

  lemma {:induction false} PunchKeepsClear(gs: seq<Interval>, a: nat, b: nat, lo: nat, hi: nat)
    requires a <= b
    requires Clear(gs, lo, hi) || (a <= lo && hi <= b)
    ensures Clear(Punch(gs, a, b), lo, hi)
  {
    if gs != [] {
      PunchKeepsClear(gs[1..], a, b, lo, hi);
      ClearConcat(Pieces(gs[0], a, b), Punch(gs[1..], a, b), lo, hi);
      assert Clear(Pieces(gs[0], a, b), lo, hi);
    }
  }

  // ----- blocks of received data as chains of chunks

  /** Following the chunks stored in q from offset a leads exactly to offset b. */
  ghost predicate Chain(q: Queue, a: nat, b: nat)
    decreases b - a
  {
    a == b || (a < b && a in q && 0 < |q[a]| && Chain(q, a + |q[a]|, b))
  }

  lemma {:induction false} ChainConcat(q: Queue, a: nat, b: nat, c: nat)
    requires Chain(q, a, b) && Chain(q, b, c)
    ensures Chain(q, a, c)
    decreases b - a
  {
    ChainUp(q, b, c);
    if a != b {
      ChainUp(q, a + |q[a]|, b);
      ChainConcat(q, a + |q[a]|, b, c);
    }
  }

  lemma ChainUp(q: Queue, a: nat, b: nat)
    requires Chain(q, a, b)
    ensures a <= b
  {
  }

  // Only the chunks from a up to b matter.
  lemma {:induction false} ChainFrame(q: Queue, q': Queue, a: nat, b: nat)
    requires Chain(q, a, b)
    requires forall k :: a <= k < b && k in q ==> k in q' && q'[k] == q[k]
    ensures Chain(q', a, b)
    decreases b - a
  {
    if a != b {
      ChainUp(q, a + |q[a]|, b);
      ChainFrame(q, q', a + |q[a]|, b);
    }
  }

  /** From offset pos on, gaps and chained blocks of data take turns, up to the end of the stream; two gaps never
      touch. */
  ghost predicate Tiled(q: Queue, pos: nat, gs: seq<Interval>)
    decreases |gs|
  {
    && gs != []
    && gs[0].start < gs[0].end
    && Chain(q, pos, gs[0].start)
    && if |gs| == 1 then gs[0].end == MAX_BYTE_COUNT
       else gs[0].end < gs[1].start && Tiled(q, gs[0].end, gs[1..])
  }

  lemma {:induction false} TiledFrame(q: Queue, q': Queue, pos: nat, gs: seq<Interval>)
    requires Tiled(q, pos, gs)
    requires forall k :: pos <= k && k in q ==> k in q' && q'[k] == q[k]
    ensures Tiled(q', pos, gs)
    decreases |gs|
  {
    ChainUp(q, pos, gs[0].start);
    ChainFrame(q, q', pos, gs[0].start);
    if |gs| > 1 {
      TiledFrame(q, q', gs[0].end, gs[1..]);
    }
  }

  // Where the block before gap i starts.
  function Before(pos: nat, gs: seq<Interval>, i: nat): nat
    requires i <= |gs|
  {
    if i == 0 then pos else gs[i-1].end
  }

  lemma {:induction false} TiledFrom(q: Queue, pos: nat, gs: seq<Interval>, i: nat)
    requires Tiled(q, pos, gs) && i < |gs|
    ensures Tiled(q, Before(pos, gs, i), gs[i..])
    ensures pos <= Before(pos, gs, i) <= gs[i].start < gs[i].end
    ensures 0 < i ==> Before(pos, gs, i) < gs[i].start
    decreases |gs|
  {
    ChainUp(q, pos, gs[0].start);
    if i == 0 {
      assert gs[i..] == gs;
    } else {
      TiledFrom(q, gs[0].end, gs[1..], i-1);
      assert gs[1..][i-1..] == gs[i..];
    }
  }

  /** Replacing the gaps from index g on by xs keeps the tiling, if xs tiles from where gap g's block starts. */
  lemma {:induction false} TiledReplace(q: Queue, q': Queue, pos: nat, gs: seq<Interval>, g: nat, xs: seq<Interval>)
    requires Tiled(q, pos, gs) && g < |gs|
    requires Tiled(q', Before(pos, gs, g), xs)
    requires 0 < g ==> Before(pos, gs, g) < xs[0].start
    requires forall k :: k < Before(pos, gs, g) && k in q ==> k in q' && q'[k] == q[k]
    ensures Tiled(q', pos, gs[..g] + xs)
    decreases |gs|
  {
    if g == 0 {
      assert gs[..g] + xs == xs;
    } else {
      TiledFrom(q, pos, gs, 1);
      TiledFrom(q, pos, gs, g);
      var rest := gs[1..][..g-1] + xs;
      OrderedEnds(q, pos, gs, 0, g-1);
      ChainFrame(q, q', pos, gs[0].start);
      TiledReplace(q, q', gs[0].end, gs[1..], g-1, xs);
      assert gs[..g] + xs == [gs[0]] + rest;
      assert ([gs[0]] + rest)[1..] == rest;
    }
  }

  lemma {:induction false} OrderedEnds(q: Queue, pos: nat, gs: seq<Interval>, i: nat, j: nat)
    requires Tiled(q, pos, gs) && i <= j < |gs|
    ensures gs[i].end <= gs[j].end
    decreases j
  {
    if i < j {
      TiledFrom(q, pos, gs, j);
      OrderedEnds(q, pos, gs, i, j-1);
    }
  }

  // ----- a frame and the gaps it touches

  /** Gaps g to e are those that the offsets from a up to b touch. */
  ghost predicate Located(gs: seq<Interval>, g: nat, e: nat, a: nat, b: nat) {
    && g <= e < |gs| && a < b
    && (forall i :: 0 <= i < g ==> gs[i].end <= a)
    && a < gs[g].end && gs[g].start < b
    && (forall i :: g <= i < e ==> gs[i].end <= b)
    && gs[e].start < b
    && (forall i :: e < i < |gs| ==> b <= gs[i].start)
  }

  function LeftOf(g: Interval, a: nat): seq<Interval> {
    if g.start < a then [Interval(g.start, a)] else []
  }

  function RightOf(g: Interval, b: nat): seq<Interval> {
    if b < g.end then [Interval(b, g.end)] else []
  }

  lemma Sorted(q: Queue, pos: nat, gs: seq<Interval>, i: nat, j: nat)
    requires Tiled(q, pos, gs) && i < j < |gs|
    ensures gs[i].start < gs[i].end < gs[j].start < gs[j].end
  {
    TiledFrom(q, pos, gs, i);
    TiledFrom(q, pos, gs, j);
    OrderedEnds(q, pos, gs, i, j-1);
  }

  // What is left of the gaps is what is left of the first and of the last one the frame touches.
  lemma PunchLocated(q: Queue, pos: nat, gs: seq<Interval>, g: nat, e: nat, a: nat, b: nat)
    requires Tiled(q, pos, gs) && Located(gs, g, e, a, b)
    ensures Punch(gs, a, b) == gs[..g] + (LeftOf(gs[g], a) + (RightOf(gs[e], b) + gs[e+1..]))
  {
    var front, mid, back := gs[..g], gs[g..e+1], gs[e+1..];
    SplitAt(gs, g, e + 1);
    PunchConcat(front, mid + back, a, b);
    PunchConcat(mid, back, a, b);
    PunchEnds(gs, g, e, a, b);
    PunchMiddle(q, pos, gs, g, e, a, b);
    Assoc(LeftOf(gs[g], a), RightOf(gs[e], b), back);
  }

  lemma PunchEnds(gs: seq<Interval>, g: nat, e: nat, a: nat, b: nat)
    requires Located(gs, g, e, a, b)
    ensures Punch(gs[..g], a, b) == gs[..g] && Punch(gs[e+1..], a, b) == gs[e+1..]
  {
    PunchOutside(gs[..g], a, b);
    PunchOutside(gs[e+1..], a, b);
  }

  lemma SplitAt(gs: seq<Interval>, i: nat, j: nat)
    requires i <= j <= |gs|
    ensures gs == gs[..i] + (gs[i..j] + gs[j..])
  {
  }

  lemma PunchMiddle(q: Queue, pos: nat, gs: seq<Interval>, g: nat, e: nat, a: nat, b: nat)
    requires Tiled(q, pos, gs) && Located(gs, g, e, a, b)
    ensures Punch(gs[g..e+1], a, b) == LeftOf(gs[g], a) + RightOf(gs[e], b)
  {
    hide Tiled;
    assert Punch([gs[g]], a, b) == Pieces(gs[g], a, b);
    assert Punch([gs[e]], a, b) == Pieces(gs[e], a, b);
    if g == e {
      assert gs[g..e+1] == [gs[g]];
    } else {
      Sorted(q, pos, gs, g, e);
      var inner := gs[g+1..e];
      forall i | 0 <= i < |inner| ensures a <= inner[i].start < inner[i].end <= b {
        Sorted(q, pos, gs, g, g+1+i);
      }
      assert gs[g..e+1] == [gs[g]] + (inner + [gs[e]]);
      PunchConcat([gs[g]], inner + [gs[e]], a, b);
      PunchConcat(inner, [gs[e]], a, b);
      PunchInside(inner, a, b);
    }
  }

  lemma TiledExtend(q: Queue, a: nat, b: nat, gs: seq<Interval>)
    requires Chain(q, a, b) && Tiled(q, b, gs)
    ensures Tiled(q, a, gs)
  {
    ChainConcat(q, a, b, gs[0].start);
  }

  lemma TiledCons(q: Queue, pos: nat, g: Interval, gs: seq<Interval>)
    requires Chain(q, pos, g.start) && g.start < g.end
    requires gs != [] && g.end < gs[0].start && Tiled(q, g.end, gs)
    ensures Tiled(q, pos, [g] + gs)
  {
    assert ([g] + gs)[1..] == gs;
  }

  // The part of the stream from the stored chunk on.
  lemma TiledTail(q: Queue, q': Queue, pos: nat, gs: seq<Interval>, g: nat, e: nat, a: nat, b: nat, lo: nat, hi: nat)
    requires Tiled(q, pos, gs) && Located(gs, g, e, a, b) && b < MAX_BYTE_COUNT
    requires lo < hi && hi == (if b < gs[e].end then b else gs[e].end)
    requires lo in q' && |q'[lo]| == hi - lo
    requires forall k :: gs[e].end <= k && k in q ==> k in q' && q'[k] == q[k]
    ensures RightOf(gs[e], b) + gs[e+1..] != [] && Tiled(q', lo, RightOf(gs[e], b) + gs[e+1..])
    ensures lo < (RightOf(gs[e], b) + gs[e+1..])[0].start
  {
    assert Chain(q', hi, hi) && Chain(q', lo, hi);
    TiledFrom(q, pos, gs, e);
    if e + 1 < |gs| {
      TiledFrom(q, pos, gs, e+1);
      TiledFrame(q, q', gs[e].end, gs[e+1..]);
    }
    if b < gs[e].end {
      var r := Interval(b, gs[e].end);
      if e + 1 < |gs| {
        TiledCons(q', lo, r, gs[e+1..]);
      } else {
        assert [r] + gs[e+1..] == [r];
      }
    } else {
      assert RightOf(gs[e], b) + gs[e+1..] == gs[e+1..];
      TiledExtend(q', lo, hi, gs[e+1..]);
    }
  }

  /** Storing the chunk that fills the touched gaps keeps the tiling, although only the first chunk of each covered
      block is deleted. */
  lemma TiledAfter(q: Queue, q': Queue, pos: nat, gs: seq<Interval>, g: nat, e: nat, a: nat, b: nat, lo: nat, hi: nat)
    requires Tiled(q, pos, gs) && Located(gs, g, e, a, b) && b < MAX_BYTE_COUNT
    requires lo == (if gs[g].start < a then a else gs[g].start) && hi == (if b < gs[e].end then b else gs[e].end)
    requires lo in q' && |q'[lo]| == hi - lo
    requires forall k :: (k < gs[g].start || gs[e].end <= k) && k in q ==> k in q' && q'[k] == q[k]
    ensures lo < hi && Tiled(q', pos, Punch(gs, a, b))
  {
    var p := Before(pos, gs, g);
    TiledFrom(q, pos, gs, g);
    if g < e {
      Sorted(q, pos, gs, g, e);
    }
    var rest := RightOf(gs[e], b) + gs[e+1..];
    TiledTail(q, q', pos, gs, g, e, a, b, lo, hi);
    ChainFrame(q, q', p, gs[g].start);
    var xs := LeftOf(gs[g], a) + rest;
    if gs[g].start < a {
      TiledCons(q', p, Interval(gs[g].start, a), rest);
    } else {
      assert xs == rest;
      TiledExtend(q', p, lo, rest);
    }
    TiledReplace(q, q', pos, gs, g, xs);
    PunchLocated(q, pos, gs, g, e, a, b);
  }

  // ----- the sorter

  datatype PushResult = Stored | Duplicate | TooManyGaps | BugNoGap | BugNoEndGap

  // The bytes of a frame with their offsets.
  ghost function Carries(data: seq<byte>, offset: nat): set<(nat, byte)> {
    set i | 0 <= i < |data| :: (offset + i, data[i])
  }

  /** Every chunk holds data that some frame carried at these offsets, and none reaches into a gap. */
  ghost predicate ChunksOk(q: Queue, gs: seq<Interval>, carried: set<(nat, byte)>) {
    forall k :: k in q ==> k < MAX_BYTE_COUNT && 0 < |q[k]| && Clear(gs, k, k + |q[k]|) && Carries(q[k], k) <= carried
  }

  /** The loop that looks for the first gap the frame reaches. */
  method FindGap(gs: seq<Interval>, start: nat, end: nat) returns (g: nat, duplicate: bool)
    requires start < end
    ensures duplicate ==> g < |gs| && end <= gs[g].start
    ensures !duplicate && g < |gs| ==> gs[g].start < end && start <= gs[g].end
    ensures g <= |gs| && forall i :: 0 <= i < g ==> gs[i].start < end && gs[i].end < start
  {
    g := 0;
    while g < |gs|
      invariant g <= |gs|
      invariant forall i :: 0 <= i < g ==> gs[i].start < end && gs[i].end < start
    {
      if end <= gs[g].start {
        return g, true;
      }
      if end > gs[g].start && start <= gs[g].end {
        return g, false;
      }
      g := g + 1;
    }
    return g, false;
  }

  // The chunks without the first one of each block behind the gaps from g up to e.
  function DeleteEnds(q: Queue, gs: seq<Interval>, g: nat, e: nat): Queue
    requires g <= e <= |gs|
  {
    if g == e then q else DeleteEnds(q, gs, g, e-1) - {gs[e-1].end}
  }

  lemma {:induction false} DeletedAre(q: Queue, gs: seq<Interval>, g: nat, e: nat, low: nat, high: nat)
    requires g <= e <= |gs| && forall i :: g <= i < e ==> low <= gs[i].end < high
    ensures forall k :: k in DeleteEnds(q, gs, g, e) ==> k in q && DeleteEnds(q, gs, g, e)[k] == q[k]
    ensures forall k :: k in q && (k < low || high <= k) ==> k in DeleteEnds(q, gs, g, e)
  {
    if g < e {
      DeletedAre(q, gs, g, e-1, low, high);
    }
  }

  /** The loop that looks for the last gap the frame reaches.  It takes the gaps in between off the list and deletes
      the first chunk of every block it passes.  `found` is false if it runs past the last gap. */
  method FindEndGap(gs0: seq<Interval>, g: nat, end: nat, q0: Queue)
    returns (gs: seq<Interval>, q: Queue, e: nat, found: bool)
    requires g < |gs0| && gs0[g].start < end
    ensures !found ==> gs0[|gs0|-1].end <= end
    ensures found ==> g <= e < |gs0| && gs0[e].start < end && forall i :: g <= i < e ==> gs0[i].end <= end
    ensures found && gs0[e].end <= end ==> e + 1 < |gs0| && end <= gs0[e+1].start
    ensures found ==> gs == if e == g then gs0 else gs0[..g+1] + gs0[if gs0[e].end <= end then e + 1 else e..]
    ensures found ==> q == DeleteEnds(q0, gs0, g, e)
  {
    gs, q, e, found := gs0, q0, g, true;
    while end >= gs0[e].end
      invariant g <= e < |gs0| && gs0[e].start < end
      invariant forall i :: g <= i < e ==> gs0[i].end <= end
      invariant gs == if e == g then gs0 else gs0[..g+1] + gs0[e..]
      invariant q == DeleteEnds(q0, gs0, g, e)
      decreases |gs0| - e
    {
      if e + 1 == |gs0| {
        return gs, q, e, false;
      }
      if e != g {
        gs := gs[..g+1] + gs[g+2..];
      }
      if end <= gs0[e+1].start {
        return;
      }
      q := q - {gs0[e].end};
      e := e + 1;
    }
  }

  // The gap list without the gaps between the first and the last one that the frame touches.
  function Between(gs0: seq<Interval>, g: nat, e: nat, end: nat): seq<Interval>
    requires g <= e < |gs0|
  {
    if e == g || gs0[e].end <= end then [gs0[g]] else [gs0[g], gs0[e]]
  }

  lemma BetweenIs(gs0: seq<Interval>, gs: seq<Interval>, g: nat, e: nat, end: nat)
    requires g <= e < |gs0|
    requires gs == if e == g then gs0 else gs0[..g+1] + gs0[if gs0[e].end <= end then e + 1 else e..]
    ensures gs == gs0[..g] + Between(gs0, g, e, end) + gs0[e+1..]
  {
  }

  // The four ways of editing, on the list as it is between the untouched parts a and b.

  lemma CutOut(a: seq<Interval>, x: Interval, b: seq<Interval>)
    ensures (a + [x] + b)[..|a|] == a && (a + [x] + b)[|a|+1..] == b
    ensures forall y :: (a + [x] + b)[|a| := y] == a + [y] + b
  {
  }

  lemma CutOutTwo(a: seq<Interval>, x: Interval, x': Interval, b: seq<Interval>)
    ensures (a + [x, x'] + b)[..|a|] == a && (a + [x, x'] + b)[|a|+1..] == [x'] + b
    ensures forall y, y' :: (a + [x, x'] + b)[|a| := y][|a|+1 := y'] == a + [y, y'] + b
  {
  }

  // Editing one gap, in which the frame begins and ends.
  method EditOne(gs: seq<Interval>, gap: Interval, start: nat, end: nat, ghost a: seq<Interval>,
                 ghost b: seq<Interval>, g: nat)
    returns (r: seq<Interval>)
    requires gs == a + [gap] + b && g == |a| && gap.start <= start < end <= gap.end
    ensures r == a + (LeftOf(gap, start) + RightOf(gap, end)) + b
  {
    CutOut(a, gap, b);
    r := gs;
    if start == gap.start {
      if end >= gap.end {
        r := r[..g] + r[g+1..];
      }
      if end < gap.end {
        r := r[g := Interval(end, gap.end)];
      }
    } else if end == gap.end {
      r := r[g := Interval(gap.start, start)];
    } else {
      r := r[..g] + [Interval(gap.start, start), Interval(end, gap.end)] + r[g+1..];
    }
  }

  // Editing the first and the last of several gaps; the last has been removed if the frame fills it.
  method EditTwo(gs: seq<Interval>, gap: Interval, endGap: Interval, start: nat, end: nat, ghost a: seq<Interval>,
                 ghost b: seq<Interval>, g: nat)
    returns (r: seq<Interval>)
    requires gs == a + (if endGap.end <= end then [gap] else [gap, endGap]) + b && g == |a|
    requires gap.start <= start < gap.end <= endGap.start < end <= endGap.end
    ensures r == a + (LeftOf(gap, start) + RightOf(endGap, end)) + b
  {
    CutOut(a, gap, b);
    CutOut(a, endGap, b);
    CutOutTwo(a, gap, endGap, b);
    r := gs;
    if start == gap.start {
      if end >= gap.end {
        r := r[..g] + r[g+1..];
      }
      if end < endGap.end {
        assert r == a + [endGap] + b;
        r := r[g := Interval(end, endGap.end)];
      }
    } else if end == endGap.end {
      r := r[g := Interval(gap.start, start)];
    } else {
      r := r[g := Interval(gap.start, start)][g+1 := Interval(end, endGap.end)];
    }
  }

  /** The edits of the gap list once both ends of the frame are known; `gs` is the list without the gaps between
      the first and the last one. */
  method EditGaps(gs0: seq<Interval>, gs: seq<Interval>, g: nat, e: nat, start: nat, end: nat)
    returns (r: seq<Interval>)
    requires g <= e < |gs0|
    requires gs0[g].start <= start < end <= gs0[e].end && start < gs0[g].end
    requires g < e ==> gs0[g].end <= gs0[e].start < end
    requires gs == if e == g then gs0 else gs0[..g+1] + gs0[if gs0[e].end <= end then e + 1 else e..]
    ensures r == gs0[..g] + (LeftOf(gs0[g], start) + (RightOf(gs0[e], end) + gs0[e+1..]))
  {
    BetweenIs(gs0, gs, g, e, end);
    if g == e {
      r := EditOne(gs, gs0[g], start, end, gs0[..g], gs0[e+1..], g);
    } else {
      r := EditTwo(gs, gs0[g], gs0[e], start, end, gs0[..g], gs0[e+1..], g);
    }
    hide LeftOf, RightOf, Between;
    Regroup(gs0[..g], LeftOf(gs0[g], start), RightOf(gs0[e], end), gs0[e+1..]);
  }

  lemma Regroup(a: seq<Interval>, l: seq<Interval>, r: seq<Interval>, b: seq<Interval>)
    ensures a + (l + r) + b == a + (l + (r + b))
  {
  }

  lemma {:induction false} ClearShrink(gs: seq<Interval>, lo: nat, hi: nat, lo': nat, hi': nat)
    requires Clear(gs, lo, hi) && lo <= lo' && hi' <= hi
    ensures Clear(gs, lo', hi')
  {
    if gs != [] {
      ClearShrink(gs[1..], lo, hi, lo', hi');
    }
  }

  lemma {:induction false} ClearOf(gs: seq<Interval>, lo: nat, hi: nat, i: nat)
    requires Clear(gs, lo, hi) && i < |gs|
    ensures gs[i].end <= lo || hi <= gs[i].start
  {
    if i > 0 {
      ClearOf(gs[1..], lo, hi, i-1);
    }
  }

  lemma TiledProper(q: Queue, pos: nat, gs: seq<Interval>)
    requires Tiled(q, pos, gs)
    ensures gs != [] && Proper(gs) && gs[|gs|-1].end == MAX_BYTE_COUNT
    ensures forall i :: 0 <= i < |gs| ==> gs[i].end <= MAX_BYTE_COUNT
  {
    TiledFrom(q, pos, gs, |gs|-1);
    forall i | 0 <= i < |gs| ensures gs[i].start < gs[i].end <= MAX_BYTE_COUNT {
      TiledFrom(q, pos, gs, i);
      OrderedEnds(q, pos, gs, i, |gs|-1);
    }
  }

  // A block that is not empty starts with a chunk, so a frame that is not cut never starts where a gap ends.
  lemma StartInside(q: Queue, pos: nat, gs: seq<Interval>, carried: set<(nat, byte)>, offset: nat, start: nat,
                    end: nat, g: nat)
    requires Tiled(q, pos, gs) && ChunksOk(q, gs, carried) && g < |gs|
    requires start == if offset in q then offset + |q[offset]| else offset
    requires start <= gs[g].end && start < end < MAX_BYTE_COUNT
    ensures start < gs[g].end
  {
    TiledFrom(q, pos, gs, g);
    TiledProper(q, pos, gs);
    if start == gs[g].end {
      TiledFrom(q, pos, gs, g+1);
      assert gs[g].end in q;
      if offset in q {
        ClearOf(gs, offset, start, g);
      }
    }
  }

  lemma LocatedIs(q: Queue, pos: nat, gs: seq<Interval>, g: nat, e: nat, a: nat, b: nat)
    requires Tiled(q, pos, gs) && g <= e < |gs| && a < b
    requires forall i :: 0 <= i < g ==> gs[i].end < a
    requires a < gs[g].end && gs[g].start < b
    requires gs[e].start < b && forall i :: g <= i < e ==> gs[i].end <= b
    requires gs[e].end <= b ==> e + 1 < |gs| && b <= gs[e+1].start
    ensures Located(gs, g, e, a, b)
  {
    forall i | e < i < |gs| ensures b <= gs[i].start {
      Sorted(q, pos, gs, e, i);
      if e + 1 < i {
        Sorted(q, pos, gs, e + 1, i);
      }
    }
  }

  lemma CarriesSlice(data: seq<byte>, offset: nat, lo: nat, hi: nat)
    requires offset <= lo <= hi <= offset + |data|
    ensures Carries(data[lo - offset..hi - offset], lo) <= Carries(data, offset)
  {
    var chunk := data[lo - offset..hi - offset];
    forall p | p in Carries(chunk, lo) ensures p in Carries(data, offset) {
      var k :| 0 <= k < |chunk| && p == (lo + k, chunk[k]);
      assert p == (offset + (lo - offset + k), data[lo - offset + k]);
    }
  }

  lemma ChunksAfter(q: Queue, q': Queue, gs: seq<Interval>, carried: set<(nat, byte)>, a: nat, b: nat, lo: nat)
    requires ChunksOk(q, gs, carried) && a <= b < MAX_BYTE_COUNT && lo in q'
    requires forall k :: k in q' && k != lo ==> k in q && q'[k] == q[k]
    requires 0 < |q'[lo]| && a <= lo && lo + |q'[lo]| <= b && Carries(q'[lo], lo) <= carried
    ensures ChunksOk(q', Punch(gs, a, b), carried)
  {
    forall k | k in q' ensures Clear(Punch(gs, a, b), k, k + |q'[k]|) {
      PunchKeepsClear(gs, a, b, k, k + |q'[k]|);
    }
  }

  lemma StoreOk(q: Queue, pos: nat, gs: seq<Interval>, carried: set<(nat, byte)>, g: nat, e: nat, a: nat, b: nat,
                lo: nat, hi: nat, chunk: seq<byte>)
    requires Tiled(q, pos, gs) && ChunksOk(q, gs, carried) && Located(gs, g, e, a, b) && b < MAX_BYTE_COUNT
    requires lo == (if gs[g].start < a then a else gs[g].start) && hi == (if b < gs[e].end then b else gs[e].end)
    requires |chunk| == hi - lo && Carries(chunk, lo) <= carried
    ensures var q' := DeleteEnds(q, gs, g, e)[lo := chunk];
            Tiled(q', pos, Punch(gs, a, b)) && ChunksOk(q', Punch(gs, a, b), carried)
  {
    forall i | g <= i < e ensures gs[g].end <= gs[i].end < gs[e].end {
      Sorted(q, pos, gs, i, e);
      OrderedEnds(q, pos, gs, g, i);
    }
    DeletedAre(q, gs, g, e, gs[g].end, gs[e].end);
    TiledFrom(q, pos, gs, g);
    TiledFrom(q, pos, gs, e);
    var q' := DeleteEnds(q, gs, g, e)[lo := chunk];
    TiledAfter(q, q', pos, gs, g, e, a, b, lo, hi);
    ChunksAfter(q, q', gs, carried, a, b, lo);
  }

  /** The gaps after n bytes from `offset` on have been received. */
  function Filled(gs: seq<Interval>, offset: nat, n: nat): seq<Interval> {
    if n == 0 then gs else Punch(gs, offset, offset + n)
  }

  lemma FilledMissing(gs: seq<Interval>, offset: nat, n: nat, x: nat)
    requires Proper(gs)
    ensures Missing(Filled(gs, offset, n), x) <==> Missing(gs, x) && !(offset <= x < offset + n)
  {
    PunchMissing(gs, offset, offset + n, x);
  }

  lemma Untouched(gs: seq<Interval>, pos: nat, q: Queue, g: nat, start: nat, end: nat)
    requires Tiled(q, pos, gs) && g < |gs| && end <= gs[g].start
    requires forall i :: 0 <= i < g ==> gs[i].end < start
    ensures Punch(gs, start, end) == gs
  {
    forall i | g < i < |gs| ensures end <= gs[i].start {
      Sorted(q, pos, gs, g, i);
    }
    PunchOutside(gs, start, end);
  }

  lemma EndBelowMax(q: Queue, pos: nat, gs: seq<Interval>, e: nat, end: nat)
    requires Tiled(q, pos, gs) && e < |gs|
    requires gs[e].end <= end ==> e + 1 < |gs| && end <= gs[e+1].start
    ensures end < MAX_BYTE_COUNT
  {
    TiledProper(q, pos, gs);
  }

  lemma {:induction false} DeletedKeys(q: Queue, gs: seq<Interval>, g: nat, e: nat)
    requires g <= e <= |gs|
    ensures DeleteEnds(q, gs, g, e).Keys <= q.Keys
  {
    if g < e {
      DeletedKeys(q, gs, g, e-1);
    }
  }

  lemma {:induction false} NotMissing(gs: seq<Interval>, lo: nat, hi: nat, x: nat)
    requires Clear(gs, lo, hi) && lo <= x < hi
    ensures !Missing(gs, x)
  {
    if gs != [] {
      NotMissing(gs[1..], lo, hi, x);
    }
  }

  // A frame that a chunk at the same offset covers changes nothing and stays below the maximum offset.
  lemma Covered(q: Queue, pos: nat, gs: seq<Interval>, offset: nat, n: nat, m: nat)
    requires Tiled(q, pos, gs) && Clear(gs, offset, offset + m) && 0 < n <= m && offset in q
    requires offset < MAX_BYTE_COUNT
    ensures Punch(gs, offset, offset + n) == gs && offset + n < MAX_BYTE_COUNT
  {
    ClearShrink(gs, offset, offset + m, offset, offset + n);
    PunchClear(gs, offset, offset + n);
    TiledProper(q, pos, gs);
    ClearOf(gs, offset, offset + m, |gs|-1);
  }

  ghost predicate Bug(r: PushResult) {
    r.BugNoGap? || r.BugNoEndGap?
  }

  /** What push promises about the new chunks and gaps, for the part of a frame from `start` up to `end`. */
  ghost predicate Pushed(q0: Queue, pos: nat, gs0: seq<Interval>, carried: set<(nat, byte)>, start: nat, end: nat,
                         q: Queue, gs: seq<Interval>, r: PushResult)
  {
    && (Bug(r) <==> MAX_BYTE_COUNT <= end)
    && (!Bug(r) ==> gs == Punch(gs0, start, end))
    && (r.Stored? || r.Duplicate? ==>
       Tiled(q, pos, gs) && ChunksOk(q, gs, carried) && |gs| <= MAX_STREAM_FRAME_SORTER_GAPS)
    && (r.TooManyGaps? ==> |gs| > MAX_STREAM_FRAME_SORTER_GAPS && q.Keys <= q0.Keys)
    && (r.Duplicate? ==> q == q0)
  }

  /** The rest of push, for the part of the frame from `start` on. */
  method PushFrom(q0: Queue, ghost pos: nat, gs0: seq<Interval>, ghost carried: set<(nat, byte)>, data: seq<byte>,
                  offset: nat, start: nat)
    returns (q: Queue, gs: seq<Interval>, r: PushResult)
    requires Tiled(q0, pos, gs0) && ChunksOk(q0, gs0, carried) && |gs0| <= MAX_STREAM_FRAME_SORTER_GAPS
    requires Carries(data, offset) <= carried
    requires start == if offset in q0 then offset + |q0[offset]| else offset
    requires start < offset + |data|
    ensures Pushed(q0, pos, gs0, carried, start, offset + |data|, q, gs, r)
  {
    hide Punch, Carries, DeleteEnds, ChunksOk, Tiled;
    var end := offset + |data|;
    TiledProper(q0, pos, gs0);
    var g, duplicate := FindGap(gs0, start, end);
    if duplicate {
      Untouched(gs0, pos, q0, g, start, end);
      return q0, gs0, Duplicate;
    }
    if g == |gs0| {
      assert gs0[|gs0|-1].end < start;
      return q0, gs0, BugNoGap;
    }
    var e, found;
    gs, q, e, found := FindEndGap(gs0, g, end, q0);
    if !found {
      return q, gs, BugNoEndGap;
    }
    EndBelowMax(q0, pos, gs0, e, end);
    StartInside(q0, pos, gs0, carried, offset, start, end, g);
    LocatedIs(q0, pos, gs0, g, e, start, end);
    q, gs, r := Fill(q0, pos, gs0, carried, data, offset, start, g, e, q, gs);
  }

  // The frame cut to the first and the last gap it touches.
  lemma CutFrame(q: Queue, pos: nat, gs: seq<Interval>, g: nat, e: nat, start: nat, end: nat, lo: nat, hi: nat)
    requires Tiled(q, pos, gs) && Located(gs, g, e, start, end)
    requires lo == (if start < gs[g].start then gs[g].start else start) &&
              hi == (if end > gs[e].end then gs[e].end else end)
    ensures gs[g].start <= lo < hi <= gs[e].end && start <= lo < gs[g].end && hi <= end
    ensures g < e ==> gs[g].end <= gs[e].start < hi
    ensures gs[..g] + (LeftOf(gs[g], lo) + (RightOf(gs[e], hi) + gs[e+1..])) == Punch(gs, start, end)
  {
    PunchLocated(q, pos, gs, g, e, start, end);
    TiledFrom(q, pos, gs, g);
    TiledFrom(q, pos, gs, e);
    if g < e {
      Sorted(q, pos, gs, g, e);
    }
  }

  method CutAndEdit(ghost q: Queue, ghost pos: nat, gs0: seq<Interval>, g: nat, e: nat, start: nat, end: nat,
                    gs1: seq<Interval>)
    returns (gs: seq<Interval>, lo: nat, hi: nat)
    requires Tiled(q, pos, gs0) && Located(gs0, g, e, start, end)
    requires gs1 == if e == g then gs0 else gs0[..g+1] + gs0[if gs0[e].end <= end then e + 1 else e..]
    ensures lo == (if gs0[g].start < start then start else gs0[g].start) &&
              hi == (if end < gs0[e].end then end else gs0[e].end)
    ensures start <= lo < hi <= end
    ensures gs == Punch(gs0, start, end)
  {
    lo := if start < gs0[g].start then gs0[g].start else start;
    hi := if end > gs0[e].end then gs0[e].end else end;
    CutFrame(q, pos, gs0, g, e, start, end, lo, hi);
    gs := EditGaps(gs0, gs1, g, e, lo, hi);
  }

  /** The last part of push: cut the frame to the gaps, edit the gap list, store the data. */
  method Fill(ghost q0: Queue, ghost pos: nat, gs0: seq<Interval>, ghost carried: set<(nat, byte)>, data: seq<byte>,
              offset: nat, start: nat,
              g: nat, e: nat, q1: Queue, gs1: seq<Interval>) returns (q: Queue, gs: seq<Interval>, r: PushResult)
    requires Tiled(q0, pos, gs0) && ChunksOk(q0, gs0, carried)
    requires Carries(data, offset) <= carried && offset <= start && offset + |data| < MAX_BYTE_COUNT
    requires Located(gs0, g, e, start, offset + |data|)
    requires q1 == DeleteEnds(q0, gs0, g, e)
    requires gs1 == if e == g then gs0 else gs0[..g+1] + gs0[if gs0[e].end <= offset + |data| then e + 1 else e..]
    ensures Pushed(q0, pos, gs0, carried, start, offset + |data|, q, gs, r) && !r.Duplicate?
  {
    hide Tiled, ChunksOk, Punch, Carries, DeleteEnds;
    var end := offset + |data|;
    var lo, hi;
    gs, lo, hi := CutAndEdit(q0, pos, gs0, g, e, start, end, gs1);
    DeletedKeys(q0, gs0, g, e);
    if |gs| > MAX_STREAM_FRAME_SORTER_GAPS {
      return q1, gs, TooManyGaps;
    }
    CarriesSlice(data, offset, lo, hi);
    var chunk := data[lo - offset..hi - offset];
    StoreOk(q0, pos, gs0, carried, g, e, start, end, lo, hi, chunk);
    q := q1[lo := chunk];
    r := Stored;
  }

  function Offsets(offset: nat, n: nat): (r: set<nat>)
    ensures forall x: nat :: x in r <==> offset <= x < offset + n
  {
    if n == 0 then {} else Offsets(offset, n-1) + {offset + n - 1}
  }

  /** The gaps are exactly the offsets never received. */
  ghost predicate Exact(gs: seq<Interval>, received: set<nat>) {
    forall x: nat :: Missing(gs, x) <==> x < MAX_BYTE_COUNT && x !in received
  }

  /** What has not been received falls into more gaps than are tracked. */
  ghost predicate Overflow(gs: seq<Interval>, received: set<nat>) {
    |gs| > MAX_STREAM_FRAME_SORTER_GAPS && Separated(gs) && Exact(gs, received)
  }

  lemma ExactFilled(gs: seq<Interval>, received: set<nat>, offset: nat, n: nat)
    requires Exact(gs, received) && Proper(gs)
    ensures Exact(Filled(gs, offset, n), received + Offsets(offset, n))
  {
    forall x: nat
        ensures Missing(Filled(gs, offset, n), x) <==> x < MAX_BYTE_COUNT && x !in received + Offsets(offset, n) {
      FilledMissing(gs, offset, n, x);
    }
  }

  // Before the tiling starts nothing is missing.
  lemma {:induction false} BelowAll(q: Queue, pos: nat, gs: seq<Interval>, x: nat)
    requires Tiled(q, pos, gs) && x < pos
    ensures !Missing(gs, x) && x < gs[0].end
    decreases |gs|
  {
    ChainUp(q, pos, gs[0].start);
    if |gs| > 1 {
      BelowAll(q, gs[0].end, gs[1..], x);
    }
  }

  class FrameSorter {
    var queue: Queue
    var readPos: nat
    var gaps: seq<Interval>

    ghost var carried: set<(nat, byte)>   // offset and value of every byte pushed so far
    ghost var received: set<nat>          // the offsets alone

    ghost predicate Valid()
      reads this
    {
      && Exact(gaps, received)
      && Tiled(queue, readPos, gaps)
      && ChunksOk(queue, gaps, carried)
      && |gaps| <= MAX_STREAM_FRAME_SORTER_GAPS
    }

    constructor ()
      ensures Valid() && readPos == 0 && carried == {} && received == {}
    {
      queue, readPos, gaps, carried, received := map[], 0, [Interval(0, MAX_BYTE_COUNT)], {}, {};
    }

    /** push.  A successful push removes exactly the frame's offsets from the gaps.  The errors that stand for a bug
        are reported exactly for frames that reach the maximum offset; too many gaps are reported when the gap list
        has outgrown its limit, and then the data is not stored although its gap is gone. */
    method Push(data: seq<byte>, offset: nat) returns (r: PushResult)
      requires Valid()
      modifies this
      ensures readPos == old(readPos)
      ensures carried == old(carried) + Carries(data, offset) && received == old(received) + Offsets(offset, |data|)
      ensures r.BugNoGap? || r.BugNoEndGap? <==> data != [] && MAX_BYTE_COUNT <= offset + |data|
      ensures !r.BugNoGap? && !r.BugNoEndGap? ==> gaps == Filled(old(gaps), offset, |data|)
      ensures r.Stored? || r.Duplicate? ==> Valid()
      ensures r.TooManyGaps? ==> Overflow(gaps, received) && queue.Keys <= old(queue.Keys)
      ensures r.Duplicate? ==> queue == old(queue)
    {
      hide Tiled, Carries, Punch;
      TiledProper(queue, readPos, gaps);
      ExactFilled(gaps, received, offset, |data|);
      TiledSeparated(queue, readPos, gaps);
      if data != [] {
        PunchSeparated(gaps, offset, offset + |data|);
      }
      carried, received := carried + Carries(data, offset), received + Offsets(offset, |data|);
      if |data| == 0 {
        return Duplicate;
      }
      var start := offset;
      if offset in queue {
        var oldData := queue[offset];
        if |data| <= |oldData| {
          Covered(queue, readPos, gaps, offset, |data|, |oldData|);
          return Duplicate;
        }
        start := offset + |oldData|;
        PunchReceived(gaps, offset, start, offset + |data|);
      }
      queue, gaps, r := PushFrom(queue, readPos, gaps, carried, data, offset, start);
    }

    /** Whatever lies before the read position has been received. */
    lemma ReadIsReceived()
      requires Valid()
      ensures forall x: nat :: x < readPos ==> x in received
    {
      TiledProper(queue, readPos, gaps);
      forall x: nat | x < readPos ensures x in received {
        BelowAll(queue, readPos, gaps, x);
      }
    }

    lemma GapsAreSeparated()
      requires Valid()
      ensures Separated(gaps) && Exact(gaps, received)
    {
      TiledSeparated(queue, readPos, gaps);
    }

    /** Pop returns the next chunk; there is none exactly if the next offset is missing. */
    method Pop() returns (offset: nat, data: seq<byte>)
      requires Valid()
      modifies this`queue, this`readPos
      ensures Valid()
      ensures offset == old(readPos) && readPos == old(readPos) + |data|
      ensures data == [] <==> old(readPos) !in received
      ensures Carries(data, offset) <= carried
    {
      if readPos !in queue {
        assert readPos == gaps[0].start;
        return readPos, [];
      }
      data := queue[readPos];
      offset := readPos;
      NotMissing(gaps, offset, offset + |data|, offset);
      ClearOf(gaps, offset, offset + |data|, 0);
      ChainUp(queue, readPos, gaps[0].start);
      queue := queue - {readPos};
      readPos := readPos + |data|;
      TiledFrame(old(queue), queue, readPos, gaps);
    }
  }

  // ----- whole runs

  datatype Op = PushOp(data: seq<byte>, offset: nat) | PopOp

  /** All offsets pushed. */
  ghost function PushedOffsets(ops: seq<Op>): set<nat> {
    if ops == [] then {}
    else
      var op := ops[|ops|-1];
      PushedOffsets(ops[..|ops|-1]) + if op.PushOp? then Offsets(op.offset, |op.data|) else {}
  }

  /** All bytes pushed, with their places. */
  ghost function PushedBytes(ops: seq<Op>): set<(nat, byte)> {
    if ops == [] then {}
    else
      var op := ops[|ops|-1];
      PushedBytes(ops[..|ops|-1]) + if op.PushOp? then Carries(op.data, op.offset) else {}
  }

  lemma TiledSeparated(q: Queue, pos: nat, gs: seq<Interval>)
    requires Tiled(q, pos, gs)
    ensures Separated(gs)
  {
    forall i | 0 <= i < |gs| ensures gs[i].start < gs[i].end && (0 < i ==> gs[i-1].end < gs[i].start) {
      TiledFrom(q, pos, gs, i);
    }
  }

  // Reading on: what was popped before and what is popped now are bytes that were pushed.
  lemma CarriesMore(read: seq<byte>, data: seq<byte>, carried: set<(nat, byte)>)
    requires Carries(read, 0) <= carried && Carries(data, |read|) <= carried
    ensures Carries(read + data, 0) <= carried
  {
    forall p | p in Carries(read + data, 0) ensures p in carried {
      var i :| 0 <= i < |read + data| && p == (0 + i, (read + data)[i]);
      if i < |read| {
        assert (0 + i, read[i]) in Carries(read, 0);
      } else {
        assert (|read| + (i - |read|), data[i - |read|]) in Carries(data, |read|);
      }
    }
  }

  // The chunks, one after the other.
  function Joined(chunks: seq<seq<byte>>): seq<byte> {
    if chunks == [] then [] else Joined(chunks[..|chunks|-1]) + chunks[|chunks|-1]
  }

  /** What the i-th operation hands out: a pop returns data exactly if the next offset has been pushed. */
  ghost predicate PopsNext(ops: seq<Op>, chunks: seq<seq<byte>>, i: nat)
    requires i < |ops| && i < |chunks|
  {
    chunks[i] == [] <==> ops[i].PushOp? || |Joined(chunks[..i])| !in PushedOffsets(ops[..i])
  }

  lemma JoinedStep(chunks: seq<seq<byte>>, data: seq<byte>, ops: seq<Op>)
    requires |chunks| < |ops| && forall i :: 0 <= i < |chunks| ==> PopsNext(ops, chunks, i)
    requires PopsNext(ops, chunks + [data], |chunks|)
    ensures Joined(chunks + [data]) == Joined(chunks) + data
    ensures forall i :: 0 <= i <= |chunks| ==> PopsNext(ops, chunks + [data], i)
  {
    assert (chunks + [data])[..|chunks|] == chunks;
    hide Joined, PushedOffsets;
    forall i | 0 <= i < |chunks| ensures PopsNext(ops, chunks + [data], i) {
      assert PopsNext(ops, chunks, i);
      assert (chunks + [data])[..i] == chunks[..i];
    }
  }

  lemma NothingCarried()
    ensures Carries([], 0) == {}
  {
  }

  lemma PushedNext(ops: seq<Op>, i: nat)
    requires i < |ops|
    ensures PushedOffsets(ops[..i+1]) ==
            PushedOffsets(ops[..i]) + if ops[i].PushOp? then Offsets(ops[i].offset, |ops[i].data|) else {}
    ensures PushedBytes(ops[..i+1]) ==
            PushedBytes(ops[..i]) + if ops[i].PushOp? then Carries(ops[i].data, ops[i].offset) else {}
  {
    hide Offsets, Carries;
    assert ops[..i+1][..i] == ops[..i];
  }

  /** After any run in which every push succeeded: the gaps are separated intervals that hold exactly the offsets never
      pushed, what was popped is a gapless string of bytes that were pushed, each at its place, and every pop got on as
      long as the next offset had been pushed.  A run stops at a push that reaches the maximum offset or leaves too many
      gaps. */
  method Run(ops: seq<Op>) returns (gaps: seq<Interval>, chunks: seq<seq<byte>>, ok: bool)
    ensures |chunks| <= |ops| && forall i :: 0 <= i < |chunks| ==> PopsNext(ops, chunks, i)
    ensures ok ==> |chunks| == |ops| && Separated(gaps) && Exact(gaps, PushedOffsets(ops))
    ensures Carries(Joined(chunks), 0) <= PushedBytes(ops[..|chunks|])
    ensures !ok ==>
              && |chunks| < |ops| && ops[|chunks|].PushOp?
              && var op := ops[|chunks|];
                 || (op.data != [] && MAX_BYTE_COUNT <= op.offset + |op.data|)
                 || Overflow(gaps, PushedOffsets(ops[..|chunks|+1]))
  {
    hide FrameSorter.Valid, Exact, Carries, Filled, Offsets, Overflow;
    var s := new FrameSorter();
    chunks := [];
    assert Carries(Joined(chunks), 0) == {} by { NothingCarried(); }
    for i := 0 to |ops|
      invariant s.Valid() && fresh(s) && s.readPos == |Joined(chunks)|
      invariant |chunks| == i && forall k :: 0 <= k < i ==> PopsNext(ops, chunks, k)
      invariant s.received == PushedOffsets(ops[..i]) && s.carried == PushedBytes(ops[..i])
      invariant Carries(Joined(chunks), 0) <= s.carried
    {
      hide Joined, PushedOffsets, PushedBytes;
      PushedNext(ops, i);
      ghost var before := chunks;
      var data := [];
      match ops[i] {
        case PushOp(bytes, offset) =>
          var r := s.Push(bytes, offset);
          if !r.Stored? && !r.Duplicate? {
            return s.gaps, chunks, false;
          }
        case PopOp =>
          var offset;
          offset, data := s.Pop();
          CarriesMore(Joined(chunks), data, s.carried);
      }
      chunks := chunks + [data];
      assert chunks[..i] == before;
      JoinedStep(before, data, ops);
      assert Joined(before) + [] == Joined(before);
    }
    assert ops[..|ops|] == ops;
    s.GapsAreSeparated();
    return s.gaps, chunks, true;
  }

  // ----- the errors that stand for a bug

  /** A frame that ends at the maximum offset touches the last gap and finds none in which it ends. */
  method BugAtMaximum() returns (r: PushResult)
    ensures r.BugNoGap? || r.BugNoEndGap?
  {
    var s := new FrameSorter();
    r := s.Push([0], MAX_BYTE_COUNT - 1);
  }
}
