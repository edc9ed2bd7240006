/** Opening streams (streams_map_outgoing_generic.go).  A call of OpenStreamSync that has to wait is cut at the
    points where it releases the mutex: Enter queues it, Wake takes the token out of its channel, and Resume is what
    it does once it holds the mutex again.  A channel of capacity one is present in `tokens` while it is full;
    closing is not part of this model. */
module OutgoingStreams {
  import opened Common

  const INVALID_STREAM_NUM := -1

  predicate Increasing(log: seq<int>) {
    forall i, j :: 0 <= i < j < |log| ==> log[i] < log[j]
  }

  /** The limit that a STREAMS_BLOCKED frame reports. */
  function ReportedLimit(maxStream: int): int {
    if maxStream != INVALID_STREAM_NUM then maxStream else 0
  }

  datatype Step = Open | Sync | Receive(call: nat) | GoOn(call: nat) | Raise(limit: int)

  /** The state of the map, with two logs: the waiting calls that have a stream now, in order, and the value of
      maxStream at each STREAMS_BLOCKED frame. */
  datatype State = State(
    openQueue: seq<nat>,        // the channels of the waiting calls
    tokens: set<nat>,
    nextStream: nat,
    maxStream: int,
    blockedSent: bool,
    channels: nat,              // how many channels have been made
    blockedFrames: seq<int>,    // the limits reported so far
    awake: set<nat>,            // calls that have received and want the mutex
    served: seq<nat>,
    blockedAt: seq<int>)
  {
    function Blocked(): State {
      if blockedSent then this
      else this.(blockedSent := true, blockedFrames := blockedFrames + [ReportedLimit(maxStream)], blockedAt :=
          blockedAt + [maxStream])
    }

    function Unblocked(): State {
      if openQueue == [] then this else this.(tokens := tokens + {openQueue[0]})
    }

    predicate CanWake(w: nat) {
      w in openQueue && w !in awake && w in tokens
    }

    function Resumed(w: nat): State {
      var s := this.(awake := awake - {w});
      if nextStream > maxStream || openQueue == [] then s
      else s.(nextStream := nextStream + 1, served := served + [openQueue[0]], openQueue := openQueue[1..]).Unblocked()
    }

    function After(step: Step): State {
      match step
      case Open => if openQueue != [] || nextStream > maxStream then Blocked() else this.(nextStream := nextStream + 1)
      case Sync =>
        if openQueue == [] && nextStream <= maxStream then this.(nextStream := nextStream + 1)
        else this.(openQueue := openQueue + [channels], channels := channels + 1).Blocked()
      case Receive(w) => if CanWake(w) then this.(tokens := tokens - {w}, awake := awake + {w}) else this
      case GoOn(w) => if w in awake then Resumed(w) else this
      case Raise(limit) =>
          if limit <= maxStream then this else this.(maxStream := limit, blockedSent := false).Unblocked()
    }

    /** The number of the stream that a step opens, if any. */
    function Opens(step: Step): Option<nat> {
      if nextStream <= maxStream &&
         match step
         case Open => openQueue == []
         case Sync => openQueue == []
         case GoOn(w) => w in awake && openQueue != []
         case _ => false
      then Some(nextStream) else None
    }
  }

  const EMPTY := State([], {}, 1, INVALID_STREAM_NUM, false, 0, [], {}, [], [])

  function AfterAll(steps: seq<Step>): State {
    if steps == [] then EMPTY else AfterAll(steps[..|steps|-1]).After(steps[|steps|-1])
  }

  /** The highest limit the peer has named. */
  function HighestLimit(steps: seq<Step>): int {
    if steps == [] then INVALID_STREAM_NUM
    else
      var before, last := HighestLimit(steps[..|steps|-1]), steps[|steps|-1];
      if last.Raise? && last.limit > before then last.limit else before
  }

  function SyncCalls(steps: seq<Step>): nat {
    if steps == [] then 0 else SyncCalls(steps[..|steps|-1]) + if steps[|steps|-1].Sync? then 1 else 0
  }

  /** Calls of OpenStreamSync that did not have to wait. */
  function ServedAtOnce(steps: seq<Step>): nat {
    if steps == [] then 0
    else
      var front, last := steps[..|steps|-1], steps[|steps|-1];
      ServedAtOnce(front) + if last.Sync? && AfterAll(front).Opens(last).Some? then 1 else 0
  }

  /** The numbers of all streams opened in a run, in order. */
  function Numbers(steps: seq<Step>): seq<nat> {
    if steps == [] then []
    else
      var front, last := steps[..|steps|-1], steps[|steps|-1];
      Numbers(front) + match AfterAll(front).Opens(last) case Some(n) => [n] case None => []
  }

  /** What these folds have to do with the state reached. */
  ghost predicate Tallies(steps: seq<Step>, s: State) {
    && s.maxStream == HighestLimit(steps)
    && SyncCalls(steps) == ServedAtOnce(steps) + s.channels
    && |Numbers(steps)| == s.nextStream - 1 && forall i :: 0 <= i < |Numbers(steps)| ==> Numbers(steps)[i] == i + 1
  }

  lemma TalliesStep(steps: seq<Step>, k: nat)
    requires k < |steps| && Tallies(steps[..k], AfterAll(steps[..k]))
    ensures AfterAll(steps[..k+1]) == AfterAll(steps[..k]).After(steps[k])
    ensures Tallies(steps[..k+1], AfterAll(steps[..k+1]))
  {
    hide State.After, State.Opens;
    var s, front, all := AfterAll(steps[..k]), steps[..k], steps[..k+1];
    assert all[..k] == front && all[k] == steps[k];
    Effects(s, steps[k]);
    assert Numbers(all) == Numbers(front) + match s.Opens(steps[k]) case Some(n) => [n] case None => [];
  }

  // What a step does to the limit, the number of waiting calls and the next stream.
  lemma Effects(s: State, step: Step)
    ensures s.After(step).maxStream == if step.Raise? && step.limit > s.maxStream then step.limit else s.maxStream
    ensures s.After(step).channels == s.channels + if step.Sync? && s.Opens(step) == None then 1 else 0
    ensures s.Opens(step).Some? ==> s.Opens(step).value == s.nextStream
    ensures s.After(step).nextStream == s.nextStream + if s.Opens(step).Some? then 1 else 0
  {
  }

  class StreamsMap {
    var openQueue: seq<nat>      // the channels of the waiting calls
    var tokens: set<nat>
    var nextStream: nat
    var maxStream: int
    var blockedSent: bool
    var channels: nat            // how many channels have been made
    var blockedFrames: seq<int>  // the limits reported so far
    var awake: set<nat>          // calls that have received and want the mutex

    var served: seq<nat>         // calls that had to wait and have a stream now, in order
    var blockedAt: seq<int>      // maxStream at each STREAMS_BLOCKED

    function View(): State
      reads this
    {
      State(openQueue, tokens, nextStream, maxStream, blockedSent, channels, blockedFrames, awake, served, blockedAt)
    }

    /** Calls that have to wait are served in the order of their arrival. */
    ghost predicate Fifo()
      reads this`served, this`openQueue, this`channels
    {
      && |served| + |openQueue| == channels
      && (forall i :: 0 <= i < |served| ==> served[i] == i)
      && (forall i :: 0 <= i < |openQueue| ==> openQueue[i] == |served| + i)
    }

    /** No call is woken before it is at the head of the queue; a token may be left over when it has been served. */
    ghost predicate OnlyHead()
      reads this`served, this`openQueue, this`channels, this`tokens, this`awake
    {
      && (forall w :: w in tokens ==> w <= |served| && w < channels)
      && (forall w :: w in awake ==> w == |served| && openQueue != [])
    }

    /** If a stream can be opened, the head of the queue knows or is about to find out. */
    ghost predicate NoLostWakeup()
      reads this`openQueue, this`nextStream, this`maxStream, this`tokens, this`awake
    {
      openQueue != [] && nextStream <= maxStream ==> openQueue[0] in tokens + awake
    }

    /** At most one STREAMS_BLOCKED for each value of maxStream. */
    ghost predicate BlockedOnce()
      reads this`blockedAt, this`blockedFrames, this`blockedSent, this`maxStream
    {
      && Increasing(blockedAt) && |blockedFrames| == |blockedAt|
      && (forall i :: 0 <= i < |blockedAt| ==>
         INVALID_STREAM_NUM <= blockedAt[i] <= maxStream && blockedFrames[i] == ReportedLimit(blockedAt[i]))
      && (blockedSent <==> blockedAt != [] && blockedAt[|blockedAt|-1] == maxStream)
    }

    ghost predicate Valid()
      reads this
    {
      && 1 <= nextStream && (nextStream == 1 || nextStream <= maxStream + 1) && INVALID_STREAM_NUM <= maxStream
      && Fifo() && OnlyHead() && NoLostWakeup() && BlockedOnce()
    }

    constructor ()
      ensures Valid() && View() == EMPTY
    {
      openQueue, tokens, nextStream, maxStream, blockedSent, channels := [], {}, 1, INVALID_STREAM_NUM, false, 0;
      awake, served, blockedFrames, blockedAt := {}, [], [], [];
    }

    lemma Summary()
      requires Valid()
      ensures nextStream == 1 || nextStream <= maxStream + 1
      ensures |served| + |openQueue| == channels
      ensures forall i :: 0 <= i < |served| ==> served[i] == i
      ensures forall i :: 0 <= i < |openQueue| ==> openQueue[i] == |served| + i
      ensures openQueue != [] && nextStream <= maxStream ==> openQueue[0] in tokens + awake
      ensures forall w :: w in tokens + awake ==> w <= |served|
      ensures Increasing(blockedAt) && |blockedFrames| == |blockedAt|
      ensures forall i :: 0 <= i < |blockedAt| ==>
                INVALID_STREAM_NUM <= blockedAt[i] && blockedFrames[i] == ReportedLimit(blockedAt[i])
    {
    }

    method MaybeSendBlockedFrame()
      requires BlockedOnce() && INVALID_STREAM_NUM <= maxStream
      modifies this`blockedSent, this`blockedFrames, this`blockedAt
      ensures BlockedOnce() && blockedSent && View() == old(View()).Blocked()
      ensures blockedFrames ==
                if old(blockedSent) then old(blockedFrames) else old(blockedFrames) + [ReportedLimit(maxStream)]
    {
      if blockedSent {
        return;
      }
      blockedFrames, blockedAt := blockedFrames + [ReportedLimit(maxStream)], blockedAt + [maxStream];
      blockedSent := true;
    }

    // openStream
    method TakeNumber() returns (num: nat)
      modifies this`nextStream
      ensures num == old(nextStream) && nextStream == num + 1
    {
      num := nextStream;
      nextStream := nextStream + 1;
    }

    method UnblockOpenSync()
      modifies this`tokens
      ensures tokens == if openQueue == [] then old(tokens) else old(tokens) + {openQueue[0]}
      ensures View() == old(View()).Unblocked()
    {
      if openQueue != [] {
        tokens := tokens + {openQueue[0]};
      }
    }

    /** OpenStream never overtakes a waiting call. */
    method OpenStream() returns (r: Option<nat>)
      requires Valid()
      modifies this`nextStream, this`blockedSent, this`blockedFrames, this`blockedAt
      ensures Valid() && View() == old(View()).After(Open) && r == old(View()).Opens(Open)
      ensures r.Some? <==> openQueue == [] && old(nextStream) <= maxStream
      ensures r.Some? ==> r.value == old(nextStream) && nextStream == r.value + 1 && blockedFrames == old(blockedFrames)
      ensures r == None ==> nextStream == old(nextStream) && blockedSent
      ensures r == None ==>
                blockedFrames ==
                    if old(blockedSent) then old(blockedFrames) else old(blockedFrames) + [ReportedLimit(maxStream)]
    {
      hide BlockedOnce, Fifo, OnlyHead;
      if openQueue != [] || nextStream > maxStream {
        MaybeSendBlockedFrame();
        return None;
      }
      var num := TakeNumber();
      return Some(num);
    }

    /** OpenStreamSync up to the point where it waits. */
    method Enter() returns (r: Option<nat>)
      requires Valid()
      modifies this`nextStream, this`blockedSent, this`blockedFrames, this`blockedAt, this`openQueue, this`channels
      ensures Valid() && View() == old(View()).After(Sync) && r == old(View()).Opens(Sync)
      ensures r.Some? <==> old(openQueue) == [] && old(nextStream) <= maxStream
      ensures r.Some? ==>
                r.value == old(nextStream) && nextStream == r.value + 1 && openQueue == old(openQueue) &&
                    channels == old(channels)
      ensures r == None ==>
                nextStream == old(nextStream) && openQueue == old(openQueue) + [old(channels)] &&
                    channels == old(channels) + 1 && blockedSent
      ensures blockedFrames ==
                if r.Some? || old(blockedSent) then old(blockedFrames)
                else old(blockedFrames) + [if maxStream != -1 then maxStream else 0]
    {
      hide BlockedOnce;
      if openQueue == [] && nextStream <= maxStream {
        var num := TakeNumber();
        return Some(num);
      }
      openQueue, channels := openQueue + [channels], channels + 1;
      MaybeSendBlockedFrame();
      return None;
    }

    /** A waiting call receives from its channel, if there is something to receive. */
    method Wake(w: nat) returns (ok: bool)
      requires Valid()
      modifies this`tokens, this`awake
      ensures Valid() && View() == old(View()).After(Receive(w))
      ensures ok <==> w in openQueue && w !in old(awake) && w in old(tokens)
      ensures ok ==> w == openQueue[0] && awake == old(awake) + {w} && tokens == old(tokens) - {w}
      ensures !ok ==> awake == old(awake) && tokens == old(tokens)
    {
      hide BlockedOnce;
      ok := w in openQueue && w !in awake && w in tokens;
      if ok {
        tokens, awake := tokens - {w}, awake + {w};
      }
    }

    /** A call that has received goes on: it gets the next stream, or waits again because there is none. */
    method Resume(w: nat) returns (r: Option<nat>)
      requires Valid() && w in awake
      modifies this`nextStream, this`openQueue, this`tokens, this`awake, this`served
      ensures Valid() && View() == old(View()).After(GoOn(w)) && r == old(View()).Opens(GoOn(w))
      ensures r.Some? <==> old(nextStream) <= maxStream
      ensures r.Some? ==>
                r.value == old(nextStream) && nextStream == r.value + 1 && openQueue == old(openQueue)[1..] &&
                    served == old(served) + [w]
      ensures r == None ==> nextStream == old(nextStream) && openQueue == old(openQueue) && served == old(served)
      ensures awake == old(awake) - {w}
      ensures tokens == if r.Some? && openQueue != [] then old(tokens) + {openQueue[0]} else old(tokens)
    {
      hide BlockedOnce;
      awake := awake - {w};
      if nextStream > maxStream {
        return None;
      }
      var num := TakeNumber();
      served, openQueue := served + [openQueue[0]], openQueue[1..];
      UnblockOpenSync();
      return Some(num);
    }

    method SetMaxStream(num: int)
      requires Valid()
      modifies this`maxStream, this`blockedSent, this`tokens
      ensures Valid() && View() == old(View()).After(Raise(num))
      ensures maxStream == if num <= old(maxStream) then old(maxStream) else num
      ensures blockedSent <==> old(blockedSent) && num <= old(maxStream)
      ensures tokens == if num > old(maxStream) && openQueue != [] then old(tokens) + {openQueue[0]} else old(tokens)
    {
      if num <= maxStream {
        return;
      }
      maxStream, blockedSent := num, false;
      UnblockOpenSync();
    }
  }

  // ----- whole runs

  lemma {:induction false} Spread(log: seq<int>, i: nat, j: nat)
    requires Increasing(log) && i <= j < |log|
    ensures j - i <= log[j] - log[i]
    decreases j - i
  {
    if i < j {
      Spread(log, i, j-1);
    }
  }

  /** The limits of a run are reported without repetition, except that limit 0 is reported twice if and only if a
      call was blocked before any limit was known and another one while the limit was 0. */
  lemma ReportedTwiceIff(blockedAt: seq<int>, frames: seq<int>)
    requires Increasing(blockedAt) && |frames| == |blockedAt|
    requires forall i :: 0 <= i < |blockedAt| ==>
              INVALID_STREAM_NUM <= blockedAt[i] && frames[i] == ReportedLimit(blockedAt[i])
    ensures (forall i, j :: 0 <= i < j < |frames| ==> frames[i] != frames[j]) <==>
              !(INVALID_STREAM_NUM in blockedAt && 0 in blockedAt)
    ensures forall i, j :: 0 <= i < j < |frames| && frames[i] == frames[j] ==> i == 0 && j == 1 && frames[i] == 0
  {
    if INVALID_STREAM_NUM in blockedAt && 0 in blockedAt {
      var i :| 0 <= i < |blockedAt| && blockedAt[i] == INVALID_STREAM_NUM;
      var j :| 0 <= j < |blockedAt| && blockedAt[j] == 0;
      assert i < j && frames[i] == frames[j];
    }
    forall i, j | 0 <= i < j < |frames| && frames[i] == frames[j] ensures i == 0 && j == 1 && frames[i] == 0
    {
      assert blockedAt[i] == INVALID_STREAM_NUM && blockedAt[j] == 0;
      Spread(blockedAt, 0, i);
      Spread(blockedAt, i, j);
    }
  }

  /** One step on the object. */
  method Apply(m: StreamsMap, step: Step) returns (num: Option<nat>)
    requires m.Valid()
    modifies m
    ensures m.Valid() && m.View() == old(m.View()).After(step) && num == old(m.View()).Opens(step)
  {
    hide StreamsMap.Valid, State.After, State.Opens;
    num := None;
    match step {
      case Open => num := m.OpenStream();
      case Sync => num := m.Enter();
      case Receive(w) =>
        OpensNothing(m.View(), step);
        var _ := m.Wake(w);
      case GoOn(w) =>
        if w in m.awake {
          num := m.Resume(w);
        } else {
          OpensNothing(m.View(), step);
          NotAwake(m.View(), w);
        }
      case Raise(limit) =>
        OpensNothing(m.View(), step);
        m.SetMaxStream(limit);
    }
  }

  lemma OpensNothing(s: State, step: Step)
    requires step.Receive? || step.Raise? || (step.GoOn? && step.call !in s.awake)
    ensures s.Opens(step) == None
  {
  }

  lemma NotAwake(s: State, w: nat)
    requires w !in s.awake
    ensures s.After(GoOn(w)) == s
  {
  }

  /** The first of the waiting calls gets the next number once it has received, unless it already has, and goes on. */
  predicate ServesHead(s: State)
    requires s.openQueue != []
  {
    var w := s.openQueue[0];
    var t := s.After(Receive(w));
    && t.Opens(GoOn(w)) == Some(s.nextStream) && t.After(GoOn(w)).served == s.served + [w]
    && t.After(GoOn(w)).openQueue == s.openQueue[1..]
  }

  lemma HeadIsServed(s: State)
    requires s.openQueue != [] && s.nextStream <= s.maxStream && s.openQueue[0] in s.tokens + s.awake
    ensures ServesHead(s)
  {
  }

  /** For every interleaving the object ends in the state of the specification: streams are opened as 1, 2, 3, ...,
      never beyond the highest limit named; every call of OpenStreamSync got its stream at once, got it later, or
      still waits, and those that had to wait are served in order of arrival; if a stream can be opened while calls
      wait, the first of them has been woken and is served as soon as it goes on; and no limit but 0 is reported
      twice. */
  method Run(steps: seq<Step>) returns (opens: seq<Option<nat>>, s: State)
    ensures s == AfterAll(steps) && |opens| == |steps|
    ensures forall k :: 0 <= k < |steps| ==> opens[k] == AfterAll(steps[..k]).Opens(steps[k])
    ensures |Numbers(steps)| == s.nextStream - 1 && forall i :: 0 <= i < |Numbers(steps)| ==> Numbers(steps)[i] == i + 1
    ensures s.maxStream == HighestLimit(steps) && (Numbers(steps) != [] ==> |Numbers(steps)| <= s.maxStream)
    ensures SyncCalls(steps) == ServedAtOnce(steps) + |s.served| + |s.openQueue|
    ensures forall i :: 0 <= i < |s.served| ==> s.served[i] == i
    ensures forall i :: 0 <= i < |s.openQueue| ==> s.openQueue[i] == |s.served| + i
    ensures s.openQueue != [] && |Numbers(steps)| < s.maxStream ==>
              s.openQueue[0] in s.tokens + s.awake && ServesHead(s)
    ensures forall w :: w in s.tokens + s.awake ==> w <= |s.served|
    ensures forall i, j :: 0 <= i < j < |s.blockedFrames| && s.blockedFrames[i] == s.blockedFrames[j] ==>
              i == 0 && j == 1 && s.blockedFrames[i] == 0
    ensures (exists i, j :: 0 <= i < j < |s.blockedFrames| && s.blockedFrames[i] == s.blockedFrames[j]) <==>
            INVALID_STREAM_NUM in s.blockedAt && 0 in s.blockedAt
  {
    hide StreamsMap.Valid, State.After, State.Opens, ServesHead;
    var m := new StreamsMap();
    opens := [];
    for k := 0 to |steps|
      invariant m.Valid() && fresh(m) && m.View() == AfterAll(steps[..k]) && Tallies(steps[..k], m.View())
      invariant |opens| == k && forall i :: 0 <= i < k ==> opens[i] == AfterAll(steps[..i]).Opens(steps[i])
    {
      hide AfterAll, Tallies;
      TalliesStep(steps, k);
      var num := Apply(m, steps[k]);
      opens := opens + [num];
    }
    assert steps[..|steps|] == steps;
    m.Summary();
    s := m.View();
    if s.openQueue != [] && s.nextStream <= s.maxStream {
      HeadIsServed(s);
    }
    ReportedTwiceIff(s.blockedAt, s.blockedFrames);
  }

  /** Limit 0 can be reported twice: once before any limit is known and once after the peer has named 0. */
  method LimitZeroTwice() returns (frames: seq<int>)
    ensures frames == [0, 0]
  {
    hide StreamsMap.Valid;
    var m := new StreamsMap();
    var r := m.OpenStream();
    m.SetMaxStream(0);
    r := m.OpenStream();
    frames := m.blockedFrames;
  }
}
