/** Collecting the frames of a packet (framer.go). */
module Framers {
  import opened Common
  import opened Bytes
  import opened VarInts
  import opened StreamFrames
  import opened Streams
  import opened Packing

  function Ids(queue: seq<nat>): set<nat> {
    set i | 0 <= i < |queue| :: queue[i]
  }

  predicate NoRepeats(queue: seq<nat>) {
    forall i, j :: 0 <= i < j < |queue| ==> queue[i] != queue[j]
  }

  function Reversed(cs: seq<ControlFrame>): seq<ControlFrame> {
    if cs == [] then [] else Reversed(cs[1..]) + [cs[0]]
  }

  lemma {:induction false} ReversedPush(cs: seq<ControlFrame>, c: ControlFrame)
    ensures Reversed(cs + [c]) == [c] + Reversed(cs)
  {
    if cs != [] {
      ReversedPush(cs[1..], c);
      assert (cs + [c])[1..] == cs[1..] + [c];
    }
  }

  lemma EmptyTaken()
    ensures Reversed([]) == [] && ControlSize([]) == 0
  {
  }

  lemma MoveBack(cs: seq<ControlFrame>, taken: seq<ControlFrame>)
    requires cs != []
    ensures cs[..|cs|-1] + Reversed(taken + [cs[|cs|-1]]) == cs + Reversed(taken)
    ensures ControlSize(taken + [cs[|cs|-1]]) == ControlSize(taken) + cs[|cs|-1].length
  {
    ReversedPush(taken, cs[|cs|-1]);
    assert (taken + [cs[|cs|-1]])[..|taken|] == taken;
    assert cs == cs[..|cs|-1] + [cs[|cs|-1]];
  }

  lemma IdsPush(queue: seq<nat>, id: nat)
    ensures Ids(queue + [id]) == Ids(queue) + {id}
  {
    assert (queue + [id])[|queue|] == id;
    forall x | x in Ids(queue) ensures x in Ids(queue + [id]) {
      var i :| 0 <= i < |queue| && queue[i] == x;
      assert (queue + [id])[i] == x;
    }
  }

  lemma IdsPop(queue: seq<nat>)
    requires queue != [] && NoRepeats(queue)
    ensures Ids(queue[1..]) == Ids(queue) - {queue[0]} && NoRepeats(queue[1..])
  {
    forall x | x in Ids(queue) && x != queue[0] ensures x in Ids(queue[1..]) {
      var i :| 0 <= i < |queue| && queue[i] == x;
      assert queue[1..][i-1] == x;
    }
  }

  lemma NextInQueue(q0: seq<nat>, i: nat, queue: seq<nat>)
    requires NoRepeats(q0) && i < |q0| && q0[i..] <= queue
    ensures queue != [] && queue[0] == q0[i] && q0[i] !in Ids(q0[..i])
    ensures Ids(q0[..i+1]) == Ids(q0[..i]) + {q0[i]} && q0[i+1..] <= queue[1..]
  {
    assert q0[..i+1] == q0[..i] + [q0[i]];
    IdsPush(q0[..i], q0[i]);
  }

  /** How many bytes of a stream the frames carry. */
  function DataOf(fs: seq<StreamFrame>, id: nat): nat {
    if fs == [] then 0 else DataOf(fs[..|fs|-1], id) + if fs[|fs|-1].streamId == id then |fs[|fs|-1].data| else 0
  }

  /** Whether the frames carry the end of a stream. */
  predicate FinOf(fs: seq<StreamFrame>, id: nat) {
    fs != [] && (FinOf(fs[..|fs|-1], id) || (fs[|fs|-1].streamId == id && fs[|fs|-1].fin))
  }

  lemma DataOfPush(fs: seq<StreamFrame>, f: StreamFrame, id: nat)
    ensures DataOf(fs + [f], id) == DataOf(fs, id) + if f.streamId == id then |f.data| else 0
    ensures FinOf(fs + [f], id) <==> FinOf(fs, id) || (f.streamId == id && f.fin)
  {
    assert (fs + [f])[..|fs|] == fs;
  }

  lemma OpenLastData(fs: seq<StreamFrame>, id: nat)
    ensures DataOf(OpenLast(fs), id) == DataOf(fs, id) && FinOf(OpenLast(fs), id) == FinOf(fs, id)
  {
    if fs != [] {
      assert OpenLast(fs)[..|fs|-1] == fs[..|fs|-1];
    }
  }

  // ----- which streams are asked, and where their frames start

  /** a can be had from b by leaving elements out. */
  predicate Subsequence(a: seq<nat>, b: seq<nat>)
    decreases |b|
  {
    if b == [] then a == []
    else
      var front, last := b[..|b|-1], b[|b|-1];
      Subsequence(a, front) || (a != [] && a[|a|-1] == last && Subsequence(a[..|a|-1], front))
  }

  lemma SubsequencePush(a: seq<nat>, b: seq<nat>, x: nat)
    requires Subsequence(a, b)
    ensures Subsequence(a, b + [x]) && Subsequence(a + [x], b + [x])
  {
    assert (b + [x])[..|b|] == b && (a + [x])[..|a|] == a;
  }

  lemma {:induction false} SubsequenceElements(a: seq<nat>, b: seq<nat>)
    requires Subsequence(a, b)
    ensures forall x :: x in a ==> x in b
    decreases |b|
  {
    if b != [] {
      var front := b[..|b|-1];
      if Subsequence(a, front) {
        SubsequenceElements(a, front);
      } else {
        SubsequenceElements(a[..|a|-1], front);
        assert a == a[..|a|-1] + [a[|a|-1]];
      }
    }
  }

  /** A queue without repetitions yields at most one frame from each stream. */
  lemma {:induction false} OncePerStream(a: seq<nat>, b: seq<nat>)
    requires Subsequence(a, b) && NoRepeats(b)
    ensures NoRepeats(a)
    decreases |b|
  {
    if b != [] {
      var front := b[..|b|-1];
      if Subsequence(a, front) {
        OncePerStream(a, front);
      } else {
        var a' := a[..|a|-1];
        OncePerStream(a', front);
        SubsequenceElements(a', front);
        forall i, j | 0 <= i < j < |a| ensures a[i] != a[j] {
          if j == |a| - 1 {
            assert a[i] == a'[i] && a[i] in front;
          } else {
            assert a[i] == a'[i] && a[j] == a'[j];
          }
        }
      }
    }
  }

  function StreamIds(fs: seq<StreamFrame>): seq<nat> {
    if fs == [] then [] else StreamIds(fs[..|fs|-1]) + [fs[|fs|-1].streamId]
  }

  /** Every frame starts where its stream stood. */
  ghost predicate FromStart(fs: seq<StreamFrame>, start: map<nat, Progress>) {
    forall i :: 0 <= i < |fs| ==> fs[i].streamId in start && fs[i].offset == start[fs[i].streamId].writeOffset
  }

  /** The frames are in the order of the queue, at most one from each stream, and start where their streams stood. */
  ghost predicate InTurn(fs: seq<StreamFrame>, start: map<nat, Progress>, queue: seq<nat>) {
    FromStart(fs, start) && Subsequence(StreamIds(fs), queue)
  }

  // The frame that was added, if any, is the next one of stream `id`.
  ghost predicate NextFrom(out: seq<StreamFrame>, out': seq<StreamFrame>, id: nat, start: map<nat, Progress>) {
    || out' == out
    || (|out'| == |out| + 1 && out' == out + [out'[|out|]] && out'[|out|].streamId == id
        && id in start && out'[|out|].offset == start[id].writeOffset)
  }

  lemma InTurnNext(out: seq<StreamFrame>, out': seq<StreamFrame>, start: map<nat, Progress>, queue: seq<nat>, i: nat)
    requires i < |queue| && InTurn(out, start, queue[..i]) && NextFrom(out, out', queue[i], start)
    ensures InTurn(out', start, queue[..i+1])
  {
    assert queue[..i+1] == queue[..i] + [queue[i]];
    SubsequencePush(StreamIds(out), queue[..i], queue[i]);
    if out' != out {
      assert out'[..|out|] == out;
    }
  }

  lemma NoneTwice(fs: seq<StreamFrame>, start: map<nat, Progress>, queue: seq<nat>, n: nat)
    requires n <= |queue| && InTurn(fs, start, queue[..n]) && NoRepeats(queue)
    ensures NoRepeats(StreamIds(fs))
  {
    OncePerStream(StreamIds(fs), queue[..n]);
  }

  lemma InTurnOpen(fs: seq<StreamFrame>, start: map<nat, Progress>, queue: seq<nat>)
    requires InTurn(fs, start, queue)
    ensures InTurn(OpenLast(fs), start, queue)
  {
    if fs != [] {
      assert OpenLast(fs)[..|fs|-1] == fs[..|fs|-1];
    }
  }

  // ----- room for one more STREAM frame

  /** Popping a frame with its length field into the pretended room leaves it within the real room without that
      field. */
  lemma PretendedRoom(f: StreamFrame, room: nat)
    requires Encodable(f) && f.dataLenPresent && MIN_STREAM_FRAME_SIZE <= room <= MAX_VAR_INT_2
    requires |f.data| <= MaxDataLen(f, room + VarIntLen(room))
    ensures Length(f.(dataLenPresent := false)) <= room
  {
  }

  /** The streams, by number. */
  ghost predicate StreamsOk(streams: map<nat, SendStream>)
    reads streams.Values
  {
    forall id :: id in streams ==> streams[id].streamId == id && streams[id].Valid()
  }

  /** Every frame is cut from what has been written to its stream. */
  ghost predicate Cuts(fs: seq<StreamFrame>, streams: map<nat, SendStream>)
    reads streams.Values
  {
    forall i :: 0 <= i < |fs| ==>
      fs[i].streamId in streams &&
          CutOf(fs[i], streams[fs[i].streamId].written, streams[fs[i].streamId].finishedWriting)
  }

  /** How far a stream was, and whether it had something to send. */
  datatype Progress = Progress(writeOffset: nat, finSent: bool, silent: bool)

  ghost function ProgressOf(str: SendStream, limit: nat): Progress
    reads str
  {
    Progress(str.writeOffset, str.finSent, str.HasNothing(Window(limit, str.writeOffset)))
  }

  ghost function Standing(streams: map<nat, SendStream>, limit: nat -> nat): map<nat, Progress>
    reads streams.Values
  {
    map id | id in streams :: ProgressOf(streams[id], limit(id))
  }

  /** Every stream has advanced by what the frames carry of it. */
  ghost predicate Advanced(fs: seq<StreamFrame>, streams: map<nat, SendStream>, start: map<nat, Progress>)
    reads streams.Values
  {
    forall id :: id in streams && id in start ==>
      streams[id].writeOffset == start[id].writeOffset + DataOf(fs, id) &&
          (streams[id].finSent <==> start[id].finSent || FinOf(fs, id))
  }

  /** Of the streams that were asked, those that had something to send have sent something; the others are as before. */
  ghost predicate Served(asked: set<nat>, streams: map<nat, SendStream>, start: map<nat, Progress>, limit: nat -> nat)
    reads streams.Values
  {
    forall id :: id in streams && id in start ==>
      if id in asked then start[id].silent || start[id].writeOffset < streams[id].writeOffset ||
          (streams[id].finSent && !start[id].finSent)
      else start[id] == ProgressOf(streams[id], limit(id))
  }

  /** What a round over the streams comes to: frames cut from what was written, in turn, by which the streams have
      advanced, from everyone asked who had something to send. */
  ghost predicate Round(fs: seq<StreamFrame>, streams: map<nat, SendStream>, start: map<nat, Progress>,
                        limit: nat -> nat, queue: seq<nat>, asked: nat)
    reads streams.Values
  {
    && asked <= |queue| && Cuts(fs, streams) && Advanced(fs, streams, start)
    && InTurn(fs, start, queue[..asked]) && Served(Ids(queue[..asked]), streams, start, limit)
  }

  lemma NotAskedYet(asked: set<nat>, streams: map<nat, SendStream>, start: map<nat, Progress>, limit: nat -> nat,
                    id: nat)
    requires Served(asked, streams, start, limit) && id in streams && id in start && id !in asked
    ensures start[id].writeOffset == streams[id].writeOffset
  {
  }

  /** A stream that was active, still has data and is not blocked is active. */
  ghost predicate StayActive(streams: map<nat, SendStream>, newlyBlocked: nat -> bool, before: set<nat>,
                             active: set<nat>)
    reads streams.Values
  {
    forall id :: id in streams && id in before && streams[id].dataForWriting.Some? && !newlyBlocked(id) ==> id in active
  }

  lemma CutsPush(fs: seq<StreamFrame>, f: StreamFrame, streams: map<nat, SendStream>)
    requires Cuts(fs, streams) && f.streamId in streams &&
              CutOf(f, streams[f.streamId].written, streams[f.streamId].finishedWriting)
    ensures Cuts(fs + [f], streams)
  {
    hide CutOf;
  }

  lemma OpenLastKeeps(fs: seq<StreamFrame>, streams: map<nat, SendStream>, start: map<nat, Progress>)
    requires Cuts(fs, streams) && Advanced(fs, streams, start)
    ensures Cuts(OpenLast(fs), streams) && Advanced(OpenLast(fs), streams, start)
  {
    forall id ensures DataOf(OpenLast(fs), id) == DataOf(fs, id) {
      OpenLastData(fs, id);
    }
  }

  lemma RoundBegins(streams: map<nat, SendStream>, limit: nat -> nat, newlyBlocked: nat -> bool, active: set<nat>,
                    queue: seq<nat>, maxLen: nat)
    ensures Packed([], 0, 0, maxLen) && AllDelimited([]) && Cuts([], streams)
    ensures Advanced([], streams, Standing(streams, limit)) && StayActive(streams, newlyBlocked, active, active)
    ensures Served(Ids(queue[..0]), streams, Standing(streams, limit), limit)
    ensures InTurn([], Standing(streams, limit), queue[..0])
  {
  }

  // The last frame loses its length field.
  lemma RoundEnds(out: seq<StreamFrame>, length: nat, maxLen: nat, streams: map<nat, SendStream>,
                  start: map<nat, Progress>, asked: seq<nat>)
    requires Packed(out, 0, length, maxLen) && AllDelimited(out) && Cuts(out, streams)
    requires Advanced(out, streams, start) && InTurn(out, start, asked)
    ensures AllSendable(OpenLast(out)) && OnlyLastOpen(OpenLast(out)) && StreamSize(OpenLast(out)) <= maxLen
    ensures length == StreamSize(OpenLast(out)) + LastField(OpenLast(out))
    ensures Cuts(OpenLast(out), streams) && Advanced(OpenLast(out), streams, start)
    ensures InTurn(OpenLast(out), start, asked)
  {
    OpenLastSendable(out);
    OpenLastSize(out);
    OpenLastKeeps(out, streams, start);
    InTurnOpen(out, start, asked);
  }

  // What flow control lets a stream send when it may send up to an absolute offset.
  function Window(limit: nat, writeOffset: nat): nat {
    if limit < writeOffset then 0 else limit - writeOffset
  }

  class Framer {
    var controlFrames: seq<ControlFrame>
    var streamQueue: seq<nat>
    var activeStreams: set<nat>

    /** The queue holds every active stream once. */
    ghost predicate Valid()
      reads this
    {
      NoRepeats(streamQueue) && activeStreams == Ids(streamQueue)
    }

    constructor ()
      ensures Valid() && controlFrames == [] && streamQueue == []
    {
      controlFrames, streamQueue, activeStreams := [], [], {};
    }

    method QueueControlFrame(c: ControlFrame)
      modifies this`controlFrames
      ensures controlFrames == old(controlFrames) + [c]
    {
      controlFrames := controlFrames + [c];
    }

    /** The latest control frames go first; none is lost, and it stops only at one that does not fit. */
    method AppendControlFrames(maxLen: nat) returns (taken: seq<ControlFrame>, length: nat)
      modifies this`controlFrames
      ensures old(controlFrames) == controlFrames + Reversed(taken)
      ensures length == ControlSize(taken) <= maxLen
      ensures controlFrames != [] ==> maxLen < length + controlFrames[|controlFrames|-1].length
    {
      hide Reversed, ControlSize;
      taken, length := [], 0;
      EmptyTaken();
      while controlFrames != []
        invariant controlFrames + Reversed(taken) == old(controlFrames)
        invariant length == ControlSize(taken) <= maxLen
        decreases |controlFrames|
      {
        var frame := controlFrames[|controlFrames|-1];
        if length + frame.length > maxLen {
          break;
        }
        MoveBack(controlFrames, taken);
        taken, length := taken + [frame], length + frame.length;
        controlFrames := controlFrames[..|controlFrames|-1];
      }
    }

    method AddActiveStream(id: nat)
      requires Valid()
      modifies this`streamQueue, this`activeStreams
      ensures Valid() && activeStreams == old(activeStreams) + {id}
      ensures streamQueue == if id in old(activeStreams) then old(streamQueue) else old(streamQueue) + [id]
    {
      if id !in activeStreams {
        IdsPush(streamQueue, id);
        streamQueue := streamQueue + [id];
        activeStreams := activeStreams + {id};
      }
    }

    /** One active stream is asked for a frame; it goes to the back of the queue if it has more to send. */
    method PopFrom(str: SendStream, limit: nat, newlyBlocked: bool, room: nat) returns (frame: Option<StreamFrame>)
      requires Valid() && str.Valid() && streamQueue != [] && streamQueue[0] == str.streamId
      requires limit <= MAX_BYTE_COUNT && MIN_STREAM_FRAME_SIZE <= room <= MAX_VAR_INT_2
      modifies this`streamQueue, this`activeStreams, str`writeOffset, str`dataForWriting, str`finSent
      ensures Valid() && str.Valid()
      ensures activeStreams == old(activeStreams) ||
                (activeStreams == old(activeStreams) - {str.streamId} && (str.dataForWriting == None || newlyBlocked))
      ensures streamQueue == old(streamQueue)[1..] || streamQueue == old(streamQueue)[1..] + [str.streamId]
      ensures str.dataForWriting.Some? ==> old(str.dataForWriting).Some?
      ensures frame == None ==> str.finSent == old(str.finSent) && old(str.HasNothing(Window(limit, str.writeOffset)))
      ensures frame == None ==> str.writeOffset == old(str.writeOffset)
      ensures frame.Some? ==>
                var f := frame.value;
                && f.streamId == str.streamId && f.dataLenPresent && Sendable(f)
                && f.offset == old(str.writeOffset) && str.writeOffset == f.offset + |f.data|
                && (str.finSent <==> old(str.finSent) || f.fin) && (f.data != [] || !old(str.finSent))
                && CutOf(f, str.written, str.finishedWriting)
                && Length(f.(dataLenPresent := false)) <= room
    {
      IdsPop(streamQueue);
      var hasMoreData;
      frame, hasMoreData := str.PopStreamFrame(room + VarIntLen(room), Window(limit, str.writeOffset), newlyBlocked);
      if frame.Some? {
        PretendedRoom(frame.value, room);
      }
      streamQueue := streamQueue[1..];
      if hasMoreData {
        IdsPush(streamQueue, str.streamId);
        streamQueue := streamQueue + [str.streamId];
      } else {
        activeStreams := activeStreams - {str.streamId};
      }
    }

    // The stream at the head of the queue is asked for a frame.
    method Ask(streams: map<nat, SendStream>, limit: nat -> nat, newlyBlocked: nat -> bool, room: nat,
               ghost out: seq<StreamFrame>, ghost start: map<nat, Progress>, ghost before: set<nat>,
                   ghost asked: set<nat>)
      returns (frame: Option<StreamFrame>)
      requires Valid() && StreamsOk(streams) && streamQueue != [] && streamQueue[0] in streams &&
                streamQueue[0] !in asked
      requires MIN_STREAM_FRAME_SIZE <= room <= MAX_VAR_INT_2 && forall id :: limit(id) <= MAX_BYTE_COUNT
      requires Advanced(out, streams, start) && StayActive(streams, newlyBlocked, before, activeStreams) &&
                Served(asked, streams, start, limit)
      modifies this`streamQueue, this`activeStreams, streams.Values`writeOffset, streams.Values`dataForWriting,
          streams.Values`finSent
      ensures Valid() && StreamsOk(streams) && activeStreams <= old(activeStreams) &&
                old(streamQueue)[1..] <= streamQueue
      ensures Advanced(if frame == None then out else out + [frame.value], streams, start)
      ensures StayActive(streams, newlyBlocked, before, activeStreams) &&
                Served(asked + {old(streamQueue)[0]}, streams, start, limit)
      ensures frame.Some? ==>
                var f := frame.value;
                && f.streamId in streams && CutOf(f, streams[f.streamId].written, streams[f.streamId].finishedWriting)
                && f.dataLenPresent && Sendable(f) && Length(f.(dataLenPresent := false)) <= room
                && f.streamId == old(streamQueue)[0] && f.offset == old(streams[streamQueue[0]].writeOffset)
    {
      hide CutOf, DataOf, FinOf, Length, Ids, NoRepeats, SendStream.Valid, Sendable;
      var id := streamQueue[0];
      frame := PopFrom(streams[id], limit(id), newlyBlocked(id), room);
      if frame.Some? {
        forall x
          ensures DataOf(out + [frame.value], x) == DataOf(out, x) + if x == id then |frame.value.data| else 0
          ensures FinOf(out + [frame.value], x) <==> FinOf(out, x) || (x == id && frame.value.fin)
        {
          DataOfPush(out, frame.value, x);
        }
      }
    }

    // A stream that is gone leaves the queue.
    method Forget(streams: map<nat, SendStream>, limit: nat -> nat, newlyBlocked: nat -> bool,
                  ghost start: map<nat, Progress>, ghost before: set<nat>, ghost asked: set<nat>)
      requires Valid() && streamQueue != [] && streamQueue[0] !in streams
      requires StayActive(streams, newlyBlocked, before, activeStreams) && Served(asked, streams, start, limit)
      modifies this`streamQueue, this`activeStreams
      ensures Valid() && activeStreams <= old(activeStreams) && streamQueue == old(streamQueue)[1..]
      ensures StayActive(streams, newlyBlocked, before, activeStreams) &&
                Served(asked + {old(streamQueue)[0]}, streams, start, limit)
    {
      IdsPop(streamQueue);
      streamQueue, activeStreams := streamQueue[1..], activeStreams - {streamQueue[0]};
    }

    // One iteration of AppendStreamFrames.
    method AppendNext(out: seq<StreamFrame>, length: nat, maxLen: nat, streams: map<nat, SendStream>,
                      limit: nat -> nat, newlyBlocked: nat -> bool,
                      ghost start: map<nat, Progress>, ghost before: set<nat>, ghost asked: set<nat>)
      returns (out': seq<StreamFrame>, length': nat)
      requires Valid() && StreamsOk(streams) && streamQueue != [] && streamQueue[0] !in asked
      requires MIN_STREAM_FRAME_SIZE + length <= maxLen <= MAX_VAR_INT_2 && forall id :: limit(id) <= MAX_BYTE_COUNT
      requires Packed(out, 0, length, maxLen) && AllDelimited(out)
      requires Cuts(out, streams) && Advanced(out, streams, start) &&
                StayActive(streams, newlyBlocked, before, activeStreams)
      requires Served(asked, streams, start, limit) && start.Keys == streams.Keys
      modifies this`streamQueue, this`activeStreams, streams.Values`writeOffset, streams.Values`dataForWriting,
          streams.Values`finSent
      ensures Valid() && StreamsOk(streams) && activeStreams <= old(activeStreams)
      ensures old(streamQueue)[1..] <= streamQueue
      ensures Packed(out', 0, length', maxLen) && AllDelimited(out')
      ensures Cuts(out', streams) && Advanced(out', streams, start) &&
                StayActive(streams, newlyBlocked, before, activeStreams)
      ensures Served(asked + {old(streamQueue)[0]}, streams, start, limit)
      ensures NextFrom(out, out', old(streamQueue)[0], start)
    {
      hide Packed, CutOf, Length, Ids, NoRepeats, Advanced, Served, StayActive, StreamsOk;
      if streamQueue[0] !in streams {
        Forget(streams, limit, newlyBlocked, start, before, asked);
        return out, length;
      }
      NotAskedYet(asked, streams, start, limit, streamQueue[0]);
      var frame := Ask(streams, limit, newlyBlocked, maxLen - length, out, start, before, asked);
      if frame == None {
        return out, length;
      }
      PackedPush(out, 0, length, maxLen, frame.value);
      CutsPush(out, frame.value, streams);
      return out + [frame.value], length + Length(frame.value);
    }

    /** One round over the active streams, each asked at most once and in order, until the packet is full.  The
        frames fit once the last has lost its length field; each starts where its stream stood, and every stream
        advances by what its frame carries; whoever was asked and had something to send has sent something; and a
        stream that still has data and is not blocked stays active.  `limit` and `newlyBlocked` are the answers of
        flow control. */
    method AppendStreamFrames(maxLen: nat, streams: map<nat, SendStream>, limit: nat -> nat, newlyBlocked: nat -> bool)
      returns (out: seq<StreamFrame>, length: nat, ghost asked: nat)
      requires Valid() && StreamsOk(streams) && maxLen <= MAX_VAR_INT_2
      requires forall id :: limit(id) <= MAX_BYTE_COUNT
      modifies this`streamQueue, this`activeStreams, streams.Values`writeOffset, streams.Values`dataForWriting,
          streams.Values`finSent
      ensures Valid() && StreamsOk(streams) && activeStreams <= old(activeStreams)
      ensures AllSendable(out) && OnlyLastOpen(out)
      ensures StreamSize(out) <= maxLen && length == StreamSize(out) + LastField(out)
      ensures Round(out, streams, old(Standing(streams, limit)), limit, old(streamQueue), asked)
      ensures NoRepeats(StreamIds(out))
      ensures StayActive(streams, newlyBlocked, old(activeStreams), activeStreams)
      ensures asked <= |old(streamQueue)| && old(streamQueue)[asked..] <= streamQueue
      ensures asked < |old(streamQueue)| ==> maxLen < MIN_STREAM_FRAME_SIZE + length
    {
      ghost var q0, start := streamQueue, Standing(streams, limit);
      assert start.Keys == streams.Keys;
      hide Packed, Cuts, Advanced, StayActive, Served, InTurn, StreamsOk, Ids, NoRepeats, StreamSize, Standing;
      RoundBegins(streams, limit, newlyBlocked, activeStreams, q0, maxLen);
      var numActiveStreams := |streamQueue|;
      out, length := [], 0;
      var i := 0;
      while i < numActiveStreams
        invariant 0 <= i <= numActiveStreams && q0[i..] <= streamQueue
        invariant Valid() && StreamsOk(streams) && activeStreams <= old(activeStreams)
        invariant Packed(out, 0, length, maxLen) && AllDelimited(out)
        invariant Cuts(out, streams) && Advanced(out, streams, start) &&
                  StayActive(streams, newlyBlocked, old(activeStreams), activeStreams)
        invariant Served(Ids(q0[..i]), streams, start, limit)
        invariant InTurn(out, start, q0[..i])
      {
        hide *;
        if MIN_STREAM_FRAME_SIZE + length > maxLen {
          break;
        }
        NextInQueue(q0, i, streamQueue);
        ghost var before := out;
        out, length :=
            AppendNext(out, length, maxLen, streams, limit, newlyBlocked, start, old(activeStreams), Ids(q0[..i]));
        InTurnNext(before, out, start, q0, i);
        i := i + 1;
      }
      asked := i;
      RoundEnds(out, length, maxLen, streams, start, q0[..i]);
      out := OpenLast(out);
      NoneTwice(out, start, q0, i);
    }
  }
}
