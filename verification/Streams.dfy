/** The two halves of a stream (send_stream.go, receive_stream.go) and what they achieve together: the bytes read are a
    prefix of the bytes written, whatever the network does to the frames.

    Blocking calls are single steps: a Read that would wait returns `blocked`.  Flow control enters through the window
    handed to PopStreamFrame; cancelling, resets and deadlines are not part of this model. */
module Streams {
  import opened Common
  import opened Bytes
  import opened VarInts
  import opened StreamFrames
  import opened FrameSorters

  /** Frame f is cut from the byte string w; it says FIN only at the end of a string that is complete. */
  ghost predicate CutOf(f: StreamFrame, w: seq<byte>, closed: bool) {
    && f.offset + |f.data| <= |w|
    && f.data == w[f.offset..f.offset + |f.data|]
    && (f.fin ==> closed && f.offset + |f.data| == |w|)
  }

  // ----- sending

  function Min(a: nat, b: nat): nat {
    if a < b then a else b
  }

  /** The frame that comes next on a stream of which `offset` bytes of w have been handed out; `endOpen` says that the
      stream is closed and its FIN has not been sent. */
  function NextFrame(id: nat, w: seq<byte>, offset: nat, endOpen: bool, maxBytes: nat, window: nat): Option<StreamFrame>
    requires id <= MAX_VAR_INT_8 && offset <= |w| && offset + window <= MAX_BYTE_COUNT
  {
    var maxDataLen := MaxDataLen(StreamFrame(id, offset, [], false, true), maxBytes);
    var n := Min(Min(maxDataLen, window), |w| - offset);
    var fin := endOpen && offset + n == |w|;
    if maxDataLen == 0 || (n == 0 && !fin) then None
    else Some(StreamFrame(id, offset, w[offset..offset + n], fin, true))
  }

  class SendStream {
    const streamId: nat
    var writeOffset: nat
    var finishedWriting: bool
    var finSent: bool
    var dataForWriting: Option<seq<byte>>   // None once everything has been handed out

    ghost var written: seq<byte>

    ghost predicate Valid()
      reads this
    {
      && streamId <= MAX_VAR_INT_8
      && writeOffset <= |written| && writeOffset <= MAX_BYTE_COUNT
      && dataForWriting == (if writeOffset == |written| then None else Some(written[writeOffset..]))
      && (finSent ==> finishedWriting && writeOffset == |written|)
    }

    constructor (id: nat)
      requires id <= MAX_VAR_INT_8
      ensures Valid() && written == [] && !finishedWriting && !finSent && writeOffset == 0 && streamId == id
    {
      streamId, writeOffset, finishedWriting, finSent, dataForWriting, written := id, 0, false, false, None, [];
    }

    /** Write up to the point where it waits.  The data waiting is replaced, so the bytes are appended to everything
        written if and only if nothing was waiting: a call that comes too early makes the stream forget the rest of the
        one before. */
    method Write(p: seq<byte>) returns (ok: bool)
      requires Valid()
      modifies this`dataForWriting, this`written
      ensures Valid()
      ensures ok <==> !finishedWriting
      ensures written == if ok && p != [] then old(written)[..writeOffset] + p else old(written)
      ensures ok ==> (written == old(written) + p <==> p == [] || old(dataForWriting) == None)
    {
      if finishedWriting {
        return false;
      }
      if |p| == 0 {
        return true;
      }
      dataForWriting := Some(p);
      assert (written[..writeOffset] + p)[writeOffset..] == p;
      written := written[..writeOffset] + p;
      return true;
    }

    method Close()
      requires Valid()
      modifies this`finishedWriting
      ensures Valid() && finishedWriting
    {
      finishedWriting := true;
    }

    /** getDataForWriting: at most maxBytes and at most what flow control allows. */
    method GetDataForWriting(maxBytes: nat, window: nat) returns (data: seq<byte>, fin: bool)
      requires Valid() && writeOffset + window <= MAX_BYTE_COUNT
      modifies this`writeOffset, this`dataForWriting
      ensures Valid() && writeOffset == old(writeOffset) + |data|
      ensures data == written[old(writeOffset)..writeOffset]
      ensures |data| == Min(Min(maxBytes, window), |written| - old(writeOffset))
      ensures fin <==> finishedWriting && !finSent && writeOffset == |written|
    {
      if dataForWriting == None {
        return [], finishedWriting && !finSent;
      }
      var n := if window < maxBytes then window else maxBytes;
      if n == 0 {
        return [], false;
      }
      if |dataForWriting.value| > n {
        data := dataForWriting.value[..n];
        dataForWriting := Some(dataForWriting.value[n..]);
      } else {
        data := dataForWriting.value;
        dataForWriting := None;
      }
      writeOffset := writeOffset + |data|;
      fin := finishedWriting && dataForWriting == None && !finSent;
    }

    /** There is neither data that may be sent now nor a FIN. */
    predicate HasNothing(window: nat)
      reads this
    {
      if dataForWriting == None then !finishedWriting || finSent else window == 0
    }

    /** popStreamFrame: the next frame starts where the last one ended, is cut from what was written, fits, and FIN is
        sent once.  `newlyBlocked` is the answer of the flow controller if nothing could be sent. */
    method PopStreamFrame(maxBytes: nat, window: nat, newlyBlocked: bool)
      returns (frame: Option<StreamFrame>, hasMoreData: bool)
      requires Valid() && writeOffset + window <= MAX_BYTE_COUNT
      modifies this`writeOffset, this`dataForWriting, this`finSent
      ensures Valid() && old(writeOffset) <= writeOffset <= old(writeOffset) + window
      ensures frame ==
                NextFrame(streamId, written, old(writeOffset), finishedWriting && !old(finSent), maxBytes, window)
      ensures frame == None ==> writeOffset == old(writeOffset) && finSent == old(finSent)
      ensures frame == None && 20 <= maxBytes ==> old(HasNothing(window))
      ensures var noRoom := MaxDataLen(StreamFrame(streamId, old(writeOffset), [], false, true), maxBytes) == 0;
              var ends := finishedWriting && !old(finSent) && old(writeOffset) == |written|;
              && (frame == None <==> noRoom || ((window == 0 || old(writeOffset) == |written|) && !ends))
              && (hasMoreData <==> writeOffset < |written| && (frame == None && !noRoom ==> !newlyBlocked))
      ensures frame.Some? ==>
                var f := frame.value;
                && f.streamId == streamId && f.dataLenPresent && Encodable(f) && (f.data != [] || f.fin)
                && f.offset == old(writeOffset) && writeOffset == f.offset + |f.data|
                && CutOf(f, written, finishedWriting)
                && (f.fin <==> finSent && !old(finSent)) && (old(finSent) ==> finSent)
                && (f.fin <==> finishedWriting && !old(finSent) && writeOffset == |written|)
                && |f.data| <= MaxDataLen(f, maxBytes)
                && (|f.data| == MaxDataLen(f, maxBytes) || |f.data| == window || writeOffset == |written|)
                && (maxBytes <= MAX_VAR_INT_2 ==> Length(f) <= maxBytes)
    {
      var header := StreamFrame(streamId, writeOffset, [], false, true);
      var maxDataLen := MaxDataLen(header, maxBytes);
      if maxDataLen == 0 {
        return None, dataForWriting != None;
      }
      var data, fin := GetDataForWriting(maxDataLen, window);
      if |data| == 0 && !fin {
        return None, dataForWriting != None && !newlyBlocked;
      }
      if fin {
        finSent := true;
      }
      var f := header.(data := data, fin := fin);
      if maxBytes <= MAX_VAR_INT_2 {
        FitsBelow(f, maxBytes, maxDataLen);
      }
      return Some(f), dataForWriting != None;
    }
  }

  /** A second Write before the data of the first has been handed out: only the second is left. */
  method WriteTwice() returns (waiting: Option<seq<byte>>)
    ensures waiting == Some([2])
  {
    var stream := new SendStream(0);
    var ok := stream.Write([1]);
    ok := stream.Write([2]);
    assert stream.written == [2];
    waiting := stream.dataForWriting;
  }

  lemma FitsBelow(f: StreamFrame, maxBytes: nat, n: nat)
    requires Encodable(f) && f.dataLenPresent && n == MaxDataLen(f, maxBytes) && 0 < n && |f.data| <= n &&
              maxBytes <= MAX_VAR_INT_2
    ensures Length(f) <= maxBytes
  {
  }

  // ----- receiving

  // Data carried by cuts of w is data of w.
  lemma ByteIsCut(data: seq<byte>, offset: nat, w: seq<byte>, i: nat)
    requires Carries(data, offset) <= Carries(w, 0) && i < |data|
    ensures offset + i < |w| && data[i] == w[offset + i]
  {
    assert (offset + i, data[i]) in Carries(data, offset);
    var j :| 0 <= j < |w| && (0 + j, w[j]) == (offset + i, data[i]);
  }

  lemma CarriedIsCut(data: seq<byte>, offset: nat, w: seq<byte>)
    requires Carries(data, offset) <= Carries(w, 0) && data != []
    ensures offset + |data| <= |w| && data == w[offset..offset + |data|]
  {
    ByteIsCut(data, offset, w, |data|-1);
    forall i | 0 <= i < |data| ensures data[i] == w[offset..offset + |data|][i] {
      ByteIsCut(data, offset, w, i);
    }
  }

  lemma CutIsCarried(f: StreamFrame, w: seq<byte>, closed: bool)
    requires CutOf(f, w, closed)
    ensures Carries(f.data, f.offset) <= Carries(w, 0)
  {
    forall p | p in Carries(f.data, f.offset) ensures p in Carries(w, 0) {
      var i :| 0 <= i < |f.data| && p == (f.offset + i, f.data[i]);
      assert p == (0 + (f.offset + i), w[f.offset + i]);
    }
  }

  lemma CarriesGrows(w: seq<byte>, more: seq<byte>)
    ensures Carries(w, 0) <= Carries(w + more, 0)
  {
    forall p | p in Carries(w, 0) ensures p in Carries(w + more, 0) {
      var i :| 0 <= i < |w| && p == (0 + i, w[i]);
      assert p == (0 + i, (w + more)[i]);
    }
  }

  class ReceiveStream {
    const frameQueue: FrameSorter
    var readOffset: nat
    var finalOffset: nat
    var currentFrame: Option<seq<byte>>
    var currentFrameIsLast: bool
    var readPosInFrame: nat
    var finRead: bool

    function Current(): seq<byte>
      reads this
    {
      if currentFrame.Some? then currentFrame.value else []
    }

    /** What has been read and what is about to be read are prefix and continuation of the string w, of which all frames
        so far were cut; the end is known only if w is closed, and EOF has been returned only at the end. */
    ghost predicate Valid(w: seq<byte>, closed: bool)
      reads this, frameQueue
    {
      && |w| < MAX_BYTE_COUNT
      && frameQueue.Valid() && frameQueue.carried <= Carries(w, 0)
      && (forall x :: x in frameQueue.received ==> x < |w|)
      && readPosInFrame <= |Current()|
      && readOffset + |Current()| == frameQueue.readPos + readPosInFrame
      && |Current()| <= frameQueue.readPos <= |w|
      && Current() == w[frameQueue.readPos - |Current()|..frameQueue.readPos]
      && (currentFrame.Some? ==> currentFrame.value != [])
      && (finalOffset == MAX_BYTE_COUNT || (closed && finalOffset == |w|))
      && (currentFrameIsLast ==> finalOffset == |w| && frameQueue.readPos == |w|)
      && (finRead ==> finalOffset == |w| && readOffset == |w|)
    }

    constructor ()
      ensures Valid([], false) && fresh(frameQueue) && readOffset == 0 && !finRead
      ensures frameQueue.received == {} && finalOffset == MAX_BYTE_COUNT
    {
      frameQueue := new FrameSorter();
      readOffset, finalOffset, currentFrame, currentFrameIsLast, readPosInFrame, finRead :=
          0, MAX_BYTE_COUNT, None, false, 0, false;
    }

    // The string may grow, and may then be closed.
    lemma StillValid(w: seq<byte>, more: seq<byte>, closed: bool)
      requires Valid(w, false) && |w + more| < MAX_BYTE_COUNT
      ensures Valid(w + more, closed)
    {
      CarriesGrows(w, more);
      var from, to := frameQueue.readPos - |Current()|, frameQueue.readPos;
      assert (w + more)[from..to] == w[from..to];
    }

    /** handleStreamFrameImpl; `accepted` is the verdict of flow control.  A frame cut from w is never refused as a
        bug. */
    method HandleStreamFrame(f: StreamFrame, accepted: bool, ghost w: seq<byte>, ghost closed: bool)
      returns (r: Option<PushResult>)
      requires Valid(w, closed) && CutOf(f, w, closed)
      modifies this`finalOffset, frameQueue
      ensures !accepted ==> r == None && Valid(w, closed)
      ensures accepted ==> r.Some? && !r.value.BugNoGap? && !r.value.BugNoEndGap?
      ensures r.Some? && !r.value.TooManyGaps? ==> Valid(w, closed)
      ensures frameQueue.received == old(frameQueue.received) + if accepted then Offsets(f.offset, |f.data|) else {}
      ensures finalOffset == if accepted && f.fin then f.offset + |f.data| else old(finalOffset)
      ensures r.Some? && r.value.TooManyGaps? ==> Overflow(frameQueue.gaps, frameQueue.received)
      ensures frameQueue.readPos == old(frameQueue.readPos)
    {
      if !accepted {
        return None;
      }
      if f.fin {
        finalOffset := f.offset + |f.data|;
      }
      CutIsCarried(f, w, closed);
      var res := frameQueue.Push(f.data, f.offset);
      return Some(res);
    }

    method DequeueNextFrame(ghost w: seq<byte>, ghost closed: bool)
      requires Valid(w, closed) && readPosInFrame == |Current()|
      modifies this`currentFrame, this`currentFrameIsLast, this`readPosInFrame, frameQueue
      ensures Valid(w, closed) && readPosInFrame == 0
      ensures currentFrame == None <==> readOffset !in frameQueue.received
      ensures currentFrame == None ==> (currentFrameIsLast <==> readOffset >= finalOffset)
      ensures frameQueue.received == old(frameQueue.received)
    {
      hide FrameSorter.Valid, Carries;
      var offset, data := frameQueue.Pop();
      if data != [] {
        CarriedIsCut(data, offset, w);
      }
      currentFrame := if data == [] then None else Some(data);
      currentFrameIsLast := offset + |data| >= finalOffset;
      readPosInFrame := 0;
    }

    // Afterwards there is a byte to copy, or the next byte has not been received.
    method MaybeDequeueNextFrame(ghost w: seq<byte>, ghost closed: bool)
      requires Valid(w, closed)
      modifies this`currentFrame, this`currentFrameIsLast, this`readPosInFrame, frameQueue
      ensures Valid(w, closed)
      ensures currentFrame.Some? ==> readPosInFrame < |Current()|
      ensures currentFrame == None ==> readPosInFrame == 0 && readOffset !in frameQueue.received
      ensures currentFrame == None ==> (currentFrameIsLast <==> readOffset >= finalOffset)
      ensures frameQueue.received == old(frameQueue.received)
    {
      if currentFrame == None || readPosInFrame >= |currentFrame.value| {
        DequeueNextFrame(w, closed);
      }
    }

    // At most n bytes of the current frame.
    method CopyFromFrame(n: nat, ghost w: seq<byte>, ghost closed: bool) returns (chunk: seq<byte>)
      requires Valid(w, closed) && !finRead
      modifies this`readPosInFrame, this`readOffset
      ensures Valid(w, closed) && readOffset == old(readOffset) + |chunk| && |chunk| <= n
      ensures chunk == w[old(readOffset)..readOffset]
      ensures readPosInFrame == old(readPosInFrame) + |chunk|
      ensures forall x: nat :: old(readOffset) <= x < readOffset ==> x in frameQueue.received
      ensures 0 < n && old(readPosInFrame) < |Current()| ==> chunk != []
    {
      var left := Current()[readPosInFrame..];
      var m := if n < |left| then n else |left|;
      Continues(w, Current(), frameQueue.readPos, readPosInFrame, m);
      frameQueue.ReadIsReceived();
      chunk := left[..m];
      readPosInFrame := readPosInFrame + m;
      readOffset := readOffset + m;
    }

    // One round of the read loop; `some` says that earlier rounds have already copied something.
    method ReadRound(n: nat, some: bool, ghost w: seq<byte>, ghost closed: bool)
      returns (chunk: seq<byte>, outcome: Outcome)
      requires Valid(w, closed) && !finRead && 0 < n
      modifies this, frameQueue
      ensures Valid(w, closed) && finRead == outcome.AtEnd?
      ensures readOffset == old(readOffset) + |chunk| && |chunk| <= n && chunk == w[old(readOffset)..readOffset]
      ensures forall x: nat :: old(readOffset) <= x < readOffset ==> x in frameQueue.received
      ensures frameQueue.received == old(frameQueue.received) && finalOffset == old(finalOffset)
      ensures outcome.Copied? ==> chunk != []
      ensures outcome.Nothing? || outcome.Blocked? ==> chunk == [] && readOffset !in frameQueue.received
      ensures outcome.Nothing? ==> some
      ensures outcome.Blocked? ==> !some && readOffset < finalOffset
    {
      hide FrameSorter.Valid, Carries;
      MaybeDequeueNextFrame(w, closed);
      if currentFrame == None && some {
        return [], Nothing;
      }
      if currentFrame == None && !currentFrameIsLast {
        return [], Blocked;
      }
      chunk := CopyFromFrame(n, w, closed);
      if readPosInFrame >= |Current()| && currentFrameIsLast {
        finRead := true;
        return chunk, AtEnd;
      }
      return chunk, Copied;
    }

    /** readImpl without waiting.  It returns the next bytes of w as far as they have been received, says EOF only when
        w has been read completely and its end is known, and then says so as soon as a read finds no more bytes.  It
        waits only for a byte before the end that no frame has carried yet. */
    method Read(n: nat, ghost w: seq<byte>, ghost closed: bool) returns (data: seq<byte>, eof: bool, blocked: bool)
      requires Valid(w, closed)
      modifies this, frameQueue
      ensures Valid(w, closed) && frameQueue.received == old(frameQueue.received) && finalOffset == old(finalOffset)
      ensures readOffset == old(readOffset) + |data| && |data| <= n
      ensures data == w[old(readOffset)..readOffset]
      ensures forall x: nat :: old(readOffset) <= x < readOffset ==> x in frameQueue.received
      ensures |data| == n || readOffset !in frameQueue.received
      ensures eof == finRead && (old(finRead) ==> eof)
      ensures eof ==> closed && finalOffset == readOffset == |w|
      ensures 0 < n && data == [] && finalOffset <= readOffset ==> eof
      ensures blocked ==> !eof && data == [] && readOffset !in frameQueue.received && readOffset < finalOffset
      ensures !eof && !blocked && 0 < n ==> data != []
    {
      hide Valid, Carries, Current;
      InString(w, closed);
      data := [];
      if finRead {
        return data, true, false;
      }
      while |data| < n
        invariant Valid(w, closed) && !finRead
        invariant frameQueue.received == old(frameQueue.received) && finalOffset == old(finalOffset)
        invariant readOffset == old(readOffset) + |data| <= |w| && |data| <= n
        invariant data == w[old(readOffset)..readOffset]
        invariant forall x: nat :: old(readOffset) <= x < readOffset ==> x in frameQueue.received
      {
        InString(w, closed);
        var chunk, outcome := ReadRound(n - |data|, |data| > 0, w, closed);
        InString(w, closed);
        Glue(w, old(readOffset), readOffset - |chunk|, readOffset);
        data := data + chunk;
        if !outcome.Copied? {
          return data, outcome.AtEnd?, outcome.Blocked?;
        }
      }
      return data, false, false;
    }

    lemma InString(w: seq<byte>, closed: bool)
      requires Valid(w, closed)
      ensures readOffset <= |w| && (finRead ==> closed && finalOffset == readOffset == |w|)
      ensures |w| !in frameQueue.received && |w| < MAX_BYTE_COUNT
      ensures finalOffset == MAX_BYTE_COUNT || (closed && finalOffset == |w|)
    {
    }
  }

  datatype Outcome = Copied | Nothing | Blocked | AtEnd

  lemma Glue(w: seq<byte>, a: nat, b: nat, c: nat)
    requires a <= b <= c <= |w|
    ensures w[a..b] + w[b..c] == w[a..c]
  {
  }

  // m bytes of the current frame, from the position reached, are the next m bytes of w.
  lemma Continues(w: seq<byte>, current: seq<byte>, readPos: nat, pos: nat, m: nat)
    requires |current| <= readPos <= |w| && current == w[readPos - |current|..readPos] && pos + m <= |current|
    ensures var at := readPos - |current| + pos; current[pos..][..m] == w[at..at + m]
  {
  }

  // ----- both ends and the network in between

  datatype Event =
    | WriteData(p: seq<byte>)
    | CloseStream
    | PopFrame(maxBytes: nat, window: nat, newlyBlocked: bool)
    | Resplit(k: nat, maxSize: nat)          // a retransmission cuts the k-th frame again
    | Deliver(k: nat, accepted: bool)        // the k-th frame arrives, perhaps not for the first time
    | ReadData(n: nat)

  ghost predicate AllCuts(net: seq<StreamFrame>, w: seq<byte>, closed: bool) {
    forall i :: 0 <= i < |net| ==> CutOf(net[i], w, closed) && Encodable(net[i])
  }

  lemma CutsGrow(net: seq<StreamFrame>, w: seq<byte>, more: seq<byte>, closed: bool)
    requires AllCuts(net, w, false)
    ensures AllCuts(net, w + more, closed)
  {
    forall i | 0 <= i < |net| ensures CutOf(net[i], w + more, closed) {
      assert CutOf(net[i], w, false);
      var f := net[i];
      assert (w + more)[f.offset..f.offset + |f.data|] == w[f.offset..f.offset + |f.data|];
    }
  }

  /** Cutting a frame again gives frames that are cut from the same string. */
  lemma SplitIsCut(f: StreamFrame, maxSize: nat, w: seq<byte>, closed: bool)
    requires Encodable(f) && CutOf(f, w, closed)
    ensures var r := MaybeSplitOffFrame(f, maxSize);
            r.Split? ==>
                CutOf(r.first, w, closed) && CutOf(r.remainder, w, closed) && Encodable(r.first) &&
                    Encodable(r.remainder)
  {
    SplitConserves(f, maxSize);
    var r := MaybeSplitOffFrame(f, maxSize);
    if r.Split? {
      var n := |r.first.data|;
      assert f.data[..n] == w[f.offset..f.offset + n];
      assert f.data[n..] == w[f.offset + n..f.offset + |f.data|];
    }
  }

  /** What can be seen of a stream at both of its ends, and the frames on the wire in between. */
  datatype View = View(
    written: seq<byte>,           // by the application
    closed: bool,
    handedOut: nat,               // how many of these bytes went into frames
    finSent: bool,
    net: seq<StreamFrame>,
    received: set<nat>,           // offsets of all data that arrived
    endKnown: bool,               // a FIN arrived
    delivered: seq<byte>,         // to the reader
    eof: bool)                    // the reader was told about the end

  function AtStart(): View {
    View([], false, 0, false, [], {}, false, [], false)
  }

  /** The writer calls only when the data of its last call has been handed out, as Write returns no sooner. */
  predicate MayWrite(v: View, p: seq<byte>) {
    v.handedOut == |v.written| && |v.written| + |p| < MAX_BYTE_COUNT
  }

  function Wrote(v: View, p: seq<byte>): View {
    if MayWrite(v, p) && !v.closed then v.(written := v.written + p) else v
  }

  function Popped(v: View, id: nat, maxBytes: nat, window: nat): View
    requires id <= MAX_VAR_INT_8 && v.handedOut <= |v.written|
  {
    if v.handedOut + window > MAX_BYTE_COUNT then v
    else
      var frame := NextFrame(id, v.written, v.handedOut, v.closed && !v.finSent, maxBytes, window);
      if frame == None then v
      else
        var f := frame.value;
        v.(net := v.net + [f], handedOut := v.handedOut + |f.data|, finSent := v.finSent || f.fin)
  }

  function Recut(v: View, k: nat, maxSize: nat): View
    requires k < |v.net| ==> Encodable(v.net[k])
  {
    if k >= |v.net| then v
    else
      match MaybeSplitOffFrame(v.net[k], maxSize)
      case Split(first, remainder) => v.(net := v.net + [first, remainder])
      case _ => v
  }

  function Arrived(v: View, k: nat, accepted: bool): View {
    if k >= |v.net| || !accepted then v
    else
      var f := v.net[k];
      v.(received := v.received + Offsets(f.offset, |f.data|), endKnown := v.endKnown || f.fin)
  }

  /** A read returns bytes that arrived, as many as asked for or up to the first that did not arrive.  EOF is told only
      once all bytes are delivered and the FIN is here, and then at the latest by a read that finds no more bytes. */
  ghost predicate ReadsOn(v: View, n: nat, v': View) {
    && v' == v.(delivered := v'.delivered, eof := v'.eof)
    && |v.delivered| <= |v'.delivered| <= |v.delivered| + n && v'.delivered <= v.written
    && (forall x: nat :: |v.delivered| <= x < |v'.delivered| ==> x in v.received)
    && (|v'.delivered| == |v.delivered| + n || |v'.delivered| !in v.received)
    && (v'.eof ==> v.endKnown && v'.delivered == v.written)
    && (v.eof ==> v'.eof)
    && (0 < n && v'.delivered == v.delivered == v.written && v.endKnown ==> v'.eof)
  }

  // Some frame on the wire carries the byte at x.
  ghost predicate OnWire(net: seq<StreamFrame>, x: nat) {
    exists i :: 0 <= i < |net| && net[i].offset <= x < net[i].offset + |net[i].data|
  }

  ghost predicate EndOnWire(net: seq<StreamFrame>) {
    exists i :: 0 <= i < |net| && net[i].fin
  }

  /** What was handed out is on the wire, and what arrived was on it. */
  ghost predicate Transmitted(v: View) {
    && (forall x: nat :: x < v.handedOut ==> OnWire(v.net, x)) && (v.finSent ==> EndOnWire(v.net))
    && (forall x :: x in v.received ==> OnWire(v.net, x)) && (v.endKnown ==> EndOnWire(v.net))
  }

  lemma OnWireMore(net: seq<StreamFrame>, more: seq<StreamFrame>)
    ensures forall x: nat :: OnWire(net, x) ==> OnWire(net + more, x)
    ensures EndOnWire(net) ==> EndOnWire(net + more)
  {
    var all := net + more;
    forall x: nat | OnWire(net, x) ensures OnWire(all, x) {
      var i :| 0 <= i < |net| && net[i].offset <= x < net[i].offset + |net[i].data|;
      assert all[i] == net[i];
    }
    if EndOnWire(net) {
      var i :| 0 <= i < |net| && net[i].fin;
      assert all[i] == net[i];
    }
  }

  lemma PoppedTransmits(v: View, id: nat, maxBytes: nat, window: nat)
    requires Transmitted(v) && id <= MAX_VAR_INT_8 && v.handedOut <= |v.written|
    ensures Transmitted(Popped(v, id, maxBytes, window))
  {
    var v' := Popped(v, id, maxBytes, window);
    if v' != v {
      var f := v'.net[|v.net|];
      OnWireMore(v.net, [f]);
      forall x: nat | v.handedOut <= x < v'.handedOut ensures OnWire(v'.net, x) {
        assert f.offset <= x < f.offset + |f.data|;
      }
    }
  }

  lemma RecutTransmits(v: View, k: nat, maxSize: nat)
    requires Transmitted(v) && (k < |v.net| ==> Encodable(v.net[k]))
    ensures Transmitted(Recut(v, k, maxSize))
  {
    hide MaybeSplitOffFrame;
    var v' := Recut(v, k, maxSize);
    if v' != v {
      OnWireMore(v.net, v'.net[|v.net|..]);
      assert v'.net == v.net + v'.net[|v.net|..];
    }
  }

  lemma ArrivedTransmits(v: View, k: nat, accepted: bool)
    requires Transmitted(v)
    ensures Transmitted(Arrived(v, k, accepted))
  {
    var v' := Arrived(v, k, accepted);
    if k < |v.net| && accepted {
      forall x | x in v'.received && x !in v.received ensures OnWire(v'.net, x) {
        assert x in Offsets(v.net[k].offset, |v.net[k].data|);
      }
    }
  }

  /** Nothing is lost on the way: once everything written has been handed out with its FIN, and every frame that was
      popped or cut again has arrived, all bytes have arrived and the end is known, so that reading finishes. */
  lemma EverythingArrives(v: View)
    requires Sound(v) && v.handedOut == |v.written| && v.finSent
    requires forall i :: 0 <= i < |v.net| ==> Offsets(v.net[i].offset, |v.net[i].data|) <= v.received
    requires forall i :: 0 <= i < |v.net| && v.net[i].fin ==> v.endKnown
    ensures (forall x: nat :: x < |v.written| <==> x in v.received) && v.endKnown
  {
    forall x: nat | x < |v.written| ensures x in v.received {
      assert OnWire(v.net, x);
      var i :| 0 <= i < |v.net| && v.net[i].offset <= x < v.net[i].offset + |v.net[i].data|;
      assert x in Offsets(v.net[i].offset, |v.net[i].data|);
    }
    assert EndOnWire(v.net);
  }

  /** What the events do, spelled out. */
  lemma MovesMean(v: View, id: nat, e: Event, v': View)
    requires Sound(v) && id <= MAX_VAR_INT_8 && Moves(v, id, e, v')
    ensures e.WriteData? ==>
              v' == v.(written :=
                if !v.closed && v.handedOut == |v.written| && |v.written| + |e.p| < MAX_BYTE_COUNT then v.written + e.p
                else v.written)
    ensures e.CloseStream? ==> v' == v.(closed := true)
    ensures e.Deliver? ==>
              if e.k < |v.net| && e.accepted then
                var f := v.net[e.k];
                && (forall x: nat :: x in v'.received <==> x in v.received || f.offset <= x < f.offset + |f.data|)
                && v' == v.(received := v'.received, endKnown := v.endKnown || f.fin)
              else v' == v
    ensures e.PopFrame? ==> PopsNext(v, id, e.maxBytes, e.window, v')
  {
    if e.PopFrame? {
      PoppedIs(v, id, e.maxBytes, e.window);
    }
  }

  /** A frame is popped unless there is no room, or neither data that may be sent nor a FIN; it takes up where the last
      one ended, and is as long as room, window and data allow. */
  ghost predicate PopsNext(v: View, id: nat, maxBytes: nat, window: nat, v': View)
    requires id <= MAX_VAR_INT_8 && v.handedOut <= |v.written|
  {
    var left := |v.written| - v.handedOut;
    if v.handedOut + window > MAX_BYTE_COUNT then v' == v
    else
      var room := MaxDataLen(StreamFrame(id, v.handedOut, [], false, true), maxBytes);
      if room == 0 || ((window == 0 || left == 0) && !(v.closed && !v.finSent && left == 0)) then v' == v
      else
        && |v'.net| == |v.net| + 1 && v'.net[..|v.net|] == v.net
        && var f := v'.net[|v.net|];
        && f.streamId == id && f.offset == v.handedOut && CutOf(f, v.written, v.closed) && f.dataLenPresent
        && |f.data| <= room && |f.data| <= window && |f.data| <= left
        && (|f.data| == room || |f.data| == window || |f.data| == left)
        && (f.fin <==> v.closed && !v.finSent && |f.data| == left)
        && v' == v.(net := v'.net, handedOut := v.handedOut + |f.data|, finSent := v.finSent || f.fin)
  }

  lemma PoppedIs(v: View, id: nat, maxBytes: nat, window: nat)
    requires id <= MAX_VAR_INT_8 && v.handedOut <= |v.written|
    ensures PopsNext(v, id, maxBytes, window, Popped(v, id, maxBytes, window))
  {
    hide MaxDataLen;
  }

  /** What each event does. */
  ghost predicate Moves(v: View, id: nat, e: Event, v': View)
    requires Sound(v) && id <= MAX_VAR_INT_8
  {
    match e
    case WriteData(p) => v' == Wrote(v, p)
    case CloseStream => v' == v.(closed := true)
    case PopFrame(maxBytes, window, _) => v' == Popped(v, id, maxBytes, window)
    case Resplit(k, maxSize) => v' == Recut(v, k, maxSize)
    case Deliver(k, accepted) => v' == Arrived(v, k, accepted)
    case ReadData(n) => ReadsOn(v, n, v')
  }

  /** End-to-end integrity: frames are cuts of what was written, what was delivered is a prefix of it, and EOF means
      that the writer closed the stream and that everything was delivered. */
  ghost predicate Sound(v: View) {
    && v.handedOut <= |v.written|
    && AllCuts(v.net, v.written, v.closed)
    && (forall x :: x in v.received ==> x < |v.written|)
    && v.delivered <= v.written
    && (v.eof ==> v.closed && v.delivered == v.written)
    && Transmitted(v)
  }

  /** Once everything has arrived, one read that asks for enough delivers all of it, and the next one is told the
      end. */
  lemma ReadingFinishes(v: View, n: nat, v': View, m: nat, v'': View)
    requires Sound(v) && (forall x: nat :: x < |v.written| ==> x in v.received) && v.endKnown
    requires ReadsOn(v, n, v') && |v.written| <= |v.delivered| + n
    requires ReadsOn(v', m, v'') && 0 < m
    ensures v'.delivered == v''.delivered == v.written && v''.eof
  {
    assert |v'.delivered| == |v.written|;
  }

  /** A stream with both its ends and the frames that were put on the wire. */
  class Wire {
    const snd: SendStream
    const rcv: ReceiveStream
    var net: seq<StreamFrame>
    var written: seq<byte>
    var closed: bool
    var received: set<nat>
    var delivered: seq<byte>
    var eof: bool

    function Look(): View
      reads this, snd, rcv
    {
      View(written, closed, snd.writeOffset, snd.finSent, net, received, rcv.finalOffset != MAX_BYTE_COUNT, delivered,
          eof)
    }

    ghost predicate Valid()
      reads this, snd, rcv, rcv.frameQueue
    {
      && snd.Valid() && snd.written == written && snd.finishedWriting == closed
      && rcv.Valid(written, closed) && rcv.frameQueue.received == received
      && AllCuts(net, written, closed)
      && rcv.readOffset <= |written| && delivered == written[..rcv.readOffset]
      && eof == rcv.finRead && Transmitted(Look())
    }

    lemma ValidIsSound()
      requires Valid()
      ensures Sound(Look())
    {
    }

    constructor (streamId: nat)
      requires streamId <= MAX_VAR_INT_8
      ensures Valid() && fresh(snd) && fresh(rcv) && fresh(rcv.frameQueue)
      ensures snd.streamId == streamId && Look() == AtStart()
    {
      hide SendStream.Valid, ReceiveStream.Valid, OnWire, EndOnWire;
      snd := new SendStream(streamId);
      rcv := new ReceiveStream();
      net, written, closed, received, delivered, eof := [], [], false, {}, [], false;
    }

    method OnWrite(p: seq<byte>)
      requires Valid()
      modifies this, snd
      ensures Valid() && Look() == Wrote(old(Look()), p)
    {
      hide ReceiveStream.Valid, OnWire, EndOnWire;
      if snd.dataForWriting == None && !closed && |written| + |p| < MAX_BYTE_COUNT {
        rcv.StillValid(written, p, false);
        CutsGrow(net, written, p, false);
        assert delivered == (written + p)[..rcv.readOffset];
        var ok := snd.Write(p);
        written := written + p;
      }
    }

    method OnClose()
      requires Valid()
      modifies this, snd
      ensures Valid() && Look() == old(Look()).(closed := true)
    {
      assert |written + []| < MAX_BYTE_COUNT;
      hide ReceiveStream.Valid;
      if !closed {
        rcv.StillValid(written, [], true);
        CutsGrow(net, written, [], true);
        assert written + [] == written;
      }
      snd.Close();
      closed := true;
    }

    method OnPop(maxBytes: nat, window: nat, newlyBlocked: bool)
      requires Valid()
      modifies this`net, snd
      ensures Valid() && old(snd.writeOffset) <= |written|
      ensures Look() == Popped(old(Look()), snd.streamId, maxBytes, window)
    {
      hide ReceiveStream.Valid, MaxDataLen, HeaderLen, Length, Transmitted, OnWire, EndOnWire;
      PoppedTransmits(Look(), snd.streamId, maxBytes, window);
      if snd.writeOffset + window <= MAX_BYTE_COUNT {
        var frame, _ := snd.PopStreamFrame(maxBytes, window, newlyBlocked);
        if frame.Some? {
          net := net + [frame.value];
        }
      }
    }

    method OnResplit(k: nat, maxSize: nat)
      requires Valid()
      modifies this`net
      ensures Valid() && (k < |old(net)| ==> Encodable(old(net)[k]))
      ensures Look() == Recut(old(Look()), k, maxSize)
    {
      hide ReceiveStream.Valid, SendStream.Valid, MaybeSplitOffFrame, CutOf, Encodable, Transmitted;
      RecutTransmits(Look(), k, maxSize);
      if k < |net| {
        var r := MaybeSplitOffFrame(net[k], maxSize);
        SplitIsCut(net[k], maxSize, written, closed);
        if r.Split? {
          net := net + [r.first, r.remainder];
        }
      }
    }

    method OnDeliver(k: nat, accepted: bool) returns (failed: bool)
      requires Valid()
      modifies this`received, rcv, rcv.frameQueue
      ensures !failed ==> Valid()
      ensures Look() == Arrived(old(Look()), k, accepted)
      ensures failed ==> Overflow(rcv.frameQueue.gaps, received)
    {
      hide ReceiveStream.Valid, SendStream.Valid, Offsets, Overflow, Transmitted;
      ArrivedTransmits(Look(), k, accepted);
      failed := false;
      if k < |net| {
        assert CutOf(net[k], written, closed);
        hide AllCuts;
        rcv.InString(written, closed);
        var r := rcv.HandleStreamFrame(net[k], accepted, written, closed);
        if accepted {
          received := received + Offsets(net[k].offset, |net[k].data|);
          failed := r.value.TooManyGaps?;
        }
      }
    }

    method OnRead(n: nat)
      requires Valid()
      modifies this, rcv, rcv.frameQueue
      ensures Valid() && ReadsOn(old(Look()), n, Look())
    {
      hide ReceiveStream.Valid, SendStream.Valid, AllCuts, OnWire, EndOnWire;
      rcv.InString(written, closed);
      ghost var before := rcv.readOffset;
      var data, end, _ := rcv.Read(n, written, closed);
      rcv.InString(written, closed);
      Glue(written, 0, before, rcv.readOffset);
      delivered := delivered + data;
      eof := eof || end;
    }

    method Step(e: Event) returns (failed: bool)
      requires Valid()
      modifies this, snd, rcv, rcv.frameQueue
      ensures old(Sound(Look())) && Moves(old(Look()), snd.streamId, e, Look())
      ensures !failed ==> Valid()
      ensures failed ==>
                e.Deliver? && Overflow(rcv.frameQueue.gaps, received)
    {
      ValidIsSound();
      hide Valid, ReadsOn, Popped, Recut, Arrived, Wrote, Overflow, AllCuts;
      failed := false;
      match e
      case WriteData(p) => OnWrite(p);
      case CloseStream => OnClose();
      case PopFrame(maxBytes, window, newlyBlocked) => OnPop(maxBytes, window, newlyBlocked);
      case Resplit(k, maxSize) => OnResplit(k, maxSize);
      case Deliver(k, accepted) => failed := OnDeliver(k, accepted);
      case ReadData(n) => OnRead(n);
    }
  }

  /** Every step of the trace is what its event does, and every state in it is sound. */
  ghost predicate Follows(id: nat, script: seq<Event>, trace: seq<View>)
    requires id <= MAX_VAR_INT_8
  {
    && 0 < |trace| <= |script| + 1 && trace[0] == AtStart()
    && (forall i :: 0 <= i < |trace| ==> Sound(trace[i]))
    && (forall i :: 0 <= i < |trace|-1 ==> Moves(trace[i], id, script[i], trace[i+1]))
  }

  lemma FollowsOn(id: nat, script: seq<Event>, trace: seq<View>, v: View)
    requires id <= MAX_VAR_INT_8 && Follows(id, script, trace) && |trace| <= |script|
    requires Sound(v) && Moves(trace[|trace|-1], id, script[|trace|-1], v)
    ensures Follows(id, script, trace + [v])
  {
    hide Moves, Sound;
    var t := trace + [v];
    forall i | 0 <= i < |t|-1 ensures Sound(t[i]) && Moves(t[i], id, script[i], t[i+1]) {
      assert i < |trace|-1 ==> t[i] == trace[i] && t[i+1] == trace[i+1];
    }
  }

  /** Whole transfers: for every script of writes, frame cuts, re-cuts, deliveries in any order and any number, and
      reads, each event does what Moves says, and every state is sound.  The run ends early only when a delivery leaves
      more gaps than the receiver tracks. */
  method Transfer(streamId: nat, script: seq<Event>) returns (trace: seq<View>, gaps: seq<Interval>)
    requires streamId <= MAX_VAR_INT_8
    ensures Follows(streamId, script, trace)
    ensures |trace| <= |script| ==>
              var e := script[|trace|-1];
              e.Deliver? && Overflow(gaps, Arrived(trace[|trace|-1], e.k, e.accepted).received)
  {
    var s := new Wire(streamId);
    trace := [s.Look()];
    gaps := [];
    s.ValidIsSound();
    while |trace| <= |script|
      invariant fresh(s) && fresh(s.snd) && fresh(s.rcv) && fresh(s.rcv.frameQueue)
      invariant s.Valid() && s.snd.streamId == streamId
      invariant Follows(streamId, script, trace) && trace[|trace|-1] == s.Look()
      decreases |script| + 1 - |trace|
    {
      var e := script[|trace|-1];
      var failed := s.Step(e);
      if failed {
        return trace, s.rcv.frameQueue.gaps;
      }
      s.ValidIsSound();
      FollowsOn(streamId, script, trace, s.Look());
      trace := trace + [s.Look()];
    }
  }
}
