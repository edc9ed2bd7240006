/** Packing frames into 1-RTT packets (packet_packer.go, framer.go). */
module Packing {
  import opened Common
  import opened Bytes
  import opened VarInts
  import opened StreamFrames

  const MIN_STREAM_FRAME_SIZE := 128

  /** A control frame, of which only the length matters here. */
  datatype ControlFrame = ControlFrame(id: nat, length: nat)

  /** The frames of a packet, in the order in which they are written. */
  datatype Payload = Payload(controls: seq<ControlFrame>, streams: seq<StreamFrame>)

  function ControlSize(cs: seq<ControlFrame>): nat {
    if cs == [] then 0 else ControlSize(cs[..|cs|-1]) + cs[|cs|-1].length
  }

  /** A frame that can be written: one that is neither empty nor beyond the last offset. */
  predicate Sendable(f: StreamFrame) {
    Encodable(f) && (f.data != [] || f.fin)
  }

  predicate AllSendable(fs: seq<StreamFrame>) {
    forall i :: 0 <= i < |fs| ==> Sendable(fs[i])
  }

  function StreamSize(fs: seq<StreamFrame>): nat
    requires AllSendable(fs)
  {
    if fs == [] then 0 else StreamSize(fs[..|fs|-1]) + Length(fs[|fs|-1])
  }

  /** The bytes the frames of a packet take up. */
  function Size(p: Payload): nat
    requires AllSendable(p.streams)
  {
    ControlSize(p.controls) + StreamSize(p.streams)
  }

  /** All STREAM frames but the last of a packet say how long they are; the last one extends to the end. */
  predicate OnlyLastOpen(fs: seq<StreamFrame>) {
    forall i :: 0 <= i < |fs| ==> (fs[i].dataLenPresent <==> i < |fs|-1)
  }

  predicate AllDelimited(fs: seq<StreamFrame>) {
    forall i :: 0 <= i < |fs| ==> fs[i].dataLenPresent
  }

  // The last frame loses its length field.
  function OpenLast(fs: seq<StreamFrame>): seq<StreamFrame> {
    if fs == [] then [] else fs[..|fs|-1] + [fs[|fs|-1].(dataLenPresent := false)]
  }

  /** What the length field of the last frame would take. */
  function LastField(fs: seq<StreamFrame>): nat
    requires AllSendable(fs)
  {
    if fs == [] then 0 else VarIntLen(|fs[|fs|-1].data|)
  }

  // ----- what frames carry

  /** An indivisible piece of stream content: a byte with its place, or the end of a stream. */
  datatype Unit = ByteUnit(streamId: nat, offset: nat, value: byte) | FinUnit(streamId: nat, offset: nat)

  function DataUnits(streamId: nat, offset: nat, data: seq<byte>): seq<Unit>
    decreases |data|
  {
    if data == [] then [] else [ByteUnit(streamId, offset, data[0])] + DataUnits(streamId, offset + 1, data[1..])
  }

  function StreamUnits(f: StreamFrame): seq<Unit> {
    DataUnits(f.streamId, f.offset, f.data) + if f.fin then [FinUnit(f.streamId, f.offset + |f.data|)] else []
  }

  /** What the STREAM frames of a list carry, in order. */
  function AllUnits(fs: seq<StreamFrame>): seq<Unit> {
    if fs == [] then [] else StreamUnits(fs[0]) + AllUnits(fs[1..])
  }

  lemma {:induction false} DataUnitsConcat(streamId: nat, offset: nat, a: seq<byte>, b: seq<byte>)
    ensures DataUnits(streamId, offset, a + b) == DataUnits(streamId, offset, a) + DataUnits(streamId, offset + |a|, b)
    decreases |a|
  {
    if a == [] {
      assert a + b == b;
    } else {
      assert (a + b)[1..] == a[1..] + b;
      DataUnitsConcat(streamId, offset + 1, a[1..], b);
    }
  }

  lemma {:induction false} AllUnitsConcat(a: seq<StreamFrame>, b: seq<StreamFrame>)
    ensures AllUnits(a + b) == AllUnits(a) + AllUnits(b)
  {
    if a == [] {
      assert a + b == b;
    } else {
      assert (a + b)[1..] == a[1..] + b;
      AllUnitsConcat(a[1..], b);
    }
  }

  /** Splitting a frame keeps its content, byte for byte and with its FIN. */
  lemma SplitKeepsUnits(f: StreamFrame, maxSize: nat)
    requires Encodable(f)
    ensures var r := MaybeSplitOffFrame(f, maxSize);
            r.Split? ==> StreamUnits(r.first) + StreamUnits(r.remainder) == StreamUnits(f)
  {
    SplitConserves(f, maxSize);
    var r := MaybeSplitOffFrame(f, maxSize);
    if r.Split? {
      DataUnitsConcat(f.streamId, f.offset, r.first.data, r.remainder.data);
    }
  }

  lemma OpenLastKeepsUnits(fs: seq<StreamFrame>)
    ensures AllUnits(OpenLast(fs)) == AllUnits(fs)
  {
    if fs != [] {
      var front, last := fs[..|fs|-1], fs[|fs|-1];
      assert fs == front + [last];
      AllUnitsConcat(front, [last]);
      AllUnitsConcat(front, [last.(dataLenPresent := false)]);
      assert StreamUnits(last.(dataLenPresent := false)) == StreamUnits(last);
    }
  }

  // ----- PackRetransmission

  /** As many control frames as fit, in order. */
  method TakeControlFrames(cs: seq<ControlFrame>, maxSize: nat)
    returns (taken: seq<ControlFrame>, rest: seq<ControlFrame>, length: nat)
    ensures taken + rest == cs
    ensures length == ControlSize(taken) <= maxSize
    ensures cs != [] && cs[0].length <= maxSize ==> taken != []
    ensures rest != [] ==> maxSize < length + rest[0].length
  {
    taken, rest, length := [], cs, 0;
    while rest != []
      invariant taken + rest == cs && length == ControlSize(taken) <= maxSize
      invariant cs != [] && cs[0].length <= maxSize && taken == [] ==> rest == cs
      decreases |rest|
    {
      var frame := rest[0];
      if length + frame.length > maxSize {
        break;
      }
      length := length + frame.length;
      assert (taken + [frame])[..|taken|] == taken;
      taken := taken + [frame];
      rest := rest[1..];
    }
  }

  // A measure of the stream data still to be packed.
  function Remaining(fs: seq<StreamFrame>): nat {
    if fs == [] then 0 else 1 + |fs[0].data| + Remaining(fs[1..])
  }

  /** The errors of PackRetransmission; BadSlice and NoFrame stand for indexing beyond a slice. */
  datatype PackError = NoError | NoRoom | BadSlice | NoFrame | PacketTooLarge

  // The STREAM frames of a packet under construction: all of them delimited, or the last one fills the packet.
  ghost predicate Packed(out: seq<StreamFrame>, base: nat, used: nat, maxSize: nat) {
    && AllSendable(out)
    && used == base + StreamSize(out)
    && base + StreamSize(OpenLast(out)) <= maxSize
    && StreamSize(OpenLast(out)) <= StreamSize(out)
    && (AllDelimited(out) || (OnlyLastOpen(out) && used == maxSize))
  }

  lemma PushedSize(out: seq<StreamFrame>, f: StreamFrame)
    requires AllSendable(out) && Sendable(f)
    ensures AllSendable(out + [f]) && StreamSize(out + [f]) == StreamSize(out) + Length(f)
    ensures OpenLast(out + [f]) == out + [f.(dataLenPresent := false)]
    ensures StreamSize(OpenLast(out + [f])) == StreamSize(out) + Length(f.(dataLenPresent := false))
  {
    var g := f.(dataLenPresent := false);
    assert (out + [f])[..|out|] == out && (out + [g])[..|out|] == out;
  }

  lemma AllUnitsPush(out: seq<StreamFrame>, f: StreamFrame)
    ensures AllUnits(out + [f]) == AllUnits(out) + StreamUnits(f)
  {
    AllUnitsConcat(out, [f]);
    assert AllUnits([f]) == StreamUnits(f);
  }

  // The frame leaves the list as a whole.
  lemma UnitsMove(out: seq<StreamFrame>, added: StreamFrame, rest: seq<StreamFrame>)
    requires rest != [] && StreamUnits(added) == StreamUnits(rest[0])
    ensures AllUnits(out + [added]) + AllUnits(rest[1..]) == AllUnits(out) + AllUnits(rest)
  {
    AllUnitsPush(out, added);
    Assoc(AllUnits(out), StreamUnits(added), AllUnits(rest[1..]));
  }

  // Part of the frame leaves the list, the remainder stays in front.
  lemma UnitsSplit(out: seq<StreamFrame>, first: StreamFrame, remainder: StreamFrame, rest: seq<StreamFrame>)
    requires rest != [] && StreamUnits(first) + StreamUnits(remainder) == StreamUnits(rest[0])
    ensures AllUnits(out + [first]) + AllUnits([remainder] + rest[1..]) == AllUnits(out) + AllUnits(rest)
  {
    var o, a, b, r := AllUnits(out), StreamUnits(first), StreamUnits(remainder), AllUnits(rest[1..]);
    AllUnitsPush(out, first);
    assert AllUnits([remainder] + rest[1..]) == b + r by {
      assert ([remainder] + rest[1..])[1..] == rest[1..];
    }
    Assoc(o, a, b + r);
    Assoc(a, b, r);
  }

  lemma PackedPush(out: seq<StreamFrame>, base: nat, used: nat, maxSize: nat, added: StreamFrame)
    requires Packed(out, base, used, maxSize) && AllDelimited(out) && Sendable(added)
    requires used + Length(added.(dataLenPresent := false)) <= maxSize
    requires added.dataLenPresent || used + Length(added) == maxSize
    ensures Packed(out + [added], base, used + Length(added), maxSize)
  {
    PushedSize(out, added);
  }

  // The next frame, cut to the room that is left as if it were the last.
  method CutFrame(f: StreamFrame, room: nat) returns (r: SplitResult)
    requires Sendable(f) && MIN_STREAM_FRAME_SIZE < room
    ensures r.NoSplit? || r.Split?
    ensures r.NoSplit? ==> Length(f.(dataLenPresent := false)) <= room
    ensures r.Split? ==>
              && Sendable(r.first) && !r.first.dataLenPresent && Length(r.first) == room
              && Sendable(r.remainder) && |r.remainder.data| < |f.data|
              && StreamUnits(r.first) + StreamUnits(r.remainder) == StreamUnits(f)
  {
    var g := f.(dataLenPresent := false);
    SplitConserves(g, room);
    SplitKeepsUnits(g, room);
    r := MaybeSplitOffFrame(g, room);
  }

  lemma PutBack(rest: seq<StreamFrame>, remainder: StreamFrame)
    requires rest != [] && AllSendable(rest) && Sendable(remainder) && |remainder.data| < |rest[0].data|
    ensures AllSendable([remainder] + rest[1..])
    ensures Remaining([remainder] + rest[1..]) < Remaining(rest)
  {
    assert ([remainder] + rest[1..])[1..] == rest[1..];
  }

  // One STREAM frame more, taken from the front of the list.
  ghost predicate Took(out: seq<StreamFrame>, rest: seq<StreamFrame>, out': seq<StreamFrame>, rest': seq<StreamFrame>,
                       used': nat, base: nat, maxSize: nat) {
    && Packed(out', base, used', maxSize) && out' != []
    && AllSendable(rest') && Remaining(rest') < Remaining(rest)
    && AllUnits(out') + AllUnits(rest') == AllUnits(out) + AllUnits(rest)
  }

  lemma TakeWhole(out: seq<StreamFrame>, rest: seq<StreamFrame>, base: nat, used: nat, maxSize: nat, whole: StreamFrame)
    requires Packed(out, base, used, maxSize) && AllDelimited(out) && rest != [] && AllSendable(rest)
    requires whole == rest[0].(dataLenPresent := true)
    requires used + Length(rest[0].(dataLenPresent := false)) <= maxSize
    ensures Took(out, rest, out + [whole], rest[1..], used + Length(whole), base, maxSize)
  {
    hide AllUnits, Packed, AllDelimited;
    assert AllSendable(rest[1..]) && Remaining(rest[1..]) < Remaining(rest);
    UnitsMove(out, whole, rest);
    PackedPush(out, base, used, maxSize, whole);
  }

  lemma TakePart(out: seq<StreamFrame>, rest: seq<StreamFrame>, base: nat, used: nat, maxSize: nat, first: StreamFrame,
                 tail: StreamFrame)
    requires Packed(out, base, used, maxSize) && AllDelimited(out) && rest != [] && AllSendable(rest)
    requires Sendable(first) && !first.dataLenPresent && used + Length(first) == maxSize
    requires Sendable(tail) && |tail.data| < |rest[0].data|
    requires StreamUnits(first) + StreamUnits(tail) == StreamUnits(rest[0])
    ensures Took(out, rest, out + [first], [tail] + rest[1..], used + Length(first), base, maxSize)
  {
    UnitsSplit(out, first, tail, rest);
    PutBack(rest, tail);
    PackedPush(out, base, used, maxSize, first);
  }

  method TakeStreamFrame(out: seq<StreamFrame>, rest: seq<StreamFrame>, ghost base: nat, used: nat, maxSize: nat)
    returns (out': seq<StreamFrame>, rest': seq<StreamFrame>, used': nat, err: PackError)
    requires Packed(out, base, used, maxSize) && AllDelimited(out)
    requires rest != [] && AllSendable(rest) && used + MIN_STREAM_FRAME_SIZE < maxSize
    ensures err == NoError && Took(out, rest, out', rest', used', base, maxSize)
  {
    var r := CutFrame(rest[0], maxSize - used);
    match r {
      case TooSmall => return out, rest, used, NoRoom;
      case OutOfRange => return out, rest, used, BadSlice;
      case Split(first, remainder) =>
        var tail := remainder.(dataLenPresent := true);
        TakePart(out, rest, base, used, maxSize, first, tail);
        return out + [first], [tail] + rest[1..], used + Length(first), NoError;
      case NoSplit =>
        var whole := rest[0].(dataLenPresent := true);
        TakeWhole(out, rest, base, used, maxSize, whole);
        return out + [whole], rest[1..], used + Length(whole), NoError;
    }
  }

  /** As much stream data as fits; a frame that is cut fills the packet. */
  method TakeStreamFrames(fs: seq<StreamFrame>, base: nat, maxSize: nat)
    returns (out: seq<StreamFrame>, rest: seq<StreamFrame>, length: nat, err: PackError)
    requires AllSendable(fs) && base <= maxSize
    ensures err == NoError
    ensures AllSendable(rest) && AllSendable(out) && AllSendable(OpenLast(out))
    ensures base + StreamSize(OpenLast(out)) <= maxSize && base + StreamSize(OpenLast(out)) <= length
    ensures OnlyLastOpen(OpenLast(out))
    ensures AllUnits(out) + AllUnits(rest) == AllUnits(fs)
    ensures Remaining(rest) <= Remaining(fs)
    ensures out != [] ==> Remaining(rest) < Remaining(fs)
    ensures out == [] ==> length == base && rest == fs
    ensures fs != [] && base + MIN_STREAM_FRAME_SIZE < maxSize ==> out != []
    ensures length <= base + StreamSize(OpenLast(out)) + LastField(OpenLast(out))
    ensures rest != [] ==> maxSize <= length + MIN_STREAM_FRAME_SIZE
  {
    out, rest, length, err := [], fs, base, NoError;
    while rest != [] && length + MIN_STREAM_FRAME_SIZE < maxSize
      invariant err == NoError && AllSendable(rest) && Packed(out, base, length, maxSize)
      invariant AllUnits(out) + AllUnits(rest) == AllUnits(fs)
      invariant Remaining(rest) <= Remaining(fs) && (out != [] ==> Remaining(rest) < Remaining(fs))
      invariant out == [] ==> rest == fs && length == base
      decreases Remaining(rest)
    {
      out, rest, length, err := TakeStreamFrame(out, rest, base, length, maxSize);
    }
    OpenLastSendable(out);
    OpenLastSize(out);
  }

  lemma OpenLastSize(out: seq<StreamFrame>)
    requires AllSendable(out) && AllSendable(OpenLast(out))
    ensures StreamSize(out) <= StreamSize(OpenLast(out)) + LastField(OpenLast(out))
    ensures AllDelimited(out) ==> StreamSize(out) == StreamSize(OpenLast(out)) + LastField(OpenLast(out))
  {
    if out != [] {
      assert OpenLast(out)[..|out|-1] == out[..|out|-1];
    }
  }

  lemma OpenLastSendable(out: seq<StreamFrame>)
    requires AllSendable(out) && (AllDelimited(out) || OnlyLastOpen(out))
    ensures AllSendable(OpenLast(out)) && OnlyLastOpen(OpenLast(out))
  {
  }

  // ----- sealing

  const OVERHEAD := 16   // of the AEAD

  datatype Header = Header(connIdLen: nat, pnLen: nat)

  /** What the connection promises about a 1-RTT header: never a packet number of one byte. */
  predicate ShortHeader(h: Header) {
    h.connIdLen <= 18 && 2 <= h.pnLen <= 4
  }

  function HeaderLen1Rtt(h: Header): nat {
    1 + h.connIdLen + h.pnLen
  }

  /** How much room the frames have. */
  function Room(h: Header, maxPacketSize: nat): nat
    requires ShortHeader(h) && 1200 <= maxPacketSize
  {
    maxPacketSize - OVERHEAD - HeaderLen1Rtt(h)
  }

  datatype Packet = Packet(header: Header, ackLen: nat, padding: nat, payload: Payload)

  /** Every STREAM frame of the packet can be written, and a reader can tell where each ends. */
  predicate Delimited(p: Packet) {
    AllSendable(p.payload.streams) && OnlyLastOpen(p.payload.streams)
  }

  function PacketSize(p: Packet): nat
    requires AllSendable(p.payload.streams)
  {
    HeaderLen1Rtt(p.header) + p.ackLen + p.padding + Size(p.payload) + OVERHEAD
  }

  /** The packet fits, and reaches far enough for header protection to find its 16-byte sample four bytes after the
      start of the packet number; it is padded only that far. */
  predicate WellSized(p: Packet, maxPacketSize: nat)
    requires AllSendable(p.payload.streams)
  {
    var least := HeaderLen1Rtt(p.header) - p.header.pnLen + 4 + 16;
    PacketSize(p) <= maxPacketSize && least <= PacketSize(p) && (0 < p.padding ==> PacketSize(p) == least)
  }

  datatype Sealing = Sealed(packet: Packet) | TooLarge

  /** writeAndSealPacket; `length` is what the caller counted, with a length field for the last STREAM frame. */
  function WriteAndSeal(h: Header, ackLen: nat, payload: Payload, length: nat, maxPacketSize: nat): Sealing
    requires AllSendable(payload.streams)
  {
    var padding := if length + h.pnLen < 4 then 4 - h.pnLen - length else 0;
    var p := Packet(h, ackLen, padding, payload);
    if PacketSize(p) > maxPacketSize then TooLarge else Sealed(p)
  }

  lemma StreamSizeAtLeast(fs: seq<StreamFrame>)
    requires AllSendable(fs)
    ensures 2 * |fs| <= StreamSize(fs)
  {
  }

  /** A payload that fits the room is sealed, even though it may be shorter than counted. */
  lemma SealFits(h: Header, ackLen: nat, payload: Payload, length: nat, maxPacketSize: nat)
    requires ShortHeader(h) && 1200 <= maxPacketSize && AllSendable(payload.streams)
    requires ackLen + Size(payload) <= Room(h, maxPacketSize)
    requires ackLen + Size(payload) <= length && (payload.streams == [] ==> length == ackLen + Size(payload))
    ensures var r := WriteAndSeal(h, ackLen, payload, length, maxPacketSize);
            && r.Sealed? && WellSized(r.packet, maxPacketSize)
            && r.packet.payload == payload && r.packet.header == h && r.packet.ackLen == ackLen
  {
    StreamSizeAtLeast(payload.streams);
  }

  // ----- PackRetransmission: the packets

  datatype Frame = Control(control: ControlFrame) | Stream(stream: StreamFrame)

  function ControlsOf(fs: seq<Frame>): seq<ControlFrame> {
    if fs == [] then [] else ControlsOf(fs[..|fs|-1]) + if fs[|fs|-1].Control? then [fs[|fs|-1].control] else []
  }

  function StreamsOf(fs: seq<Frame>): seq<StreamFrame> {
    if fs == [] then []
    else StreamsOf(fs[..|fs|-1]) + if fs[|fs|-1].Stream? then [fs[|fs|-1].stream.(dataLenPresent := true)] else []
  }

  function PackedControls(ps: seq<Packet>): seq<ControlFrame> {
    if ps == [] then [] else PackedControls(ps[..|ps|-1]) + ps[|ps|-1].payload.controls
  }

  function PackedUnits(ps: seq<Packet>): seq<Unit> {
    if ps == [] then [] else PackedUnits(ps[..|ps|-1]) + AllUnits(ps[|ps|-1].payload.streams)
  }

  predicate AllFit(cs: seq<ControlFrame>, room: nat) {
    forall i :: 0 <= i < |cs| ==> cs[i].length <= room
  }

  /** The frames, with the two kinds told apart and each kind in its order. */
  predicate Interleaved(fs: seq<Frame>, controls: seq<ControlFrame>, streams: seq<StreamFrame>) {
    if fs == [] then controls == [] && streams == []
    else match fs[0]
      case Control(c) => controls != [] && controls[0] == c && Interleaved(fs[1..], controls[1..], streams)
      case Stream(f) =>
        streams != [] && streams[0] == f.(dataLenPresent := true) && Interleaved(fs[1..], controls, streams[1..])
  }

  lemma {:induction false} InterleavedPush(fs: seq<Frame>, f: Frame, cs: seq<ControlFrame>, ss: seq<StreamFrame>)
    requires Interleaved(fs, cs, ss)
    ensures f.Control? ==> Interleaved(fs + [f], cs + [f.control], ss)
    ensures f.Stream? ==> Interleaved(fs + [f], cs, ss + [f.stream.(dataLenPresent := true)])
  {
    if fs != [] {
      assert (fs + [f])[1..] == fs[1..] + [f];
      if fs[0].Control? {
        InterleavedPush(fs[1..], f, cs[1..], ss);
        assert f.Control? ==> (cs + [f.control])[1..] == cs[1..] + [f.control];
      } else {
        InterleavedPush(fs[1..], f, cs, ss[1..]);
        if f.Stream? {
          var g := f.stream.(dataLenPresent := true);
          assert (ss + [g])[1..] == ss[1..] + [g];
        }
      }
    }
  }

  lemma {:induction false} SplitIsInterleaved(fs: seq<Frame>)
    ensures Interleaved(fs, ControlsOf(fs), StreamsOf(fs))
  {
    if fs != [] {
      var rest := fs[..|fs|-1];
      SplitIsInterleaved(rest);
      InterleavedPush(rest, fs[|fs|-1], ControlsOf(rest), StreamsOf(rest));
      assert fs == rest + [fs[|fs|-1]];
      assert ControlsOf(rest) + [] == ControlsOf(rest) && StreamsOf(rest) + [] == StreamsOf(rest);
    }
  }

  method SplitFrames(fs: seq<Frame>) returns (controls: seq<ControlFrame>, streams: seq<StreamFrame>)
    ensures controls == ControlsOf(fs) && streams == StreamsOf(fs)
    ensures Interleaved(fs, controls, streams)
  {
    SplitIsInterleaved(fs);
    controls, streams := [], [];
    for i := 0 to |fs|
      invariant controls == ControlsOf(fs[..i]) && streams == StreamsOf(fs[..i])
    {
      assert fs[..i+1][..i] == fs[..i];
      match fs[i] {
        case Stream(f) => streams := streams + [f.(dataLenPresent := true)];
        case Control(c) => controls := controls + [c];
      }
    }
    assert fs[..|fs|] == fs;
  }

  /** A packet ends only before a control frame that does not fit, and with less room than a STREAM frame should
      have. */
  predicate Stopped(payload: Payload, controls: seq<ControlFrame>, streams: seq<StreamFrame>, room: nat)
    requires AllSendable(payload.streams)
  {
    && (controls != [] ==> room < ControlSize(payload.controls) + controls[0].length)
    && (streams != [] ==> room <= Size(payload) + LastField(payload.streams) + MIN_STREAM_FRAME_SIZE)
  }

  /** One packet of a retransmission. */
  method PackOne(controls: seq<ControlFrame>, streams: seq<StreamFrame>, room: nat)
    returns (payload: Payload, controls': seq<ControlFrame>, streams': seq<StreamFrame>, length: nat, err: PackError)
    requires AllSendable(streams)
    ensures err == NoError || err == NoFrame
    ensures AllFit(controls, room) && MIN_STREAM_FRAME_SIZE < room && (controls != [] || streams != []) ==>
              err == NoError
    ensures err == NoFrame && MIN_STREAM_FRAME_SIZE < room && (controls != [] || streams != []) ==>
              controls != [] && room < controls[0].length
    ensures err == NoError ==>
              && AllSendable(payload.streams) && AllSendable(streams') && OnlyLastOpen(payload.streams)
              && Size(payload) <= room
              && Size(payload) <= length && (payload.streams == [] ==> length == Size(payload))
              && payload.controls + controls' == controls
              && AllUnits(payload.streams) + AllUnits(streams') == AllUnits(streams)
              && |controls'| + Remaining(streams') < |controls| + Remaining(streams)
              && Stopped(payload, controls', streams', room)
  {
    var cs, fs;
    cs, controls', length := TakeControlFrames(controls, room);
    fs, streams', length, err := TakeStreamFrames(streams, length, room);
    payload := Payload(cs, OpenLast(fs));
    OpenLastKeepsUnits(fs);
    if cs == [] && fs == [] {
      err := NoFrame;
    }
  }

  // The packets made so far and the frames still to be packed together carry what was to be sent.
  ghost predicate Conserved(ps: seq<Packet>, controls: seq<ControlFrame>, streams: seq<StreamFrame>,
                            allControls: seq<ControlFrame>, allStreams: seq<StreamFrame>) {
    && PackedControls(ps) + controls == allControls
    && PackedUnits(ps) + AllUnits(streams) == AllUnits(allStreams)
  }

  lemma ConservedPush(ps: seq<Packet>, p: Packet, controls: seq<ControlFrame>, streams: seq<StreamFrame>,
                      controls': seq<ControlFrame>, streams': seq<StreamFrame>, allControls: seq<ControlFrame>,
                          allStreams: seq<StreamFrame>)
    requires Conserved(ps, controls, streams, allControls, allStreams)
    requires p.payload.controls + controls' == controls
    requires AllUnits(p.payload.streams) + AllUnits(streams') == AllUnits(streams)
    ensures Conserved(ps + [p], controls', streams', allControls, allStreams)
  {
    assert (ps + [p])[..|ps|] == ps;
    assert (PackedControls(ps) + p.payload.controls) + controls' ==
        PackedControls(ps) + (p.payload.controls + controls');
    Assoc(PackedUnits(ps), AllUnits(p.payload.streams), AllUnits(streams'));
  }

  lemma FitSuffix(a: seq<ControlFrame>, b: seq<ControlFrame>, room: nat)
    requires AllFit(a + b, room)
    ensures AllFit(b, room)
  {
    forall i | 0 <= i < |b| ensures b[i].length <= room {
      assert (a + b)[|a| + i] == b[i];
    }
  }

  /** A packet under its header and without an ACK that fits and can be read, is filled before anything is left over,
      and carries what the frames left over do not. */
  predicate TakenInto(p: Packet, controls: seq<ControlFrame>, streams: seq<StreamFrame>, header: Header,
                      controls': seq<ControlFrame>, streams': seq<StreamFrame>, maxPacketSize: nat)
    requires ShortHeader(header) && 1200 <= maxPacketSize
  {
    && Delimited(p) && WellSized(p, maxPacketSize) && AllSendable(streams')
    && p.header == header && p.ackLen == 0
    && Stopped(p.payload, controls', streams', Room(header, maxPacketSize))
    && p.payload.controls + controls' == controls
    && AllUnits(p.payload.streams) + AllUnits(streams') == AllUnits(streams)
  }

  /** The next packet of a retransmission, sealed. */
  method PackNext(controls: seq<ControlFrame>, streams: seq<StreamFrame>, header: Header, maxPacketSize: nat)
    returns (p: Packet, controls': seq<ControlFrame>, streams': seq<StreamFrame>, err: PackError)
    requires AllSendable(streams) && ShortHeader(header) && 1200 <= maxPacketSize && (controls != [] || streams != [])
    ensures err == NoError || err == NoFrame
    ensures AllFit(controls, Room(header, maxPacketSize)) ==> err == NoError
    ensures err == NoFrame ==> controls != [] && Room(header, maxPacketSize) < controls[0].length
    ensures err == NoError ==>
              && AllSendable(streams') && TakenInto(p, controls, streams, header, controls', streams', maxPacketSize)
              && |controls'| + Remaining(streams') < |controls| + Remaining(streams)
  {
    var payload, length;
    payload, controls', streams', length, err := PackOne(controls, streams, Room(header, maxPacketSize));
    p := Packet(header, 0, 0, payload);
    if err == NoError {
      SealFits(header, 0, payload, length, maxPacketSize);
      var r := WriteAndSeal(header, 0, payload, length, maxPacketSize);
      if r.TooLarge? {
        return p, controls', streams', PacketTooLarge;
      }
      p := r.packet;
    }
  }

  /** A packet under the header it should have, without an ACK, that fits and can be read. */
  predicate PacketOk(p: Packet, header: Header, maxPacketSize: nat) {
    p.header == header && p.ackLen == 0 && Delimited(p) && WellSized(p, maxPacketSize)
  }

  /** The packet was left for the next one only when there was no room for what comes first in that one. */
  predicate Full(p: Packet, next: Payload, maxPacketSize: nat) {
    && ShortHeader(p.header) && 1200 <= maxPacketSize && Delimited(p)
    && Stopped(p.payload, next.controls, next.streams, Room(p.header, maxPacketSize))
  }

  ghost predicate WellPacked(ps: seq<Packet>, connIdLen: nat, pnLen: nat -> nat, maxPacketSize: nat) {
    && (forall i :: 0 <= i < |ps| ==> PacketOk(ps[i], Header(connIdLen, pnLen(i)), maxPacketSize))
    && (forall i :: 0 < i < |ps| ==> Full(ps[i-1], ps[i].payload, maxPacketSize))
  }

  // What the next packet takes from the front stopped the packet before, if anything did.
  lemma FullForNext(p: Packet, next: Payload, controls: seq<ControlFrame>, streams: seq<StreamFrame>,
                    controls': seq<ControlFrame>, streams': seq<StreamFrame>, maxPacketSize: nat)
    requires Full(p, Payload(controls, streams), maxPacketSize)
    requires next.controls + controls' == controls && AllUnits(next.streams) + AllUnits(streams') == AllUnits(streams)
    requires AllSendable(next.streams)
    ensures Full(p, next, maxPacketSize)
  {
    if next.controls != [] {
      assert next.controls[0] == controls[0];
    }
    if next.streams != [] {
      assert StreamUnits(next.streams[0]) != [];
      assert streams != [];
    }
  }

  lemma WellPackedPush(ps: seq<Packet>, p: Packet, connIdLen: nat, pnLen: nat -> nat, maxPacketSize: nat)
    requires WellPacked(ps, connIdLen, pnLen, maxPacketSize)
    requires PacketOk(p, Header(connIdLen, pnLen(|ps|)), maxPacketSize)
    requires ps != [] ==> Full(ps[|ps|-1], p.payload, maxPacketSize)
    ensures WellPacked(ps + [p], connIdLen, pnLen, maxPacketSize)
  {
    hide PacketOk, Full;
  }

  // No control frame in a packet is longer than the room there was.
  lemma {:induction false} TakenFit(cs: seq<ControlFrame>, room: nat)
    requires ControlSize(cs) <= room
    ensures AllFit(cs, room)
  {
    if cs != [] {
      TakenFit(cs[..|cs|-1], room);
    }
  }

  lemma FitPush(ps: seq<Packet>, p: Packet, room: nat)
    requires AllFit(PackedControls(ps), room) && ControlSize(p.payload.controls) <= room
    ensures AllFit(PackedControls(ps + [p]), room)
  {
    TakenFit(p.payload.controls, room);
    assert (ps + [p])[..|ps|] == ps;
  }

  /** All frames were packed up to a control frame that is too long for the packet that was to be next. */
  ghost predicate Stuck(ps: seq<Packet>, controls: seq<ControlFrame>, connIdLen: nat, pnLen: nat, maxPacketSize: nat)
    requires connIdLen <= 18 && 2 <= pnLen <= 4 && 1200 <= maxPacketSize
  {
    var n := |PackedControls(ps)|;
    && PackedControls(ps) < controls
    && Room(Header(connIdLen, pnLen), maxPacketSize) < controls[n].length
  }

  /** Where packing stands: what was made is well packed, nothing is lost, the last packet is full, and control frames
      that were packed would fit a packet with the shortest header. */
  ghost predicate Going(ps: seq<Packet>, controls: seq<ControlFrame>, streams: seq<StreamFrame>,
                        allControls: seq<ControlFrame>, allStreams: seq<StreamFrame>, connIdLen: nat,
                        pnLen: nat -> nat, maxPacketSize: nat)
    requires connIdLen <= 18 && 1200 <= maxPacketSize
  {
    && WellPacked(ps, connIdLen, pnLen, maxPacketSize)
    && Conserved(ps, controls, streams, allControls, allStreams)
    && AllFit(PackedControls(ps), Room(Header(connIdLen, 2), maxPacketSize))
    && (ps != [] ==> Full(ps[|ps|-1], Payload(controls, streams), maxPacketSize))
  }

  lemma GoingOn(ps: seq<Packet>, p: Packet, controls: seq<ControlFrame>, streams: seq<StreamFrame>,
                controls': seq<ControlFrame>, streams': seq<StreamFrame>, allControls: seq<ControlFrame>,
                allStreams: seq<StreamFrame>, connIdLen: nat, pnLen: nat -> nat, maxPacketSize: nat)
    requires connIdLen <= 18 && 2 <= pnLen(|ps|) <= 4 && 1200 <= maxPacketSize
    requires Going(ps, controls, streams, allControls, allStreams, connIdLen, pnLen, maxPacketSize)
    requires TakenInto(p, controls, streams, Header(connIdLen, pnLen(|ps|)), controls', streams', maxPacketSize)
    ensures Going(ps + [p], controls', streams', allControls, allStreams, connIdLen, pnLen, maxPacketSize)
  {
    hide PacketOk, Full, Delimited, WellSized, Stopped, AllFit, Conserved, WellPacked, AllUnits, PackedControls;
    NextOk(p, Header(connIdLen, pnLen(|ps|)), controls', streams', maxPacketSize);
    if ps != [] {
      FullForNext(ps[|ps|-1], p.payload, controls, streams, controls', streams', maxPacketSize);
    }
    WellPackedPush(ps, p, connIdLen, pnLen, maxPacketSize);
    ConservedPush(ps, p, controls, streams, controls', streams', allControls, allStreams);
    FitPush(ps, p, Room(Header(connIdLen, 2), maxPacketSize));
  }

  lemma GoingEnds(ps: seq<Packet>, controls: seq<ControlFrame>, streams: seq<StreamFrame>, connIdLen: nat,
                  pnLen: nat -> nat, maxPacketSize: nat)
    requires connIdLen <= 18 && 1200 <= maxPacketSize
    requires Going(ps, [], [], controls, streams, connIdLen, pnLen, maxPacketSize)
    ensures PackedControls(ps) == controls && PackedUnits(ps) == AllUnits(streams)
    ensures AllFit(controls, Room(Header(connIdLen, 2), maxPacketSize))
  {
    hide AllFit, WellPacked, Full;
    assert PackedControls(ps) + [] == PackedControls(ps);
  }

  lemma StuckOn(ps: seq<Packet>, controls: seq<ControlFrame>, streams: seq<StreamFrame>,
                allControls: seq<ControlFrame>, allStreams: seq<StreamFrame>, connIdLen: nat, pnLen: nat -> nat,
                maxPacketSize: nat)
    requires connIdLen <= 18 && 2 <= pnLen(|ps|) <= 4 && 1200 <= maxPacketSize
    requires Going(ps, controls, streams, allControls, allStreams, connIdLen, pnLen, maxPacketSize)
    requires controls != [] && Room(Header(connIdLen, pnLen(|ps|)), maxPacketSize) < controls[0].length
    ensures Stuck(ps, allControls, connIdLen, pnLen(|ps|), maxPacketSize)
    ensures WellPacked(ps, connIdLen, pnLen, maxPacketSize)
  {
    hide WellPacked, Full, AllFit;
    assert allControls[|PackedControls(ps)|] == controls[0];
  }

  lemma GoingIsWell(ps: seq<Packet>, controls: seq<ControlFrame>, streams: seq<StreamFrame>,
                    allControls: seq<ControlFrame>, allStreams: seq<StreamFrame>, connIdLen: nat, pnLen: nat -> nat,
                    maxPacketSize: nat)
    requires connIdLen <= 18 && 1200 <= maxPacketSize
    requires Going(ps, controls, streams, allControls, allStreams, connIdLen, pnLen, maxPacketSize)
    ensures WellPacked(ps, connIdLen, pnLen, maxPacketSize)
  {
  }

  lemma TakenFits(p: Packet, controls: seq<ControlFrame>, streams: seq<StreamFrame>, header: Header,
                  controls': seq<ControlFrame>, streams': seq<StreamFrame>, maxPacketSize: nat, room: nat)
    requires ShortHeader(header) && 1200 <= maxPacketSize
    requires TakenInto(p, controls, streams, header, controls', streams', maxPacketSize)
    ensures AllFit(controls, room) ==> AllFit(controls', room)
  {
    if AllFit(controls, room) {
      FitSuffix(p.payload.controls, controls', room);
    }
  }

  lemma NothingPacked(controls: seq<ControlFrame>, streams: seq<StreamFrame>, connIdLen: nat, pnLen: nat -> nat,
                      maxPacketSize: nat)
    requires connIdLen <= 18 && 1200 <= maxPacketSize
    ensures Going([], controls, streams, controls, streams, connIdLen, pnLen, maxPacketSize)
  {
  }

  lemma FitsLess(controls: seq<ControlFrame>, a: nat, b: nat)
    requires a <= b
    ensures AllFit(controls, a) ==> AllFit(controls, b)
  {
  }

  lemma NextOk(p: Packet, header: Header, controls: seq<ControlFrame>, streams: seq<StreamFrame>, maxPacketSize: nat)
    requires ShortHeader(header) && 1200 <= maxPacketSize && p.header == header && p.ackLen == 0
    requires Delimited(p) && WellSized(p, maxPacketSize)
    requires Stopped(p.payload, controls, streams, Room(header, maxPacketSize))
    ensures PacketOk(p, header, maxPacketSize) && Full(p, Payload(controls, streams), maxPacketSize)
    ensures AllSendable(p.payload.streams)
    ensures ControlSize(p.payload.controls) <= Room(Header(header.connIdLen, 2), maxPacketSize)
  {
  }

  /** PackRetransmission for 1-RTT packets; `pnLen` gives the packet number length of each packet made.  It makes
      packets under the connection's header that are of the right size, in which only the last STREAM frame has no
      length field, each filled before the next is begun, and which together carry the control frames and the stream
      content, in order.  It ends with an error only at a control frame that is too long for a packet of its own: never
      if each of them fits a packet with the longest header, always if one does not even fit one with the shortest. */
  method PackRetransmission(fs: seq<Frame>, connIdLen: nat, pnLen: nat -> nat, maxPacketSize: nat)
    returns (packets: seq<Packet>, err: PackError)
    requires AllSendable(StreamsOf(fs)) && 1200 <= maxPacketSize
    requires connIdLen <= 18 && forall i :: 2 <= pnLen(i) <= 4
    ensures Interleaved(fs, ControlsOf(fs), StreamsOf(fs))
    ensures err == NoError || err == NoFrame
    ensures AllFit(ControlsOf(fs), Room(Header(connIdLen, 4), maxPacketSize)) ==> err == NoError
    ensures err == NoError ==> AllFit(ControlsOf(fs), Room(Header(connIdLen, 2), maxPacketSize))
    ensures err == NoFrame ==> Stuck(packets, ControlsOf(fs), connIdLen, pnLen(|packets|), maxPacketSize)
    ensures err == NoError ==>
              PackedControls(packets) == ControlsOf(fs) && PackedUnits(packets) == AllUnits(StreamsOf(fs))
    ensures WellPacked(packets, connIdLen, pnLen, maxPacketSize)
  {
    hide Going, AllFit, PackedControls, PackedUnits, Stuck, TakenInto, AllSendable, Remaining, WellPacked, AllUnits;
    hide Interleaved;
    var controls, streams := SplitFrames(fs);
    packets := [];
    ghost var least := Room(Header(connIdLen, 4), maxPacketSize);
    NothingPacked(ControlsOf(fs), StreamsOf(fs), connIdLen, pnLen, maxPacketSize);
    while controls != [] || streams != []
      invariant AllSendable(streams)
      invariant Going(packets, controls, streams, ControlsOf(fs), StreamsOf(fs), connIdLen, pnLen, maxPacketSize)
      invariant AllFit(ControlsOf(fs), least) ==> AllFit(controls, least)
      decreases |controls| + Remaining(streams)
    {
      var header := Header(connIdLen, pnLen(|packets|));
      var p, controls', streams';
      FitsLess(controls, least, Room(header, maxPacketSize));
      p, controls', streams', err := PackNext(controls, streams, header, maxPacketSize);
      if err != NoError {
        StuckOn(packets, controls, streams, ControlsOf(fs), StreamsOf(fs), connIdLen, pnLen, maxPacketSize);
        return;
      }
      GoingOn(packets, p, controls, streams, controls', streams', ControlsOf(fs), StreamsOf(fs), connIdLen, pnLen,
              maxPacketSize);
      TakenFits(p, controls, streams, header, controls', streams', maxPacketSize, least);
      packets, controls, streams := packets + [p], controls', streams';
    }
    GoingEnds(packets, ControlsOf(fs), StreamsOf(fs), connIdLen, pnLen, maxPacketSize);
    GoingIsWell(packets, controls, streams, ControlsOf(fs), StreamsOf(fs), connIdLen, pnLen, maxPacketSize);
    err := NoError;
  }
}
