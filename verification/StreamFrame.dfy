/** STREAM frames (internal/wire/stream_frame.go): their length, how many bytes fit, splitting, and the wire format. */
module StreamFrames {
  import opened Common
  import opened Bytes
  import opened VarInts

  datatype StreamFrame = StreamFrame(streamId: nat, offset: nat, data: seq<byte>, fin: bool, dataLenPresent: bool)

  /** Identifier, offset and length are variable-length integers, and no byte lies beyond the maximum offset. */
  predicate Encodable(f: StreamFrame) {
    f.streamId <= MAX_VAR_INT_8 && f.offset + |f.data| <= MAX_BYTE_COUNT
  }

  // Everything but the length field and the data.
  function HeaderLen(f: StreamFrame): (n: nat)
    requires Encodable(f)
    ensures 2 <= n <= 17
  {
    1 + VarIntLen(f.streamId) + if f.offset != 0 then VarIntLen(f.offset) else 0
  }

  function Length(f: StreamFrame): nat
    requires Encodable(f)
  {
    HeaderLen(f) + (if f.dataLenPresent then VarIntLen(|f.data|) else 0) + |f.data|
  }

  function MaxDataLen(f: StreamFrame, maxSize: nat): nat
    requires Encodable(f)
  {
    var headerLen := HeaderLen(f) + if f.dataLenPresent then 1 else 0;
    if headerLen > maxSize then 0
    else
      var maxDataLen := maxSize - headerLen;
      if f.dataLenPresent &&
          (maxDataLen > MAX_VAR_INT_8 || VarIntLen(maxDataLen) != 1) then maxDataLen - 1 else maxDataLen
  }

  predicate SameHeader(f: StreamFrame, g: StreamFrame)
    requires Encodable(f)
  {
    Encodable(g) && HeaderLen(g) == HeaderLen(f) && g.dataLenPresent == f.dataLenPresent
  }

  /** A frame with as much data as MaxDataLen allows fits if and only if a two-byte length field suffices, and one
      more byte never fits. */
  lemma MaxDataLenIsMaximal(f: StreamFrame, maxSize: nat, n: nat)
    requires Encodable(f) && n == MaxDataLen(f, maxSize) && 0 < n && |f.data| == n
    ensures Length(f) <= maxSize <==> !f.dataLenPresent || n <= MAX_VAR_INT_2
    ensures forall g: StreamFrame :: SameHeader(f, g) && n < |g.data| ==> maxSize < Length(g)
  {
    forall g: StreamFrame | SameHeader(f, g) && n < |g.data| ensures maxSize < Length(g)
    {
      assert VarIntLen(|g.data|) >= 1;
    }
  }

  // ----- splitting

  datatype SplitResult = NoSplit | TooSmall | OutOfRange | Split(first: StreamFrame, remainder: StreamFrame)

  /** MaybeSplitOffFrame: `remainder` is what the frame itself becomes.  OutOfRange stands for slicing beyond the
      data. */
  function MaybeSplitOffFrame(f: StreamFrame, maxSize: nat): SplitResult
    requires Encodable(f)
  {
    if maxSize >= Length(f) then NoSplit
    else
      var n := MaxDataLen(f, maxSize);
      if n == 0 then TooSmall
      else if n > |f.data| then OutOfRange
      else Split(f.(fin := false, data := f.data[..n]), f.(data := f.data[n..], offset := f.offset + n))
  }

  /** Both parts together carry what the frame carried.  Too small are exactly the sizes that leave no room for data;
      the source slices beyond the data exactly if the size leaves room for all of it with a two-byte length field, but
      the frame needs a longer one.  The first part fits exactly if two bytes are enough for its length, and the second
      still has data except for one size. */
  lemma SplitConserves(f: StreamFrame, maxSize: nat)
    requires Encodable(f)
    ensures var r := MaybeSplitOffFrame(f, maxSize);
            && (r.NoSplit? <==> Length(f) <= maxSize)
            && (r.OutOfRange? <==> f.dataLenPresent && HeaderLen(f) + 2 + |f.data| < maxSize < Length(f))
            && (r.TooSmall? <==> maxSize < Length(f) && maxSize <= HeaderLen(f) + if f.dataLenPresent then 1 else 0)
            && (r.Split? ==>
                  && Encodable(r.first) && Encodable(r.remainder)
                  && r.first.data + r.remainder.data == f.data && 0 < |r.first.data|
                  && r.first.offset == f.offset && r.remainder.offset == f.offset + |r.first.data|
                  && !r.first.fin && r.remainder.fin == f.fin
                  && r.first.streamId == r.remainder.streamId == f.streamId
                  && r.first.dataLenPresent == r.remainder.dataLenPresent == f.dataLenPresent
                  && (Length(r.first) <= maxSize <==> !f.dataLenPresent || |r.first.data| <= MAX_VAR_INT_2)
                  && (0 < |r.remainder.data| <==> !f.dataLenPresent || maxSize != HeaderLen(f) + 2 + |f.data|)
                  && (!f.dataLenPresent ==> Length(r.first) == maxSize))
  {
    var n := MaxDataLen(f, maxSize);
    assert VarIntLen(|f.data|) >= 1;
    if MaybeSplitOffFrame(f, maxSize).Split? {
      MaxDataLenIsMaximal(f.(fin := false, data := f.data[..n]), maxSize, n);
    }
  }

  /** A frame that MaxDataLen says fits into 20000 bytes and that does not. */
  method FullFrameTooLong() returns (f: StreamFrame)
    ensures Encodable(f) && |f.data| == MaxDataLen(f, 20000) && 20000 < Length(f)
  {
    f := StreamFrame(0, 0, seq(19996, _ => 0), false, true);
  }

  /** A frame and a size for which the source slices beyond the data. */
  method SplitBeyondData() returns (f: StreamFrame)
    ensures Encodable(f) && MaybeSplitOffFrame(f, 16389).OutOfRange?
  {
    f := StreamFrame(0, 0, seq(16384, _ => 0), false, true);
  }

  // ----- the wire format

  function Flag(b: bool, value: nat): nat {
    if b then value else 0
  }

  function TypeByte(f: StreamFrame): byte {
    8 + Flag(f.fin, 1) + Flag(f.dataLenPresent, 2) + Flag(f.offset != 0, 4)
  }

  // The length field, if any, and the data.
  function Body(f: StreamFrame): seq<byte>
    requires Encodable(f)
  {
    (if f.dataLenPresent then WriteVarInt(|f.data|) else []) + f.data
  }

  function Tail(f: StreamFrame): seq<byte>
    requires Encodable(f)
  {
    (if f.offset != 0 then WriteVarInt(f.offset) else []) + Body(f)
  }

  /** Write; an empty frame without FIN is refused. */
  function Write(f: StreamFrame): (bs: seq<byte>)
    requires Encodable(f) && (f.data != [] || f.fin)
    ensures |bs| == Length(f)
  {
    [TypeByte(f)] + (WriteVarInt(f.streamId) + Tail(f))
  }

  datatype Parsed = Frame(frame: StreamFrame, rest: seq<byte>) | UnexpectedEof | OffsetOverflow

  function Parse(bs: seq<byte>): Parsed {
    if bs == [] then UnexpectedEof
    else
      var id := ReadVarInt(bs[1..]);
      if id.Eof? then UnexpectedEof
      else
        var offset := if (bs[0] / 4) % 2 == 1 then ReadVarInt(id.rest) else Ok(0, id.rest);
        if offset.Eof? then UnexpectedEof
        else ParseData(bs[0], id.value, offset.value, offset.rest)
  }

  function ParseData(typeByte: byte, id: nat, offset: nat, bs: seq<byte>): Parsed {
    var dataLenPresent := (typeByte / 2) % 2 == 1;
    var dataLen := if dataLenPresent then ReadVarInt(bs) else Ok(|bs|, bs);
    if dataLen.Eof? || dataLen.value > |dataLen.rest| then UnexpectedEof
    else if offset + dataLen.value > MAX_BYTE_COUNT then OffsetOverflow
    else Frame(StreamFrame(id, offset, dataLen.rest[..dataLen.value], typeByte % 2 == 1, dataLenPresent),
        dataLen.rest[dataLen.value..])
  }

  lemma FlagBits(fin: bool, len: bool, offset: bool)
    ensures var t := 8 + Flag(fin, 1) + Flag(len, 2) + Flag(offset, 4);
            t < 256 && (t % 2 == 1 <==> fin) && ((t / 2) % 2 == 1 <==> len) && ((t / 4) % 2 == 1 <==> offset)
  {
  }

  lemma DataParsesBack(f: StreamFrame, typeByte: byte, rest: seq<byte>)
    requires Encodable(f) && (f.dataLenPresent || rest == [])
    requires (typeByte % 2 == 1 <==> f.fin) && ((typeByte / 2) % 2 == 1 <==> f.dataLenPresent)
    ensures ParseData(typeByte, f.streamId, f.offset, Body(f) + rest) == Frame(f, rest)
  {
    assert (f.data + rest)[..|f.data|] == f.data && (f.data + rest)[|f.data|..] == rest;
    if f.dataLenPresent {
      Assoc(WriteVarInt(|f.data|), f.data, rest);
      ReadsBack(|f.data|, f.data + rest);
    } else {
      assert Body(f) + rest == f.data + rest && |f.data + rest| == |f.data|;
    }
  }

  lemma OffsetReadsBack(f: StreamFrame, rest: seq<byte>)
    requires Encodable(f)
    ensures f.offset != 0 ==> ReadVarInt(Tail(f) + rest) == Ok(f.offset, Body(f) + rest)
    ensures f.offset == 0 ==> Tail(f) + rest == Body(f) + rest
  {
    if f.offset != 0 {
      Assoc(WriteVarInt(f.offset), Body(f), rest);
      ReadsBack(f.offset, Body(f) + rest);
    } else {
      assert Tail(f) == Body(f);
    }
  }

  /** What is written is read back; a frame without length field has to be the last in its packet. */
  lemma ParsesBack(f: StreamFrame, rest: seq<byte>)
    requires Encodable(f) && (f.data != [] || f.fin)
    requires f.dataLenPresent || rest == []
    ensures Parse(Write(f) + rest) == Frame(f, rest)
  {
    hide ReadVarInt, WriteVarInt;
    FlagBits(f.fin, f.dataLenPresent, f.offset != 0);
    Assoc([TypeByte(f)], WriteVarInt(f.streamId) + Tail(f), rest);
    Assoc(WriteVarInt(f.streamId), Tail(f), rest);
    var bs := Write(f) + rest;
    assert bs[0] == TypeByte(f);
    assert bs[1..] == WriteVarInt(f.streamId) + (Tail(f) + rest);
    ReadsBack(f.streamId, Tail(f) + rest);
    OffsetReadsBack(f, rest);
    DataParsesBack(f, bs[0], rest);
  }

  /** What any bytes of this form are read as: bit 2 of the type says whether there is an offset, bit 1 whether there is
      a length, bit 0 is FIN.  Data that is cut off is refused, and so is data beyond the maximum offset. */
  lemma ParseIs(typ: byte, id: nat, offset: nat, len: nat, rest: seq<byte>)
    requires id <= MAX_VAR_INT_8 && offset <= MAX_VAR_INT_8 && len <= MAX_VAR_INT_8
    ensures var hasOffset, hasLen := (typ / 4) % 2 == 1, (typ / 2) % 2 == 1;
            var bs := [typ] + (WriteVarInt(id) + ((if hasOffset then WriteVarInt(offset) else []) +
                      ((if hasLen then WriteVarInt(len) else []) + rest)));
            var from, n := if hasOffset then offset else 0, if hasLen then len else |rest|;
            Parse(bs) == if n > |rest| then UnexpectedEof
                         else if from + n > 0x3FFF_FFFF_FFFF_FFFF then OffsetOverflow
                         else Frame(StreamFrame(id, from, rest[..n], typ % 2 == 1, hasLen), rest[n..])
  {
    hide ReadVarInt, WriteVarInt;
    var hasOffset, hasLen := (typ / 4) % 2 == 1, (typ / 2) % 2 == 1;
    var body := (if hasLen then WriteVarInt(len) else []) + rest;
    var tail := (if hasOffset then WriteVarInt(offset) else []) + body;
    assert ([typ] + (WriteVarInt(id) + tail))[1..] == WriteVarInt(id) + tail;
    ReadsBack(id, tail);
    ReadsBack(offset, body);
    ReadsBack(len, rest);
    assert [] + body == body && [] + rest == rest;
  }

  /** The fields of a frame and their order, on an example: stream 5, offset 300, three bytes and FIN. */
  lemma ExampleBytes()
    ensures Write(StreamFrame(5, 300, [7, 8, 9], true, true)) == [15, 5, 0x41, 0x2C, 3, 7, 8, 9]
  {
    assert WriteVarInt(300) == [0x41, 0x2C] by {
      assert Digits(300, 2, 1) == Digits(1, 1, 1) + [44];
    }
  }
}
