/** The ACK frame on the wire (internal/wire/ack_frame.go): only as many ranges are written as fit, and they are what
    the peer reads. */
module AckFrames {
  import opened Bytes
  import opened VarInts
  import opened AckRanges

  const MAX_ACK_FRAME_SIZE := 1000
  const DELAY_UNIT := 8000   // nanoseconds in 1 << 3 microseconds

  /** The delay is in nanoseconds. */
  datatype AckFrame = AckFrame(ranges: seq<AckRange>, delay: int)

  /** What a frame to be sent looks like: packet numbers and the scaled delay are 62-bit numbers. */
  predicate Writable(f: AckFrame) {
    WellFormed(f.ranges) && LargestAcked(f.ranges) <= MAX_VAR_INT_8 && 0 <= f.delay < 0x8000_0000_0000_0000
  }

  function EncodedDelay(delay: nat): nat {
    delay / DELAY_UNIT
  }

  predicate Bounded(rs: seq<AckRange>) {
    WellFormed(rs) && LargestAcked(rs) <= MAX_VAR_INT_8
  }

  // encodeAckRange for all ranges but the first.
  function Gap(rs: seq<AckRange>, i: nat): (g: nat)
    requires Bounded(rs) && 0 < i < |rs|
    ensures g <= MAX_VAR_INT_8
  {
    rs[i-1].smallest - rs[i].largest - 2
  }

  function Extent(r: AckRange): nat
    requires r.smallest <= r.largest
  {
    r.largest - r.smallest
  }

  function BlockLen(rs: seq<AckRange>, i: nat): (n: nat)
    requires Bounded(rs) && 0 < i < |rs|
    ensures 2 <= n <= 16
  {
    VarIntLen(Gap(rs, i)) + VarIntLen(Extent(rs[i]))
  }

  /** The sizes of the blocks; the first range has none. */
  function BlockLens(rs: seq<AckRange>): (ls: seq<nat>)
    requires Bounded(rs)
    ensures |ls| == |rs| && Sizes(ls) && forall i :: 0 < i < |rs| ==> ls[i] == BlockLen(rs, i)
  {
    seq(|rs|, i requires 0 <= i < |rs| => if i == 0 then 0 else BlockLen(rs, i))
  }

  predicate Sizes(ls: seq<nat>) {
    forall i :: 0 < i < |ls| ==> 2 <= ls[i] <= 16
  }

  /** Bytes taken by ranges 1, ..., n-1. */
  function Total(ls: seq<nat>, n: nat): (len: nat)
    requires 0 < n <= |ls|
  {
    if n == 1 then 0 else Total(ls, n-1) + ls[n-1]
  }

  lemma {:induction false} TotalAtLeast(ls: seq<nat>, n: nat)
    requires 0 < n <= |ls| && Sizes(ls)
    ensures 2 * (n-1) <= Total(ls, n)
  {
    if n > 1 {
      TotalAtLeast(ls, n-1);
    }
  }

  function FixedLen(f: AckFrame): (n: nat)
    requires Writable(f)
    ensures n <= 17
  {
    1 + VarIntLen(LargestAcked(f.ranges)) + VarIntLen(EncodedDelay(f.delay))
  }

  // ----- how many ranges are written

  // The loop of numEncodableAckRanges from range i on.
  function NumFrom(ls: seq<nat>, i: nat, length: nat): nat
    requires 0 < i <= |ls|
    decreases |ls| - i
  {
    if i == |ls| then |ls|
    else if length + ls[i] > MAX_ACK_FRAME_SIZE then i - 1
    else NumFrom(ls, i + 1, length + ls[i])
  }

  function NumEncodable(f: AckFrame): nat
    requires Writable(f)
  {
    NumFrom(BlockLens(f.ranges), 1, FixedLen(f) + 2)
  }

  method NumEncodableAckRanges(f: AckFrame) returns (n: nat)
    requires Writable(f)
    ensures n == NumEncodable(f)
  {
    var length: nat := FixedLen(f) + 2;
    ghost var ls := BlockLens(f.ranges);
    for i := 1 to |f.ranges|
      invariant NumFrom(ls, i, length) == NumEncodable(f)
    {
      var rangeLen := BlockLen(f.ranges, i);
      if length + rangeLen > MAX_ACK_FRAME_SIZE {
        return i - 1;
      }
      length := length + rangeLen;
    }
    return |f.ranges|;
  }

  // n ranges keep to the limit; if there are more, the next one is left out although it fits, and the one after does
  // not.
  predicate Maximal(ls: seq<nat>, fixed: nat, n: nat)
    requires 0 < |ls|
  {
    && 1 <= n <= |ls|
    && fixed + Total(ls, n) <= MAX_ACK_FRAME_SIZE
    && (n < |ls| ==> n + 2 <= |ls| && fixed + Total(ls, n + 1) <= MAX_ACK_FRAME_SIZE < fixed + Total(ls, n + 2))
  }

  lemma {:induction false} NumFromMaximal(ls: seq<nat>, i: nat, fixed: nat)
    requires 0 < i <= |ls| && Sizes(ls) && fixed <= 19 && fixed + Total(ls, i) <= MAX_ACK_FRAME_SIZE
    ensures Maximal(ls, fixed, NumFrom(ls, i, fixed + Total(ls, i)))
    decreases |ls| - i
  {
    if i < |ls| {
      assert Total(ls, i + 1) == Total(ls, i) + ls[i];
      if fixed + Total(ls, i) + ls[i] <= MAX_ACK_FRAME_SIZE {
        NumFromMaximal(ls, i + 1, fixed);
      } else {
        assert i > 1 by {
          assert Total(ls, 1) == 0;
        }
      }
    }
  }

  /** At least one range is written, and what is written (the first range aside) keeps to the limit.  If ranges are left
      out, then exactly one of them would still have fitted. */
  lemma NumEncodableIsMaximal(f: AckFrame)
    requires Writable(f)
    ensures Maximal(BlockLens(f.ranges), FixedLen(f) + 2, NumEncodable(f))
    ensures NumEncodable(f) <= 500
  {
    var ls := BlockLens(f.ranges);
    NumFromMaximal(ls, 1, FixedLen(f) + 2);
    TotalAtLeast(ls, NumEncodable(f));
  }

  // ----- writing

  function Block(rs: seq<AckRange>, i: nat): (bs: seq<byte>)
    requires Bounded(rs) && 0 < i < |rs|
    ensures |bs| == BlockLen(rs, i)
  {
    WriteVarInt(Gap(rs, i)) + WriteVarInt(Extent(rs[i]))
  }

  // Ranges i, ..., n-1, highest first.
  function Blocks(rs: seq<AckRange>, i: nat, n: nat): seq<byte>
    requires Bounded(rs) && 0 < i <= n <= |rs|
    decreases n - i
  {
    if i == n then [] else Block(rs, i) + Blocks(rs, i + 1, n)
  }

  lemma {:induction false} BlocksSnoc(rs: seq<AckRange>, i: nat, n: nat)
    requires Bounded(rs) && 0 < i <= n < |rs|
    ensures Blocks(rs, i, n + 1) == Blocks(rs, i, n) + Block(rs, n)
    decreases n - i
  {
    if i < n {
      BlocksSnoc(rs, i + 1, n);
      assert Block(rs, i) + (Blocks(rs, i + 1, n) + Block(rs, n)) ==
          (Block(rs, i) + Blocks(rs, i + 1, n)) + Block(rs, n);
    } else {
      assert Blocks(rs, n + 1, n + 1) == [];
    }
  }

  lemma {:induction false} BlocksSize(rs: seq<AckRange>, n: nat)
    requires Bounded(rs) && 0 < n <= |rs|
    ensures |Blocks(rs, 1, n)| == Total(BlockLens(rs), n)
  {
    if n > 1 {
      BlocksSize(rs, n-1);
      BlocksSnoc(rs, 1, n-1);
    }
  }

  // What precedes the ranges below the first.
  function Front(f: AckFrame, n: nat): seq<byte>
    requires Writable(f) && 0 < n <= MAX_VAR_INT_8
  {
    [2] + (WriteVarInt(LargestAcked(f.ranges)) +
        (WriteVarInt(EncodedDelay(f.delay)) + (WriteVarInt(n-1) + WriteVarInt(Extent(f.ranges[0])))))
  }

  /** The bytes of a frame with its first n ranges. */
  function Encode(f: AckFrame, n: nat): seq<byte>
    requires Writable(f) && 0 < n <= |f.ranges| && n <= MAX_VAR_INT_8
  {
    Front(f, n) + Blocks(f.ranges, 1, n)
  }

  lemma EncodeSize(f: AckFrame, n: nat)
    requires Writable(f) && 0 < n <= |f.ranges| && n <= MAX_VAR_INT_8
    ensures |Encode(f, n)| ==
              FixedLen(f) + VarIntLen(n-1) + VarIntLen(Extent(f.ranges[0])) + Total(BlockLens(f.ranges), n)
  {
    BlocksSize(f.ranges, n);
  }

  // The loop of Length.
  method AddBlockLens(rs: seq<AckRange>, n: nat, front: nat) returns (length: nat)
    requires Bounded(rs) && 0 < n <= |rs|
    ensures length == front + Total(BlockLens(rs), n)
  {
    length := front;
    var i := 1;
    while i < n
      invariant 0 < i <= n && length == front + Total(BlockLens(rs), i)
    {
      length := length + BlockLen(rs, i);
      i := i + 1;
    }
  }

  /** What is left of the limit for the extent of the first range, which is not counted when ranges are left out. */
  function RoomForFirst(f: AckFrame): int
    requires Writable(f) && 0 < NumEncodable(f) <= |f.ranges| && NumEncodable(f) <= MAX_VAR_INT_8
  {
    var n := NumEncodable(f);
    MAX_ACK_FRAME_SIZE - FixedLen(f) - VarIntLen(n-1) - Total(BlockLens(f.ranges), n)
  }

  /** Length is the number of bytes written.  It exceeds the limit exactly if the extent of the first range needs
      more bytes than are left for it, and by at most eight bytes; with up to 64 ranges and a first range of up to 64
      packets it never does. */
  method Length(f: AckFrame) returns (length: nat)
    requires Writable(f)
    ensures var n := NumEncodable(f); 0 < n <= |f.ranges| && n <= 500 && length == |Encode(f, n)|
    ensures length > MAX_ACK_FRAME_SIZE <==> VarIntLen(Extent(f.ranges[0])) > RoomForFirst(f)
    ensures length <= MAX_ACK_FRAME_SIZE + 8
    ensures NumEncodable(f) <= 64 && Extent(f.ranges[0]) < 64 ==> length <= MAX_ACK_FRAME_SIZE
  {
    NumEncodableIsMaximal(f);
    var n := NumEncodableAckRanges(f);
    EncodeSize(f, n);
    length := AddBlockLens(f.ranges, n, FixedLen(f) + VarIntLen(n-1) + VarIntLen(Extent(f.ranges[0])));
  }

  // ----- the longest frame

  const TOP := 0x100_0000_0000
  const WIDE := 0x4000_0000
  const MEDIUM := 0x4000

  /** Sixty ranges below the first with gap and extent of eight bytes each, then four with a gap of four bytes. */
  function LongRange(i: nat): (r: AckRange)
    requires i < 65
    ensures r.smallest <= r.largest
  {
    if i <= 60 then
      var largest := TOP - i * (2 * WIDE + 2);
      AckRange(largest - WIDE, largest)
    else
      var largest := TOP - 60 * (2 * WIDE + 2) - WIDE - (i - 60) * (MEDIUM + 2);
      AckRange(largest - (if i == 64 then 64 else 0), largest)
  }

  function LongFrame(): (f: AckFrame)
    ensures |f.ranges| == 65 && forall i :: 0 <= i < 65 ==> f.ranges[i] == LongRange(i)
  {
    AckFrame(seq(65, i requires 0 <= i < 65 => LongRange(i)), WIDE * DELAY_UNIT)
  }

  lemma LongRangesOrdered(i: nat, j: nat)
    requires i < j < 65
    ensures LongRange(j).largest + 1 < LongRange(i).smallest
  {
  }

  lemma LongFrameWritable()
    ensures Writable(LongFrame()) && Bounded(LongFrame().ranges)
    ensures FixedLen(LongFrame()) == 17 && VarIntLen(Extent(LongFrame().ranges[0])) == 8
  {
    var rs := LongFrame().ranges;
    forall i, j | 0 <= i < j < |rs| ensures rs[j].largest + 1 < rs[i].smallest {
      LongRangesOrdered(i, j);
    }
    hide LongFrame;
    assert rs[0] == LongRange(0);
  }

  lemma LongBlock(i: nat)
    requires 0 < i < 65
    ensures Bounded(LongFrame().ranges)
    ensures BlockLen(LongFrame().ranges, i) == if i <= 60 then 16 else if i < 64 then 5 else 6
  {
    LongFrameWritable();
    var rs := LongFrame().ranges;
    assert rs[i-1] == LongRange(i-1) && rs[i] == LongRange(i);
    hide LongFrame, Bounded;
  }

  lemma {:induction false} LongTotal(n: nat)
    requires 0 < n <= 65
    ensures Bounded(LongFrame().ranges)
    ensures Total(BlockLens(LongFrame().ranges), n) == if n <= 61 then 16 * (n-1) else
              if n < 65 then 960 + 5 * (n - 61) else 981
  {
    LongFrameWritable();
    hide LongFrame, LongRange, BlockLens, BlockLen, Bounded, Writable;
    if n > 1 {
      LongTotal(n-1);
      LongBlock(n-1);
    }
  }

  lemma {:induction false} AllFit(ls: seq<nat>, i: nat, fixed: nat)
    requires 0 < i <= |ls| && fixed + Total(ls, |ls|) <= MAX_ACK_FRAME_SIZE
    ensures NumFrom(ls, i, fixed + Total(ls, i)) == |ls|
    decreases |ls| - i
  {
    if i < |ls| {
      assert Total(ls, i + 1) == Total(ls, i) + ls[i];
      hide Total;
      TotalGrows(ls, i + 1, |ls|);
      AllFit(ls, i + 1, fixed);
    }
  }

  lemma {:induction false} TotalGrows(ls: seq<nat>, i: nat, n: nat)
    requires 0 < i <= n <= |ls|
    ensures Total(ls, i) <= Total(ls, n)
    decreases n
  {
    if i < n {
      TotalGrows(ls, i, n-1);
    }
  }

  lemma LongFrameFits()
    ensures Writable(LongFrame()) && NumEncodable(LongFrame()) == 65
  {
    LongFrameWritable();
    hide LongFrame, LongRange, Writable, Bounded, BlockLens, Total, NumFrom, FixedLen;
    var ls := BlockLens(LongFrame().ranges);
    LongTotal(1);
    LongTotal(65);
    AllFit(ls, 1, 19);
  }

  /** The eight bytes above the limit are attained. */
  method LongestFrame() returns (f: AckFrame, length: nat)
    ensures Writable(f) && NumEncodable(f) == |f.ranges| == 65 && length == |Encode(f, 65)| == MAX_ACK_FRAME_SIZE + 8
  {
    f := LongFrame();
    LongFrameWritable();
    hide LongFrame, LongRange, Writable, Bounded, BlockLens, NumEncodable, Total;
    LongFrameFits();
    LongTotal(65);
    EncodeSize(f, 65);
    length := Length(f);
  }

  // ----- a frame with one range too few

  function EveryOther(): (f: AckFrame)
    ensures |f.ranges| == 600 && forall i :: 0 <= i < 600 ==> f.ranges[i] == AckRange(1200 - 2 * i, 1200 - 2 * i)
  {
    AckFrame(seq(600, i requires 0 <= i < 600 => AckRange(1200 - 2 * i, 1200 - 2 * i)), 64 * DELAY_UNIT)
  }

  lemma EveryOtherWritable()
    ensures Writable(EveryOther()) && Bounded(EveryOther().ranges) && FixedLen(EveryOther()) == 5
    ensures Extent(EveryOther().ranges[0]) == 0
    ensures forall i :: 0 < i < 600 ==> BlockLen(EveryOther().ranges, i) == 2
  {
    var rs := EveryOther().ranges;
    assert WellFormed(rs);
    forall i | 0 < i < 600 ensures BlockLen(rs, i) == 2 {
      assert rs[i-1] == AckRange(1202 - 2 * i, 1202 - 2 * i) && rs[i] == AckRange(1200 - 2 * i, 1200 - 2 * i);
    }
  }

  lemma {:induction false} TotalOfTwos(ls: seq<nat>, n: nat)
    requires 0 < n <= |ls| && forall i :: 0 < i < |ls| ==> ls[i] == 2
    ensures Total(ls, n) == 2 * (n-1)
  {
    if n > 1 {
      TotalOfTwos(ls, n-1);
    }
  }

  lemma EveryOtherCount()
    ensures Writable(EveryOther()) && NumEncodable(EveryOther()) == 496
  {
    hide EveryOther, Writable, Bounded, NumEncodable, Total, BlockLens, FixedLen;
    EveryOtherWritable();
    var f := EveryOther();
    NumEncodableIsMaximal(f);
    var ls, n := BlockLens(f.ranges), NumEncodable(f);
    TotalOfTwos(ls, n + 1);
    TotalOfTwos(ls, n + 2);
  }

  /** A frame that is written with 496 ranges although 497 of them take exactly 1000 bytes. */
  method OneRangeTooFew() returns (f: AckFrame)
    ensures Writable(f) && NumEncodable(f) == 496 && |f.ranges| == 600 && |Encode(f, 497)| == MAX_ACK_FRAME_SIZE
  {
    f := EveryOther();
    hide EveryOther, Writable, Bounded, NumEncodable, Total, BlockLens, Encode, FixedLen;
    EveryOtherWritable();
    EveryOtherCount();
    TotalOfTwos(BlockLens(f.ranges), 497);
    EncodeSize(f, 497);
  }

  // ----- reading

  datatype ParseError = UnexpectedEof | InvalidFirstRange | InvalidRanges

  datatype Parsed = Parsed(frame: AckFrame, rest: seq<byte>) | Invalid(error: ParseError)

  // Arithmetic on 64-bit signed integers.
  function Wrap64(x: int): int {
    (x + 0x8000_0000_0000_0000) % 0x1_0000_0000_0000_0000 - 0x8000_0000_0000_0000
  }

  function ShiftLeft(x: nat, n: nat): nat {
    if n == 0 then x else 2 * ShiftLeft(x, n-1)
  }

  // A delay field in nanoseconds.
  function DecodedDelay(delay: nat, exponent: nat): int {
    Wrap64(ShiftLeft(delay, exponent) * 1000)
  }

  // One gap and one range below `smallest`.
  datatype BlockResult = NextRange(range: AckRange, rest: seq<byte>) | BadBlock(error: ParseError)

  function ParseBlock(bs: seq<byte>, smallest: nat): BlockResult {
    var gap := ReadVarInt(bs);
    if gap.Eof? then BadBlock(UnexpectedEof)
    else if smallest < gap.value + 2 then BadBlock(InvalidRanges)
    else
      var largest := smallest - gap.value - 2;
      var extent := ReadVarInt(gap.rest);
      if extent.Eof? then BadBlock(UnexpectedEof)
      else if extent.value > largest then BadBlock(InvalidRanges)
      else NextRange(AckRange(largest - extent.value, largest), extent.rest)
  }

  datatype BlocksResult = Ranges(ranges: seq<AckRange>, rest: seq<byte>) | BadRanges(error: ParseError)

  /** The ranges read so far and `n` more. */
  function ParseBlocks(bs: seq<byte>, ranges: seq<AckRange>, n: nat): BlocksResult
    requires ranges != []
    decreases n
  {
    if n == 0 then Ranges(ranges, bs)
    else
      match ParseBlock(bs, ranges[|ranges|-1].smallest)
      case BadBlock(e) => BadRanges(e)
      case NextRange(r, rest) => ParseBlocks(rest, ranges + [r], n - 1)
  }

  function SkipVarInts(bs: seq<byte>, n: nat): Read<()>
    decreases n
  {
    if n == 0 then Ok((), bs)
    else
      var r := ReadVarInt(bs);
      if r.Eof? then Eof else SkipVarInts(r.rest, n - 1)
  }

  // What precedes the ranges below the first; that is, the type and four numbers.
  datatype HeadResult = Head(ecn: bool, delay: nat, first: AckRange, more: nat, rest: seq<byte>)
      | BadHead(error: ParseError)

  function ParseFirst(bs: seq<byte>, ecn: bool, delay: nat, largest: nat): HeadResult {
    var num := ReadVarInt(bs);
    if num.Eof? then BadHead(UnexpectedEof)
    else
      var extent := ReadVarInt(num.rest);
      if extent.Eof? then BadHead(UnexpectedEof)
      else if extent.value > largest then BadHead(InvalidFirstRange)
      else Head(ecn, delay, AckRange(largest - extent.value, largest), num.value, extent.rest)
  }

  function ParseHead(bs: seq<byte>): HeadResult {
    if bs == [] then BadHead(UnexpectedEof)
    else
      var largest := ReadVarInt(bs[1..]);
      if largest.Eof? then BadHead(UnexpectedEof)
      else
        var delay := ReadVarInt(largest.rest);
        if delay.Eof? then BadHead(UnexpectedEof)
            else ParseFirst(delay.rest, bs[0] % 2 == 1, delay.value, largest.value)
  }

  function Finish(ecn: bool, ranges: seq<AckRange>, delay: int, bs: seq<byte>): Parsed {
    if !WellFormed(ranges) then Invalid(InvalidRanges)
    else if !ecn then Parsed(AckFrame(ranges, delay), bs)
    else
      var r := SkipVarInts(bs, 3);
      if r.Eof? then Invalid(UnexpectedEof) else Parsed(AckFrame(ranges, delay), r.rest)
  }

  /** parseAckFrame.  Every frame it accepts can be searched: its ranges are in order, neither overlapping nor
      adjacent. */
  function Parse(bs: seq<byte>, exponent: nat): (r: Parsed)
    ensures r.Parsed? ==> WellFormed(r.frame.ranges)
  {
    match ParseHead(bs)
    case BadHead(e) => Invalid(e)
    case Head(ecn, delay, first, more, rest) =>
      match ParseBlocks(rest, [first], more)
      case BadRanges(e) => Invalid(e)
      case Ranges(ranges, rest) => Finish(ecn, ranges, DecodedDelay(delay, exponent), rest)
  }

  lemma ParseBlockBelow(bs: seq<byte>, smallest: nat)
    ensures var r := ParseBlock(bs, smallest);
            r.NextRange? ==> r.range.smallest <= r.range.largest && r.range.largest + 1 < smallest
  {
  }

  lemma WellFormedPush(ranges: seq<AckRange>, r: AckRange)
    requires WellFormed(ranges) && r.smallest <= r.largest && r.largest + 1 < ranges[|ranges|-1].smallest
    ensures WellFormed(ranges + [r])
  {
  }

  /** The ranges that come out of the loop pass the final check, so every error in them is found while they are read. */
  lemma {:induction false} ParseBlocksWellFormed(bs: seq<byte>, ranges: seq<AckRange>, n: nat)
    requires WellFormed(ranges)
    ensures var r := ParseBlocks(bs, ranges, n);
            r.Ranges? ==> WellFormed(r.ranges) && |r.ranges| == |ranges| + n
    decreases n
  {
    hide ParseBlock;
    if n > 0 {
      var smallest := ranges[|ranges|-1].smallest;
      ParseBlockBelow(bs, smallest);
      var b := ParseBlock(bs, smallest);
      if b.NextRange? {
        WellFormedPush(ranges, b.range);
        ParseBlocksWellFormed(b.rest, ranges + [b.range], n - 1);
      }
    }
  }

  // ----- the round trip

  lemma ParseBlockBack(rs: seq<AckRange>, i: nat, rest: seq<byte>)
    requires Bounded(rs) && 0 < i < |rs|
    ensures ParseBlock(Block(rs, i) + rest, rs[i-1].smallest) == NextRange(rs[i], rest)
  {
    var g, e := WriteVarInt(Gap(rs, i)), WriteVarInt(Extent(rs[i]));
    assert Block(rs, i) + rest == g + (e + rest);
    ReadsBack(Gap(rs, i), e + rest);
    ReadsBack(Extent(rs[i]), rest);
  }

  lemma {:induction false} ParseBlocksBack(rs: seq<AckRange>, i: nat, n: nat, rest: seq<byte>)
    requires Bounded(rs) && 0 < i <= n <= |rs|
    ensures ParseBlocks(Blocks(rs, i, n) + rest, rs[..i], n - i) == Ranges(rs[..n], rest)
    decreases n - i
  {
    if i < n {
      var tail := Blocks(rs, i + 1, n) + rest;
      assert Blocks(rs, i, n) + rest == Block(rs, i) + tail;
      ParseBlockBack(rs, i, tail);
      assert rs[..i] + [rs[i]] == rs[..i+1];
      ParseBlocksBack(rs, i + 1, n, rest);
    } else {
      assert Blocks(rs, i, n) + rest == rest;
    }
  }

  lemma ParseBelowFirst(rs: seq<AckRange>, n: nat, rest: seq<byte>)
    requires Bounded(rs) && 0 < n <= |rs|
    ensures ParseBlocks(Blocks(rs, 1, n) + rest, [rs[0]], n-1) == Ranges(rs[..n], rest)
  {
    assert [rs[0]] == rs[..1];
    ParseBlocksBack(rs, 1, n, rest);
  }

  lemma ParseFirstBack(num: nat, extent: nat, tail: seq<byte>, ecn: bool, delay: nat, largest: nat)
    requires num <= MAX_VAR_INT_8 && extent <= MAX_VAR_INT_8
    ensures ParseFirst(WriteVarInt(num) + (WriteVarInt(extent) + tail), ecn, delay, largest) ==
            if extent <= largest then Head(ecn, delay, AckRange(largest - extent, largest), num, tail)
            else BadHead(InvalidFirstRange)
  {
    ReadsBack(num, WriteVarInt(extent) + tail);
    ReadsBack(extent, tail);
  }

  // The type byte and the four numbers that follow it, as both types of ACK frames have them.
  function HeadBytes(typ: byte, largest: nat, delay: nat, num: nat, extent: nat, tail: seq<byte>): seq<byte>
    requires largest <= MAX_VAR_INT_8 && delay <= MAX_VAR_INT_8 && num <= MAX_VAR_INT_8 && extent <= MAX_VAR_INT_8
  {
    [typ] + (WriteVarInt(largest) + (WriteVarInt(delay) + (WriteVarInt(num) + (WriteVarInt(extent) + tail))))
  }

  /** A first range that would begin below zero is refused, any other is read; type 3 means that ECN counts follow. */
  lemma ParseHeadBack(typ: byte, largest: nat, delay: nat, num: nat, extent: nat, tail: seq<byte>)
    requires typ == 2 || typ == 3
    requires largest <= MAX_VAR_INT_8 && delay <= MAX_VAR_INT_8 && num <= MAX_VAR_INT_8 && extent <= MAX_VAR_INT_8
    ensures ParseHead(HeadBytes(typ, largest, delay, num, extent, tail)) ==
            if extent <= largest then Head(typ == 3, delay, AckRange(largest - extent, largest), num, tail)
            else BadHead(InvalidFirstRange)
  {
    hide ReadVarInt, WriteVarInt;
    var afterDelay := WriteVarInt(num) + (WriteVarInt(extent) + tail);
    var afterLargest := WriteVarInt(delay) + afterDelay;
    assert ([typ] + (WriteVarInt(largest) + afterLargest))[1..] == WriteVarInt(largest) + afterLargest;
    ReadsBack(largest, afterLargest);
    ReadsBack(delay, afterDelay);
    ParseFirstBack(num, extent, tail, typ == 3, delay, largest);
  }

  /** The bytes of a frame of either type with its first n ranges; type 2 is what is written. */
  function Typed(typ: byte, f: AckFrame, n: nat, tail: seq<byte>): seq<byte>
    requires Writable(f) && 0 < n <= |f.ranges| && n <= MAX_VAR_INT_8
  {
    HeadBytes(typ, LargestAcked(f.ranges), EncodedDelay(f.delay), n-1, Extent(f.ranges[0]),
              Blocks(f.ranges, 1, n) + tail)
  }

  lemma EncodeParts(f: AckFrame, n: nat, rest: seq<byte>)
    requires Writable(f) && 0 < n <= |f.ranges| && n <= MAX_VAR_INT_8
    ensures Encode(f, n) + rest == Typed(2, f, n, rest)
  {
  }

  lemma DelayBack(delay: nat)
    requires delay < 0x8000_0000_0000_0000
    ensures DecodedDelay(EncodedDelay(delay), 3) == delay - delay % DELAY_UNIT
  {
    var d := EncodedDelay(delay);
    assert ShiftLeft(d, 1) == 2 * d;
    assert ShiftLeft(d, 3) == 8 * d;
  }

  /** The delay field counts units of 2^exponent microseconds: one more in the exponent doubles the delay. */
  lemma DelayScales(delay: nat, exponent: nat)
    ensures delay * 1000 < 0x8000_0000_0000_0000 ==> DecodedDelay(delay, 0) == delay * 1000
    ensures 0 <= DecodedDelay(delay, exponent) < 0x4000_0000_0000_0000 ==>
              DecodedDelay(delay, exponent + 1) == 2 * DecodedDelay(delay, exponent)
  {
    var x := ShiftLeft(delay, exponent) * 1000;
    assert ShiftLeft(delay, exponent + 1) * 1000 == 2 * x;
    hide ShiftLeft;
    WrapDoubles(x);
  }

  lemma WrapDoubles(x: int)
    ensures 0 <= Wrap64(x) < 0x4000_0000_0000_0000 ==> Wrap64(2 * x) == 2 * Wrap64(x)
  {
    var q := (x + 0x8000_0000_0000_0000) / 0x1_0000_0000_0000_0000;
    assert x == Wrap64(x) + q * 0x1_0000_0000_0000_0000;
    if 0 <= Wrap64(x) < 0x4000_0000_0000_0000 {
      var y := 2 * Wrap64(x) + 0x8000_0000_0000_0000;
      assert 2 * x + 0x8000_0000_0000_0000 == y + (2 * q) * 0x1_0000_0000_0000_0000;
      ModShift(y, 2 * q);
    }
  }

  lemma ModShift(y: int, q: int)
    requires 0 <= y < 0x1_0000_0000_0000_0000
    ensures (y + q * 0x1_0000_0000_0000_0000) % 0x1_0000_0000_0000_0000 == y
  {
  }

  // Up to the ECN counts both types are read alike.
  lemma ParseTyped(typ: byte, f: AckFrame, n: nat, tail: seq<byte>, exponent: nat)
    requires Writable(f) && 0 < n <= |f.ranges| && n <= MAX_VAR_INT_8 && (typ == 2 || typ == 3)
    ensures WellFormed(f.ranges[..n])
    ensures Parse(Typed(typ, f, n, tail), exponent) ==
              Finish(typ == 3, f.ranges[..n], DecodedDelay(EncodedDelay(f.delay), exponent), tail)
  {
    hide ParseHead, ParseBlocks, Finish;
    ParseHeadBack(typ, LargestAcked(f.ranges), EncodedDelay(f.delay), n-1, Extent(f.ranges[0]),
                  Blocks(f.ranges, 1, n) + tail);
    ParseBelowFirst(f.ranges, n, tail);
  }

  /** What is written is read back as the highest ranges, with the delay rounded down to eight microseconds. */
  lemma RoundTrip(f: AckFrame, n: nat, rest: seq<byte>)
    requires Writable(f) && 0 < n <= |f.ranges| && n <= MAX_VAR_INT_8
    ensures Parse(Encode(f, n) + rest, 3) == Parsed(AckFrame(f.ranges[..n], f.delay - f.delay % DELAY_UNIT), rest)
  {
    hide Parse, Typed;
    EncodeParts(f, n, rest);
    ParseTyped(2, f, n, rest, 3);
    DelayBack(f.delay);
  }

  function WriteAll(counts: seq<nat>): seq<byte>
    requires forall i :: 0 <= i < |counts| ==> counts[i] <= MAX_VAR_INT_8
  {
    if counts == [] then [] else WriteVarInt(counts[0]) + WriteAll(counts[1..])
  }

  lemma {:induction false} SkipsCounts(counts: seq<nat>, n: nat, rest: seq<byte>)
    requires forall i :: 0 <= i < |counts| ==> counts[i] <= MAX_VAR_INT_8
    requires |counts| <= n && (|counts| < n ==> ReadVarInt(rest).Eof?)
    ensures SkipVarInts(WriteAll(counts) + rest, n) == if |counts| == n then Ok((), rest) else Eof
    decreases n
  {
    if counts == [] {
      assert WriteAll(counts) + rest == rest;
    } else {
      var more := WriteAll(counts[1..]) + rest;
      assert WriteAll(counts) + rest == WriteVarInt(counts[0]) + more;
      hide ReadVarInt, WriteVarInt;
      ReadsBack(counts[0], more);
      SkipsCounts(counts[1..], n-1, rest);
    }
  }

  /** A frame of type 3 is read like one of type 2, for every exponent; three counts are passed over, and a frame that
      ends before the third one is refused. */
  lemma RoundTripEcn(f: AckFrame, n: nat, counts: seq<nat>, rest: seq<byte>, exponent: nat)
    requires Writable(f) && 0 < n <= |f.ranges| && n <= MAX_VAR_INT_8
    requires |counts| <= 3 && forall i :: 0 <= i < |counts| ==> counts[i] <= MAX_VAR_INT_8
    requires |counts| < 3 ==> ReadVarInt(rest).Eof?
    ensures Parse(Typed(2, f, n, rest), exponent) ==
              Parsed(AckFrame(f.ranges[..n], DecodedDelay(EncodedDelay(f.delay), exponent)), rest)
    ensures Parse(Typed(3, f, n, WriteAll(counts) + rest), exponent) ==
              if |counts| < 3 then Invalid(UnexpectedEof)
              else Parsed(AckFrame(f.ranges[..n], DecodedDelay(EncodedDelay(f.delay), exponent)), rest)
  {
    hide Parse, Typed, ReadVarInt, WriteAll, DecodedDelay;
    ParseTyped(2, f, n, rest, exponent);
    ParseTyped(3, f, n, WriteAll(counts) + rest, exponent);
    SkipsCounts(counts, 3, rest);
  }

  /** Ranges that run into the one before or below zero are refused, wherever they come. */
  lemma BadRangeRefused(typ: byte, f: AckFrame, n: nat, gap: nat, extent: nat, more: nat, tail: seq<byte>,
                        exponent: nat)
    requires Writable(f) && 0 < n <= |f.ranges| && n + more <= MAX_VAR_INT_8 && (typ == 2 || typ == 3)
    requires gap <= MAX_VAR_INT_8 && extent <= MAX_VAR_INT_8
    requires f.ranges[n-1].smallest < gap + 2 + extent
    ensures Parse(HeadBytes(typ, LargestAcked(f.ranges), EncodedDelay(f.delay), n + more, Extent(f.ranges[0]),
                            Blocks(f.ranges, 1, n) + (WriteVarInt(gap) + (WriteVarInt(extent) + tail))), exponent) ==
            Invalid(InvalidRanges)
  {
    hide ParseHead, ParseBlocks, ParseBlock, Finish, WriteVarInt, HeadBytes, DecodedDelay;
    var bad := WriteVarInt(gap) + (WriteVarInt(extent) + tail);
    BadBlockBack(f.ranges[n-1].smallest, gap, extent, tail);
    ParseHeadBack(typ, LargestAcked(f.ranges), EncodedDelay(f.delay), n + more, Extent(f.ranges[0]),
                  Blocks(f.ranges, 1, n) + bad);
    BadBlocks(f.ranges, 1, n, bad, more);
    assert [f.ranges[0]] == f.ranges[..1];
  }

  lemma BadBlockBack(smallest: nat, gap: nat, extent: nat, tail: seq<byte>)
    requires gap <= MAX_VAR_INT_8 && extent <= MAX_VAR_INT_8 && smallest < gap + 2 + extent
    ensures ParseBlock(WriteVarInt(gap) + (WriteVarInt(extent) + tail), smallest) == BadBlock(InvalidRanges)
  {
    ReadsBack(gap, WriteVarInt(extent) + tail);
    ReadsBack(extent, tail);
  }

  lemma {:induction false} BadBlocks(rs: seq<AckRange>, i: nat, n: nat, bad: seq<byte>, more: nat)
    requires Bounded(rs) && 0 < i <= n <= |rs| && ParseBlock(bad, rs[n-1].smallest) == BadBlock(InvalidRanges)
    ensures ParseBlocks(Blocks(rs, i, n) + bad, rs[..i], n - i + more + 1) == BadRanges(InvalidRanges)
    decreases n - i
  {
    hide ParseBlock, Block;
    if i < n {
      var tail := Blocks(rs, i + 1, n) + bad;
      assert Blocks(rs, i, n) + bad == Block(rs, i) + tail;
      ParseBlockBack(rs, i, tail);
      assert rs[..i] + [rs[i]] == rs[..i+1];
      BadBlocks(rs, i + 1, n, bad, more);
    } else {
      assert Blocks(rs, i, n) + bad == bad;
    }
  }

  /** The fields of a frame and their order, on an example: packets 10 to 20 and 28 to 30, received 40 microseconds ago,
      in bytes: type, largest number, delay, one further range, two more packets in the first, a gap of seven, ten
      more packets in the second. */
  lemma ExampleBytes()
    ensures var f := AckFrame([AckRange(28, 30), AckRange(10, 20)], 40_000);
            Writable(f) && Encode(f, 2) == [2, 30, 5, 1, 2, 6, 10]
  {
    var f := AckFrame([AckRange(28, 30), AckRange(10, 20)], 40_000);
    assert WellFormed(f.ranges);
    assert Blocks(f.ranges, 1, 2) == Block(f.ranges, 1) + Blocks(f.ranges, 2, 2);
    assert Block(f.ranges, 1) == [6, 10];
  }

  /** The ranges that are written acknowledge everything the frame does from the lowest written range up. */
  lemma WrittenCover(rs: seq<AckRange>, n: nat, pn: int)
    requires WellFormed(rs) && 0 < n <= |rs|
    ensures Covers(rs[..n], pn) <==> Covers(rs, pn) && rs[n-1].smallest <= pn
  {
  }

  // The loop of Write.
  method WriteBlocks(rs: seq<AckRange>, n: nat, front: seq<byte>) returns (bs: seq<byte>)
    requires Bounded(rs) && 0 < n <= |rs|
    ensures bs == front + Blocks(rs, 1, n)
  {
    hide Block;
    bs := front;
    var i := 1;
    while i < n
      invariant 0 < i <= n && bs == front + Blocks(rs, 1, i)
    {
      BlocksSnoc(rs, 1, i);
      bs := bs + Block(rs, i);
      i := i + 1;
    }
  }

  /** Write; its bytes are as many as Length says, and the peer reads the highest ranges from them. */
  method Write(f: AckFrame) returns (bs: seq<byte>)
    requires Writable(f)
    ensures var n := NumEncodable(f);
            && 0 < n <= |f.ranges| && n <= 500 && bs == Encode(f, n)
            && Parse(bs, 3) == Parsed(AckFrame(f.ranges[..n], f.delay - f.delay % DELAY_UNIT), [])
  {
    hide NumEncodable, Parse, Front, Blocks;
    NumEncodableIsMaximal(f);
    var numRanges := NumEncodableAckRanges(f);
    bs := WriteBlocks(f.ranges, numRanges, Front(f, numRanges));
    RoundTrip(f, numRanges, []);
    assert bs + [] == bs;
  }

  /** parseAckFrame's loop over the remaining ranges. */
  method ReadBlocks(bs: seq<byte>, first: AckRange, more: nat) returns (r: BlocksResult)
    ensures r == ParseBlocks(bs, [first], more)
  {
    var rest, ranges, smallest := bs, [first], first.smallest;
    for i := 0 to more
      invariant ranges != [] && smallest == ranges[|ranges|-1].smallest
      invariant ParseBlocks(rest, ranges, more - i) == ParseBlocks(bs, [first], more)
    {
      hide ParseBlock;
      var b := ParseBlock(rest, smallest);
      if b.BadBlock? {
        return BadRanges(b.error);
      }
      ranges, rest, smallest := ranges + [b.range], b.rest, b.range.smallest;
    }
    return Ranges(ranges, rest);
  }
}
