/** QUIC variable-length integers (internal/utils/varint.go). */
module VarInts {
  import opened Bytes

  const MAX_VAR_INT_1 := 63
  const MAX_VAR_INT_2 := 16383
  const MAX_VAR_INT_4 := 1073741823
  const MAX_VAR_INT_8 := 4611686018427387903

  datatype Read<T> = Ok(value: T, rest: seq<byte>) | Eof

  /** VarIntLen; the source panics above MAX_VAR_INT_8. */
  function VarIntLen(i: nat): (n: nat)
    requires i <= MAX_VAR_INT_8
  {
    if i <= MAX_VAR_INT_1 then 1 else if i <= MAX_VAR_INT_2 then 2 else if i <= MAX_VAR_INT_4 then 4 else 8
  }

  // What n bytes hold whose first one carries a two-bit prefix.
  function Limit(n: nat): nat
    requires 0 < n
  {
    if n == 1 then 64 else 256 * Limit(n-1)
  }

  // The length in bytes that the two high bits of the first byte stand for.
  function LengthOf(prefix: nat): (n: nat)
    requires prefix < 4
    ensures 0 < n
  {
    if prefix == 0 then 1 else if prefix == 1 then 2 else if prefix == 2 then 4 else 8
  }

  function PrefixOf(i: nat): (p: nat)
    requires i <= MAX_VAR_INT_8
    ensures p < 4
  {
    if i <= MAX_VAR_INT_1 then 0 else if i <= MAX_VAR_INT_2 then 1 else if i <= MAX_VAR_INT_4 then 2 else 3
  }

  lemma Limits()
    ensures Limit(1) == MAX_VAR_INT_1 + 1 && Limit(2) == MAX_VAR_INT_2 + 1 && Limit(4) == MAX_VAR_INT_4 + 1 &&
              Limit(8) == MAX_VAR_INT_8 + 1
  {
    assert Limit(6) == 256 * 256 * Limit(4);
  }

  lemma FitsLength(i: nat)
    requires i <= MAX_VAR_INT_8
    ensures LengthOf(PrefixOf(i)) == VarIntLen(i) && i < Limit(VarIntLen(i))
  {
    Limits();
  }

  // n bytes, most significant first, the prefix in the two high bits.
  function Digits(i: nat, n: nat, prefix: nat): (bs: seq<byte>)
    requires 0 < n && i < Limit(n) && prefix < 4
    ensures |bs| == n
    decreases n
  {
    if n == 1 then [i + 64 * prefix] else Digits(i / 256, n-1, prefix) + [i % 256]
  }

  function Value(bs: seq<byte>, n: nat): (v: nat)
    requires 0 < n <= |bs|
    ensures v < Limit(n)
    decreases n
  {
    if n == 1 then bs[0] % 64 else 256 * Value(bs, n-1) + bs[n-1]
  }

  function WriteVarInt(i: nat): (bs: seq<byte>)
    requires i <= MAX_VAR_INT_8
    ensures |bs| == VarIntLen(i)
  {
    FitsLength(i);
    Digits(i, VarIntLen(i), PrefixOf(i))
  }

  function ReadVarInt(bs: seq<byte>): Read<nat> {
    if bs == [] then Eof
    else
      var n := LengthOf(bs[0] / 64);
      if |bs| < n then Eof else Ok(Value(bs, n), bs[n..])
  }

  lemma {:induction false} DigitsBack(i: nat, n: nat, prefix: nat, rest: seq<byte>)
    requires 0 < n && i < Limit(n) && prefix < 4
    ensures var bs := Digits(i, n, prefix) + rest; bs[0] / 64 == prefix && Value(bs, n) == i && bs[n..] == rest
    decreases n
  {
    if n > 1 {
      var more := [i % 256] + rest;
      DigitsBack(i / 256, n-1, prefix, more);
      assert Digits(i, n, prefix) + rest == Digits(i / 256, n-1, prefix) + more;
    }
  }

  /** Reading what was written gives the number back, whatever follows. */
  lemma ReadsBack(i: nat, rest: seq<byte>)
    requires i <= MAX_VAR_INT_8
    ensures ReadVarInt(WriteVarInt(i) + rest) == Ok(i, rest)
  {
    FitsLength(i);
    DigitsBack(i, VarIntLen(i), PrefixOf(i), rest);
  }

  function At(bs: seq<byte>, i: nat): int
    requires i < |bs|
  {
    bs[i]
  }

  /** The bytes themselves (section 16 of RFC 9000): the two high bits of the first byte give the length, 1, 2, 4 or 8,
      and the rest is the number, most significant byte first, whether or not it needs that many bytes. */
  lemma ReadIs(bs: seq<byte>)
    ensures bs == [] ==> ReadVarInt(bs).Eof?
    ensures bs != [] && bs[0] < 64 ==> ReadVarInt(bs) == Ok(bs[0], bs[1..])
    ensures bs != [] && 64 <= bs[0] < 128 ==>
              ReadVarInt(bs) == if |bs| < 2 then Eof else Ok((At(bs, 0) - 64) * 0x100 + At(bs, 1), bs[2..])
    ensures bs != [] && 128 <= bs[0] < 192 ==>
              ReadVarInt(bs) ==
              if |bs| < 4 then Eof
              else Ok((At(bs, 0) - 128) * 0x100_0000 + At(bs, 1) * 0x1_0000 + At(bs, 2) * 0x100 + At(bs, 3), bs[4..])
    ensures bs != [] && 192 <= bs[0] ==>
              ReadVarInt(bs) ==
              if |bs| < 8 then Eof
              else Ok((At(bs, 0) - 192) * 0x100_0000_0000_0000 + At(bs, 1) * 0x1_0000_0000_0000 +
                      At(bs, 2) * 0x100_0000_0000 + At(bs, 3) * 0x1_0000_0000 +
                      At(bs, 4) * 0x100_0000 + At(bs, 5) * 0x1_0000 + At(bs, 6) * 0x100 + At(bs, 7), bs[8..])
  {
    if bs != [] && |bs| >= LengthOf(bs[0] / 64) {
      Unrolled(bs);
    }
  }

  lemma Unrolled(bs: seq<byte>)
    requires bs != [] && |bs| >= LengthOf(bs[0] / 64)
    ensures Value(bs, 1) == At(bs, 0) % 64
    ensures |bs| >= 2 ==> Value(bs, 2) == 0x100 * (At(bs, 0) % 64) + At(bs, 1)
    ensures |bs| >= 4 ==>
              Value(bs, 4) == 0x100_0000 * (At(bs, 0) % 64) + 0x1_0000 * At(bs, 1) + 0x100 * At(bs, 2) + At(bs, 3)
    ensures |bs| >= 8 ==>
              Value(bs, 8) == 0x1_0000_0000 * Value(bs, 4) +
                              0x100_0000 * At(bs, 4) + 0x1_0000 * At(bs, 5) + 0x100 * At(bs, 6) + At(bs, 7)
  {
    if |bs| >= 4 {
      assert Value(bs, 3) == 0x1_0000 * (At(bs, 0) % 64) + 0x100 * At(bs, 1) + At(bs, 2);
    }
    if |bs| >= 8 {
      assert Value(bs, 6) == 0x1_0000 * Value(bs, 4) + 0x100 * At(bs, 4) + At(bs, 5);
      assert Value(bs, 7) == 0x100 * Value(bs, 6) + At(bs, 6);
    }
  }

  /** A number that is cut off is not read. */
  lemma ReadsNoPart(i: nat, k: nat)
    requires i <= MAX_VAR_INT_8 && k < VarIntLen(i)
    ensures ReadVarInt(WriteVarInt(i)[..k]) == Eof
  {
    FitsLength(i);
    DigitsBack(i, VarIntLen(i), PrefixOf(i), []);
    assert WriteVarInt(i) + [] == WriteVarInt(i);
  }

  /** What a reader gets never exceeds 62 bits. */
  lemma ReadBound(bs: seq<byte>)
    ensures ReadVarInt(bs).Ok? ==> ReadVarInt(bs).value <= MAX_VAR_INT_8
  {
    Limits();
  }
}
