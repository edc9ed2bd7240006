/** Truncated packet numbers (internal/protocol/packet_number.go, section 17.1 of RFC 9000). */
module PacketNumbers {

  /** How many numbers an encoding of 1 to 4 bytes distinguishes. */
  function Epoch(len: nat): nat
    requires 1 <= len <= 4
  {
    if len == 1 then 0x100 else if len == 2 then 0x1_0000 else if len == 3 then 0x100_0000 else 0x1_0000_0000
  }

  function Delta(a: int, b: int): int {
    if a < b then b - a else a - b
  }

  function ClosestTo(target: int, a: int, b: int): int {
    if Delta(target, a) < Delta(target, b) then a else b
  }

  /** DecodePacketNumber. */
  function Decode(len: nat, last: nat, wire: nat): int
    requires 1 <= len <= 4
  {
    var epochDelta := Epoch(len);
    var epoch := last - last % epochDelta;
    var prevEpochBegin := if epoch > epochDelta then epoch - epochDelta else 0;
    var nextEpochBegin := epoch + epochDelta;
    ClosestTo(last + 1, epoch + wire, ClosestTo(last + 1, prevEpochBegin + wire, nextEpochBegin + wire))
  }

  /** What is written in the header: the low bytes. */
  function Truncated(pn: nat, len: nat): nat
    requires 1 <= len <= 4
  {
    pn % Epoch(len)
  }

  /** GetPacketNumberLengthForHeader: the shortest of two to four bytes that keeps the distance below half an epoch; a
      negative difference wraps around and asks for four bytes. */
  function LengthForHeader(pn: int, leastUnacked: int): (len: nat)
    ensures 2 <= len <= 4
    ensures len < 4 ==> leastUnacked <= pn && 2 * (pn - leastUnacked) < Epoch(len)
    ensures 2 < len && leastUnacked <= pn ==> Epoch(len - 1) <= 2 * (pn - leastUnacked)
  {
    var diff := pn - leastUnacked;
    if 0 <= diff < 0x8000 then 2 else if 0 <= diff < 0x80_0000 then 3 else 4
  }

  // pn lies in the epoch that begins at `epoch`, or in one beside it.
  predicate Beside(d: nat, pn: int, epoch: int, wire: int) {
    && 0 <= wire < d && (epoch == 0 || d <= epoch)
    && (pn == epoch + wire || (d <= epoch && pn == epoch - d + wire) || pn == epoch + d + wire)
  }

  // Among the candidates the closest is pn.
  lemma Closest(d: nat, pn: int, last: nat, epoch: int, wire: int)
    requires 2 * Delta(last + 1, pn) < d && Beside(d, pn, epoch, wire)
    ensures var prev := if epoch > d then epoch - d else 0;
            ClosestTo(last + 1, epoch + wire, ClosestTo(last + 1, prev + wire, epoch + d + wire)) == pn
  {
  }

  lemma Near1(pn: nat, last: nat)
    requires 2 * Delta(last + 1, pn) < 0x100
    ensures Beside(0x100, pn, last - last % 0x100, pn % 0x100)
  {
  }

  lemma Decodes1(pn: nat, last: nat)
    requires 2 * Delta(last + 1, pn) < 0x100
    ensures Decode(1, last, Truncated(pn, 1)) == pn
  {
    hide ClosestTo, Beside, Delta;
    Near1(pn, last);
    Closest(0x100, pn, last, last - last % 0x100, pn % 0x100);
  }

  lemma Near2(pn: nat, last: nat)
    requires 2 * Delta(last + 1, pn) < 0x1_0000
    ensures Beside(0x1_0000, pn, last - last % 0x1_0000, pn % 0x1_0000)
  {
  }

  lemma Decodes2(pn: nat, last: nat)
    requires 2 * Delta(last + 1, pn) < 0x1_0000
    ensures Decode(2, last, Truncated(pn, 2)) == pn
  {
    hide ClosestTo, Beside, Delta;
    Near2(pn, last);
    Closest(0x1_0000, pn, last, last - last % 0x1_0000, pn % 0x1_0000);
  }

  lemma Near3(pn: nat, last: nat)
    requires 2 * Delta(last + 1, pn) < 0x100_0000
    ensures Beside(0x100_0000, pn, last - last % 0x100_0000, pn % 0x100_0000)
  {
  }

  lemma Decodes3(pn: nat, last: nat)
    requires 2 * Delta(last + 1, pn) < 0x100_0000
    ensures Decode(3, last, Truncated(pn, 3)) == pn
  {
    hide ClosestTo, Beside, Delta;
    Near3(pn, last);
    Closest(0x100_0000, pn, last, last - last % 0x100_0000, pn % 0x100_0000);
  }

  lemma Near4(pn: nat, last: nat)
    requires 2 * Delta(last + 1, pn) < 0x1_0000_0000
    ensures Beside(0x1_0000_0000, pn, last - last % 0x1_0000_0000, pn % 0x1_0000_0000)
  {
  }

  lemma Decodes4(pn: nat, last: nat)
    requires 2 * Delta(last + 1, pn) < 0x1_0000_0000
    ensures Decode(4, last, Truncated(pn, 4)) == pn
  {
    hide ClosestTo, Beside, Delta;
    Near4(pn, last);
    Closest(0x1_0000_0000, pn, last, last - last % 0x1_0000_0000, pn % 0x1_0000_0000);
  }

  /** The number is recovered if it is less than half an epoch away from the number expected next. */
  lemma DecodesNear(len: nat, pn: nat, last: nat)
    requires 1 <= len <= 4
    requires 2 * Delta(last + 1, pn) < Epoch(len)
    ensures Decode(len, last, Truncated(pn, len)) == pn
  {
    hide Decode, Truncated;
    match len {
      case 1 => Decodes1(pn, last);
      case 2 => Decodes2(pn, last);
      case 3 => Decodes3(pn, last);
      case 4 => Decodes4(pn, last);
    }
  }

  /** With the length chosen from the least unacked packet, the peer recovers the number, provided it has received up to
      there and has not run ahead of the packet by half an epoch. */
  lemma TruncationRoundTrip(pn: nat, leastUnacked: int, last: nat)
    requires pn - leastUnacked < 0x8000_0000
    requires leastUnacked - 1 <= last
    requires 2 * (last + 1 - pn) < Epoch(LengthForHeader(pn, leastUnacked))
    ensures var len := LengthForHeader(pn, leastUnacked);
            Decode(len, last, Truncated(pn, len)) == pn
  {
    DecodesNear(LengthForHeader(pn, leastUnacked), pn, last);
  }

  // Numbers with the same low bytes are an epoch apart.
  predicate Apart(d: nat, n: int, epoch: int, wire: int) {
    0 <= n && (n <= epoch - d + wire || n == epoch + wire || epoch + d + wire <= n)
  }

  lemma {:induction false} Multiples(d: nat, k: int, l: int)
    ensures k < l ==> k * d + d <= l * d
    decreases l - k
  {
    if k < l {
      assert l * d == (l - 1) * d + d;
      Multiples(d, k, l - 1);
    }
  }

  lemma Quotient(d: nat, n: nat) returns (k: nat, rest: nat)
    requires 0 < d
    ensures n == k * d + rest && rest == n % d < d
  {
    k, rest := n / d, n % d;
  }

  // The other way round, a number is put together from its epoch and its low bytes.
  lemma LowBytesOf(d: nat, q: int, wire: nat)
    requires wire < d && 0 <= q * d + wire
    ensures (q * d + wire) % d == wire
  {
    var k, rest := Quotient(d, q * d + wire);
    Multiples(d, k, q);
    Multiples(d, q, k);
  }

  lemma SameLowBytes(d: nat, last: nat, n: nat)
    requires 0 < d
    ensures Apart(d, n, last - last % d, n % d)
    ensures var epoch := last - last % d; 0 <= epoch <= last < epoch + d && (epoch == 0 || d <= epoch)
  {
    var k, wire := Quotient(d, n);
    var l, rest := Quotient(d, last);
    Multiples(d, k, l);
    Multiples(d, l, k);
    Multiples(d, 0, l);
  }

  // Among the candidates the closest is at least as close as any other number with these low bytes.
  lemma NoneCloser(d: nat, last: nat, epoch: int, wire: int, n: int)
    requires 0 <= wire < d && 0 <= epoch <= last < epoch + d && (epoch == 0 || d <= epoch) && Apart(d, n, epoch, wire)
    ensures var prev := if epoch > d then epoch - d else 0;
            var r := ClosestTo(last + 1, epoch + wire, ClosestTo(last + 1, prev + wire, epoch + d + wire));
            Delta(last + 1, r) <= Delta(last + 1, n) && Beside(d, r, epoch, wire)
  {
  }

  lemma BesideLowBytes(d: nat, r: int, last: nat, wire: nat)
    requires 0 < d && Beside(d, r, last - last % d, wire)
    ensures 0 <= r && r % d == wire
  {
    var l, rest := Quotient(d, last);
    var q := if r == l * d + wire then l else if r < l * d + wire then l - 1 else l + 1;
    assert r == q * d + wire;
    LowBytesOf(d, q, wire);
  }

  /** Whatever is decoded has the low bytes that were sent, and no number that has them is closer to the one expected
      next. */
  lemma DecodesClosest(len: nat, last: nat, n: nat)
    requires 1 <= len <= 4
    ensures var r := Decode(len, last, Truncated(n, len));
            0 <= r && r % Epoch(len) == Truncated(n, len) && Delta(last + 1, r) <= Delta(last + 1, n)
  {
    hide ClosestTo, Beside, Delta, Apart;
    var epoch := last - last % Epoch(len);
    SameLowBytes(Epoch(len), last, n);
    NoneCloser(Epoch(len), last, epoch, n % Epoch(len), n);
    BesideLowBytes(Epoch(len), Decode(len, last, Truncated(n, len)), last, n % Epoch(len));
  }
}
