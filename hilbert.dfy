/** Hilbert-curve rank of a point on a 2^n x 2^n grid, written over 32-bit
    machine words exactly as the source computes it (common.go:3-78). */
module Hilbert {

  /** Go's `x << s` on uint32: a shift by 32 or more yields 0. */
  function ShiftLeft(x: bv32, s: bv32): bv32
  {
    if s < 32 then x << s else 0
  }

  /** Go's `x >> s` on uint32: a shift by 32 or more yields 0. */
  function ShiftRight(x: bv32, s: bv32): bv32
  {
    if s < 32 then x >> s else 0
  }

  /** Bit k of v, as 0 or 1. */
  function Bit(v: bv32, k: bv32): bv32
    requires k < 32
  {
    (v >> k) & 1
  }

  /** Spreads the low 16 bits of x onto the even bit positions. */
  function Interleave(x: bv32): (r: bv32)
    ensures r & 0xAAAA_AAAA == 0
  {
    var x1 := (x | (x << 8)) & 0x00FF_00FF;
    var x2 := (x1 | (x1 << 4)) & 0x0F0F_0F0F;
    var x3 := (x2 | (x2 << 2)) & 0x3333_3333;
    (x3 | (x3 << 1)) & 0x5555_5555
  }

  /** For a 16-bit x, bit 2k of Interleave(x) is bit k of x. */
  lemma InterleaveBits(x: bv32)
    requires x < 0x1_0000
    ensures forall k: bv32 :: k < 16 ==> Bit(Interleave(x), 2 * k) == Bit(x, k)
  {
  }

  /** The inverse of Interleave: gathers the even bits back into the low 16
      bits. It is not part of the source; it is the inverse of Interleave on
      16-bit inputs. */
  function Deinterleave(z: bv32): bv32
  {
    var z0 := z & 0x5555_5555;
    var z1 := (z0 | (z0 >> 1)) & 0x3333_3333;
    var z2 := (z1 | (z1 >> 2)) & 0x0F0F_0F0F;
    var z3 := (z2 | (z2 >> 4)) & 0x00FF_00FF;
    (z3 | (z3 >> 8)) & 0x0000_FFFF
  }

  lemma InterleaveRoundTrip(x: bv32)
    requires x < 0x1_0000
    ensures Deinterleave(Interleave(x)) == x
  {
  }

  /** Interleave is one-to-one on 16-bit inputs. */
  lemma InterleaveInjective(x: bv32, y: bv32)
    requires x < 0x1_0000 && y < 0x1_0000
    requires Interleave(x) == Interleave(y)
    ensures x == y
  {
    InterleaveRoundTrip(x);
    InterleaveRoundTrip(y);
  }

  /** The four prefix-scan words (A, B, C, D) of the Hilbert transform. */
  datatype Scan = Scan(a: bv32, b: bv32, c: bv32, d: bv32)

  /** The initial round, primed with the (already aligned) coordinates. */
  function PrimeScan(x: bv32, y: bv32): Scan
  {
    var a := x ^ y;
    var b := 0xFFFF ^ a;
    var c := 0xFFFF ^ (x | y);
    var d := x & (y ^ 0xFFFF);
    Scan(a | (b >> 1),
         (a >> 1) ^ a,
         ((c >> 1) ^ (b & (d >> 1))) ^ c,
         ((a & (c >> 1)) ^ (d >> 1)) ^ d)
  }

  /** One middle round of the prefix scan at distance s (2, then 4). */
  function ScanRound(p: Scan, s: bv32): Scan
    requires s < 32
  {
    var (a, b, c, d) := (p.a, p.b, p.c, p.d);
    Scan((a & (a >> s)) ^ (b & (b >> s)),
         (a & (b >> s)) ^ (b & ((a ^ b) >> s)),
         c ^ ((a & (c >> s)) ^ (b & (d >> s))),
         d ^ ((b & (c >> s)) ^ ((a ^ b) & (d >> s))))
  }

  /** The final round at distance 8: only C and D are still needed. */
  function FinalRound(p: Scan): Scan
  {
    var (a, b, c, d) := (p.a, p.b, p.c, p.d);
    Scan(a, b,
         c ^ ((a & (c >> 8)) ^ (b & (d >> 8))),
         d ^ ((b & (c >> 8)) ^ ((a ^ b) & (d >> 8))))
  }

  /** The full 32-bit rank before the final shift to n bits per axis. */
  function RawIndex(x: bv32, y: bv32): (r: bv32)
    ensures x < 0x1_0000 && y < 0x1_0000 ==> r & 0x5555_5555 == Interleave(x ^ y)
  {
    var p := FinalRound(ScanRound(ScanRound(PrimeScan(x, y), 2), 4));
    var a := p.c ^ (p.c >> 1);
    var b := p.d ^ (p.d >> 1);
    var i0 := x ^ y;
    var i1 := b | (0xFFFF ^ (i0 | a));
    (Interleave(i1) << 1) | Interleave(i0)
  }

  /** Rank of (x, y) along the order-n Hilbert curve, with Go's uint32
      wrap-around in `16 - n` and `32 - 2*n` and Go's shift semantics. */
  function HilbertXYToIndex(n: bv32, x: bv32, y: bv32): (r: bv32)
    ensures 1 <= n <= 16 ==> (r as bv64) < (1 as bv64) << (2 * n as bv64)
    ensures n == 16 && x < 0x1_0000 && y < 0x1_0000 ==>
              r & 0x5555_5555 == Interleave(x ^ y)
  {
    var x' := ShiftLeft(x, 16 - n);
    var y' := ShiftLeft(y, 16 - n);
    ShiftRight(RawIndex(x', y'), 32 - 2 * n)
  }

  /** At order 16 the rank determines x ^ y: its even bits are exactly the
      interleaved x ^ y, and Deinterleave recovers it. */
  lemma EvenBitsRecoverXor(x: bv32, y: bv32)
    requires x < 0x1_0000 && y < 0x1_0000
    ensures Deinterleave(HilbertXYToIndex(16, x, y) & 0x5555_5555) == x ^ y
  {
    InterleaveRoundTrip(x ^ y);
  }

  /** At order 1 the four cells are visited in the curve's U shape:
      (0,0), (0,1), (1,1), (1,0). */
  lemma OrderOneRanks()
    ensures HilbertXYToIndex(1, 0, 0) == 0 && HilbertXYToIndex(1, 0, 1) == 1
    ensures HilbertXYToIndex(1, 1, 1) == 2 && HilbertXYToIndex(1, 1, 0) == 3
  {
  }

  /** At order 2 distinct cells of the 4 x 4 grid get distinct ranks. */
  lemma OrderTwoInjective(x1: bv32, y1: bv32, x2: bv32, y2: bv32)
    requires x1 < 4 && y1 < 4 && x2 < 4 && y2 < 4
    requires HilbertXYToIndex(2, x1, y1) == HilbertXYToIndex(2, x2, y2)
    ensures x1 == x2 && y1 == y2
  {
  }

  /** At order 4 distinct cells of the 16 x 16 grid get distinct ranks. */
  lemma OrderFourInjective(x1: bv32, y1: bv32, x2: bv32, y2: bv32)
    requires x1 < 16 && y1 < 16 && x2 < 16 && y2 < 16
    requires HilbertXYToIndex(4, x1, y1) == HilbertXYToIndex(4, x2, y2)
    ensures x1 == x2 && y1 == y2
  {
  }
}
