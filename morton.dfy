/**
 * Morton (Z-order) codes of the Gaussian-splatting reader: each coordinate
 * is scaled by 1024, clamped to [0, 1023] and truncated to an integer, and
 * the three 10-bit integers are interleaved into one 30-bit code, the x bit
 * highest in each group of three, then y, then z. The bit arithmetic is on
 * 32-bit unsigned integers (`bv32`), multiplications wrapping as in C++.
 */
module Morton {

  /** Bits 0, 3, 6, ..., 27: the only bits `ExpandBits` may set. */
  const SpreadMask: bv32 := 0x0924_9249

  /**
   * Spreads the low 10 bits of `v` so that bit k lands at bit 3k, by four
   * wrapping multiply-and-mask steps; for a 10-bit input this is the
   * reference spreading `Spread`.
   */
  function ExpandBits(v: bv32): (r: bv32)
    ensures v < 1024 ==> r == Spread(v)
  {
    var v1 := (v * 0x0001_0001) & 0xFF00_00FF;
    var v2 := (v1 * 0x0000_0101) & 0x0F00_F00F;
    var v3 := (v2 * 0x0000_0011) & 0xC30C_30C3;
    (v3 * 0x0000_0005) & 0x4924_9249
  }

  /** Bit `k` of `v`, as 0 or 1. */
  function Bit(v: bv32, k: nat): bv32
    requires k < 32
  {
    (v >> k) & 1
  }

  /** Reference definition of the spreading: bit k of the low 10 bits of `v`, moved to bit 3k. */
  function Spread(v: bv32): bv32
  {
    (v & 0x001)
    | ((v & 0x002) << 2)
    | ((v & 0x004) << 4)
    | ((v & 0x008) << 6)
    | ((v & 0x010) << 8)
    | ((v & 0x020) << 10)
    | ((v & 0x040) << 12)
    | ((v & 0x080) << 14)
    | ((v & 0x100) << 16)
    | ((v & 0x200) << 18)
  }

  /** Inverse of the spreading: gathers bits 0, 3, ..., 27 of `v` into its low 10 bits. */
  function CompactBits(v: bv32): bv32
  {
    var v0 := v & SpreadMask;
    var v1 := (v0 ^ (v0 >> 2)) & 0x030C_30C3;
    var v2 := (v1 ^ (v1 >> 4)) & 0x0300_F00F;
    var v3 := (v2 ^ (v2 >> 8)) & 0xFF00_00FF;
    (v3 ^ (v3 >> 16)) & 0x0000_03FF
  }

  /**
   * The multiply-and-mask cascade computes the spreading for every 10-bit
   * input: nothing is set outside bits 3k, and compacting gives `v` back.
   */
  lemma ExpandBitsSpreads(v: bv32)
    requires v < 1024
    ensures ExpandBits(v) == Spread(v)
    ensures ExpandBits(v) & !SpreadMask == 0
    ensures CompactBits(ExpandBits(v)) == v
  {
  }

  /** Bit k of a 10-bit `v` is bit 3k of `ExpandBits(v)`. */
  lemma {:induction false} ExpandBitsAt(v: bv32, k: nat)
    requires v < 1024 && k < 10
    ensures Bit(ExpandBits(v), 3 * k) == Bit(v, k)
  {
    ExpandBitsSpreads(v);
    if k == 0 {
    } else if k == 1 {
    } else if k == 2 {
    } else if k == 3 {
    } else if k == 4 {
    } else if k == 5 {
    } else if k == 6 {
    } else if k == 7 {
    } else if k == 8 {
    } else {
    }
  }

  /** The quantised coordinate: `x * 1024` clamped to [0, 1023], then truncated to an integer. */
  function QuantizeInt(x: real): (q: int)
    ensures 0 <= q < 1024
  {
    var scaled := x * 1024.0;
    var clamped := if scaled < 0.0 then 0.0 else if scaled > 1023.0 then 1023.0 else scaled;
    clamped.Floor
  }

  /** The quantised coordinate as the 32-bit unsigned integer the cast produces. */
  function Quantize(x: real): (q: bv32)
    ensures q < 1024
  {
    QuantizeInt(x) as bv32
  }

  /** Coordinates outside [0, 1) are clamped, inside they are scaled and truncated, never otherwise rescaled. */
  lemma QuantizeClamps(x: real)
    ensures x <= 0.0 ==> QuantizeInt(x) == 0
    ensures x >= 1023.0 / 1024.0 ==> QuantizeInt(x) == 1023
    ensures 0.0 <= x < 1.0 ==> QuantizeInt(x) == (x * 1024.0).Floor
  {
  }

  /**
   * The code of three quantised coordinates (32-bit arithmetic): for 10-bit
   * inputs, x's spread bits shifted up by 2, y's by 1 and z's in place.
   */
  function Interleave(xq: bv32, yq: bv32, zq: bv32): (r: bv32)
    ensures xq < 1024 && yq < 1024 && zq < 1024 ==> r == (Spread(xq) << 2) | (Spread(yq) << 1) | Spread(zq)
  {
    ExpandBits(xq) * 4 + ExpandBits(yq) * 2 + ExpandBits(zq)
  }

  /** The code of one point: its three coordinates quantised, then interleaved. */
  function Morton3D(x: real, y: real, z: real): (code: bv32)
    ensures code < 1 << 30
  {
    MortonBounded(Quantize(x), Quantize(y), Quantize(z));
    Interleave(Quantize(x), Quantize(y), Quantize(z))
  }

  /** The three spread values occupy disjoint bits, so the code is below 2^30 and is their bitwise union. */
  lemma MortonBounded(xq: bv32, yq: bv32, zq: bv32)
    requires xq < 1024 && yq < 1024 && zq < 1024
    ensures Interleave(xq, yq, zq) == (Spread(xq) << 2) | (Spread(yq) << 1) | Spread(zq)
    ensures Interleave(xq, yq, zq) < 1 << 30
  {
    ExpandBitsSpreads(xq);
    ExpandBitsSpreads(yq);
    ExpandBitsSpreads(zq);
  }

  /**
   * Bit layout of the code: masked to bits 3k, the code shifted right by 2
   * is the spreading of x, shifted by 1 that of y, unshifted that of z. With
   * `ExpandBitsAt`, x bit k sits at bit 3k+2, y bit k at 3k+1 and z bit k at 3k.
   */
  lemma MortonLayout(xq: bv32, yq: bv32, zq: bv32)
    requires xq < 1024 && yq < 1024 && zq < 1024
    ensures (Interleave(xq, yq, zq) >> 2) & SpreadMask == Spread(xq)
    ensures (Interleave(xq, yq, zq) >> 1) & SpreadMask == Spread(yq)
    ensures Interleave(xq, yq, zq) & SpreadMask == Spread(zq)
  {
    MortonBounded(xq, yq, zq);
    ExpandBitsSpreads(xq);
    ExpandBitsSpreads(yq);
    ExpandBitsSpreads(zq);
  }

  /** Recovers the three quantised coordinates from a code. */
  function Deinterleave(code: bv32): (bv32, bv32, bv32)
  {
    (CompactBits(code >> 2), CompactBits(code >> 1), CompactBits(code))
  }

  /** Decoding a code gives back the quantised coordinates it was made from. */
  lemma {:induction false} DeinterleaveInterleave(xq: bv32, yq: bv32, zq: bv32)
    requires xq < 1024 && yq < 1024 && zq < 1024
    ensures Deinterleave(Interleave(xq, yq, zq)) == (xq, yq, zq)
  {
    MortonBounded(xq, yq, zq);
    ExpandBitsSpreads(xq);
    ExpandBitsSpreads(yq);
    ExpandBitsSpreads(zq);
  }

  /** Two points share a code exactly when their quantised coordinates agree. */
  lemma {:induction false} MortonSameCode(x1: real, y1: real, z1: real, x2: real, y2: real, z2: real)
    ensures Morton3D(x1, y1, z1) == Morton3D(x2, y2, z2)
        <==> (Quantize(x1), Quantize(y1), Quantize(z1)) == (Quantize(x2), Quantize(y2), Quantize(z2))
  {
    DeinterleaveInterleave(Quantize(x1), Quantize(y1), Quantize(z1));
    DeinterleaveInterleave(Quantize(x2), Quantize(y2), Quantize(z2));
  }

  /** Setting bit 0 of an even 10-bit value sets bit 0 of its spreading and nothing else. */
  lemma SpreadLowestBit(v: bv32)
    requires v < 1024 && v & 1 == 0
    ensures Spread(v + 1) == Spread(v) + 1
  {
  }

  /** Setting the lowest bit of an even 10-bit value raises its expansion by one. */
  lemma ExpandBitsLowestBit(v: bv32)
    requires v < 1024 && v & 1 == 0
    ensures ExpandBits(v + 1) == ExpandBits(v) + 1
  {
    ExpandBitsSpreads(v);
    ExpandBitsSpreads(v + 1);
    SpreadLowestBit(v);
  }

  /** Raising one operand of the weighted sum by one raises the sum by that operand's weight (mod 2^32). */
  lemma WeightedStep(e: bv32, e1: bv32, u: bv32, w: bv32)
    requires e1 == e + 1
    ensures e1 * 4 + u * 2 + w == (e * 4 + u * 2 + w) + 4
    ensures u * 4 + e1 * 2 + w == (u * 4 + e * 2 + w) + 2
    ensures u * 4 + w * 2 + e1 == (u * 4 + w * 2 + e) + 1
  {
  }

  /** Setting the lowest bit of an even quantised x raises the code by 4. */
  lemma MortonStepX(xq: bv32, yq: bv32, zq: bv32)
    requires xq < 1024 && xq & 1 == 0
    ensures Interleave(xq + 1, yq, zq) == Interleave(xq, yq, zq) + 4
  {
    ExpandBitsLowestBit(xq);
    WeightedStep(ExpandBits(xq), ExpandBits(xq + 1), ExpandBits(yq), ExpandBits(zq));
  }

  /** Setting the lowest bit of an even quantised y raises the code by 2. */
  lemma MortonStepY(xq: bv32, yq: bv32, zq: bv32)
    requires yq < 1024 && yq & 1 == 0
    ensures Interleave(xq, yq + 1, zq) == Interleave(xq, yq, zq) + 2
  {
    ExpandBitsLowestBit(yq);
    WeightedStep(ExpandBits(yq), ExpandBits(yq + 1), ExpandBits(xq), ExpandBits(zq));
  }

  /** Setting the lowest bit of an even quantised z raises the code by 1. */
  lemma MortonStepZ(xq: bv32, yq: bv32, zq: bv32)
    requires zq < 1024 && zq & 1 == 0
    ensures Interleave(xq, yq, zq + 1) == Interleave(xq, yq, zq) + 1
  {
    ExpandBitsLowestBit(zq);
    WeightedStep(ExpandBits(zq), ExpandBits(zq + 1), ExpandBits(xq), ExpandBits(yq));
  }

  /**
   * One code per point, computed from that point's own coordinates only
   * (the columns `y` and `z` are read at the indices of `x`).
   */
  method ComputeMortonCodes(x: seq<real>, y: seq<real>, z: seq<real>) returns (codes: seq<bv32>)
    requires |y| >= |x| && |z| >= |x|
    ensures |codes| == |x|
    ensures forall j :: 0 <= j < |x| ==> codes[j] == Morton3D(x[j], y[j], z[j])
  {
    var nbPts := |x|;
    var buffer := new bv32[nbPts];
    for j := 0 to nbPts
      invariant forall i :: 0 <= i < j ==> buffer[i] == Morton3D(x[i], y[i], z[i])
    {
      buffer[j] := Morton3D(x[j], y[j], z[j]);
    }
    codes := buffer[..];
  }
}
