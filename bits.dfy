/**
 Bits of an allele. An allele of a locus of `len` bits is a number in
 [0, 2^len); bit 0 is the least significant one. The simulation tests bit
 `i` of an allele against the mask `GeneBitMasks[i]`.
 */
module Bits {

  function Pow2(n: nat): (r: nat)
    ensures r >= 1
  {
    if n == 0 then 1 else 2 * Pow2(n - 1)
  }

  /** Bit `i` of `a`, least significant first. */
  function Bit(a: nat, i: nat): (r: nat)
    ensures r < 2
  {
    if i == 0 then a % 2 else Bit(a / 2, i - 1)
  }

  /** The twelve single-bit masks, `1 << 0` to `1 << 11`. */
  const GeneBitMasks: seq<nat> := [1, 2, 4, 8, 16, 32, 64, 128, 256, 512, 1024, 2048]

  /** The longest locus the masks can serve. */
  const MaxLocusLen: nat := 12

  /** Mask `i` has exactly bit `i` set. */
  lemma GeneBitMasksArePowers()
    ensures |GeneBitMasks| == MaxLocusLen
    ensures forall i :: 0 <= i < |GeneBitMasks| ==> GeneBitMasks[i] == Pow2(i)
  {
    assert Pow2(4) == 16;
    assert Pow2(8) == 256;
    assert Pow2(11) == 2048;
  }

  /** Testing `a` against mask `i` (`a & mask == 0`) reads bit `i` of `a`. */
  predicate MaskClear(a: nat, i: nat)
    requires i < |GeneBitMasks|
  {
    (a / GeneBitMasks[i]) % 2 == 0
  }

  lemma MulAtLeast(d: nat, k: nat)
    requires k >= 1
    ensures d * k >= d
  {
    assert d * k == d + d * (k - 1);
  }

  lemma DivUnique(a: nat, d: nat, x: nat, y: nat)
    requires d > 0 && a == d * x + y && y < d
    ensures a / d == x && a % d == y
  {
    var q, r := a / d, a % d;
    assert d * q + r == d * x + y;
    if q < x {
      assert d * x == d * q + d * (x - q);
      MulAtLeast(d, x - q);
    } else if q > x {
      assert d * q == d * x + d * (q - x);
      MulAtLeast(d, q - x);
    }
  }

  lemma DivTwice(a: nat, p: nat)
    requires p > 0
    ensures a / (2 * p) == (a / 2) / p
  {
    var q, r := a / 2, a % 2;
    var hq, hr := q / p, q % p;
    assert q == p * hq + hr;
    assert a == (2 * p) * hq + (2 * hr + r) by {
      assert a == 2 * q + r;
      assert 2 * (p * hq) == (2 * p) * hq;
    }
    DivUnique(a, 2 * p, hq, 2 * hr + r);
  }

  /** The mask test agrees with `Bit`: `MaskClear(a, i)` iff bit `i` of `a` is 0. */
  lemma {:induction false} MaskClearIsBit(a: nat, i: nat)
    requires i < |GeneBitMasks|
    ensures MaskClear(a, i) <==> Bit(a, i) == 0
  {
    GeneBitMasksArePowers();
    PowerDivIsBit(a, i);
  }

  lemma {:induction false} PowerDivIsBit(a: nat, i: nat)
    ensures (a / Pow2(i)) % 2 == Bit(a, i)
  {
    if i > 0 {
      DivTwice(a, Pow2(i - 1));
      PowerDivIsBit(a / 2, i - 1);
    }
  }

  /** Every bit from `j` up is 0 below `2^j`. */
  lemma {:induction false} BitBelow(a: nat, j: nat)
    requires a < Pow2(j)
    ensures Bit(a, j) == 0
  {
    if j > 0 {
      BitBelow(a / 2, j - 1);
    }
  }

  /** Bit `j` is 1 throughout [2^j, 2^(j+1)). */
  lemma {:induction false} BitTop(a: nat, j: nat)
    requires Pow2(j) <= a < 2 * Pow2(j)
    ensures Bit(a, j) == 1
  {
    if j > 0 {
      BitTop(a / 2, j - 1);
    }
  }

  /** Adding `2^m` does not change the bits below `m`. */
  lemma {:induction false} BitShift(b: nat, m: nat, i: nat)
    requires i < m
    ensures Bit(Pow2(m) + b, i) == Bit(b, i)
  {
    if i > 0 {
      assert (Pow2(m) + b) / 2 == Pow2(m - 1) + b / 2;
      BitShift(b / 2, m - 1, i - 1);
    }
  }

  /** The number of alleles `a` in [lo, hi) whose bit `i` equals `v`. */
  function CountBit(i: nat, v: nat, lo: nat, hi: nat): nat
    requires lo <= hi
    decreases hi - lo
  {
    if lo == hi then 0
    else CountBit(i, v, lo, hi - 1) + (if Bit(hi - 1, i) == v then 1 else 0)
  }

  lemma {:induction false} CountBitSplit(i: nat, v: nat, lo: nat, mid: nat, hi: nat)
    requires lo <= mid <= hi
    ensures CountBit(i, v, lo, hi) == CountBit(i, v, lo, mid) + CountBit(i, v, mid, hi)
    decreases hi - mid
  {
    if mid < hi {
      CountBitSplit(i, v, lo, mid, hi - 1);
    }
  }

  lemma {:induction false} CountBitShift(i: nat, v: nat, m: nat, lo: nat, hi: nat)
    requires i < m && lo <= hi
    ensures CountBit(i, v, Pow2(m) + lo, Pow2(m) + hi) == CountBit(i, v, lo, hi)
    decreases hi - lo
  {
    if lo < hi {
      CountBitShift(i, v, m, lo, hi - 1);
      BitShift(hi - 1, m, i);
    }
  }

  lemma {:induction false} CountBitConstant(i: nat, v: nat, w: nat, lo: nat, hi: nat)
    requires lo <= hi
    requires forall a :: lo <= a < hi ==> Bit(a, i) == w
    ensures CountBit(i, v, lo, hi) == if v == w then hi - lo else 0
    decreases hi - lo
  {
    if lo < hi {
      CountBitConstant(i, v, w, lo, hi - 1);
    }
  }

  /**
   Exactly half of the alleles of a locus of `len` bits have bit `i` equal
   to `v`: 2^(len-1) of the 2^len.
   */
  lemma {:induction false} HalfHaveBit(i: nat, v: nat, len: nat)
    requires i < len && v < 2
    ensures CountBit(i, v, 0, Pow2(len)) == Pow2(len - 1)
  {
    var half := Pow2(len - 1);
    assert Pow2(len) == half + half;
    CountBitSplit(i, v, 0, half, Pow2(len));
    if i == len - 1 {
      forall a | 0 <= a < half ensures Bit(a, i) == 0 {
        BitBelow(a, i);
      }
      forall a | half <= a < half + half ensures Bit(a, i) == 1 {
        BitTop(a, i);
      }
      CountBitConstant(i, v, 0, 0, half);
      CountBitConstant(i, v, 1, half, half + half);
    } else {
      HalfHaveBit(i, v, len - 1);
      CountBitShift(i, v, len - 1, 0, half);
      assert Pow2(len - 1) == 2 * Pow2(len - 2);
    }
  }
}
