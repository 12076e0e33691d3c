/** The byte operations of math/bits the generated decoders use, bit by bit. */
module Bytes {

  const BYTE_WIDTH := 8

  /** Bit n of x is set. */
  predicate Bit(x: bv8, n: nat) {
    if n == 0 then x & 1 != 0 else Bit(x >> 1, n - 1)
  }

  /** 1 << n */
  function Mask(n: nat): bv8 {
    if n == 0 then 1 else Mask(n - 1) << 1
  }

  /** The number of set bits among the lowest w; bits.OnesCount8 with w = 8. */
  function Ones(x: bv8, w: nat): nat {
    if w == 0 then 0 else (if x & 1 != 0 then 1 else 0) + Ones(x >> 1, w - 1)
  }

  /** The position of the lowest set bit, or w; bits.TrailingZeros8 with w = 8. */
  function TrailingZeros(x: bv8, w: nat): (n: nat)
    ensures n <= w && (n < w ==> Bit(x, n)) && forall k: nat :: k < n ==> !Bit(x, k)
  {
    if w == 0 || x & 1 != 0 then 0 else 1 + TrailingZeros(x >> 1, w - 1)
  }

  predicate NoBits(x: bv8, w: nat) {
    forall n: nat :: n < w ==> !Bit(x, n)
  }

  lemma NoBitsShift(x: bv8, y: bv8, w: nat)
    requires w > 0 && y == x >> 1
    ensures NoBits(x, w) <==> x & 1 == 0 && NoBits(y, w - 1)
  {
    assert Bit(x, 0) <==> x & 1 != 0;
    if NoBits(x, w) {
      forall n: nat | n < w - 1 ensures !Bit(y, n) {
        assert Bit(x, n + 1) == Bit(y, n);
      }
    }
    if x & 1 == 0 && NoBits(y, w - 1) {
      forall n: nat | n < w ensures !Bit(x, n) {
        assert n > 0 ==> Bit(x, n) == Bit(y, n - 1);
      }
    }
  }

  /** No ones, no set bit: the same thing. */
  lemma {:induction false} NoOnes(x: bv8, w: nat)
    ensures Ones(x, w) == 0 <==> NoBits(x, w)
  {
    if w > 0 {
      NoOnes(x >> 1, w - 1);
      NoBitsShift(x, x >> 1, w);
    }
  }

  lemma ZeroHasNoOnes(x: bv8)
    ensures x == 0 <==> Ones(x, 8) == 0
  {
    var x1 := x >> 1; var x2 := x1 >> 1; var x3 := x2 >> 1; var x4 := x3 >> 1;
    var x5 := x4 >> 1; var x6 := x5 >> 1; var x7 := x6 >> 1;
    assert Ones(x, 8) == 0 <==> x & 1 == 0 && Ones(x1, 7) == 0;
    assert Ones(x1, 7) == 0 <==> x1 & 1 == 0 && Ones(x2, 6) == 0;
    assert Ones(x2, 6) == 0 <==> x2 & 1 == 0 && Ones(x3, 5) == 0;
    assert Ones(x3, 5) == 0 <==> x3 & 1 == 0 && Ones(x4, 4) == 0;
    assert Ones(x4, 4) == 0 <==> x4 & 1 == 0 && Ones(x5, 3) == 0;
    assert Ones(x5, 3) == 0 <==> x5 & 1 == 0 && Ones(x6, 2) == 0;
    assert Ones(x6, 2) == 0 <==> x6 & 1 == 0 && Ones(x7, 1) == 0;
    assert Ones(x7, 1) == 0 <==> x7 & 1 == 0;
  }

  lemma {:induction false} ZeroBits(n: nat)
    ensures !Bit(0, n)
  {
    if n > 0 {
      ZeroBits(n - 1);
      assert (0 as bv8) >> 1 == 0;
    }
  }

  /** Clearing one bit leaves the others. */
  lemma {:induction false} ClearBit(x: bv8, n: nat, m: bv8, k: nat)
    requires m == Mask(n) && n < 8
    ensures Bit(x & !m, k) <==> Bit(x, k) && k != n
    decreases n
  {
    if n == 0 {
      ShiftAfterLow(x);
      ClearLow(x, x & !m, k);
    } else {
      var half, y := Mask(n - 1), x >> 1;
      ClearStep(x, half, m, k);
      if k > 0 {
        ClearBit(y, n - 1, half, k - 1);
        BitShifts(x, y, k);
      }
    }
  }

  lemma BitShifts(x: bv8, y: bv8, k: nat)
    requires y == x >> 1 && k > 0
    ensures Bit(x, k) == Bit(y, k - 1)
  {
  }

  lemma ClearStep(x: bv8, half: bv8, m: bv8, k: nat)
    requires m == half << 1
    ensures Bit(x & !m, k) == if k == 0 then Bit(x, 0) else Bit((x >> 1) & !half, k - 1)
  {
    ShiftAfterHigh(x, half);
    ClearHigh(x, x & !m, (x >> 1) & !half, k);
  }

  lemma ClearLow(x: bv8, y: bv8, k: nat)
    requires y >> 1 == x >> 1 && y & 1 == 0
    ensures Bit(y, k) <==> Bit(x, k) && k != 0
  {
  }

  lemma ClearHigh(x: bv8, y: bv8, z: bv8, k: nat)
    requires y >> 1 == z && y & 1 == x & 1
    ensures Bit(y, k) == if k == 0 then Bit(x, 0) else Bit(z, k - 1)
  {
  }

  lemma ShiftAfterLow(x: bv8)
    ensures (x & !1) >> 1 == x >> 1 && (x & !1) & 1 == 0
  {
  }

  lemma ShiftAfterHigh(x: bv8, m: bv8)
    ensures (x & !(m << 1)) >> 1 == (x >> 1) & !m && (x & !(m << 1)) & 1 == x & 1
  {
  }

  /** Clearing a set bit lowers the count by one. */
  lemma {:induction false} OnesAfterClear(x: bv8, n: nat, w: nat)
    requires n < w && Bit(x, n)
    ensures Ones(x & !Mask(n), w) == Ones(x, w) - 1
    decreases n
  {
    if n == 0 {
      ShiftAfterLow(x);
    } else {
      ShiftAfterHigh(x, Mask(n - 1));
      OnesAfterClear(x >> 1, n - 1, w - 1);
    }
  }

  /** Masking with the required fields and XOR with them leaves those not seen. */
  lemma {:induction false} XorMissing(seen: bv8, mask: bv8, n: nat)
    ensures Bit((seen & mask) ^ mask, n) <==> Bit(mask, n) && !Bit(seen, n)
    decreases n
  {
    XorShift(seen, mask);
    if n > 0 {
      XorMissing(seen >> 1, mask >> 1, n - 1);
    }
  }

  lemma XorShift(seen: bv8, mask: bv8)
    ensures ((seen & mask) ^ mask) >> 1 == ((seen >> 1) & (mask >> 1)) ^ (mask >> 1)
    ensures ((seen & mask) ^ mask) & 1 != 0 <==> mask & 1 != 0 && seen & 1 == 0
  {
  }

  /** Setting one bit leaves the others. */
  lemma {:induction false} SetBit(x: bv8, n: nat, k: nat)
    requires n < 8
    ensures Bit(x | Mask(n), k) <==> Bit(x, k) || k == n
    decreases n
  {
    assert (x | 1) >> 1 == x >> 1;
    if n == 0 {
      assert (x | 1) & 1 != 0;
    } else {
      HighBitSurvives(n);
      SetShift(x, Mask(n - 1));
      if k > 0 {
        SetBit(x >> 1, n - 1, k - 1);
      }
    }
  }

  lemma SetShift(x: bv8, m: bv8)
    requires m & 0x80 == 0
    ensures (x | (m << 1)) >> 1 == (x >> 1) | m && (x | (m << 1)) & 1 == x & 1
  {
  }

  lemma HighBitSurvives(n: nat)
    requires 0 < n < 8
    ensures Mask(n - 1) & 0x80 == 0
  {
    assert Mask(0) == 0x01 && Mask(1) == 0x02;
    assert Mask(2) == 0x04 && Mask(3) == 0x08;
    assert Mask(4) == 0x10 && Mask(5) == 0x20 && Mask(6) == 0x40;
  }
}
