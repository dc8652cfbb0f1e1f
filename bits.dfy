/**
 * Bitwise operations on naturals, for the C registers and masks of the model:
 * `Or(a, b)` is `a | b`, `AndNot(a, b)` is `a & ~b`, and `Bit(x, i)` is bit
 * `i` of `x`. Two values are equal exactly when all their bits are.
 */
module Bits {

  function Pow2(k: nat): (r: nat)
    ensures r >= 1
  {
    if k == 0 then 1 else 2 * Pow2(k - 1)
  }

  /** The powers of two the register layouts use. */
  lemma Pow2Widths()
    ensures Pow2(8) == 0x100 && Pow2(16) == 0x10000 && Pow2(32) == 0x1_0000_0000
  {
    assert Pow2(2) == 4;
    assert Pow2(4) == 16;
    assert Pow2(6) == 64;
    assert Pow2(8) == 0x100;
    assert Pow2(10) == 0x400;
    assert Pow2(12) == 0x1000;
    assert Pow2(14) == 0x4000;
    assert Pow2(16) == 0x10000;
    assert Pow2(18) == 0x40000;
    assert Pow2(20) == 0x100000;
    assert Pow2(22) == 0x400000;
    assert Pow2(24) == 0x1000000;
    assert Pow2(26) == 0x4000000;
    assert Pow2(28) == 0x10000000;
    assert Pow2(30) == 0x40000000;
  }

  /** Bit `i` of `x`. */
  function Bit(x: nat, i: nat): bool
  {
    if i == 0 then x % 2 == 1 else Bit(x / 2, i - 1)
  }

  /** `a | b`, one bit at a time from the bottom. */
  function Or(a: nat, b: nat): nat
    decreases a + b
  {
    if a == 0 then b
    else if b == 0 then a
    else 2 * Or(a / 2, b / 2) + (if a % 2 == 1 || b % 2 == 1 then 1 else 0)
  }

  /** `a & ~b`, one bit at a time from the bottom. */
  function AndNot(a: nat, b: nat): (r: nat)
    ensures r <= a
    decreases a
  {
    if a == 0 then 0
    else 2 * AndNot(a / 2, b / 2) + (if a % 2 == 1 && b % 2 == 0 then 1 else 0)
  }

  /** Every bit of 0 is clear. */
  lemma {:induction false} ZeroBits(i: nat)
    ensures !Bit(0, i)
  {
    if i > 0 {
      ZeroBits(i - 1);
    }
  }

  /** Bit i of `2 * h + low` is `low` at 0 and bit i - 1 of `h` above. */
  lemma BitOfDouble(h: nat, low: nat, i: nat)
    requires low <= 1
    ensures Bit(2 * h + low, i) == if i == 0 then low == 1 else Bit(h, i - 1)
  {
    if i > 0 {
      assert (2 * h + low) / 2 == h;
    }
  }

  /** A bit of `a | b` is set exactly when it is set in `a` or in `b`. */
  lemma {:induction false} OrBit(a: nat, b: nat, i: nat)
    ensures Bit(Or(a, b), i) == (Bit(a, i) || Bit(b, i))
    decreases a + b
  {
    if a == 0 {
      ZeroBits(i);
    } else if b == 0 {
      ZeroBits(i);
    } else {
      BitOfDouble(Or(a / 2, b / 2), if a % 2 == 1 || b % 2 == 1 then 1 else 0, i);
      if i > 0 {
        OrBit(a / 2, b / 2, i - 1);
      }
    }
  }

  /** A bit of `a & ~b` is set exactly when it is set in `a` and clear in `b`. */
  lemma {:induction false} AndNotBit(a: nat, b: nat, i: nat)
    ensures Bit(AndNot(a, b), i) == (Bit(a, i) && !Bit(b, i))
    decreases a
  {
    if a == 0 {
      ZeroBits(i);
    } else {
      BitOfDouble(AndNot(a / 2, b / 2), if a % 2 == 1 && b % 2 == 0 then 1 else 0, i);
      if i > 0 {
        AndNotBit(a / 2, b / 2, i - 1);
      }
    }
  }

  /** Every bit of `a | b`, as `OrBit` states it. */
  lemma OrBits(a: nat, b: nat)
    ensures forall i: nat :: Bit(Or(a, b), i) == (Bit(a, i) || Bit(b, i))
  {
    forall i: nat ensures Bit(Or(a, b), i) == (Bit(a, i) || Bit(b, i)) {
      OrBit(a, b, i);
    }
  }

  /** Every bit of `a & ~b`, as `AndNotBit` states it. */
  lemma AndNotBits(a: nat, b: nat)
    ensures forall i: nat :: Bit(AndNot(a, b), i) == (Bit(a, i) && !Bit(b, i))
  {
    forall i: nat ensures Bit(AndNot(a, b), i) == (Bit(a, i) && !Bit(b, i)) {
      AndNotBit(a, b, i);
    }
  }

  /** Values with the same bits are the same value. */
  lemma {:induction false} BitsDetermine(a: nat, b: nat)
    requires forall i: nat :: Bit(a, i) == Bit(b, i)
    ensures a == b
    decreases a + b
  {
    if a != b {
      assert Bit(a, 0) == Bit(b, 0);
      forall i: nat ensures Bit(a / 2, i) == Bit(b / 2, i) {
        assert Bit(a, i + 1) == Bit(b, i + 1);
      }
      BitsDetermine(a / 2, b / 2);
    }
  }

  /** Below 2^(k+1), bit `k` is set exactly when the value reaches 2^k. */
  lemma {:induction false} TopBit(x: nat, k: nat)
    requires x < 2 * Pow2(k)
    ensures Bit(x, k) <==> x >= Pow2(k)
  {
    if k > 0 {
      TopBit(x / 2, k - 1);
    }
  }

  /** A value below 2^k has no bit at k or above. */
  lemma {:induction false} HighBitsClear(x: nat, k: nat, i: nat)
    requires x < Pow2(k) && i >= k
    ensures !Bit(x, i)
    decreases i
  {
    if i == 0 {
    } else if k == 0 {
      assert x == 0;
      ZeroBits(i);
    } else {
      HighBitsClear(x / 2, k - 1, i - 1);
    }
  }

  /** Or of two k-bit values is a k-bit value. */
  lemma {:induction false} OrBound(a: nat, b: nat, k: nat)
    requires a < Pow2(k) && b < Pow2(k)
    ensures Or(a, b) < Pow2(k)
    decreases k
  {
    if a != 0 && b != 0 {
      OrBound(a / 2, b / 2, k - 1);
    }
  }

  /** Or-ing a value below 2^k into a multiple of 2^k is addition. */
  lemma {:induction false} OrDisjoint(a: nat, b: nat, k: nat)
    requires b < Pow2(k)
    ensures Or(a * Pow2(k), b) == a * Pow2(k) + b
    decreases k
  {
    if k > 0 && a != 0 && b != 0 {
      var h := a * Pow2(k - 1);
      assert a * Pow2(k) == 2 * h;
      assert (2 * h) / 2 == h && (2 * h) % 2 == 0;
      OrDisjoint(a, b / 2, k - 1);
    }
  }
}
