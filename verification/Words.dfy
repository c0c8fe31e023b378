/** Unsigned machine words as naturals, with Go's bitwise operators defined on their binary digits. */
module Words {

  /** `1 << k` where no bit is shifted out. */
  function Mask(k: nat): (m: nat)
    ensures m > 0
  {
    if k == 0 then 1 else 2 * Mask(k - 1)
  }

  /** Binary digit k of a. */
  predicate On(a: nat, k: nat) {
    if k == 0 then a % 2 == 1 else On(a / 2, k - 1)
  }

  /** `a | b` */
  function Or(a: nat, b: nat): nat
    decreases a + b
  {
    if a == 0 then b
    else if b == 0 then a
    else 2 * Or(a / 2, b / 2) + (if a % 2 == 1 || b % 2 == 1 then 1 else 0)
  }

  /** `a & b` */
  function And(a: nat, b: nat): nat {
    if a == 0 || b == 0 then 0
    else 2 * And(a / 2, b / 2) + (if a % 2 == 1 && b % 2 == 1 then 1 else 0)
  }

  /** `a &^ b` */
  function AndNot(a: nat, b: nat): nat {
    if a == 0 then 0
    else 2 * AndNot(a / 2, b / 2) + (if a % 2 == 1 && b % 2 == 0 then 1 else 0)
  }

  /** `a << 1` in a 64-bit word. */
  function ShiftLeft64(a: nat): nat {
    (2 * a) % TWO_64
  }

  const TWO_32: nat := 0x1_0000_0000
  const TWO_64: nat := 0x1_0000_0000_0000_0000

  const MAX_INT64: int := 0x7fff_ffff_ffff_ffff

  /** Go's int, int64 and time.Duration */
  type GoInt = x: int | -MAX_INT64 - 1 <= x <= MAX_INT64

  /** A signed 64-bit result, wrapped round. */
  function Wrap64(x: int): (w: GoInt)
    ensures -MAX_INT64 - 1 <= x <= MAX_INT64 <==> w == x
  {
    (x + MAX_INT64 + 1) % TWO_64 - MAX_INT64 - 1
  }

  lemma {:induction false} ZeroIsOff(k: nat)
    ensures !On(0, k)
  {
    if k > 0 {
      ZeroIsOff(k - 1);
    }
  }

  lemma {:induction false} OrBits(a: nat, b: nat, k: nat)
    ensures On(Or(a, b), k) == (On(a, k) || On(b, k))
    decreases k
  {
    ZeroIsOff(k);
    if a > 0 && b > 0 && k > 0 {
      OrBits(a / 2, b / 2, k - 1);
    }
  }

  lemma {:induction false} AndBits(a: nat, b: nat, k: nat)
    ensures On(And(a, b), k) == (On(a, k) && On(b, k))
    decreases k
  {
    ZeroIsOff(k);
    if a > 0 && b > 0 && k > 0 {
      AndBits(a / 2, b / 2, k - 1);
    }
  }

  lemma {:induction false} AndNotBits(a: nat, b: nat, k: nat)
    ensures On(AndNot(a, b), k) == (On(a, k) && !On(b, k))
    decreases k
  {
    ZeroIsOff(k);
    if a > 0 && k > 0 {
      AndNotBits(a / 2, b / 2, k - 1);
    }
  }

  lemma {:induction false} MaskBits(k: nat, q: nat)
    ensures On(Mask(k), q) == (q == k)
  {
    if k == 0 {
      if q > 0 {
        ZeroIsOff(q - 1);
      }
    } else if q > 0 {
      MaskBits(k - 1, q - 1);
    }
  }

  lemma {:induction false} NonzeroHasBit(a: nat) returns (k: nat)
    requires a > 0
    ensures On(a, k)
  {
    if a % 2 == 1 {
      k := 0;
    } else {
      k := NonzeroHasBit(a / 2);
      k := k + 1;
    }
  }

  /** The source's bit test: `a & (1 << k) != 0`. */
  lemma MaskTests(a: nat, k: nat)
    ensures And(a, Mask(k)) != 0 <==> On(a, k)
  {
    AndBits(a, Mask(k), k);
    MaskBits(k, k);
    ZeroIsOff(k);
    if And(a, Mask(k)) != 0 {
      var q := NonzeroHasBit(And(a, Mask(k)));
      AndBits(a, Mask(k), q);
      MaskBits(k, q);
    }
  }

  /** The bitwise operators stay within a word of n bits. */
  lemma {:induction false} OrFits(a: nat, b: nat, n: nat)
    requires a < Mask(n) && b < Mask(n)
    ensures Or(a, b) < Mask(n)
  {
    if n > 0 && a > 0 && b > 0 {
      OrFits(a / 2, b / 2, n - 1);
    }
  }

  lemma {:induction false} AndNotFits(a: nat, b: nat)
    ensures AndNot(a, b) <= a
    decreases a
  {
    if a > 0 {
      AndNotFits(a / 2, b / 2);
    }
  }

  lemma {:induction false} MaskMonotone(j: nat, k: nat)
    requires j < k
    ensures Mask(j) < Mask(k)
    decreases k
  {
    if j < k - 1 {
      MaskMonotone(j, k - 1);
    }
  }

  lemma {:induction false} MaskSum(j: nat, k: nat)
    ensures Mask(j + k) == Mask(j) * Mask(k)
  {
    if j > 0 {
      MaskSum(j - 1, k);
      assert Mask(j + k) == 2 * Mask(j - 1 + k);
    }
  }

  lemma MaskSquared(k: nat, m: nat)
    requires Mask(k) == m
    ensures Mask(2 * k) == m * m
  {
    MaskSum(k, k);
  }

  lemma MaskOf32And64()
    ensures Mask(32) == TWO_32 && Mask(64) == TWO_64
  {
    assert Mask(4) == 16;
    MaskSquared(4, 16);
    MaskSquared(8, 0x100);
    MaskSquared(16, 0x1_0000);
    MaskSquared(32, TWO_32);
  }

  /** Words with the same digits are equal. */
  lemma {:induction false} SameDigits(a: nat, b: nat)
    requires forall k: nat :: On(a, k) == On(b, k)
    ensures a == b
    decreases a + b
  {
    assert On(a, 0) == On(b, 0);
    if a > 0 || b > 0 {
      forall k: nat ensures On(a / 2, k) == On(b / 2, k) {
        assert On(a, k + 1) == On(b, k + 1);
      }
      SameDigits(a / 2, b / 2);
    }
  }

  lemma {:induction false} HighDigitsOff(a: nat, n: nat, k: nat)
    requires a < Mask(n) && k >= n
    ensures !On(a, k)
    decreases k
  {
    if n == 0 {
      ZeroIsOff(k);
    } else {
      HighDigitsOff(a / 2, n - 1, k - 1);
    }
  }
}
