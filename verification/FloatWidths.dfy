/** The item width as the source computes it, by a floating-point logarithm. */
module FloatWidths {
  import opened Words
  import opened Jsons
  import opened PackedItems

  /** What math.Log2 does on a platform: it is exact at the powers of two and never decreases; between two of them it
      is rounded down to the lower exponent for the `near(k)` arguments just above 2^k. `ofZero` is uint(-Inf). */
  datatype Log2 = Log2(near: nat -> nat, ofZero: nat) {
    /** The sum of an exponent k and a logarithm near 1/2^k first rounds to k at k = 49. */
    ghost predicate Valid() {
      && (forall k :: near(k) < Mask(k))
      && (forall k :: k < 49 ==> near(k) == 0)
      && near(49) > 0
    }
  }

  /** math.Ceil(math.Log2(x)) of a positive float. */
  function CeilLog(log: Log2, x: nat): nat
    requires x > 0
  {
    var k := BitsNeeded(x) - 1;
    if x <= Mask(k) + log.near(k) then k else k + 1
  }

  /** bitsNeeded, in 64-bit arithmetic. */
  function Width(log: Log2, maxValue: nat): nat
    requires maxValue < TWO_64
  {
    var x := (maxValue + 1) % TWO_64;
    if x == 0 then log.ofZero else RoundPositive(x); CeilLog(log, RoundNat(x))
  }

  lemma RoundPositive(m: nat)
    requires m > 0
    ensures RoundNat(m) > 0
  {
    if m >= TWO_53 {
      RoundAtLeast(m, false, 0);
    }
  }

  /** The largest value does not sit too close above a power of two for the logarithm to tell. */
  predicate Distinguished(log: Log2, maxValue: nat) {
    maxValue == 0 || RoundNat(maxValue + 1) > Mask(BitsNeeded(maxValue) - 1) + log.near(BitsNeeded(maxValue) - 1)
  }

  lemma {:induction false} PowersAreFloats(k: nat)
    ensures RoundNat(Mask(k)) == Mask(k)
  {
    RoundExactly(Mask(k));
    PowerHasFloat(k);
  }

  lemma {:induction false} PowerHasFloat(k: nat)
    ensures HasFloat(Mask(k))
  {
    if k > 0 {
      PowerHasFloat(k - 1);
    }
  }

  lemma {:induction false} RoundAtLeast(m: nat, sticky: bool, k: nat)
    requires m >= TWO_53 && m >= Mask(k)
    ensures Round(m, sticky) >= Mask(k)
  {
    var h, j, dropped := m / 2, if k > 0 then k - 1 else 0, sticky || m % 2 == 1;
    assert k > 0 ==> Mask(k) == 2 * Mask(j);
    assert k == 0 ==> Mask(k) == 1 == Mask(j);
    if h >= TWO_53 {
      assert Round(m, sticky) == 2 * Round(h, dropped);
      hide Mask, Round;
      RoundAtLeast(h, dropped, j);
    } else {
      assert Round(m, sticky) >= 2 * h;
      hide Mask, Round;
    }
  }

  /** Rounding does not leave the interval between two powers. */
  lemma RoundBetween(m: nat, k: nat)
    requires Mask(k) <= m <= Mask(k + 1)
    ensures Mask(k) <= RoundNat(m) <= Mask(k + 1)
  {
    PowersAreFloats(k);
    PowersAreFloats(k + 1);
    if m >= TWO_53 {
      RoundAtLeast(m, false, k);
      if m < Mask(k + 1) {
        RoundBounded(m, false, k + 1);
      }
    }
  }

  /** The exponent of a float between two powers. */
  lemma CeilLogBetween(log: Log2, x: nat, k: nat)
    requires log.Valid() && Mask(k) <= x <= Mask(k + 1)
    ensures CeilLog(log, x) == if x <= Mask(k) + log.near(k) then k else k + 1
  {
    BitsNeededIsCeilLog(x, k);
    BitsNeededIsCeilLog(x, k + 1);
    BitsNeededIsCeilLog(x, k + 2);
    assert log.near(k) < Mask(k);
  }

  lemma WidthOf(log: Log2, maxValue: nat)
    requires maxValue < TWO_64 - 1
    ensures RoundNat(maxValue + 1) > 0 && Width(log, maxValue) == CeilLog(log, RoundNat(maxValue + 1))
  {
    RoundPositive(maxValue + 1);
  }

  /** The width is the exact one, or one bit short; it holds the largest value exactly if the logarithm can tell that
      value from the power of two below. */
  lemma WidthHoldsExactly(log: Log2, maxValue: nat)
    requires log.Valid() && maxValue < TWO_64 - 1
    ensures Width(log, maxValue) <= BitsNeeded(maxValue) <= Width(log, maxValue) + 1
    ensures Width(log, maxValue) == BitsNeeded(maxValue) <==> Distinguished(log, maxValue)
    ensures maxValue < Mask(Width(log, maxValue)) <==> Distinguished(log, maxValue)
  {
    hide *;
    WidthOf(log, maxValue);
    if maxValue == 0 {
      ZeroWidth(log);
    } else {
      var k := BitsNeeded(maxValue) - 1;
      Threshold(log, maxValue);
      BitsNeededIsCeilLog(maxValue, k + 1);
      BitsNeededIsCeilLog(maxValue, k);
      RoundBetween(maxValue + 1, k);
      CeilLogBetween(log, RoundNat(maxValue + 1), k);
    }
  }

  lemma ZeroWidth(log: Log2)
    requires log.Valid()
    ensures Width(log, 0) == BitsNeeded(0) == 0 && Mask(0) == 1 && Distinguished(log, 0)
  {
    hide Round;
    assert RoundNat(1) == 1 && Mask(0) == 1 && log.near(0) == 0;
    CeilLogBetween(log, 1, 0);
  }

  lemma Threshold(log: Log2, maxValue: nat)
    requires maxValue > 0
    ensures BitsNeeded(maxValue) > 0
    ensures
      var k := BitsNeeded(maxValue) - 1;
      && Mask(k + 1) == 2 * Mask(k)
      && (Distinguished(log, maxValue) <==> RoundNat(maxValue + 1) > Mask(k) + log.near(k))
  {
    hide Round, RoundNat;
  }

  lemma MaskOf49()
    ensures Mask(48) == 0x1_0000_0000_0000 && Mask(49) == 0x2_0000_0000_0000 && Mask(53) == TWO_53
  {
    assert Mask(8) == 256;
    MaskSum(8, 8);
    MaskSum(16, 16);
    MaskSum(32, 16);
  }

  /** Below 2^49 the width always holds the largest value, on every platform. */
  lemma SmallWidthsHold(log: Log2, maxValue: nat)
    requires log.Valid() && maxValue < 0x2_0000_0000_0000
    ensures Width(log, maxValue) == BitsNeeded(maxValue) && maxValue < Mask(Width(log, maxValue))
  {
    MaskOf49();
    BitsNeededIsCeilLog(maxValue, 49);
    WidthHoldsExactly(log, maxValue);
    if maxValue > 0 {
      BitsNeededIsCeilLog(maxValue, BitsNeeded(maxValue) - 1);
      assert log.near(BitsNeeded(maxValue) - 1) == 0;
    }
  }

  /** At a power of two from 2^49 on the width is one bit short, on every platform on which the logarithm cannot tell
      its successor; at 2^49 that is every platform, and from 2^53 on the conversion to a float loses it anyway. */
  lemma PowersMisfit(log: Log2, k: nat)
    requires log.Valid() && k < 64 && (log.near(k) > 0 || k >= 53)
    ensures Mask(k) < TWO_64 - 1 && Width(log, Mask(k)) == k && !Distinguished(log, Mask(k))
  {
    hide *;
    PowerFits(k);
    PowerWidth(k);
    Threshold(log, Mask(k));
    SuccessorRounds(k);
    WidthHoldsExactly(log, Mask(k));
  }

  lemma PowerFits(k: nat)
    requires k < 64
    ensures Mask(k) < TWO_64 - 1
  {
    MaskOf32And64();
    assert Mask(64) == 2 * Mask(63);
    if k < 63 {
      MaskMonotone(k, 63);
    }
  }

  lemma PowerWidth(k: nat)
    ensures BitsNeeded(Mask(k)) == k + 1
  {
    BitsNeededIsCeilLog(Mask(k), k);
    BitsNeededIsCeilLog(Mask(k), k + 1);
  }

  lemma {:induction false} SuccessorRounds(k: nat)
    ensures RoundNat(Mask(k) + 1) <= Mask(k) + 1
    ensures k >= 53 ==> RoundNat(Mask(k) + 1) == Mask(k)
  {
    MaskOf49();
    if k > 53 {
      StickyPower(k - 1);
      MaskMonotone(53, k);
      assert (Mask(k) + 1) / 2 == Mask(k - 1);
    } else if k < 53 {
      MaskMonotone(k, 53);
    }
  }

  /** A digit dropped below a power of two is not enough to round it up. */
  lemma {:induction false} StickyPower(k: nat)
    requires k >= 53
    ensures Mask(k) >= TWO_53 && Round(Mask(k), true) == Mask(k)
  {
    MaskOf49();
    if k > 53 {
      StickyPower(k - 1);
    }
  }
}
