/** JSON values as Go holds them before and after they pass through a protobuf Struct. */
module Jsons {
  import opened Base
  import opened Words

  const TWO_31: int := 0x8000_0000
  const TWO_53: int := 0x20_0000_0000_0000
  const TWO_63: int := 0x8000_0000_0000_0000

  type I32 = n: int | -TWO_31 <= n < TWO_31
  type I64 = n: int | -TWO_63 <= n < TWO_63

  /** JInt is an int64, JNum a float64; a protobuf Struct knows only the second. */
  datatype Json =
    | JNull
    | JBool(b: bool)
    | JInt(n: I64)
    | JNum(x: real)
    | JStr(s: string)
    | JArr(items: seq<Json>)
    | JObj(fields: map<string, Json>)

  /** float64(m) for m of more than 53 bits, rounding half to even; `sticky` says digits below m were dropped. */
  function Round(m: nat, sticky: bool): nat
    requires m >= TWO_53
  {
    var h := m / 2;
    if h >= TWO_53 then 2 * Round(h, sticky || m % 2 == 1)
    else if m % 2 == 1 && (sticky || h % 2 == 1) then 2 * (h + 1)
    else 2 * h
  }

  function RoundNat(m: nat): nat {
    if m < TWO_53 then m else Round(m, false)
  }

  /** A 53-bit significand times a power of two. */
  predicate HasFloat(m: nat) {
    m < TWO_53 || (m % 2 == 0 && HasFloat(m / 2))
  }

  function Float64(n: int): int {
    if n >= 0 then RoundNat(n) else -(RoundNat(-n) as int)
  }

  /** Truncation toward zero. */
  function Truncate(x: real): int {
    if x >= 0.0 then x.Floor else -((-x).Floor)
  }

  /** int64(x); out of range it is the smallest int64, as amd64 gives. */
  function Int64(x: real): I64 {
    if -TWO_63 <= Truncate(x) < TWO_63 then Truncate(x) else -TWO_63
  }

  /** int32(x), with the same convention. */
  function Int32(x: real): I32 {
    if -TWO_31 <= Truncate(x) < TWO_31 then Truncate(x) else -TWO_31
  }

  /** structpb.NewValue followed by AsInterface. */
  function ToPb(j: Json): Json {
    match j
    case JInt(n) => JNum(Float64(n) as real)
    case JArr(items) => JArr(seq(|items|, i requires 0 <= i < |items| => ToPb(items[i])))
    case JObj(fields) => JObj(map k | k in fields :: ToPb(fields[k]))
    case _ => j
  }

  /** Already free of int64 values, all the way down. */
  predicate Clean(j: Json) {
    match j
    case JInt(_) => false
    case JArr(items) => forall i :: 0 <= i < |items| ==> Clean(items[i])
    case JObj(fields) => forall k | k in fields :: Clean(fields[k])
    case _ => true
  }

  lemma {:induction false} PbIsClean(j: Json)
    ensures Clean(ToPb(j))
    ensures Clean(j) ==> ToPb(j) == j
  {
    match j
    case JArr(items) =>
      forall i | 0 <= i < |items| ensures Clean(ToPb(items[i])) && (Clean(items[i]) ==> ToPb(items[i]) == items[i]) {
        PbIsClean(items[i]);
      }
    case JObj(fields) =>
      forall k | k in fields ensures Clean(ToPb(fields[k])) && (Clean(fields[k]) ==> ToPb(fields[k]) == fields[k]) {
        PbIsClean(fields[k]);
      }
    case _ =>
  }

  /** Rounding keeps exactly the float64 values. */
  lemma {:induction false} RoundExactly(m: nat)
    ensures RoundNat(m) == m <==> HasFloat(m)
  {
    if m >= TWO_53 && m / 2 >= TWO_53 {
      RoundExactly(m / 2);
    }
  }

  /** Twice the distance of f from m, or from what lies just above it. */
  function Distance(f: nat, m: nat, sticky: bool): nat {
    var x := 2 * m + if sticky then 1 else 0;
    if 2 * f >= x then 2 * f - x else x - 2 * f
  }

  /** Rounding finds a nearest float64 value. */
  lemma {:induction false} RoundIsNearest(m: nat, sticky: bool, f: nat)
    requires m >= TWO_53 && HasFloat(f)
    ensures HasFloat(Round(m, sticky)) && Distance(Round(m, sticky), m, sticky) <= Distance(f, m, sticky)
  {
    var h, even := m / 2, if f % 2 == 0 then f else f + 1;
    if h < TWO_53 {
      NearestAtEnd(m, sticky, f);
    } else {
      var stuck := sticky || m % 2 == 1;
      EvenIsNearer(m, sticky, f, even);
      RoundIsNearest(h, stuck, TWO_53);
      RoundIsNearest(h, stuck, even / 2);
      NearestOfDouble(Round(h, stuck), even / 2, m, sticky);
      assert HasFloat(2 * Round(h, stuck)) && Round(m, sticky) == 2 * Round(h, stuck);
    }
  }

  lemma NearestAtEnd(m: nat, sticky: bool, f: nat)
    requires TWO_53 <= m && m / 2 < TWO_53 && HasFloat(f)
    ensures HasFloat(Round(m, sticky)) && Distance(Round(m, sticky), m, sticky) <= Distance(f, m, sticky)
  {
    var h := m / 2;
    assert HasFloat(h) && HasFloat(h + 1);
    assert (2 * h) / 2 == h && (2 * (h + 1)) / 2 == h + 1;
    assert HasFloat(2 * h) && HasFloat(2 * (h + 1));
    assert f > TWO_53 ==> f % 2 == 0;
  }

  /** An odd float64 value is small, and the even one after it is no farther from anything large. */
  lemma EvenIsNearer(m: nat, sticky: bool, f: nat, even: nat)
    requires m / 2 >= TWO_53 && HasFloat(f) && even == if f % 2 == 0 then f else f + 1
    ensures HasFloat(even / 2) && 2 * (even / 2) == even && Distance(even, m, sticky) <= Distance(f, m, sticky)
  {
  }

  /** What is nearest to the half is nearest, doubled, to the whole. */
  lemma NearestOfDouble(r: nat, f: nat, m: nat, sticky: bool)
    requires m / 2 >= TWO_53 && HasFloat(r) && HasFloat(f)
    requires Distance(r, m / 2, sticky || m % 2 == 1) <= Distance(f, m / 2, sticky || m % 2 == 1)
    requires Distance(r, m / 2, sticky || m % 2 == 1) <= Distance(TWO_53, m / 2, sticky || m % 2 == 1)
    ensures Distance(2 * r, m, sticky) <= Distance(2 * f, m, sticky)
  {
  }

  /** Halfway between two of them it takes the one whose significand is even. */
  lemma TiesGoToEven(m: nat)
    requires TWO_53 < m < 2 * TWO_53 && m % 2 == 1
    ensures RoundNat(m) % 4 == 0 && (RoundNat(m) == m - 1 || RoundNat(m) == m + 1)
  {
  }

  lemma {:induction false} RoundBounded(m: nat, sticky: bool, k: nat)
    requires TWO_53 <= m < Mask(k)
    ensures Round(m, sticky) <= Mask(k)
  {
    if m / 2 >= TWO_53 {
      RoundBounded(m / 2, sticky || m % 2 == 1, k - 1);
    }
  }

  lemma MaskOf63()
    ensures Mask(63) == TWO_63
  {
    MaskOf32And64();
    assert Mask(64) == 2 * Mask(63);
  }

  function Magnitude(n: int): nat {
    if n < 0 then -n else n
  }

  /** An int64 that passes through the form comes back the same exactly when it is a float64 value. */
  lemma IntSurvives(n: I64)
    ensures Int64(Float64(n) as real) == n <==> HasFloat(Magnitude(n))
  {
    var m := Magnitude(n);
    RoundExactly(m);
    MaskOf63();
    if TWO_53 <= m < TWO_63 {
      RoundBounded(m, false, 63);
    }
    WholeNumber(Float64(n));
  }

  /** A whole float64 converts back to itself inside the int64 range. */
  lemma WholeNumber(k: int)
    ensures Int64(k as real) == if -TWO_63 <= k < TWO_63 then k else -TWO_63
  {
    assert (-k) as real == -(k as real);
  }

  lemma SmallIntsSurvive(n: int)
    requires -TWO_53 <= n <= TWO_53
    ensures HasFloat(Magnitude(n))
  {
    assert HasFloat(TWO_53 / 2);
  }
}
