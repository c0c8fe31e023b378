/** Decimal text, as strconv reads and writes it. */
module Decimals {
  import opened Base

  /** An unsigned decimal. */
  function Digits(s: string): Option<nat> {
    if s == "" then None
    else
      var c := s[|s| - 1];
      if !('0' <= c <= '9') then None
      else if |s| == 1 then Some(c as int - '0' as int)
      else
        var rest := Digits(s[..|s| - 1]);
        if rest.Some? then Some(10 * rest.value + (c as int - '0' as int)) else None
  }

  /** A decimal with an optional sign, in the range lo <= v < hi. */
  function ParseSigned(s: string, lo: int, hi: int): (r: Option<int>)
    ensures r.Some? ==> lo <= r.value < hi
  {
    var negative := s != "" && s[0] == '-';
    var body := if s != "" && (s[0] == '-' || s[0] == '+') then s[1..] else s;
    var n := Digits(body);
    if n.None? then None
    else
      var v: int := if negative then -(n.value as int) else n.value;
      if lo <= v < hi then Some(v) else None
  }

  function Itoa(n: nat): (s: string)
    ensures s != ""
  {
    var digit := (n % 10) as char + '0';
    if n < 10 then [digit] else Itoa(n / 10) + [digit]
  }

  lemma {:induction false} DigitsOfItoa(n: nat)
    ensures Digits(Itoa(n)) == Some(n) && '0' <= Itoa(n)[0] <= '9'
  {
    if n >= 10 {
      DigitsOfItoa(n / 10);
      assert Itoa(n)[..|Itoa(n)| - 1] == Itoa(n / 10);
    }
  }

  /** What is written is read back. */
  lemma ParseOfItoa(n: nat, lo: int, hi: int)
    requires lo <= n < hi
    ensures ParseSigned(Itoa(n), lo, hi) == Some(n)
  {
    DigitsOfItoa(n);
  }

  /** So is a signed text, and one out of range is refused. */
  lemma ParseOfSigned(n: nat, lo: int, hi: int)
    ensures ParseSigned("-" + Itoa(n), lo, hi) == if lo <= -(n as int) < hi then Some(-(n as int)) else None
    ensures ParseSigned("+" + Itoa(n), lo, hi) == ParseSigned(Itoa(n), lo, hi) == if lo <= n < hi then Some(n) else None
    ensures ParseSigned("", lo, hi) == None
  {
    DigitsOfItoa(n);
    assert ("-" + Itoa(n))[1..] == Itoa(n) && ("+" + Itoa(n))[1..] == Itoa(n);
  }
}
