/**
 * Base-10 integers as text: `strconv.ParseInt(s, 10, 64)`, which the row
 * reader uses to read an integer that a driver delivered as bytes, and its
 * partner `strconv.FormatInt(v, 10)`, the text a driver sends for an integer.
 */
module Decimal {
  import opened Wrappers

  const MaxUint64: nat := 0xFFFF_FFFF_FFFF_FFFF
  const MaxInt64: int := 0x7FFF_FFFF_FFFF_FFFF
  const MinInt64: int := -0x8000_0000_0000_0000

  predicate InInt64(v: int)
  {
    MinInt64 <= v <= MaxInt64
  }

  predicate IsDigit(c: char)
  {
    '0' <= c <= '9'
  }

  function DigitValue(c: char): nat
    requires IsDigit(c)
  {
    (c as int) - ('0' as int)
  }

  predicate AllDigits(d: string)
  {
    forall k :: 0 <= k < |d| ==> IsDigit(d[k])
  }

  /** Positional value of a digit string: the last digit has weight 1. */
  function DigitsValue(d: string): nat
    requires AllDigits(d)
  {
    if d == [] then 0 else DigitsValue(d[..|d| - 1]) * 10 + DigitValue(d[|d| - 1])
  }

  /** The digits after an optional leading sign. */
  function Unsigned(s: string): string
  {
    if s != [] && (s[0] == '+' || s[0] == '-') then s[1..] else s
  }

  /** The reference syntax: an optional sign followed by one or more decimal digits. */
  predicate IsDecimal(s: string)
  {
    Unsigned(s) != [] && AllDigits(Unsigned(s))
  }

  /** The reference value of a decimal numeral. */
  function DecimalValue(s: string): int
    requires IsDecimal(s)
  {
    if s[0] == '-' then -(DigitsValue(Unsigned(s)) as int) else DigitsValue(Unsigned(s))
  }

  function Pow10(n: nat): (p: nat)
    ensures p >= 1
  {
    if n == 0 then 1 else 10 * Pow10(n - 1)
  }

  lemma Pow10Nine()
    ensures Pow10(2) == 100 && Pow10(4) == 10_000 && Pow10(9) == 1_000_000_000
  {
    assert Pow10(3) == 1000;
    assert Pow10(6) == 1000 * Pow10(3);
  }

  lemma {:induction false} Pow10Add(a: nat, b: nat)
    ensures Pow10(a + b) == Pow10(a) * Pow10(b)
  {
    if a > 0 {
      Pow10Add(a - 1, b);
    }
  }

  /** A string of k digits is worth less than 10^k. */
  lemma {:induction false} DigitsBelowPow10(d: string)
    requires AllDigits(d)
    ensures DigitsValue(d) < Pow10(|d|)
  {
    if d != [] {
      var init := d[..|d| - 1];
      DigitsBelowPow10(init);
      assert DigitsValue(init) + 1 <= Pow10(|init|);
    }
  }

  /** A longer prefix of a digit string is never worth less. */
  lemma {:induction false} PrefixValueMonotone(d: string, i: nat, j: nat)
    requires AllDigits(d) && i <= j <= |d|
    ensures AllDigits(d[..i]) && AllDigits(d[..j])
    ensures DigitsValue(d[..i]) <= DigitsValue(d[..j])
    decreases j - i
  {
    assert AllDigits(d[..j]);
    if i < j {
      PrefixValueMonotone(d, i, j - 1);
      assert d[..j][..j - 1] == d[..j - 1];
    }
  }

  /** Once a prefix of a digit string passes a bound, the whole string does. */
  lemma OverflowIsFinal(s: string, i: nat)
    requires i <= |s| && AllDigits(s[..i]) && DigitsValue(s[..i]) > MaxUint64
    ensures AllDigits(s) ==> DigitsValue(s) > MaxUint64
  {
    if AllDigits(s) {
      PrefixValueMonotone(s, i, |s|);
      assert s[..|s|] == s;
    }
  }

  /**
   * The digit loop of `strconv.ParseUint` for base 10 and 64 bits: `acc` is
   * the value of `s[..i]`; a non-digit, or a value that would pass the 64-bit
   * maximum, is an error.
   */
  function ParseUintFrom(s: string, i: nat, acc: nat): (r: Option<nat>)
    requires i <= |s| && AllDigits(s[..i]) && acc == DigitsValue(s[..i]) && acc <= MaxUint64
    ensures r.Some? <==> AllDigits(s) && DigitsValue(s) <= MaxUint64
    ensures r.Some? ==> r.value == DigitsValue(s)
    decreases |s| - i
  {
    if i == |s| then
      assert s[..i] == s;
      Some(acc)
    else if !IsDigit(s[i]) then
      None
    else
      assert s[..i + 1][..i] == s[..i];
      assert AllDigits(s[..i + 1]);
      var n := acc * 10 + DigitValue(s[i]);
      if acc >= MaxUint64 / 10 + 1 || n > MaxUint64 then
        OverflowIsFinal(s, i + 1);
        None
      else
        ParseUintFrom(s, i + 1, n)
  }

  /** `strconv.ParseUint(s, 10, 64)`; the empty string is a syntax error. */
  function ParseUint64(s: string): (r: Option<nat>)
    ensures r.Some? <==> s != [] && AllDigits(s) && DigitsValue(s) <= MaxUint64
    ensures r.Some? ==> r.value == DigitsValue(s)
  {
    if s == [] then None else ParseUintFrom(s, 0, 0)
  }

  /**
   * `strconv.ParseInt(s, 10, 64)`: succeeds exactly on an optionally signed
   * decimal numeral whose value fits in 64 bits, and then returns that value.
   */
  function ParseInt64(s: string): (r: Option<int>)
    ensures r.Some? <==> IsDecimal(s) && InInt64(DecimalValue(s))
    ensures r.Some? ==> r.value == DecimalValue(s)
  {
    if s == [] then None
    else
      var neg := s[0] == '-';
      match ParseUint64(Unsigned(s))
      case None => None
      case Some(u) =>
        if !neg && u > MaxInt64 then None
        else if neg && u > -MinInt64 then None
        else Some(if neg then -(u as int) else u)
  }

  function DigitChar(n: nat): (c: char)
    requires n < 10
    ensures IsDigit(c) && DigitValue(c) == n
  {
    ('0' as int + n) as char
  }

  /** `strconv.FormatUint(n, 10)`: the shortest digit string of `n`. */
  function FormatNat(n: nat): (d: string)
    ensures d != [] && AllDigits(d)
    ensures DigitsValue(d) == n
  {
    if n < 10 then [DigitChar(n)]
    else
      var d := FormatNat(n / 10) + [DigitChar(n % 10)];
      assert d[..|d| - 1] == FormatNat(n / 10);
      d
  }

  /** `strconv.FormatInt(v, 10)`: a leading minus sign for negative values. */
  function FormatInt64(v: int): (s: string)
    ensures s != [] && (s[0] == '-' <==> v < 0)
  {
    if v < 0 then "-" + FormatNat(-v) else FormatNat(v)
  }

  /** Every 64-bit value reads back from its own decimal text. */
  lemma FormatParseRoundTrip(v: int)
    requires InInt64(v)
    ensures ParseInt64(FormatInt64(v)) == Some(v)
  {
    var s := FormatInt64(v);
    if v < 0 {
      assert Unsigned(s) == FormatNat(-v);
    } else {
      assert IsDigit(s[0]);
      assert Unsigned(s) == s;
    }
  }

  /** A numeral beyond the 64-bit range is refused, with or without a minus sign. */
  lemma ParseOutOfRange(n: nat)
    requires n > MaxInt64
    ensures ParseInt64(FormatNat(n)) == None
    ensures n > -MinInt64 ==> ParseInt64("-" + FormatNat(n)) == None
  {
    var d := FormatNat(n);
    assert IsDigit(d[0]);
    assert Unsigned(d) == d;
    assert Unsigned("-" + d) == d;
  }
}
