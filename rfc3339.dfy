/**
 * Timestamps as RFC 3339 text (section 5.6 of RFC 3339, with fractional
 * seconds), as Go's `time.Parse(time.RFC3339Nano, s)` reads them on its
 * direct path: fixed-position fields checked against their ranges, an
 * optional fraction of any length of which the first nine digits count,
 * and a zone that is `Z` or a signed `hh:mm` offset.
 */
module Rfc3339 {
  import opened Wrappers
  import opened Decimal

  /** A civil date and time with the zone offset it was written in, in minutes east of UTC. */
  datatype Time = Time(year: int, month: int, day: int, hour: int, minute: int, second: int,
                       nanos: int, offsetMinutes: int)

  predicate IsLeapYear(y: int)
  {
    y % 4 == 0 && (y % 100 != 0 || y % 400 == 0)
  }

  /** Go's `daysIn`: the number of days of a month (1 to 12) in a year. */
  function DaysIn(month: int, year: int): int
  {
    if month == 2 then (if IsLeapYear(year) then 29 else 28)
    else if month == 4 || month == 6 || month == 9 || month == 11 then 30
    else 31
  }

  const MaxOffsetMinutes := 23 * 60 + 59

  /** Every field in the range the parser admits. */
  predicate ValidTime(t: Time)
  {
    && 0 <= t.year <= 9999 && 1 <= t.month <= 12 && 1 <= t.day <= DaysIn(t.month, t.year)
    && 0 <= t.hour <= 23 && 0 <= t.minute <= 59 && 0 <= t.second <= 59
    && 0 <= t.nanos < 1_000_000_000
    && -MaxOffsetMinutes <= t.offsetMinutes <= MaxOffsetMinutes
  }

  /** The digits `s[lo..hi]` read as a number in `[min, max]`, or nothing. */
  function NumField(s: string, lo: nat, hi: nat, min: int, max: int): (r: Option<int>)
    requires lo <= hi <= |s|
    ensures r.Some? ==> min <= r.value <= max
    ensures r.Some? <==> AllDigits(s[lo..hi]) && min <= DigitsValue(s[lo..hi]) <= max
  {
    if AllDigits(s[lo..hi]) && min <= DigitsValue(s[lo..hi]) <= max then Some(DigitsValue(s[lo..hi])) else None
  }

  /** The length of the run of digits at the front of `s`. */
  function DigitRun(s: string): (n: nat)
    ensures n <= |s| && AllDigits(s[..n])
    ensures n < |s| ==> !IsDigit(s[n])
  {
    if s == [] || !IsDigit(s[0]) then 0
    else
      var n := 1 + DigitRun(s[1..]);
      assert forall k :: 1 <= k < n ==> s[..n][k] == s[1..][..n - 1][k - 1];
      n
  }

  /** Go's `parseNanoseconds`: the first nine fraction digits, scaled to nanoseconds. */
  function FractionNanos(d: string): (ns: nat)
    requires AllDigits(d)
    ensures ns < 1_000_000_000
  {
    var k := if |d| > 9 then 9 else |d|;
    assert AllDigits(d[..k]);
    DigitsBelowPow10(d[..k]);
    Pow10Add(k, 9 - k);
    LessMul(DigitsValue(d[..k]), Pow10(k), Pow10(9 - k));
    Pow10Nine();
    DigitsValue(d[..k]) * Pow10(9 - k)
  }

  lemma LessMul(a: nat, b: nat, c: nat)
    requires a < b && c >= 1
    ensures a * c < b * c
  {
  }

  /** The zone designator: `Z`, or `+hh:mm` / `-hh:mm` with hh up to 23 and mm up to 59. */
  function ParseZone(z: string): (r: Option<int>)
    ensures r.Some? ==> -MaxOffsetMinutes <= r.value <= MaxOffsetMinutes
  {
    if z == "Z" then Some(0)
    else if |z| != 6 then None
    else
      match (NumField(z, 1, 3, 0, 23), NumField(z, 4, 6, 0, 59))
      case (Some(hr), Some(mm)) =>
        if (z[0] == '-' || z[0] == '+') && z[3] == ':' then
          Some(if z[0] == '-' then -(hr * 60 + mm) else hr * 60 + mm)
        else None
      case _ => None
  }

  /**
   * The first nineteen characters, `YYYY-MM-DDThh:mm:ss`, with the day checked
   * against the month and year. The fraction and the zone are zero here.
   */
  function ParseHead(h: string): (r: Option<Time>)
    requires |h| == 19
    ensures r.Some? ==> ValidTime(r.value) && r.value.nanos == 0 && r.value.offsetMinutes == 0
  {
    match (NumField(h, 0, 4, 0, 9999), NumField(h, 5, 7, 1, 12))
    case (Some(year), Some(month)) =>
      (match (NumField(h, 8, 10, 1, DaysIn(month, year)), NumField(h, 11, 13, 0, 23),
              NumField(h, 14, 16, 0, 59), NumField(h, 17, 19, 0, 59))
       case (Some(day), Some(hour), Some(minute), Some(second)) =>
         if h[4] == '-' && h[7] == '-' && h[10] == 'T' && h[13] == ':' && h[16] == ':' then
           Some(Time(year, month, day, hour, minute, second, 0, 0))
         else None
       case _ => None)
    case _ => None
  }

  /** What follows the seconds: an optional `.digits` fraction, then the zone. */
  function ParseTail(rest: string): (r: Option<(nat, int)>)
    ensures r.Some? ==> r.value.0 < 1_000_000_000 && -MaxOffsetMinutes <= r.value.1 <= MaxOffsetMinutes
  {
    var n := if |rest| >= 2 && rest[0] == '.' && IsDigit(rest[1]) then 1 + DigitRun(rest[1..]) else 0;
    var nanos := if n == 0 then 0 else assert rest[1..n] == rest[1..][..n - 1]; FractionNanos(rest[1..n]);
    match ParseZone(rest[n..])
    case Some(offset) => Some((nanos, offset))
    case None => None
  }

  /**
   * `time.Parse(time.RFC3339Nano, s)`: a time whose fields are all in range,
   * or nothing when the text is malformed.
   */
  function Parse(s: string): (r: Option<Time>)
    ensures r.Some? ==> ValidTime(r.value)
  {
    if |s| < 19 then None
    else
      match (ParseHead(s[..19]), ParseTail(s[19..]))
      case (Some(t), Some((nanos, offset))) => Some(t.(nanos := nanos, offsetMinutes := offset))
      case _ => None
  }

  /** `n` as exactly `w` decimal digits, zero-padded. */
  function Fixed(n: nat, w: nat): (d: string)
    requires n < Pow10(w)
    ensures |d| == w && AllDigits(d)
    ensures DigitsValue(d) == n
  {
    if w == 0 then []
    else
      var d := Fixed(n / 10, w - 1) + [DigitChar(n % 10)];
      assert d[..|d| - 1] == Fixed(n / 10, w - 1);
      d
  }

  function Zone(offset: int): string
    requires -MaxOffsetMinutes <= offset <= MaxOffsetMinutes
  {
    Pow10Nine();
    if offset == 0 then "Z"
    else
      var a := if offset < 0 then -offset else offset;
      (if offset < 0 then "-" else "+") + Fixed(a / 60, 2) + ":" + Fixed(a % 60, 2)
  }

  function FormatHead(t: Time): (h: string)
    requires ValidTime(t)
    ensures |h| == 19
  {
    Pow10Nine();
    Fixed(t.year, 4) + "-" + Fixed(t.month, 2) + "-" + Fixed(t.day, 2) + "T"
    + Fixed(t.hour, 2) + ":" + Fixed(t.minute, 2) + ":" + Fixed(t.second, 2)
  }

  function FormatTail(t: Time): string
    requires ValidTime(t)
  {
    Pow10Nine();
    (if t.nanos == 0 then "" else "." + Fixed(t.nanos, 9)) + Zone(t.offsetMinutes)
  }

  /** RFC 3339 text of a time, with nine fraction digits unless the fraction is zero. */
  function Format(t: Time): string
    requires ValidTime(t)
  {
    FormatHead(t) + FormatTail(t)
  }

  lemma ZoneRoundTrip(offset: int)
    requires -MaxOffsetMinutes <= offset <= MaxOffsetMinutes
    ensures ParseZone(Zone(offset)) == Some(offset)
  {
    if offset != 0 {
      var a := if offset < 0 then -offset else offset;
      assert Pow10(2) == 100;
      var z := Zone(offset);
      assert z[1..3] == Fixed(a / 60, 2);
      assert z[4..6] == Fixed(a % 60, 2);
    }
  }

  lemma FractionRoundTrip(nanos: nat, z: string)
    requires 0 < nanos < 1_000_000_000 && z != [] && !IsDigit(z[0])
    ensures var rest := "." + Fixed(nanos, 9) + z;
            && |rest| >= 2 && rest[0] == '.' && IsDigit(rest[1])
            && 1 + DigitRun(rest[1..]) == 10
            && FractionNanos(rest[1..10]) == nanos
            && rest[10..] == z
  {
    var rest := "." + Fixed(nanos, 9) + z;
    Pow10Nine();
    assert rest[1..] == Fixed(nanos, 9) + z;
    DigitRunStops(Fixed(nanos, 9), z);
    assert rest[1..10] == Fixed(nanos, 9);
    assert rest[1..10][..9] == rest[1..10];
  }

  lemma {:induction false} DigitRunStops(d: string, z: string)
    requires AllDigits(d) && z != [] && !IsDigit(z[0])
    ensures DigitRun(d + z) == |d|
  {
    if d != [] {
      assert (d + z)[1..] == d[1..] + z;
      DigitRunStops(d[1..], z);
    } else {
      assert d + z == z;
    }
  }

  lemma HeadRoundTrip(t: Time)
    requires ValidTime(t)
    ensures ParseHead(FormatHead(t)) == Some(t.(nanos := 0, offsetMinutes := 0))
  {
    Pow10Nine();
    var h := FormatHead(t);
    assert h[0..4] == Fixed(t.year, 4);
    assert h[5..7] == Fixed(t.month, 2);
    assert h[8..10] == Fixed(t.day, 2);
    assert h[11..13] == Fixed(t.hour, 2);
    assert h[14..16] == Fixed(t.minute, 2);
    assert h[17..19] == Fixed(t.second, 2);
  }

  lemma TailRoundTrip(t: Time)
    requires ValidTime(t)
    ensures ParseTail(FormatTail(t)) == Some((t.nanos, t.offsetMinutes))
  {
    var z := Zone(t.offsetMinutes);
    ZoneRoundTrip(t.offsetMinutes);
    assert z != [] && !IsDigit(z[0]);
    if t.nanos != 0 {
      FractionRoundTrip(t.nanos, z);
    } else {
      assert FormatTail(t) == z;
    }
  }

  /** Every valid time reads back from its own RFC 3339 text. */
  lemma FormatParseRoundTrip(t: Time)
    requires ValidTime(t)
    ensures Parse(Format(t)) == Some(t)
  {
    var s := Format(t);
    assert s[..19] == FormatHead(t);
    assert s[19..] == FormatTail(t);
    HeadRoundTrip(t);
    TailRoundTrip(t);
  }
}
