/**
 * Python `datetime` values and the two textual forms the service writes: the compact
 * `strftime('%Y%m%d%H%M%S')` stamp used inside prediction ids, and `isoformat()`.
 */
module Clock {
  import opened Wrappers

  /** A Python `datetime`, down to the microsecond (no time zone). */
  datatype DateTime = DateTime(year: nat, month: nat, day: nat,
                               hour: nat, minute: nat, second: nat, microsecond: nat)

  predicate IsLeapYear(year: int) {
    year % 4 == 0 && (year % 100 != 0 || year % 400 == 0)
  }

  function DaysInMonth(year: int, month: int): (n: int)
    requires 1 <= month <= 12
    ensures 28 <= n <= 31
  {
    if month == 2 then (if IsLeapYear(year) then 29 else 28)
    else if month == 4 || month == 6 || month == 9 || month == 11 then 30
    else 31
  }

  /** The values Python's `datetime` constructor accepts (MINYEAR is 1, MAXYEAR is 9999). */
  predicate Valid(t: DateTime) {
    && 1 <= t.year <= 9999
    && 1 <= t.month <= 12
    && 1 <= t.day <= DaysInMonth(t.year, t.month)
    && t.hour < 24
    && t.minute < 60
    && t.second < 60
    && t.microsecond < 1000000
  }

  /**
   * `%Y` pads years below 1000 differently on different C libraries; the compact stamp is
   * modelled only for four-digit years.
   */
  predicate HasFourDigitYear(t: DateTime) {
    Valid(t) && 1000 <= t.year
  }

  /** Two instants that fall in the same wall-clock second. */
  predicate SameSecond(a: DateTime, b: DateTime) {
    && a.year == b.year && a.month == b.month && a.day == b.day
    && a.hour == b.hour && a.minute == b.minute && a.second == b.second
  }

  function Pow10(n: nat): (p: nat)
    ensures p >= 1
  {
    if n == 0 then 1 else 10 * Pow10(n - 1)
  }

  predicate IsDigit(c: char) {
    '0' <= c <= '9'
  }

  predicate AllDigits(s: string) {
    forall i :: 0 <= i < |s| ==> IsDigit(s[i])
  }

  function DigitChar(d: nat): (c: char)
    requires d < 10
    ensures IsDigit(c)
  {
    (48 + d) as char
  }

  function DigitValue(c: char): (d: nat)
    requires IsDigit(c)
    ensures d < 10 && DigitChar(d) == c
  {
    c as int - 48
  }

  /** `n` printed with `%0<width>d` (for `n < 10^width`): exactly `width` decimal digits. */
  function Digits(n: nat, width: nat): (s: string)
    ensures |s| == width && AllDigits(s)
  {
    if width == 0 then [] else Digits(n / 10, width - 1) + [DigitChar(n % 10)]
  }

  /** The number a string of decimal digits denotes. */
  function DigitsValue(s: string): (n: nat)
    requires AllDigits(s)
    ensures n < Pow10(|s|)
  {
    if s == [] then 0 else 10 * DigitsValue(s[..|s| - 1]) + DigitValue(s[|s| - 1])
  }

  /** Reading back a zero-padded number gives the number. */
  lemma {:induction false} DigitsRoundTrip(n: nat, width: nat)
    requires n < Pow10(width)
    ensures DigitsValue(Digits(n, width)) == n
  {
    if width > 0 {
      var s := Digits(n, width);
      assert s[..width - 1] == Digits(n / 10, width - 1);
      DigitsRoundTrip(n / 10, width - 1);
    }
  }

  /** Reads a `w`-digit decimal number off the front of `s`, returning it and what follows. */
  function ReadNumber(s: string, w: nat): Option<(nat, string)>
  {
    if w <= |s| && AllDigits(s[..w]) then Some((DigitsValue(s[..w]), s[w..])) else None
  }

  /** Reads the separator `c` off the front of `s`. */
  function ReadChar(s: string, c: char): Option<string>
  {
    if |s| > 0 && s[0] == c then Some(s[1..]) else None
  }

  /** A zero-padded number followed by anything reads back as that number and that rest. */
  lemma ReadDigits(n: nat, w: nat, rest: string)
    requires n < Pow10(w)
    ensures ReadNumber(Digits(n, w) + rest, w) == Some((n, rest))
  {
    var s := Digits(n, w) + rest;
    assert s[..w] == Digits(n, w);
    assert s[w..] == rest;
    DigitsRoundTrip(n, w);
  }

  /** `t.strftime('%Y%m%d%H%M%S')`: the microseconds are dropped. */
  function Strftime(t: DateTime): (s: string)
    requires HasFourDigitYear(t)
    ensures |s| == 14 && AllDigits(s)
  {
    Digits(t.year, 4) + (Digits(t.month, 2) + (Digits(t.day, 2)
      + (Digits(t.hour, 2) + (Digits(t.minute, 2) + Digits(t.second, 2)))))
  }

  /**
   * Reads a compact stamp back: the inverse of `Strftime`, used to show what the stamp retains
   * (Python's `strptime` is more lenient about field widths).
   */
  function ParseStamp(s: string): (r: Option<DateTime>)
    ensures r.Some? ==> HasFourDigitYear(r.value) && r.value.microsecond == 0
  {
    var y := ReadNumber(s, 4);
    if y.None? then None else
    var mo := ReadNumber(y.value.1, 2);
    if mo.None? then None else
    var d := ReadNumber(mo.value.1, 2);
    if d.None? then None else
    var h := ReadNumber(d.value.1, 2);
    if h.None? then None else
    var mi := ReadNumber(h.value.1, 2);
    if mi.None? then None else
    var sec := ReadNumber(mi.value.1, 2);
    if sec.None? || sec.value.1 != [] then None else
    var t := DateTime(y.value.0, mo.value.0, d.value.0, h.value.0, mi.value.0, sec.value.0, 0);
    if HasFourDigitYear(t) then Some(t) else None
  }

  /** The compact stamp holds exactly the instant truncated to the second. */
  lemma StrftimeRoundTrip(t: DateTime)
    requires HasFourDigitYear(t)
    ensures ParseStamp(Strftime(t)) == Some(t.(microsecond := 0))
  {
    var mo, d := Digits(t.month, 2), Digits(t.day, 2);
    var h, mi, sec := Digits(t.hour, 2), Digits(t.minute, 2), Digits(t.second, 2);
    assert Pow10(2) == 100 && Pow10(4) == 10000;
    assert Strftime(t) == Digits(t.year, 4) + (mo + (d + (h + (mi + sec))));
    assert HasFourDigitYear(t.(microsecond := 0));
    ReadDigits(t.year, 4, mo + (d + (h + (mi + sec))));
    ReadDigits(t.month, 2, d + (h + (mi + sec)));
    ReadDigits(t.day, 2, h + (mi + sec));
    ReadDigits(t.hour, 2, mi + sec);
    ReadDigits(t.minute, 2, sec);
    ReadDigits(t.second, 2, []);
    assert sec + [] == sec;
  }

  /** Two instants get the same compact stamp exactly when they fall in the same second. */
  lemma StrftimeSameSecond(a: DateTime, b: DateTime)
    requires HasFourDigitYear(a) && HasFourDigitYear(b)
    ensures Strftime(a) == Strftime(b) <==> SameSecond(a, b)
  {
    if Strftime(a) == Strftime(b) {
      StrftimeRoundTrip(a);
      StrftimeRoundTrip(b);
      assert a.(microsecond := 0) == b.(microsecond := 0);
    }
  }

  /** `t.isoformat()`: `YYYY-MM-DDTHH:MM:SS`, then `.ffffff` when there are microseconds. */
  function IsoFormat(t: DateTime): (s: string)
    ensures |s| == if t.microsecond == 0 then 19 else 26
  {
    var frac := if t.microsecond == 0 then "" else "." + Digits(t.microsecond, 6);
    Digits(t.year, 4) + ("-" + (Digits(t.month, 2) + ("-" + (Digits(t.day, 2) + ("T"
      + (Digits(t.hour, 2) + (":" + (Digits(t.minute, 2) + (":" + (Digits(t.second, 2) + frac))))))))))
  }

  /**
   * Reads `isoformat()` output back, as `datetime.fromisoformat` does for the two shapes
   * `isoformat()` produces.
   */
  function ParseIsoFormat(s: string): (r: Option<DateTime>)
    ensures r.Some? ==> Valid(r.value)
  {
    var y := ReadNumber(s, 4);
    if y.None? then None else
    var s1 := ReadChar(y.value.1, '-');
    if s1.None? then None else
    var mo := ReadNumber(s1.value, 2);
    if mo.None? then None else
    var s2 := ReadChar(mo.value.1, '-');
    if s2.None? then None else
    var d := ReadNumber(s2.value, 2);
    if d.None? then None else
    var s3 := ReadChar(d.value.1, 'T');
    if s3.None? then None else
    var h := ReadNumber(s3.value, 2);
    if h.None? then None else
    var s4 := ReadChar(h.value.1, ':');
    if s4.None? then None else
    var mi := ReadNumber(s4.value, 2);
    if mi.None? then None else
    var s5 := ReadChar(mi.value.1, ':');
    if s5.None? then None else
    var sec := ReadNumber(s5.value, 2);
    if sec.None? then None else
    var us := if sec.value.1 == [] then Some((0, [])) else
      var s6 := ReadChar(sec.value.1, '.');
      if s6.None? then None else ReadNumber(s6.value, 6);
    if us.None? || us.value.1 != [] then None else
    var t := DateTime(y.value.0, mo.value.0, d.value.0, h.value.0, mi.value.0, sec.value.0,
                      us.value.0);
    if Valid(t) then Some(t) else None
  }

  /** `fromisoformat(t.isoformat()) == t` for every datetime. */
  lemma IsoFormatRoundTrip(t: DateTime)
    requires Valid(t)
    ensures ParseIsoFormat(IsoFormat(t)) == Some(t)
  {
    var mo, d := Digits(t.month, 2), Digits(t.day, 2);
    var h, mi, sec := Digits(t.hour, 2), Digits(t.minute, 2), Digits(t.second, 2);
    var frac := if t.microsecond == 0 then "" else "." + Digits(t.microsecond, 6);
    assert Pow10(2) == 100 && Pow10(4) == 10000 && Pow10(6) == 1000000;
    var r5 := sec + frac;
    var r4 := mi + (":" + r5);
    var r3 := h + (":" + r4);
    var r2 := d + ("T" + r3);
    var r1 := mo + ("-" + r2);
    ReadDigits(t.year, 4, "-" + r1);
    ReadDigits(t.month, 2, "-" + r2);
    ReadDigits(t.day, 2, "T" + r3);
    ReadDigits(t.hour, 2, ":" + r4);
    ReadDigits(t.minute, 2, ":" + r5);
    ReadDigits(t.second, 2, frac);
    if t.microsecond != 0 {
      ReadDigits(t.microsecond, 6, []);
      assert Digits(t.microsecond, 6) + [] == Digits(t.microsecond, 6);
    }
  }
}
