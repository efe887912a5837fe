/**
 * The wall-clock rendering `strftime("%H:%M:%S")` that subway.py applies to a
 * predicted arrival instant: two-digit, zero-padded, 24-hour fields separated
 * by colons.  The parser is not in the program; it is the inverse that shows
 * the rendering loses nothing of the clock time.
 */
module TimeFormat {
  import opened Wrappers

  /** The time-of-day part of an arrival instant, as `%H`, `%M` and `%S` read it. */
  datatype Clock = Clock(hour: nat, minute: nat, second: nat)

  /** A clock time a datetime can hold. */
  type Instant = c: Clock | c.hour < 24 && c.minute < 60 && c.second < 60 witness Clock(0, 0, 0)

  predicate IsDigit(c: char) {
    '0' <= c <= '9'
  }

  function DigitValue(c: char): (d: nat)
    requires IsDigit(c)
    ensures d < 10
  {
    c as int - '0' as int
  }

  function Digit(d: nat): (c: char)
    requires d < 10
    ensures IsDigit(c) && DigitValue(c) == d
  {
    ('0' as int + d) as char
  }

  /** A number below 100 written with exactly two decimal digits, zero-padded. */
  function TwoDigits(n: nat): (s: string)
    requires n < 100
    ensures |s| == 2 && IsDigit(s[0]) && IsDigit(s[1])
    ensures DigitValue(s[0]) * 10 + DigitValue(s[1]) == n
  {
    [Digit(n / 10), Digit(n % 10)]
  }

  /** `strftime("%H:%M:%S")`: always eight characters, digits and two colons. */
  function FormatHms(t: Instant): (s: string)
    ensures |s| == 8 && s[2] == ':' && s[5] == ':'
    ensures forall k :: 0 <= k < |s| && k != 2 && k != 5 ==> IsDigit(s[k])
    ensures '\n' !in s
  {
    TwoDigits(t.hour) + ":" + TwoDigits(t.minute) + ":" + TwoDigits(t.second)
  }

  /** The value of the two digits at positions `k` and `k + 1`. */
  function FieldAt(s: string, k: nat): (n: nat)
    requires k + 1 < |s| && IsDigit(s[k]) && IsDigit(s[k + 1])
    ensures n < 100
  {
    DigitValue(s[k]) * 10 + DigitValue(s[k + 1])
  }

  /** Reads back an `HH:MM:SS` string; `None` for anything `FormatHms` cannot produce. */
  function ParseHms(s: string): (r: Option<Instant>)
  {
    if |s| == 8 && s[2] == ':' && s[5] == ':'
       && forall k :: 0 <= k < 8 && k != 2 && k != 5 ==> IsDigit(s[k])
    then
      var t := Clock(FieldAt(s, 0), FieldAt(s, 3), FieldAt(s, 6));
      if t.hour < 24 && t.minute < 60 && t.second < 60 then Some(t) else None
    else
      None
  }

  /** Parsing a rendered time gives back that time. */
  lemma ParseFormat(t: Instant)
    ensures ParseHms(FormatHms(t)) == Some(t)
  {
  }

  /** Two digits read as a number and written back are the same two digits. */
  lemma TwoDigitsOfField(s: string, k: nat)
    requires k + 1 < |s| && IsDigit(s[k]) && IsDigit(s[k + 1])
    ensures TwoDigits(FieldAt(s, k)) == s[k..k + 2]
  {
    var hi, lo := DigitValue(s[k]), DigitValue(s[k + 1]);
    assert FieldAt(s, k) / 10 == hi && FieldAt(s, k) % 10 == lo;
    assert Digit(hi) == s[k] && Digit(lo) == s[k + 1];
  }

  /** Every string the parser accepts is the rendering of what it returns. */
  lemma FormatParse(s: string)
    requires ParseHms(s).Some?
    ensures FormatHms(ParseHms(s).value) == s
  {
    TwoDigitsOfField(s, 0);
    TwoDigitsOfField(s, 3);
    TwoDigitsOfField(s, 6);
    assert s == s[0..2] + [s[2]] + s[3..5] + [s[5]] + s[6..8];
  }
}
