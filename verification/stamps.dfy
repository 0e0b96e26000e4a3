/**
 The publish timestamp of a manifest: a calendar date and wall-clock time
 rendered with `strftime("%Y%m%d_%H%M%S")`, and the parser that reads such a
 stamp back.
 */
module Stamps {
  import opened Outcomes

  /** The fields of a Python `datetime` that the format uses. */
  datatype DateTime = DateTime(year: int, month: int, day: int, hour: int, minute: int, second: int)

  predicate IsLeapYear(year: int) {
    year % 4 == 0 && (year % 100 != 0 || year % 400 == 0)
  }

  function DaysInMonth(year: int, month: int): int
    requires 1 <= month <= 12
  {
    if month == 2 then (if IsLeapYear(year) then 29 else 28)
    else if month == 4 || month == 6 || month == 9 || month == 11 then 30
    else 31
  }

  /** The ranges a Python `datetime` enforces on its fields. */
  predicate Valid(t: DateTime) {
    && 1 <= t.year <= 9999
    && 1 <= t.month <= 12
    && 1 <= t.day <= DaysInMonth(t.year, t.month)
    && 0 <= t.hour < 24
    && 0 <= t.minute < 60
    && 0 <= t.second < 60
  }

  function Pow10(n: nat): nat {
    if n == 0 then 1 else 10 * Pow10(n - 1)
  }

  predicate IsDigit(c: char) {
    '0' <= c <= '9'
  }

  predicate AllDigits(s: string) {
    forall i :: 0 <= i < |s| ==> IsDigit(s[i])
  }

  /** `n` in decimal, zero-padded on the left to exactly `width` digits. */
  function Digits(n: nat, width: nat): (s: string)
    requires n < Pow10(width)
    ensures |s| == width && AllDigits(s)
  {
    if width == 0 then ""
    else Digits(n / 10, width - 1) + [('0' as int + n % 10) as char]
  }

  /** The number a string of decimal digits denotes. */
  function Value(s: string): nat
    requires AllDigits(s)
  {
    if |s| == 0 then 0
    else 10 * Value(s[..|s| - 1]) + (s[|s| - 1] as int - '0' as int)
  }

  lemma {:induction false} ValueOfDigits(n: nat, width: nat)
    requires n < Pow10(width)
    ensures Value(Digits(n, width)) == n
  {
    if width > 0 {
      var s := Digits(n, width);
      assert s[..|s| - 1] == Digits(n / 10, width - 1);
      ValueOfDigits(n / 10, width - 1);
    }
  }

  lemma {:induction false} DigitsOfValue(s: string)
    requires AllDigits(s)
    ensures Value(s) < Pow10(|s|)
    ensures Digits(Value(s), |s|) == s
  {
    if |s| > 0 {
      var init := s[..|s| - 1];
      DigitsOfValue(init);
      assert s == init + [s[|s| - 1]];
    }
  }

  /** The shape `YYYYMMDD_HHMMSS`: fifteen characters, an underscore at index 8 and decimal digits elsewhere. */
  predicate IsStampShape(s: string) {
    && |s| == 15
    && s[8] == '_'
    && AllDigits(s[..8])
    && AllDigits(s[9..])
  }

  /** `t.strftime("%Y%m%d_%H%M%S")`. */
  function Format(t: DateTime): (s: string)
    requires Valid(t)
    ensures IsStampShape(s)
  {
    var date := Digits(t.year, 4) + Digits(t.month, 2) + Digits(t.day, 2);
    var time := Digits(t.hour, 2) + Digits(t.minute, 2) + Digits(t.second, 2);
    assert (date + "_" + time)[..8] == date;
    assert (date + "_" + time)[9..] == time;
    date + "_" + time
  }

  /** Reads a stamp back; None for text that is not a well-formed stamp of a valid date and time. */
  function Parse(s: string): (r: Option<DateTime>)
    ensures r.Some? ==> IsStampShape(s) && Valid(r.value)
  {
    if !IsStampShape(s) then None
    else
      var date := s[..8];
      var time := s[9..];
      var t := DateTime(Value(date[..4]), Value(date[4..6]), Value(date[6..]),
                        Value(time[..2]), Value(time[2..4]), Value(time[4..]));
      if Valid(t) then Some(t) else None
  }

  /** Parsing a formatted stamp gives back the date and time it was made from. */
  lemma {:induction false} ParseFormat(t: DateTime)
    requires Valid(t)
    ensures Parse(Format(t)) == Some(t)
  {
    var s := Format(t);
    var date := Digits(t.year, 4) + Digits(t.month, 2) + Digits(t.day, 2);
    var time := Digits(t.hour, 2) + Digits(t.minute, 2) + Digits(t.second, 2);
    assert s[..8] == date && s[9..] == time;
    assert date[..4] == Digits(t.year, 4) && date[4..6] == Digits(t.month, 2) && date[6..] == Digits(t.day, 2);
    assert time[..2] == Digits(t.hour, 2) && time[2..4] == Digits(t.minute, 2) && time[4..] == Digits(t.second, 2);
    ValueOfDigits(t.year, 4);
    ValueOfDigits(t.month, 2);
    ValueOfDigits(t.day, 2);
    ValueOfDigits(t.hour, 2);
    ValueOfDigits(t.minute, 2);
    ValueOfDigits(t.second, 2);
  }

  /** Every stamp the parser accepts is exactly the formatting of what it parsed to. */
  lemma {:induction false} FormatParse(s: string)
    requires Parse(s).Some?
    ensures Format(Parse(s).value) == s
  {
    var date := s[..8];
    var time := s[9..];
    DigitsOfValue(date[..4]);
    DigitsOfValue(date[4..6]);
    DigitsOfValue(date[6..]);
    DigitsOfValue(time[..2]);
    DigitsOfValue(time[2..4]);
    DigitsOfValue(time[4..]);
    assert date == date[..4] + date[4..6] + date[6..];
    assert time == time[..2] + time[2..4] + time[4..];
    assert s == date + "_" + time;
  }
}
