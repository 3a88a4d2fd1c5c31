/** Calendar dates and local date-times as Python's `datetime` holds them,
    and the renderings the logging code asks for: `strftime("%Y-%m-%d")`,
    `strftime("%Y-%m-%d %H:%M:%S")` and `isoformat()`. The clock itself is
    not modelled: every reading of it is a parameter. */
module Clock {
  import opened Common
  import opened Text

  predicate IsLeap(y: int) {
    y % 4 == 0 && (y % 100 != 0 || y % 400 == 0)
  }

  function DaysInMonth(y: int, m: int): int {
    if m == 2 then (if IsLeap(y) then 29 else 28)
    else if m == 4 || m == 6 || m == 9 || m == 11 then 30
    else 31
  }

  datatype YMD = YMD(year: int, month: int, day: int)

  /** `datetime.date` admits exactly the years 1..9999 and the real days of each month. */
  predicate ValidYMD(d: YMD) {
    1 <= d.year <= 9999 && 1 <= d.month <= 12 && 1 <= d.day <= DaysInMonth(d.year, d.month)
  }

  type Date = d: YMD | ValidYMD(d) witness YMD(1970, 1, 1)

  datatype DateTime = DateTime(date: Date, hour: int, minute: int, second: int, microsecond: int)

  predicate ValidTime(t: DateTime) {
    0 <= t.hour < 24 && 0 <= t.minute < 60 && 0 <= t.second < 60 && 0 <= t.microsecond < 1000000
  }

  /** A local date-time `datetime` admits. */
  type LocalTime = t: DateTime | ValidTime(t) witness DateTime(YMD(1970, 1, 1), 0, 0, 0, 0)

  /** `date.strftime("%Y-%m-%d")`. */
  function FormatDate(d: Date): string {
    Pad(d.year, 4) + "-" + Pad(d.month, 2) + "-" + Pad(d.day, 2)
  }

  function HourMinuteSecond(t: DateTime): string
    requires ValidTime(t)
  {
    Pad(t.hour, 2) + ":" + Pad(t.minute, 2) + ":" + Pad(t.second, 2)
  }

  /** `datetime.strftime("%Y-%m-%d %H:%M:%S")`. */
  function FormatPlain(t: DateTime): string
    requires ValidTime(t)
  {
    FormatDate(t.date) + " " + HourMinuteSecond(t)
  }

  /** `datetime.isoformat()`: the fraction appears only when the microseconds are not zero. */
  function IsoFormat(t: DateTime): string
    requires ValidTime(t)
  {
    FormatDate(t.date) + "T" + HourMinuteSecond(t)
      + (if t.microsecond != 0 then "." + Pad(t.microsecond, 6) else "")
  }

  /** Reads a `YYYY-MM-DD` text back; None when it is not one of a valid date. */
  function ParseDate(s: string): Option<Date> {
    if |s| != 10 || s[4] != '-' || s[7] != '-'
       || !AllDigits(s[..4]) || !AllDigits(s[5..7]) || !AllDigits(s[8..]) then None
    else
      var d := YMD(DigitsValue(s[..4]), DigitsValue(s[5..7]), DigitsValue(s[8..]));
      if ValidYMD(d) then Some(d) else None
  }

  /** The dated text is ten characters and reads back as the date it renders. */
  lemma FormatDateRoundTrip(d: Date)
    ensures |FormatDate(d)| == 10
    ensures ParseDate(FormatDate(d)) == Some(d)
  {
    assert Pow10(2) == 100;
    assert Pow10(4) == 10000;
    PadValue(d.year, 4);
    PadValue(d.month, 2);
    PadValue(d.day, 2);
    var s := FormatDate(d);
    assert s[..4] == Pad(d.year, 4);
    assert s[5..7] == Pad(d.month, 2);
    assert s[8..] == Pad(d.day, 2);
  }

  /** Two days never share a dated text. */
  lemma FormatDateInjective(a: Date, b: Date)
    ensures FormatDate(a) == FormatDate(b) ==> a == b
  {
    FormatDateRoundTrip(a);
    FormatDateRoundTrip(b);
  }

  lemma FieldWidths(t: DateTime)
    requires ValidTime(t)
    ensures |FormatDate(t.date)| == 10 && |HourMinuteSecond(t)| == 8
    ensures |Pad(t.microsecond, 6)| == 6
  {
    assert Pow10(2) == 100;
    assert Pow10(6) == 1000000;
    FormatDateRoundTrip(t.date);
    PadValue(t.hour, 2);
    PadValue(t.minute, 2);
    PadValue(t.second, 2);
    PadValue(t.microsecond, 6);
  }

  /** The plain rendering is 19 characters and begins with the dated text
      of its day, then a space. */
  lemma PlainStartsWithDate(t: DateTime)
    requires ValidTime(t)
    ensures |FormatPlain(t)| == 19 && FormatPlain(t)[..10] == FormatDate(t.date) && FormatPlain(t)[10] == ' '
  {
    FieldWidths(t);
    var date := FormatDate(t.date);
    var p := FormatPlain(t);
    assert p == date + " " + HourMinuteSecond(t);
    assert p[..10] == date;
  }

  /** The ISO rendering is 19 characters, or 26 with microseconds, and
      begins with the dated text of its day, then a 'T'. */
  lemma IsoStartsWithDate(t: DateTime)
    requires ValidTime(t)
    ensures |IsoFormat(t)| == (if t.microsecond != 0 then 26 else 19)
    ensures IsoFormat(t)[..10] == FormatDate(t.date) && IsoFormat(t)[10] == 'T'
  {
    FieldWidths(t);
    var date := FormatDate(t.date);
    var frac := if t.microsecond != 0 then "." + Pad(t.microsecond, 6) else "";
    var iso := IsoFormat(t);
    assert iso == date + "T" + HourMinuteSecond(t) + frac;
    assert iso[..10] == date;
  }
}
