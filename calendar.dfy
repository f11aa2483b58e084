/**
 * The clock readings the pattern manager formats: `get_current_time` renders the
 * time as `HH:MM:SS`, `get_current_date` renders the weekday in Vietnamese and the
 * date as `DD/MM/YYYY`. The wall clock itself (Asia/Ho_Chi_Minh time zone) is not
 * read here: the reading is passed in as a `Clock`.
 */
module Calendar {
  import opened Wrappers

  /** A calendar date; `weekday` counts from Monday = 0, as Python's `datetime.weekday()`. */
  datatype Date = Date(weekday: int, day: int, month: int, year: int)

  datatype Time = Time(hour: int, minute: int, second: int)

  /** One reading of the clock; `time` is `None` when no time of day could be obtained. */
  datatype Clock = Clock(time: Option<Time>, date: Date)

  predicate ValidDate(d: Date)
  {
    0 <= d.weekday <= 6 && 1 <= d.day <= 31 && 1 <= d.month <= 12 && 1000 <= d.year <= 9999
  }

  predicate ValidTime(t: Time)
  {
    0 <= t.hour <= 23 && 0 <= t.minute <= 59 && 0 <= t.second <= 59
  }

  predicate ValidClock(c: Clock)
  {
    ValidDate(c.date) && (c.time.Some? ==> ValidTime(c.time.value))
  }

  /** The weekday names, Monday first. */
  const WeekdayNames: seq<string> :=
    ["Thứ Hai", "Thứ Ba", "Thứ Tư", "Thứ Năm", "Thứ Sáu", "Thứ Bảy", "Chủ Nhật"]

  /** The text between the weekday name and the digits of the date. */
  const DateSeparator: string := ", ngày "

  // ---------------------------------------------------------------------------
  // Zero-padded decimal numbers, as strftime's %H, %M, %S, %d, %m and %Y

  function Pow10(width: nat): (p: nat)
    ensures p >= 1
  {
    if width == 0 then 1 else 10 * Pow10(width - 1)
  }

  function Digit(n: int): char
    requires 0 <= n <= 9
  {
    ('0' as int + n) as char
  }

  function DigitValue(c: char): Option<int>
  {
    if '0' <= c <= '9' then Some(c as int - '0' as int) else None
  }

  /** The last `width` decimal digits of `n`, zero-padded. */
  function Digits(n: nat, width: nat): (s: string)
    ensures |s| == width
  {
    if width == 0 then "" else Digits(n / 10, width - 1) + [Digit(n % 10)]
  }

  /** The number a string of decimal digits spells, if it is one. */
  function DigitsValue(s: string): Option<int>
  {
    if s == [] then Some(0)
    else
      match (DigitsValue(s[..|s| - 1]), DigitValue(s[|s| - 1]))
      case (Some(high), Some(low)) => Some(10 * high + low)
      case _ => None
  }

  /** A number below `10^width` is read back from its zero-padded digits. */
  lemma {:induction false} DigitsRoundTrip(n: nat, width: nat)
    requires n < Pow10(width)
    ensures DigitsValue(Digits(n, width)) == Some(n)
  {
    if width > 0 {
      var s := Digits(n, width);
      DigitsRoundTrip(n / 10, width - 1);
      assert s[..|s| - 1] == Digits(n / 10, width - 1);
    }
  }

  // ---------------------------------------------------------------------------
  // get_current_time and get_current_date

  /** `strftime("%H:%M:%S")`. */
  function FormatTime(t: Time): string
    requires ValidTime(t)
  {
    Digits(t.hour, 2) + ":" + Digits(t.minute, 2) + ":" + Digits(t.second, 2)
  }

  /** `"<weekday>, ngày " + strftime("%d/%m/%Y")`. */
  function FormatDate(d: Date): string
    requires ValidDate(d)
  {
    WeekdayNames[d.weekday] + DateSeparator + Digits(d.day, 2) + "/" + Digits(d.month, 2)
      + "/" + Digits(d.year, 4)
  }

  /** The position of `x` in `xs`, if it occurs. */
  function IndexOf(xs: seq<string>, x: string): Option<int>
  {
    if xs == [] then None
    else if xs[0] == x then Some(0)
    else match IndexOf(xs[1..], x)
      case Some(i) => Some(i + 1)
      case None => None
  }

  /** In a list without repetitions, each element is found at its own position. */
  lemma {:induction false} IndexOfDistinct(xs: seq<string>, i: int)
    requires forall j, k :: 0 <= j < k < |xs| ==> xs[j] != xs[k]
    requires 0 <= i < |xs|
    ensures IndexOf(xs, xs[i]) == Some(i)
  {
    if i > 0 {
      IndexOfDistinct(xs[1..], i - 1);
    }
  }

  /** The weekday names are pairwise different, so the weekday is one-to-one onto them. */
  lemma WeekdayNamesDistinct()
    ensures |WeekdayNames| == 7
    ensures forall j, k :: 0 <= j < k < |WeekdayNames| ==> WeekdayNames[j] != WeekdayNames[k]
  {
  }

  /** Reads a rendered time of day back. */
  function ParseTime(s: string): Option<Time>
  {
    if |s| != 8 || s[2] != ':' || s[5] != ':' then None
    else match (DigitsValue(s[..2]), DigitsValue(s[3..5]), DigitsValue(s[6..]))
      case (Some(h), Some(m), Some(sec)) => Some(Time(h, m, sec))
      case _ => None
  }

  /** Reads a rendered date back, recovering the weekday from its name. */
  function ParseDate(s: string): Option<Date>
  {
    if |s| < 17 then None
    else
      var n := |s| - 17;
      if s[n..n + 7] != DateSeparator || s[n + 9] != '/' || s[n + 12] != '/' then None
      else match (IndexOf(WeekdayNames, s[..n]), DigitsValue(s[n + 7..n + 9]),
                  DigitsValue(s[n + 10..n + 12]), DigitsValue(s[n + 13..]))
        case (Some(w), Some(day), Some(month), Some(year)) => Some(Date(w, day, month, year))
        case _ => None
  }

  /** The rendered time determines the time it was rendered from. */
  lemma TimeRoundTrip(t: Time)
    requires ValidTime(t)
    ensures |FormatTime(t)| == 8
    ensures ParseTime(FormatTime(t)) == Some(t)
  {
    var s := FormatTime(t);
    assert s[..2] == Digits(t.hour, 2);
    assert s[3..5] == Digits(t.minute, 2);
    assert s[6..] == Digits(t.second, 2);
    DigitsRoundTrip(t.hour, 2);
    DigitsRoundTrip(t.minute, 2);
    DigitsRoundTrip(t.second, 2);
  }

  /** Where the parts of a rendered date sit. */
  lemma DateSlices(name: string, d: Date)
    requires ValidDate(d)
    ensures var s := name + DateSeparator + Digits(d.day, 2) + "/" + Digits(d.month, 2)
      + "/" + Digits(d.year, 4);
      var n := |name|;
      |s| == n + 17 && s[..n] == name && s[n..n + 7] == DateSeparator
      && s[n + 7..n + 9] == Digits(d.day, 2) && s[n + 9] == '/'
      && s[n + 10..n + 12] == Digits(d.month, 2) && s[n + 12] == '/'
      && s[n + 13..] == Digits(d.year, 4)
  {
    var day, month, year := Digits(d.day, 2), Digits(d.month, 2), Digits(d.year, 4);
    var head := name + DateSeparator;
    var s := head + day + "/" + month + "/" + year;
    var n := |name|;
    assert head[..n] == name && head[n..] == DateSeparator;
    assert s == head + (day + "/" + month + "/" + year);
    var tail := day + "/" + month + "/" + year;
    assert tail[..2] == day && tail[3..5] == month && tail[6..] == year;
  }

  /** A weekday name the parser recognises, then the rendered digits, read back as that date. */
  lemma ParseDateFields(name: string, d: Date)
    requires ValidDate(d)
    requires IndexOf(WeekdayNames, name) == Some(d.weekday)
    ensures ParseDate(name + DateSeparator + Digits(d.day, 2) + "/" + Digits(d.month, 2)
      + "/" + Digits(d.year, 4)) == Some(d)
  {
    DateSlices(name, d);
    DigitsRoundTrip(d.day, 2);
    DigitsRoundTrip(d.month, 2);
    DigitsRoundTrip(d.year, 4);
  }

  /**
   * The rendered date determines the weekday, day, month and year it was rendered
   * from: the weekday names are one-to-one and the digits are fixed-width.
   */
  lemma DateRoundTrip(d: Date)
    requires ValidDate(d)
    ensures ParseDate(FormatDate(d)) == Some(d)
  {
    WeekdayNamesDistinct();
    IndexOfDistinct(WeekdayNames, d.weekday);
    ParseDateFields(WeekdayNames[d.weekday], d);
  }
}
