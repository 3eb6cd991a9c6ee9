/** Calendar dates and the `strptime`/`strftime` formats the modelled code
    uses: "%Y-%m-%d", "%Y%m%d" and "%Y-%m-%d %H:%M:%S". */
module Dates {

  import opened Common
  import opened Strings

  predicate IsLeap(y: int)
  {
    y % 4 == 0 && (y % 100 != 0 || y % 400 == 0)
  }

  function DaysInMonth(y: int, m: int): int
    requires 1 <= m <= 12
  {
    if m == 2 then (if IsLeap(y) then 29 else 28)
    else if m == 4 || m == 6 || m == 9 || m == 11 then 30
    else 31
  }

  /** A date Python's `datetime.date` accepts. */
  predicate ValidDate(d: Date)
  {
    1 <= d.year <= 9999 && 1 <= d.month <= 12 && 1 <= d.day <= DaysInMonth(d.year, d.month)
  }

  /** The date built from the three digit fields, if it is a real date. */
  function DateOf(y: string, m: string, d: string): (r: Option<Date>)
    requires AllDigits(y) && AllDigits(m) && AllDigits(d)
    ensures r.Some? ==> ValidDate(r.value)
  {
    var date := Date(DigitsValue(y), DigitsValue(m), DigitsValue(d));
    if ValidDate(date) then Some(date) else None
  }

  /** `datetime.strptime(s, "%Y-%m-%d")`, with every field at full width. */
  function ParseDashed(s: string): (r: Option<Date>)
    ensures r.Some? ==> ValidDate(r.value)
  {
    if |s| == 10 && s[4] == '-' && s[7] == '-'
       && AllDigits(s[..4]) && AllDigits(s[5..7]) && AllDigits(s[8..])
    then DateOf(s[..4], s[5..7], s[8..])
    else None
  }

  /** `datetime.strptime(s, "%Y%m%d")`, with every field at full width. */
  function ParseCompact(s: string): (r: Option<Date>)
    ensures r.Some? ==> ValidDate(r.value)
  {
    if |s| == 8 && AllDigits(s) then DateOf(s[..4], s[4..6], s[6..]) else None
  }

  /** Text the regular expression of "%Y-%m-%d %H:%M:%S" matches, every field
      at full width: month 01-12, day 01-31, hour 00-23, minute 00-59 and
      second 00-61. */
  predicate DateTimeShaped(s: string)
  {
    && |s| == 19 && s[4] == '-' && s[7] == '-' && s[10] == ' ' && s[13] == ':' && s[16] == ':'
    && AllDigits(s[..4]) && AllDigits(s[5..7]) && AllDigits(s[8..10])
    && AllDigits(s[11..13]) && AllDigits(s[14..16]) && AllDigits(s[17..])
    && 1 <= DigitsValue(s[5..7]) <= 12 && 1 <= DigitsValue(s[8..10]) <= 31
    && DigitsValue(s[11..13]) <= 23 && DigitsValue(s[14..16]) <= 59 && DigitsValue(s[17..]) <= 61
  }

  const DateTimeFormat := "'%Y-%m-%d %H:%M:%S'"

  /** The error of text the format does not match. */
  function DateTimeMismatch(s: string): Error
  {
    ValueError("time data '" + s + "' does not match format " + DateTimeFormat)
  }

  const YearZeroError: Error := ValueError("year 0 is out of range")
  const DayRangeError: Error := ValueError("day is out of range for month")
  const SecondRangeError: Error := ValueError("second must be in 0..59")

  /** The error of text left over after the format's match. */
  function UnconvertedError(rest: string): Error
  {
    ValueError("unconverted data remains: " + rest)
  }

  /** Full-width text up to a seconds field reading 62 to 99: `%S` then
      matches its first digit alone and the match ends there. */
  predicate SecondOverflow(s: string)
  {
    |s| >= 19 && DateTimeShaped(s[..17] + "00") && AllDigits(s[17..19]) && DigitsValue(s[17..19]) >= 62
  }

  /** `datetime.strptime(s, "%Y-%m-%d %H:%M:%S").date()`, with every field at
      full width. Text after the match is refused before any field is read.
      The format's regular expression admits seconds 60 and 61, but building
      the datetime refuses them, as it refuses year 0 and a day past the end
      of its month. */
  function ParseDateTime(s: string): (r: Result<Date>)
    ensures r.Ok? <==> DateTimeShaped(s) && ParseDashed(s[..10]).Some? && DigitsValue(s[17..]) <= 59
    ensures r.Ok? ==> ValidDate(r.value) && Some(r.value) == ParseDashed(s[..10])
    ensures |s| > 19 && DateTimeShaped(s[..19]) ==> r == Err(UnconvertedError(s[19..]))
    ensures SecondOverflow(s) ==> r == Err(UnconvertedError(s[18..]))
    ensures !DateTimeShaped(s) && !(|s| > 19 && DateTimeShaped(s[..19])) && !SecondOverflow(s) ==>
      r == Err(DateTimeMismatch(s))
    ensures DateTimeShaped(s) && ParseDashed(s[..10]).Some? && DigitsValue(s[17..]) >= 60 ==> r == Err(SecondRangeError)
    ensures DateTimeShaped(s) && ParseDashed(s[..10]).None? ==> r == Err(YearZeroError) || r == Err(DayRangeError)
  {
    if |s| > 19 && DateTimeShaped(s[..19]) then
      assert s[..19][17..] == s[17..19];
      Err(UnconvertedError(s[19..]))
    else if SecondOverflow(s) then
      assert |s| == 19 ==> s[17..] == s[17..19];
      Err(UnconvertedError(s[18..]))
    else if !DateTimeShaped(s) then Err(DateTimeMismatch(s))
    else if DigitsValue(s[..4]) == 0 then
      assert s[..10][..4] == s[..4];
      Err(YearZeroError)
    else match ParseDashed(s[..10])
      case None => Err(DayRangeError)
      case Some(d) => if DigitsValue(s[17..]) >= 60 then Err(SecondRangeError) else Ok(d)
  }

  /** `d.strftime("%Y%m%d")` for a year of four digits. */
  function FormatCompact(d: Date): string
    requires ValidDate(d)
  {
    Padded(d.year, 4) + Padded(d.month, 2) + Padded(d.day, 2)
  }

  /** `d.strftime("%Y-%m-%d")` for a year of four digits. */
  function FormatDashed(d: Date): string
    requires ValidDate(d)
  {
    Padded(d.year, 4) + "-" + Padded(d.month, 2) + "-" + Padded(d.day, 2)
  }

  lemma FieldWidths(d: Date)
    requires ValidDate(d)
    ensures |Padded(d.year, 4)| == 4 && |Padded(d.month, 2)| == 2 && |Padded(d.day, 2)| == 2
  {
    PowersOfTen();
    PaddedWidth(d.year, 4);
    PaddedWidth(d.month, 2);
    PaddedWidth(d.day, 2);
  }

  lemma PowersOfTen()
    ensures Pow10(2) == 100 && Pow10(4) == 10000
  {
    assert Pow10(1) == 10;
    assert Pow10(3) == 1000;
  }

  /** Formatting a date compactly and parsing it back gives the date. */
  lemma {:induction false} CompactRoundTrip(d: Date)
    requires ValidDate(d) && d.year >= 1000
    ensures ParseCompact(FormatCompact(d)) == Some(d)
  {
    FieldWidths(d);
    var s := FormatCompact(d);
    assert s[..4] == Padded(d.year, 4);
    assert s[4..6] == Padded(d.month, 2);
    assert s[6..] == Padded(d.day, 2);
  }

  /** Every string the compact parser accepts is the compact format of its date. */
  lemma {:induction false} CompactCanonical(s: string)
    requires ParseCompact(s).Some?
    ensures FormatCompact(ParseCompact(s).value) == s
  {
    var d := ParseCompact(s).value;
    FieldWidths(d);
    DigitsInjective(Padded(d.year, 4), s[..4]);
    DigitsInjective(Padded(d.month, 2), s[4..6]);
    DigitsInjective(Padded(d.day, 2), s[6..]);
    assert s == s[..4] + s[4..6] + s[6..];
  }

  /** Formatting a date with dashes and parsing it back gives the date. */
  lemma {:induction false} DashedRoundTrip(d: Date)
    requires ValidDate(d) && d.year >= 1000
    ensures ParseDashed(FormatDashed(d)) == Some(d)
  {
    FieldWidths(d);
    var s := FormatDashed(d);
    assert s[..4] == Padded(d.year, 4);
    assert s[5..7] == Padded(d.month, 2);
    assert s[8..] == Padded(d.day, 2);
  }

  /** A dashed date followed by a time of day at full width is text the
      date-time format matches, and its first ten characters parse back to
      the date. */
  lemma {:induction false} DateTimeOfDashed(d: Date, h: string, m: string, sec: string)
    requires ValidDate(d) && d.year >= 1000
    requires |h| == 2 && |m| == 2 && |sec| == 2 && AllDigits(h) && AllDigits(m) && AllDigits(sec)
    requires DigitsValue(h) <= 23 && DigitsValue(m) <= 59 && DigitsValue(sec) <= 61
    ensures var s := FormatDashed(d) + " " + h + ":" + m + ":" + sec;
      DateTimeShaped(s) && ParseDashed(s[..10]) == Some(d) && s[17..] == sec
  {
    var f := FormatDashed(d);
    var s := f + " " + h + ":" + m + ":" + sec;
    FieldWidths(d);
    DashedRoundTrip(d);
    assert s[..10] == f;
    assert s[..4] == f[..4] && s[5..7] == f[5..7] && s[8..10] == f[8..];
    assert s[11..13] == h && s[14..16] == m && s[17..] == sec;
  }

  /** A report date at midnight followed by any further text is refused,
      naming the text left over. */
  lemma {:induction false} TrailingTextRefused(d: Date, rest: string)
    requires ValidDate(d) && d.year >= 1000 && rest != []
    ensures ParseDateTime(FormatDashed(d) + " 00:00:00" + rest) == Err(UnconvertedError(rest))
  {
    var s := FormatDashed(d) + " 00:00:00" + rest;
    TwoDigitsValue("00");
    DateTimeOfDashed(d, "00", "00", "00");
    FieldWidths(d);
    assert s[..19] == FormatDashed(d) + " " + "00" + ":" + "00" + ":" + "00";
    assert s[19..] == rest;
  }

  /** Every string the dashed parser accepts is the dashed format of its date. */
  lemma {:induction false} DashedCanonical(s: string)
    requires ParseDashed(s).Some?
    ensures FormatDashed(ParseDashed(s).value) == s
  {
    var d := ParseDashed(s).value;
    FieldWidths(d);
    DigitsInjective(Padded(d.year, 4), s[..4]);
    DigitsInjective(Padded(d.month, 2), s[5..7]);
    DigitsInjective(Padded(d.day, 2), s[8..]);
    assert s == s[..4] + "-" + s[5..7] + "-" + s[8..];
  }

  /** Python's ordering of dates: year, then month, then day. */
  predicate Earlier(a: Date, b: Date)
  {
    a.year < b.year || (a.year == b.year && (a.month < b.month || (a.month == b.month && a.day < b.day)))
  }

  /** An integer key whose order is the order of valid dates. */
  function DateKey(d: Date): int
  {
    d.year * 10000 + d.month * 100 + d.day
  }

  lemma DateKeyOrder(a: Date, b: Date)
    requires ValidDate(a) && ValidDate(b)
    ensures Earlier(a, b) <==> DateKey(a) < DateKey(b)
    ensures a == b <==> DateKey(a) == DateKey(b)
  {
  }
}
