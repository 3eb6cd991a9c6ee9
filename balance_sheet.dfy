/** balance_sheet.py: the A-share balance sheet of a symbol, by period,
    optionally through a blob cache, and the validator that turns the text
    report dates of the sheet into dates.

    The symbol normaliser, the two akshare sheets and the blob cache's
    `load_cached_data` are parameters. */
module BalanceSheet {

  import opened Common
  import opened Strings
  import opened Dates
  import opened Statements

  /** `date_validate`: text is read as "%Y-%m-%d %H:%M:%S" and cut to its date;
      any other value passes through. Text `strptime` refuses raises its
      ValueError. */
  function DateValidate(v: Value): (r: Result<Value>)
    ensures !v.Str? ==> r == Ok(v)
    ensures v.Str? && ParseDateTime(v.s).Ok? ==> r == Ok(DateVal(ParseDateTime(v.s).value))
    ensures v.Str? && ParseDateTime(v.s).Err? ==> r == Err(ParseDateTime(v.s).error)
    ensures r.Ok? && v.Str? ==> r.value.DateVal? && ValidDate(r.value.d)
  {
    if v.Str? then
      match ParseDateTime(v.s)
      case Ok(d) => Ok(DateVal(d))
      case Err(e) => Err(e)
    else Ok(v)
  }

  /** A validated date validates to itself. */
  lemma DateValidateIdempotent(v: Value)
    requires DateValidate(v).Ok?
    ensures DateValidate(DateValidate(v).value) == DateValidate(v)
  {
  }

  /** The report dates the sheets carry, a date at midnight, validate to that
      date. */
  lemma {:induction false} MidnightValidates(d: Date)
    requires ValidDate(d) && d.year >= 1000
    ensures DateValidate(Str(FormatDashed(d) + " 00:00:00")) == Ok(DateVal(d))
  {
    TwoDigitsValue("00");
    DateTimeOfDashed(d, "00", "00", "00");
    assert FormatDashed(d) + " 00:00:00" == FormatDashed(d) + " " + "00" + ":" + "00" + ":" + "00";
  }

  /** A report date at a leap second is refused, although the format's
      regular expression matches it. */
  lemma {:induction false} LeapSecondRefused(d: Date)
    requires ValidDate(d) && d.year >= 1000
    ensures DateValidate(Str(FormatDashed(d) + " 23:59:60")) == Err(SecondRangeError)
  {
    TwoDigitsValue("23");
    TwoDigitsValue("59");
    TwoDigitsValue("60");
    DateTimeOfDashed(d, "23", "59", "60");
    assert FormatDashed(d) + " 23:59:60" == FormatDashed(d) + " " + "23" + ":" + "59" + ":" + "60";
  }

  /** `get_ak_data(symbol, period)`: the sheet of the market followed by the
      bare code, by period. */
  function GetAkData(symbol: string, period: string, normalize: string -> (string, string, string),
                     yearly: string -> Result<Frame>, report: string -> Result<Frame>): (r: Result<Frame>)
    ensures var (symbolB, _, market) := normalize(symbol);
      && (period == "annual" ==> r == yearly(market + symbolB))
      && (period == "quarter" ==> r == report(market + symbolB))
      && (period != "annual" && period != "quarter" ==> r == Err(PeriodError))
  {
    var (symbolB, _, market) := normalize(symbol);
    ByPeriod(market + symbolB, period, yearly, report)
  }

  /** `get_data(symbol, period, use_cache)`: through the blob cache of the
      `balance_sheet` table, or straight from akshare. */
  function GetData(symbol: string, period: string, useCache: bool,
                   cachedLoad: (string, string) -> Result<Frame>,
                   normalize: string -> (string, string, string),
                   yearly: string -> Result<Frame>, report: string -> Result<Frame>): (r: Result<Frame>)
    ensures useCache ==> r == cachedLoad(symbol, period)
    ensures !useCache ==> r == GetAkData(symbol, period, normalize, yearly, report)
  {
    if useCache then cachedLoad(symbol, period) else GetAkData(symbol, period, normalize, yearly, report)
  }
}
