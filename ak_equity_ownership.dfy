/** ak_equity_ownership.py: the ten largest shareholders of a company at a
    report date. The date may be text in one of two formats or a date; the
    market of the symbol picks the Hong Kong or the A-share source, and both
    are asked for the date as "%Y%m%d".

    The symbol normaliser and the two upstream calls are parameters. */
module AkEquityOwnership {

  import opened Common
  import opened Dates

  /** The `date: dateType | str` argument. */
  datatype DateArg = DateGiven(d: Date) | DateText(s: string)

  const DateFormatError: Error := ValueError("Invalid date format. Use 'YYYY-MM-DD' or 'YYYYMMDD'.")

  const MarketError: Error := ValueError("Invalid market. Please use 'HK', 'SH', 'SZ', or 'BJ'.")

  /** The date of the argument: text is read as "%Y%m%d", failing that as
      "%Y-%m-%d", failing both it is refused; a date is used as given. */
  function ResolveDate(date: DateArg): (r: Result<Date>)
    ensures date.DateGiven? ==> r == Ok(date.d)
    ensures date.DateText? && ParseCompact(date.s).Some? ==> r == Ok(ParseCompact(date.s).value)
    ensures date.DateText? && ParseCompact(date.s).None? ==>
      r == (if ParseDashed(date.s).Some? then Ok(ParseDashed(date.s).value) else Err(DateFormatError))
    ensures date.DateText? ==> (r.Err? <==> ParseCompact(date.s).None? && ParseDashed(date.s).None?)
    ensures date.DateText? && r.Ok? ==> ValidDate(r.value)
  {
    match date
    case DateGiven(d) => Ok(d)
    case DateText(s) =>
      match ParseCompact(s)
      case Some(d) => Ok(d)
      case None =>
        match ParseDashed(s)
        case Some(d) => Ok(d)
        case None => Err(DateFormatError)
  }

  /** `stock_gdfx_top_10(symbol, date)`. A bad date is refused before the
      symbol is looked at. Hong Kong asks its own source for the formatted
      symbol; SH, SZ and BJ all ask the A-share source for "sh" and the bare
      code; any other market is refused. */
  function Top10(symbol: string, date: DateArg, normalize: string -> (string, string, string),
                 hkTop10: (string, string) -> Result<Frame>, aTop10: (string, string) -> Result<Frame>): (r: Result<Frame>)
    requires date.DateGiven? ==> ValidDate(date.d)
    ensures ResolveDate(date).Err? ==> r == Err(DateFormatError)
    ensures ResolveDate(date).Ok? ==>
      var (symbolB, symbolF, market) := normalize(symbol);
      var stamp := FormatCompact(ResolveDate(date).value);
      if market == "HK" then r == hkTop10(symbolF, stamp)
      else if market in ["SH", "SZ", "BJ"] then r == aTop10("sh" + symbolB, stamp)
      else r == Err(MarketError)
  {
    match ResolveDate(date)
    case Err(e) => Err(e)
    case Ok(d) =>
      var (symbolB, symbolF, market) := normalize(symbol);
      if market == "HK" then hkTop10(symbolF, FormatCompact(d))
      else if market in ["SH", "SZ", "BJ"] then aTop10("sh" + symbolB, FormatCompact(d))
      else Err(MarketError)
  }

  /** The three ways of giving one date, "%Y%m%d" text, "%Y-%m-%d" text and a
      date, ask the same question. */
  lemma DateFormsAgree(symbol: string, d: Date, normalize: string -> (string, string, string),
                       hkTop10: (string, string) -> Result<Frame>, aTop10: (string, string) -> Result<Frame>)
    requires ValidDate(d) && d.year >= 1000
    ensures Top10(symbol, DateText(FormatCompact(d)), normalize, hkTop10, aTop10) == Top10(symbol, DateGiven(d), normalize, hkTop10, aTop10)
    ensures Top10(symbol, DateText(FormatDashed(d)), normalize, hkTop10, aTop10) == Top10(symbol, DateGiven(d), normalize, hkTop10, aTop10)
  {
    CompactRoundTrip(d);
    DashedRoundTrip(d);
    FieldWidths(d);
    assert |FormatDashed(d)| == 10;
  }

  /** "%Y%m%d" text the parser accepts reaches the source exactly as given. */
  lemma CompactTextForwarded(symbol: string, s: string, normalize: string -> (string, string, string),
                             hkTop10: (string, string) -> Result<Frame>, aTop10: (string, string) -> Result<Frame>)
    requires ParseCompact(s).Some?
    ensures var (symbolB, symbolF, market) := normalize(symbol);
      market == "HK" ==> Top10(symbol, DateText(s), normalize, hkTop10, aTop10) == hkTop10(symbolF, s)
  {
    CompactCanonical(s);
  }
}
