/** fund_holdings.py: the holdings of a mutual fund for the year of a date.
    The query symbol is trimmed as for ETFs and then upper-cased by the base
    query model; the portfolio of the whole year is returned without a quarter
    filter. `transform_data` and `replace_empty` are the same code as in
    etf_holdings.py and are modelled once, by `EtfHoldings.TransformData`.

    The portfolio call `ak_fund_portfolio_hold_em` is a parameter. */
module FundHoldings {

  import opened Common
  import opened Strings
  import opened Dates
  import opened Frames
  import opened SymbolRewrite
  import opened EtfHoldings

  /** `transform_query` followed by the `to_upper` validator of the symbol. */
  function TransformQuery(params: map<string, Value>): (r: Result<map<string, Value>>)
    ensures r.Ok? <==> "symbol" in params && params["symbol"].Str?
    ensures r.Err? ==> r.error == Exception("Please enter a valid symbol")
    ensures r.Ok? ==> r.value.Keys == params.Keys
    ensures r.Ok? ==> r.value["symbol"] == Str(Upper(TrimSymbol(params["symbol"].s)))
    ensures r.Ok? ==> forall k | k in params && k != "symbol" :: r.value[k] == params[k]
  {
    match TrimQuerySymbol(params)
    case Err(e) => Err(e)
    case Ok(p) => Ok(p["symbol" := Str(Upper(p["symbol"].s))])
  }

  /** `str(n)` for a positive integer. */
  function YearText(year: nat): string
  {
    Padded(year, 1)
  }

  /** The year text the portfolio call is given: a text date is parsed as
      "%Y-%m-%d" first; a date without a year (None, or text that does not
      parse) fails. */
  function RequestYear(date: Value): (r: Option<string>)
    ensures date.DateVal? && date.d.year >= 0 ==> r == Some(YearText(date.d.year))
    ensures date.Str? ==> (r.Some? <==> ParseDashed(date.s).Some?)
    ensures date.Str? && r.Some? ==> r.value == YearText(ParseDashed(date.s).value.year)
    ensures !date.Str? && !date.DateVal? ==> r.None?
  {
    match date
    case Str(s) =>
      (match ParseDashed(s)
       case Some(d) => Some(YearText(d.year))
       case None => None)
    case DateVal(d) => if d.year >= 0 then Some(YearText(d.year)) else None
    case _ => None
  }

  /** For a four-digit year, the year passed on is the first four characters
      of the text date: only the year of the date is used. */
  lemma {:induction false} RequestYearIsLeadingDigits(s: string)
    requires ParseDashed(s).Some? && ParseDashed(s).value.year >= 1000
    ensures RequestYear(Str(s)) == Some(s[..4])
  {
    var d := ParseDashed(s).value;
    DashedCanonical(s);
    FieldWidths(d);
    assert FormatDashed(d)[..4] == Padded(d.year, 4);
    assert Pow10(3) == 1000;
    PaddedFilled(d.year, 4);
    PaddedFilled(d.year, 1);
  }

  /** `aextract_data`: the portfolio of the symbol for the year of the date,
      with the identifier columns dropped and every row kept, in order. Any
      failure before the portfolio arrives becomes the generic exception
      naming the symbol; a frame lacking a dropped column raises that
      column's KeyError. */
  function ExtractData(symbol: string, date: Value, useCache: bool,
                       portfolio: (string, string, bool) -> Result<Frame>): (r: Result<seq<Record>>)
    ensures RequestYear(date).None? ==> r == Err(FetchFailure(symbol))
    ensures RequestYear(date).Some? && portfolio(symbol, RequestYear(date).value, useCache).Err? ==>
      r == Err(FetchFailure(symbol))
    ensures RequestYear(date).Some? && portfolio(symbol, RequestYear(date).value, useCache).Ok? ==>
      var dropped := DropColumns(portfolio(symbol, RequestYear(date).value, useCache).value, DroppedColumns);
      && (dropped.Err? ==> r == Err(dropped.error))
      && (dropped.Ok? ==> r == Ok(dropped.value.rows))
    ensures r.Ok? <==> RequestYear(date).Some? && portfolio(symbol, RequestYear(date).value, useCache).Ok? &&
                       forall c | c in DroppedColumns :: c in portfolio(symbol, RequestYear(date).value, useCache).value.columns
    ensures r.Ok? ==> var df := portfolio(symbol, RequestYear(date).value, useCache).value;
      |r.value| == |df.rows| &&
      forall i | 0 <= i < |df.rows| ::
        r.value[i].Keys == df.rows[i].Keys - (set c | c in DroppedColumns) &&
        forall c | c in r.value[i] :: r.value[i][c] == df.rows[i][c]
  {
    match RequestYear(date)
    case None => Err(FetchFailure(symbol))
    case Some(year) =>
      match portfolio(symbol, year, useCache)
      case Err(_) => Err(FetchFailure(symbol))
      case Ok(df) =>
        match DropColumns(df, DroppedColumns)
        case Err(e) => Err(e)
        case Ok(kept) => Ok(kept.rows)
  }
}
