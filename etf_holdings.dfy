/** etf_holdings.py: the holdings of an ETF for one year and quarter. The
    query symbol is trimmed (`SymbolRewrite.TrimQuerySymbol`), the upstream
    portfolio frame loses three identifier columns and is cut to the rows of
    the quarter, and each record has its exchange marker rewritten and its
    empty-looking fields set to None.

    The portfolio call `ak_fund_portfolio_hold_em` is a parameter. */
module EtfHoldings {

  import opened Common
  import opened Strings
  import opened Frames
  import opened SymbolRewrite

  /** The columns `aextract_data` drops from the upstream frame. */
  const DroppedColumns: seq<string> := ["股票代码", "序号", "code"]

  /** The column holding the reporting quarter, such as "2024年4季度". */
  const QuarterColumn: string := "季度"

  const FetchFailurePrefix := "Error occurred while fetching data for symbol: "
  const FetchFailureSuffix := ",Akshare don't support this symbol"

  /** The exception any failure of the portfolio call is turned into. */
  function FetchFailure(symbol: string): Error
  {
    Exception(FetchFailurePrefix + symbol + FetchFailureSuffix)
  }

  /** `str(query.quarter) + "季度"`, with None rendered as "None". */
  function QuarterLabel(quarter: Option<string>): (r: string)
    ensures quarter.Some? ==> r == quarter.value + "季度"
    ensures quarter.None? ==> r == "None季度"
  {
    (if quarter.Some? then quarter.value else "None") + "季度"
  }

  /** The quarter cell of a row is text in which the compiled pattern finds a
      match. */
  predicate InQuarter(row: Record, search: string -> bool)
  {
    var cell := Cell(row, QuarterColumn);
    cell.Str? && search(cell.s)
  }

  /** The error pandas raises when a boolean mask holds a missing value. */
  const NaMaskError: Error := ValueError("Cannot mask with non-boolean array containing NA / NaN values")

  /** The first row whose quarter cell is not text, where the `.str.contains`
      mask would hold a missing value. */
  function FirstNonText(rows: seq<Record>): (r: Option<nat>)
    ensures r.None? <==> forall i | 0 <= i < |rows| :: Cell(rows[i], QuarterColumn).Str?
    ensures r.Some? ==> r.value < |rows| && !Cell(rows[r.value], QuarterColumn).Str?
  {
    if rows == [] then None
    else if !Cell(rows[0], QuarterColumn).Str? then Some(0)
    else match FirstNonText(rows[1..])
      case None => None
      case Some(i) => Some(i + 1)
  }

  /** The error of the `.str` accessor on a column it refuses. */
  const StrAccessorError: Error := AttributeError("Can only use .str accessor with string values!")

  /** Whether pandas gives the quarter column a `.str` accessor: its inferred
      type must be text or mixed, so some cell is text, a list or a dict, or
      else every cell is None. A column of numbers, booleans, dates or NaN
      alone is refused. */
  predicate StrAccessible(rows: seq<Record>)
  {
    || (exists i | 0 <= i < |rows| :: Cell(rows[i], QuarterColumn).Str? || Cell(rows[i], QuarterColumn).List? ||
                                      Cell(rows[i], QuarterColumn).Dict?)
    || (forall i | 0 <= i < |rows| :: Cell(rows[i], QuarterColumn) == Null)
  }

  /** `df[df["季度"].str.contains(pattern)]`: the rows of the quarter, in order.
      A frame without the column is a KeyError and a column the `.str`
      accessor refuses an AttributeError. `.str.contains` reads the pattern as
      a regular expression (`compile` models `re.compile`), and a pattern that
      does not compile raises its own error. A cell that is not text makes the
      mask hold a missing value, which pandas refuses. */
  function QuarterFilter(f: Frame, pattern: string, compile: string -> Result<string -> bool>): (r: Result<Frame>)
    ensures r.Ok? <==> QuarterColumn in f.columns && compile(pattern).Ok? &&
                       forall i | 0 <= i < |f.rows| :: Cell(f.rows[i], QuarterColumn).Str?
    ensures QuarterColumn !in f.columns ==> r == Err(KeyError(QuarterColumn))
    ensures QuarterColumn in f.columns && !StrAccessible(f.rows) ==> r == Err(StrAccessorError)
    ensures QuarterColumn in f.columns && StrAccessible(f.rows) && compile(pattern).Err? ==> r == Err(compile(pattern).error)
    ensures QuarterColumn in f.columns && StrAccessible(f.rows) && compile(pattern).Ok? && r.Err? ==> r.error == NaMaskError
    ensures r.Ok? ==> r.value.columns == f.columns &&
                      r.value.rows == Filter(f.rows, x => InQuarter(x, compile(pattern).value))
  {
    if QuarterColumn !in f.columns then Err(KeyError(QuarterColumn))
    else if !StrAccessible(f.rows) then Err(StrAccessorError)
    else match compile(pattern)
      case Err(e) => Err(e)
      case Ok(search) =>
        if FirstNonText(f.rows).Some? then Err(NaMaskError)
        else Ok(Frame(f.columns, Filter(f.rows, x => InQuarter(x, search))))
  }

  /** `aextract_data`: the portfolio of the trimmed symbol for the year, the
      identifier columns dropped, the rows of the quarter, as records. A failed
      portfolio call becomes the generic exception naming the symbol; a frame
      lacking a dropped column raises KeyError; the quarter filter's errors
      pass through. */
  function ExtractData(symbol: string, year: Option<string>, quarter: Option<string>, useCache: bool,
                       portfolio: (string, Option<string>, bool) -> Result<Frame>,
                       compile: string -> Result<string -> bool>): (r: Result<seq<Record>>)
    ensures portfolio(symbol, year, useCache).Err? ==> r == Err(FetchFailure(symbol))
    ensures portfolio(symbol, year, useCache).Ok? && DropColumns(portfolio(symbol, year, useCache).value, DroppedColumns).Err? ==>
      r == Err(DropColumns(portfolio(symbol, year, useCache).value, DroppedColumns).error)
    ensures portfolio(symbol, year, useCache).Ok? && DropColumns(portfolio(symbol, year, useCache).value, DroppedColumns).Ok? ==>
      var q := QuarterFilter(DropColumns(portfolio(symbol, year, useCache).value, DroppedColumns).value, QuarterLabel(quarter), compile);
      (q.Err? ==> r == Err(q.error)) && (q.Ok? ==> r == Ok(q.value.rows))
    ensures r.Ok? ==>
      && portfolio(symbol, year, useCache).Ok? && compile(QuarterLabel(quarter)).Ok?
      && r.value == Filter(DropColumns(portfolio(symbol, year, useCache).value, DroppedColumns).value.rows,
                           x => InQuarter(x, compile(QuarterLabel(quarter)).value))
    ensures r.Ok? ==> forall x | x in r.value :: forall c | c in DroppedColumns :: c !in x
  {
    match portfolio(symbol, year, useCache)
    case Err(_) => Err(FetchFailure(symbol))
    case Ok(df) =>
      match DropColumns(df, DroppedColumns)
      case Err(e) => Err(e)
      case Ok(kept) =>
        match QuarterFilter(kept, QuarterLabel(quarter), compile)
        case Err(e) => Err(e)
        case Ok(q) =>
          assert forall x | x in q.rows :: forall c | c in DroppedColumns :: c !in x by {
            forall x | x in q.rows
              ensures forall c | c in DroppedColumns :: c !in x
            {
              var i :| 0 <= i < |kept.rows| && kept.rows[i] == x;
            }
          }
          Ok(q.rows)
  }

  /** A holdings row the portfolio call returns for the quarter survives the
      extraction, without the identifier columns and otherwise unchanged. */
  lemma {:induction false} ExtractKeepsQuarterRows(symbol: string, year: Option<string>, quarter: Option<string>,
                                                  useCache: bool, portfolio: (string, Option<string>, bool) -> Result<Frame>,
                                                  compile: string -> Result<string -> bool>, i: int)
    requires portfolio(symbol, year, useCache).Ok? && compile(QuarterLabel(quarter)).Ok?
    requires var df := portfolio(symbol, year, useCache).value;
      0 <= i < |df.rows| && InQuarter(df.rows[i], compile(QuarterLabel(quarter)).value)
    requires ExtractData(symbol, year, quarter, useCache, portfolio, compile).Ok?
    ensures var df := portfolio(symbol, year, useCache).value;
      var row := map c | c in df.rows[i] && c !in DroppedColumns :: df.rows[i][c];
      row in ExtractData(symbol, year, quarter, useCache, portfolio, compile).value
  {
    var df := portfolio(symbol, year, useCache).value;
    var kept := DropColumns(df, DroppedColumns).value;
    var search := compile(QuarterLabel(quarter)).value;
    var row := map c | c in df.rows[i] && c !in DroppedColumns :: df.rows[i][c];
    assert kept.rows[i] == row;
    assert Cell(row, QuarterColumn) == Cell(df.rows[i], QuarterColumn);
    assert row in kept.rows && InQuarter(row, search);
  }

  /** The fields `replace_empty` validates, by their field names. */
  const EmptyChecked: seq<string> := ["balance", "name", "symbol", "value"]

  /** The aliases of the data model: (field, upstream column). */
  const Aliases: seq<(string, string)> := [
    ("name", "股票名称"), ("balance", "持股数"), ("value", "持仓市值"),
    ("weight", "占净值比例"), ("acceptance_datetime", "季度")]

  const FloatLiteralPrefix := "could not convert string to float: '"
  const FloatArgumentPrefix := "float() argument must be a string or a real number, not '"

  /** The ValueError of `float(s)` on text it cannot read. */
  function FloatLiteralError(s: string): Error
  {
    ValueError(FloatLiteralPrefix + s + "'")
  }

  /** The TypeError of `float(v)` on a value that is neither text nor a number. */
  function FloatArgumentError(v: Value): Error
  {
    TypeError(FloatArgumentPrefix + TypeName(v) + "'")
  }

  /** The `normalize_percent` validator of `weight`, run before the field's own
      type check: `float(v) if v else None`. */
  function NormalizePercent(v: Value): (r: Result<Value>)
    ensures r == Ok(Null) <==> !Truthy(v)
    ensures Truthy(v) && v.Int? ==> r == Ok(Float(v.i as real))
    ensures Truthy(v) && (v.Float? || v == NaN) ==> r == Ok(v)
    ensures v == Bool(true) ==> r == Ok(Float(1.0))
    ensures Truthy(v) && v.Str? ==>
      (ParseDecimal(v.s).Some? ==> r == Ok(Float(ParseDecimal(v.s).value))) &&
      (ParseDecimal(v.s).None? ==> r == Err(FloatLiteralError(v.s)))
    ensures Truthy(v) && (v.DateVal? || v.List? || v.Dict?) ==> r == Err(FloatArgumentError(v))
    ensures r.Ok? ==> r.value == Null || r.value == NaN || r.value.Float?
  {
    if !Truthy(v) then Ok(Null)
    else match v
      case Int(i) => Ok(Float(i as real))
      case Bool(_) => Ok(Float(1.0))
      case Str(s) =>
        (match ParseDecimal(s)
         case Some(x) => Ok(Float(x))
         case None => Err(FloatLiteralError(s)))
      case Float(_) => Ok(v)
      case NaN => Ok(v)
      case _ => Err(FloatArgumentError(v))
  }

  /** Decimal text and the number it spells give the same weight. */
  lemma NormalizePercentText(s: string, x: real)
    requires ParseDecimal(s) == Some(x) && x != 0.0
    ensures NormalizePercent(Str(s)) == NormalizePercent(Float(x)) == Ok(Float(x))
  {
    assert s != "";
  }

  /** Integer text, such as "5", is read as the number it spells. */
  lemma NormalizePercentIntText(s: string)
    requires ParseInt(s).Some? && ParseInt(s).value != 0
    ensures NormalizePercent(Str(s)) == Ok(Float(ParseInt(s).value as real))
  {
    ParseDecimalAgreesWithInt(s);
  }

  /** Pydantic's refusals of a value for a `float` field: text it cannot read
      as a number, and a value of another type. */
  const FloatParsingError: Error := ValueError("Input should be a valid number, unable to parse string as a number")
  const FloatTypeError: Error := ValueError("Input should be a valid number")

  /** Pydantic's lax reading of a value given for an `Optional[float]` field,
      before the field's "after" validators see it: None, NaN and floats are
      kept, integers and booleans become floats, text is read as a decimal. */
  function CoerceFloat(v: Value): (r: Result<Value>)
    ensures r.Ok? ==> r.value == Null || r.value == NaN || r.value.Float?
    ensures v == Null || v == NaN || v.Float? ==> r == Ok(v)
    ensures v.Int? ==> r == Ok(Float(v.i as real))
    ensures v.Bool? ==> r == Ok(Float(if v.b then 1.0 else 0.0))
    ensures v.Str? ==>
      (ParseDecimal(v.s).Some? ==> r == Ok(Float(ParseDecimal(v.s).value))) &&
      (ParseDecimal(v.s).None? ==> r == Err(FloatParsingError))
    ensures v.DateVal? || v.List? || v.Dict? ==> r == Err(FloatTypeError)
  {
    match v
    case Null => Ok(v)
    case NaN => Ok(v)
    case Float(_) => Ok(v)
    case Int(i) => Ok(Float(i as real))
    case Bool(b) => Ok(Float(if b then 1.0 else 0.0))
    case Str(s) =>
      (match ParseDecimal(s)
       case Some(x) => Ok(Float(x))
       case None => Err(FloatParsingError))
    case _ => Err(FloatTypeError)
  }

  /** A truthy value reads as the same number whether it is given as the
      value of a holding or as its weight; both refuse the same values. */
  lemma {:induction false} CoerceFloatAgreesWithNormalize(v: Value)
    requires Truthy(v)
    ensures CoerceFloat(v).Ok? <==> NormalizePercent(v).Ok?
    ensures CoerceFloat(v).Ok? ==> CoerceFloat(v) == NormalizePercent(v)
  {
    match v
    case Str(s) =>
      assert CoerceFloat(v).Ok? <==> ParseDecimal(s).Some?;
    case Bool(b) =>
      assert b;
    case _ =>
  }

  /** The value of a holding is read before `replace_empty` sees it: decimal
      text becomes its number, and the dash marker, which is not a number, is
      refused rather than emptied. */
  lemma HoldingValueRead(s: string, x: real)
    requires ParseDecimal(s) == Some(x) && x != 0.0
    ensures ReplaceEmpty(CoerceFloat(Str(s)).value) == Float(x)
    ensures CoerceFloat(Str("-")) == Err(FloatParsingError)
  {
    assert "-"[1..] == "";
    assert UnsignedDecimal("") == None;
  }

  /** The record once its weight reads as `w` and its value as `x`. */
  function Checked(u: Record, w: Value, x: Value): (r: Record)
    ensures "weight" in r && r["weight"] == w
    ensures "value" in r && r["value"] == ReplaceEmpty(x)
    ensures forall k | k in EmptyChecked && k != "value" :: k in r && r[k] == ReplaceEmpty(if k in u then u[k] else Null)
    ensures forall k | k in u && k !in EmptyChecked && k != "weight" :: k in r && r[k] == u[k]
  {
    map k | k in u.Keys + (set c | c in EmptyChecked) + {"weight"} ::
      if k == "weight" then w
      else if k == "value" then ReplaceEmpty(x)
      else if k in EmptyChecked then ReplaceEmpty(if k in u then u[k] else Null)
      else u[k]
  }

  /** The field validators on a record whose aliases are resolved. The weight
      is checked before the value. */
  function CheckFields(u: Record): (r: Result<Record>)
    ensures r.Ok? <==> ("weight" !in u || NormalizePercent(u["weight"]).Ok?) && ("value" !in u || CoerceFloat(u["value"]).Ok?)
    ensures "weight" in u && NormalizePercent(u["weight"]).Err? ==> r == Err(NormalizePercent(u["weight"]).error)
    ensures ("weight" !in u || NormalizePercent(u["weight"]).Ok?) && "value" in u && CoerceFloat(u["value"]).Err? ==>
      r == Err(CoerceFloat(u["value"]).error)
    ensures r.Ok? ==> "weight" in r.value && r.value["weight"] == (if "weight" in u then NormalizePercent(u["weight"]).value else Null)
    ensures r.Ok? ==> "value" in r.value && r.value["value"] == ReplaceEmpty(if "value" in u then CoerceFloat(u["value"]).value else Null)
    ensures r.Ok? ==> forall k | k in EmptyChecked && k != "value" :: k in r.value && r.value[k] == ReplaceEmpty(if k in u then u[k] else Null)
    ensures r.Ok? ==> forall k | k in u && k !in EmptyChecked && k != "weight" :: k in r.value && r.value[k] == u[k]
  {
    var weight := if "weight" in u then NormalizePercent(u["weight"]) else Ok(Null);
    var value := if "value" in u then CoerceFloat(u["value"]) else Ok(Null);
    match weight
    case Err(e) => Err(e)
    case Ok(w) =>
      match value
      case Err(e) => Err(e)
      case Ok(x) => Ok(Checked(u, w, x))
  }

  /** `AkshareEtfHoldingsData.model_validate(d)`: the aliases resolved,
      `normalize_percent` applied to a weight the record carries (an absent one
      is None), the value read as a float, and `replace_empty` applied to the
      four validated fields, an absent field reading as None. A weight the
      validator refuses, or a value that is not a number, fails the
      validation. */
  function ValidateHolding(rec: Record): (r: Result<Record>)
    ensures var u := Unalias(rec, Aliases);
      && (r.Ok? <==> ("weight" !in u || NormalizePercent(u["weight"]).Ok?) && ("value" !in u || CoerceFloat(u["value"]).Ok?))
      && ("weight" in u && NormalizePercent(u["weight"]).Err? ==> r == Err(NormalizePercent(u["weight"]).error))
      && (("weight" !in u || NormalizePercent(u["weight"]).Ok?) && "value" in u && CoerceFloat(u["value"]).Err? ==>
            r == Err(CoerceFloat(u["value"]).error))
      && (r.Ok? ==> "weight" in r.value && r.value["weight"] == (if "weight" in u then NormalizePercent(u["weight"]).value else Null))
      && (r.Ok? ==> "value" in r.value && r.value["value"] == ReplaceEmpty(if "value" in u then CoerceFloat(u["value"]).value else Null))
      && (r.Ok? ==> forall k | k in EmptyChecked && k != "value" :: k in r.value && r.value[k] == ReplaceEmpty(if k in u then u[k] else Null))
      && (r.Ok? ==> forall k | k in u && k !in EmptyChecked && k != "weight" :: k in r.value && r.value[k] == u[k])
  {
    CheckFields(Unalias(rec, Aliases))
  }

  /** The symbol field has no alias, so validation reads it as it is. */
  lemma SymbolNotAliased()
    ensures forall rec: Record | "symbol" in rec :: "symbol" in Unalias(rec, Aliases) && Unalias(rec, Aliases)["symbol"] == rec["symbol"]
  {
    assert forall j | 0 <= j < |Aliases| :: Aliases[j].0[0] != 's' && Aliases[j].1[0] != 's';
    forall rec: Record | "symbol" in rec
      ensures "symbol" in Unalias(rec, Aliases) && Unalias(rec, Aliases)["symbol"] == rec["symbol"]
    {
      UnaliasKeeps(rec, Aliases, "symbol");
    }
  }

  /** The validated symbol is the `replace_empty` of the symbol given. */
  lemma ValidatedSymbol(rec: Record)
    requires "symbol" in rec && ValidateHolding(rec).Ok?
    ensures ValidateHolding(rec).value["symbol"] == ReplaceEmpty(rec["symbol"])
  {
    SymbolNotAliased();
    assert "symbol" in EmptyChecked;
  }

  /** `transform_data`: the exchange markers rewritten in place, then every
      record validated. A record the rewrite fails on stops the loop and
      raises, leaving the records before it rewritten. */
  method TransformData(data: array<Record>) returns (r: Result<seq<Record>>)
    modifies data
    ensures var k := RewritablePrefix(old(data[..]));
      && (forall i | 0 <= i < k :: data[i] == RewriteRecord(old(data[i])).value)
      && (forall i | k <= i < data.Length :: data[i] == old(data[i]))
      && (k < data.Length ==> r == Err(RewriteRecord(old(data[k])).error))
      && (k == data.Length ==> r == MapAll(data[..], ValidateHolding))
  {
    var err := RewriteSymbols(data);
    if err.Some? {
      return Err(err.value);
    }
    r := MapAll(data[..], ValidateHolding);
  }

  /** A holding whose symbol is an exchange marker followed by a digit code
      comes out with the code and the marker's suffix, never as None. */
  lemma {:induction false} HoldingSymbolRewritten(rec: Record, m: string, d: string)
    requires IsMarker(m) && AllDigits(d)
    requires "symbol" in rec && rec["symbol"] == Str(m + d)
    ensures RewriteRecord(rec).Ok?
    ensures ValidateHolding(RewriteRecord(rec).value).Ok? ==>
      ValidateHolding(RewriteRecord(rec).value).value["symbol"] == Str(d + SuffixFor(m))
  {
    RewriteCoded(m, d);
    var t := d + SuffixFor(m);
    assert |t| >= 3;
    assert ReplaceEmpty(Str(t)) == Str(t);
    var w := RewriteRecord(rec).value;
    assert w["symbol"] == Str(t);
    if ValidateHolding(w).Ok? {
      ValidatedSymbol(w);
    }
  }
}
