/** business_analysis.py: the main-business composition of a company, one
    record per category and item. Every record is stamped with the query
    symbol, a missing category reads as the industry classification, missing
    cells become None, and the exchange marker of the symbol is rewritten into
    a suffix.

    The code converter `convert_stock_code_format` and the upstream call
    `stock_zygc_em` are parameters. */
module BusinessAnalysis {

  import opened Common
  import opened Strings
  import opened Frames
  import opened SymbolRewrite

  /** The column holding the classification of each item. */
  const CategoryColumn: string := "分类类型"

  /** The classification a missing category is given. */
  const DefaultCategory: string := "按行业分类"

  /** The aliases of the data model: (field, upstream column). */
  const AnalysisAliases: seq<(string, string)> := [
    ("report_date", "报告日期"), ("category_type", "分类类型"), ("main_composition", "主营构成"),
    ("main_revenue", "主营收入"), ("revenue_ratio", "收入比例"), ("main_cost", "主营成本"),
    ("cost_ratio", "成本比例"), ("main_profit", "主营利润"), ("profit_ratio", "利润比例"),
    ("gross_margin", "毛利率"), ("code", "股票代码")]

  /** `transform_query` followed by the `to_upper` validator: the symbol is
      the converted code of the given one ("" when absent), upper-cased. */
  function TransformQuery(params: map<string, Value>, convert: Value -> string): (r: map<string, Value>)
    ensures r.Keys == params.Keys + {"symbol"}
    ensures var given := if "symbol" in params then params["symbol"] else Str("");
      r["symbol"] == Str(Upper(convert(given)))
    ensures r["symbol"].Str? && forall i | 0 <= i < |r["symbol"].s| :: !('a' <= r["symbol"].s[i] <= 'z')
    ensures forall k | k in params && k != "symbol" :: r[k] == params[k]
  {
    var given := if "symbol" in params then params["symbol"] else Str("");
    params["symbol" := Str(Upper(convert(given)))]
  }

  /** `df.where(~df.isna(), None)` on one cell of a column: a missing cell
      becomes None, except in a float64 column, which cannot hold None and
      keeps NaN. */
  function NoneForNA(v: Value, floatColumn: bool): (r: Value)
    ensures !IsNA(v) ==> r == v
    ensures IsNA(v) && !floatColumn ==> r == Null
    ensures IsNA(v) && floatColumn ==> r == NaN
    ensures r == NaN ==> floatColumn
  {
    if !IsNA(v) then v else if floatColumn then NaN else Null
  }

  /** One extracted record: the symbol column set, the category defaulted,
      then every missing cell made None. `isFloat` tells the columns of the
      upstream frame pandas holds as float64; the symbol and category columns
      hold text after their assignment. */
  function CleanRow(row: Record, symbol: string, isFloat: string -> bool): (r: Record)
    ensures r.Keys == row.Keys + {"symbol", CategoryColumn}
    ensures r["symbol"] == Str(symbol)
    ensures r[CategoryColumn] == if IsNA(Cell(row, CategoryColumn)) then Str(DefaultCategory) else Cell(row, CategoryColumn)
    ensures !IsNA(r[CategoryColumn])
    ensures forall k | k in row && k != "symbol" && k != CategoryColumn :: r[k] == NoneForNA(row[k], isFloat(k))
    ensures forall k | k in r && !isFloat(k) :: r[k] != NaN
  {
    var stamped := row["symbol" := Str(symbol)];
    var category := Cell(stamped, CategoryColumn);
    var filled := stamped[CategoryColumn := if IsNA(category) then Str(DefaultCategory) else category];
    map k | k in filled :: NoneForNA(filled[k], isFloat(k) && k != "symbol" && k != CategoryColumn)
  }

  /** `aextract_data`: the upstream frame of the symbol as records, each
      cleaned. An upstream failure propagates; a frame without the category
      column raises KeyError. */
  function ExtractData(symbol: string, zygc: string -> Result<Frame>, isFloat: string -> bool): (r: Result<seq<Record>>)
    ensures zygc(symbol).Err? ==> r == Err(zygc(symbol).error)
    ensures zygc(symbol).Ok? ==> (r.Ok? <==> CategoryColumn in zygc(symbol).value.columns)
    ensures r.Err? && zygc(symbol).Ok? ==> r == Err(KeyError(CategoryColumn))
    ensures r.Ok? ==> |r.value| == |zygc(symbol).value.rows|
    ensures r.Ok? ==> forall i | 0 <= i < |r.value| :: r.value[i] == CleanRow(zygc(symbol).value.rows[i], symbol, isFloat)
  {
    match zygc(symbol)
    case Err(e) => Err(e)
    case Ok(df) =>
      if CategoryColumn !in df.columns then Err(KeyError(CategoryColumn))
      else Ok(seq(|df.rows|, i requires 0 <= i < |df.rows| => CleanRow(df.rows[i], symbol, isFloat)))
  }

  /** One record read through the aliases of the data model. */
  function Validate(rec: Record): Record
  {
    Unalias(rec, AnalysisAliases)
  }

  /** `transform_data`: the exchange markers rewritten in place, then every
      record read through the aliases of the data model. A record the rewrite
      fails on stops the loop and raises. */
  method TransformData(data: array<Record>) returns (r: Result<seq<Record>>)
    modifies data
    ensures var k := RewritablePrefix(old(data[..]));
      && (forall i | 0 <= i < k :: data[i] == RewriteRecord(old(data[i])).value)
      && (forall i | k <= i < data.Length :: data[i] == old(data[i]))
      && (k < data.Length ==> r == Err(RewriteRecord(old(data[k])).error))
      && (k == data.Length ==>
            r.Ok? && |r.value| == data.Length &&
            forall i | 0 <= i < data.Length :: r.value[i] == Validate(data[i]))
  {
    var err := RewriteSymbols(data);
    if err.Some? {
      return Err(err.value);
    }
    r := Ok(UnaliasEach(data[..], AnalysisAliases));
  }

  /** Extraction followed by the rewrite: for a query symbol made of an
      exchange marker and a digit code, such as "SH688041", every record comes
      out with the symbol "688041.SS". */
  lemma {:induction false} ExtractedSymbolsRewritten(m: string, d: string, zygc: string -> Result<Frame>, isFloat: string -> bool)
    requires IsMarker(m) && AllDigits(d)
    requires ExtractData(m + d, zygc, isFloat).Ok?
    ensures var rs := ExtractData(m + d, zygc, isFloat).value;
      forall i | 0 <= i < |rs| :: RewriteRecord(rs[i]).Ok? && RewriteRecord(rs[i]).value["symbol"] == Str(d + SuffixFor(m))
  {
    RewriteCoded(m, d);
  }
}
