/** ak_equity_search.py: the list of A-share and Hong Kong symbols, built from
    two akshare listings and kept in a `symbols` table cache. */
module AkEquitySearch {

  import opened Common
  import opened Frames

  /** The Hong Kong exchange code every Hong Kong row carries. */
  const HkExchange: string := "HKEX"

  /** The A-share part of `get_symbols_df`: `code` renamed to `symbol`, then
      `exchange` from `get_exchange` of each symbol. Without a symbol column
      the lookup raises. */
  function AShares(a: Frame, getExchange: Value -> Value): (r: Result<Frame>)
    ensures r.Ok? <==> "code" in a.columns || "symbol" in a.columns
    ensures r.Err? ==> r.error == KeyError("symbol")
    ensures r.Ok? ==> "symbol" in r.value.columns && "exchange" in r.value.columns
    ensures r.Ok? ==> |r.value.rows| == |a.rows|
    ensures r.Ok? ==> forall i | 0 <= i < |a.rows| && "code" in a.rows[i] ::
      Cell(r.value.rows[i], "symbol") == a.rows[i]["code"] &&
      Cell(r.value.rows[i], "exchange") == getExchange(a.rows[i]["code"])
    ensures r.Ok? ==> forall i, c | 0 <= i < |a.rows| && c != "code" && c != "symbol" && c != "exchange" ::
      Cell(r.value.rows[i], c) == Cell(a.rows[i], c)
  {
    var a1 := RenameColumn(a, "code", "symbol");
    if "symbol" !in a1.columns then Err(KeyError("symbol"))
    else
      assert forall i | 0 <= i < |a.rows| && "code" in a.rows[i] :: Cell(a1.rows[i], "symbol") == a.rows[i]["code"];
      Ok(AssignColumn(a1, "exchange", seq(|a1.rows|, i requires 0 <= i < |a1.rows| => getExchange(Cell(a1.rows[i], "symbol")))))
  }

  /** One Hong Kong row after the column selection, the two renames and the
      exchange assignment. */
  function HkRow(r: Record): Record
  {
    map["symbol" := Cell(r, "代码"), "name" := Cell(r, "名称"), "exchange" := Str(HkExchange)]
  }

  /** The Hong Kong part of `get_symbols_df`: 代码 and 名称 as `symbol` and
      `name`, exchange "HKEX". A listing without those columns raises. */
  function HkShares(hk: Frame): (r: Result<Frame>)
    ensures r.Ok? <==> "代码" in hk.columns && "名称" in hk.columns
    ensures r.Err? ==> r.error.KeyError?
    ensures r.Ok? ==> r.value.columns == ["symbol", "name", "exchange"]
    ensures r.Ok? ==> |r.value.rows| == |hk.rows|
    ensures r.Ok? ==> forall j | 0 <= j < |hk.rows| ::
      Cell(r.value.rows[j], "symbol") == Cell(hk.rows[j], "代码") &&
      Cell(r.value.rows[j], "name") == Cell(hk.rows[j], "名称") &&
      Cell(r.value.rows[j], "exchange") == Str(HkExchange)
  {
    match FirstMissing(["代码", "名称"], c => c in hk.columns)
    case Some(c) => Err(KeyError(c))
    case None => Ok(Frame(["symbol", "name", "exchange"], seq(|hk.rows|, j requires 0 <= j < |hk.rows| => HkRow(hk.rows[j]))))
  }

  /** `get_symbols_df()`: the A-share rows followed by the Hong Kong rows. A
      failed listing call raises. */
  function SymbolsFrame(aCodes: Result<Frame>, hkSpot: Result<Frame>, getExchange: Value -> Value): (r: Result<Frame>)
    ensures aCodes.Err? ==> r == Err(aCodes.error)
    ensures aCodes.Ok? && hkSpot.Err? && "code" in aCodes.value.columns ==> r == Err(hkSpot.error)
    ensures r.Ok? <==> aCodes.Ok? && AShares(aCodes.value, getExchange).Ok? && hkSpot.Ok? && HkShares(hkSpot.value).Ok?
    ensures aCodes.Ok? && AShares(aCodes.value, getExchange).Err? ==> r == Err(AShares(aCodes.value, getExchange).error)
    ensures aCodes.Ok? && AShares(aCodes.value, getExchange).Ok? && hkSpot.Ok? && HkShares(hkSpot.value).Err? ==>
      r == Err(HkShares(hkSpot.value).error)
    ensures r.Ok? ==> r.value == Concat(AShares(aCodes.value, getExchange).value, HkShares(hkSpot.value).value)
    ensures r.Ok? ==> |r.value.rows| == |aCodes.value.rows| + |hkSpot.value.rows|
    ensures r.Ok? ==> "symbol" in r.value.columns && "name" in r.value.columns && "exchange" in r.value.columns
  {
    match aCodes
    case Err(e) => Err(e)
    case Ok(a) =>
      match AShares(a, getExchange)
      case Err(e) => Err(e)
      case Ok(a2) =>
        match hkSpot
        case Err(e) => Err(e)
        case Ok(hk) =>
          match HkShares(hk)
          case Err(e) => Err(e)
          case Ok(h2) => Ok(Concat(a2, h2))
  }

  /** The i-th row of the listing is the i-th A-share: its code as the
      symbol, its name and every other column of the listing kept, its
      exchange looked up from its code. */
  lemma AShareRowKept(aCodes: Result<Frame>, hkSpot: Result<Frame>, getExchange: Value -> Value, i: int)
    requires SymbolsFrame(aCodes, hkSpot, getExchange).Ok?
    requires 0 <= i < |aCodes.value.rows| && "code" in aCodes.value.rows[i]
    ensures var row := SymbolsFrame(aCodes, hkSpot, getExchange).value.rows[i];
      && Cell(row, "symbol") == aCodes.value.rows[i]["code"]
      && Cell(row, "exchange") == getExchange(aCodes.value.rows[i]["code"])
      && Cell(row, "name") == Cell(aCodes.value.rows[i], "name")
      && forall c | c in aCodes.value.columns && c != "code" && c != "symbol" && c != "exchange" ::
           Cell(row, c) == Cell(aCodes.value.rows[i], c)
  {
    var a := aCodes.value;
    var a2 := AShares(a, getExchange).value;
    var h2 := HkShares(hkSpot.value).value;
    ConcatCellFirst(a2, h2, i, "symbol");
    ConcatCellFirst(a2, h2, i, "exchange");
    assert "name" in Concat(a2, h2).columns by {
      assert "name" in h2.columns;
    }
    forall c | c in a.columns && c != "code" && c != "symbol" && c != "exchange"
      ensures Cell(Concat(a2, h2).rows[i], c) == Cell(a.rows[i], c)
    {
      var k :| 0 <= k < |a.columns| && a.columns[k] == c;
      assert RenameColumn(a, "code", "symbol").columns[k] == c;
      ConcatCellFirst(a2, h2, i, c);
    }
  }

  /** After the A-shares, the j-th Hong Kong listing row: 代码 as the symbol,
      名称 as the name, exchange "HKEX". */
  lemma HkRowKept(aCodes: Result<Frame>, hkSpot: Result<Frame>, getExchange: Value -> Value, j: int)
    requires SymbolsFrame(aCodes, hkSpot, getExchange).Ok?
    requires 0 <= j < |hkSpot.value.rows|
    ensures var row := SymbolsFrame(aCodes, hkSpot, getExchange).value.rows[|aCodes.value.rows| + j];
      Cell(row, "symbol") == Cell(hkSpot.value.rows[j], "代码") &&
      Cell(row, "name") == Cell(hkSpot.value.rows[j], "名称") &&
      Cell(row, "exchange") == Str(HkExchange)
  {
    var a2 := AShares(aCodes.value, getExchange).value;
    var h2 := HkShares(hkSpot.value).value;
    ConcatCellSecond(a2, h2, j, "symbol");
    ConcatCellSecond(a2, h2, j, "name");
    ConcatCellSecond(a2, h2, j, "exchange");
  }

  /** The `symbols` table the cache keeps. */
  class SymbolCache {
    var data: Frame

    constructor(data: Frame)
      ensures this.data == data
    {
      this.data := data;
    }

    /** `read_dataframe()`: the whole table. */
    method ReadDataframe() returns (f: Frame)
      ensures f == data
    {
      f := data;
    }

    /** `write_dataframe(df)`: the table becomes the frame. */
    method WriteDataframe(df: Frame)
      modifies this
      ensures data == df
    {
      data := df;
    }
  }

  /** `get_symbols(use_cache)`: a non-empty cached table is returned as it is;
      otherwise the listing is built, written over the table and returned. */
  method GetSymbols(useCache: bool, cache: SymbolCache, aCodes: Result<Frame>, hkSpot: Result<Frame>,
                    getExchange: Value -> Value) returns (r: Result<Frame>)
    modifies cache
    ensures useCache && !IsEmptyFrame(old(cache.data)) ==> r == Ok(old(cache.data)) && cache.data == old(cache.data)
    ensures !(useCache && !IsEmptyFrame(old(cache.data))) ==>
      r == SymbolsFrame(aCodes, hkSpot, getExchange) &&
      (r.Ok? ==> cache.data == r.value) && (r.Err? ==> cache.data == old(cache.data))
  {
    if useCache {
      var data := cache.ReadDataframe();
      if !IsEmptyFrame(data) {
        return Ok(data);
      }
    }
    r := SymbolsFrame(aCodes, hkSpot, getExchange);
    if r.Ok? {
      cache.WriteDataframe(r.value);
    }
  }
}
