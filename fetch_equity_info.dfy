/** fetch_equity_info.py: company facts for one symbol, served from the equity
    cache when it holds a row for the symbol, otherwise fetched from the
    Xueqiu company-profile calls, upserted into the cache and read back.

    The symbol normaliser, the two upstream calls and `json.dumps` are
    parameters; the cache is the object passed in. */
module FetchEquityInfo {

  import opened Common
  import opened SqlTable
  import opened EquityCaching

  /** `serialize_dict_fields(d)`: dict values become their JSON text. */
  function SerializeDictFields(d: Record, dumps: Value -> string): (r: Record)
    ensures r.Keys == d.Keys
    ensures forall k | k in d && !d[k].Dict? :: r[k] == d[k]
    ensures forall k | k in d && d[k].Dict? :: r[k] == Str(dumps(d[k]))
  {
    map k | k in d :: if d[k].Dict? then Str(dumps(d[k])) else d[k]
  }

  /** No dict is left after serialising, so serialising again changes nothing. */
  lemma SerializeIdempotent(d: Record, dumps: Value -> string)
    ensures forall k | k in SerializeDictFields(d, dumps) :: !SerializeDictFields(d, dumps)[k].Dict?
    ensures SerializeDictFields(SerializeDictFields(d, dumps), dumps) == SerializeDictFields(d, dumps)
  {
  }

  /** The Hong Kong profile items copied into the row: (column, item). */
  const HkFields: seq<(string, string)> := [
    ("org_name_en", "comenname"), ("main_operation_business", "mbu"),
    ("org_cn_introduction", "comintr"), ("chairman", "chairman"),
    ("org_website", "web_site"), ("reg_address_cn", "rgiofc"),
    ("office_address_cn", "hofclctmbu"), ("telephone", "tel"),
    ("operating_scope", "refccomty"), ("listed_date", "lsdateipo"),
    ("org_name_cn", "comcnname"), ("org_id", "comunic"),
    ("established_date", "incdate"), ("actual_issue_vol", "numtissh"),
    ("issue_price", "ispr")]

  /** The items the Hong Kong row reads, in the order it reads them. */
  function HkItems(): (r: seq<string>)
    ensures |r| == |HkFields| && forall i | 0 <= i < |r| :: r[i] == HkFields[i].1
  {
    seq(|HkFields|, i requires 0 <= i < |HkFields| => HkFields[i].1)
  }

  /** The item the first pair naming `column` copies from. */
  function ItemFor(fields: seq<(string, string)>, column: string): (r: Option<string>)
    ensures r.Some? ==> exists i | 0 <= i < |fields| :: fields[i] == (column, r.value)
    ensures r.None? ==> forall i | 0 <= i < |fields| :: fields[i].0 != column
  {
    if fields == [] then None
    else if fields[0].0 == column then Some(fields[0].1)
    else ItemFor(fields[1..], column)
  }

  /** The pair naming a column first is the one `ItemFor` finds. */
  lemma {:induction false} ItemForFirst(fields: seq<(string, string)>, i: int)
    requires 0 <= i < |fields|
    requires forall j | 0 <= j < i :: fields[j].0 != fields[i].0
    ensures ItemFor(fields, fields[i].0) == Some(fields[i].1)
  {
    if i > 0 {
      assert forall j | 0 <= j < i - 1 :: fields[1..][j] == fields[j + 1];
      ItemForFirst(fields[1..], i - 1);
    }
  }

  /** Every Hong Kong column is a schema column other than `symbol` and
      `currency`, and none is named twice. */
  lemma HkColumns()
    ensures forall i | 0 <= i < |HkFields| :: HkFields[i].0 in InfoFields && HkFields[i].0 != "currency"
    ensures forall i, j | 0 <= j < i < |HkFields| :: HkFields[j].0 != HkFields[i].0
  {
    SchemaShape();
    assert "org_name_en"[4] != "org_name_cn"[4] || "org_name_en"[9] != "org_name_cn"[9];
    assert "established_date"[0] != "actual_issue_vol"[0];
    assert "org_website"[4] != "listed_date"[4] && "org_website"[0] != "issue_price"[0];
    assert "org_name_en"[4] != "org_website"[4] && "org_name_cn"[4] != "org_website"[4];
    assert "org_name_en"[0] != "listed_date"[0] && "org_name_cn"[0] != "listed_date"[0];
    assert "org_name_en"[0] != "issue_price"[0] && "org_name_cn"[0] != "issue_price"[0];
    assert "listed_date"[0] != "issue_price"[0];
  }

  /** The cell of `column` in the Hong Kong row copying the items `fields`. */
  function HkCell(fields: seq<(string, string)>, column: string, symbolF: string, info: Record): Value
  {
    if column == "symbol" then Str(symbolF)
    else if column == "currency" then Str("HKD")
    else match ItemFor(fields, column)
      case Some(item) => if item in info then info[item] else NaN
      case None => NaN
  }

  /** The Hong Kong row copying the items `fields`. */
  function HkMap(fields: seq<(string, string)>, symbolF: string, info: Record): Record
  {
    map c | c in EquityInfoColumns :: HkCell(fields, c, symbolF, info)
  }

  /** The cells of a Hong Kong row copying the items `fields`: every schema
      column, the formatted symbol, "HKD", each item in its column, and NaN in
      the columns no item names. */
  predicate HkShaped(row: Record, fields: seq<(string, string)>, symbolF: string, info: Record)
  {
    && row.Keys == (set c | c in EquityInfoColumns)
    && "symbol" in row && row["symbol"] == Str(symbolF)
    && "currency" in row && row["currency"] == Str("HKD")
    && (forall i | 0 <= i < |fields| ::
          fields[i].0 in row && fields[i].1 in info && row[fields[i].0] == info[fields[i].1])
    && (forall c | c in InfoFields && c != "currency" && (forall i | 0 <= i < |fields| :: fields[i].0 != c) ::
          c in row && row[c] == NaN)
  }

  /** The Hong Kong row built from items `info` holds has that shape. */
  lemma HkMapCells(fields: seq<(string, string)>, symbolF: string, info: Record)
    requires forall i | 0 <= i < |fields| :: fields[i].1 in info
    requires forall i | 0 <= i < |fields| :: fields[i].0 in InfoFields && fields[i].0 != "currency"
    requires forall i, j | 0 <= j < i < |fields| :: fields[j].0 != fields[i].0
    ensures HkShaped(HkMap(fields, symbolF, info), fields, symbolF, info)
  {
    SchemaShape();
    forall i | 0 <= i < |fields|
      ensures HkMap(fields, symbolF, info)[fields[i].0] == info[fields[i].1]
    {
      ItemForFirst(fields, i);
    }
  }

  /** The row the Hong Kong branch builds from the profile items: the formatted
      symbol, the fifteen copied items, currency "HKD", and NaN in the columns
      it does not set. A missing item is a KeyError. */
  function HkRow(symbolF: string, info: Record): (r: Result<Record>)
    ensures r.Ok? <==> forall i | 0 <= i < |HkFields| :: HkFields[i].1 in info
    ensures r.Err? ==> r.error.KeyError? && r.error.key !in info
    ensures r.Ok? ==> HkShaped(r.value, HkFields, symbolF, info)
  {
    HkItemsPresent(info);
    match FirstMissing(HkItems(), c => c in info)
    case Some(item) => Err(KeyError(item))
    case None =>
      HkRowCells(symbolF, info);
      Ok(HkMap(HkFields, symbolF, info))
  }

  lemma HkItemsPresent(info: Record)
    ensures (forall c | c in HkItems() :: c in info) <==> forall i | 0 <= i < |HkFields| :: HkFields[i].1 in info
  {
    assert forall i | 0 <= i < |HkFields| :: HkFields[i].1 in HkItems();
  }

  lemma HkRowCells(symbolF: string, info: Record)
    requires forall i | 0 <= i < |HkFields| :: HkFields[i].1 in info
    ensures HkShaped(HkMap(HkFields, symbolF, info), HkFields, symbolF, info)
  {
    HkColumns();
    HkMapCells(HkFields, symbolF, info);
  }

  /** The cells of a row built from the items `cols` of `info`: every column
      of `cols` and `symbol`, the formatted symbol, each item as it is, dicts
      as their JSON text. */
  predicate AShaped(row: Record, cols: seq<string>, symbolF: string, info: Record, dumps: Value -> string)
  {
    && row.Keys == (set c | c in ["symbol"] + cols)
    && "symbol" in row && row["symbol"] == Str(symbolF)
    && (forall c | c in cols && c in info && !info[c].Dict? :: c in row && row[c] == info[c])
    && (forall c | c in cols && c in info && info[c].Dict? :: c in row && row[c] == Str(dumps(info[c])))
  }

  /** The row built from items `info` holds has that shape. */
  lemma BuiltRow(cols: seq<string>, info: Record, dumps: Value -> string, symbolF: string)
    requires forall c | c in cols :: c in info
    requires "symbol" !in cols
    ensures AShaped(SerializeDictFields(Project(info, cols), dumps)["symbol" := Str(symbolF)], cols, symbolF, info, dumps)
  {
    var p := Project(info, cols);
    assert p.Keys == set c | c in cols;
  }

  /** The row the other branch builds: every schema column after `symbol` from
      the profile items, dicts serialised, the formatted symbol in front. A
      missing item is a KeyError. */
  function ARow(symbolF: string, info: Record, dumps: Value -> string): (r: Result<Record>)
    ensures r.Ok? <==> forall c | c in InfoFields :: c in info
    ensures r.Err? ==> r.error.KeyError? && r.error.key !in info
    ensures r.Ok? ==> AShaped(r.value, InfoFields, symbolF, info, dumps)
  {
    match FirstMissing(InfoFields, c => c in info)
    case Some(item) => Err(KeyError(item))
    case None =>
      SchemaShape();
      BuiltRow(InfoFields, info, dumps, symbolF);
      Ok(SerializeDictFields(Project(info, InfoFields), dumps)["symbol" := Str(symbolF)])
  }

  /** The one-row frame the miss path upserts, or the error it raises. Hong
      Kong uses its own profile call on the bare code; every other market asks
      for "SH" followed by the bare code. */
  function MissFrame(symbolB: string, symbolF: string, market: string,
                     hkInfo: string -> Result<Record>, aInfo: string -> Result<Record>,
                     dumps: Value -> string): (r: Result<Frame>)
    ensures r.Ok? ==> r.value.columns == EquityInfoColumns && |r.value.rows| == 1
    ensures r.Ok? ==> SymbolOf(r.value.rows[0]) == Str(symbolF)
    ensures market == "HK" && hkInfo(symbolB).Err? ==> r == Err(hkInfo(symbolB).error)
    ensures market != "HK" && aInfo("SH" + symbolB).Err? ==> r == Err(aInfo("SH" + symbolB).error)
    ensures r.Ok? && market == "HK" ==> Ok(r.value.rows[0]) == HkRow(symbolF, hkInfo(symbolB).value)
    ensures r.Ok? && market != "HK" ==> Ok(r.value.rows[0]) == ARow(symbolF, aInfo("SH" + symbolB).value, dumps)
    ensures market == "HK" && hkInfo(symbolB).Ok? ==>
      match HkRow(symbolF, hkInfo(symbolB).value)
      case Ok(row) => r == Ok(Frame(EquityInfoColumns, [row]))
      case Err(e) => r == Err(e)
    ensures market != "HK" && aInfo("SH" + symbolB).Ok? ==>
      match ARow(symbolF, aInfo("SH" + symbolB).value, dumps)
      case Ok(row) => r == Ok(Frame(EquityInfoColumns, [row]))
      case Err(e) => r == Err(e)
  {
    SchemaShape();
    var row := if market == "HK" then
        (match hkInfo(symbolB) case Err(e) => Err(e) case Ok(info) => HkRow(symbolF, info))
      else
        (match aInfo("SH" + symbolB) case Err(e) => Err(e) case Ok(info) => ARow(symbolF, info, dumps));
    match row
    case Err(e) => Err(e)
    case Ok(rec) => Ok(Frame(EquityInfoColumns, [rec]))
  }

  /** `data[data["symbol"] == symbol_f]`. */
  function SelectSymbol(f: Frame, symbolF: string): (r: Result<Frame>)
    ensures r.Ok? <==> "symbol" in f.columns
    ensures r.Ok? ==> r.value.columns == f.columns
    ensures r.Ok? ==> forall x | x in r.value.rows :: x in f.rows && SymbolOf(x) == Str(symbolF)
    ensures r.Ok? ==> r.value.rows == Filter(f.rows, x => SymbolOf(x) == Str(symbolF))
  {
    if "symbol" in f.columns then
      WithSymbolFilters(f.rows, Str(symbolF), x => SymbolOf(x) == Str(symbolF));
      Ok(Frame(f.columns, WithSymbol(f.rows, Str(symbolF))))
    else Err(KeyError("symbol"))
  }

  /** After a successful miss, reading the table back for the symbol gives
      exactly the one row that was upserted. */
  lemma MissReadsBack(name: string, t: Table, df: Frame, symbolF: string)
    requires "symbol" in t.columns
    requires |df.rows| == 1 && SymbolOf(df.rows[0]) == Str(symbolF)
    requires Upsert(name, t, df).Ok?
    ensures SelectSymbol(Frame(t.columns, Upsert(name, t, df).value.rows), symbolF) ==
      Ok(Frame(t.columns, [Stored(t.columns, df.rows[0])]))
  {
    assert df.rows[..0] == [];
    UpsertLastWins(t.rows, t.columns, df.rows, Str(symbolF));
  }

  /** `fetch_equity_info(symbol)` against `cache`. A cache that cannot be read
      raises; a failure on the miss path is swallowed into an empty frame with
      the schema columns. */
  method FetchEquityInfo(symbol: string, cache: EquityCache,
                         normalize: string -> (string, string, string),
                         hkInfo: string -> Result<Record>, aInfo: string -> Result<Record>,
                         dumps: Value -> string) returns (r: Result<Frame>)
    modifies cache.db
    ensures cache.db.present
    ensures cache.tableName !in old(cache.db.tables) ==> r.Err? && cache.db.tables == old(cache.db.tables)
    ensures cache.tableName in old(cache.db.tables) ==>
      var (symbolB, symbolF, market) := normalize(symbol);
      var t := old(cache.db.tables)[cache.tableName];
      match SelectSymbol(Frame(t.columns, t.rows), symbolF)
      case Err(e) => r == Err(e) && cache.db.tables == old(cache.db.tables)
      case Ok(hit) =>
        if !IsEmptyFrame(hit) then r == Ok(hit) && cache.db.tables == old(cache.db.tables)
        else match MissFrame(symbolB, symbolF, market, hkInfo, aInfo, dumps)
          case Err(_) => r == Ok(Frame(EquityInfoColumns, [])) && cache.db.tables == old(cache.db.tables)
          case Ok(df) =>
            match Upsert(cache.tableName, t, df)
            case Err(_) => r == Ok(Frame(EquityInfoColumns, [])) && cache.db.tables == old(cache.db.tables)
            case Ok(t2) =>
              cache.db.tables == old(cache.db.tables)[cache.tableName := t2]
              && r == SelectSymbol(Frame(t2.columns, t2.rows), symbolF)
  {
    var (symbolB, symbolF, market) := normalize(symbol);
    var data := cache.ReadDataframe();
    if data.Err? {
      return data;
    }
    var result := SelectSymbol(data.value, symbolF);
    if result.Err? || !IsEmptyFrame(result.value) {
      return result;
    }
    var df := MissFrame(symbolB, symbolF, market, hkInfo, aInfo, dumps);
    if df.Err? {
      return Ok(Frame(EquityInfoColumns, []));
    }
    var err := cache.UpdateOrInsert(df.value);
    if err.Some? {
      return Ok(Frame(EquityInfoColumns, []));
    }
    data := cache.ReadDataframe();
    r := SelectSymbol(data.value, symbolF);
  }
}
