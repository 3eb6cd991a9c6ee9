/** The quote cache of fetch_quote.py: one SQLite table `equity_quote` keyed by
    market, holding the time a spot-price frame was fetched and the frame
    itself. A cached frame younger than an hour is served; anything else is
    fetched again and stored under the current time.

    The database is the state of a `QuoteStore` object; the clock reading and
    the upstream spot-price calls are parameters. */
module FetchQuote {

  import opened Common

  /** Seconds a cached frame stays valid. */
  const CacheTtl: real := 3600.0

  /** The columns `get_data` keeps, in order. */
  const QuoteColumns: seq<string> := ["代码", "名称", "最新价", "今开", "最高", "最低", "涨跌幅", "涨跌额", "成交量", "昨收"]

  /** The three akshare spot-price calls. */
  datatype SpotSource = HkSpot | ASpot | BjSpot

  /** One row of `equity_quote`: the fetch time and the stored frame. */
  datatype QuoteRow = QuoteRow(timestamp: real, data: Frame)

  /** The upstream call `get_data` makes for a market; no call for any other. */
  function SourceFor(market: string): (r: Option<SpotSource>)
    ensures r == Some(HkSpot) <==> market == "HK"
    ensures r == Some(ASpot) <==> market == "SH" || market == "SZ"
    ensures r == Some(BjSpot) <==> market == "BJ"
  {
    if market == "HK" then Some(HkSpot)
    else if market == "SH" || market == "SZ" then Some(ASpot)
    else if market == "BJ" then Some(BjSpot)
    else None
  }

  /** `get_data(market)`: the market's spot frame cut to the quote columns. An
      unknown market selects from an empty frame, which is a KeyError. */
  function GetData(market: string, spot: SpotSource -> Result<Frame>): (r: Result<Frame>)
    ensures r.Ok? ==> SourceFor(market).Some? && r.value.columns == QuoteColumns
    ensures SourceFor(market).None? ==> r == Err(KeyError(QuoteColumns[0]))
    ensures SourceFor(market).Some? && spot(SourceFor(market).value).Err? ==> r == spot(SourceFor(market).value)
    ensures SourceFor(market).Some? && spot(SourceFor(market).value).Ok? ==>
      r == SelectColumns(spot(SourceFor(market).value).value, QuoteColumns)
  {
    match SourceFor(market)
    case None => SelectColumns(Frame([], []), QuoteColumns)
    case Some(src) =>
      match spot(src)
      case Err(e) => Err(e)
      case Ok(df) => SelectColumns(df, QuoteColumns)
  }

  /** For a known market whose spot frame arrives, `get_data` succeeds exactly
      when the frame has every quote column; it then keeps each row's quote
      cells, row for row, and otherwise raises KeyError for a quote column the
      frame lacks. */
  lemma GetDataSelects(market: string, spot: SpotSource -> Result<Frame>)
    requires SourceFor(market).Some? && spot(SourceFor(market).value).Ok?
    ensures var df := spot(SourceFor(market).value).value;
      var r := GetData(market, spot);
      && (r.Ok? <==> forall c | c in QuoteColumns :: c in df.columns)
      && (r.Err? ==> r.error.KeyError? && r.error.key in QuoteColumns && r.error.key !in df.columns)
      && (r.Ok? ==> |r.value.rows| == |df.rows| &&
                    forall i | 0 <= i < |df.rows| :: r.value.rows[i] == Project(df.rows[i], QuoteColumns))
  {
  }

  /** `get_primary_key(market)`. */
  function PrimaryKey(market: string): (r: Result<string>)
    ensures r.Ok? <==> market == "HK" || market == "SH" || market == "SZ" || market == "BJ"
    ensures r == Ok("equity_quote_HK") <==> market == "HK"
    ensures r == Ok("equity_quote_SH") <==> market == "SH" || market == "SZ"
    ensures r == Ok("equity_quote_BJ") <==> market == "BJ"
    ensures r.Err? ==> r.error == ValueError("Unsupported market: " + market)
  {
    if market == "HK" then Ok("equity_quote_HK")
    else if market == "SH" || market == "SZ" then Ok("equity_quote_SH")
    else if market == "BJ" then Ok("equity_quote_BJ")
    else Err(ValueError("Unsupported market: " + market))
  }

  /** Shanghai and Shenzhen share one cache entry; every other pair of supported
      markets has distinct entries. */
  lemma PrimaryKeyShared(a: string, b: string)
    requires PrimaryKey(a).Ok? && PrimaryKey(b).Ok?
    ensures PrimaryKey(a) == PrimaryKey(b) <==> a == b || {a, b} == {"SH", "SZ"}
  {
    if {a, b} == {"SH", "SZ"} {
      assert a in {"SH", "SZ"} && b in {"SH", "SZ"};
    }
  }

  /** What one `load_cached_data` call returns and leaves behind. `fetched`
      says whether the upstream call was made. */
  datatype LoadOutcome = LoadOutcome(result: Result<Frame>, created: bool, table: map<string, QuoteRow>, fetched: bool)

  /** `load_cached_data(market, use_cache)` at clock reading `now`, from a
      database whose table exists when `created` and holds `table`. */
  function Load(created: bool, table: map<string, QuoteRow>, market: string, useCache: bool,
                now: real, spot: SpotSource -> Result<Frame>): LoadOutcome
  {
    if !useCache then LoadOutcome(GetData(market, spot), created, table, true)
    else
      match PrimaryKey(market)
      case Err(e) => LoadOutcome(Err(e), created, table, false)
      case Ok(key) =>
        if key in table && now - table[key].timestamp < CacheTtl then
          LoadOutcome(Ok(table[key].data), true, table, false)
        else
          match GetData(market, spot)
          case Err(e) => LoadOutcome(Err(e), true, table, true)
          case Ok(df) => LoadOutcome(Ok(df), true, table[key := QuoteRow(now, df)], true)
  }

  /** With the cache disabled the database is not touched and the frame comes
      straight from upstream. */
  lemma LoadBypass(created: bool, table: map<string, QuoteRow>, market: string, now: real, spot: SpotSource -> Result<Frame>)
    ensures var o := Load(created, table, market, false, now, spot);
      o.result == GetData(market, spot) && o.created == created && o.table == table
  {
  }

  /** An entry younger than the TTL is served without an upstream call and the
      table is left as it was. */
  lemma LoadFresh(created: bool, table: map<string, QuoteRow>, market: string, now: real, spot: SpotSource -> Result<Frame>)
    requires PrimaryKey(market).Ok?
    requires var key := PrimaryKey(market).value; key in table && now - table[key].timestamp < CacheTtl
    ensures var o := Load(created, table, market, true, now, spot);
      o.result == Ok(table[PrimaryKey(market).value].data) && !o.fetched && o.table == table && o.created
  {
  }

  /** A missing entry, or one at least the TTL old (an entry exactly an hour old
      included), is fetched again and stored under the current time. */
  lemma LoadStale(created: bool, table: map<string, QuoteRow>, market: string, now: real, spot: SpotSource -> Result<Frame>)
    requires PrimaryKey(market).Ok?
    requires var key := PrimaryKey(market).value; key !in table || now - table[key].timestamp >= CacheTtl
    ensures var o := Load(created, table, market, true, now, spot);
      && o.fetched && o.result == GetData(market, spot)
      && (o.result.Ok? ==> o.table == table[PrimaryKey(market).value := QuoteRow(now, o.result.value)])
      && (o.result.Err? ==> o.table == table)
  {
  }

  /** A load touches at most the entry of its own market. */
  lemma LoadOtherKeys(created: bool, table: map<string, QuoteRow>, market: string, useCache: bool, now: real,
                      spot: SpotSource -> Result<Frame>, k: string)
    requires PrimaryKey(market) != Ok(k)
    ensures var o := Load(created, table, market, useCache, now, spot);
      (k in o.table <==> k in table) && (k in table ==> o.table[k] == table[k])
  {
  }

  /** A second load within the TTL of a fetch, for a market sharing the entry
      (Shenzhen after Shanghai, say), returns the fetched frame without calling
      upstream and changes nothing. */
  lemma {:induction false} LoadTwice(created: bool, table: map<string, QuoteRow>, m1: string, m2: string,
                                     t1: real, t2: real, spot: SpotSource -> Result<Frame>)
    requires PrimaryKey(m1).Ok? && PrimaryKey(m2) == PrimaryKey(m1)
    requires t2 - t1 < CacheTtl
    requires var o1 := Load(created, table, m1, true, t1, spot); o1.fetched && o1.result.Ok?
    ensures var o1 := Load(created, table, m1, true, t1, spot);
      var o2 := Load(o1.created, o1.table, m2, true, t2, spot);
      o2.result == o1.result && !o2.fetched && o2.table == o1.table
  {
    var key := PrimaryKey(m1).value;
    var o1 := Load(created, table, m1, true, t1, spot);
    assert o1.table == table[key := QuoteRow(t1, o1.result.value)];
    LoadFresh(o1.created, o1.table, m2, t2, spot);
  }

  /** The SQLite database behind the quote cache. */
  class QuoteStore {
    /** Whether `equity_quote` has been created. */
    var created: bool
    /** Its rows by key. */
    var table: map<string, QuoteRow>

    constructor()
      ensures !created && table == map[]
    {
      created := false;
      table := map[];
    }

    /** `init_cache_table()`: CREATE TABLE IF NOT EXISTS. */
    method InitCacheTable()
      modifies this
      ensures created && table == old(table)
    {
      created := true;
    }

    /** `load_cached_data(market, use_cache)` at clock reading `now`. */
    method LoadCachedData(market: string, useCache: bool, now: real, spot: SpotSource -> Result<Frame>)
      returns (r: Result<Frame>)
      modifies this
      ensures var o := Load(old(created), old(table), market, useCache, now, spot);
        r == o.result && created == o.created && table == o.table
    {
      if !useCache {
        return GetData(market, spot);
      }
      var key := PrimaryKey(market);
      if key.Err? {
        return Err(key.error);
      }
      InitCacheTable();
      if key.value in table {
        var row := table[key.value];
        if now - row.timestamp < CacheTtl {
          return Ok(row.data);
        }
      }
      var df := GetData(market, spot);
      if df.Ok? {
        table := table[key.value := QuoteRow(now, df.value)];
      }
      return df;
    }
  }
}
