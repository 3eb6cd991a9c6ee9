/** equity_screener.py: the quotes of one exchange, or of every exchange, from
    the quote cache of `FetchQuote`, cut to a limit.

    The EXCHANGES list and the MARKETS table of the references module are
    parameters; the quote cache is the `QuoteStore` passed in, and `clock(k)`
    is the clock reading of its k-th load. */
module EquityScreener {

  import opened Common
  import opened Frames
  import opened FetchQuote

  /** The aliases of the data model: (field, upstream column). */
  const ScreenerAliases: seq<(string, string)> := [("symbol", "代码"), ("name", "名称")]

  /** The result of a run of loads and the quote cache it leaves. */
  datatype Screened = Screened(result: Result<Frame>, created: bool, table: map<string, QuoteRow>)

  /** A loader: the outcome of the k-th `load_cached_data` of a run, for a
      market, from the database state it meets. */
  type Loader = (bool, map<string, QuoteRow>, string, nat) -> LoadOutcome

  /** `load` is the loader of a run with these settings: its k-th call is
      `Load` at clock reading `clock(k)`. */
  ghost predicate IsLoader(load: Loader, useCache: bool, clock: nat -> real, spot: SpotSource -> Result<Frame>)
  {
    forall created, table, market, k {:trigger Load(created, table, market, useCache, clock(k), spot)} ::
      load(created, table, market, k) == Load(created, table, market, useCache, clock(k), spot)
  }

  /** The loader of a run with these settings. */
  function LoaderOf(useCache: bool, clock: nat -> real, spot: SpotSource -> Result<Frame>): (load: Loader)
    ensures IsLoader(load, useCache, clock, spot)
  {
    (created: bool, table: map<string, QuoteRow>, market: string, k: nat) => Load(created, table, market, useCache, clock(k), spot)
  }

  /** The `for exchange in EXCHANGES` loop of `get_all` from load number `k`
      on, with `acc` concatenated so far: an exchange missing from MARKETS
      raises ValueError, a failed load raises its error, and each frame is
      concatenated to the rows before it. */
  function GetAllFrom(exchanges: seq<string>, markets: map<string, string>, k: nat, acc: Frame,
                      created: bool, table: map<string, QuoteRow>, load: Loader): Screened
    decreases |exchanges|
  {
    if exchanges == [] then Screened(Ok(acc), created, table)
    else if exchanges[0] !in markets then Screened(Err(ValueError("Exchange " + exchanges[0] + " not supported")), created, table)
    else
      var o := load(created, table, markets[exchanges[0]], k);
      match o.result
      case Err(e) => Screened(Err(e), o.created, o.table)
      case Ok(df) => GetAllFrom(exchanges[1..], markets, k + 1, Concat(acc, df), o.created, o.table, load)
  }

  /** A successful `get_all` met only exchanges listed in MARKETS, and holds at
      least the rows it started with. */
  lemma {:induction false} GetAllKnownExchanges(exchanges: seq<string>, markets: map<string, string>, k: nat, acc: Frame,
                                                created: bool, table: map<string, QuoteRow>, load: Loader)
    ensures var s := GetAllFrom(exchanges, markets, k, acc, created, table, load);
      s.result.Ok? ==> (forall e | e in exchanges :: e in markets) && |s.result.value.rows| >= |acc.rows|
    decreases |exchanges|
  {
    if exchanges != [] && exchanges[0] in markets {
      var o := load(created, table, markets[exchanges[0]], k);
      if o.result.Ok? {
        GetAllKnownExchanges(exchanges[1..], markets, k + 1, Concat(acc, o.result.value), o.created, o.table, load);
        assert forall e | e in exchanges :: e == exchanges[0] || e in exchanges[1..];
      }
    }
  }

  /** With `use_cache` false, `get_all` leaves the quote cache as it found it. */
  lemma {:induction false} GetAllBypass(exchanges: seq<string>, markets: map<string, string>, k: nat, acc: Frame,
                                        created: bool, table: map<string, QuoteRow>,
                                        clock: nat -> real, spot: SpotSource -> Result<Frame>)
    ensures var s := GetAllFrom(exchanges, markets, k, acc, created, table, LoaderOf(false, clock, spot));
      s.created == created && s.table == table
    decreases |exchanges|
  {
    if exchanges != [] && exchanges[0] in markets {
      var o := Load(created, table, markets[exchanges[0]], false, clock(k), spot);
      LoadBypass(created, table, markets[exchanges[0]], clock(k), spot);
      if o.result.Ok? {
        GetAllBypass(exchanges[1..], markets, k + 1, Concat(acc, o.result.value), o.created, o.table, clock, spot);
      }
    }
  }

  /** One pass of the `get_all` loop: the load of `exchanges[0]`, whose outcome
      either ends the run or leaves the rest of it to go. */
  method LoadExchange(store: QuoteStore, exchanges: seq<string>, markets: map<string, string>, k: nat, acc: Frame,
                      useCache: bool, clock: nat -> real, spot: SpotSource -> Result<Frame>, ghost load: Loader)
    returns (df: Result<Frame>)
    requires exchanges != [] && exchanges[0] in markets
    requires IsLoader(load, useCache, clock, spot)
    modifies store
    ensures var s := GetAllFrom(exchanges, markets, k, acc, old(store.created), old(store.table), load);
      if df.Err? then s == Screened(df, store.created, store.table)
      else s == GetAllFrom(exchanges[1..], markets, k + 1, Concat(acc, df.value), store.created, store.table, load)
  {
    df := store.LoadCachedData(markets[exchanges[0]], useCache, clock(k), spot);
  }

  /** `get_all()`: `df1` grows by one concatenation per exchange. `load` is
      the loader of the run; it only names the loads the loop makes. */
  method GetAll(store: QuoteStore, exchanges: seq<string>, markets: map<string, string>, useCache: bool,
                clock: nat -> real, spot: SpotSource -> Result<Frame>, ghost load: Loader) returns (r: Result<Frame>)
    requires IsLoader(load, useCache, clock, spot)
    modifies store
    ensures var s := GetAllFrom(exchanges, markets, 0, Frame([], []), old(store.created), old(store.table), load);
      r == s.result && store.created == s.created && store.table == s.table
  {
    ghost var target := GetAllFrom(exchanges, markets, 0, Frame([], []), store.created, store.table, load);
    var df1 := Frame([], []);
    var i := 0;
    while i < |exchanges|
      invariant 0 <= i <= |exchanges|
      invariant GetAllFrom(exchanges[i..], markets, i, df1, store.created, store.table, load) == target
    {
      var exchange := exchanges[i];
      if exchange !in markets {
        return Err(ValueError("Exchange " + exchange + " not supported"));
      }
      var df2 := LoadExchange(store, exchanges[i..], markets, i, df1, useCache, clock, spot, load);
      if df2.Err? {
        return df2;
      }
      assert exchanges[i..][1..] == exchanges[i + 1..];
      df1 := Concat(df1, df2.value);
      i := i + 1;
    }
    return Ok(df1);
  }

  /** `df[:limit]` when a limit is given. */
  function Limit(rows: seq<Record>, limit: Option<int>): (r: seq<Record>)
    ensures limit.None? ==> r == rows
    ensures limit.Some? && limit.value >= 0 ==> |r| == if limit.value < |rows| then limit.value else |rows|
    ensures |r| <= |rows| && r == rows[..|r|]
  {
    if limit.Some? then Head(rows, limit.value) else rows
  }

  /** `aextract_data`: an exchange listed in MARKETS loads its market only;
      any other exchange, None included, loads every exchange. The frame is
      cut to the limit. */
  method ExtractData(store: QuoteStore, exchange: Option<string>, exchanges: seq<string>, markets: map<string, string>,
                     useCache: bool, limit: Option<int>, clock: nat -> real, spot: SpotSource -> Result<Frame>)
    returns (r: Result<seq<Record>>)
    modifies store
    ensures exchange.Some? && exchange.value in markets ==>
      var o := Load(old(store.created), old(store.table), markets[exchange.value], useCache, clock(0), spot);
      store.created == o.created && store.table == o.table &&
      r == (match o.result case Err(e) => Err(e) case Ok(df) => Ok(Limit(df.rows, limit)))
    ensures !(exchange.Some? && exchange.value in markets) ==>
      var s := GetAllFrom(exchanges, markets, 0, Frame([], []), old(store.created), old(store.table), LoaderOf(useCache, clock, spot));
      store.created == s.created && store.table == s.table &&
      r == (match s.result case Err(e) => Err(e) case Ok(df) => Ok(Limit(df.rows, limit)))
  {
    var all: Result<Frame>;
    if exchange.None? || exchange.value !in markets {
      all := GetAll(store, exchanges, markets, useCache, clock, spot, LoaderOf(useCache, clock, spot));
    } else {
      all := store.LoadCachedData(markets[exchange.value], useCache, clock(0), spot);
    }
    if all.Err? {
      return Err(all.error);
    }
    r := Ok(Limit(all.value.rows, limit));
  }

  /** `transform_data`: each record read through the aliases of the data
      model, 代码 as `symbol` and 名称 as `name`. */
  function TransformData(data: seq<Record>): (r: seq<Record>)
    ensures |r| == |data|
    ensures forall i | 0 <= i < |data| :: r[i] == Unalias(data[i], ScreenerAliases)
    ensures forall i | 0 <= i < |data| && "代码" in data[i] :: "symbol" in r[i] && r[i]["symbol"] == data[i]["代码"]
    ensures forall i | 0 <= i < |data| && "名称" in data[i] :: "name" in r[i] && r[i]["name"] == data[i]["名称"]
  {
    forall i | 0 <= i < |data|
      ensures var u := Unalias(data[i], ScreenerAliases);
        ("代码" in data[i] ==> "symbol" in u && u["symbol"] == data[i]["代码"]) &&
        ("名称" in data[i] ==> "name" in u && u["name"] == data[i]["名称"])
    {
      var once := RenameKey(data[i], "代码", "symbol");
      assert Unalias(data[i], ScreenerAliases) == Unalias(once, ScreenerAliases[1..]);
      assert ScreenerAliases[1..][1..] == [];
      assert Unalias(once, ScreenerAliases[1..]) == RenameKey(once, "名称", "name");
      assert "symbol" != "名称";
    }
    seq(|data|, i requires 0 <= i < |data| => Unalias(data[i], ScreenerAliases))
  }
}
