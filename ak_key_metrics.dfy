/** ak_key_metrics.py: key financial metrics of one equity as a frame indexed
    by metric name, served through a blob cache that may have to be reloaded.

    The symbol normaliser, the company-information calls, the Xueqiu spot
    call, Python's `str()` and the blob cache's `load_cached_data` are
    parameters. */
module AkKeyMetrics {

  import opened Common
  import opened Frames

  /** The index key of the symbol row every result must carry. */
  const SymbolLabel: string := "证券代码"

  /** The spot metrics added when an API token is given, in order. */
  const MetricNames: seq<string> := [
    "市盈率(动)", "市盈率(TTM)", "市盈率(静)", "市净率", "流通值",
    "52周最低", "52周最高", "股息(TTM)", "股息率(TTM)", "发行日期"]

  /** A frame indexed by key: its columns, and its rows with their labels. */
  datatype Indexed = Indexed(columns: seq<string>, rows: seq<(string, Record)>)

  function Labels(f: Indexed): (r: seq<string>)
    ensures |r| == |f.rows| && forall i | 0 <= i < |r| :: r[i] == f.rows[i].0
  {
    seq(|f.rows|, i requires 0 <= i < |f.rows| => f.rows[i].0)
  }

  /** The row holding `v` in every column. */
  function Uniform(columns: seq<string>, v: Value): (r: Record)
    ensures r.Keys == set c | c in columns
    ensures forall c | c in r :: r[c] == v
  {
    map c | c in columns :: v
  }

  /** `df.loc[key] = v`: every row with the key becomes `v` throughout; a
      new key appends a row. A frame without columns refuses. */
  function SetRow(f: Indexed, key: string, v: Value): (r: Result<Indexed>)
    ensures r.Ok? <==> |f.columns| > 0
    ensures r.Err? ==> r.error.ValueError?
    ensures r.Ok? ==> r.value.columns == f.columns && key in Labels(r.value)
    ensures r.Ok? ==> forall i | 0 <= i < |r.value.rows| && r.value.rows[i].0 == key ::
      r.value.rows[i].1 == Uniform(f.columns, v)
    ensures r.Ok? ==> forall i | 0 <= i < |f.rows| && f.rows[i].0 != key ::
      i < |r.value.rows| && r.value.rows[i] == f.rows[i]
    ensures r.Ok? ==> forall i | 0 <= i < |r.value.rows| && r.value.rows[i].0 != key ::
      i < |f.rows| && r.value.rows[i] == f.rows[i]
    ensures r.Ok? && key in Labels(f) ==> |r.value.rows| == |f.rows|
    ensures r.Ok? && key !in Labels(f) ==> r.value.rows == f.rows + [(key, Uniform(f.columns, v))]
  {
    if |f.columns| == 0 then Err(ValueError("cannot set a frame with no defined columns"))
    else if key in Labels(f) then
      var g := Indexed(f.columns, seq(|f.rows|, i requires 0 <= i < |f.rows| =>
        if f.rows[i].0 == key then (key, Uniform(f.columns, v)) else f.rows[i]));
      assert Labels(g) == Labels(f);
      Ok(g)
    else
      var g := Indexed(f.columns, f.rows + [(key, Uniform(f.columns, v))]);
      assert Labels(g)[|f.rows|] == key;
      Ok(g)
  }

  /** `get_metric(df, name)`: the first `value` whose `item` is `name`, or
      None. A spot frame without those columns raises. */
  function GetMetric(spot: Frame, name: string): (r: Result<Value>)
    ensures r.Ok? <==> "item" in spot.columns && "value" in spot.columns
    ensures r.Ok? ==> forall i | 0 <= i < |spot.rows| && Cell(spot.rows[i], "item") == Str(name) &&
                        (forall j | 0 <= j < i :: Cell(spot.rows[j], "item") != Str(name)) ::
                        r.value == Cell(spot.rows[i], "value")
    ensures r.Ok? && (forall i | 0 <= i < |spot.rows| :: Cell(spot.rows[i], "item") != Str(name)) ==> r.value == Null
  {
    if "item" !in spot.columns then Err(KeyError("item"))
    else if "value" !in spot.columns then Err(KeyError("value"))
    else Ok(FirstValue(spot.rows, name))
  }

  /** The `value` of the first row whose `item` is `name`, or None. */
  function FirstValue(rows: seq<Record>, name: string): (v: Value)
    ensures forall i | 0 <= i < |rows| && Cell(rows[i], "item") == Str(name) &&
              (forall j | 0 <= j < i :: Cell(rows[j], "item") != Str(name)) ::
              v == Cell(rows[i], "value")
    ensures (forall i | 0 <= i < |rows| :: Cell(rows[i], "item") != Str(name)) ==> v == Null
  {
    if rows == [] then Null
    else if Cell(rows[0], "item") == Str(name) then Cell(rows[0], "value")
    else
      var v := FirstValue(rows[1..], name);
      assert forall i | 1 <= i < |rows| :: rows[i] == rows[1..][i - 1];
      v
  }

  /** The `metrics_to_add` dict: each metric name with its value. */
  function MetricsOf(spot: Frame, names: seq<string>): (r: Result<seq<(string, Value)>>)
    ensures r.Ok? <==> names == [] || ("item" in spot.columns && "value" in spot.columns)
    ensures r.Ok? ==> |r.value| == |names| && forall i | 0 <= i < |names| ::
      r.value[i] == (names[i], GetMetric(spot, names[i]).value)
  {
    if names == [] then Ok([])
    else
      match GetMetric(spot, names[0])
      case Err(e) => Err(e)
      case Ok(v) =>
        match MetricsOf(spot, names[1..])
        case Err(e) => Err(e)
        case Ok(rest) => Ok([(names[0], v)] + rest)
  }

  /** What a metric row holds: the text of the value, or None. */
  function MetricCell(v: Value, show: Value -> string): (c: Value)
    ensures v == Null <==> c == Null
    ensures v.Str? ==> c == v
  {
    if v == Null then Null else Str(Text(v, show))
  }

  /** The frame after the `df_base.loc[name] = ...` loop: a failed assignment
      stops the loop, keeping the rows added before it. */
  function ApplyMetrics(f: Indexed, ms: seq<(string, Value)>, show: Value -> string): (r: Indexed)
    ensures r.columns == f.columns
    ensures |f.columns| == 0 ==> r == f
    decreases |ms|
  {
    if ms == [] then f
    else
      match SetRow(f, ms[0].0, MetricCell(ms[0].1, show))
      case Err(_) => f
      case Ok(g) => ApplyMetrics(g, ms[1..], show)
  }

  /** On a frame with columns, every metric of the loop ends up as a row that
      holds its text, once the names are distinct; rows labelled otherwise are
      kept. */
  lemma {:induction false} ApplyMetricsSets(f: Indexed, ms: seq<(string, Value)>, show: Value -> string, k: int)
    requires |f.columns| > 0 && 0 <= k < |ms|
    requires forall i, j | 0 <= i < j < |ms| :: ms[i].0 != ms[j].0
    ensures ms[k].0 in Labels(ApplyMetrics(f, ms, show))
    ensures var r := ApplyMetrics(f, ms, show);
      forall i | 0 <= i < |r.rows| && r.rows[i].0 == ms[k].0 :: r.rows[i].1 == Uniform(f.columns, MetricCell(ms[k].1, show))
    decreases |ms|
  {
    var g := SetRow(f, ms[0].0, MetricCell(ms[0].1, show)).value;
    if k == 0 {
      ApplyMetricsKeeps(g, ms[1..], show, ms[0].0);
    } else {
      ApplyMetricsSets(g, ms[1..], show, k - 1);
    }
  }

  /** Rows labelled by no metric of the loop are left as they are. */
  lemma {:induction false} ApplyMetricsKeeps(f: Indexed, ms: seq<(string, Value)>, show: Value -> string, key: string)
    requires forall j | 0 <= j < |ms| :: ms[j].0 != key
    ensures var r := ApplyMetrics(f, ms, show);
      (key in Labels(f) ==> key in Labels(r)) &&
      forall i | 0 <= i < |r.rows| && r.rows[i].0 == key :: exists j | 0 <= j < |f.rows| :: f.rows[j] == r.rows[i]
    decreases |ms|
  {
    if ms != [] {
      var s := SetRow(f, ms[0].0, MetricCell(ms[0].1, show));
      if s.Ok? {
        var g := s.value;
        ApplyMetricsKeeps(g, ms[1..], show, key);
        var r := ApplyMetrics(f, ms, show);
        assert r == ApplyMetrics(g, ms[1..], show);
        if key in Labels(f) {
          var j :| 0 <= j < |f.rows| && f.rows[j].0 == key;
          assert g.rows[j] == f.rows[j];
        }
        forall i | 0 <= i < |r.rows| && r.rows[i].0 == key
          ensures exists j | 0 <= j < |f.rows| :: f.rows[j] == r.rows[i]
        {
          var j :| 0 <= j < |g.rows| && g.rows[j] == r.rows[i];
          assert j < |f.rows| && g.rows[j] == f.rows[j];
        }
      }
    }
  }

  /** The last step of `_get_key_metrics`: the symbol row is added when the
      frame lacks one. */
  function EnsureSymbolRow(f: Indexed, symbol: string): (r: Result<Indexed>)
    ensures r.Ok? ==> SymbolLabel in Labels(r.value)
    ensures SymbolLabel in Labels(f) ==> r == Ok(f)
    ensures SymbolLabel !in Labels(f) ==> r == SetRow(f, SymbolLabel, Str(symbol))
  {
    if SymbolLabel in Labels(f) then Ok(f) else SetRow(f, SymbolLabel, Str(symbol))
  }

  /** `_get_key_metrics(symbol, period, api_key)`. `apiKey` is the token, Null
      for None. The base frame comes from the Hong Kong or the A-share
      information call; with a truthy token the spot metrics are added, any
      failure there being swallowed; the symbol row is added last. */
  method GetKeyMetrics(symbol: string, apiKey: Value,
                       normalize: string -> (string, string, string),
                       hkInfo: string -> Result<Indexed>, aInfo: string -> Result<Indexed>,
                       spot: string -> Result<Frame>, show: Value -> string) returns (r: Result<Indexed>)
    ensures var (symbolB, symbolF, market) := normalize(symbol);
      var base := if market == "HK" then hkInfo(symbolF) else aInfo(symbolF);
      && (base.Err? ==> r == Err(base.error))
      && (base.Ok? && !Truthy(apiKey) ==> r == EnsureSymbolRow(base.value, symbol))
      && (base.Ok? && Truthy(apiKey) ==>
            var withMetrics :=
              match spot(market + symbolB)
              case Err(_) => base.value
              case Ok(s) =>
                match MetricsOf(s, MetricNames)
                case Err(_) => base.value
                case Ok(ms) => ApplyMetrics(base.value, ms, show);
            r == EnsureSymbolRow(withMetrics, symbol))
    ensures r.Ok? ==> SymbolLabel in Labels(r.value)
  {
    var (symbolB, symbolF, market) := normalize(symbol);
    var base := if market == "HK" then hkInfo(symbolF) else aInfo(symbolF);
    if base.Err? {
      return Err(base.error);
    }
    var df := base.value;
    if Truthy(apiKey) {
      var s := spot(market + symbolB);
      if s.Ok? {
        var metrics := MetricsOf(s.value, MetricNames);
        if metrics.Ok? {
          var ms := metrics.value;
          var i := 0;
          while i < |ms|
            invariant 0 <= i <= |ms|
            invariant ApplyMetrics(df, ms[i..], show) == ApplyMetrics(base.value, ms, show)
          {
            var set_ := SetRow(df, ms[i].0, MetricCell(ms[i].1, show));
            if set_.Err? {
              break;
            }
            assert ms[i..][1..] == ms[i + 1..];
            df := set_.value;
            i := i + 1;
          }
          assert ApplyMetrics(df, ms[i..], show) == df;
        }
      }
    }
    r := EnsureSymbolRow(df, symbol);
  }

  /** What one `load_cached_data` call of the blob cache gives back. */
  datatype Loaded = LoadedFrame(frame: Indexed) | LoadedNone | Raised(error: Error)

  /** The empty frame `pd.DataFrame()`. */
  const EmptyIndexed: Indexed := Indexed([], [])

  predicate Supported(market: string)
  {
    market == "SH" || market == "SZ" || market == "BJ" || market == "HK"
  }

  /** What `fetch_key_metrics` returns, with the `use_cache` flags of the blob
      cache calls it makes, in order. `load(n, flag)` is the answer to the n-th
      call. A result of None (`Ok(None)`) comes only from the forced reload. */
  function FetchOutcome(market: string, useCache: bool, load: (nat, bool) -> Loaded): (Result<Option<Indexed>>, seq<bool>)
  {
    if !Supported(market) then (Ok(Some(EmptyIndexed)), [])
    else
      var first := load(0, useCache);
      var retried := first == Raised(NotImplementedError);
      var data := if retried then load(1, false) else first;
      var calls := if retried then [useCache, false] else [useCache];
      match data
      case Raised(e) => (Err(e), calls)
      case LoadedNone => (Ok(Some(EmptyIndexed)), calls)
      case LoadedFrame(f) =>
        if SymbolLabel in Labels(f) then (Ok(Some(f)), calls)
        else
          var again := load(|calls|, false);
          match again
          case Raised(e) => (Err(e), calls + [false])
          case LoadedNone => (Ok(None), calls + [false])
          case LoadedFrame(g) => (Ok(Some(g)), calls + [false])
  }

  /** An unsupported market gives the empty frame and never reaches the cache. */
  lemma FetchUnsupported(market: string, useCache: bool, load: (nat, bool) -> Loaded)
    requires !Supported(market)
    ensures FetchOutcome(market, useCache, load) == (Ok(Some(EmptyIndexed)), [])
  {
  }

  /** The cache is asked at most three times: once with the caller's flag, then
      only with `use_cache` false. */
  lemma FetchCalls(market: string, useCache: bool, load: (nat, bool) -> Loaded)
    requires Supported(market)
    ensures var calls := FetchOutcome(market, useCache, load).1;
      1 <= |calls| <= 3 && calls[0] == useCache && forall i | 1 <= i < |calls| :: !calls[i]
  {
  }

  /** A NotImplementedError from the cached load is answered by exactly one
      reload without the cache; the reload's own error is not retried. */
  lemma FetchRetriesOnce(market: string, useCache: bool, load: (nat, bool) -> Loaded)
    requires Supported(market) && load(0, useCache) == Raised(NotImplementedError)
    ensures var (r, calls) := FetchOutcome(market, useCache, load);
      |calls| >= 2 && calls[1] == false &&
      (load(1, false).Raised? ==> r == Err(load(1, false).error) && |calls| == 2)
  {
  }

  /** Any other error of the first load propagates. */
  lemma FetchOtherError(market: string, useCache: bool, load: (nat, bool) -> Loaded)
    requires Supported(market) && load(0, useCache).Raised? && load(0, useCache) != Raised(NotImplementedError)
    ensures FetchOutcome(market, useCache, load) == (Err(load(0, useCache).error), [useCache])
  {
  }

  /** A loaded frame with the symbol row is returned as it is; one without it
      triggers exactly one forced reload, whose answer is returned unchecked. */
  lemma FetchSymbolRow(market: string, useCache: bool, load: (nat, bool) -> Loaded)
    requires Supported(market) && load(0, useCache).LoadedFrame?
    ensures var (r, calls) := FetchOutcome(market, useCache, load);
      var f := load(0, useCache).frame;
      && (SymbolLabel in Labels(f) ==> r == Ok(Some(f)) && calls == [useCache])
      && (SymbolLabel !in Labels(f) ==>
            calls == [useCache, false] &&
            r == (match load(1, false)
                  case Raised(e) => Err(e)
                  case LoadedNone => Ok(None)
                  case LoadedFrame(g) => Ok(Some(g))))
  {
  }

  /** None from the (possibly retried) load becomes the empty frame. */
  lemma FetchNone(market: string, useCache: bool, load: (nat, bool) -> Loaded)
    requires Supported(market) && load(0, useCache) == LoadedNone
    ensures FetchOutcome(market, useCache, load) == (Ok(Some(EmptyIndexed)), [useCache])
  {
  }

  /** `fetch_key_metrics(symbol, period, use_cache, api_key)`: `data` is
      reassigned across the retry and the forced reload. */
  method FetchKeyMetrics(symbol: string, useCache: bool, normalize: string -> (string, string, string),
                         load: (nat, bool) -> Loaded) returns (r: Result<Option<Indexed>>, calls: seq<bool>)
    ensures (r, calls) == FetchOutcome(normalize(symbol).2, useCache, load)
  {
    var (_, _, market) := normalize(symbol);
    calls := [];
    if !(market in ["SH", "SZ", "BJ", "HK"]) {
      return Ok(Some(EmptyIndexed)), calls;
    }
    var data := load(0, useCache);
    calls := [useCache];
    if data == Raised(NotImplementedError) {
      data := load(1, false);
      calls := [useCache, false];
    }
    if data.Raised? {
      return Err(data.error), calls;
    }
    if data.LoadedNone? {
      return Ok(Some(EmptyIndexed)), calls;
    }
    if SymbolLabel !in Labels(data.frame) {
      var again := load(|calls|, false);
      calls := calls + [false];
      match again
      case Raised(e) => return Err(e), calls;
      case LoadedNone => return Ok(None), calls;
      case LoadedFrame(f) => return Ok(Some(f)), calls;
    }
    r := Ok(Some(data.frame));
  }
}
