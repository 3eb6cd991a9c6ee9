/** company_news.py: news items for one or more symbols. The query accepts
    the symbol under several aliases and as a list; each symbol's items come
    from the Hong Kong news scraper or from the A-share news call and are
    gathered in symbol order.

    The symbol normaliser, the two news calls and Python's `str()` are
    parameters. */
module CompanyNews {

  import opened Common
  import opened Strings

  /** The keys `transform_query` order the symbol from when `symbol` is falsy,
      in the order it tries them. */
  const SymbolAliases: seq<string> := ["query", "symbols", "ticker", "tickers"]

  /** `params.get(key)`: None when absent. */
  function Get(params: map<string, Value>, key: string): Value
  {
    if key in params then params[key] else Null
  }

  /** `_symbol_mandatory`: a falsy symbol is refused. */
  function SymbolMandatory(v: Value): (r: Result<Value>)
    ensures r.Ok? <==> Truthy(v)
    ensures r.Ok? ==> r.value == v
    ensures r.Err? ==> r.error == ValueError("Required field missing -> symbol")
  {
    if Truthy(v) then Ok(v) else Err(ValueError("Required field missing -> symbol"))
  }

  /** The first of `aliases` whose value is truthy. */
  function FirstTruthyAlias(params: map<string, Value>, aliases: seq<string>): (r: Option<string>)
    ensures r.Some? ==> r.value in aliases && Truthy(Get(params, r.value))
    ensures r.Some? ==> exists k | 0 <= k < |aliases| ::
      aliases[k] == r.value && forall j | 0 <= j < k :: !Truthy(Get(params, aliases[j]))
    ensures r.None? <==> forall a | a in aliases :: !Truthy(Get(params, a))
  {
    if aliases == [] then None
    else if Truthy(Get(params, aliases[0])) then Some(aliases[0])
    else match FirstTruthyAlias(params, aliases[1..])
      case None => None
      case Some(a) =>
        assert exists k | 0 <= k < |aliases| :: aliases[k] == a && forall j | 0 <= j < k :: !Truthy(Get(params, aliases[j])) by {
          var k :| 0 <= k < |aliases[1..]| && aliases[1..][k] == a && forall j | 0 <= j < k :: !Truthy(Get(params, aliases[1..][j]));
          assert aliases[k + 1] == a;
        }
        Some(a)
  }

  /** The parameters after the alias loop: a truthy symbol is kept; otherwise
      the first truthy alias supplies it. */
  function Resolved(params: map<string, Value>): (r: map<string, Value>)
    ensures Truthy(Get(params, "symbol")) ==> r == params
    ensures !Truthy(Get(params, "symbol")) && FirstTruthyAlias(params, SymbolAliases).Some? ==>
      r == params["symbol" := params[FirstTruthyAlias(params, SymbolAliases).value]]
    ensures !Truthy(Get(params, "symbol")) && FirstTruthyAlias(params, SymbolAliases).None? ==> r == params
  {
    if Truthy(Get(params, "symbol")) then params
    else match FirstTruthyAlias(params, SymbolAliases)
      case None => params
      case Some(a) => params["symbol" := params[a]]
  }

  /** The text of each value, in order. */
  function Texts(vs: seq<Value>, show: Value -> string): (r: seq<string>)
    ensures |r| == |vs| && forall i | 0 <= i < |vs| :: r[i] == Text(vs[i], show)
  {
    seq(|vs|, i requires 0 <= i < |vs| => Text(vs[i], show))
  }

  /** `str(s) for s in symbol_val if s`: the texts of the truthy items of a
      list, in order. */
  function TruthyTexts(items: seq<Value>, show: Value -> string): (r: seq<string>)
    ensures r == Texts(Filter(items, v => Truthy(v)), show)
  {
    if items == [] then []
    else
      var rest := TruthyTexts(items[1..], show);
      if Truthy(items[0]) then
        assert Texts(Filter(items, v => Truthy(v)), show) == [Text(items[0], show)] + rest;
        [Text(items[0], show)] + rest
      else rest
  }

  /** A list symbol becomes the comma-join of the text of its truthy items. */
  function Joined(params: map<string, Value>, show: Value -> string): (r: map<string, Value>)
    ensures Get(params, "symbol").List? ==> r == params["symbol" := Str(Join(TruthyTexts(Get(params, "symbol").items, show), ","))]
    ensures !Get(params, "symbol").List? ==> r == params
  {
    var v := Get(params, "symbol");
    if v.List? then params["symbol" := Str(Join(TruthyTexts(v.items, show), ","))] else params
  }

  /** The query the parameters validate into, or the validation error. The
      validator runs only on a symbol that is given: without one, the field
      keeps the default of the standard query model. */
  function QueryOf(params: map<string, Value>, show: Value -> string): (r: Result<map<string, Value>>)
    ensures "symbol" !in params && FirstTruthyAlias(params, SymbolAliases).None? ==> r == Ok(params)
    ensures r.Ok? && "symbol" in r.value ==> Truthy(r.value["symbol"])
    ensures r.Err? ==> r.error == ValueError("Required field missing -> symbol")
  {
    var p := Joined(Resolved(params), show);
    if "symbol" !in p then Ok(p)
    else
      match SymbolMandatory(p["symbol"])
      case Err(e) => Err(e)
      case Ok(_) => Ok(p)
  }

  /** `transform_query`, with its `for alias in (...)` loop and `break`. */
  method TransformQuery(params: map<string, Value>, show: Value -> string) returns (r: Result<map<string, Value>>)
    ensures r == QueryOf(params, show)
  {
    var p := params;
    if !Truthy(Get(p, "symbol")) {
      var i := 0;
      while i < |SymbolAliases|
        invariant 0 <= i <= |SymbolAliases|
        invariant p == params
        invariant forall j | 0 <= j < i :: !Truthy(Get(params, SymbolAliases[j]))
      {
        var alias := SymbolAliases[i];
        if alias in p && Truthy(Get(p, alias)) {
          p := p["symbol" := p[alias]];
          break;
        }
        i := i + 1;
      }
    }
    var v := Get(p, "symbol");
    if v.List? {
      p := p["symbol" := Str(Join(TruthyTexts(v.items, show), ","))];
    }
    if "symbol" !in p {
      return Ok(p);
    }
    var checked := SymbolMandatory(p["symbol"]);
    if checked.Err? {
      return Err(checked.error);
    }
    r := Ok(p);
  }

  /** A truthy symbol is never replaced by an alias. */
  lemma TruthySymbolKept(params: map<string, Value>, show: Value -> string)
    requires Truthy(Get(params, "symbol")) && !Get(params, "symbol").List?
    ensures QueryOf(params, show) == Ok(params)
  {
  }

  /** A falsy symbol that is given, with no truthy alias, is refused. */
  lemma NoSymbolRefused(params: map<string, Value>, show: Value -> string)
    requires "symbol" in params && !Truthy(params["symbol"])
    requires forall a | a in SymbolAliases :: !Truthy(Get(params, a))
    ensures QueryOf(params, show) == Err(ValueError("Required field missing -> symbol"))
  {
  }

  /** No symbol and no truthy alias: the validator never runs and the
      parameters pass unchanged. */
  lemma AbsentSymbolPasses(params: map<string, Value>, show: Value -> string)
    requires "symbol" !in params
    requires forall a | a in SymbolAliases :: !Truthy(Get(params, a))
    ensures QueryOf(params, show) == Ok(params)
  {
  }

  /** A list of symbols free of commas comes back from the split that
      `aextract_data` applies to the joined text. */
  lemma {:induction false} JoinedListSplitsBack(params: map<string, Value>, show: Value -> string)
    requires Get(params, "symbol").List?
    requires var texts := TruthyTexts(Get(params, "symbol").items, show);
      |texts| >= 1 && forall i | 0 <= i < |texts| :: ',' !in texts[i]
    ensures var texts := TruthyTexts(Get(params, "symbol").items, show);
      Split(Joined(params, show)["symbol"].s, ',') == texts
  {
    SplitJoin(TruthyTexts(Get(params, "symbol").items, show), ',');
  }

  /** The link, title and publication-time columns of the A-share news
      frame. */
  const ALink: string := "新闻链接"
  const ATitle: string := "新闻标题"
  const ATime: string := "发布时间"

  /** One news item: three (key, column) pairs read in turn, `a` first, into a
      new record. A missing column is the KeyError of the first such column
      read. */
  function Item(d: Record, a: (string, string), b: (string, string), c: (string, string)): (r: Result<Record>)
    ensures r.Ok? <==> a.1 in d && b.1 in d && c.1 in d
    ensures a.1 !in d ==> r == Err(KeyError(a.1))
    ensures a.1 in d && b.1 !in d ==> r == Err(KeyError(b.1))
    ensures a.1 in d && b.1 in d && c.1 !in d ==> r == Err(KeyError(c.1))
    ensures r.Ok? ==> r.value.Keys == {a.0, b.0, c.0} && r.value[c.0] == d[c.1]
    ensures r.Ok? && b.0 != c.0 ==> r.value[b.0] == d[b.1]
    ensures r.Ok? && a.0 != b.0 && a.0 != c.0 ==> r.value[a.0] == d[a.1]
  {
    if a.1 !in d then Err(KeyError(a.1))
    else if b.1 !in d then Err(KeyError(b.1))
    else if c.1 !in d then Err(KeyError(c.1))
    else Ok(map[a.0 := d[a.1]][b.0 := d[b.1]][c.0 := d[c.1]])
  }

  /** The item of a Hong Kong record: its date, title and url, read in that
      order. */
  function HkItem(d: Record): (r: Result<Record>)
    ensures r.Ok? <==> "date" in d && "title" in d && "url" in d
    ensures r.Ok? ==> r.value == map["date" := d["date"], "title" := d["title"], "url" := d["url"]]
    ensures r.Err? ==> r.error == KeyError(if "date" !in d then "date" else if "title" !in d then "title" else "url")
  {
    Item(d, ("date", "date"), ("title", "title"), ("url", "url"))
  }

  /** The item of an A-share row: the link is read first and the publication
      time last, so a row lacking its link fails on the link. */
  function AItem(d: Record): (r: Result<Record>)
    ensures r.Ok? <==> ALink in d && ATitle in d && ATime in d
    ensures r.Ok? ==> r.value == map["date" := d[ATime], "title" := d[ATitle], "url" := d[ALink]]
    ensures r.Err? ==> r.error == KeyError(if ALink !in d then ALink else if ATitle !in d then ATitle else ATime)
  {
    Item(d, ("url", ALink), ("title", ATitle), ("date", ATime))
  }

  /** `get_one(symbol)`: the items it appends. Hong Kong symbols read the
      scraper's frame by their bare code, None giving nothing; every other
      symbol reads the A-share news frame by the symbol as given. */
  function NewsOf(symbol: string, normalize: string -> (string, string, string),
                  hkNews: string -> Result<Option<Frame>>, aNews: string -> Result<Frame>): (r: Result<seq<Record>>)
    ensures normalize(symbol).2 == "HK" ==>
      var hk := hkNews(normalize(symbol).0);
      && (hk.Err? ==> r == Err(hk.error))
      && (hk == Ok(None) ==> r == Ok([]))
      && (hk.Ok? && hk.value.Some? ==> r == MapAll(hk.value.value.rows, HkItem))
    ensures normalize(symbol).2 != "HK" ==>
      && (aNews(symbol).Err? ==> r == Err(aNews(symbol).error))
      && (aNews(symbol).Ok? ==> r == MapAll(aNews(symbol).value.rows, AItem))
    ensures r.Ok? ==> forall x | x in r.value :: x.Keys == {"date", "title", "url"}
  {
    var (symbolB, _, market) := normalize(symbol);
    if market == "HK" then
      match hkNews(symbolB)
      case Err(e) => Err(e)
      case Ok(None) => Ok([])
      case Ok(Some(df)) => MapAll(df.rows, HkItem)
    else
      match aNews(symbol)
      case Err(e) => Err(e)
      case Ok(df) => MapAll(df.rows, AItem)
  }

  /** `get_one` as a function of the symbol. */
  function GetOne(normalize: string -> (string, string, string),
                  hkNews: string -> Result<Option<Frame>>, aNews: string -> Result<Frame>): string -> Result<seq<Record>>
  {
    symbol => NewsOf(symbol, normalize, hkNews, aNews)
  }

  /** The items of the symbols in order; the first symbol that fails raises. */
  function Gather(symbols: seq<string>, news: string -> Result<seq<Record>>): (r: Result<seq<Record>>)
    ensures r.Ok? ==> forall i | 0 <= i < |symbols| :: news(symbols[i]).Ok?
    ensures (forall i | 0 <= i < |symbols| :: news(symbols[i]).Ok?) ==> r.Ok?
    decreases |symbols|
  {
    if symbols == [] then Ok([])
    else match Gather(symbols[..|symbols| - 1], news)
      case Err(e) => Err(e)
      case Ok(before) =>
        match news(symbols[|symbols| - 1])
        case Err(e) => Err(e)
        case Ok(items) => Ok(before + items)
  }

  /** Gathering two runs of symbols gives the first run's items followed by
      the second's, and the first error met. */
  lemma {:induction false} GatherAppend(a: seq<string>, b: seq<string>, news: string -> Result<seq<Record>>)
    ensures Gather(a + b, news) ==
      match Gather(a, news)
      case Err(e) => Err(e)
      case Ok(x) =>
        match Gather(b, news)
        case Err(e) => Err(e)
        case Ok(y) => Ok(x + y)
    decreases |b|
  {
    if b == [] {
      assert a + b == a;
      var x := Gather(a, news);
      if x.Ok? {
        assert x.value + [] == x.value;
      }
    } else {
      var b0 := b[..|b| - 1];
      assert (a + b)[..|a + b| - 1] == a + b0;
      assert (a + b)[|a + b| - 1] == b[|b| - 1];
      GatherAppend(a, b0, news);
      var x := Gather(a, news);
      var y := Gather(b0, news);
      if x.Ok? && y.Ok? {
        var z := news(b[|b| - 1]);
        if z.Ok? {
          assert x.value + (y.value + z.value) == (x.value + y.value) + z.value;
        }
      }
    }
  }

  /** Every gathered item has exactly the keys date, title and url. */
  lemma {:induction false} GatheredKeys(symbols: seq<string>, normalize: string -> (string, string, string),
                                        hkNews: string -> Result<Option<Frame>>, aNews: string -> Result<Frame>)
    ensures var r := Gather(symbols, GetOne(normalize, hkNews, aNews));
      r.Ok? ==> forall x | x in r.value :: x.Keys == {"date", "title", "url"}
    decreases |symbols|
  {
    if symbols != [] {
      GatheredKeys(symbols[..|symbols| - 1], normalize, hkNews, aNews);
    }
  }

  /** `aextract_data` on the validated symbol text: the symbols are its comma
      pieces, each gathered in turn into `results`; no items at all raise
      EmptyDataError. */
  method ExtractData(symbolText: string, normalize: string -> (string, string, string),
                     hkNews: string -> Result<Option<Frame>>, aNews: string -> Result<Frame>)
    returns (r: Result<seq<Record>>)
    ensures var all := Gather(Split(symbolText, ','), GetOne(normalize, hkNews, aNews));
      && (all.Err? ==> r == Err(all.error))
      && (all.Ok? && all.value == [] ==> r == Err(EmptyDataError("No data was returned for the given symbol(s)")))
      && (all.Ok? && all.value != [] ==> r == all)
  {
    var symbols := Split(symbolText, ',');
    var results: seq<Record> := [];
    var i := 0;
    while i < |symbols|
      invariant 0 <= i <= |symbols|
      invariant Gather(symbols[..i], GetOne(normalize, hkNews, aNews)) == Ok(results)
    {
      assert symbols[..i + 1][..i] == symbols[..i];
      var items := NewsOf(symbols[i], normalize, hkNews, aNews);
      if items.Err? {
        GatherAppend(symbols[..i + 1], symbols[i + 1..], GetOne(normalize, hkNews, aNews));
        assert symbols[..i + 1] + symbols[i + 1..] == symbols;
        return Err(items.error);
      }
      results := results + items.value;
      i := i + 1;
    }
    assert symbols[..i] == symbols;
    if results == [] {
      return Err(EmptyDataError("No data was returned for the given symbol(s)"));
    }
    r := Ok(results);
  }
}
