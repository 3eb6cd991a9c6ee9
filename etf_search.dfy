/** etf_search.py: ETFs whose code or name contains a query, case-insensitively,
    limited in number. The list comes from a primary akshare listing, or from
    an alternative one when the primary fails. The two listing calls are
    parameters; the listing is always fetched afresh. */
module EtfSearch {

  import opened Common
  import opened Strings
  import opened Frames

  /** `get_etf_list()`: the primary listing, else the alternative one; when
      both fail, EmptyDataError carrying the primary's message. */
  function GetEtfList(primary: Result<Frame>, alternative: Result<Frame>): (r: Result<Frame>)
    ensures primary.Ok? ==> r == primary
    ensures primary.Err? && alternative.Ok? ==> r == alternative
    ensures primary.Err? && alternative.Err? ==>
      r == Err(EmptyDataError("Failed to fetch ETF list from akshare: " + ErrorText(primary.error)))
  {
    if primary.Ok? then primary
    else if alternative.Ok? then alternative
    else Err(EmptyDataError("Failed to fetch ETF list from akshare: " + ErrorText(primary.error)))
  }

  /** The (code, name) columns of a listing: 代码/名称 are preferred over
      基金代码/基金简称. */
  function ColumnPair(columns: seq<string>): (r: Option<(string, string)>)
    ensures "代码" in columns && "名称" in columns ==> r == Some(("代码", "名称"))
    ensures !("代码" in columns && "名称" in columns) && "基金代码" in columns && "基金简称" in columns ==>
      r == Some(("基金代码", "基金简称"))
    ensures r.None? <==> !("代码" in columns && "名称" in columns) && !("基金代码" in columns && "基金简称" in columns)
    ensures r.Some? ==> r.value.0 in columns && r.value.1 in columns
  {
    if "代码" in columns && "名称" in columns then Some(("代码", "名称"))
    else if "基金代码" in columns && "基金简称" in columns then Some(("基金代码", "基金简称"))
    else None
  }

  /** Python's `repr` of a list of labels. */
  function LabelsRepr(labels: seq<string>): string
  {
    "[" + Join(seq(|labels|, i requires 0 <= i < |labels| => "'" + labels[i] + "'"), ", ") + "]"
  }

  /** The mask of the query filter for one row: the compiled lower-cased
      query finds a match in the lower-cased text of the code or of the name. */
  predicate Matches(row: Record, pair: (string, string), search: string -> bool, show: Value -> string)
  {
    search(Lower(Text(Cell(row, pair.0), show))) || search(Lower(Text(Cell(row, pair.1), show)))
  }

  /** The error a query that is not a valid regular expression raises. */
  function FilterError(e: Error): Error
  {
    EmptyDataError("Error filtering ETFs: " + ErrorText(e))
  }

  /** The rows the query keeps. An empty or absent query keeps them all;
      otherwise `.str.contains` compiles the lower-cased query as a regular
      expression, and a query that does not compile raises EmptyDataError. */
  function Selected(rows: seq<Record>, pair: (string, string), query: Option<string>,
                    compile: string -> Result<string -> bool>, show: Value -> string): (r: Result<seq<Record>>)
    ensures query.None? || query.value == "" ==> r == Ok(rows)
    ensures query.Some? && query.value != "" && compile(Lower(query.value)).Err? ==>
      r == Err(FilterError(compile(Lower(query.value)).error))
    ensures query.Some? && query.value != "" && compile(Lower(query.value)).Ok? ==>
      var search := compile(Lower(query.value)).value;
      r.Ok? && r.value == Filter(rows, x => Matches(x, pair, search, show))
  {
    if query.None? || query.value == "" then Ok(rows)
    else match compile(Lower(query.value))
      case Err(e) => Err(FilterError(e))
      case Ok(search) => Ok(Filter(rows, x => Matches(x, pair, search, show)))
  }

  /** For a query without regular-expression syntax, whose compiled pattern
      finds exactly its own text, the rows kept are those whose code or name
      contains the query, in order. */
  lemma PlainQueryKeeps(rows: seq<Record>, pair: (string, string), q: string,
                        compile: string -> Result<string -> bool>, show: Value -> string)
    requires q != ""
    requires compile(Lower(q)).Ok? && forall t :: compile(Lower(q)).value(t) == Contains(t, Lower(q))
    ensures var r := Selected(rows, pair, Some(q), compile, show);
      && r.Ok? && Subsequence(r.value, rows)
      && (forall x | x in r.value ::
            Contains(Lower(Text(Cell(x, pair.0), show)), Lower(q)) || Contains(Lower(Text(Cell(x, pair.1), show)), Lower(q)))
      && (forall x | x in rows &&
            (Contains(Lower(Text(Cell(x, pair.0), show)), Lower(q)) || Contains(Lower(Text(Cell(x, pair.1), show)), Lower(q))) ::
            x in r.value)
  {
  }

  /** The row count `head(limit)` keeps: a positive limit truncates, None or a
      non-positive one does not. */
  function Limited(rows: seq<Record>, limit: Option<int>): (r: seq<Record>)
    ensures limit.Some? && limit.value > 0 ==> |r| == if limit.value < |rows| then limit.value else |rows|
    ensures !(limit.Some? && limit.value > 0) ==> r == rows
    ensures |r| <= |rows| && r == rows[..|r|]
  {
    if limit.Some? && limit.value > 0 then Head(rows, limit.value) else rows
  }

  /** One output record: the code as `symbol` and the name as `name`. */
  function Entry(row: Record, pair: (string, string)): (r: Record)
    ensures r.Keys == {"symbol", "name"}
    ensures r["symbol"] == Cell(row, pair.0) && r["name"] == Cell(row, pair.1)
  {
    map["symbol" := Cell(row, pair.0), "name" := Cell(row, pair.1)]
  }

  const UnexpectedPrefix := "ETF list from akshare has unexpected columns. Expected '代码'/'名称' or '基金代码'/'基金简称', but got: "

  /** The error of a listing with neither column pair, naming its columns. */
  function UnexpectedColumns(columns: seq<string>): (e: Error)
    ensures e.EmptyDataError?
  {
    EmptyDataError(UnexpectedPrefix + LabelsRepr(columns))
  }

  const EmptyListError: Error := EmptyDataError("ETF list from akshare is empty.")

  const NoMatchError: Error := EmptyDataError("No ETFs found matching the search criteria.")

  /** The output records of `rows`, in order. */
  function Entries(rows: seq<Record>, pair: (string, string)): (r: seq<Record>)
    ensures |r| == |rows| && forall i | 0 <= i < |rows| :: r[i] == Entry(rows[i], pair)
  {
    seq(|rows|, i requires 0 <= i < |rows| => Entry(rows[i], pair))
  }

  /** The rows the query keeps, limited, as output records; none left raises
      EmptyDataError. */
  function Found(rows: seq<Record>, pair: (string, string), query: Option<string>, limit: Option<int>,
                 compile: string -> Result<string -> bool>, show: Value -> string): (r: Result<seq<Record>>)
    ensures Selected(rows, pair, query, compile, show).Err? ==> r == Err(Selected(rows, pair, query, compile, show).error)
    ensures Selected(rows, pair, query, compile, show).Ok? ==>
      var kept := Limited(Selected(rows, pair, query, compile, show).value, limit);
      && (kept == [] ==> r == Err(NoMatchError))
      && (kept != [] ==> r == Ok(Entries(kept, pair)))
    ensures r.Ok? && limit.Some? && limit.value > 0 ==> |r.value| <= limit.value
    ensures r.Ok? ==> forall x | x in r.value :: x.Keys == {"symbol", "name"}
    ensures r.Ok? ==> |r.value| > 0
    ensures r.Err? ==> r.error.EmptyDataError?
  {
    match Selected(rows, pair, query, compile, show)
    case Err(e) => Err(e)
    case Ok(sel) =>
      var kept := Limited(sel, limit);
      if kept == [] then Err(NoMatchError) else Ok(Entries(kept, pair))
  }

  /** `aextract_data` on a fetched listing: the empty listing and a listing
      without a known column pair raise EmptyDataError; the rows the query
      keeps are limited, in order, and an empty result raises EmptyDataError
      too. */
  function ExtractData(df: Frame, query: Option<string>, limit: Option<int>,
                       compile: string -> Result<string -> bool>, show: Value -> string): (r: Result<seq<Record>>)
    ensures IsEmptyFrame(df) ==> r == Err(EmptyListError)
    ensures !IsEmptyFrame(df) && ColumnPair(df.columns).None? ==> r == Err(UnexpectedColumns(df.columns))
    ensures r.Ok? ==> ColumnPair(df.columns).Some? && |r.value| > 0
    ensures r.Err? ==> r.error.EmptyDataError?
    ensures !IsEmptyFrame(df) && ColumnPair(df.columns).Some? ==>
      r == Found(df.rows, ColumnPair(df.columns).value, query, limit, compile, show)
  {
    if IsEmptyFrame(df) then Err(EmptyListError)
    else match ColumnPair(df.columns)
      case None =>
        Err(UnexpectedColumns(df.columns))
      case Some(pair) =>
        Found(df.rows, pair, query, limit, compile, show)
  }

  /** Filtering comes before limiting: a limited search gives the first rows of
      the unlimited one, as many as the limit allows. */
  lemma {:induction false} LimitIsPrefix(df: Frame, query: Option<string>, n: int,
                                         compile: string -> Result<string -> bool>, show: Value -> string)
    requires n > 0
    requires ExtractData(df, query, None, compile, show).Ok?
    ensures var all := ExtractData(df, query, None, compile, show).value;
      var some := ExtractData(df, query, Some(n), compile, show);
      some.Ok? && |some.value| == (if n < |all| then n else |all|) && some.value == all[..|some.value|]
  {
    var pair := ColumnPair(df.columns).value;
    var sel := Selected(df.rows, pair, query, compile, show).value;
    assert Limited(sel, None) == sel;
    var kept := Limited(sel, Some(n));
    assert kept != [];
  }

  /** An absent query and an empty one give the same result, and with no limit
      that is one entry per row of the listing, in order. */
  lemma EmptyQueryKeepsAll(df: Frame, compile: string -> Result<string -> bool>, show: Value -> string)
    requires !IsEmptyFrame(df) && ColumnPair(df.columns).Some?
    ensures ExtractData(df, None, None, compile, show) == ExtractData(df, Some(""), None, compile, show)
    ensures ExtractData(df, None, None, compile, show) == Ok(Entries(df.rows, ColumnPair(df.columns).value))
  {
  }

  /** `transform_data`: each record validated into symbol and name, both of
      which must be text. */
  function TransformData(data: seq<Record>): (r: Result<seq<Record>>)
    ensures r.Ok? <==> forall i | 0 <= i < |data| :: Cell(data[i], "symbol").Str? && Cell(data[i], "name").Str?
    ensures r.Ok? ==> |r.value| == |data| && forall i | 0 <= i < |data| ::
      r.value[i] == map["symbol" := data[i]["symbol"], "name" := data[i]["name"]]
    ensures r.Err? ==> r.error.ValueError?
  {
    if data == [] then Ok([])
    else if !(Cell(data[0], "symbol").Str? && Cell(data[0], "name").Str?) then Err(ValueError("validation error for AKShareEtfSearchData"))
    else match TransformData(data[1..])
      case Err(e) => Err(e)
      case Ok(rest) => Ok([map["symbol" := data[0]["symbol"], "name" := data[0]["name"]]] + rest)
  }
}
