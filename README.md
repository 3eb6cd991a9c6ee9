# openbb_akshare in Dafny

A model of the logic in the AKShare data provider for the OpenBB Platform: its
caches, symbol rules, table transforms, small validators and dispatchers.
The provider turns OpenBB queries into calls on the `akshare` library and on
the `mysharelib` helpers, keeps some answers in local SQLite caches, and
reshapes the frames that come back into OpenBB's standard records. The model
states what each piece does and proves the properties it promises.

Values and frames. A pandas DataFrame is a `Frame`: column labels in order,
plus rows that are records mapping a label to a `Value`. `Value` covers None,
NaN, booleans, integers, floats as reals, text, dates, lists and dicts. A
Python exception is an `Error`, and every operation that can raise returns a
`Result` (module `Common`). Frame operations live in `Frames`: drop, rename,
assign, concatenate, and reading through an alias map. Python's substring,
`replace`, `split`/`join` and case rules live in `Strings`. The strict
`strptime`/`strftime` formats live in `Dates`.

Where state is updated in place, the model is imperative. The quote cache
(`FetchQuote.QuoteStore`) and the SQLite file behind the equity caches
(`SqlTable.Database`) are classes whose methods change their fields, and the
cache classes (`EquityCaching.EquityCache`, `EquityInfoCaching.EquityInfoCache`)
hold a connection field that `Connect`/`Close` set and reset. The loops that
change things as they go are methods with loop invariants, each proved
against a specification function:
- `update_or_insert`;
- `get_all`;
- the `transform_query` alias loop;
- the per-symbol `get_one` loops;
- the spot-metric loop;
- the symbol-rewrite loop over the records;
- the in-place `sort`.

The rest is functions, with lemmas relating them.

Upstream calls are parameters of the operation that makes them: akshare and
mysharelib fetchers, `normalize_symbol`, the blob cache's
`load_cached_data`, `json.dumps` and Python's `str()`. A failing upstream call
is an `Err` result. The clock is a number passed in.

Three pieces of code are shared between source files, and each is modelled
once:
- The exchange-suffix rewrite ("SH600000" becomes "600000.SS"), which appears
  in etf_holdings.py, fund_holdings.py and business_analysis.py, is
  `SymbolRewrite`.
- The pivot and the market/period dispatch of ak_income_statement.py,
  ak_balance_sheet.py and ak_cash_flow.py are `Statements`.
- The SQLite table behind equity_cache.py and equity_info_cache.py is
  `SqlTable`.

The model follows the code as written, also where it may look unintended:
- The quote cache's time to live is 3600 seconds, as `CACHE_TTL = 60*60`
  says; the comment beside it disagrees, and the code is followed.
- An entry exactly that old is a miss, because the comparison is strict.
- `stock_gdfx_top_10` asks the A-share source for "sh" followed by the code
  for SZ and BJ symbols too.
- The income-statement extraction always asks for "SH" followed by the code,
  whatever the market.

## Model

| member | source | states |
|---|---|---|
| FetchQuote.SourceFor | openbb_akshare/utils/fetch_quote.py:32-42 | HK uses the Hong Kong spot call, SH and SZ the A-share call, BJ the Beijing call, each if and only if; any other market has no call |
| FetchQuote.GetData | openbb_akshare/utils/fetch_quote.py:29-44 | a frame comes back only for a known market; it is exactly df[cols] of that market's spot frame for the ten quote columns; an unknown market is the KeyError of the first quote column (selecting from an empty frame); an upstream failure propagates |
| FetchQuote.GetDataSelects | openbb_akshare/utils/fetch_quote.py:29-44 | for a known market whose spot frame arrives: success if and only if every quote column is present, the rows then cut row for row to those columns, otherwise KeyError for an absent quote column |
| FetchQuote.PrimaryKey | openbb_akshare/utils/fetch_quote.py:46-54 | HK maps to equity_quote_HK, SH and SZ to equity_quote_SH, BJ to equity_quote_BJ, each if and only if; any other market is ValueError "Unsupported market: " and the market |
| FetchQuote.PrimaryKeyShared | openbb_akshare/utils/fetch_quote.py:46-54 | two supported markets share a cache entry if and only if they are equal or are SH and SZ |
| FetchQuote.LoadBypass | openbb_akshare/utils/fetch_quote.py:55-58 | with use_cache false the result is get_data(market), and the table and its existence are untouched |
| FetchQuote.LoadFresh | openbb_akshare/utils/fetch_quote.py:60-73 | an entry younger than CACHE_TTL is returned with no upstream call, and the table is unchanged |
| FetchQuote.LoadStale | openbb_akshare/utils/fetch_quote.py:63-88 | a missing entry, or one at least CACHE_TTL old (exactly 3600 s included), is fetched; a fetched frame replaces the entry under the time read before the fetch; a failed fetch leaves the table |
| FetchQuote.LoadOtherKeys | openbb_akshare/utils/fetch_quote.py:82-85 | a load changes no entry but its own market's key |
| FetchQuote.LoadTwice | openbb_akshare/utils/fetch_quote.py:66-73 | a second load within the TTL for a market sharing the key (SZ after SH) returns the fetched frame, with no upstream call and no change |
| FetchQuote.QuoteStore.InitCacheTable | openbb_akshare/utils/fetch_quote.py:17-27 | CREATE TABLE IF NOT EXISTS: the table exists afterwards and its rows are unchanged |
| FetchQuote.QuoteStore.LoadCachedData | openbb_akshare/utils/fetch_quote.py:55-88 | the returned frame and the new table are those of the load specification that LoadBypass/LoadFresh/LoadStale characterise |
| SqlTable.SchemaShape | openbb_akshare/utils/fetch_equity_info.py:5-30 | the equity_info schema has 24 columns, symbol first, currency among the rest |
| SqlTable.Stored | openbb_akshare/utils/equity_cache.py:94-100 | an inserted row has exactly the table's columns, the given cells, and NULL elsewhere |
| SqlTable.Without | openbb_akshare/utils/equity_cache.py:92 | DELETE WHERE symbol = ? keeps exactly the rows whose symbol is not SQL-equal to the value (NULL equals nothing) |
| SqlTable.Upsert | openbb_akshare/utils/equity_cache.py:84-101 | succeeds if and only if the frame is empty, or it has a symbol column and the table has every one of its columns; an empty frame changes nothing; a success keeps the table's columns and holds the rows after DELETE then INSERT for each frame row in turn; a frame without symbol is KeyError; a table without symbol fails the first DELETE with the OperationalError "no such column: symbol"; otherwise the OperationalError "table <name> has no column named <c>" for the first frame column the table lacks |
| SqlTable.UpsertLastWins | openbb_akshare/utils/equity_cache.py:88-101 | after the loop, a symbol in the frame has exactly one row, stored from its last frame row; any other symbol keeps exactly its rows |
| SqlTable.UpsertKeepsOthers | openbb_akshare/utils/equity_cache.py:89-100 | a row whose symbol matches no incoming row, NULL included, survives |
| SqlTable.UpsertRowsFrom | openbb_akshare/utils/equity_cache.py:89-100 | every row afterwards is an old row or stored from an incoming row |
| SqlTable.Connection.constructor | openbb_akshare/utils/equity_cache.py:58-59 | sqlite3.connect gives an open connection |
| SqlTable.Connection.Close | openbb_akshare/utils/equity_cache.py:63-64 | conn.close() leaves it closed |
| SqlTable.Database.constructor | openbb_akshare/utils/equity_cache.py:36-40 | the file as found on disk |
| SqlTable.Database.EnsureExists | openbb_akshare/utils/equity_cache.py:42-54 | only an absent file is created, with one empty table of the schema columns; an existing file keeps its tables |
| SqlTable.Database.ReplaceTable | openbb_akshare/utils/equity_cache.py:67-73 | to_sql with if_exists="replace": the table becomes the frame's columns and rows; other tables are unchanged |
| SqlTable.Database.ReadTable | openbb_akshare/utils/equity_cache.py:75-82 | SELECT * returns every row in order and changes nothing; a missing table is pandas' DatabaseError "Execution failed on sql 'SELECT * FROM <name>': no such table: <name>" |
| SqlTable.Database.UpsertTable | openbb_akshare/utils/equity_cache.py:84-101 | the DELETE-then-INSERT loop commits the Upsert table, or rolls back and reports the error: KeyError for a frame without symbol, "no such table: <name>" for a missing table, then the errors Upsert states |
| SqlTable.DeleteInsertEach | openbb_akshare/utils/equity_cache.py:89-100 | the loop over the frame rows, DELETE of the row's symbol then INSERT of the row, leaves the rows UpsertRows specifies |
| EquityCaching.EquityCache.constructor | openbb_akshare/utils/equity_cache.py:36-54 | the table is created with the schema only when the database file is absent; no connection is held |
| EquityCaching.EquityCache.Connect | openbb_akshare/utils/equity_cache.py:56-59 | a held connection is kept; without one a fresh open connection is made |
| EquityCaching.EquityCache.Close | openbb_akshare/utils/equity_cache.py:61-65 | a held connection is closed and dropped; without one, nothing happens |
| EquityCaching.EquityCache.WriteDataframe | openbb_akshare/utils/equity_cache.py:67-73 | the table becomes exactly the frame; the held connection is not used |
| EquityCaching.EquityCache.ReadDataframe | openbb_akshare/utils/equity_cache.py:75-82 | every row of the table, with nothing changed; a missing table is pandas' DatabaseError naming the query |
| EquityCaching.EquityCache.UpdateOrInsert | openbb_akshare/utils/equity_cache.py:84-101 | the table becomes the Upsert of the frame, or is unchanged with the error reported |
| EquityInfoCaching.EquityInfoCache.constructor | openbb_akshare/utils/equity_info_cache.py:8-46 | the fixed equity_info table is created only when the file is absent |
| EquityInfoCaching.EquityInfoCache.Connect | openbb_akshare/utils/equity_info_cache.py:48-51 | a held connection is kept; otherwise a fresh open one is made |
| EquityInfoCaching.EquityInfoCache.Close | openbb_akshare/utils/equity_info_cache.py:53-57 | a held connection is closed and dropped; otherwise a no-op |
| EquityInfoCaching.EquityInfoCache.WriteDataframe | openbb_akshare/utils/equity_info_cache.py:59-65 | equity_info becomes exactly the frame |
| EquityInfoCaching.EquityInfoCache.ReadDataframe | openbb_akshare/utils/equity_info_cache.py:67-74 | the whole table, unchanged; a missing table is pandas' DatabaseError naming the query |
| EquityInfoCaching.EquityInfoCache.UpdateOrInsert | openbb_akshare/utils/equity_info_cache.py:76-93 | the table becomes the Upsert of the frame (last row per symbol wins, other symbols untouched), or is unchanged on error |
| FetchEquityInfo.SerializeDictFields | openbb_akshare/utils/fetch_equity_info.py:32-33 | the same keys; a dict value becomes its JSON text, and every other value is unchanged |
| FetchEquityInfo.SerializeIdempotent | openbb_akshare/utils/fetch_equity_info.py:32-33 | serialising twice is serialising once |
| FetchEquityInfo.HkRow | openbb_akshare/utils/fetch_equity_info.py:59-80 | succeeds if and only if every one of the fifteen profile items is present; the row then has exactly the schema columns, the formatted symbol, currency HKD, each item copied into its own column and NaN in the rest; a missing item is KeyError |
| FetchEquityInfo.ARow | openbb_akshare/utils/fetch_equity_info.py:83-88 | succeeds if and only if every schema item is present; the row then has exactly the schema columns, the formatted symbol, each item as given and dicts as their JSON text; a missing item is KeyError |
| FetchEquityInfo.MissFrame | openbb_akshare/utils/fetch_equity_info.py:56-89 | HK asks for the bare code, every other market for "SH" and the bare code; an upstream error propagates; with the profile items in hand, the result is exactly the one-row frame of the schema columns holding the HK or A-share row built from them, or that row's KeyError; the row's symbol is the formatted symbol |
| FetchEquityInfo.SelectSymbol | openbb_akshare/utils/fetch_equity_info.py:52 | a frame with a symbol column gives exactly its rows whose symbol equals the formatted symbol, in order, over the same columns; without the column, KeyError |
| FetchEquityInfo.MissReadsBack | openbb_akshare/utils/fetch_equity_info.py:94-96 | after a successful miss, reading back gives exactly the one upserted row |
| FetchEquityInfo.FetchEquityInfo | openbb_akshare/utils/fetch_equity_info.py:35-96 | cached rows for the symbol are returned with no upstream call; on a miss the row is upserted and read back; any miss failure gives the empty frame with the schema columns and an unchanged table |
| AkEquitySearch.AShares | openbb_akshare/utils/ak_equity_search.py:19-24 | succeeds if and only if the listing has a code (or symbol) column, otherwise KeyError symbol; code is renamed to symbol, each row gains its exchange from the code, every other cell is kept; the row count is unchanged |
| AkEquitySearch.HkShares | openbb_akshare/utils/ak_equity_search.py:26-29 | exactly the columns symbol, name, exchange: 代码 as symbol, 名称 as name, HKEX as exchange; a missing column is KeyError |
| AkEquitySearch.SymbolsFrame | openbb_akshare/utils/ak_equity_search.py:16-31 | succeeds if and only if both listing calls and both parts succeed; the listing is then exactly the A-share part concatenated with the Hong Kong part; otherwise the first error in call order |
| AkEquitySearch.AShareRowKept | openbb_akshare/utils/ak_equity_search.py:20-31 | the i-th listing row is the i-th A-share: its code as symbol, its name and every other cell of the A-share listing, and its exchange |
| AkEquitySearch.HkRowKept | openbb_akshare/utils/ak_equity_search.py:26-31 | after the A-shares, the j-th row is the j-th Hong Kong row with exchange HKEX |
| AkEquitySearch.GetSymbols | openbb_akshare/utils/ak_equity_search.py:33-44 | a non-empty cached table is returned with nothing computed or written; otherwise the listing is built, written over the table, and returned, so the cache equals the result |
| AkKeyMetrics.SetRow | openbb_akshare/utils/ak_key_metrics.py:111-112 | df.loc[key] = v sets every row labelled key to v throughout, appends a row for a new key, keeps other rows, and refuses a frame without columns |
| AkKeyMetrics.GetMetric | openbb_akshare/utils/ak_key_metrics.py:90-94 | succeeds if and only if the frame has item and value columns; then the value of the first row whose item is the name, or None when no row has it |
| AkKeyMetrics.MetricsOf | openbb_akshare/utils/ak_key_metrics.py:97-108 | each metric name paired with its get_metric value, in order |
| AkKeyMetrics.MetricCell | openbb_akshare/utils/ak_key_metrics.py:112 | a metric row holds None exactly when the value is None, and the text of the value otherwise |
| AkKeyMetrics.ApplyMetrics | openbb_akshare/utils/ak_key_metrics.py:110-112 | the loop keeps the columns; a frame without columns is left as it is |
| AkKeyMetrics.ApplyMetricsSets | openbb_akshare/utils/ak_key_metrics.py:110-112 | on a frame with columns, each metric ends up as a row holding its cell |
| AkKeyMetrics.ApplyMetricsKeeps | openbb_akshare/utils/ak_key_metrics.py:110-112 | rows labelled by no metric are kept as they were |
| AkKeyMetrics.EnsureSymbolRow | openbb_akshare/utils/ak_key_metrics.py:118-120 | the result always has a 证券代码 row; it is added with the input symbol only when missing |
| AkKeyMetrics.GetKeyMetrics | openbb_akshare/utils/ak_key_metrics.py:64-132 | HK or A-share base frame; a falsy token adds no metrics; any spot failure keeps the base frame; the result always has the symbol row |
| AkKeyMetrics.FetchUnsupported | openbb_akshare/utils/ak_key_metrics.py:30-33 | a market outside SH/SZ/BJ/HK gives the empty frame with no cache call |
| AkKeyMetrics.FetchCalls | openbb_akshare/utils/ak_key_metrics.py:35-60 | one to three cache calls; the first uses the caller's flag and all later ones use use_cache false |
| AkKeyMetrics.FetchRetriesOnce | openbb_akshare/utils/ak_key_metrics.py:35-40 | NotImplementedError from the cached load causes exactly one reload without the cache, whose own error propagates |
| AkKeyMetrics.FetchOtherError | openbb_akshare/utils/ak_key_metrics.py:35-40 | any other error of the first load propagates after one call |
| AkKeyMetrics.FetchSymbolRow | openbb_akshare/utils/ak_key_metrics.py:53-62 | a frame with the 证券代码 row is returned as is; a frame without it causes one forced reload, returned unchecked |
| AkKeyMetrics.FetchNone | openbb_akshare/utils/ak_key_metrics.py:42-43 | None from the load becomes the empty frame |
| AkKeyMetrics.FetchKeyMetrics | openbb_akshare/utils/ak_key_metrics.py:11-62 | the result and the calls made are those of the fetch specification the lemmas above characterise |
| SymbolRewrite.RewriteUnmarked | openbb_akshare/models/etf_holdings.py:137-144 | a symbol with none of SH, SZ, OF, BJ is unchanged |
| SymbolRewrite.RewriteCoded | openbb_akshare/models/business_analysis.py:126-134 | a marker followed by a digit code becomes the code and the marker's suffix, e.g. SH688041 becomes 688041.SS |
| SymbolRewrite.FirstMarkerOnly | openbb_akshare/models/etf_holdings.py:137-144 | for any two markers where the first is tried earlier (SH, SZ, OF, BJ), only it is rewritten: marker1 + marker2 + code becomes marker2 + code + suffix of marker1 |
| SymbolRewrite.RewriteTwiceShenzhen | openbb_akshare/models/etf_holdings.py:139-140 | the rewrite is not idempotent: rewriting SZ+code twice gives code..SZ |
| SymbolRewrite.TrimSymbol | openbb_akshare/models/etf_holdings.py:101 | the result is a prefix of the symbol with no comma and no dot, cut at the first comma or dot |
| SymbolRewrite.TrimQuerySymbol | openbb_akshare/models/etf_holdings.py:98-104 | the trimmed symbol replaces the given one; a missing or non-text symbol is Exception "Please enter a valid symbol" |
| SymbolRewrite.ReplaceEmpty | openbb_akshare/models/etf_holdings.py:78-86 | the result is None or the value; it is None exactly for "", "0", "-", None and falsy values (0 among them) |
| SymbolRewrite.ReplaceEmptyIdempotent | openbb_akshare/models/etf_holdings.py:78-86 | applying replace_empty twice is applying it once |
| SymbolRewrite.RewriteRecord | openbb_akshare/models/etf_holdings.py:136-144 | succeeds if and only if the symbol is present and text; the record then keeps its keys and other cells, with the symbol rewritten |
| SymbolRewrite.RewriteRecordErrors | openbb_akshare/models/etf_holdings.py:137 | a missing symbol is KeyError("symbol"); a non-text symbol is the TypeError "argument of type '<type>' is not iterable" |
| SymbolRewrite.RewriteSymbols | openbb_akshare/models/etf_holdings.py:136-144 | in place: the records before the first failing one are rewritten, the rest untouched, and the failure is reported |
| EtfHoldings.QuarterLabel | openbb_akshare/models/etf_holdings.py:125 | the quarter followed by 季度, with None rendered as "None" |
| EtfHoldings.QuarterFilter | openbb_akshare/models/etf_holdings.py:125 | succeeds if and only if 季度 is present, the pattern compiles and every 季度 cell is text; the rows are then exactly those whose 季度 matches the pattern, in order; otherwise, in that order: KeyError, the AttributeError of the .str accessor when no cell is text, a list or a dict (unless all are None), the compile error, or the ValueError of an NA mask |
| EtfHoldings.NormalizePercent | openbb_akshare/models/etf_holdings.py:72-76 | a falsy weight becomes None and only a falsy one does; an int or true becomes its float, a float or NaN is kept; text becomes the number float() reads in it, or float()'s ValueError; a date, list or dict is float()'s TypeError; the result is None, NaN or a float |
| EtfHoldings.NormalizePercentText | openbb_akshare/models/etf_holdings.py:76 | non-zero decimal text and the number it spells normalise to the same float |
| EtfHoldings.NormalizePercentIntText | openbb_akshare/models/etf_holdings.py:76 | non-zero integer text normalises to the float of the integer int() reads in it |
| EtfHoldings.CheckFields | openbb_akshare/models/etf_holdings.py:72-86 | the validators on a record with its aliases resolved: as ValidateHolding states |
| EtfHoldings.ExtractData | openbb_akshare/models/etf_holdings.py:107-126 | an upstream failure is the generic exception naming the symbol; a drop or filter error propagates; otherwise exactly the upstream rows, minus 股票代码, 序号 and code, whose 季度 matches the quarter label, in order |
| EtfHoldings.ExtractKeepsQuarterRows | openbb_akshare/models/etf_holdings.py:124-126 | every upstream row of the quarter is returned, minus the three dropped columns |
| EtfHoldings.ValidateHolding | openbb_akshare/models/etf_holdings.py:57-86 | the aliases (lines 46-52) are resolved; succeeds if and only if weight is absent or normalize_percent accepts it, and value is absent or reads as a float; the weight's error is raised first, then the value's; weight becomes its normalised value (None when absent); value is read as a float before replace_empty sees it; replace_empty is applied to balance, name, symbol and the read value; the other fields are kept |
| EtfHoldings.CoerceFloat | openbb_akshare/models/etf_holdings.py:57-61 | the Optional[float] field's reading: None, NaN and floats kept, an int or bool becomes its float, decimal text its number; other text and dates, lists and dicts are refused as not a valid number |
| EtfHoldings.CoerceFloatAgreesWithNormalize | openbb_akshare/models/etf_holdings.py:57-76 | a truthy value is accepted as a holding's value exactly when it is accepted as its weight, and both read it as the same number |
| EtfHoldings.HoldingValueRead | openbb_akshare/models/etf_holdings.py:57-86 | decimal text for a value comes out as its nonzero number; the dash marker is refused before replace_empty could empty it |
| EtfHoldings.SymbolNotAliased | openbb_akshare/models/etf_holdings.py:46-52 | no alias touches the symbol |
| EtfHoldings.ValidatedSymbol | openbb_akshare/models/etf_holdings.py:78-86 | the symbol of a record that validates is replace_empty of the given one |
| EtfHoldings.TransformData | openbb_akshare/models/etf_holdings.py:129-145 | records are rewritten in place, then validated in order; the first record the rewrite fails on stops the loop and raises; otherwise the first record that fails validation raises its error, and all records validated is the result |
| EtfHoldings.HoldingSymbolRewritten | openbb_akshare/models/etf_holdings.py:136-145 | a holding with marker and code comes out as code and suffix, never None |
| FundHoldings.TransformQuery | openbb_akshare/models/fund_holdings.py:98-104 | the symbol is trimmed, then upper-cased by the base query model (openbb_akshare/standard_models/fund_holdings.py:19-23); other parameters are kept; a bad symbol is refused |
| FundHoldings.RequestYear | openbb_akshare/models/fund_holdings.py:114-118 | text is parsed as %Y-%m-%d and only its year is passed on; unparsable text or no date fails |
| FundHoldings.RequestYearIsLeadingDigits | openbb_akshare/models/fund_holdings.py:114-118 | for a four-digit year, the year passed is the first four characters of the date text |
| FundHoldings.ExtractData | openbb_akshare/models/fund_holdings.py:107-128 | succeeds if and only if the date gives a year, the portfolio arrives and holds the three identifier columns; any failure before the portfolio arrives is the exception naming the symbol; then the result is exactly the portfolio rows minus those columns, with no quarter filter, or the drop's KeyError |
| BusinessAnalysis.TransformQuery | openbb_akshare/models/business_analysis.py:94-97 | the symbol is the converted code ("" when absent), upper-cased, with no lower-case letter; other parameters are kept |
| BusinessAnalysis.NoneForNA | openbb_akshare/models/business_analysis.py:116 | a missing cell becomes None, except in a float64 column, where it stays NaN; others are unchanged; NaN is left only in a float64 column |
| BusinessAnalysis.CleanRow | openbb_akshare/models/business_analysis.py:110-116 | the record gets symbol = query symbol; a missing 分类类型 becomes 按行业分类, so the category is never missing; other cells go through NoneForNA with their column's dtype, so NaN is left only in float64 columns |
| BusinessAnalysis.ExtractData | openbb_akshare/models/business_analysis.py:100-117 | each upstream row is cleaned, in order, with the float64 columns of the upstream frame; an upstream error propagates; a missing category column is KeyError |
| BusinessAnalysis.TransformData | openbb_akshare/models/business_analysis.py:120-135 | symbols are rewritten in place, then records are read through the aliases (lines 31-43); the first failing record raises |
| BusinessAnalysis.ExtractedSymbolsRewritten | openbb_akshare/models/business_analysis.py:126-134 | for a query symbol such as SH688041, every extracted record's symbol is rewritten to 688041.SS |
| EtfSearch.GetEtfList | openbb_akshare/models/etf_search.py:57-71 | the primary listing, else the alternative; both failing is EmptyDataError |
| EtfSearch.ColumnPair | openbb_akshare/models/etf_search.py:83-94 | (代码, 名称) is preferred over (基金代码, 基金简称); none exactly when neither pair is present |
| EtfSearch.Selected | openbb_akshare/models/etf_search.py:96-106 | an empty or absent query keeps all rows; a query whose lower-cased pattern does not compile is EmptyDataError "Error filtering ETFs: …"; otherwise exactly the rows whose lower-cased code or name text matches the pattern, in order |
| EtfSearch.PlainQueryKeeps | openbb_akshare/models/etf_search.py:97-104 | for a pattern that matches as a plain substring, the rows kept are exactly those whose lower-cased code or name contains the lower-cased query, in order |
| EtfSearch.Limited | openbb_akshare/models/etf_search.py:109-110 | a positive limit keeps that many leading rows; None or a non-positive limit keeps all |
| EtfSearch.Entry | openbb_akshare/models/etf_search.py:116-124 | an output record has exactly the keys symbol and name, holding the code and the name |
| EtfSearch.UnexpectedColumns | openbb_akshare/models/etf_search.py:89-94 | a listing with neither pair is EmptyDataError |
| EtfSearch.Found | openbb_akshare/models/etf_search.py:96-124 | a filter error propagates; otherwise, with the selected rows cut to the limit, nothing left is EmptyDataError "No ETFs found…", and anything left becomes its symbol/name entries, in order |
| EtfSearch.ExtractData | openbb_akshare/models/etf_search.py:48-126 | an empty listing and a listing with neither column pair are EmptyDataError; otherwise the result is exactly Found over the listing's rows with the first pair present |
| EtfSearch.LimitIsPrefix | openbb_akshare/models/etf_search.py:108-110 | the limit is applied after filtering: a limited search is a prefix of the unlimited one |
| EtfSearch.EmptyQueryKeepsAll | openbb_akshare/models/etf_search.py:97 | an absent and an empty query agree, and with no limit the result is the entry of every row, in order |
| EtfSearch.TransformData | openbb_akshare/models/etf_search.py:129-133 | records validate when symbol and name are text, and are kept; otherwise ValueError |
| EquitySearch.ExtractData | openbb_akshare/models/equity_search.py:55-68 | a truthy limit keeps the first records (slicing semantics); a limit of 0 or None keeps all; the result is always a prefix |
| EquitySearch.Hit | openbb_akshare/models/equity_search.py:79 | query in name, or else query in symbol (a missing field read as ""): a name match keeps the record without reading the symbol; a failing test on the name raises; for text fields, a case-sensitive substring test on either |
| EquitySearch.NameHitShortCircuits | openbb_akshare/models/equity_search.py:79 | a name containing the query keeps the record whatever the symbol holds, even a value `in` would refuse |
| EquitySearch.Search | openbb_akshare/models/equity_search.py:76-82 | succeeds if and only if every record's test succeeds; then exactly the records the test keeps, in order; otherwise the error of the first record whose test raises |
| EquitySearch.TransformData | openbb_akshare/models/equity_search.py:70-84 | an empty or absent query returns every record; otherwise the search |
| EquitySearch.SearchIdempotent | openbb_akshare/models/equity_search.py:76-82 | searching the result again for the same query changes nothing |
| EquityScreener.GetAllKnownExchanges | openbb_akshare/models/equity_screener.py:84-92 | a successful get_all met only exchanges in MARKETS and keeps the rows it started with |
| EquityScreener.GetAllBypass | openbb_akshare/models/equity_screener.py:84-92 | with use_cache false, get_all leaves the quote cache as it was |
| EquityScreener.LoadExchange | openbb_akshare/models/equity_screener.py:86-90 | one pass of the loop: a failed load ends the run with its error and cache; a success leaves the rest of the run from the new cache with the frame concatenated |
| EquityScreener.GetAll | openbb_akshare/models/equity_screener.py:84-92 | the loop's result and quote cache are those of the exchange-by-exchange specification with Load as the k-th load: concatenation in EXCHANGES order, the first failing load's error, ValueError "Exchange … not supported" at the first unknown exchange |
| EquityScreener.Limit | openbb_akshare/models/equity_screener.py:100-101 | a non-None limit keeps the leading rows; the result is always a prefix |
| EquityScreener.ExtractData | openbb_akshare/models/equity_screener.py:74-103 | an exchange in MARKETS loads its market only; any other (None included) loads all; use_cache is forwarded; the result is limited |
| EquityScreener.TransformData | openbb_akshare/models/equity_screener.py:105-110 | each record is read through the aliases (lines 47-50): 代码 as symbol and 名称 as name |
| CompanyNews.SymbolMandatory | openbb_akshare/models/company_news.py:21-27 | a symbol is accepted if and only if it is truthy; otherwise ValueError "Required field missing -> symbol" |
| CompanyNews.FirstTruthyAlias | openbb_akshare/models/company_news.py:54-58 | the first alias in order whose value is truthy; none exactly when no alias is truthy |
| CompanyNews.Resolved | openbb_akshare/models/company_news.py:53-58 | a truthy symbol is kept; otherwise the first truthy alias supplies it |
| CompanyNews.TruthyTexts | openbb_akshare/models/company_news.py:63 | exactly the texts of the truthy items, in order |
| CompanyNews.Joined | openbb_akshare/models/company_news.py:60-63 | a list symbol becomes the comma-join of its truthy items' texts; nothing else changes |
| CompanyNews.TransformQuery | openbb_akshare/models/company_news.py:46-65 | the alias loop with break, then the join and the validator, give the query specification |
| CompanyNews.QueryOf | openbb_akshare/models/company_news.py:21-65 | no symbol and no truthy alias leaves the parameters unchanged; an accepted symbol is truthy; the only refusal is "Required field missing -> symbol" |
| CompanyNews.TruthySymbolKept | openbb_akshare/models/company_news.py:54 | a truthy non-list symbol is never replaced by an alias |
| CompanyNews.NoSymbolRefused | openbb_akshare/models/company_news.py:21-27 | a symbol that is given but falsy, with no truthy alias, is refused |
| CompanyNews.AbsentSymbolPasses | openbb_akshare/models/company_news.py:21-27 | with no symbol key and no truthy alias the validator does not run and the parameters pass unchanged |
| CompanyNews.JoinedListSplitsBack | openbb_akshare/models/company_news.py:60-81 | comma-free list items come back from the comma split in aextract_data |
| CompanyNews.Item | openbb_akshare/models/company_news.py:90-104 | reads three columns in the given order: success if and only if all are present, the KeyError of the first missing one otherwise; the item has exactly the three keys, holding the columns' values |
| CompanyNews.HkItem | openbb_akshare/models/company_news.py:90-95 | a Hong Kong item is exactly date, title and url copied; the KeyError names the first missing of date, title, url |
| CompanyNews.AItem | openbb_akshare/models/company_news.py:98-104 | an A-share item is url from 新闻链接, title from 新闻标题 and date from 发布时间; the KeyError names the first missing in that order |
| CompanyNews.NewsOf | openbb_akshare/models/company_news.py:82-104 | Hong Kong asks the scraper for the bare code: an error propagates, None gives no items, a frame gives the HK items of its rows (MapAll); other markets ask the A-share news for the symbol and give the A-share items of its rows; the first row whose item fails raises its KeyError; every item has exactly date, title and url |
| CompanyNews.Gather | openbb_akshare/models/company_news.py:106-108 | succeeds if and only if every symbol's news succeeds |
| CompanyNews.GatherAppend | openbb_akshare/models/company_news.py:106-108 | gathering two runs of symbols concatenates their items, with the first error met |
| CompanyNews.GatheredKeys | openbb_akshare/models/company_news.py:90-104 | every gathered item has exactly the keys date, title and url |
| CompanyNews.ExtractData | openbb_akshare/models/company_news.py:67-113 | the results of the comma-split symbols in order; a failure raises; no items at all is EmptyDataError |
| EquityProfile.Truncate | openbb_akshare/models/equity_profile.py:91 | int() of a float truncates toward zero |
| EquityProfile.Employees | openbb_akshare/models/equity_profile.py:84-91 | None, "" and NaN become 0; an int is kept, a float truncated, a bool is 0 or 1; other text is the integer int() reads in it, or int()'s ValueError naming the text; a date, a dict or an empty list is int()'s TypeError; a flat list of one element is 0 when that element is missing and int()'s TypeError otherwise; a flat list of two or more elements is numpy's "truth value ... is ambiguous" ValueError |
| EquityProfile.EmployeesCountText | openbb_akshare/models/equity_profile.py:84-91 | the decimal text str() gives for a whole number validates to that number |
| EquityProfile.DateFromMillis | openbb_akshare/models/equity_profile.py:93-111 | a falsy value is None; a number is the date of the millisecond timestamp, or the timestamp call's error; NaN is ValueError; text, a date, a list or a dict is the TypeError of dividing it |
| EquityProfile.ProfileOf | openbb_akshare/models/equity_profile.py:141-152 | a non-empty first row is found, an empty one is skipped; a fetch error or no rows is one message "Error getting data for <symbol>: <error>", with IndexError for no rows |
| EquityProfile.Collect | openbb_akshare/models/equity_profile.py:137-156 | results and messages gathered over the symbols in order |
| EquityProfile.CollectAccounts | openbb_akshare/models/equity_profile.py:141-156 | each symbol contributes one result, one message, or nothing |
| EquityProfile.CollectStep | openbb_akshare/models/equity_profile.py:154-156 | one more symbol adds its own contribution at the end |
| EquityProfile.Outcome | openbb_akshare/models/equity_profile.py:158-168 | no results and some messages is OpenBBError with the lines joined; neither is EmptyDataError; with results, the results and the messages warned |
| EquityProfile.ExtractData | openbb_akshare/models/equity_profile.py:124-168 | the per-symbol loop gives the outcome of collecting the comma-split symbols |
| EquityProfile.AllFailedRaises | openbb_akshare/models/equity_profile.py:158-159 | when every symbol fails, the error carries one line per symbol |
| EquityOwnership.TimeValidate | openbb_akshare/models/equity_ownership.py:24-33 | None is today; text is parsed as %Y-%m-%d; the date goes through most_recent_quarter; other text is ValueError |
| EquityOwnership.TextDateAgrees | openbb_akshare/models/equity_ownership.py:28-33 | a date as %Y-%m-%d text and as a date round to the same quarter |
| EquityOwnership.SortByFilingDate | openbb_akshare/models/equity_ownership.py:70 | the records arranged newest filing date first |
| EquityOwnership.InsertKeepsOrder | openbb_akshare/models/equity_ownership.py:70 | placing a record into a newest-first list keeps it newest-first |
| EquityOwnership.SortedNewestFirst | openbb_akshare/models/equity_ownership.py:70 | the sort's output has non-increasing filing dates |
| EquityOwnership.SortPermutes | openbb_akshare/models/equity_ownership.py:69-71 | the output is a permutation of the validated records |
| EquityOwnership.SortStable | openbb_akshare/models/equity_ownership.py:70 | records with equal filing dates keep their input order |
| EquityOwnership.InsertAt | openbb_akshare/models/equity_ownership.py:70 | one insertion step on the array: the record moves left past the records filed earlier |
| EquityOwnership.SortOwners | openbb_akshare/models/equity_ownership.py:70 | the in-place sort leaves the array equal to the stable newest-first order |
| Common.MapAll | openbb_akshare/models/equity_ownership.py:69 | a list comprehension of a call that may raise: succeeds if and only if every element does, giving the results in order; otherwise the error of the first failing element (also openbb_akshare/models/company_news.py:90-104 and openbb_akshare/models/etf_holdings.py:145) |
| EquityOwnership.TransformData | openbb_akshare/models/equity_ownership.py:64-71 | the validated records, sorted stably newest first |
| AkEquityOwnership.ResolveDate | openbb_akshare/utils/ak_equity_ownership.py:16-26 | text is tried as %Y%m%d, then as %Y-%m-%d; both failing is ValueError "Invalid date format…"; a date is used as given |
| AkEquityOwnership.Top10 | openbb_akshare/utils/ak_equity_ownership.py:13-34 | HK asks its source for the formatted symbol; SH, SZ and BJ ask the A-share source for "sh" and the code; both give the date as %Y%m%d; any other market is ValueError |
| AkEquityOwnership.DateFormsAgree | openbb_akshare/utils/ak_equity_ownership.py:16-32 | compact text, dashed text and a date value for the same day make the same request |
| AkEquityOwnership.CompactTextForwarded | openbb_akshare/utils/ak_equity_ownership.py:20-30 | accepted %Y%m%d text reaches the source exactly as given |
| Dates.ParseDashed | openbb_akshare/models/equity_ownership.py:31 | strptime with %Y-%m-%d accepts exactly a valid date written at full width |
| Dates.ParseCompact | openbb_akshare/utils/ak_equity_ownership.py:20 | strptime with %Y%m%d accepts exactly a valid date written at full width |
| Dates.ParseDateTime | openbb_akshare/models/balance_sheet.py:60 | strptime with %Y-%m-%d %H:%M:%S and .date(): succeeds if and only if the text has the format's shape, a real date and a second below 60; text after a match of the first 19 characters is "unconverted data remains: <rest>", and so is the second digit of a seconds field of 62 to 99; text of another shape is the "does not match format" ValueError; seconds 60 and 61 are "second must be in 0..59"; year 0 or a day past its month is ValueError |
| Dates.CompactRoundTrip | openbb_akshare/utils/ak_equity_ownership.py:20-30 | parsing the %Y%m%d text of a date gives the date back |
| Dates.CompactCanonical | openbb_akshare/utils/ak_equity_ownership.py:20-30 | accepted %Y%m%d text is the format of its own date |
| Dates.DashedRoundTrip | openbb_akshare/utils/ak_equity_ownership.py:24-30 | parsing the %Y-%m-%d text of a date gives the date back |
| Dates.DashedCanonical | openbb_akshare/models/fund_holdings.py:114-118 | accepted %Y-%m-%d text is the format of its own date |
| Dates.TrailingTextRefused | openbb_akshare/models/balance_sheet.py:60 | a report date at midnight followed by more text is "unconverted data remains" naming exactly that text |
| Dates.DateTimeOfDashed | openbb_akshare/models/balance_sheet.py:60 | a dashed date followed by a full-width time of day has the date-time format's shape, and its first ten characters parse back to the date |
| Dates.DateKeyOrder | openbb_akshare/models/equity_ownership.py:70 | the integer key orders valid dates as Python compares them |
| Strings.SplitJoin | openbb_akshare/models/company_news.py:63-81 | splitting a join of separator-free pieces gives the pieces |
| Strings.JoinSplit | openbb_akshare/models/company_news.py:63-81 | joining the pieces of a split with the separator restores the text |
| Strings.PyIn | openbb_akshare/models/equity_search.py:79 | Python's q in v: substring on text, element on a list, key on a dict; any other value is TypeError "argument of type '<type>' is not iterable" |
| Strings.ParseDecimalAgreesWithInt | openbb_akshare/models/etf_holdings.py:76 | text int() reads is read by float() as the same number |
| Strings.ParseIntText | openbb_akshare/models/equity_profile.py:91 | int() reads back the number from the text str() writes for it |
| Statements.TextBeforeIrreflexive | openbb_akshare/utils/ak_income_statement.py:24 | Python's text order is irreflexive |
| Statements.TextBeforeTransitive | openbb_akshare/utils/ak_income_statement.py:24 | and transitive |
| Statements.TextBeforeTotal | openbb_akshare/utils/ak_income_statement.py:24 | and total on distinct texts |
| Statements.Ranked | openbb_akshare/utils/ak_income_statement.py:24 | sorted(set, reverse=True): strictly descending, with exactly the given labels |
| Statements.Sorted | openbb_akshare/utils/ak_income_statement.py:21 | the pivot's item index: strictly ascending, with exactly the given labels |
| Statements.Entries | openbb_akshare/utils/ak_income_statement.py:18-21 | each sheet row as an entry; a non-text date or item is TypeError |
| Statements.Amount | openbb_akshare/utils/ak_income_statement.py:21 | the amount of the unique entry for the date and item; NaN when there is none |
| Statements.PivotRow | openbb_akshare/utils/ak_income_statement.py:21-31 | a report date's row: the date under period_ending, and each item's amount |
| Statements.Pivot | openbb_akshare/utils/ak_income_statement.py:18-31 | a missing sheet column is KeyError; an item named REPORT_DATE is reset_index's ValueError "cannot insert REPORT_DATE, already exists"; the result has period_ending first, then the items ascending, with rows strictly most recent first |
| Statements.PivotOkIff | openbb_akshare/utils/ak_income_statement.py:18-31 | pivot and reset_index succeed if and only if the three sheet columns are present, every date and item is text, no (date, item) pair repeats and no item is named REPORT_DATE; non-text labels are TypeError, a repeated pair the ValueError of pivot, and an item named REPORT_DATE the ValueError "cannot insert REPORT_DATE, already exists" |
| Statements.PivotRowPerDate | openbb_akshare/utils/ak_income_statement.py:21-31 | a report date has a row if and only if some sheet row carries it, and no two rows have the same date |
| Statements.PivotKeepsAmounts | openbb_akshare/utils/ak_income_statement.py:21-31 | every report date has a row holding each of its items' amounts |
| Statements.PivotInventsNothing | openbb_akshare/utils/ak_income_statement.py:21-31 | every row is a report date of the sheet and every column an item of the sheet |
| Statements.PivotFillsGaps | openbb_akshare/utils/ak_income_statement.py:21 | a (date, item) pair the sheet lacks holds NaN |
| Statements.PivotRefusesDuplicates | openbb_akshare/utils/ak_income_statement.py:21 | two sheet rows with the same date and item make pivot raise ValueError |
| Statements.HkStatement | openbb_akshare/utils/ak_income_statement.py:12-33 | the sheet of the formatted symbol, limit and period as given, pivoted; a sheet failure raises |
| Statements.ByPeriod | openbb_akshare/utils/ak_balance_sheet.py:46-51 | annual gives the yearly sheet, quarter the report sheet, anything else ValueError |
| Statements.Statement | openbb_akshare/utils/ak_cash_flow.py:35-51 | HK gives the pivoted sheet with limit and period unchecked; other markets ask for market and code, by period |
| BalanceSheet.DateValidate | openbb_akshare/models/balance_sheet.py:55-61 | text is parsed as %Y-%m-%d %H:%M:%S and cut to its date; non-text passes through; text the parse refuses raises the parse's ValueError, trailing text included |
| BalanceSheet.DateValidateIdempotent | openbb_akshare/models/balance_sheet.py:55-61 | a validated value validates to itself |
| BalanceSheet.MidnightValidates | openbb_akshare/models/balance_sheet.py:57-60 | a report date at midnight, as the sheets carry it, validates to that date |
| BalanceSheet.LeapSecondRefused | openbb_akshare/models/balance_sheet.py:57-60 | a report date at 23:59:60, which the format's pattern matches, is refused with "second must be in 0..59" |
| BalanceSheet.GetAkData | openbb_akshare/models/balance_sheet.py:106-117 | market and code; annual gives the yearly sheet, quarter the report sheet, others ValueError |
| BalanceSheet.GetData | openbb_akshare/models/balance_sheet.py:98-104 | use_cache goes through the balance_sheet blob cache; otherwise exactly get_ak_data |
| IncomeStatement.ReplaceZero | openbb_akshare/models/income_statement.py:86-93 | a dict keeps its keys, values equal to 0 become None, others are unchanged; a non-dict is returned as is |
| IncomeStatement.ReplaceZeroIdempotent | openbb_akshare/models/income_statement.py:88-93 | a second replace_zero changes nothing |
| IncomeStatement.ExtractData | openbb_akshare/models/income_statement.py:110-125 | always the yearly sheet of "SH" and the code, cut to exactly the ten columns; a missing one is KeyError |
| IncomeStatement.ZeroAmountMissing | openbb_akshare/models/income_statement.py:88-93 | validation reads a zero amount as missing |
| IncomeStatement.TransformData | openbb_akshare/models/income_statement.py:127-135 | symbol and cik are popped in place where present, without failing when absent; then each record is validated |

## Left out

- The blob cache of mysharelib, with its TTL policies, and the dividend-text parser are not part of this model. The blob cache's `load_cached_data` is a parameter of `BalanceSheet.GetData` and of `AkKeyMetrics.FetchKeyMetrics`.
- `normalize_symbol` is not part of this model. It is a parameter wherever it is called.
- Upstream calls are parameters, since only their results matter to the modelled code.
  - These may fail, so they return a `Result`: the akshare and mysharelib fetchers, `ak_fund_portfolio_hold_em`, `most_recent_quarter` and `safe_fromtimestamp`.
  - These are total functions: `convert_stock_code_format`, `get_exchange`, `json.dumps` and Python's `str()` of non-text values.
- Regular expressions are not modelled. The `str.contains` patterns of etf_search.py and etf_holdings.py go through a `compile` parameter, which gives either the compile error or the match test for the pattern.
- The EXCHANGES and MARKETS tables of the references module are parameters of `EquityScreener`.
- `AkEquitySearch.SymbolCache` stands for mysharelib's `TableCache`: a field read and overwritten whole, with none of its SQLite detail.
- The clock is an input. `FetchQuote` takes it as a number of seconds; `EquityScreener` takes one reading per load.
- `asyncio.gather` is modelled as a sequential loop over the symbols, in order. The news and profile results are therefore in symbol order.
- Logging, `print` and `warnings.warn` are left out. They are output only; `EquityProfile.Outcome` returns the messages that would be warned.
- Pandas extension-dtype coercion in ak_key_metrics.py is left out. It changes the representation of cells, not their values.
- Floating-point arithmetic is left out. Floats are reals, and epoch-millisecond conversion is the `safe_fromtimestamp` parameter.
- SQLite type affinity is left out. Stored cells keep the value given, and NaN and None compare as NULL.
- Pickle serialisation of the quote frames is identity.
- Pydantic validation beyond the validators the source defines is left out: type coercion of the standard model fields. `EtfSearch.TransformData` only checks that symbol and name are text.
- `transform_data` of company_news.py and the `transform_query` methods that only build the query model are identity and have no member.
- Dates.ParseDashed: does not accept the unpadded fields Python's `strptime` also accepts ("2024-1-5"). Such text is refused with ValueError, where Python would parse it; fixed-width fields keep the formats invertible.
- Dates.ParseCompact: does not accept unpadded fields either, and refuses them with ValueError.
- Dates.ParseDateTime: does not accept unpadded fields either, and refuses them with ValueError.
- Dates.ParseDateTime: the space of the format is read as exactly one space. `strptime` turns it into `\s+`, so two spaces or a tab between date and time also parse in Python, where the model refuses them.
- Dates.CompactRoundTrip: holds for years of four digits only, because `strftime("%Y")` does not pad years below 1000 on every platform.
- Dates.DashedRoundTrip: holds for years of four digits only, for the same reason.
- Strings `Lower`/`Upper` map ASCII letters only. Codes and names are ASCII or CJK, which have no case.
- EquityProfile.DateFromMillis: a NaN timestamp is refused with CPython's `datetime.fromtimestamp` ValueError without calling the `safe_fromtimestamp` parameter, because a real number cannot be NaN. The helper's own source is not part of this model.
- EquityProfile.Employees: a list holding a list is TypeError in the model. In Python, `pd.isna` builds a nested array whose size, not the list's length, decides between 0, ValueError and TypeError.
- EquityProfile.Employees: the empty list is TypeError, as with the numpy releases that read an empty array as false; numpy 2.2 and later raise ValueError on that truth test instead. A tuple is read as a list, where `pd.isna` of a tuple is false and `int()` raises TypeError.
- EquityProfile.Employees: text is read with Python's `int()` on a signed run of digits only, without the surrounding whitespace or digit underscores `int()` also accepts.
- Statements.Pivot: non-text report dates or item names are refused with TypeError, where pandas would order some mixed labels. The sheets carry text in both columns.
- Statements.Pivot: an item literally named "period_ending" would collide with the renamed date column. The contracts exclude that item. An item named "REPORT_DATE" is modelled: `reset_index` refuses it.
- `fetch_equity_info` passes the schema dict to `EquityCache` as `db_path` (openbb_akshare/utils/fetch_equity_info.py:50). The model takes the cache object instead of constructing one from that path.
- SymbolRewrite.RewriteRecord: a list or dict symbol is refused with TypeError. Python tests membership in it instead: it keeps the record when no marker is an element or key, and fails on `replace` when one is.
- EquityOwnership.TransformData: the filing date of a validated record is always a date. A record whose validation yields no filing date would make Python's sort raise.
- cash_flow.py's `date_validate` is the same code as `BalanceSheet.DateValidate` and is not modelled twice. The same holds for fund_holdings.py's `normalize_percent`, `replace_empty` and `transform_data`, modelled by `EtfHoldings.NormalizePercent`, `SymbolRewrite.ReplaceEmpty` and `EtfHoldings.TransformData`.
- EtfHoldings.NormalizePercent: text is read with `float()` on optionally signed decimal digits with at most one point. Text with an exponent, "inf" or "nan", surrounding whitespace or digit underscores is refused with ValueError, where `float()` reads it.
- EtfHoldings.ValidateHolding: `balance` is a `ForceInt` field, whose coercion is defined in openbb_core and is not part of this model; `replace_empty` sees the balance as given. The value's float reading is modelled by `EtfHoldings.CoerceFloat`.
- EtfHoldings.ValidateHolding: pydantic reports every failing field in one ValidationError; the model reports the weight's error, else the value's, as a ValueError carrying pydantic's message for it.
- EtfHoldings.CoerceFloat: text is read as `Strings.ParseDecimal` reads it. Text with an exponent, "inf" or "nan", surrounding whitespace or digit underscores is refused, where pydantic reads it.
- CompanyNews.NoSymbolRefused: holds only for a symbol key that is present. Without the key the validator does not run; the field then takes the default of the standard query model, which is not part of this model, and `aextract_data`'s `query.symbol.split(",")` on that default is not modelled.
- EtfHoldings.QuarterFilter: the `.str` accessor test looks at the cells only. The column is accepted when some cell is text, a list or a dict, or when every cell is None; pandas infers the column's type, which can decide otherwise for mixtures the model does not name, such as bytes.
- BusinessAnalysis.CleanRow: which upstream columns pandas holds as float64 is a parameter, not derived from the cells. In those columns a missing cell stays NaN, so the records are free of NaN only outside them.
- BusinessAnalysis.NoneForNA: a float64 column keeps NaN, because `where` cannot put None into it; the model takes the column's dtype as an argument.
