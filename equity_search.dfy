/** equity_search.py: the symbol list of `AkEquitySearch.GetSymbols`, cut to a
    limit, then filtered by a case-sensitive query on name or symbol. */
module EquitySearch {

  import opened Common
  import opened Strings

  /** The limit a query has when none is given. */
  const DefaultLimit: int := 10000

  /** `aextract_data` on the symbol list: a truthy limit keeps that many
      leading records (Python slicing, so a negative limit drops trailing
      ones); a limit of 0 or None keeps them all. A failed listing raises. */
  function ExtractData(symbols: Result<Frame>, limit: Option<int>): (r: Result<seq<Record>>)
    ensures symbols.Err? ==> r == Err(symbols.error)
    ensures symbols.Ok? ==> r.Ok?
    ensures r.Ok? && (limit.None? || limit.value == 0) ==> r.value == symbols.value.rows
    ensures r.Ok? && limit.Some? && limit.value > 0 ==>
      |r.value| == (if limit.value < |symbols.value.rows| then limit.value else |symbols.value.rows|)
    ensures r.Ok? ==> |r.value| <= |symbols.value.rows| && r.value == symbols.value.rows[..|r.value|]
  {
    match symbols
    case Err(e) => Err(e)
    case Ok(df) => if limit.Some? && limit.value != 0 then Ok(Head(df.rows, limit.value)) else Ok(df.rows)
  }

  /** `d.get(key, '')`. */
  function FieldOr(d: Record, key: string): Value
  {
    if key in d then d[key] else Str("")
  }

  /** `query in d.get('name', '') or query in d.get('symbol', '')`, which
      short-circuits: the name is tested first, a name that is not iterable
      raises, a name that contains the query keeps the record without looking
      at the symbol, and only then is the symbol tested. */
  function Hit(d: Record, query: string): (r: Result<bool>)
    ensures PyIn(query, FieldOr(d, "name")).Err? ==> r == PyIn(query, FieldOr(d, "name"))
    ensures PyIn(query, FieldOr(d, "name")) == Ok(true) ==> r == Ok(true)
    ensures PyIn(query, FieldOr(d, "name")) == Ok(false) ==> r == PyIn(query, FieldOr(d, "symbol"))
    ensures FieldOr(d, "name").Str? && FieldOr(d, "symbol").Str? ==>
      r == Ok(Contains(FieldOr(d, "name").s, query) || Contains(FieldOr(d, "symbol").s, query))
  {
    match PyIn(query, FieldOr(d, "name"))
    case Err(e) => Err(e)
    case Ok(inName) => if inName then Ok(true) else PyIn(query, FieldOr(d, "symbol"))
  }

  /** A name containing the query keeps the record whatever its symbol holds,
      even a symbol that is not iterable. */
  lemma NameHitShortCircuits(d: Record, query: string)
    requires FieldOr(d, "name").Str? && Contains(FieldOr(d, "name").s, query)
    ensures Hit(d, query) == Ok(true)
  {
  }

  /** The list comprehension of `transform_data`, record by record: the first
      record whose test raises stops it with that error; otherwise the records
      that pass, in order. */
  function Search(data: seq<Record>, query: string): (r: Result<seq<Record>>)
    ensures r.Ok? <==> forall i | 0 <= i < |data| :: Hit(data[i], query).Ok?
    ensures r.Err? ==> exists k | 0 <= k < |data| ::
      && Hit(data[k], query).Err? && r.error == Hit(data[k], query).error
      && forall j | 0 <= j < k :: Hit(data[j], query).Ok?
    ensures r.Ok? ==> r.value == Filter(data, x => Hit(x, query) == Ok(true))
  {
    if data == [] then Ok([])
    else match Hit(data[0], query)
      case Err(e) => Err(e)
      case Ok(keep) =>
        match Search(data[1..], query)
        case Err(e) =>
          var k :| 0 <= k < |data[1..]| && Hit(data[1..][k], query).Err? && e == Hit(data[1..][k], query).error
                   && forall j | 0 <= j < k :: Hit(data[1..][j], query).Ok?;
          assert Hit(data[k + 1], query).Err? && forall j | 0 <= j < k + 1 :: Hit(data[j], query).Ok? by {
            forall j | 1 <= j < k + 1 ensures Hit(data[j], query).Ok? { assert data[j] == data[1..][j - 1]; }
          }
          Err(e)
        case Ok(rest) =>
          assert forall i | 0 <= i < |data| :: Hit(data[i], query).Ok? by {
            forall i | 1 <= i < |data| ensures Hit(data[i], query).Ok? { assert data[i] == data[1..][i - 1]; }
          }
          Ok(if keep then [data[0]] + rest else rest)
  }

  /** `transform_data`: a truthy query keeps the records that contain it; an
      empty or absent query keeps every record. */
  function TransformData(query: Option<string>, data: seq<Record>): (r: Result<seq<Record>>)
    ensures query.None? || query.value == "" ==> r == Ok(data)
    ensures query.Some? && query.value != "" ==> r == Search(data, query.value)
  {
    if query.Some? && query.value != "" then Search(data, query.value) else Ok(data)
  }

  /** Searching twice for the same query finds nothing new. */
  lemma {:induction false} SearchIdempotent(data: seq<Record>, query: string)
    requires Search(data, query).Ok?
    ensures Search(Search(data, query).value, query) == Search(data, query)
    decreases |data|
  {
    if data != [] {
      SearchIdempotent(data[1..], query);
      var rest := Search(data[1..], query).value;
      if Hit(data[0], query) == Ok(true) {
        assert ([data[0]] + rest)[1..] == rest;
      }
    }
  }
}
