/** equity_profile.py: company profiles for a comma-separated list of
    symbols. Each symbol's first cached equity-information row is a result;
    a symbol that fails contributes a message instead. Its field validators
    turn a missing employee count into 0 and a falsy timestamp into None.

    `fetch_equity_info`, `safe_fromtimestamp` and Python's `str()` are
    parameters. */
module EquityProfile {

  import opened Common
  import opened Strings

  /** `int(r)` on a float: truncation toward zero. */
  function Truncate(r: real): (n: int)
    ensures r >= 0.0 ==> n as real <= r < n as real + 1.0
    ensures r < 0.0 ==> n as real - 1.0 < r <= n as real
  {
    if r >= 0.0 then r.Floor else -((-r).Floor)
  }

  const IntLiteralPrefix := "invalid literal for int() with base 10: '"
  const IntArgumentPrefix := "int() argument must be a string, a bytes-like object or a real number, not '"

  /** The ValueError of `int(s)` for text that is not a whole number. */
  function IntLiteralError(s: string): Error
  {
    ValueError(IntLiteralPrefix + s + "'")
  }

  /** The TypeError of `int(v)` for a value that is neither text nor a number. */
  function IntArgumentError(v: Value): Error
  {
    TypeError(IntArgumentPrefix + TypeName(v) + "'")
  }

  /** numpy's refusal to take the truth of an array of several elements. */
  const AmbiguousTruthError: Error :=
    ValueError("The truth value of an array with more than one element is ambiguous. Use a.any() or a.all()")

  /** The `to_lower` validator of `employees`: None, "" and NaN become 0, and
      anything else goes through `int()`, which refuses text that is not a
      whole number and values that are not numbers. `pd.isna` of a flat list
      is an array of its elements' tests, so a list of one missing value
      becomes 0, and the truth test of a list of several elements raises. */
  function Employees(v: Value): (r: Result<Value>)
    ensures v == Null || v == Str("") || v == NaN ==> r == Ok(Int(0))
    ensures v.Int? ==> r == Ok(v)
    ensures v.Float? ==> r == Ok(Int(Truncate(v.r)))
    ensures v.Str? && v.s != "" ==> (r.Ok? <==> ParseInt(v.s).Some?)
    ensures v.Str? && v.s != "" && ParseInt(v.s).Some? ==> r == Ok(Int(ParseInt(v.s).value))
    ensures v.Str? && v.s != "" && ParseInt(v.s).None? ==> r == Err(IntLiteralError(v.s))
    ensures v.Bool? ==> r == Ok(Int(if v.b then 1 else 0))
    ensures v.DateVal? || v.Dict? || v == List([]) ==> r == Err(IntArgumentError(v))
    ensures v.List? && |v.items| == 1 && !v.items[0].List? ==>
      r == (if IsNA(v.items[0]) then Ok(Int(0)) else Err(IntArgumentError(v)))
    ensures v.List? && |v.items| >= 2 && (forall i | 0 <= i < |v.items| :: !v.items[i].List?) ==> r == Err(AmbiguousTruthError)
    ensures r.Ok? ==> r.value.Int?
  {
    match v
    case Null => Ok(Int(0))
    case NaN => Ok(Int(0))
    case Str(s) =>
      if s == "" then Ok(Int(0))
      else (match ParseInt(s)
            case Some(n) => Ok(Int(n))
            case None => Err(IntLiteralError(s)))
    case Int(_) => Ok(v)
    case Float(x) => Ok(Int(Truncate(x)))
    case Bool(b) => Ok(Int(if b then 1 else 0))
    case List(items) =>
      if exists i | 0 <= i < |items| :: items[i].List? then Err(IntArgumentError(v))
      else if |items| >= 2 then Err(AmbiguousTruthError)
      else if |items| == 1 && IsNA(items[0]) then Ok(Int(0))
      else Err(IntArgumentError(v))
    case _ => Err(IntArgumentError(v))
  }

  /** A whole number written out as `str(n)` writes it validates to that
      number. */
  lemma EmployeesCountText(n: int)
    ensures Employees(Str(IntText(n))) == Ok(Int(n))
  {
    ParseIntText(n);
  }

  /** The error of `datetime.fromtimestamp` on NaN. */
  const NaNTimestampError: Error := ValueError("Invalid value NaN (not a number)")

  /** A conversion's date as a field value, or its error. */
  function AsDate(t: Result<Date>): (r: Result<Value>)
    ensures t.Ok? ==> r == Ok(DateVal(t.value))
    ensures t.Err? ==> r == Err(t.error)
  {
    match t
    case Ok(d) => Ok(DateVal(d))
    case Err(e) => Err(e)
  }

  /** The TypeError of `v / 1000` for a value that is not a number. */
  function DivisionError(v: Value): Error
  {
    TypeError("unsupported operand type(s) for /: '" + TypeName(v) + "' and 'int'")
  }

  /** `validate_established_date` and `validate_first_trade_date`: a falsy
      value is None; a truthy number of milliseconds is the date of that many
      seconds / 1000 since the epoch, as `fromTimestamp` (the UTC
      `safe_fromtimestamp`) gives it, or its error. NaN is truthy and reaches
      the conversion, which refuses it; a value that is not a number cannot
      be divided. */
  function DateFromMillis(v: Value, fromTimestamp: real -> Result<Date>): (r: Result<Value>)
    ensures !Truthy(v) ==> r == Ok(Null)
    ensures Truthy(v) && v.Int? ==> r == AsDate(fromTimestamp(v.i as real / 1000.0))
    ensures Truthy(v) && v.Float? ==> r == AsDate(fromTimestamp(v.r / 1000.0))
    ensures Truthy(v) && v.Bool? ==> r == AsDate(fromTimestamp(1.0 / 1000.0))
    ensures v == NaN ==> r == Err(NaNTimestampError)
    ensures Truthy(v) && (v.Str? || v.DateVal? || v.List? || v.Dict?) ==> r == Err(DivisionError(v))
    ensures r.Ok? ==> r.value == Null || r.value.DateVal?
  {
    if !Truthy(v) then Ok(Null)
    else match v
      case Int(i) => AsDate(fromTimestamp(i as real / 1000.0))
      case Float(x) => AsDate(fromTimestamp(x / 1000.0))
      case Bool(_) => AsDate(fromTimestamp(1.0 / 1000.0))
      case NaN => Err(NaNTimestampError)
      case _ => Err(DivisionError(v))
  }

  /** What `get_one` leaves for one symbol. */
  datatype Profile = Found(rec: Record) | Skipped | Failed(message: string)

  /** The message of a failed symbol. */
  function FailureMessage(symbol: string, e: Error): string
  {
    "Error getting data for " + symbol + " -> " + ErrorName(e) + ": " + ErrorText(e)
  }

  /** `get_one(symbol)`: the first row of the symbol's equity information; an
      empty row is skipped; any error, an empty frame's IndexError included,
      becomes a message. */
  function ProfileOf(symbol: string, fetch: string -> Result<Frame>): (p: Profile)
    ensures p.Found? ==> fetch(symbol).Ok? && |fetch(symbol).value.rows| > 0 && p.rec == fetch(symbol).value.rows[0] && p.rec != map[]
    ensures p.Failed? <==> fetch(symbol).Err? || fetch(symbol).value.rows == []
    ensures fetch(symbol).Ok? && |fetch(symbol).value.rows| > 0 ==>
      p == (if fetch(symbol).value.rows[0] == map[] then Skipped else Found(fetch(symbol).value.rows[0]))
    ensures fetch(symbol).Err? ==> p == Failed(FailureMessage(symbol, fetch(symbol).error))
    ensures fetch(symbol).Ok? && fetch(symbol).value.rows == [] ==>
      p == Failed(FailureMessage(symbol, IndexError))
  {
    match fetch(symbol)
    case Err(e) => Failed(FailureMessage(symbol, e))
    case Ok(df) =>
      if df.rows == [] then Failed(FailureMessage(symbol, IndexError))
      else if df.rows[0] == map[] then Skipped
      else Found(df.rows[0])
  }

  /** The `results` and `messages` lists after the symbols' `get_one` calls, in
      order. */
  function Collect(symbols: seq<string>, fetch: string -> Result<Frame>): (c: (seq<Record>, seq<string>))
    ensures |c.0| + |c.1| <= |symbols|
    decreases |symbols|
  {
    if symbols == [] then ([], [])
    else
      var before := Collect(symbols[..|symbols| - 1], fetch);
      match ProfileOf(symbols[|symbols| - 1], fetch)
      case Found(rec) => (before.0 + [rec], before.1)
      case Skipped => before
      case Failed(m) => (before.0, before.1 + [m])
  }

  /** Each symbol accounts for one result, one message, or nothing when its
      row is empty: results are non-empty rows found for some symbol, and
      messages are failures of some symbol. */
  lemma {:induction false} CollectAccounts(symbols: seq<string>, fetch: string -> Result<Frame>)
    ensures var c := Collect(symbols, fetch);
      && ((forall i | 0 <= i < |symbols| :: !ProfileOf(symbols[i], fetch).Skipped?) ==> |c.0| + |c.1| == |symbols|)
      && (forall x | x in c.0 :: x != map[] && exists i | 0 <= i < |symbols| :: ProfileOf(symbols[i], fetch) == Found(x))
      && (forall m | m in c.1 :: exists i | 0 <= i < |symbols| :: ProfileOf(symbols[i], fetch) == Failed(m))
      && ((forall i | 0 <= i < |symbols| :: ProfileOf(symbols[i], fetch).Failed?) ==> c.0 == [] && |c.1| == |symbols|)
    decreases |symbols|
  {
    if symbols != [] {
      var front := symbols[..|symbols| - 1];
      CollectAccounts(front, fetch);
      assert forall i | 0 <= i < |front| :: front[i] == symbols[i];
    }
  }

  /** One more symbol adds its profile's contribution at the end. */
  lemma CollectStep(symbols: seq<string>, i: int, fetch: string -> Result<Frame>)
    requires 0 <= i < |symbols|
    ensures var before := Collect(symbols[..i], fetch);
      Collect(symbols[..i + 1], fetch) ==
        match ProfileOf(symbols[i], fetch)
        case Found(rec) => (before.0 + [rec], before.1)
        case Skipped => before
        case Failed(m) => (before.0, before.1 + [m])
  {
    assert symbols[..i + 1][..i] == symbols[..i];
  }

  /** The end of `aextract_data`: no results and some messages raise an
      OpenBBError carrying the messages one per line; no results and no
      messages raise EmptyDataError; otherwise the results are returned and
      every message is warned. */
  function Outcome(results: seq<Record>, messages: seq<string>): (o: (Result<seq<Record>>, seq<string>))
    ensures results == [] && messages != [] ==> o == (Err(OpenBBError(Join(messages, "\n"))), [])
    ensures results == [] && messages == [] ==> o == (Err(EmptyDataError("No data was returned for any symbol")), [])
    ensures results != [] ==> o == (Ok(results), messages)
  {
    if results == [] && messages != [] then (Err(OpenBBError(Join(messages, "\n"))), [])
    else if results == [] then (Err(EmptyDataError("No data was returned for any symbol")), [])
    else (Ok(results), messages)
  }

  /** `aextract_data` on the symbol text: `get_one` for each comma piece in
      turn, appending to `results` or `messages`; also returns the messages
      warned. */
  method ExtractData(symbolText: string, fetch: string -> Result<Frame>)
    returns (r: Result<seq<Record>>, warnings: seq<string>)
    ensures var c := Collect(Split(symbolText, ','), fetch);
      (r, warnings) == Outcome(c.0, c.1)
  {
    var symbols := Split(symbolText, ',');
    var results: seq<Record> := [];
    var messages: seq<string> := [];
    var i := 0;
    while i < |symbols|
      invariant 0 <= i <= |symbols|
      invariant Collect(symbols[..i], fetch) == (results, messages)
    {
      CollectStep(symbols, i, fetch);
      match ProfileOf(symbols[i], fetch) {
        case Found(rec) => results := results + [rec];
        case Skipped =>
        case Failed(m) => messages := messages + [m];
      }
      i := i + 1;
    }
    assert symbols[..i] == symbols;
    if results == [] && messages != [] {
      return Err(OpenBBError(Join(messages, "\n"))), [];
    }
    if results == [] {
      return Err(EmptyDataError("No data was returned for any symbol")), [];
    }
    return Ok(results), messages;
  }

  /** When every symbol fails, the error carries one line per symbol. */
  lemma {:induction false} AllFailedRaises(symbolText: string, fetch: string -> Result<Frame>)
    requires var symbols := Split(symbolText, ',');
      forall i | 0 <= i < |symbols| :: ProfileOf(symbols[i], fetch).Failed?
    ensures var c := Collect(Split(symbolText, ','), fetch);
      Outcome(c.0, c.1).0.Err? && Outcome(c.0, c.1).0.error.OpenBBError? && |c.1| == |Split(symbolText, ',')|
  {
    CollectAccounts(Split(symbolText, ','), fetch);
  }
}
