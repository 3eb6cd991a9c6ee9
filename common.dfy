/** Values, records, frames and errors shared by every module of the model.

    A pandas DataFrame is modelled as a `Frame`: its column labels in order and
    its rows as records (maps from column label to cell value). Python
    exceptions become the `Error` datatype and every fallible operation returns
    a `Result`. */
module Common {

  datatype Option<T> = None | Some(value: T)

  datatype Result<T> = Ok(value: T) | Err(error: Error)

  /** The exception classes the modelled code raises or lets through. */
  datatype Error =
    | ValueError(msg: string)
    | KeyError(key: string)
    | TypeError(msg: string)
    | IndexError
    | AttributeError(msg: string)
    | NotImplementedError
    | EmptyDataError(msg: string)
    | OpenBBError(msg: string)
    | OperationalError(msg: string)   // raised by sqlite3
    | DatabaseError(msg: string)      // pandas' wrapper around a failed query
    | Exception(msg: string)          // a bare `raise Exception(...)`
    | Upstream(msg: string)           // whatever an upstream library call raised

  /** A calendar date (Python `datetime.date`). */
  datatype Date = Date(year: int, month: int, day: int)

  /** A Python value as it appears in a DataFrame cell or a query parameter. */
  datatype Value =
    | Null                          // None
    | NaN                           // float('nan'), pandas' missing marker
    | Bool(b: bool)
    | Int(i: int)
    | Float(r: real)
    | Str(s: string)
    | DateVal(d: Date)
    | List(items: seq<Value>)       // a list or a tuple
    | Dict(entries: map<string, Value>)

  /** One row of a frame, or one `dict` of `to_dict(orient="records")`. */
  type Record = map<string, Value>

  datatype Frame = Frame(columns: seq<string>, rows: seq<Record>)

  /** Every row carries exactly the frame's columns. */
  predicate WellFormed(f: Frame)
  {
    forall r | r in f.rows :: r.Keys == set c | c in f.columns
  }

  /** `DataFrame.empty`: true when either axis has length zero. */
  predicate IsEmptyFrame(f: Frame)
  {
    |f.rows| == 0 || |f.columns| == 0
  }

  /** Python's `bool(v)`. */
  predicate Truthy(v: Value)
  {
    match v
    case Null => false
    case NaN => true
    case Bool(b) => b
    case Int(i) => i != 0
    case Float(r) => r != 0.0
    case Str(s) => s != ""
    case DateVal(_) => true
    case List(items) => |items| > 0
    case Dict(entries) => |entries| > 0
  }

  /** `pd.isna(v)` on a scalar. */
  predicate IsNA(v: Value)
  {
    v == Null || v == NaN
  }

  /** Python's `v == 0`: true for the integer 0, the float 0.0 and False. */
  predicate EqualsZero(v: Value)
  {
    v == Int(0) || v == Float(0.0) || v == Bool(false)
  }

  /** `str(v)`: exact for strings; for every other value Python's rendering is
      supplied by the caller as `show`. */
  function Text(v: Value, show: Value -> string): string
  {
    if v.Str? then v.s else show(v)
  }

  /** `e.__class__.__name__`. */
  function ErrorName(e: Error): string
  {
    match e
    case ValueError(_) => "ValueError"
    case KeyError(_) => "KeyError"
    case TypeError(_) => "TypeError"
    case IndexError => "IndexError"
    case AttributeError(_) => "AttributeError"
    case NotImplementedError => "NotImplementedError"
    case EmptyDataError(_) => "EmptyDataError"
    case OpenBBError(_) => "OpenBBError"
    case OperationalError(_) => "OperationalError"
    case DatabaseError(_) => "DatabaseError"
    case Exception(_) => "Exception"
    case Upstream(_) => "Exception"
  }

  /** `str(e)`. */
  function ErrorText(e: Error): string
  {
    match e
    case ValueError(m) => m
    case KeyError(k) => "'" + k + "'"
    case TypeError(m) => m
    case IndexError => "list index out of range"
    case AttributeError(m) => m
    case NotImplementedError => ""
    case EmptyDataError(m) => m
    case OpenBBError(m) => m
    case OperationalError(m) => m
    case DatabaseError(m) => m
    case Exception(m) => m
    case Upstream(m) => m
  }

  /** `a` is `b` with some elements left out, the rest in their order. */
  predicate Subsequence<T(==)>(a: seq<T>, b: seq<T>)
    decreases |b|
  {
    a == [] || (b != [] && ((a[0] == b[0] && Subsequence(a[1..], b[1..])) || Subsequence(a, b[1..])))
  }

  /** The rows of `rows` that satisfy `keep`, in their original order. */
  function Filter<T>(rows: seq<T>, keep: T -> bool): (r: seq<T>)
    ensures |r| <= |rows|
    ensures Subsequence(r, rows)
    ensures forall x | x in r :: x in rows && keep(x)
    ensures forall x | x in rows && keep(x) :: x in r
  {
    if rows == [] then []
    else
      var rest := Filter(rows[1..], keep);
      if keep(rows[0]) then
        assert ([rows[0]] + rest)[1..] == rest;
        [rows[0]] + rest
      else rest
  }

  /** Filtering a concatenation filters each part. */
  lemma {:induction false} FilterConcat<T>(a: seq<T>, b: seq<T>, keep: T -> bool)
    ensures Filter(a + b, keep) == Filter(a, keep) + Filter(b, keep)
    decreases |a|
  {
    if a != [] {
      assert (a + b)[1..] == a[1..] + b;
      FilterConcat(a[1..], b, keep);
    } else {
      assert a + b == b;
    }
  }

  /** `[f(x) for x in xs]` where `f` may raise: every result in order, or the
      error of the first element that fails. */
  function MapAll<A, B>(xs: seq<A>, f: A -> Result<B>): (r: Result<seq<B>>)
    ensures r.Ok? <==> forall i | 0 <= i < |xs| :: f(xs[i]).Ok?
    ensures r.Err? ==> exists i | 0 <= i < |xs| ::
      && f(xs[i]).Err? && r.error == f(xs[i]).error
      && forall j | 0 <= j < i :: f(xs[j]).Ok?
    ensures r.Ok? ==> |r.value| == |xs| && forall i | 0 <= i < |xs| :: r.value[i] == f(xs[i]).value
  {
    if xs == [] then Ok([])
    else match f(xs[0])
      case Err(e) => Err(e)
      case Ok(y) =>
        match MapAll(xs[1..], f)
        case Err(e) =>
          var i :| 0 <= i < |xs[1..]| && f(xs[1..][i]).Err? && e == f(xs[1..][i]).error
                   && forall j | 0 <= j < i :: f(xs[1..][j]).Ok?;
          assert xs[i + 1] == xs[1..][i];
          assert forall j | 1 <= j < i + 1 :: xs[j] == xs[1..][j - 1];
          Err(e)
        case Ok(rest) =>
          assert forall i | 1 <= i < |xs| :: xs[i] == xs[1..][i - 1];
          Ok([y] + rest)
  }

  /** `df.head(n)`, `df[:n]` and `lst[:n]`: a negative `n` drops the last `-n`
      rows, as Python slicing does. */
  function Head<T>(rows: seq<T>, n: int): (r: seq<T>)
    ensures n >= 0 ==> |r| == if n < |rows| then n else |rows|
    ensures n < 0 ==> |r| == if -n < |rows| then |rows| + n else 0
    ensures forall i | 0 <= i < |r| :: r[i] == rows[i]
  {
    if n >= 0 then (if n < |rows| then rows[..n] else rows)
    else (if -n < |rows| then rows[..|rows| + n] else [])
  }

  /** The first of `cols` that `has` refuses: the label a lookup of `cols`,
      one after the other, fails on. */
  function FirstMissing(cols: seq<string>, has: string -> bool): (r: Option<string>)
    ensures r.None? <==> forall c | c in cols :: has(c)
    ensures r.Some? ==> r.value in cols && !has(r.value)
  {
    if cols == [] then None
    else if !has(cols[0]) then Some(cols[0])
    else FirstMissing(cols[1..], has)
  }

  /** The label `FirstMissing` gives is the first refused one: every label
      before it is accepted. */
  lemma {:induction false} FirstMissingFirst(cols: seq<string>, has: string -> bool)
    requires FirstMissing(cols, has).Some?
    ensures exists i | 0 <= i < |cols| :: cols[i] == FirstMissing(cols, has).value && forall j | 0 <= j < i :: has(cols[j])
  {
    if has(cols[0]) {
      FirstMissingFirst(cols[1..], has);
      var i :| 0 <= i < |cols[1..]| && cols[1..][i] == FirstMissing(cols, has).value && forall j | 0 <= j < i :: has(cols[1..][j]);
      assert cols[i + 1] == cols[1..][i];
      assert forall j | 1 <= j < i + 1 :: cols[j] == cols[1..][j - 1];
    } else {
      assert cols[0] == FirstMissing(cols, has).value;
    }
  }

  /** The cells of `rec` under the labels `cols`. */
  function Project(rec: Record, cols: seq<string>): (r: Record)
    ensures r.Keys == (set c | c in cols && c in rec)
    ensures forall c | c in r :: r[c] == rec[c]
  {
    map c | c in cols && c in rec :: rec[c]
  }

  /** `df[cols]`: the frame cut down to `cols`, in that order; a label the frame
      lacks is a KeyError. */
  function SelectColumns(f: Frame, cols: seq<string>): (r: Result<Frame>)
    ensures r.Ok? <==> forall c | c in cols :: c in f.columns
    ensures r.Err? ==> r.error.KeyError? && r.error.key in cols && r.error.key !in f.columns
    ensures r.Ok? ==> r.value.columns == cols && |r.value.rows| == |f.rows|
    ensures r.Ok? ==> forall i | 0 <= i < |f.rows| :: r.value.rows[i] == Project(f.rows[i], cols)
  {
    match FirstMissing(cols, c => c in f.columns)
    case Some(c) => Err(KeyError(c))
    case None => Ok(Frame(cols, seq(|f.rows|, i requires 0 <= i < |f.rows| => Project(f.rows[i], cols))))
  }
}
