/** The symbol handling shared by the holdings and business-analysis fetchers:
    trimming a query symbol, rewriting an exchange marker into a suffix
    ("SH600000" becomes "600000.SS"), and the `replace_empty` field validator.

    The rewrite is the same `if/elif` chain in etf_holdings.py, fund_holdings.py
    and business_analysis.py; it is modelled once here. */
module SymbolRewrite {

  import opened Common
  import opened Strings

  /** The suffix a marker is rewritten to. */
  function SuffixFor(marker: string): string
  {
    if marker == "SH" then ".SS"
    else if marker == "SZ" then ".SZ"
    else if marker == "OF" then ".OF"
    else ".BJ"
  }

  predicate IsMarker(m: string)
  {
    m == "SH" || m == "SZ" || m == "OF" || m == "BJ"
  }

  /** The body of the `transform_data` loop for one symbol: the first marker
      found, tried in the order SH, SZ, OF, BJ, is removed everywhere and its
      suffix appended. */
  function RewriteSymbol(s: string): string
  {
    if Contains(s, "SH") then RemoveAll(s, "SH") + ".SS"
    else if Contains(s, "SZ") then RemoveAll(s, "SZ") + ".SZ"
    else if Contains(s, "OF") then RemoveAll(s, "OF") + ".OF"
    else if Contains(s, "BJ") then RemoveAll(s, "BJ") + ".BJ"
    else s
  }

  /** A symbol without any marker passes through unchanged. */
  lemma RewriteUnmarked(s: string)
    requires !Contains(s, "SH") && !Contains(s, "SZ") && !Contains(s, "OF") && !Contains(s, "BJ")
    ensures RewriteSymbol(s) == s
  {
  }

  lemma DigitsHaveNoLetter(d: string, ch: char)
    requires AllDigits(d) && !IsDigit(ch)
    ensures ch !in d
  {
  }

  /** A marker followed by a digit code becomes the code followed by the
      marker's suffix: "SH688041" becomes "688041.SS", "SZ000001" becomes
      "000001.SZ". */
  lemma {:induction false} RewriteCoded(m: string, d: string)
    requires IsMarker(m) && AllDigits(d)
    ensures RewriteSymbol(m + d) == d + SuffixFor(m)
  {
    var s := m + d;
    assert s[..2] == m;
    assert Contains(s, m);
    assert s[2..] == d;
    DigitsHaveNoLetter(d, m[0]);
    AbsentFirstChar(d, m);
    RemoveAbsent(d, m);
    assert RemoveAll(s, m) == d;
    DigitsHaveNoLetter(d, 'S');
    DigitsHaveNoLetter(d, 'O');
    assert s[1..] == [m[1]] + d;
    if m != "SH" {
      if m == "SZ" {
        AbsentFirstChar([m[1]] + d, "SH");
        assert !Contains(s, "SH");
      } else {
        AbsentFirstChar(s, "SH");
      }
    }
    if m == "OF" || m == "BJ" {
      AbsentFirstChar(s, "SZ");
    }
    if m == "BJ" {
      AbsentFirstChar(s, "OF");
    }
  }

  /** The position of a marker in the order the rewrite tries them. */
  function MarkerRank(m: string): int
  {
    if m == "SH" then 0 else if m == "SZ" then 1 else if m == "OF" then 2 else 3
  }

  /** Only the first marker found is rewritten: a symbol holding two markers,
      the earlier-tried one first, loses that one and keeps the other, as
      "SHSZ01" becomes "SZ01.SS". */
  lemma {:induction false} FirstMarkerOnly(m1: string, m2: string, d: string)
    requires IsMarker(m1) && IsMarker(m2) && MarkerRank(m1) < MarkerRank(m2) && AllDigits(d)
    ensures RewriteSymbol(m1 + m2 + d) == m2 + d + SuffixFor(m1)
  {
    var s := m1 + m2 + d;
    var t := m2 + d;
    assert s == m1 + t && s[..2] == m1 && s[2..] == t;
    assert Contains(s, m1);
    DigitsHaveNoLetter(d, 'S');
    DigitsHaveNoLetter(d, 'O');
    DigitsHaveNoLetter(d, 'B');
    if m1 == "SH" && m2 == "SZ" {
      assert t[..2] != m1 && t[1..] == "Z" + d;
      AbsentFirstChar(t[1..], m1);
    } else {
      AbsentFirstChar(t, m1);
    }
    RemoveAbsent(t, m1);
    assert RemoveAll(s, m1) == t;
    if m1 == "SZ" {
      assert s[..2] != "SH" && s[1..] == "Z" + t;
      AbsentFirstChar(s[1..], "SH");
    }
    if m1 == "OF" {
      AbsentFirstChar(s, "SH");
      AbsentFirstChar(s, "SZ");
    }
  }

  /** The rewrite is not idempotent: applied to its own output for a Shenzhen
      code ("SZ000001" becomes "000001.SZ"), the ".SZ" suffix matches the SZ
      marker again and a second dot appears. */
  lemma {:induction false} RewriteTwiceShenzhen(d: string)
    requires AllDigits(d)
    ensures RewriteSymbol(RewriteSymbol("SZ" + d)) == d + "..SZ"
  {
    RewriteCoded("SZ", d);
    var a := d + ".";
    var b := "SZ";
    DigitsHaveNoLetter(d, 'S');
    assert 'S' !in a;
    ContainsAfter(a, b, "SH");
    ContainsAfter(a, b, "SZ");
    assert b[..2] == "SZ" && b[1..] == "Z";
    assert !Contains(b[1..], "SH");
    assert !Contains(b, "SH");
    assert Contains(b, "SZ");
    assert RemoveAll(b, "SZ") == RemoveAll(b[2..], "SZ") == "";
    assert a + b == d + ".SZ";
    assert a + "" + ".SZ" == d + "..SZ";
  }

  /** `params["symbol"].split(",")[0].split(".")[0]`: the text before the first
      comma, then before the first dot. */
  function TrimSymbol(s: string): (r: string)
    ensures |r| <= |s| && r == s[..|r|]
    ensures ',' !in r && '.' !in r
    ensures |r| < |s| ==> s[|r|] == ',' || s[|r|] == '.'
  {
    Before(Before(s, ','), '.')
  }

  /** `transform_query` of the holdings fetchers: the trimmed symbol replaces the
      given one; a missing or non-text symbol is refused. */
  function TrimQuerySymbol(params: map<string, Value>): (r: Result<map<string, Value>>)
    ensures r.Ok? <==> "symbol" in params && params["symbol"].Str?
    ensures r.Ok? ==> r.value == params["symbol" := Str(TrimSymbol(params["symbol"].s))]
    ensures r.Err? ==> r.error == Exception("Please enter a valid symbol")
  {
    if "symbol" in params && params["symbol"].Str? then
      Ok(params["symbol" := Str(TrimSymbol(params["symbol"].s))])
    else
      Err(Exception("Please enter a valid symbol"))
  }

  /** The values `replace_empty` turns into None. */
  predicate IsEmptyMarker(v: Value)
  {
    if v.Str? then v.s == "" || v.s == "0" || v.s == "-" else !Truthy(v)
  }

  /** The `replace_empty` validator of the holdings models. */
  function ReplaceEmpty(v: Value): (r: Value)
    ensures r == Null || r == v
    ensures r == Null <==> IsEmptyMarker(v) || v == Null
  {
    match v
    case Str(s) => if s == "" || s == "0" || s == "-" then Null else v
    case Int(_) => if Truthy(v) && !EqualsZero(v) then v else Null
    case Float(_) => if Truthy(v) && !EqualsZero(v) then v else Null
    case Bool(_) => if Truthy(v) && !EqualsZero(v) then v else Null
    case NaN => if Truthy(v) && !EqualsZero(v) then v else Null
    case _ => if Truthy(v) then v else Null
  }

  /** Applying `replace_empty` twice is the same as once. */
  lemma ReplaceEmptyIdempotent(v: Value)
    ensures ReplaceEmpty(ReplaceEmpty(v)) == ReplaceEmpty(v)
  {
  }

  /** One record of the `transform_data` loop: a missing symbol is a KeyError, a
      symbol that is not text fails the `in` test. */
  function RewriteRecord(rec: Record): (r: Result<Record>)
    ensures r.Ok? <==> "symbol" in rec && rec["symbol"].Str?
    ensures r.Ok? ==> r.value.Keys == rec.Keys
    ensures r.Ok? ==> r.value["symbol"] == Str(RewriteSymbol(rec["symbol"].s))
    ensures r.Ok? ==> forall k | k in rec && k != "symbol" :: r.value[k] == rec[k]
  {
    if "symbol" !in rec then Err(KeyError("symbol"))
    else if !rec["symbol"].Str? then Err(NotIterable(rec["symbol"]))
    else Ok(rec["symbol" := Str(RewriteSymbol(rec["symbol"].s))])
  }

  /** The two ways a record fails: a missing symbol is a KeyError, and a
      symbol that is not text raises the TypeError naming its type. */
  lemma RewriteRecordErrors(rec: Record)
    ensures "symbol" !in rec ==> RewriteRecord(rec) == Err(KeyError("symbol"))
    ensures "symbol" in rec && !rec["symbol"].Str? ==> RewriteRecord(rec) == Err(NotIterable(rec["symbol"]))
  {
  }

  /** How many records the loop rewrites before the first one it fails on. */
  function RewritablePrefix(rs: seq<Record>): (k: nat)
    ensures k <= |rs|
    ensures forall i | 0 <= i < k :: RewriteRecord(rs[i]).Ok?
    ensures k < |rs| ==> RewriteRecord(rs[k]).Err?
  {
    if rs == [] || RewriteRecord(rs[0]).Err? then 0 else 1 + RewritablePrefix(rs[1..])
  }

  /** The `for i in data` loop of `transform_data`, which updates the records in
      place. When a record fails, the records before it have already been
      rewritten and the rest are untouched. */
  method RewriteSymbols(data: array<Record>) returns (err: Option<Error>)
    modifies data
    ensures var k := RewritablePrefix(old(data[..]));
      && (forall i | 0 <= i < k :: data[i] == RewriteRecord(old(data[i])).value)
      && (forall i | k <= i < data.Length :: data[i] == old(data[i]))
      && err == (if k == data.Length then None else Some(RewriteRecord(old(data[k])).error))
  {
    ghost var before := data[..];
    ghost var k := RewritablePrefix(before);
    var i := 0;
    while i < data.Length
      invariant 0 <= i <= k
      invariant forall j | 0 <= j < i :: data[j] == RewriteRecord(before[j]).value
      invariant forall j | i <= j < data.Length :: data[j] == before[j]
    {
      var rec := data[i];
      if "symbol" !in rec {
        assert i == k;
        return Some(KeyError("symbol"));
      }
      var sym := rec["symbol"];
      if !sym.Str? {
        assert i == k;
        return Some(NotIterable(sym));
      }
      data[i] := rec["symbol" := Str(RewriteSymbol(sym.s))];
      assert data[i] == RewriteRecord(before[i]).value;
      i := i + 1;
    }
    return None;
  }
}
