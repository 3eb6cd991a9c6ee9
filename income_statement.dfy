/** income_statement.py: the yearly A-share income statement of a symbol, cut
    to ten columns, with zero amounts read as missing.

    The symbol normaliser and the akshare sheet are parameters; the pydantic
    validation is modelled by its two visible steps, `replace_zero` and the
    `__alias_dict__` renaming. */
module IncomeStatement {

  import opened Common
  import opened Frames

  /** The columns `aextract_data` keeps, in order. */
  const IncomeColumns: seq<string> := [
    "REPORT_DATE", "REPORT_TYPE", "CURRENCY", "TOTAL_OPERATE_COST", "OPERATE_INCOME",
    "TOTAL_PROFIT", "INCOME_TAX", "NETPROFIT", "BASIC_EPS", "DILUTED_EPS"]

  /** The aliases of the data model: (field, upstream column). */
  const IncomeAliases: seq<(string, string)> := [
    ("period_ending", "REPORT_DATE"), ("fiscal_period", "REPORT_TYPE"),
    ("reported_currency", "CURRENCY"), ("cost_of_revenue", "TOTAL_OPERATE_COST"),
    ("operate_income", "OPERATE_INCOME"), ("total_pre_tax_income", "TOTAL_PROFIT"),
    ("income_tax_expense", "INCOME_TAX"), ("consolidated_net_income", "NETPROFIT"),
    ("basic_earnings_per_share", "BASIC_EPS"), ("diluted_earnings_per_share", "DILUTED_EPS")]

  /** The keys `transform_data` pops from every record. */
  const PoppedKeys: set<string> := {"symbol", "cik"}

  /** `replace_zero`: a dict keeps its keys with every value equal to 0 (the
      integer, the float or False) replaced by None; anything else is returned
      as it is. */
  function ReplaceZero(values: Value): (r: Value)
    ensures !values.Dict? ==> r == values
    ensures values.Dict? ==> r.Dict? && r.entries.Keys == values.entries.Keys
    ensures values.Dict? ==> forall k | k in values.entries ::
      r.entries[k] == if EqualsZero(values.entries[k]) then Null else values.entries[k]
  {
    if values.Dict? then Dict(map k | k in values.entries :: if EqualsZero(values.entries[k]) then Null else values.entries[k])
    else values
  }

  /** After `replace_zero` no value equals 0, so a second pass changes nothing. */
  lemma ReplaceZeroIdempotent(values: Value)
    ensures ReplaceZero(values).Dict? ==> forall k | k in ReplaceZero(values).entries :: !EqualsZero(ReplaceZero(values).entries[k])
    ensures ReplaceZero(ReplaceZero(values)) == ReplaceZero(values)
  {
  }

  /** `aextract_data`: the yearly sheet of "SH" and the bare code, whatever the
      market, cut to the ten columns. A sheet lacking one of them is a
      KeyError. */
  function ExtractData(symbol: string, normalize: string -> (string, string, string),
                       yearly: string -> Result<Frame>): (r: Result<seq<Record>>)
    ensures var sheet := yearly("SH" + normalize(symbol).0);
      && (sheet.Err? ==> r == Err(sheet.error))
      && (sheet.Ok? ==> (r.Ok? <==> forall c | c in IncomeColumns :: c in sheet.value.columns))
      && (sheet.Ok? && r.Ok? ==> |r.value| == |sheet.value.rows|)
      && (sheet.Ok? && r.Ok? ==>
            forall i | 0 <= i < |r.value| :: r.value[i] == Project(sheet.value.rows[i], IncomeColumns))
      && (sheet.Ok? && r.Ok? && WellFormed(sheet.value) ==>
            forall x | x in r.value :: x.Keys == set c | c in IncomeColumns)
  {
    var (symbolB, _, _) := normalize(symbol);
    match yearly("SH" + symbolB)
    case Err(e) => Err(e)
    case Ok(df) =>
      match SelectColumns(df, IncomeColumns)
      case Err(e) => Err(e)
      case Ok(g) =>
        assert forall x | x in g.rows :: exists i | 0 <= i < |df.rows| :: x == Project(df.rows[i], IncomeColumns);
        Ok(g.rows)
  }

  /** `AKShareIncomeStatementData.model_validate(d)`: zeros replaced, aliased
      columns renamed to their fields. */
  function Validate(rec: Record): (r: Record)
  {
    Unalias(ReplaceZero(Dict(rec)).entries, IncomeAliases)
  }

  /** Validation reads a zero amount as missing. */
  lemma {:induction false} ZeroAmountMissing(rec: Record, j: int)
    requires 0 <= j < |IncomeAliases| && IncomeAliases[j].1 in rec && EqualsZero(rec[IncomeAliases[j].1])
    ensures var f := IncomeAliases[j].0; f in Validate(rec) && Validate(rec)[f] == Null
  {
    var z := ReplaceZero(Dict(rec)).entries;
    assert z[IncomeAliases[j].1] == Null;
    UnaliasMoves(z, IncomeAliases, j);
  }

  /** `transform_data`: "symbol" and "cik" popped from every record in place,
      where present, then every record validated. */
  method TransformData(data: array<Record>) returns (r: seq<Record>)
    modifies data
    ensures forall i | 0 <= i < data.Length :: data[i] == old(data[i]) - PoppedKeys
    ensures |r| == data.Length && forall i | 0 <= i < data.Length :: r[i] == Validate(data[i])
  {
    var i := 0;
    while i < data.Length
      invariant 0 <= i <= data.Length
      invariant forall k | 0 <= k < i :: data[k] == old(data[k]) - PoppedKeys
      invariant forall k | i <= k < data.Length :: data[k] == old(data[k])
    {
      data[i] := data[i] - {"symbol"} - {"cik"};
      i := i + 1;
    }
    r := ValidateEach(data[..], IncomeAliases);
  }

  /** Every record validated against the given aliases, in order. */
  function ValidateEach(rs: seq<Record>, aliases: seq<(string, string)>): (vs: seq<Record>)
    ensures |vs| == |rs|
    ensures forall i | 0 <= i < |rs| :: vs[i] == Unalias(ReplaceZero(Dict(rs[i])).entries, aliases)
  {
    seq(|rs|, i requires 0 <= i < |rs| => Unalias(ReplaceZero(Dict(rs[i])).entries, aliases))
  }
}
