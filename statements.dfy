/** ak_income_statement.py, ak_balance_sheet.py and ak_cash_flow.py: the three
    files hold the same two functions, differing only in the upstream calls.

    For a Hong Kong symbol the eastmoney sheet comes in long form, one row per
    (REPORT_DATE, STD_ITEM_NAME, AMOUNT); it is pivoted to one row per report
    date, most recent first, with one column per item and the date column
    named `period_ending`. Other markets ask the yearly or the per-report
    sheet for the market code followed by the bare code.

    Report dates and item names are compared as text, by code point, as
    Python compares `str` values. The symbol normaliser and the upstream
    sheets are parameters. */
module Statements {

  import opened Common
  import opened Frames

  /** Python's `a < b` on `str`: lexicographic by code point. */
  predicate TextBefore(a: string, b: string)
    decreases |a|
  {
    |b| > 0 && (|a| == 0 || a[0] < b[0] || (a[0] == b[0] && TextBefore(a[1..], b[1..])))
  }

  lemma {:induction false} TextBeforeIrreflexive(a: string)
    ensures !TextBefore(a, a)
    decreases |a|
  {
    if |a| > 0 {
      TextBeforeIrreflexive(a[1..]);
    }
  }

  lemma {:induction false} TextBeforeTransitive(a: string, b: string, c: string)
    requires TextBefore(a, b) && TextBefore(b, c)
    ensures TextBefore(a, c)
    decreases |a|
  {
    if |a| > 0 && a[0] == b[0] && b[0] == c[0] {
      TextBeforeTransitive(a[1..], b[1..], c[1..]);
    }
  }

  lemma {:induction false} TextBeforeTotal(a: string, b: string)
    requires a != b
    ensures TextBefore(a, b) || TextBefore(b, a)
    decreases |a|
  {
    if |a| > 0 && |b| > 0 && a[0] == b[0] {
      assert a == [a[0]] + a[1..] && b == [b[0]] + b[1..];
      TextBeforeTotal(a[1..], b[1..]);
    }
  }

  /** Strictly decreasing, so without repeats. */
  predicate Descending(t: seq<string>)
  {
    forall i, j | 0 <= i < j < |t| :: TextBefore(t[j], t[i])
  }

  /** Strictly increasing, so without repeats. */
  predicate Ascending(t: seq<string>)
  {
    forall i, j | 0 <= i < j < |t| :: TextBefore(t[i], t[j])
  }

  /** `x` placed into the descending `t`, unless it is there already. */
  function Place(t: seq<string>, x: string): (r: seq<string>)
    requires Descending(t)
    ensures Descending(r)
    ensures forall y :: y in r <==> y in t || y == x
  {
    if t == [] then [x]
    else if x == t[0] then t
    else if TextBefore(t[0], x) then
      assert forall j | 0 < j < |t| :: TextBefore(t[j], x) by {
        forall j | 0 < j < |t| ensures TextBefore(t[j], x) {
          TextBeforeTransitive(t[j], t[0], x);
        }
      }
      [x] + t
    else
      TextBeforeTotal(x, t[0]);
      var rest := Place(t[1..], x);
      assert forall y | y in rest :: TextBefore(y, t[0]) by {
        forall y | y in rest ensures TextBefore(y, t[0]) {
          if y != x {
            var j :| 1 <= j < |t| && t[j] == y;
          }
        }
      }
      [t[0]] + rest
  }

  /** The distinct labels of `xs`, greatest first: `sorted(set(xs),
      reverse=True)`. */
  function Ranked(xs: seq<string>): (r: seq<string>)
    ensures Descending(r)
    ensures forall y :: y in r <==> y in xs
    decreases |xs|
  {
    if xs == [] then [] else Place(Ranked(xs[..|xs| - 1]), xs[|xs| - 1])
  }

  function Reverse(t: seq<string>): (r: seq<string>)
    ensures |r| == |t|
    ensures forall i | 0 <= i < |t| :: r[i] == t[|t| - 1 - i]
    decreases |t|
  {
    if t == [] then [] else [t[|t| - 1]] + Reverse(t[..|t| - 1])
  }

  /** The distinct labels of `xs`, least first: the sorted index of a pivot. */
  function Sorted(xs: seq<string>): (r: seq<string>)
    ensures Ascending(r)
    ensures forall y :: y in r <==> y in xs
  {
    var d := Ranked(xs);
    var r := Reverse(d);
    assert forall y | y in d :: y in r by {
      forall y | y in d ensures y in r {
        var i :| 0 <= i < |d| && d[i] == y;
        assert r[|d| - 1 - i] == y;
      }
    }
    r
  }

  /** The three columns the sheet is cut down to. */
  const SheetColumns: seq<string> := [DateColumn, ItemColumn, AmountColumn]

  const DateColumn: string := "REPORT_DATE"
  const ItemColumn: string := "STD_ITEM_NAME"
  const AmountColumn: string := "AMOUNT"

  /** The name the date column is given after the pivot. */
  const PeriodColumn: string := "period_ending"

  const DuplicateError: Error := ValueError("Index contains duplicate entries, cannot reshape")

  /** `reset_index` refusing to insert the date index beside an item column
      of the same name. */
  const DateTakenError: Error := ValueError("cannot insert REPORT_DATE, already exists")

  const PeriodError: Error := ValueError("Invalid period. Please use 'annual' or 'quarter'.")

  /** One row of the long-form sheet. */
  datatype Entry = Entry(date: string, item: string, amount: Value)

  /** The rows of the sheet as entries; a date or item that is not text is
      refused, since such labels could not be ordered against text. */
  function Entries(rows: seq<Record>): (r: Result<seq<Entry>>)
    ensures r.Ok? <==> forall j | 0 <= j < |rows| ::
      Cell(rows[j], DateColumn).Str? && Cell(rows[j], ItemColumn).Str?
    ensures r.Err? ==> r.error.TypeError?
    ensures r.Ok? ==> |r.value| == |rows| && forall j | 0 <= j < |rows| ::
      r.value[j] == Entry(Cell(rows[j], DateColumn).s, Cell(rows[j], ItemColumn).s, Cell(rows[j], AmountColumn))
    decreases |rows|
  {
    if rows == [] then Ok([])
    else
      var date, item := Cell(rows[0], DateColumn), Cell(rows[0], ItemColumn);
      if !date.Str? || !item.Str? then Err(TypeError("'<' not supported between instances of 'str' and another type"))
      else match Entries(rows[1..])
        case Err(e) => Err(e)
        case Ok(rest) => Ok([Entry(date.s, item.s, Cell(rows[0], AmountColumn))] + rest)
  }

  /** No two entries share a (date, item) pair. */
  predicate UniquePairs(es: seq<Entry>)
  {
    forall i, j | 0 <= i < j < |es| :: es[i].date != es[j].date || es[i].item != es[j].item
  }

  /** The amount of the entry for the date and item, NaN when there is none. */
  function Amount(es: seq<Entry>, date: string, item: string): (v: Value)
    ensures (forall j | 0 <= j < |es| :: es[j].date != date || es[j].item != item) ==> v == NaN
    ensures UniquePairs(es) ==> forall j | 0 <= j < |es| && es[j].date == date && es[j].item == item :: v == es[j].amount
    decreases |es|
  {
    if es == [] then NaN
    else if es[0].date == date && es[0].item == item then es[0].amount
    else
      assert UniquePairs(es) ==> UniquePairs(es[1..]) by {
        if UniquePairs(es) {
          forall i, j | 0 <= i < j < |es| - 1 ensures es[1..][i].date != es[1..][j].date || es[1..][i].item != es[1..][j].item {
            assert es[1..][i] == es[i + 1] && es[1..][j] == es[j + 1];
          }
        }
      }
      Amount(es[1..], date, item)
  }

  function Dates(es: seq<Entry>): (r: seq<string>)
    ensures |r| == |es| && forall j | 0 <= j < |es| :: r[j] == es[j].date
  {
    seq(|es|, j requires 0 <= j < |es| => es[j].date)
  }

  function Items(es: seq<Entry>): (r: seq<string>)
    ensures |r| == |es| && forall j | 0 <= j < |es| :: r[j] == es[j].item
  {
    seq(|es|, j requires 0 <= j < |es| => es[j].item)
  }

  /** The row of one report date: the date under `period_ending` and the
      amount of each item. */
  function PivotRow(es: seq<Entry>, date: string, items: seq<string>): (r: Record)
    ensures r.Keys == (set c | c in items) + {PeriodColumn}
    ensures r[PeriodColumn] == Str(date)
    ensures forall c | c in items && c != PeriodColumn :: r[c] == Amount(es, date, c)
  {
    (map c | c in items :: Amount(es, date, c))[PeriodColumn := Str(date)]
  }

  /** The pivot of unique entries: `pivot`, the date columns reordered most
      recent first, the transpose and `reset_index`, with REPORT_DATE renamed. */
  function PivotEntries(es: seq<Entry>): (r: Frame)
  {
    var dates := Ranked(Dates(es));
    var items := Sorted(Items(es));
    Frame([PeriodColumn] + items, seq(|dates|, k requires 0 <= k < |dates| => PivotRow(es, dates[k], items)))
  }

  /** The date of a pivoted row. */
  function PeriodOf(row: Record): Value
  {
    Cell(row, PeriodColumn)
  }

  /** `stock_hk_*` after the sheet arrives: the three columns selected, then
      the pivot. A missing column is a KeyError; a (date, item) pair given
      twice is the ValueError of `pivot`; an item named REPORT_DATE is the
      ValueError of `reset_index`. */
  function Pivot(f: Frame): (r: Result<Frame>)
    ensures (exists c | c in SheetColumns :: c !in f.columns) ==> r.Err? && r.error.KeyError?
    ensures r.Ok? ==> |r.value.columns| >= 1 && r.value.columns[0] == PeriodColumn && Ascending(r.value.columns[1..])
    ensures r.Ok? ==> forall x | x in r.value.rows :: PeriodOf(x).Str?
    ensures r.Ok? ==> forall i, j | 0 <= i < j < |r.value.rows| ::
      TextBefore(PeriodOf(r.value.rows[j]).s, PeriodOf(r.value.rows[i]).s)
  {
    match SelectColumns(f, SheetColumns)
    case Err(e) => Err(e)
    case Ok(g) =>
      match Entries(g.rows)
      case Err(e) => Err(e)
      case Ok(es) =>
        if !UniquePairs(es) then Err(DuplicateError)
        else if DateColumn in Items(es) then Err(DateTakenError)
        else
          var r := PivotEntries(es);
          assert r.columns[1..] == Sorted(Items(es));
          Ok(r)
  }

  /** Cutting the sheet down to its three columns keeps their cells. */
  lemma SelectedCells(f: Frame)
    requires forall c | c in SheetColumns :: c in f.columns
    ensures SelectColumns(f, SheetColumns).Ok?
    ensures forall j, c | 0 <= j < |f.rows| && c in SheetColumns ::
      Cell(SelectColumns(f, SheetColumns).value.rows[j], c) == Cell(f.rows[j], c)
  {
    var g := SelectColumns(f, SheetColumns).value;
    forall j, c | 0 <= j < |f.rows| && c in SheetColumns
      ensures Cell(g.rows[j], c) == Cell(f.rows[j], c)
    {
      assert g.rows[j] == Project(f.rows[j], SheetColumns);
    }
  }

  /** The entries of a sheet the pivot accepts. */
  lemma PivotEntriesOf(f: Frame)
    requires Pivot(f).Ok?
    ensures forall c | c in SheetColumns :: c in f.columns
    ensures var es := Entries(SelectColumns(f, SheetColumns).value.rows);
      && es.Ok? && UniquePairs(es.value) && Pivot(f) == Ok(PivotEntries(es.value))
      && |es.value| == |f.rows| && LabelsText(f.rows)
      && forall j | 0 <= j < |f.rows| ::
           es.value[j] == Entry(Cell(f.rows[j], DateColumn).s, Cell(f.rows[j], ItemColumn).s, Cell(f.rows[j], AmountColumn))
  {
    SelectedCells(f);
  }

  /** The pivot of the entries has a row for the date of each entry, holding
      the entry's amount under its item. */
  lemma KeepsAmount(es: seq<Entry>, j: int)
    requires UniquePairs(es) && 0 <= j < |es| && es[j].item != PeriodColumn
    ensures var out := PivotEntries(es);
      exists k | 0 <= k < |out.rows| ::
        out.rows[k][PeriodColumn] == Str(es[j].date) && es[j].item in out.columns && out.rows[k][es[j].item] == es[j].amount
  {
    var e := es[j];
    var dates := Ranked(Dates(es));
    var items := Sorted(Items(es));
    assert e.date in Dates(es) && e.item in Items(es);
    var k :| 0 <= k < |dates| && dates[k] == e.date;
    var out := PivotEntries(es);
    assert out.rows[k] == PivotRow(es, e.date, items);
    assert e.item in out.columns;
  }

  /** Every report date of the sheet has a row, and that row holds the amount
      of each of the date's items under the item's name. */
  lemma PivotKeepsAmounts(f: Frame, j: int)
    requires Pivot(f).Ok? && 0 <= j < |f.rows|
    requires Cell(f.rows[j], ItemColumn) != Str(PeriodColumn)
    ensures var out := Pivot(f).value;
      exists k | 0 <= k < |out.rows| ::
        PeriodOf(out.rows[k]) == Cell(f.rows[j], DateColumn)
        && Cell(f.rows[j], ItemColumn).s in out.columns
        && Cell(out.rows[k], Cell(f.rows[j], ItemColumn).s) == Cell(f.rows[j], AmountColumn)
  {
    PivotEntriesOf(f);
    var es := Entries(SelectColumns(f, SheetColumns).value.rows).value;
    KeepsAmount(es, j);
  }

  /** Every row of the pivot of the entries is the row of an entry's date, and
      every item column an entry's item. */
  lemma InventsNothing(es: seq<Entry>)
    requires UniquePairs(es)
    ensures var out := PivotEntries(es);
      forall k | 0 <= k < |out.rows| :: exists j | 0 <= j < |es| :: out.rows[k][PeriodColumn] == Str(es[j].date)
    ensures var out := PivotEntries(es);
      forall c | c in out.columns[1..] :: exists j | 0 <= j < |es| :: es[j].item == c
  {
    var dates := Ranked(Dates(es));
    var items := Sorted(Items(es));
    var out := PivotEntries(es);
    forall k | 0 <= k < |out.rows|
      ensures exists j | 0 <= j < |es| :: out.rows[k][PeriodColumn] == Str(es[j].date)
    {
      assert out.rows[k] == PivotRow(es, dates[k], items);
      assert dates[k] in Dates(es);
    }
    assert out.columns[1..] == items;
  }

  /** Every row of the pivot is the row of a report date of the sheet, and
      every item column is an item of the sheet. */
  lemma PivotInventsNothing(f: Frame)
    requires Pivot(f).Ok?
    ensures var out := Pivot(f).value;
      forall k | 0 <= k < |out.rows| :: exists j | 0 <= j < |f.rows| :: PeriodOf(out.rows[k]) == Cell(f.rows[j], DateColumn)
    ensures var out := Pivot(f).value;
      forall c | c in out.columns[1..] :: exists j | 0 <= j < |f.rows| :: Cell(f.rows[j], ItemColumn) == Str(c)
  {
    PivotEntriesOf(f);
    var es := Entries(SelectColumns(f, SheetColumns).value.rows).value;
    InventsNothing(es);
  }

  /** Where no entry gives an amount for a row's date and an item, the pivot of
      the entries holds NaN. */
  lemma GapIsNaN(es: seq<Entry>, k: int, c: string)
    requires 0 <= k < |PivotEntries(es).rows|
    requires c in PivotEntries(es).columns[1..] && c != PeriodColumn
    requires forall j | 0 <= j < |es| :: Str(es[j].date) != PeriodOf(PivotEntries(es).rows[k]) || es[j].item != c
    ensures Cell(PivotEntries(es).rows[k], c) == NaN
  {
    var dates := Ranked(Dates(es));
    var items := Sorted(Items(es));
    var out := PivotEntries(es);
    assert out.rows[k] == PivotRow(es, dates[k], items);
    assert out.columns[1..] == items;
    assert PeriodOf(out.rows[k]) == Str(dates[k]);
  }

  /** Where no row of the sheet gives an amount for a date and an item, the
      pivot holds NaN. */
  lemma PivotFillsGaps(f: Frame, k: int, c: string)
    requires Pivot(f).Ok? && 0 <= k < |Pivot(f).value.rows|
    requires c in Pivot(f).value.columns[1..] && c != PeriodColumn
    requires forall j | 0 <= j < |f.rows| ::
      Cell(f.rows[j], DateColumn) != PeriodOf(Pivot(f).value.rows[k]) || Cell(f.rows[j], ItemColumn) != Str(c)
    ensures Cell(Pivot(f).value.rows[k], c) == NaN
  {
    PivotEntriesOf(f);
    var es := Entries(SelectColumns(f, SheetColumns).value.rows).value;
    var out := PivotEntries(es);
    forall j | 0 <= j < |es|
      ensures Str(es[j].date) != PeriodOf(out.rows[k]) || es[j].item != c
    {
      assert Cell(f.rows[j], DateColumn) != PeriodOf(out.rows[k]) || Cell(f.rows[j], ItemColumn) != Str(c);
    }
    GapIsNaN(es, k, c);
  }

  /** Two rows of the sheet for one date and one item make the pivot fail. */
  lemma PivotRefusesDuplicates(f: Frame, i: int, j: int)
    requires forall c | c in SheetColumns :: c in f.columns
    requires forall m | 0 <= m < |f.rows| :: Cell(f.rows[m], DateColumn).Str? && Cell(f.rows[m], ItemColumn).Str?
    requires 0 <= i < j < |f.rows|
    requires Cell(f.rows[i], DateColumn) == Cell(f.rows[j], DateColumn)
    requires Cell(f.rows[i], ItemColumn) == Cell(f.rows[j], ItemColumn)
    ensures Pivot(f) == Err(DuplicateError)
  {
    SelectedCells(f);
    var g := SelectColumns(f, SheetColumns).value;
    assert Entries(g.rows).Ok?;
    var es := Entries(g.rows).value;
    assert es[i].date == es[j].date && es[i].item == es[j].item;
  }

  /** Every report date and item name of the sheet is text. */
  predicate LabelsText(rows: seq<Record>)
  {
    forall j | 0 <= j < |rows| :: Cell(rows[j], DateColumn).Str? && Cell(rows[j], ItemColumn).Str?
  }

  /** No item of the sheet is named after the date column. */
  predicate NoDateItem(rows: seq<Record>)
  {
    forall j | 0 <= j < |rows| :: Cell(rows[j], ItemColumn) != Str(DateColumn)
  }

  /** No two rows of the sheet share a (report date, item name) pair. */
  predicate PairsDistinct(rows: seq<Record>)
  {
    forall i, j | 0 <= i < j < |rows| ::
      Cell(rows[i], DateColumn) != Cell(rows[j], DateColumn) || Cell(rows[i], ItemColumn) != Cell(rows[j], ItemColumn)
  }

  /** Entries read from rows are unique exactly when the rows' pairs are
      distinct. */
  lemma EntriesPairs(rows: seq<Record>)
    requires Entries(rows).Ok?
    ensures UniquePairs(Entries(rows).value) <==> PairsDistinct(rows)
  {
    var es := Entries(rows).value;
    assert forall j | 0 <= j < |rows| :: Cell(rows[j], DateColumn) == Str(es[j].date) && Cell(rows[j], ItemColumn) == Str(es[j].item);
  }

  /** Entries read from rows name no item REPORT_DATE exactly when no row
      does. */
  lemma EntriesItems(rows: seq<Record>)
    requires Entries(rows).Ok?
    ensures DateColumn !in Items(Entries(rows).value) <==> NoDateItem(rows)
  {
    var es := Entries(rows).value;
    assert forall j | 0 <= j < |rows| :: Cell(rows[j], ItemColumn) == Str(es[j].item);
  }

  /** The sheet cut to its three columns reads as entries exactly when its
      labels are text, and those entries are unique exactly when its pairs
      are distinct. */
  lemma SheetEntries(f: Frame)
    requires forall c | c in SheetColumns :: c in f.columns
    ensures SelectColumns(f, SheetColumns).Ok?
    ensures var es := Entries(SelectColumns(f, SheetColumns).value.rows);
      && (es.Ok? <==> LabelsText(f.rows))
      && (es.Ok? ==> (UniquePairs(es.value) <==> PairsDistinct(f.rows)))
  {
    SelectedCells(f);
    var g := SelectColumns(f, SheetColumns).value;
    assert DateColumn in SheetColumns && ItemColumn in SheetColumns;
    assert LabelsText(g.rows) == LabelsText(f.rows);
    assert PairsDistinct(g.rows) == PairsDistinct(f.rows);
    if LabelsText(g.rows) {
      EntriesPairs(g.rows);
    }
  }

  /** The sheet's entries name no item REPORT_DATE exactly when no row of the
      sheet does. */
  lemma SheetItems(f: Frame)
    requires forall c | c in SheetColumns :: c in f.columns
    requires LabelsText(f.rows)
    ensures SelectColumns(f, SheetColumns).Ok?
    ensures var es := Entries(SelectColumns(f, SheetColumns).value.rows);
      es.Ok? && (DateColumn !in Items(es.value) <==> NoDateItem(f.rows))
  {
    SelectedCells(f);
    var g := SelectColumns(f, SheetColumns).value;
    assert DateColumn in SheetColumns && ItemColumn in SheetColumns;
    assert LabelsText(g.rows);
    assert NoDateItem(g.rows) == NoDateItem(f.rows);
    EntriesItems(g.rows);
  }

  /** The pivot succeeds exactly when the three columns are there, every label
      is text, no (date, item) pair repeats and no item is named REPORT_DATE;
      each failure has its own error, checked in that order. */
  lemma PivotOkIff(f: Frame)
    ensures Pivot(f).Ok? <==>
      (forall c | c in SheetColumns :: c in f.columns) && LabelsText(f.rows) && PairsDistinct(f.rows) && NoDateItem(f.rows)
    ensures (forall c | c in SheetColumns :: c in f.columns) && !LabelsText(f.rows) ==>
      Pivot(f).Err? && Pivot(f).error.TypeError?
    ensures (forall c | c in SheetColumns :: c in f.columns) && LabelsText(f.rows) && !PairsDistinct(f.rows) ==>
      Pivot(f) == Err(DuplicateError)
    ensures (forall c | c in SheetColumns :: c in f.columns) && LabelsText(f.rows) && PairsDistinct(f.rows) && !NoDateItem(f.rows) ==>
      Pivot(f) == Err(DateTakenError)
  {
    if forall c | c in SheetColumns :: c in f.columns {
      SheetEntries(f);
      if LabelsText(f.rows) {
        SheetItems(f);
      }
    }
  }

  /** The k-th row of the pivot of the entries is the row of the k-th date,
      greatest first. */
  lemma PivotDates(es: seq<Entry>)
    ensures var out := PivotEntries(es);
      && |out.rows| == |Ranked(Dates(es))|
      && forall k | 0 <= k < |out.rows| :: out.rows[k][PeriodColumn] == Str(Ranked(Dates(es))[k])
  {
    var dates := Ranked(Dates(es));
    var items := Sorted(Items(es));
    var out := PivotEntries(es);
    forall k | 0 <= k < |out.rows| ensures out.rows[k][PeriodColumn] == Str(dates[k]) {
      assert out.rows[k] == PivotRow(es, dates[k], items);
    }
  }

  /** The pivot of unique entries has one row per distinct date of the
      entries. */
  lemma {:induction false} RowPerDate(es: seq<Entry>, d: string)
    ensures var out := PivotEntries(es);
      (exists k | 0 <= k < |out.rows| :: out.rows[k][PeriodColumn] == Str(d)) <==> (exists j | 0 <= j < |es| :: es[j].date == d)
    ensures var out := PivotEntries(es);
      forall k, m | 0 <= k < m < |out.rows| :: out.rows[k][PeriodColumn] != out.rows[m][PeriodColumn]
  {
    var dates := Ranked(Dates(es));
    var out := PivotEntries(es);
    PivotDates(es);
    assert (exists j | 0 <= j < |es| :: es[j].date == d) <==> d in Dates(es) by {
      if d in Dates(es) {
        var j :| 0 <= j < |es| && Dates(es)[j] == d;
      }
    }
    assert (exists k | 0 <= k < |out.rows| :: out.rows[k][PeriodColumn] == Str(d)) <==> d in dates by {
      if d in dates {
        var k :| 0 <= k < |dates| && dates[k] == d;
        assert out.rows[k][PeriodColumn] == Str(d);
      }
    }
    forall k, m | 0 <= k < m < |out.rows| ensures out.rows[k][PeriodColumn] != out.rows[m][PeriodColumn] {
      TextBeforeIrreflexive(dates[k]);
    }
  }

  /** Each report date of the sheet has exactly one row in the pivot: the rows'
      dates are the sheet's dates, and no date has two rows. */
  lemma PivotRowPerDate(f: Frame, d: string)
    requires Pivot(f).Ok?
    ensures var out := Pivot(f).value;
      (exists k | 0 <= k < |out.rows| :: PeriodOf(out.rows[k]) == Str(d)) <==>
      (exists j | 0 <= j < |f.rows| :: Cell(f.rows[j], DateColumn) == Str(d))
    ensures var out := Pivot(f).value;
      forall k, m | 0 <= k < m < |out.rows| :: PeriodOf(out.rows[k]) != PeriodOf(out.rows[m])
  {
    PivotEntriesOf(f);
    var es := Entries(SelectColumns(f, SheetColumns).value.rows).value;
    RowPerDate(es, d);
    var out := PivotEntries(es);
    assert forall k | 0 <= k < |out.rows| :: PeriodColumn in out.rows[k];
    assert (exists j | 0 <= j < |f.rows| :: Cell(f.rows[j], DateColumn) == Str(d)) <==> (exists j | 0 <= j < |es| :: es[j].date == d);
  }

  /** `stock_hk_income_statement`, `stock_hk_balance_sheet` and
      `stock_hk_cash_flow`: the sheet of the formatted symbol, with the limit
      and the period as given, pivoted. A failed sheet call raises. */
  function HkStatement(symbol: string, limit: int, period: string,
                       normalize: string -> (string, string, string),
                       sheet: (string, int, string) -> Result<Frame>): (r: Result<Frame>)
    ensures var s := sheet(normalize(symbol).1, limit, period);
      (s.Err? ==> r == Err(s.error)) && (s.Ok? ==> r == Pivot(s.value))
  {
    var (_, symbolF, _) := normalize(symbol);
    match sheet(symbolF, limit, period)
    case Err(e) => Err(e)
    case Ok(df) => Pivot(df)
  }

  /** The A-share sheet for a period: yearly for "annual", per report for
      "quarter"; any other period is refused. */
  function ByPeriod(symbolEm: string, period: string,
                    yearly: string -> Result<Frame>, report: string -> Result<Frame>): (r: Result<Frame>)
    ensures period == "annual" ==> r == yearly(symbolEm)
    ensures period == "quarter" ==> r == report(symbolEm)
    ensures period != "annual" && period != "quarter" ==> r == Err(PeriodError)
  {
    if period == "annual" then yearly(symbolEm)
    else if period == "quarter" then report(symbolEm)
    else Err(PeriodError)
  }

  /** `ak_stock_income_statement`, `ak_stock_balance_sheet` and
      `ak_stock_cash_flow`. Hong Kong goes to the pivoted sheet with the limit
      and the period passed on unchecked; every other market asks for the
      market followed by the bare code, by period. */
  function Statement(symbol: string, limit: int, period: string,
                     normalize: string -> (string, string, string),
                     sheet: (string, int, string) -> Result<Frame>,
                     yearly: string -> Result<Frame>, report: string -> Result<Frame>): (r: Result<Frame>)
    ensures var (symbolB, _, market) := normalize(symbol);
      && (market == "HK" ==> r == HkStatement(symbol, limit, period, normalize, sheet))
      && (market != "HK" && period == "annual" ==> r == yearly(market + symbolB))
      && (market != "HK" && period == "quarter" ==> r == report(market + symbolB))
      && (market != "HK" && period != "annual" && period != "quarter" ==> r == Err(PeriodError))
  {
    var (symbolB, _, market) := normalize(symbol);
    if market == "HK" then HkStatement(symbol, limit, period, normalize, sheet)
    else ByPeriod(market + symbolB, period, yearly, report)
  }
}
