/** equity_ownership.py: the top shareholders of a company for the quarter of
    a date. The query date defaults to today and is rounded to its most recent
    quarter end; the validated records come back sorted by filing date, most
    recent first, with records of one date in their input order.

    The clock (`today`), `most_recent_quarter` and the pydantic validation of
    one record are parameters. */
module EquityOwnership {

  import opened Common
  import opened Dates

  /** `time_validate`: None is today; text is read as "%Y-%m-%d"; every value
      then goes through `most_recent_quarter`. Text in another format is the
      ValueError of `strptime`. */
  function TimeValidate(v: Value, today: Date, mostRecentQuarter: Value -> Result<Value>): (r: Result<Value>)
    ensures v == Null ==> r == mostRecentQuarter(DateVal(today))
    ensures v.Str? && ParseDashed(v.s).None? ==> r.Err? && r.error.ValueError?
    ensures v.Str? && ParseDashed(v.s).Some? ==> r == mostRecentQuarter(DateVal(ParseDashed(v.s).value))
    ensures v != Null && !v.Str? ==> r == mostRecentQuarter(v)
  {
    if v == Null then mostRecentQuarter(DateVal(today))
    else if v.Str? then
      match ParseDashed(v.s)
      case None => Err(ValueError("time data '" + v.s + "' does not match format '%Y-%m-%d'"))
      case Some(d) => mostRecentQuarter(DateVal(d))
    else mostRecentQuarter(v)
  }

  /** A date given as "%Y-%m-%d" text and the same date given as a date value
      are rounded to the same quarter. */
  lemma TextDateAgrees(d: Date, today: Date, mostRecentQuarter: Value -> Result<Value>)
    requires ValidDate(d) && d.year >= 1000
    ensures TimeValidate(Str(FormatDashed(d)), today, mostRecentQuarter) == TimeValidate(DateVal(d), today, mostRecentQuarter)
  {
    DashedRoundTrip(d);
  }

  /** One validated `AKShareEquityOwnershipData`: its filing date and the rest
      of its fields. */
  datatype Ownership = Ownership(filingDate: Date, fields: Record)

  /** The records in the order `sort(key=filing_date, reverse=True)` leaves
      them: no record has an earlier filing date than one after it. */
  predicate NewestFirst(s: seq<Ownership>)
  {
    forall i, j | 0 <= i < j < |s| :: !Earlier(s[i].filingDate, s[j].filingDate)
  }

  /** Where a stable descending sort places `x` after the records `t`: behind
      every record filed no earlier, ahead of the earlier ones at the end. */
  function Slot(t: seq<Ownership>, x: Ownership): (p: nat)
    ensures p <= |t|
    ensures forall k | p <= k < |t| :: Earlier(t[k].filingDate, x.filingDate)
    ensures p == 0 || !Earlier(t[p - 1].filingDate, x.filingDate)
    decreases |t|
  {
    if t == [] || !Earlier(t[|t| - 1].filingDate, x.filingDate) then |t|
    else Slot(t[..|t| - 1], x)
  }

  /** The slot is the only place with those two properties. */
  lemma SlotUnique(t: seq<Ownership>, x: Ownership, j: nat)
    requires j <= |t|
    requires forall k | j <= k < |t| :: Earlier(t[k].filingDate, x.filingDate)
    requires j == 0 || !Earlier(t[j - 1].filingDate, x.filingDate)
    ensures j == Slot(t, x)
  {
  }

  /** `t` with `x` placed in its slot. */
  function Insert(t: seq<Ownership>, x: Ownership): seq<Ownership>
  {
    var p := Slot(t, x);
    t[..p] + [x] + t[p..]
  }

  /** Python's stable sort by filing date in reverse: each record in turn is
      placed behind the records already placed that were filed no earlier. */
  function SortByFilingDate(s: seq<Ownership>): (r: seq<Ownership>)
    ensures |r| == |s|
    decreases |s|
  {
    if s == [] then [] else Insert(SortByFilingDate(s[..|s| - 1]), s[|s| - 1])
  }

  lemma InsertKeepsOrder(t: seq<Ownership>, x: Ownership)
    requires NewestFirst(t)
    ensures NewestFirst(Insert(t, x))
  {
    var p := Slot(t, x);
    var r := Insert(t, x);
    forall i, j | 0 <= i < j < |r|
      ensures !Earlier(r[i].filingDate, r[j].filingDate)
    {
      if i < p && j == p {
        assert r[i] == t[i] && r[j] == x;
        assert !Earlier(t[i].filingDate, t[p - 1].filingDate);
      } else if i < p && j > p {
        assert r[i] == t[i] && r[j] == t[j - 1];
      } else if i == p {
        assert r[i] == x && r[j] == t[j - 1];
      } else if i > p {
        assert r[i] == t[i - 1] && r[j] == t[j - 1];
      }
    }
  }

  /** The sort leaves the records newest first. */
  lemma {:induction false} SortedNewestFirst(s: seq<Ownership>)
    ensures NewestFirst(SortByFilingDate(s))
    decreases |s|
  {
    if s != [] {
      SortedNewestFirst(s[..|s| - 1]);
      InsertKeepsOrder(SortByFilingDate(s[..|s| - 1]), s[|s| - 1]);
    }
  }

  /** Insertion adds exactly the one record. */
  lemma InsertAdds(t: seq<Ownership>, x: Ownership)
    ensures multiset(Insert(t, x)) == multiset(t) + multiset{x}
  {
    var p := Slot(t, x);
    assert t == t[..p] + t[p..];
  }

  /** The sort neither loses nor adds a record. */
  lemma {:induction false} SortPermutes(s: seq<Ownership>)
    ensures multiset(SortByFilingDate(s)) == multiset(s)
    decreases |s|
  {
    if s != [] {
      var init := s[..|s| - 1];
      SortPermutes(init);
      InsertAdds(SortByFilingDate(init), s[|s| - 1]);
      assert s == init + [s[|s| - 1]];
    }
  }

  /** The test selecting the records filed on `d`. */
  function FiledOn(d: Date): Ownership -> bool
  {
    (o: Ownership) => o.filingDate == d
  }

  /** The filtered insertion splits at the slot, as the filtered records do. */
  lemma InsertFilters(t: seq<Ownership>, x: Ownership, keep: Ownership -> bool)
    ensures var p := Slot(t, x);
      Filter(Insert(t, x), keep) == Filter(t[..p], keep) + Filter([x], keep) + Filter(t[p..], keep)
    ensures var p := Slot(t, x);
      Filter(t, keep) == Filter(t[..p], keep) + Filter(t[p..], keep)
  {
    var p := Slot(t, x);
    var front, back := t[..p], t[p..];
    assert Insert(t, x) == (front + [x]) + back;
    assert t == front + back;
    FilterConcat(front + [x], back, keep);
    FilterConcat(front, [x], keep);
    FilterConcat(front, back, keep);
  }

  /** Putting the filtered pieces back together, when either the inserted
      record or the tail is filtered away. */
  lemma Reassemble(whole: seq<Ownership>, before: seq<Ownership>, front: seq<Ownership>,
                   mid: seq<Ownership>, back: seq<Ownership>)
    requires whole == front + mid + back && before == front + back
    requires mid == [] || back == []
    ensures whole == before + mid
  {
  }

  lemma InsertStable(t: seq<Ownership>, x: Ownership, d: Date)
    ensures Filter(Insert(t, x), FiledOn(d)) == Filter(t, FiledOn(d)) + Filter([x], FiledOn(d))
  {
    var keep := FiledOn(d);
    var p := Slot(t, x);
    InsertFilters(t, x, keep);
    if x.filingDate == d {
      NoneFiledOn(t[p..], d);
    } else {
      assert Filter([x], keep) == [] by { assert [x][1..] == []; }
    }
    Reassemble(Filter(Insert(t, x), keep), Filter(t, keep), Filter(t[..p], keep), Filter([x], keep), Filter(t[p..], keep));
  }

  /** No record earlier than `d` is filed on `d`. */
  lemma {:induction false} NoneFiledOn(u: seq<Ownership>, d: Date)
    requires forall k | 0 <= k < |u| :: Earlier(u[k].filingDate, d)
    ensures Filter(u, FiledOn(d)) == []
    decreases |u|
  {
    if u != [] {
      assert !FiledOn(d)(u[0]);
      NoneFiledOn(u[1..], d);
    }
  }

  /** Sorting one more record keeps the records of one filing date in their
      input order, if sorting the others did. */
  lemma SortStableStep(init: seq<Ownership>, x: Ownership, d: Date)
    requires Filter(SortByFilingDate(init), FiledOn(d)) == Filter(init, FiledOn(d))
    ensures Filter(SortByFilingDate(init + [x]), FiledOn(d)) == Filter(init + [x], FiledOn(d))
  {
    var s := init + [x];
    assert s[..|s| - 1] == init && s[|s| - 1] == x;
    assert SortByFilingDate(s) == Insert(SortByFilingDate(init), x);
    InsertStable(SortByFilingDate(init), x, d);
    FilterConcat(init, [x], FiledOn(d));
  }

  /** The sort is stable: the records of any one filing date keep their input
      order. */
  lemma {:induction false} SortStable(s: seq<Ownership>, d: Date)
    ensures Filter(SortByFilingDate(s), FiledOn(d)) == Filter(s, FiledOn(d))
    decreases |s|
  {
    if s != [] {
      var init := s[..|s| - 1];
      SortStable(init, d);
      assert s == init + [s[|s| - 1]];
      SortStableStep(init, s[|s| - 1], d);
    }
  }

  /** One step of the insertion sort: the record at `i` moves left past the
      records filed earlier than it, which each move one place right. */
  method InsertAt(a: array<Ownership>, i: nat)
    requires i < a.Length
    modifies a
    ensures a[..i + 1] == Insert(old(a[..i]), old(a[i]))
    ensures a[i + 1..] == old(a[i + 1..])
  {
    ghost var t := a[..i];
    ghost var rest := a[i + 1..];
    var x := a[i];
    var j := i;
    while j > 0 && Earlier(a[j - 1].filingDate, x.filingDate)
      invariant 0 <= j <= i
      invariant a[..j] == t[..j]
      invariant a[j + 1..i + 1] == t[j..]
      invariant a[i + 1..] == rest
      invariant forall k | j <= k < i :: Earlier(t[k].filingDate, x.filingDate)
    {
      a[j] := a[j - 1];
      j := j - 1;
    }
    a[j] := x;
    SlotUnique(t, x, j);
    assert a[..i + 1] == a[..j] + [x] + a[j + 1..i + 1];
  }

  /** `own.sort(key=lambda x: x.filing_date, reverse=True)`, in place, as an
      insertion sort. */
  method SortOwners(a: array<Ownership>)
    modifies a
    ensures a[..] == SortByFilingDate(old(a[..]))
  {
    ghost var s := a[..];
    var i := 0;
    while i < a.Length
      invariant 0 <= i <= a.Length
      invariant a[..i] == SortByFilingDate(s[..i])
      invariant a[i..] == s[i..]
    {
      assert s[..i + 1] == s[..i] + [a[i]];
      InsertAt(a, i);
      i := i + 1;
    }
    assert s[..a.Length] == s;
  }

  /** `transform_data`: the records validated, then sorted newest first. */
  method TransformData(data: seq<Record>, validate: Record -> Result<Ownership>) returns (r: Result<seq<Ownership>>)
    ensures MapAll(data, validate).Err? ==> r == Err(MapAll(data, validate).error)
    ensures MapAll(data, validate).Ok? ==> r == Ok(SortByFilingDate(MapAll(data, validate).value))
  {
    var checked := MapAll(data, validate);
    if checked.Err? {
      return Err(checked.error);
    }
    var own := checked.value;
    var a := new Ownership[|own|](i requires 0 <= i < |own| => own[i]);
    assert a[..] == own;
    SortOwners(a);
    return Ok(a[..]);
  }
}
