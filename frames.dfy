/** The pandas DataFrame operations the modelled code applies to its frames:
    cell lookup, dropping, renaming and assigning columns, concatenation, and
    masking rows. */
module Frames {

  import opened Common

  /** The cell of `r` in column `c`; a cell a row lacks reads as NaN. */
  function Cell(r: Record, c: string): Value
  {
    if c in r then r[c] else NaN
  }

  /** `df.drop(cols, axis=1)`: the columns go, in every row. A label the frame
      lacks is a KeyError. */
  function DropColumns(f: Frame, cols: seq<string>): (r: Result<Frame>)
    ensures r.Ok? <==> forall c | c in cols :: c in f.columns
    ensures r.Err? ==> r.error.KeyError? && r.error.key in cols && r.error.key !in f.columns
    ensures r.Ok? ==> forall c :: c in r.value.columns <==> c in f.columns && c !in cols
    ensures r.Ok? ==> |r.value.rows| == |f.rows|
    ensures r.Ok? ==> forall i | 0 <= i < |f.rows| ::
      r.value.rows[i].Keys == f.rows[i].Keys - (set c | c in cols) &&
      forall c | c in r.value.rows[i] :: r.value.rows[i][c] == f.rows[i][c]
  {
    match FirstMissing(cols, c => c in f.columns)
    case Some(c) => Err(KeyError(c))
    case None =>
      Ok(Frame(Without(f.columns, cols),
               seq(|f.rows|, i requires 0 <= i < |f.rows| => map c | c in f.rows[i] && c !in cols :: f.rows[i][c])))
  }

  /** The labels of `labels` not in `cols`, in order. */
  function Without(labels: seq<string>, cols: seq<string>): (r: seq<string>)
    ensures forall c :: c in r <==> c in labels && c !in cols
  {
    if labels == [] then []
    else (if labels[0] in cols then [] else [labels[0]]) + Without(labels[1..], cols)
  }

  /** `df.rename(columns={from: to})`: a label the frame lacks is ignored. */
  function RenameColumn(f: Frame, from: string, to: string): (r: Frame)
    ensures |r.columns| == |f.columns| && |r.rows| == |f.rows|
    ensures forall i | 0 <= i < |f.columns| :: r.columns[i] == if f.columns[i] == from then to else f.columns[i]
    ensures forall i | 0 <= i < |f.rows| && from in f.rows[i] :: to in r.rows[i] && r.rows[i][to] == f.rows[i][from]
    ensures from !in f.columns ==> r.columns == f.columns
  {
    Frame(seq(|f.columns|, i requires 0 <= i < |f.columns| => if f.columns[i] == from then to else f.columns[i]),
          seq(|f.rows|, i requires 0 <= i < |f.rows| => RenameKey(f.rows[i], from, to)))
  }

  /** One row of a rename. */
  function RenameKey(r: Record, from: string, to: string): (s: Record)
    ensures from in r ==> to in s && s[to] == r[from]
    ensures from !in r ==> s == r
  {
    if from in r then (r - {from})[to := r[from]] else r
  }

  /** The record with each aliased column renamed to its field, as a pydantic
      model reads a record through its `__alias_dict__`: (field, column) pairs. */
  function Unalias(rec: Record, aliases: seq<(string, string)>): Record
    decreases |aliases|
  {
    if aliases == [] then rec
    else Unalias(RenameKey(rec, aliases[0].1, aliases[0].0), aliases[1..])
  }

  /** A column no alias pair names is read as it is. */
  lemma {:induction false} UnaliasKeeps(rec: Record, aliases: seq<(string, string)>, k: string)
    requires k in rec && forall j | 0 <= j < |aliases| :: k != aliases[j].1 && k != aliases[j].0
    ensures k in Unalias(rec, aliases) && Unalias(rec, aliases)[k] == rec[k]
    decreases |aliases|
  {
    if aliases != [] {
      var rec1 := RenameKey(rec, aliases[0].1, aliases[0].0);
      assert k in rec1 && rec1[k] == rec[k];
      assert forall j | 0 <= j < |aliases[1..]| :: aliases[1..][j] == aliases[j + 1];
      UnaliasKeeps(rec1, aliases[1..], k);
    }
  }

  /** An aliased column whose names no other pair mentions ends up under its
      field, with its value. */
  lemma {:induction false} UnaliasMoves(rec: Record, aliases: seq<(string, string)>, j: int)
    requires 0 <= j < |aliases| && aliases[j].1 in rec
    requires forall m | 0 <= m < |aliases| && m != j ::
      aliases[m].0 != aliases[j].0 && aliases[m].1 != aliases[j].0 &&
      aliases[m].0 != aliases[j].1 && aliases[m].1 != aliases[j].1
    ensures aliases[j].0 in Unalias(rec, aliases) && Unalias(rec, aliases)[aliases[j].0] == rec[aliases[j].1]
    decreases |aliases|
  {
    var rec1 := RenameKey(rec, aliases[0].1, aliases[0].0);
    if j == 0 {
      assert forall m | 0 <= m < |aliases[1..]| :: aliases[1..][m] == aliases[m + 1];
      UnaliasKeeps(rec1, aliases[1..], aliases[0].0);
    } else {
      assert rec1[aliases[j].1] == rec[aliases[j].1];
      UnaliasMoves(rec1, aliases[1..], j - 1);
    }
  }

  /** Every record read through the same aliases, in order. */
  function UnaliasEach(rs: seq<Record>, aliases: seq<(string, string)>): (vs: seq<Record>)
    ensures |vs| == |rs| && forall i | 0 <= i < |rs| :: vs[i] == Unalias(rs[i], aliases)
  {
    seq(|rs|, i requires 0 <= i < |rs| => Unalias(rs[i], aliases))
  }

  /** `df[name] = values`: a new column goes last; an existing one keeps its
      place. */
  function AssignColumn(f: Frame, name: string, values: seq<Value>): (r: Frame)
    requires |values| == |f.rows|
    ensures name in r.columns && |r.rows| == |f.rows|
    ensures forall i | 0 <= i < |f.rows| :: r.rows[i] == f.rows[i][name := values[i]]
    ensures name in f.columns ==> r.columns == f.columns
    ensures name !in f.columns ==> r.columns == f.columns + [name]
  {
    Frame(if name in f.columns then f.columns else f.columns + [name],
          seq(|f.rows|, i requires 0 <= i < |f.rows| => f.rows[i][name := values[i]]))
  }

  /** `df[name] = value`, one value broadcast to every row. */
  function Broadcast(f: Frame, name: string, value: Value): (r: Frame)
    ensures name in r.columns && |r.rows| == |f.rows|
    ensures forall i | 0 <= i < |f.rows| :: r.rows[i] == f.rows[i][name := value]
  {
    AssignColumn(f, name, seq(|f.rows|, _ => value))
  }

  /** The row as a frame with `cols` holds it: missing cells are NaN. */
  function Fill(r: Record, cols: seq<string>): (s: Record)
    ensures s.Keys == set c | c in cols
    ensures forall c | c in cols :: s[c] == Cell(r, c)
  {
    map c | c in cols :: Cell(r, c)
  }

  /** `pd.concat([a, b], ignore_index=True)`: the rows of `a` then those of
      `b`, over the columns of `a` followed by the new columns of `b`. */
  function Concat(a: Frame, b: Frame): (r: Frame)
    ensures r.columns == a.columns + Without(b.columns, a.columns)
    ensures |r.rows| == |a.rows| + |b.rows|
    ensures forall i | 0 <= i < |a.rows| :: r.rows[i] == Fill(a.rows[i], r.columns)
    ensures forall i | 0 <= i < |b.rows| :: r.rows[|a.rows| + i] == Fill(b.rows[i], r.columns)
  {
    var cols := a.columns + Without(b.columns, a.columns);
    Frame(cols, seq(|a.rows| + |b.rows|, i requires 0 <= i < |a.rows| + |b.rows| =>
      if i < |a.rows| then Fill(a.rows[i], cols) else Fill(b.rows[i - |a.rows|], cols)))
  }

  /** A cell of a row of the first frame survives the concatenation. */
  lemma ConcatCellFirst(a: Frame, b: Frame, i: int, c: string)
    requires 0 <= i < |a.rows| && c in a.columns
    ensures Cell(Concat(a, b).rows[i], c) == Cell(a.rows[i], c)
  {
    assert c in Concat(a, b).columns;
  }

  /** A cell of a row of the second frame survives the concatenation, its row
      moved down past the rows of the first. */
  lemma ConcatCellSecond(a: Frame, b: Frame, j: int, c: string)
    requires 0 <= j < |b.rows| && c in b.columns
    ensures Cell(Concat(a, b).rows[|a.rows| + j], c) == Cell(b.rows[j], c)
  {
    assert c in Concat(a, b).columns;
  }
}
