/** A SQLite database file as the equity caches use it: named tables of rows,
    written with `DataFrame.to_sql(if_exists="replace")`, read with
    `SELECT *`, and updated symbol by symbol with DELETE then INSERT inside one
    transaction that the `with sqlite3.connect(...)` block commits on success
    and rolls back on an exception. */
module SqlTable {

  import opened Common

  /** The columns of the `equity_info` schema after `symbol`, in order. */
  const InfoFields: seq<string> := [
    "org_name_en", "main_operation_business", "org_cn_introduction", "chairman",
    "org_website", "reg_address_cn", "office_address_cn", "telephone", "postcode",
    "provincial_name", "staff_num", "affiliate_industry", "operating_scope", "listed_date",
    "org_name_cn", "org_short_name_cn", "org_short_name_en", "org_id", "established_date",
    "actual_issue_vol", "reg_asset", "issue_price", "currency"]

  /** The columns of the `equity_info` table, in schema order. */
  const EquityInfoColumns: seq<string> := ["symbol"] + InfoFields

  lemma SchemaShape()
    ensures "symbol" !in InfoFields && "currency" in InfoFields
    ensures |EquityInfoColumns| == 24 && EquityInfoColumns[0] == "symbol" && EquityInfoColumns[1..] == InfoFields
  {
    assert InfoFields[22] == "currency";
  }

  /** A table: its column names in order and its rows in rowid order. */
  datatype Table = Table(columns: seq<string>, rows: seq<Record>)

  /** The `symbol` cell of a row; a row without one holds NULL there. */
  function SymbolOf(r: Record): Value
  {
    if "symbol" in r then r["symbol"] else Null
  }

  /** SQL's `=`: NULL (and NaN, which SQLite stores as NULL) equals nothing. */
  predicate SqlEquals(a: Value, b: Value)
  {
    !IsNA(a) && !IsNA(b) && a == b
  }

  /** The row INSERT stores: the given cells, NULL in every other column. */
  function Stored(columns: seq<string>, r: Record): (s: Record)
    ensures s.Keys == set c | c in columns
    ensures forall c | c in columns && c in r :: s[c] == r[c]
    ensures forall c | c in columns && c !in r :: s[c] == Null
  {
    map c | c in columns :: if c in r then r[c] else Null
  }

  /** `DELETE FROM t WHERE symbol = ?`. */
  function Without(rows: seq<Record>, symbol: Value): (r: seq<Record>)
    ensures forall x | x in r :: x in rows && !SqlEquals(SymbolOf(x), symbol)
    ensures forall x | x in rows && !SqlEquals(SymbolOf(x), symbol) :: x in r
  {
    if rows == [] then []
    else (if SqlEquals(SymbolOf(rows[0]), symbol) then [] else [rows[0]]) + Without(rows[1..], symbol)
  }

  /** One iteration of the `update_or_insert` loop. */
  function Put(rows: seq<Record>, columns: seq<string>, r: Record): seq<Record>
  {
    Without(rows, SymbolOf(r)) + [Stored(columns, r)]
  }

  /** The table rows after the loop has handled every row of `incoming`. */
  function UpsertRows(rows: seq<Record>, columns: seq<string>, incoming: seq<Record>): seq<Record>
  {
    if incoming == [] then rows
    else Put(UpsertRows(rows, columns, incoming[..|incoming| - 1]), columns, incoming[|incoming| - 1])
  }

  /** pandas' error for `SELECT * FROM name` when there is no table `name`. */
  function QueryFailedError(name: string): Error
  {
    DatabaseError("Execution failed on sql 'SELECT * FROM " + name + "': no such table: " + name)
  }

  /** SQLite's refusal of an INSERT naming a column table `name` lacks. */
  function NoColumnError(name: string, c: string): Error
  {
    OperationalError("table " + name + " has no column named " + c)
  }

  /** SQLite's refusal of the DELETE when the table has no `symbol` column. */
  const NoSymbolColumnError := OperationalError("no such column: symbol")

  /** `update_or_insert(df)` on table `name`, holding `t`: a frame without a
      `symbol` column fails on its first row; otherwise the first row's DELETE
      fails when the table has no `symbol` column, and its INSERT when the
      table lacks one of the frame's columns. Any failure rolls the whole
      transaction back. An empty frame changes nothing. */
  function Upsert(name: string, t: Table, df: Frame): (r: Result<Table>)
    ensures r.Ok? <==> df.rows == [] || ("symbol" in df.columns && forall c | c in df.columns :: c in t.columns)
    ensures df.rows == [] ==> r == Ok(t)
    ensures r.Ok? && df.rows != [] ==> r.value == Table(t.columns, UpsertRows(t.rows, t.columns, df.rows))
    ensures df.rows != [] && "symbol" !in df.columns ==> r == Err(KeyError("symbol"))
    ensures df.rows != [] && "symbol" in df.columns && "symbol" !in t.columns ==> r == Err(NoSymbolColumnError)
    ensures df.rows != [] && "symbol" in df.columns && "symbol" in t.columns && r.Err? ==>
      exists i | 0 <= i < |df.columns| ::
        && df.columns[i] !in t.columns && r.error == NoColumnError(name, df.columns[i])
        && forall j | 0 <= j < i :: df.columns[j] in t.columns
  {
    if df.rows == [] then Ok(t)
    else if "symbol" !in df.columns then Err(KeyError("symbol"))
    else if "symbol" !in t.columns then Err(NoSymbolColumnError)
    else
      match FirstMissing(df.columns, c => c in t.columns)
      case Some(c) =>
        FirstMissingFirst(df.columns, c => c in t.columns);
        Err(NoColumnError(name, c))
      case None => Ok(Table(t.columns, UpsertRows(t.rows, t.columns, df.rows)))
  }

  /** The rows whose symbol is `s`. */
  function WithSymbol(rows: seq<Record>, s: Value): (r: seq<Record>)
    ensures forall x | x in r :: x in rows && SqlEquals(SymbolOf(x), s)
  {
    if rows == [] then []
    else (if SqlEquals(SymbolOf(rows[0]), s) then [rows[0]] else []) + WithSymbol(rows[1..], s)
  }

  /** The rows with symbol `s` are those a test agreeing with SQL equality
      keeps, in their order. */
  lemma {:induction false} WithSymbolFilters(rows: seq<Record>, s: Value, keep: Record -> bool)
    requires forall x :: keep(x) == SqlEquals(SymbolOf(x), s)
    ensures WithSymbol(rows, s) == Filter(rows, keep)
  {
    if rows != [] {
      WithSymbolFilters(rows[1..], s, keep);
    }
  }

  /** The last row of `rows` whose symbol is `s`. */
  function LastWith(rows: seq<Record>, s: Value): (r: Option<Record>)
    ensures r.Some? ==> r.value in rows && SymbolOf(r.value) == s
  {
    if rows == [] then None
    else if SqlEquals(SymbolOf(rows[|rows| - 1]), s) then Some(rows[|rows| - 1])
    else LastWith(rows[..|rows| - 1], s)
  }

  lemma {:induction false} WithSymbolAppend(a: seq<Record>, b: seq<Record>, s: Value)
    ensures WithSymbol(a + b, s) == WithSymbol(a, s) + WithSymbol(b, s)
  {
    if a != [] {
      assert (a + b)[1..] == a[1..] + b;
      WithSymbolAppend(a[1..], b, s);
    } else {
      assert a + b == b;
    }
  }

  lemma {:induction false} WithSymbolWithout(rows: seq<Record>, x: Value, s: Value)
    requires !IsNA(s)
    ensures WithSymbol(Without(rows, x), s) == if x == s then [] else WithSymbol(rows, s)
  {
    if rows != [] {
      var head := if SqlEquals(SymbolOf(rows[0]), x) then [] else [rows[0]];
      WithSymbolAppend(head, Without(rows[1..], x), s);
      WithSymbolWithout(rows[1..], x, s);
    }
  }

  /** After an upsert, a symbol that occurs in the incoming rows has exactly one
      row, stored from the last incoming row with that symbol; any other
      symbol keeps exactly the rows it had. */
  lemma {:induction false} UpsertLastWins(rows: seq<Record>, columns: seq<string>, incoming: seq<Record>, s: Value)
    requires !IsNA(s) && "symbol" in columns
    ensures WithSymbol(UpsertRows(rows, columns, incoming), s) ==
      match LastWith(incoming, s)
      case Some(r) => [Stored(columns, r)]
      case None => WithSymbol(rows, s)
  {
    if incoming != [] {
      var n := |incoming| - 1;
      var before := UpsertRows(rows, columns, incoming[..n]);
      var last := incoming[n];
      UpsertLastWins(rows, columns, incoming[..n], s);
      WithSymbolAppend(Without(before, SymbolOf(last)), [Stored(columns, last)], s);
      WithSymbolWithout(before, SymbolOf(last), s);
      assert SymbolOf(Stored(columns, last)) == SymbolOf(last);
    }
  }

  /** A row whose symbol no incoming row matches, a NULL symbol included,
      survives the upsert. */
  lemma {:induction false} UpsertKeepsOthers(rows: seq<Record>, columns: seq<string>, incoming: seq<Record>, x: Record)
    requires x in rows
    requires forall i | 0 <= i < |incoming| :: !SqlEquals(SymbolOf(x), SymbolOf(incoming[i]))
    ensures x in UpsertRows(rows, columns, incoming)
  {
    if incoming != [] {
      var n := |incoming| - 1;
      UpsertKeepsOthers(rows, columns, incoming[..n], x);
      assert !SqlEquals(SymbolOf(x), SymbolOf(incoming[n]));
    }
  }

  /** Every row after an upsert is either an old row or stored from an incoming
      row. */
  lemma {:induction false} UpsertRowsFrom(rows: seq<Record>, columns: seq<string>, incoming: seq<Record>, x: Record)
    requires x in UpsertRows(rows, columns, incoming)
    ensures x in rows || exists i | 0 <= i < |incoming| :: x == Stored(columns, incoming[i])
  {
    if incoming != [] {
      var n := |incoming| - 1;
      var before := UpsertRows(rows, columns, incoming[..n]);
      if x in Without(before, SymbolOf(incoming[n])) {
        UpsertRowsFrom(rows, columns, incoming[..n], x);
        if !(x in rows) {
          var i :| 0 <= i < n && x == Stored(columns, incoming[..n][i]);
          assert x == Stored(columns, incoming[i]);
        }
      } else {
        assert x == Stored(columns, incoming[n]);
      }
    }
  }

  /** The rows of table `t` after the loop body, DELETE of the row's symbol
      then INSERT of the row, has run for each of `incoming` in turn. */
  method DeleteInsertEach(t: Table, incoming: seq<Record>) returns (working: seq<Record>)
    ensures working == UpsertRows(t.rows, t.columns, incoming)
  {
    working := t.rows;
    var i := 0;
    while i < |incoming|
      invariant 0 <= i <= |incoming|
      invariant working == UpsertRows(t.rows, t.columns, incoming[..i])
    {
      var row := incoming[i];
      working := Without(working, SymbolOf(row));
      working := working + [Stored(t.columns, row)];
      assert incoming[..i + 1][..i] == incoming[..i];
      i := i + 1;
    }
    assert incoming[..i] == incoming;
  }

  /** An open `sqlite3.Connection`. */
  class Connection {
    var open: bool

    /** `sqlite3.connect(db_path)`. */
    constructor()
      ensures open
    {
      open := true;
    }

    /** `conn.close()`. */
    method Close()
      modifies this
      ensures !open
    {
      open := false;
    }
  }

  /** The SQLite file behind one `db_path`. */
  class Database {
    /** Whether the file exists; any `sqlite3.connect` creates it. */
    var present: bool
    var tables: map<string, Table>

    /** The file as found on disk. */
    constructor(present: bool, tables: map<string, Table>)
      ensures this.present == present && this.tables == tables
    {
      this.present := present;
      this.tables := tables;
    }

    /** Create the file with one empty table, if the file is absent; an existing
        file is left as it is, whatever tables it holds. */
    method EnsureExists(name: string, columns: seq<string>)
      modifies this
      ensures present
      ensures old(present) ==> tables == old(tables)
      ensures !old(present) ==> tables == map[name := Table(columns, [])]
    {
      if !present {
        present := true;
        tables := map[name := Table(columns, [])];
      }
    }

    /** `df.to_sql(name, conn, if_exists="replace", index=False)`: the table is
        dropped and recreated with the frame's columns and rows. */
    method ReplaceTable(name: string, df: Frame)
      modifies this
      ensures present
      ensures tables == old(tables)[name := Table(df.columns, seq(|df.rows|, i requires 0 <= i < |df.rows| => Stored(df.columns, df.rows[i])))]
    {
      present := true;
      tables := tables[name := Table(df.columns, seq(|df.rows|, i requires 0 <= i < |df.rows| => Stored(df.columns, df.rows[i])))];
    }

    /** `pd.read_sql_query("SELECT * FROM name", conn)`. pandas wraps the
        driver's error in its own `DatabaseError`, naming the query. */
    method ReadTable(name: string) returns (r: Result<Frame>)
      modifies this
      ensures present && tables == old(tables)
      ensures name in tables ==> r == Ok(Frame(tables[name].columns, tables[name].rows))
      ensures name !in tables ==> r == Err(QueryFailedError(name))
    {
      present := true;
      if name in tables {
        return Ok(Frame(tables[name].columns, tables[name].rows));
      }
      return Err(QueryFailedError(name));
    }

    /** The `update_or_insert` loop: DELETE then INSERT for each frame row in
        one transaction, committed at the end and rolled back on an error. */
    method UpsertTable(name: string, df: Frame) returns (err: Option<Error>)
      modifies this
      ensures present
      ensures df.rows == [] ==> err.None? && tables == old(tables)
      ensures df.rows != [] && name !in old(tables) && "symbol" in df.columns ==>
        err == Some(OperationalError("no such table: " + name)) && tables == old(tables)
      ensures df.rows != [] && name in old(tables) ==>
        match Upsert(name, old(tables)[name], df)
        case Ok(t) => err.None? && tables == old(tables)[name := t]
        case Err(e) => err == Some(e) && tables == old(tables)
      ensures df.rows != [] && "symbol" !in df.columns ==> err == Some(KeyError("symbol")) && tables == old(tables)
    {
      present := true;
      if df.rows == [] {
        return None;
      }
      if "symbol" !in df.columns {
        return Some(KeyError("symbol"));
      }
      if name !in tables {
        return Some(OperationalError("no such table: " + name));
      }
      var t := tables[name];
      if "symbol" !in t.columns {
        return Some(NoSymbolColumnError);
      }
      var missing := FirstMissing(df.columns, c => c in t.columns);
      if missing.Some? {
        assert Upsert(name, t, df) == Err(NoColumnError(name, missing.value));
        return Some(NoColumnError(name, missing.value));
      }
      var working := DeleteInsertEach(t, df.rows);
      assert Upsert(name, t, df) == Ok(Table(t.columns, working));
      tables := tables[name := Table(t.columns, working)];
      return None;
    }
  }
}
