/** `EquityCache` of equity_cache.py: a symbol-keyed table of company facts
    in a SQLite file, under a table name chosen at construction. */
module EquityCaching {

  import opened Common
  import opened SqlTable

  /** The table name `__init__` uses when none is given. */
  const DefaultTableName: string := "equity_info"

  class EquityCache {
    /** The database file at `db_path`. */
    const db: Database
    const tableName: string
    /** The connection `connect` opens and `close` closes. */
    var conn: Connection?

    /** `EquityCache(db_path, table_name)`: the table is created with the schema
        columns only when the file does not exist yet. */
    constructor(db: Database, tableName: string)
      modifies db
      ensures this.db == db && this.tableName == tableName && conn == null
      ensures db.present
      ensures old(db.present) ==> db.tables == old(db.tables)
      ensures !old(db.present) ==> db.tables == map[tableName := Table(EquityInfoColumns, [])]
    {
      this.db := db;
      this.tableName := tableName;
      conn := null;
      new;
      db.EnsureExists(tableName, EquityInfoColumns);
    }

    /** `connect()`: opens a connection only when none is held. */
    method Connect()
      modifies this
      ensures old(conn) != null ==> conn == old(conn)
      ensures old(conn) == null ==> conn != null && fresh(conn) && conn.open
    {
      if conn == null {
        conn := new Connection();
      }
    }

    /** `close()`: closes and drops a held connection; without one, nothing. */
    method Close()
      modifies this, conn
      ensures conn == null
      ensures old(conn) != null ==> !old(conn).open
    {
      if conn != null {
        conn.Close();
        conn := null;
      }
    }

    /** `write_dataframe(df)`: the table becomes exactly the frame. The held
        connection is not used. */
    method WriteDataframe(df: Frame)
      modifies db
      ensures db.present
      ensures db.tables == old(db.tables)[tableName := Table(df.columns, seq(|df.rows|, i requires 0 <= i < |df.rows| => Stored(df.columns, df.rows[i])))]
    {
      db.ReplaceTable(tableName, df);
    }

    /** `read_dataframe()`: every row of the table, in order. */
    method ReadDataframe() returns (r: Result<Frame>)
      modifies db
      ensures db.present && db.tables == old(db.tables)
      ensures tableName in db.tables ==> r == Ok(Frame(db.tables[tableName].columns, db.tables[tableName].rows))
      ensures tableName !in db.tables ==> r == Err(QueryFailedError(tableName))
    {
      r := db.ReadTable(tableName);
    }

    /** `update_or_insert(df)`: per frame row, delete the rows with its symbol
        and insert it; all or nothing. */
    method UpdateOrInsert(df: Frame) returns (err: Option<Error>)
      modifies db
      ensures db.present
      ensures df.rows == [] ==> err.None? && db.tables == old(db.tables)
      ensures df.rows != [] && tableName in old(db.tables) ==>
        match Upsert(tableName, old(db.tables)[tableName], df)
        case Ok(t) => err.None? && db.tables == old(db.tables)[tableName := t]
        case Err(e) => err == Some(e) && db.tables == old(db.tables)
      ensures df.rows != [] && tableName !in old(db.tables) ==> err.Some? && db.tables == old(db.tables)
    {
      err := db.UpsertTable(tableName, df);
    }
  }
}
