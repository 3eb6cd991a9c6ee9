/** `EquityInfoCache` of equity_info_cache.py: the same symbol-keyed table of
    company facts as `EquityCache`, always under the name `equity_info`. */
module EquityInfoCaching {

  import opened Common
  import opened SqlTable

  /** The fixed table name. */
  const TableName: string := "equity_info"

  class EquityInfoCache {
    /** The database file at `db_path`. */
    const db: Database
    /** The connection `connect` opens and `close` closes. */
    var conn: Connection?

    /** `EquityInfoCache(db_path)`: the table is created with the schema
        columns only when the file does not exist yet. */
    constructor(db: Database)
      modifies db
      ensures this.db == db && conn == null
      ensures db.present
      ensures old(db.present) ==> db.tables == old(db.tables)
      ensures !old(db.present) ==> db.tables == map[TableName := Table(EquityInfoColumns, [])]
    {
      this.db := db;
      conn := null;
      new;
      db.EnsureExists(TableName, EquityInfoColumns);
    }

    /** `connect()`: opens a connection only when none is held. */
    method Connect()
      modifies this
      ensures old(conn) != null ==> conn == old(conn)
      ensures old(conn) == null ==> conn != null && fresh(conn) && conn.open
    {
      if conn == null {
        conn := new Connection();
      }
    }

    /** `close()`: closes and drops a held connection; without one, nothing. */
    method Close()
      modifies this, conn
      ensures conn == null
      ensures old(conn) != null ==> !old(conn).open
    {
      if conn != null {
        conn.Close();
        conn := null;
      }
    }

    /** `write_dataframe(df)`: the table becomes exactly the frame. The held
        connection is not used. */
    method WriteDataframe(df: Frame)
      modifies db
      ensures db.present
      ensures db.tables == old(db.tables)[TableName := Table(df.columns, seq(|df.rows|, i requires 0 <= i < |df.rows| => Stored(df.columns, df.rows[i])))]
    {
      db.ReplaceTable(TableName, df);
    }

    /** `read_dataframe()`: every row of the table, in order. */
    method ReadDataframe() returns (r: Result<Frame>)
      modifies db
      ensures db.present && db.tables == old(db.tables)
      ensures TableName in db.tables ==> r == Ok(Frame(db.tables[TableName].columns, db.tables[TableName].rows))
      ensures TableName !in db.tables ==> r == Err(QueryFailedError(TableName))
    {
      r := db.ReadTable(TableName);
    }

    /** `update_or_insert(df)`: per frame row, delete the rows with its symbol
        and insert it; all or nothing. */
    method UpdateOrInsert(df: Frame) returns (err: Option<Error>)
      modifies db
      ensures db.present
      ensures df.rows == [] ==> err.None? && db.tables == old(db.tables)
      ensures df.rows != [] && TableName in old(db.tables) ==>
        match Upsert(TableName, old(db.tables)[TableName], df)
        case Ok(t) => err.None? && db.tables == old(db.tables)[TableName := t]
        case Err(e) => err == Some(e) && db.tables == old(db.tables)
      ensures df.rows != [] && TableName !in old(db.tables) ==> err.Some? && db.tables == old(db.tables)
    {
      err := db.UpsertTable(TableName, df);
    }
  }
}
