/** The helpers of migrate.py over a live database, each proved equal to its operation in Migrate. A statement
    SQLite rejects leaves the database as it was and is reported by `ok`. */
module MigrateStore {
  import opened Migrate
  import opened Rebuild
  import opened Schema
  import opened Wrappers

  class Engine {
    var tables: Db

    method AddColumn(table: string, column: Column) returns (ok: bool)
      modifies this
      ensures Apply(old(tables), Op.AddColumn(table, column)) == if ok then Some(tables) else None
      ensures !ok ==> tables == old(tables)
    {
      if table !in tables {
        return true;
      }
      if HasColumn(tables[table], column.name) {
        return true;
      }
      ok := !(column.notnull && Default(column) == Null);
      if ok {
        tables := tables[table := WithColumn(tables[table], column)];
      }
    }

    method CreateIndex(table: string, index: Index) returns (ok: bool)
      modifies this
      ensures Apply(old(tables), Op.CreateIndex(table, index)) == if ok then Some(tables) else None
      ensures !ok ==> tables == old(tables)
    {
      if table !in tables {
        return true;
      }
      if HasIndex(tables[table], index.name) {
        return true;  // the helper's own look at the table
      }
      if Taken(tables, index.name) {
        return true;  // IF NOT EXISTS
      }
      var t := tables[table].(indexes := tables[table].indexes + [index]);
      ok := KnowsKeys(t) && Fits(t, t.rows);
      if ok {
        tables := tables[table := t];
      }
    }

    method DropIndexIfExists(table: string, name: string)
      modifies this
      ensures Apply(old(tables), DropIndex(table, name)) == Some(tables)
    {
      if table !in tables || !HasIndex(tables[table], name) {
        return;
      }
      tables := tables[table := tables[table].(indexes := Without(tables[table].indexes, name))];
    }

    /** _relax_sqlite_notnull. */
    method RelaxNotNull(table: string, column: string) returns (ok: bool)
      modifies this
      ensures Apply(old(tables), Op.RelaxNotNull(table, column)) == if ok then Some(tables) else None
      ensures !ok ==> tables == old(tables)
    {
      if table !in tables {
        return true;
      }
      var t := tables[table];
      if !IsNotNull(t, column) {
        assert tables[table := t] == tables;
        return true;
      }
      var indexDefs, uniqueClauses := ReadIndexes(Listing(t));
      var columns := PrintColumns(t.columns, column);
      var fkClauses := PrintForeignKeys(FkRows(t.fks));
      var made := Table(columns, uniqueClauses, indexDefs, fkClauses, CopiedRows(t));
      ok := Fits(made, made.rows);
      if ok {
        tables := tables[table := made];
      }
    }
  }

  /** The loop over PRAGMA index_list. */
  method ReadIndexes(listing: seq<IndexRow>) returns (indexDefs: seq<Index>, uniqueClauses: seq<seq<string>>)
    ensures indexDefs == IndexDefs(listing) && uniqueClauses == UniqueClauses(listing)
  {
    indexDefs, uniqueClauses := [], [];
    for k := 0 to |listing|
      invariant indexDefs == IndexDefs(listing[..k]) && uniqueClauses == UniqueClauses(listing[..k])
    {
      assert listing[..k + 1][..k] == listing[..k];
      var row := listing[k];
      if row.origin == Pk {
        continue;
      }
      if row.cols == [] {
        continue;
      }
      if StartsWith(row.name, "sqlite_") {
        if row.origin == Constraint {
          uniqueClauses := uniqueClauses + [row.cols];
        }
        continue;
      }
      indexDefs := indexDefs + [Index(row.name, row.unique, row.cols, Always)];
    }
    assert listing[..|listing|] == listing;
  }

  /** The loop over PRAGMA table_info. */
  method PrintColumns(info: seq<Column>, column: string) returns (parts: seq<Column>)
    ensures parts == NewColumns(info, column)
  {
    var pkCols: seq<string> := [];
    parts := [];
    for k := 0 to |info|
      invariant parts == NewColumns(info[..k], column) && pkCols == PkCols(info[..k])
    {
      assert info[..k + 1][..k] == info[..k];
      var row := info[k];
      var place := 0;
      if row.pk != 0 {
        pkCols := pkCols + [row.name];
        place := |pkCols|;
      }
      parts := parts + [Column(row.name, TypeOf(row.ctype), row.notnull && row.name != column, row.dflt, place)];
    }
    assert info[..|info|] == info;
  }

  /** The loop over PRAGMA foreign_key_list. */
  method PrintForeignKeys(rows: seq<FkRow>) returns (clauses: seq<ForeignKey>)
    ensures clauses == FkClauses(rows)
  {
    clauses := [];
    for k := 0 to |rows|
      invariant clauses == FkClauses(rows[..k])
    {
      clauses := clauses + [ForeignKey(rows[k].parent, [Part(rows[k].from, Some(Shown(rows[k].to)))])];
    }
    assert rows[..|rows|] == rows;
  }
}
