/** migrate_schema and migrate_subscription_data as programs of schema operations, run from any legacy database. */
module Migrate {
  import Rebuild
  import opened Schema
  import opened Wrappers

  type Db = map<string, Table>

  /** Conditions of the UPDATE statements; each atom but IsNull is false of NULL. */
  datatype Cond =
    | IsNull(col: string)
    | NotNull(col: string)
    | Is(col: string, text: string)
    | IsNot(col: string, text: string)
    | Blank(col: string)
    | And(left: Cond, right: Cond)
    | Or(left: Cond, right: Cond)

  predicate Holds(cond: Cond, row: Row) {
    match cond
    case IsNull(col) => Get(row, col) == Null
    case NotNull(col) => Get(row, col) != Null
    case Is(col, text) => Get(row, col) == Text(text)
    case IsNot(col, text) => Get(row, col) != Null && Get(row, col) != Text(text)
    case Blank(col) => Get(row, col).Text? && forall i | 0 <= i < |Get(row, col).text| :: Get(row, col).text[i] == ' '
    case And(left, right) => Holds(left, row) && Holds(right, row)
    case Or(left, right) => Holds(left, row) || Holds(right, row)
  }

  function Mentions(cond: Cond): set<string> {
    match cond
    case And(left, right) => Mentions(left) + Mentions(right)
    case Or(left, right) => Mentions(left) + Mentions(right)
    case _ => {cond.col}
  }

  datatype Op =
    | CreateTable(table: string, def: Table, strict: bool)
    | AddColumn(table: string, column: Column)
    | CreateIndex(table: string, index: Index)
    | DropIndex(table: string, name: string)
    | RelaxNotNull(table: string, name: string)
    | Fix(table: string, col: string, value: Cell, cond: Cond)

  /** Index names are one name space for the whole database. */
  predicate Taken(db: Db, name: string) { exists t | t in db :: HasIndex(db[t], name) }

  function Default(column: Column): Cell { if column.dflt.Some? then column.dflt.value else Null }

  function WithColumn(t: Table, column: Column): Table {
    t.(columns := t.columns + [column],
       rows := seq(|t.rows|, i requires 0 <= i < |t.rows| => t.rows[i][column.name := Default(column)]))
  }

  function Without(indexes: seq<Index>, name: string): (r: seq<Index>)
    ensures forall x | 0 <= x < |r| :: r[x] in indexes && r[x].name != name
    ensures forall x | 0 <= x < |indexes| && indexes[x].name != name :: indexes[x] in r
  {
    if indexes == [] then []
    else
      var last := indexes[|indexes| - 1];
      Without(indexes[..|indexes| - 1], name) + if last.name == name then [] else [last]
  }

  function FixRow(row: Row, col: string, value: Cell, cond: Cond): Row {
    if Holds(cond, row) then row[col := value] else row
  }

  function FixRows(rows: seq<Row>, col: string, value: Cell, cond: Cond): (r: seq<Row>)
    ensures |r| == |rows|
  {
    seq(|rows|, i requires 0 <= i < |rows| => FixRow(rows[i], col, value, cond))
  }

  /** One helper call or statement; None when SQLite rejects it. */
  function Apply(db: Db, op: Op): Option<Db> {
    match op
    case CreateTable(table, def, strict) =>
      if table in db then Some(db)
      else if strict && exists x | 0 <= x < |def.indexes| :: Taken(db, def.indexes[x].name) then None
      else Some(db[table := def.(indexes := FreeOnes(db, def.indexes))])
    case AddColumn(table, column) =>
      if table !in db || HasColumn(db[table], column.name) then Some(db)
      else if column.notnull && Default(column) == Null then None
      else Some(db[table := WithColumn(db[table], column)])
    case CreateIndex(table, index) =>
      if table !in db || Taken(db, index.name) then Some(db)
      else
        var t := db[table].(indexes := db[table].indexes + [index]);
        if KnowsKeys(t) && Fits(t, t.rows) then Some(db[table := t]) else None
    case DropIndex(table, name) =>
      if table !in db || !HasIndex(db[table], name) then Some(db)
      else Some(db[table := db[table].(indexes := Without(db[table].indexes, name))])
    case RelaxNotNull(table, name) =>
      if table !in db then Some(db)
      else
        var relaxed := Rebuild.Relax(db[table], name);
        if relaxed.Some? then Some(db[table := relaxed.value]) else None
    case Fix(table, col, value, cond) =>
      if table !in db then Some(db)
      else
        var t := db[table].(rows := FixRows(db[table].rows, col, value, cond));
        if (forall k | k in Mentions(cond) + {col} :: HasColumn(t, k)) && Fits(t, t.rows)
        then Some(db[table := t]) else None
  }

  /** The indexes of a table made in the same step: CREATE INDEX IF NOT EXISTS, or, `strict`, plain CREATE INDEX, which
      SQLite rejects if the name is taken. */
  function FreeOnes(db: Db, indexes: seq<Index>): (r: seq<Index>)
    ensures forall x | 0 <= x < |r| :: r[x] in indexes
    ensures forall x | 0 <= x < |indexes| :: Taken(db, indexes[x].name) || indexes[x] in r
  {
    if indexes == [] then []
    else
      var last := indexes[|indexes| - 1];
      FreeOnes(db, indexes[..|indexes| - 1]) + if Taken(db, last.name) then [] else [last]
  }

  function Run(db: Db, ops: seq<Op>): Option<Db> {
    if ops == [] then Some(db)
    else
      var before := Run(db, ops[..|ops| - 1]);
      if before.None? then None else Apply(before.value, ops[|ops| - 1])
  }

  // ---------------------------------------------------------------- well-formed databases

  ghost predicate Sound(db: Db) { forall t | t in db :: WellFormed(db[t]) }

  /** A statement SQLite can parse: new tables are empty and well formed, new indexes have columns. */
  ghost predicate Proper(op: Op) {
    match op
    case CreateTable(table, def, strict) => WellFormed(def) && def.rows == []
    case AddColumn(table, column) => column.pk == 0
    case CreateIndex(table, index) => index.cols != [] && !StartsWith(index.name, "sqlite_")
    case _ => true
  }

  lemma AddColumnNames(t: Table, column: Column, k: string)
    ensures HasColumn(WithColumn(t, column), k) <==> HasColumn(t, k) || k == column.name
  {
    var made := WithColumn(t, column);
    assert made.columns[|t.columns|] == column;
    if HasColumn(t, k) {
      var c :| 0 <= c < |t.columns| && t.columns[c].name == k;
      assert made.columns[c].name == k;
    }
  }

  lemma UniqueWithColumn(t: Table, column: Column, cols: seq<string>, where: Where)
    requires !HasColumn(t, column.name) && AllKnown(t, cols)
    requires where.Always? || HasColumn(t, where.col)
    requires Unique(t.rows, cols, where)
    ensures Unique(WithColumn(t, column).rows, cols, where)
  {
    var made := WithColumn(t, column).rows;
    forall i, j | 0 <= i < j < |made| && Covers(where, made[i]) && Covers(where, made[j])
      ensures !Clash(made[i], made[j], cols)
    {
      assert Covers(where, t.rows[i]) && Covers(where, t.rows[j]);
      assert !Clash(t.rows[i], t.rows[j], cols);
      var k :| 0 <= k < |cols| && !(Get(t.rows[i], cols[k]) == Get(t.rows[j], cols[k])
          && Get(t.rows[i], cols[k]) != Null);
      assert HasColumn(t, cols[k]);
      assert Get(made[i], cols[k]) == Get(t.rows[i], cols[k]) && Get(made[j], cols[k]) == Get(t.rows[j], cols[k]);
    }
  }

  lemma {:induction false} PkKnown(t: Table, columns: seq<Column>)
    requires forall c | 0 <= c < |columns| :: HasColumn(t, columns[c].name)
    ensures AllKnown(t, PkCols(columns))
  {
    if columns != [] {
      PkKnown(t, columns[..|columns| - 1]);
      assert HasColumn(t, columns[|columns| - 1].name);
    }
  }

  lemma AddColumnKeepsKeys(t: Table, column: Column)
    requires WellFormed(t) && !HasColumn(t, column.name) && column.pk == 0
    ensures Keys(WithColumn(t, column), WithColumn(t, column).rows)
  {
    var made := WithColumn(t, column);
    assert made.columns[..|t.columns|] == t.columns;
    assert PkCols(made.columns) == PkCols(t.columns);
    if PkCols(t.columns) != [] {
      assert forall c | 0 <= c < |t.columns| :: HasColumn(t, t.columns[c].name);
      PkKnown(t, t.columns);
      UniqueWithColumn(t, column, PkCols(t.columns), Always);
    }
    forall u | 0 <= u < |t.uniques| ensures Unique(made.rows, t.uniques[u], Always) {
      assert AllKnown(t, t.uniques[u]);
      UniqueWithColumn(t, column, t.uniques[u], Always);
    }
    forall x | 0 <= x < |t.indexes| && t.indexes[x].unique
      ensures Unique(made.rows, t.indexes[x].cols, t.indexes[x].where)
    {
      assert AllKnown(t, t.indexes[x].cols);
      UniqueWithColumn(t, column, t.indexes[x].cols, t.indexes[x].where);
    }
  }

  lemma AddColumnKnowsKeys(t: Table, column: Column)
    requires KnowsKeys(t)
    ensures KnowsKeys(WithColumn(t, column))
  {
    var made := WithColumn(t, column);
    forall k ensures HasColumn(made, k) <==> HasColumn(t, k) || k == column.name {
      AddColumnNames(t, column, k);
    }
    forall u | 0 <= u < |t.uniques| ensures AllKnown(made, t.uniques[u]) {
      assert AllKnown(t, t.uniques[u]);
    }
    forall x | 0 <= x < |t.indexes| ensures AllKnown(made, t.indexes[x].cols) {
      assert AllKnown(t, t.indexes[x].cols);
    }
  }

  lemma AddColumnKeepsNotNulls(t: Table, column: Column)
    requires WellFormed(t) && !HasColumn(t, column.name)
    requires column.notnull ==> Default(column) != Null
    ensures NotNulls(WithColumn(t, column).columns, WithColumn(t, column).rows)
  {
    var made := WithColumn(t, column);
    forall c, i | 0 <= c < |made.columns| && 0 <= i < |made.rows| && made.columns[c].notnull
      ensures Get(made.rows[i], made.columns[c].name) != Null
    {
      if c < |t.columns| {
        assert made.columns[c] == t.columns[c] && HasColumn(t, t.columns[c].name);
      }
    }
  }

  /** ADD COLUMN is never rejected for its rows. */
  lemma AddColumnKeepsWellFormed(t: Table, column: Column)
    requires WellFormed(t) && !HasColumn(t, column.name) && column.pk == 0
    requires column.notnull ==> Default(column) != Null
    ensures WellFormed(WithColumn(t, column))
  {
    var made := WithColumn(t, column);
    AddColumnKeepsNotNulls(t, column);
    AddColumnKeepsKeys(t, column);
    AddColumnKnowsKeys(t, column);
    forall i | 0 <= i < |made.rows| ensures forall k :: k in made.rows[i] <==> HasColumn(made, k) {
      forall k ensures k in made.rows[i] <==> HasColumn(made, k) {
        AddColumnNames(t, column, k);
        assert k in t.rows[i] <==> HasColumn(t, k);
      }
    }
    assert forall a | 0 <= a < |t.columns| :: HasColumn(t, t.columns[a].name);
  }

  lemma SameNames(s: Table, t: Table, k: string)
    requires |s.columns| == |t.columns| && forall c | 0 <= c < |s.columns| :: s.columns[c].name == t.columns[c].name
    ensures HasColumn(s, k) <==> HasColumn(t, k)
  {
    if HasColumn(s, k) {
      var c :| 0 <= c < |s.columns| && s.columns[c].name == k;
      assert t.columns[c].name == k;
    }
    if HasColumn(t, k) {
      var c :| 0 <= c < |t.columns| && t.columns[c].name == k;
      assert s.columns[c].name == k;
    }
  }

  /** A rebuilt table is well formed whenever its rows fit. */
  lemma CopyKeepsWellFormed(t: Table, made: Table)
    requires WellFormed(t) && Fits(made, made.rows)
    requires |made.columns| == |t.columns|
    requires forall c | 0 <= c < |t.columns| :: made.columns[c].name == t.columns[c].name
    requires made.uniques == t.uniques && made.indexes == Rebuild.Whole(t.indexes)
    requires |made.rows| == |t.rows| && forall i | 0 <= i < |t.rows| :: made.rows[i].Keys == t.rows[i].Keys
    ensures WellFormed(made)
  {
    forall k ensures HasColumn(made, k) <==> HasColumn(t, k) {
      SameNames(t, made, k);
    }
    assert KnowsKeys(made) by {
      forall u | 0 <= u < |t.uniques| ensures AllKnown(made, t.uniques[u]) {
        assert AllKnown(t, t.uniques[u]);
      }
      forall x | 0 <= x < |t.indexes| ensures AllKnown(made, made.indexes[x].cols) {
        assert AllKnown(t, t.indexes[x].cols);
      }
    }
    forall i | 0 <= i < |made.rows| ensures forall k :: k in made.rows[i] <==> HasColumn(made, k) {
      assert forall k :: k in made.rows[i] <==> k in made.rows[i].Keys;
    }
  }

  lemma RelaxKeepsWellFormed(t: Table, name: string)
    requires WellFormed(t) && Rebuild.Relax(t, name).Some?
    ensures WellFormed(Rebuild.Relax(t, name).value)
    ensures forall k :: HasColumn(Rebuild.Relax(t, name).value, k) <==> HasColumn(t, k)
  {
    if Rebuild.IsNotNull(t, name) {
      var made := Rebuild.Rebuilt(t, name);
      Rebuild.RebuildKeepsNamesAndKeys(t, name);
      CopyKeepsWellFormed(t, made);
      forall k ensures HasColumn(made, k) <==> HasColumn(t, k) {
        SameNames(t, made, k);
      }
    }
  }

  /** Fewer indexes ask for less. */
  lemma FewerIndexesKeepWellFormed(t: Table, indexes: seq<Index>)
    requires WellFormed(t) && forall x | 0 <= x < |indexes| :: indexes[x] in t.indexes
    ensures WellFormed(t.(indexes := indexes))
  {
    var less := t.(indexes := indexes);
    assert forall k :: HasColumn(less, k) <==> HasColumn(t, k);
    forall x | 0 <= x < |indexes|
      ensures AllKnown(less, indexes[x].cols) && (indexes[x].where.Always? || HasColumn(less, indexes[x].where.col))
    {
      var y :| 0 <= y < |t.indexes| && t.indexes[y] == indexes[x];
      assert AllKnown(t, t.indexes[y].cols);
    }
    forall u | 0 <= u < |t.uniques| ensures AllKnown(less, t.uniques[u]) {
      assert AllKnown(t, t.uniques[u]);
    }
  }

  lemma MoreIndexKeepsWellFormed(t: Table, index: Index)
    requires WellFormed(t) && index.cols != [] && !StartsWith(index.name, "sqlite_")
    requires var more := t.(indexes := t.indexes + [index]); KnowsKeys(more) && Fits(more, more.rows)
    ensures WellFormed(t.(indexes := t.indexes + [index]))
  {
    var more := t.(indexes := t.indexes + [index]);
    assert forall k :: HasColumn(more, k) <==> HasColumn(t, k);
  }

  lemma FixKeepsWellFormed(t: Table, col: string, value: Cell, cond: Cond)
    requires WellFormed(t) && HasColumn(t, col)
    requires var rows := FixRows(t.rows, col, value, cond); Fits(t.(rows := rows), rows)
    ensures WellFormed(t.(rows := FixRows(t.rows, col, value, cond)))
  {
    var after := t.(rows := FixRows(t.rows, col, value, cond));
    assert forall k :: HasColumn(after, k) <==> HasColumn(t, k);
    forall u | 0 <= u < |t.uniques| ensures AllKnown(after, t.uniques[u]) {
      assert AllKnown(t, t.uniques[u]);
    }
    forall x | 0 <= x < |t.indexes| ensures AllKnown(after, t.indexes[x].cols) {
      assert AllKnown(t, t.indexes[x].cols);
    }
  }

  lemma ApplyKeepsSound(db: Db, op: Op)
    requires Sound(db) && Proper(op) && Apply(db, op).Some?
    ensures Sound(Apply(db, op).value)
  {
    match op
    case CreateTable(table, def, strict) =>
      if table !in db { FewerIndexesKeepWellFormed(def, FreeOnes(db, def.indexes)); }
    case AddColumn(table, column) =>
      if table in db && !HasColumn(db[table], column.name) { AddColumnKeepsWellFormed(db[table], column); }
    case CreateIndex(table, index) =>
      if table in db && !Taken(db, index.name) { MoreIndexKeepsWellFormed(db[table], index); }
    case DropIndex(table, name) =>
      if table in db { FewerIndexesKeepWellFormed(db[table], Without(db[table].indexes, name)); }
    case RelaxNotNull(table, name) =>
      if table in db { RelaxKeepsWellFormed(db[table], name); }
    case Fix(table, col, value, cond) =>
      if table in db {
        assert col in Mentions(cond) + {col};
        SameNames(db[table], db[table].(rows := FixRows(db[table].rows, col, value, cond)), col);
        FixKeepsWellFormed(db[table], col, value, cond);
      }
  }
}
