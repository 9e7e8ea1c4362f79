/** What a whole migration reaches, what it leaves alone, and what a second one does. */
module MigrateRuns {
  import opened Migrate
  import Rebuild
  import opened Schema
  import opened Wrappers

  // ---------------------------------------------------------------- done

  /** An operation's purpose is met, whatever state the database started from. */
  ghost predicate Done(db: Db, op: Op) {
    match op
    case CreateTable(table, def, strict) => table in db
    case AddColumn(table, column) => table in db ==> HasColumn(db[table], column.name)
    case CreateIndex(table, index) => table in db ==> Taken(db, index.name)
    case DropIndex(table, name) => table in db ==> !HasIndex(db[table], name)
    case RelaxNotNull(table, name) => table in db ==> !Rebuild.IsNotNull(db[table], name)
    case Fix(table, col, value, cond) => table in db ==> Fixed(db[table], col, value, cond)
  }

  ghost predicate Fixed(t: Table, col: string, value: Cell, cond: Cond) {
    && (forall k | k in Mentions(cond) + {col} :: HasColumn(t, k))
    && (forall i | 0 <= i < |t.rows| && Holds(cond, t.rows[i]) :: Get(t.rows[i], col) == value)
  }

  /** What is done is not done again. */
  lemma DoneMeansNothingToDo(db: Db, op: Op)
    requires Sound(db) && Done(db, op)
    ensures Apply(db, op) == Some(db)
  {
    if op.RelaxNotNull? && op.table in db {
      assert db[op.table := db[op.table]] == db;
    } else if op.Fix? && op.table in db {
      var t := db[op.table];
      assert HasColumn(t, op.col) by {
        assert op.col in Mentions(op.cond) + {op.col};
      }
      assert FixRows(t.rows, op.col, op.value, op.cond) == t.rows by {
        forall i | 0 <= i < |t.rows| ensures FixRow(t.rows[i], op.col, op.value, op.cond) == t.rows[i] {
          assert op.col in t.rows[i];
        }
      }
      assert t.(rows := t.rows) == t && db[op.table := t] == db;
    }
  }

  lemma WithColumnHasIt(t: Table, column: Column)
    ensures HasColumn(WithColumn(t, column), column.name)
  {
    AddColumnNames(t, column, column.name);
  }

  /** Every operation that is not rejected does its job. */
  lemma ApplyDoes(db: Db, op: Op)
    requires Sound(db) && Apply(db, op).Some?
    ensures Done(Apply(db, op).value, op)
  {
    var after := Apply(db, op).value;
    match op
    case CreateTable(table, def, strict) =>
    case AddColumn(table, column) =>
      if table in db && !HasColumn(db[table], column.name) { WithColumnHasIt(db[table], column); }
    case CreateIndex(table, index) =>
      if table in db && !Taken(db, index.name) {
        assert after[table].indexes[|db[table].indexes|] == index;
      }
    case DropIndex(table, name) =>
    case RelaxNotNull(table, name) =>
      if table in db && Rebuild.IsNotNull(db[table], name) { Rebuild.RebuildKeepsNamesAndKeys(db[table], name); }
    case Fix(table, col, value, cond) =>
      if table in db { FixDoes(db[table], col, value, cond); }
  }

  lemma FixDoes(t: Table, col: string, value: Cell, cond: Cond)
    requires forall k | k in Mentions(cond) + {col} :: HasColumn(t, k)
    ensures Fixed(t.(rows := FixRows(t.rows, col, value, cond)), col, value, cond)
  {
    var after := t.(rows := FixRows(t.rows, col, value, cond));
    forall k | k in Mentions(cond) + {col} ensures HasColumn(after, k) {
      SameNames(t, after, k);
    }
  }

  // ---------------------------------------------------------------- which later operations undo an earlier one

  /** The rows a guarded UPDATE looks at have a NULL in the column it sets. */
  predicate Guarded(op: Op)
    requires op.Fix?
  {
    op.cond.And? && op.cond.left == IsNull(op.col)
  }

  /** The order of two operations of a program is safe for the earlier one. */
  ghost predicate Safe(earlier: Op, later: Op) {
    match later
    case CreateTable(table, def, strict) => earlier.table != table || earlier.CreateTable?
    case AddColumn(table, column) => earlier.RelaxNotNull? && earlier.table == table ==> !column.notnull
    case CreateIndex(table, index) => earlier.DropIndex? && earlier.table == table ==> earlier.name != index.name
    case DropIndex(table, name) => earlier.CreateIndex? ==> earlier.index.name != name
    case RelaxNotNull(table, name) => earlier.table == table ==> !earlier.Fix? && !earlier.CreateIndex?
    case Fix(table, col, value, cond) =>
      earlier.Fix? && earlier.table == table ==>
        || col !in Mentions(earlier.cond) + {earlier.col}
        || (col == earlier.col && Guarded(earlier) && value != Null)
  }

  lemma AddColumnKeepsDone(db: Db, e: Op, table: string, column: Column)
    requires Sound(db) && Done(db, e) && Safe(e, AddColumn(table, column)) && Apply(db, AddColumn(table, column)).Some?
    ensures Done(Apply(db, AddColumn(table, column)).value, e)
  {
    var after := Apply(db, AddColumn(table, column)).value;
    if after != db && e.table == table {
      var t, made := db[table], after[table];
      forall k ensures HasColumn(made, k) <==> HasColumn(t, k) || k == column.name {
        AddColumnNames(t, column, k);
      }
      match e
      case RelaxNotNull(_, name) =>
        assert forall c | 0 <= c < |made.columns| :: c < |t.columns| || made.columns[c] == column;
      case CreateIndex(_, index) => AddColumnKeepsTaken(db, table, column, index.name);
      case Fix(_, col, value, cond) =>
        forall i | 0 <= i < |t.rows| ensures Holds(cond, made.rows[i]) == Holds(cond, t.rows[i]) {
          SameTruth(cond, t.rows[i], made.rows[i]);
        }
        assert col in Mentions(cond) + {col};
      case _ =>
    } else if after != db && e.CreateIndex? {
      AddColumnKeepsTaken(db, table, column, e.index.name);
    }
  }

  lemma AddColumnKeepsTaken(db: Db, table: string, column: Column, name: string)
    requires table in db
    ensures Taken(db[table := WithColumn(db[table], column)], name) <==> Taken(db, name)
  {
    SameIndexesSameNames(db, table, WithColumn(db[table], column), name);
  }

  lemma SameIndexesSameNames(db: Db, table: string, t: Table, name: string)
    requires table in db && |t.indexes| == |db[table].indexes|
    requires forall x | 0 <= x < |t.indexes| :: t.indexes[x].name == db[table].indexes[x].name
    ensures HasIndex(t, name) <==> HasIndex(db[table], name)
    ensures Taken(db[table := t], name) <==> Taken(db, name)
  {
    var after := db[table := t];
    if HasIndex(t, name) {
      var x :| 0 <= x < |t.indexes| && t.indexes[x].name == name;
      assert db[table].indexes[x].name == name;
    }
    if HasIndex(db[table], name) {
      var x :| 0 <= x < |t.indexes| && db[table].indexes[x].name == name;
      assert t.indexes[x].name == name;
    }
    if Taken(db, name) {
      var s :| s in db && HasIndex(db[s], name);
      assert HasIndex(after[s], name);
    }
    if Taken(after, name) {
      var s :| s in after && HasIndex(after[s], name);
      assert HasIndex(db[s], name);
    }
  }

  /** A condition only looks at the columns it mentions. */
  lemma {:induction false} SameTruth(cond: Cond, a: Row, b: Row)
    requires forall k | k in Mentions(cond) :: Get(a, k) == Get(b, k)
    ensures Holds(cond, a) == Holds(cond, b)
  {
    match cond
    case And(left, right) => SameTruth(left, a, b); SameTruth(right, a, b);
    case Or(left, right) => SameTruth(left, a, b); SameTruth(right, a, b);
    case _ => assert cond.col in Mentions(cond);
  }

  lemma RelaxKeepsDone(db: Db, e: Op, table: string, name: string)
    requires Sound(db) && Done(db, e) && Safe(e, RelaxNotNull(table, name))
        && Apply(db, RelaxNotNull(table, name)).Some?
    ensures Done(Apply(db, RelaxNotNull(table, name)).value, e)
  {
    if table in db && Rebuild.IsNotNull(db[table], name) {
      var t, made := db[table], Rebuild.Rebuilt(db[table], name);
      Rebuild.RebuildKeepsNamesAndKeys(t, name);
      forall k ensures HasColumn(made, k) <==> HasColumn(t, k) {
        SameNames(t, made, k);
      }
      forall n ensures HasIndex(made, n) <==> HasIndex(t, n) {
        SameIndexesSameNames(db, table, made, n);
      }
      if e.CreateIndex? {
        SameIndexesSameNames(db, table, made, e.index.name);
      }
      if e.RelaxNotNull? && e.table == table {
        assert forall c | 0 <= c < |made.columns| && made.columns[c].notnull ::
                 t.columns[c].notnull && t.columns[c].name == made.columns[c].name;
      }
    } else if table in db {
      assert db[table := db[table]] == db;
    }
  }

  lemma CreateIndexKeepsDone(db: Db, e: Op, table: string, index: Index)
    requires Sound(db) && Done(db, e) && Safe(e, CreateIndex(table, index))
        && Apply(db, CreateIndex(table, index)).Some?
    ensures Done(Apply(db, CreateIndex(table, index)).value, e)
  {
    var after := Apply(db, CreateIndex(table, index)).value;
    if after != db {
      var t, made := db[table], after[table];
      forall k ensures HasColumn(made, k) <==> HasColumn(t, k) {
        SameNames(t, made, k);
      }
      assert forall x | 0 <= x < |made.indexes| :: x < |t.indexes| || made.indexes[x] == index;
      if e.CreateIndex? && Taken(db, e.index.name) {
        var s :| s in db && HasIndex(db[s], e.index.name);
        var x :| 0 <= x < |db[s].indexes| && db[s].indexes[x].name == e.index.name;
        assert after[s].indexes[x] == db[s].indexes[x];
      }
    }
  }

  lemma DropIndexKeepsDone(db: Db, e: Op, table: string, name: string)
    requires Sound(db) && Done(db, e) && Safe(e, DropIndex(table, name)) && Apply(db, DropIndex(table, name)).Some?
    ensures Done(Apply(db, DropIndex(table, name)).value, e)
  {
    var after := Apply(db, DropIndex(table, name)).value;
    if after != db {
      var t, made := db[table], after[table];
      forall k ensures HasColumn(made, k) <==> HasColumn(t, k) {
        SameNames(t, made, k);
      }
      if e.CreateIndex? && Taken(db, e.index.name) {
        var s :| s in db && HasIndex(db[s], e.index.name);
        var x :| 0 <= x < |db[s].indexes| && db[s].indexes[x].name == e.index.name;
        assert db[s].indexes[x] in after[s].indexes;
      }
      assert forall x | 0 <= x < |made.indexes| :: made.indexes[x] in t.indexes;
    }
  }

  lemma FixKeepsDone(db: Db, e: Op, l: Op)
    requires Sound(db) && Done(db, e) && l.Fix? && Safe(e, l) && Apply(db, l).Some?
    ensures Done(Apply(db, l).value, e)
  {
    var after := Apply(db, l).value;
    if l.table in db {
      var t, made := db[l.table], after[l.table];
      forall k ensures HasColumn(made, k) <==> HasColumn(t, k) {
        SameNames(t, made, k);
      }
      if e.CreateIndex? {
        SameIndexesSameNames(db, l.table, made, e.index.name);
      }
      if e.Fix? && e.table == l.table {
        forall i | 0 <= i < |t.rows| ensures Holds(e.cond, made.rows[i]) ==> Get(made.rows[i], e.col) == e.value {
          RowStaysFixed(t.rows[i], e, l);
        }
      }
    }
  }

  lemma RowStaysFixed(row: Row, e: Op, l: Op)
    requires e.Fix? && l.Fix? && e.table == l.table && Safe(e, l)
    requires Holds(e.cond, row) ==> Get(row, e.col) == e.value
    ensures var after := FixRow(row, l.col, l.value, l.cond); Holds(e.cond, after) ==> Get(after, e.col) == e.value
  {
    if l.col !in Mentions(e.cond) + {e.col} {
      SameTruth(e.cond, row, FixRow(row, l.col, l.value, l.cond));
    } else {
      var after := FixRow(row, l.col, l.value, l.cond);
      assert Holds(e.cond, after) ==> Holds(IsNull(e.col), after);
    }
  }

  lemma CreateTableKeepsDone(db: Db, e: Op, table: string, def: Table, strict: bool)
    requires Sound(db) && Done(db, e) && Safe(e, CreateTable(table, def, strict))
    requires Apply(db, CreateTable(table, def, strict)).Some?
    ensures Done(Apply(db, CreateTable(table, def, strict)).value, e)
  {
    var after := Apply(db, CreateTable(table, def, strict)).value;
    if table !in db && e.CreateIndex? && Taken(db, e.index.name) {
      var s :| s in db && HasIndex(db[s], e.index.name);
      assert after[s] == db[s];
    }
  }

  lemma SafeKeepsDone(db: Db, e: Op, l: Op)
    requires Sound(db) && Done(db, e) && Safe(e, l) && Apply(db, l).Some?
    ensures Done(Apply(db, l).value, e)
  {
    match l
    case CreateTable(table, def, strict) => CreateTableKeepsDone(db, e, table, def, strict);
    case AddColumn(table, column) => AddColumnKeepsDone(db, e, table, column);
    case CreateIndex(table, index) => CreateIndexKeepsDone(db, e, table, index);
    case DropIndex(table, name) => DropIndexKeepsDone(db, e, table, name);
    case RelaxNotNull(table, name) => RelaxKeepsDone(db, e, table, name);
    case Fix(table, col, value, cond) => FixKeepsDone(db, e, l);
  }

  // ---------------------------------------------------------------- convergence

  /** A program of proper operations none of which undoes an earlier one. */
  ghost predicate Orderly(ops: seq<Op>) {
    && (forall i | 0 <= i < |ops| :: Proper(ops[i]))
    && (forall i, j | 0 <= i < j < |ops| :: Safe(ops[i], ops[j]))
  }

  /** From any legacy database, a migration that is not rejected does everything it lists ... */
  lemma {:induction false} MigrationReachesAll(db: Db, ops: seq<Op>)
    requires Sound(db) && Orderly(ops) && Run(db, ops).Some?
    ensures Sound(Run(db, ops).value)
    ensures forall i | 0 <= i < |ops| :: Done(Run(db, ops).value, ops[i])
  {
    if ops != [] {
      var last := |ops| - 1;
      var before := Run(db, ops[..last]).value;
      MigrationReachesAll(db, ops[..last]);
      ApplyKeepsSound(before, ops[last]);
      ApplyDoes(before, ops[last]);
      forall i | 0 <= i < last ensures Done(Run(db, ops).value, ops[i]) {
        assert ops[..last][i] == ops[i];
        SafeKeepsDone(before, ops[i], ops[last]);
      }
    }
  }

  // ---------------------------------------------------------------- indexes

  /** The listed index is on its table, as it is listed. */
  ghost predicate Stands(db: Db, op: Op)
    requires op.CreateIndex?
  {
    op.table in db && op.index in db[op.table].indexes
  }

  /** An operation that may bring an index of this name. */
  predicate Brings(op: Op, name: string) {
    (op.CreateIndex? && op.index.name == name) || (op.CreateTable? && HasIndex(op.def, name))
  }

  lemma FreeStays(db: Db, op: Op, name: string)
    requires Sound(db) && !Taken(db, name) && !Brings(op, name) && Apply(db, op).Some?
    ensures !Taken(Apply(db, op).value, name)
  {
    var after := Apply(db, op).value;
    forall s | s in after ensures !HasIndex(after[s], name) {
      if s in db {
        assert !HasIndex(db[s], name);
      }
      if s == op.table && op.RelaxNotNull? && Rebuild.IsNotNull(db[s], op.name) {
        Rebuild.RebuildKeepsNamesAndKeys(db[s], op.name);
        SameIndexesSameNames(db, s, after[s], name);
      }
    }
  }

  lemma StandsStays(db: Db, e: Op, l: Op)
    requires Sound(db) && e.CreateIndex? && Stands(db, e) && Safe(e, l) && Apply(db, l).Some?
    ensures Stands(Apply(db, l).value, e)
  {
  }

  /** No operation makes a table that an earlier one of an orderly program works on. */
  lemma {:induction false} TableWasThere(db: Db, ops: seq<Op>, i: nat)
    requires Sound(db) && Orderly(ops) && Run(db, ops).Some? && i < |ops| && !ops[i].CreateTable?
    requires ops[i].table in Run(db, ops).value
    ensures Run(db, ops[..i]).Some? && ops[i].table in Run(db, ops[..i]).value
  {
    var last := |ops| - 1;
    if i < last {
      assert Safe(ops[i], ops[last]);
      assert ops[..last][i] == ops[i] && ops[..last][..i] == ops[..i];
      TableWasThere(db, ops[..last], i);
    }
  }

  lemma {:induction false} NameStaysFree(db: Db, ops: seq<Op>, name: string)
    requires Sound(db) && Orderly(ops) && Run(db, ops).Some? && !Taken(db, name)
    requires forall j | 0 <= j < |ops| :: !Brings(ops[j], name)
    ensures !Taken(Run(db, ops).value, name)
  {
    if ops != [] {
      var last := |ops| - 1;
      NameStaysFree(db, ops[..last], name);
      MigrationReachesAll(db, ops[..last]);
      FreeStays(Run(db, ops[..last]).value, ops[last], name);
    }
  }

  lemma BuiltNow(db: Db, op: Op)
    requires op.CreateIndex? && op.table in db && !Taken(db, op.index.name) && Apply(db, op).Some?
    ensures Stands(Apply(db, op).value, op)
  {
    assert Apply(db, op).value[op.table].indexes == db[op.table].indexes + [op.index];
  }

  /** If its name was free, and nothing before it in the program brings it, a listed index stands on its table in the
      end. */
  lemma {:induction false} IndexIsBuilt(db: Db, ops: seq<Op>, i: nat)
    requires Sound(db) && Orderly(ops) && Run(db, ops).Some? && i < |ops| && ops[i].CreateIndex?
    requires ops[i].table in Run(db, ops).value && !Taken(db, ops[i].index.name)
    requires forall j | 0 <= j < i :: !Brings(ops[j], ops[i].index.name)
    ensures Stands(Run(db, ops).value, ops[i])
  {
    TableWasThere(db, ops, i);
    StandsFrom(db, ops, i);
  }

  lemma OrderlyPrefix(ops: seq<Op>, n: nat, i: nat)
    requires Orderly(ops) && i <= n <= |ops|
    ensures Orderly(ops[..n]) && ops[..n][..i] == ops[..i] && (i < n ==> ops[..n][i] == ops[i])
    ensures forall j | 0 <= j < n :: ops[..n][j] == ops[j]
  {
  }

  lemma {:induction false} StandsFrom(db: Db, ops: seq<Op>, i: nat)
    requires Sound(db) && Orderly(ops) && Run(db, ops).Some? && i < |ops| && ops[i].CreateIndex?
    requires Run(db, ops[..i]).Some? && ops[i].table in Run(db, ops[..i]).value && !Taken(db, ops[i].index.name)
    requires forall j | 0 <= j < i :: !Brings(ops[j], ops[i].index.name)
    ensures Stands(Run(db, ops).value, ops[i])
  {
    var last := |ops| - 1;
    if i < last {
      OrderlyPrefix(ops, last, i);
      StandsFrom(db, ops[..last], i);
      MigrationReachesAll(db, ops[..last]);
      StandsStays(Run(db, ops[..last]).value, ops[i], ops[last]);
    } else {
      BuiltAtLast(db, ops);
    }
  }

  lemma BuiltAtLast(db: Db, ops: seq<Op>)
    requires Sound(db) && Orderly(ops) && Run(db, ops).Some? && ops != []
    requires var op := ops[|ops| - 1];
             && op.CreateIndex? && op.table in Run(db, ops[..|ops| - 1]).value && !Taken(db, op.index.name)
             && forall j | 0 <= j < |ops| - 1 :: !Brings(ops[j], op.index.name)
    ensures Stands(Run(db, ops).value, ops[|ops| - 1])
  {
    var last := |ops| - 1;
    OrderlyPrefix(ops, last, 0);
    NameStaysFree(db, ops[..last], ops[last].index.name);
    BuiltNow(Run(db, ops[..last]).value, ops[last]);
  }

  lemma {:induction false} NothingLeftToDo(db: Db, ops: seq<Op>)
    requires Sound(db) && forall i | 0 <= i < |ops| :: Done(db, ops[i])
    ensures Run(db, ops) == Some(db)
  {
    if ops != [] {
      NothingLeftToDo(db, ops[..|ops| - 1]);
      DoneMeansNothingToDo(db, ops[|ops| - 1]);
    }
  }

  /** ... and running it again changes nothing and is not rejected. */
  lemma MigrationIsIdempotent(db: Db, ops: seq<Op>)
    requires Sound(db) && Orderly(ops) && Run(db, ops).Some?
    ensures Run(Run(db, ops).value, ops) == Run(db, ops)
  {
    MigrationReachesAll(db, ops);
    NothingLeftToDo(Run(db, ops).value, ops);
  }

  // ---------------------------------------------------------------- what is left alone

  /** Table `table` only grew: no column and no row went, and cell (i, k) is as it was unless an UPDATE names
      column k, or a rebuild met an untyped column. */
  ghost predicate Grew(before: Table, after: Table, changed: set<string>) {
    && (forall k :: HasColumn(before, k) ==> HasColumn(after, k))
    && |after.rows| == |before.rows|
    && (forall i, k | 0 <= i < |before.rows| && k in before.rows[i] && k !in changed ::
          k in after.rows[i] && after.rows[i][k] == before.rows[i][k])
  }

  ghost predicate Typed(t: Table) { forall c | 0 <= c < |t.columns| :: t.columns[c].ctype != "" }

  ghost predicate TypedDb(db: Db) { forall t | t in db :: Typed(db[t]) }

  ghost predicate TypedOp(op: Op) {
    (op.CreateTable? ==> Typed(op.def)) && (op.AddColumn? ==> op.column.ctype != "")
  }

  /** The columns of a table that some UPDATE of the program sets. */
  function Written(ops: seq<Op>, table: string): set<string> {
    set i | 0 <= i < |ops| && ops[i].Fix? && ops[i].table == table :: ops[i].col
  }

  lemma RelaxStaysTyped(t: Table, name: string)
    requires WellFormed(t) && Typed(t) && Rebuild.Relax(t, name).Some?
    ensures Typed(Rebuild.Relax(t, name).value) && Rebuild.Relax(t, name).value.rows == t.rows
  {
    if Rebuild.IsNotNull(t, name) {
      Rebuild.RelaxSucceedsIff(t, name);
      forall c | 0 <= c < |t.columns| ensures Rebuild.NewColumns(t.columns, name)[c].ctype != "" {
        Rebuild.NewColumnsAt(t.columns, name, c);
      }
    }
  }

  lemma ApplyStaysTyped(db: Db, op: Op)
    requires Sound(db) && TypedDb(db) && TypedOp(op) && Apply(db, op).Some?
    ensures TypedDb(Apply(db, op).value)
  {
    if op.RelaxNotNull? && op.table in db {
      RelaxStaysTyped(db[op.table], op.name);
    }
  }

  lemma ApplyGrows(db: Db, op: Op, table: string, changed: set<string>)
    requires Sound(db) && TypedDb(db) && Apply(db, op).Some? && table in db
    requires op.Fix? && op.table == table ==> op.col in changed
    ensures table in Apply(db, op).value && Grew(db[table], Apply(db, op).value[table], changed)
  {
    var after := Apply(db, op).value;
    if op.table == table {
      match op
      case AddColumn(_, column) =>
        if after != db { AddColumnGrows(db[table], column, changed); }
      case RelaxNotNull(_, name) =>
        RelaxStaysTyped(db[table], name);
        RelaxKeepsWellFormed(db[table], name);
      case CreateIndex(_, _) => ColumnsDecideNames(db[table], after[table]);
      case DropIndex(_, _) => ColumnsDecideNames(db[table], after[table]);
      case Fix(_, col, value, cond) => FixGrows(db[table], col, value, cond, changed);
      case CreateTable(_, _, _) =>
    }
  }

  lemma AddColumnGrows(t: Table, column: Column, changed: set<string>)
    requires WellFormed(t) && !HasColumn(t, column.name)
    ensures Grew(t, WithColumn(t, column), changed)
  {
    forall k ensures HasColumn(t, k) ==> HasColumn(WithColumn(t, column), k) {
      AddColumnNames(t, column, k);
    }
    assert forall i | 0 <= i < |t.rows| :: column.name !in t.rows[i];
  }

  lemma FixGrows(t: Table, col: string, value: Cell, cond: Cond, changed: set<string>)
    requires col in changed
    ensures Grew(t, t.(rows := FixRows(t.rows, col, value, cond)), changed)
  {
    ColumnsDecideNames(t, t.(rows := FixRows(t.rows, col, value, cond)));
  }

  lemma ColumnsDecideNames(s: Table, t: Table)
    requires s.columns == t.columns
    ensures forall k :: HasColumn(s, k) <==> HasColumn(t, k)
  {
    forall k ensures HasColumn(s, k) <==> HasColumn(t, k) {
      SameNames(s, t, k);
    }
  }

  /** A migration drops no table, column or row, and changes no cell but in columns its UPDATEs name. */
  lemma {:induction false} MigrationKeepsData(db: Db, ops: seq<Op>, table: string)
    requires Sound(db) && TypedDb(db) && Orderly(ops) && Run(db, ops).Some? && table in db
    requires forall i | 0 <= i < |ops| :: TypedOp(ops[i])
    ensures TypedDb(Run(db, ops).value)
    ensures table in Run(db, ops).value && Grew(db[table], Run(db, ops).value[table], Written(ops, table))
  {
    if ops != [] {
      var last := |ops| - 1;
      var before := Run(db, ops[..last]).value;
      MigrationKeepsData(db, ops[..last], table);
      MigrationReachesAll(db, ops[..last]);
      ApplyStaysTyped(before, ops[last]);
      assert ops[last].Fix? && ops[last].table == table ==> ops[last].col in Written(ops, table);
      assert Written(ops[..last], table) <= Written(ops, table) by {
        forall k | k in Written(ops[..last], table) ensures k in Written(ops, table) {
          var i :| 0 <= i < last && ops[..last][i].Fix? && ops[..last][i].table == table && ops[..last][i].col == k;
          assert ops[i].Fix? && ops[i].table == table && ops[i].col == k;
        }
      }
      ApplyGrows(before, ops[last], table, Written(ops, table));
      GrewTwice(db[table], before[table], Run(db, ops).value[table], Written(ops[..last], table), Written(ops, table));
    } else {
      assert Grew(db[table], db[table], Written(ops, table));
    }
  }

  lemma GrewTwice(a: Table, b: Table, c: Table, some: set<string>, all: set<string>)
    requires some <= all && Grew(a, b, some) && Grew(b, c, all)
    ensures Grew(a, c, all)
  {
  }
}
