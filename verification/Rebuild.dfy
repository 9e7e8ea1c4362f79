/** _relax_sqlite_notnull: a table is rebuilt from its PRAGMA description so that one column may be NULL. */
module Rebuild {
  import opened Schema
  import opened Wrappers

  // ---------------------------------------------------------------- what the PRAGMAs list

  datatype Origin = Pk | Constraint | Created

  /** One PRAGMA index_list row with its PRAGMA index_info columns. */
  datatype IndexRow = IndexRow(name: string, unique: bool, origin: Origin, cols: seq<string>)

  const AUTOINDEX := "sqlite_autoindex"

  function Listing(t: Table): seq<IndexRow> {
    PkRow(PkCols(t.columns)) + UniqueRows(t.uniques) + IndexRows(t.indexes)
  }

  function PkRow(cols: seq<string>): seq<IndexRow> {
    if cols == [] then [] else [IndexRow(AUTOINDEX, true, Pk, cols)]
  }

  function UniqueRows(uniques: seq<seq<string>>): seq<IndexRow> {
    if uniques == [] then []
    else UniqueRows(uniques[..|uniques| - 1]) + [IndexRow(AUTOINDEX, true, Constraint, uniques[|uniques| - 1])]
  }

  function IndexRows(indexes: seq<Index>): seq<IndexRow> {
    if indexes == [] then []
    else
      var last := indexes[|indexes| - 1];
      IndexRows(indexes[..|indexes| - 1]) + [IndexRow(last.name, last.unique, Created, last.cols)]
  }

  /** One PRAGMA foreign_key_list row: a key over k columns gives k rows. */
  datatype FkRow = FkRow(parent: string, from: string, to: Option<string>)

  function FkRows(fks: seq<ForeignKey>): seq<FkRow> {
    if fks == [] then []
    else
      var last := fks[|fks| - 1];
      FkRows(fks[..|fks| - 1])
      + seq(|last.parts|, p requires 0 <= p < |last.parts| => FkRow(last.parent, last.parts[p].from, last.parts[p].to))
  }

  // ---------------------------------------------------------------- what is made of it

  /** CREATE INDEX statements: the WHERE is not listed and so is lost. */
  function IndexDefs(rows: seq<IndexRow>): seq<Index> {
    if rows == [] then []
    else
      var last := rows[|rows| - 1];
      IndexDefs(rows[..|rows| - 1])
      + if last.origin == Pk || last.cols == [] || StartsWith(last.name, "sqlite_") then []
        else [Index(last.name, last.unique, last.cols, Always)]
  }

  function UniqueClauses(rows: seq<IndexRow>): seq<seq<string>> {
    if rows == [] then []
    else
      var last := rows[|rows| - 1];
      UniqueClauses(rows[..|rows| - 1])
      + if last.origin == Constraint && last.cols != [] && StartsWith(last.name, "sqlite_") then [last.cols] else []
  }

  /** A missing target is printed as Python's None. */
  function Shown(to: Option<string>): string { if to.None? then "None" else to.value }

  function FkClauses(rows: seq<FkRow>): seq<ForeignKey> {
    seq(|rows|, k requires 0 <= k < |rows| => ForeignKey(rows[k].parent, [Part(rows[k].from, Some(Shown(rows[k].to)))]))
  }

  function TypeOf(ctype: string): string { if ctype == "" then "TEXT" else ctype }

  /** The new columns: `column` loses NOT NULL, primary key places follow the column order. */
  function NewColumns(columns: seq<Column>, column: string): (r: seq<Column>)
    ensures |r| == |columns|
  {
    if columns == [] then []
    else
      var earlier := columns[..|columns| - 1];
      var last := columns[|columns| - 1];
      NewColumns(earlier, column)
      + [Column(last.name, TypeOf(last.ctype), last.notnull && last.name != column, last.dflt,
                if last.pk == 0 then 0 else |PkCols(earlier)| + 1)]
  }

  predicate Untyped(columns: seq<Column>, name: string) {
    exists c | 0 <= c < |columns| :: columns[c].name == name && columns[c].ctype == ""
  }

  /** INSERT ... SELECT: an untyped column becomes TEXT and its numbers become text. */
  function Copied(columns: seq<Column>, row: Row): Row {
    map k | k in row :: if row[k].Number? && Untyped(columns, k) then Text(row[k].text) else row[k]
  }

  function CopiedRows(t: Table): seq<Row> {
    seq(|t.rows|, i requires 0 <= i < |t.rows| => Copied(t.columns, t.rows[i]))
  }

  function Rebuilt(t: Table, column: string): Table {
    Table(NewColumns(t.columns, column), UniqueClauses(Listing(t)), IndexDefs(Listing(t)), FkClauses(FkRows(t.fks)),
          CopiedRows(t))
  }

  predicate IsNotNull(t: Table, column: string) {
    exists c | 0 <= c < |t.columns| :: t.columns[c].name == column && t.columns[c].notnull
  }

  /** The whole transaction: nothing to do, rebuilt, or rolled back because the copy is rejected. */
  function Relax(t: Table, column: string): Option<Table> {
    if !IsNotNull(t, column) then Some(t)
    else if Fits(Rebuilt(t, column), Rebuilt(t, column).rows) then Some(Rebuilt(t, column))
    else None
  }

  // ---------------------------------------------------------------- reading the listing back

  lemma {:induction false} DefsAppend(a: seq<IndexRow>, b: seq<IndexRow>)
    ensures IndexDefs(a + b) == IndexDefs(a) + IndexDefs(b)
    ensures UniqueClauses(a + b) == UniqueClauses(a) + UniqueClauses(b)
  {
    if b == [] {
      assert a + b == a;
    } else {
      assert (a + b)[..|a + b| - 1] == a + b[..|b| - 1];
      DefsAppend(a, b[..|b| - 1]);
    }
  }

  lemma DefsOfOne(row: IndexRow)
    requires row.cols != []
    ensures IndexDefs([row])
            == if row.origin == Pk || StartsWith(row.name, "sqlite_") then []
                else [Index(row.name, row.unique, row.cols, Always)]
    ensures UniqueClauses([row]) == if row.origin == Constraint && StartsWith(row.name, "sqlite_") then [row.cols]
        else []
  {
    assert [row][..0] == [];
    assert IndexDefs([]) == [] && UniqueClauses([]) == [];
  }

  lemma BackTogether<T>(s: seq<T>)
    requires s != []
    ensures s[..|s| - 1] + [s[|s| - 1]] == s
  {
  }

  lemma {:induction false} DefsOfUniques(uniques: seq<seq<string>>)
    requires [] !in uniques
    ensures IndexDefs(UniqueRows(uniques)) == [] && UniqueClauses(UniqueRows(uniques)) == uniques
  {
    if uniques != [] {
      var earlier, last := uniques[..|uniques| - 1], uniques[|uniques| - 1];
      var row := IndexRow(AUTOINDEX, true, Constraint, last);
      assert [] !in earlier && last in uniques;
      DefsOfUniques(earlier);
      DefsOfOne(row);
      DefsAppend(UniqueRows(earlier), [row]);
      assert UniqueRows(uniques) == UniqueRows(earlier) + [row];
      assert StartsWith(AUTOINDEX, "sqlite_");
      assert UniqueClauses(UniqueRows(uniques)) == earlier + [last];
      BackTogether(uniques);
    }
  }

  /** The same indexes without their WHERE. */
  function Whole(indexes: seq<Index>): (r: seq<Index>)
    ensures |r| == |indexes| && forall x | 0 <= x < |r| :: r[x] == indexes[x].(where := Always)
  {
    if indexes == [] then []
    else Whole(indexes[..|indexes| - 1]) + [indexes[|indexes| - 1].(where := Always)]
  }

  lemma {:induction false} DefsOfIndexes(indexes: seq<Index>)
    requires forall x | 0 <= x < |indexes| :: indexes[x].cols != [] && !StartsWith(indexes[x].name, "sqlite_")
    ensures IndexDefs(IndexRows(indexes)) == Whole(indexes) && UniqueClauses(IndexRows(indexes)) == []
  {
    if indexes != [] {
      var earlier := indexes[..|indexes| - 1];
      DefsOfIndexes(earlier);
      assert IndexRows(indexes)[..|IndexRows(indexes)| - 1] == IndexRows(earlier);
    }
  }

  /** The rebuild finds every UNIQUE constraint and every index again, the indexes without their WHERE. */
  lemma ListingReadsBack(t: Table)
    requires WellFormed(t)
    ensures UniqueClauses(Listing(t)) == t.uniques
    ensures IndexDefs(Listing(t)) == Whole(t.indexes)
  {
    var pk := PkRow(PkCols(t.columns));
    assert IndexDefs(pk) == [] && UniqueClauses(pk) == [] by {
      assert pk == [] || pk[..|pk| - 1] == [];
    }
    DefsOfUniques(t.uniques);
    DefsOfIndexes(t.indexes);
    DefsAppend(pk, UniqueRows(t.uniques));
    DefsAppend(pk + UniqueRows(t.uniques), IndexRows(t.indexes));
  }

  lemma {:induction false} NewColumnsAt(columns: seq<Column>, column: string, c: nat)
    requires c < |columns|
    ensures NewColumns(columns, column)[c]
            == Column(columns[c].name, TypeOf(columns[c].ctype), columns[c].notnull && columns[c].name != column,
                      columns[c].dflt, if columns[c].pk == 0 then 0 else |PkCols(columns[..c])| + 1)
  {
    var last := |columns| - 1;
    if c < last {
      NewColumnsAt(columns[..last], column, c);
      assert columns[..last][..c] == columns[..c];
    }
  }

  lemma {:induction false} PkIsKept(columns: seq<Column>, column: string)
    ensures PkCols(NewColumns(columns, column)) == PkCols(columns)
  {
    if columns != [] {
      var earlier := columns[..|columns| - 1];
      PkIsKept(earlier, column);
      assert NewColumns(columns, column)[..|columns| - 1] == NewColumns(earlier, column);
    }
  }

  // ---------------------------------------------------------------- the schema

  /** Every name, default and key survives the rebuild; the order of a primary key may not. */
  lemma RebuildKeepsNamesAndKeys(t: Table, column: string)
    requires WellFormed(t)
    ensures var made := Rebuilt(t, column);
            && |made.columns| == |t.columns|
            && (forall c | 0 <= c < |t.columns| ::
                  && made.columns[c].name == t.columns[c].name && made.columns[c].dflt == t.columns[c].dflt
                  && made.columns[c].notnull == (t.columns[c].notnull && t.columns[c].name != column)
                  && (made.columns[c].pk == 0 <==> t.columns[c].pk == 0))
            && PkCols(made.columns) == PkCols(t.columns)
            && made.uniques == t.uniques
            && made.indexes == Whole(t.indexes)
  {
    ListingReadsBack(t);
    PkIsKept(t.columns, column);
    forall c | 0 <= c < |t.columns|
      ensures var d := NewColumns(t.columns, column)[c];
              && d.name == t.columns[c].name && d.dflt == t.columns[c].dflt
              && d.notnull == (t.columns[c].notnull && t.columns[c].name != column)
              && (d.pk == 0 <==> t.columns[c].pk == 0)
    {
      NewColumnsAt(t.columns, column, c);
    }
  }

  /** The description lists everything the rebuild needs: no partial index, only one-column foreign keys with an
      explicit target, a type for every column, primary key places in column order. */
  ghost predicate Plain(t: Table) {
    && (forall x | 0 <= x < |t.indexes| :: t.indexes[x].where == Always)
    && (forall f | 0 <= f < |t.fks| :: |t.fks[f].parts| == 1 && t.fks[f].parts[0].to.Some?)
    && (forall c | 0 <= c < |t.columns| :: t.columns[c].ctype != "")
    && (forall c | 0 <= c < |t.columns| :: t.columns[c].pk == 0 || t.columns[c].pk == |PkCols(t.columns[..c])| + 1)
  }

  function Nullable(columns: seq<Column>, column: string): seq<Column> {
    seq(|columns|, c requires 0 <= c < |columns| =>
      if columns[c].name == column then columns[c].(notnull := false) else columns[c])
  }

  lemma {:induction false} FkRowsOfPlain(fks: seq<ForeignKey>)
    requires forall f | 0 <= f < |fks| :: |fks[f].parts| == 1 && fks[f].parts[0].to.Some?
    ensures FkClauses(FkRows(fks)) == fks
  {
    if fks != [] {
      var last := fks[|fks| - 1];
      FkRowsOfPlain(fks[..|fks| - 1]);
      assert last == ForeignKey(last.parent, [Part(last.parts[0].from, Some(last.parts[0].to.value))]);
      assert FkRows(fks) == FkRows(fks[..|fks| - 1]) + [FkRow(last.parent, last.parts[0].from, last.parts[0].to)];
    }
  }

  /** Clauses printed by the rebuild are always of the plain kind, so a different list cannot come back equal. */
  lemma PlainFksIff(fks: seq<ForeignKey>)
    ensures FkClauses(FkRows(fks)) == fks <==>
            forall f | 0 <= f < |fks| :: |fks[f].parts| == 1 && fks[f].parts[0].to.Some?
  {
    var printed := FkClauses(FkRows(fks));
    assert forall f | 0 <= f < |printed| :: |printed[f].parts| == 1 && printed[f].parts[0].to.Some?;
    if forall f | 0 <= f < |fks| :: |fks[f].parts| == 1 && fks[f].parts[0].to.Some? {
      FkRowsOfPlain(fks);
    }
  }

  lemma NewColumnsExactIff(columns: seq<Column>, column: string)
    ensures NewColumns(columns, column) == Nullable(columns, column) <==>
            forall c | 0 <= c < |columns| ::
              columns[c].ctype != "" && (columns[c].pk == 0 || columns[c].pk == |PkCols(columns[..c])| + 1)
  {
    var made, wanted := NewColumns(columns, column), Nullable(columns, column);
    forall c | 0 <= c < |columns|
      ensures made[c] == wanted[c] <==>
              columns[c].ctype != "" && (columns[c].pk == 0 || columns[c].pk == |PkCols(columns[..c])| + 1)
    {
      NewColumnsAt(columns, column, c);
    }
    assert made == wanted <==> forall c | 0 <= c < |columns| :: made[c] == wanted[c];
  }

  lemma WholeExactIff(indexes: seq<Index>)
    ensures Whole(indexes) == indexes <==> forall x | 0 <= x < |indexes| :: indexes[x].where == Always
  {
    assert Whole(indexes) == indexes <==> forall x | 0 <= x < |indexes| :: Whole(indexes)[x] == indexes[x];
  }

  /** The rebuild changes the schema in the relaxed NOT NULL alone, exactly for plain tables. */
  lemma RebuildIsExactIffPlain(t: Table, column: string)
    requires WellFormed(t)
    ensures Rebuilt(t, column).(rows := t.rows) == t.(columns := Nullable(t.columns, column)) <==> Plain(t)
  {
    ListingReadsBack(t);
    PlainFksIff(t.fks);
    WholeExactIff(t.indexes);
    NewColumnsExactIff(t.columns, column);
  }

  // ---------------------------------------------------------------- rows and instances

  /** A copied row differs only in numbers held by untyped columns. */
  lemma CopyIsExactIffTyped(t: Table)
    ensures CopiedRows(t) == t.rows <==>
            forall i, k | 0 <= i < |t.rows| && k in t.rows[i] :: !(t.rows[i][k].Number? && Untyped(t.columns, k))
  {
    if CopiedRows(t) == t.rows {
      forall i, k | 0 <= i < |t.rows| && k in t.rows[i] ensures !(t.rows[i][k].Number? && Untyped(t.columns, k)) {
        assert CopiedRows(t)[i][k] == t.rows[i][k];
      }
    } else {
      var i :| 0 <= i < |t.rows| && CopiedRows(t)[i] != t.rows[i];
      assert Copied(t.columns, t.rows[i]).Keys == t.rows[i].Keys;
    }
  }

  /** A plain table's rebuild accepts what the table accepted and, besides, NULL in the relaxed column:
      nothing else is lost and nothing else is let in. */
  lemma RebuildAcceptsOneMoreNull(t: Table, column: string, rows: seq<Row>, refers: (ForeignKey, Row) -> bool)
    requires WellFormed(t) && Plain(t) && IsNotNull(t, column)
    ensures Accepts(t, rows, refers) <==>
            Accepts(Rebuilt(t, column), rows, refers) && forall i | 0 <= i < |rows| :: Get(rows[i], column) != Null
  {
    var made := Rebuilt(t, column);
    RebuildIsExactIffPlain(t, column);
    PkIsKept(t.columns, column);
    assert Keys(made, rows) == Keys(t, rows);
    assert made.columns == Nullable(t.columns, column);
    var at :| 0 <= at < |t.columns| && t.columns[at].name == column && t.columns[at].notnull;
    if NotNulls(made.columns, rows) && forall i | 0 <= i < |rows| :: Get(rows[i], column) != Null {
      forall c, i | 0 <= c < |t.columns| && 0 <= i < |rows| && t.columns[c].notnull
        ensures Get(rows[i], t.columns[c].name) != Null
      {
        assert t.columns[c].name != column ==> made.columns[c] == t.columns[c];
      }
    }
    if NotNulls(t.columns, rows) {
      forall c, i | 0 <= c < |t.columns| && 0 <= i < |rows| && made.columns[c].notnull
        ensures Get(rows[i], made.columns[c].name) != Null
      {
        assert made.columns[c] == t.columns[c];
      }
      forall i | 0 <= i < |rows| ensures Get(rows[i], column) != Null {
        assert Get(rows[i], t.columns[at].name) != Null;
      }
    }
  }

  /** On a table whose columns are typed, the copy is rejected exactly when some partial unique index is not unique
      over all rows. */
  lemma RelaxSucceedsIff(t: Table, column: string)
    requires WellFormed(t) && IsNotNull(t, column)
    requires forall c | 0 <= c < |t.columns| :: t.columns[c].ctype != ""
    ensures Relax(t, column).Some? <==>
            forall x | 0 <= x < |t.indexes| && t.indexes[x].unique :: Unique(t.rows, t.indexes[x].cols, Always)
    ensures Relax(t, column).Some? ==> Relax(t, column).value.rows == t.rows
  {
    var made := Rebuilt(t, column);
    CopyIsExactIffTyped(t);
    RebuildKeepsNamesAndKeys(t, column);
    forall x | 0 <= x < |t.indexes| ensures made.indexes[x] == t.indexes[x].(where := Always) {}
    forall c, i | 0 <= c < |made.columns| && 0 <= i < |t.rows| && made.columns[c].notnull
      ensures Get(t.rows[i], made.columns[c].name) != Null
    {
      assert t.columns[c].notnull;
    }
    assert NotNulls(made.columns, t.rows);
  }

  /** Losing the WHERE of an index does no harm to any instance in two cases only: there was none, or
      it asks for a key column to be set. `IS NOT NULL AND != ''` is never harmless. */
  lemma DroppingWhereIsHarmlessIff(cols: seq<string>, where: Where)
    ensures (forall rows: seq<Row> :: Unique(rows, cols, where) ==> Unique(rows, cols, Always)) <==>
            where.Always? || (where.IsSet? && where.col in cols)
  {
    if where.IsSet? && where.col in cols {
      var k :| 0 <= k < |cols| && cols[k] == where.col;
      forall rows: seq<Row> | Unique(rows, cols, where) ensures Unique(rows, cols, Always) {
        forall i, j | 0 <= i < j < |rows| ensures !Clash(rows[i], rows[j], cols) {
          assert Get(rows[i], cols[k]) == Null || Get(rows[j], cols[k]) == Null
                 || (Covers(where, rows[i]) && Covers(where, rows[j]));
        }
      }
    } else if !where.Always? {
      var row: Row := map k | k in cols :: Text("");
      assert !Covers(where, row);
      assert Unique([row, row], cols, where);
      assert Clash([row, row][0], [row, row][1], cols);
      assert !Unique([row, row], cols, Always);
    }
  }

  // ---------------------------------------------------------------- running it again

  /** A second run does nothing. */
  lemma RelaxTwiceIsRelax(t: Table, column: string)
    requires WellFormed(t) && Relax(t, column).Some?
    ensures Relax(Relax(t, column).value, column) == Relax(t, column)
  {
    if IsNotNull(t, column) {
      RebuildKeepsNamesAndKeys(t, column);
    }
  }

  /** Two columns of a plain table can be relaxed in either order. */
  lemma RelaxationsCommute(t: Table, a: string, b: string)
    requires WellFormed(t) && Plain(t) && a != b && IsNotNull(t, a) && IsNotNull(t, b)
    ensures Relax(t, a).Some? && Relax(t, b).Some?
    ensures Relax(Relax(t, a).value, b).Some?
    ensures Relax(Relax(t, a).value, b) == Relax(Relax(t, b).value, a)
  {
    RelaxBoth(t, a, b);
    RelaxBoth(t, b, a);
    assert Nullable(Nullable(t.columns, a), b) == Nullable(Nullable(t.columns, b), a);
  }

  lemma RelaxBoth(t: Table, a: string, b: string)
    requires WellFormed(t) && Plain(t) && a != b && IsNotNull(t, a) && IsNotNull(t, b)
    ensures Relax(t, a).Some?
    ensures Relax(Relax(t, a).value, b) == Some(t.(columns := Nullable(Nullable(t.columns, a), b)))
  {
    PlainRelax(t, a);
    NullableStaysWellFormed(t, a);
    NullableStaysPlain(t, a, b);
    PlainRelax(t.(columns := Nullable(t.columns, a)), b);
  }

  /** On a plain table the rebuild never fails and does just what its name says. */
  lemma PlainRelax(t: Table, column: string)
    requires WellFormed(t) && Plain(t) && IsNotNull(t, column)
    ensures Relax(t, column) == Some(t.(columns := Nullable(t.columns, column)))
  {
    RelaxSucceedsIff(t, column);
    RebuildIsExactIffPlain(t, column);
    forall x | 0 <= x < |t.indexes| && t.indexes[x].unique ensures Unique(t.rows, t.indexes[x].cols, Always) {
      assert t.indexes[x].where == Always;
    }
  }

  lemma NullableKeepsNames(t: Table, a: string, k: string)
    ensures HasColumn(t.(columns := Nullable(t.columns, a)), k) <==> HasColumn(t, k)
  {
    var ta := t.(columns := Nullable(t.columns, a));
    if HasColumn(t, k) {
      var c :| 0 <= c < |t.columns| && t.columns[c].name == k;
      assert ta.columns[c].name == k;
    }
    if HasColumn(ta, k) {
      var c :| 0 <= c < |ta.columns| && ta.columns[c].name == k;
      assert t.columns[c].name == k;
    }
  }

  lemma NullableKnowsKeys(t: Table, a: string)
    requires KnowsKeys(t)
    ensures KnowsKeys(t.(columns := Nullable(t.columns, a)))
  {
    var ta := t.(columns := Nullable(t.columns, a));
    forall k ensures HasColumn(ta, k) <==> HasColumn(t, k) {
      NullableKeepsNames(t, a, k);
    }
    forall u | 0 <= u < |t.uniques| ensures AllKnown(ta, t.uniques[u]) {
      assert AllKnown(t, t.uniques[u]);
    }
    forall x | 0 <= x < |t.indexes| ensures AllKnown(ta, t.indexes[x].cols) {
      assert AllKnown(t, t.indexes[x].cols);
    }
  }

  lemma NullableStaysWellFormed(t: Table, a: string)
    requires WellFormed(t)
    ensures WellFormed(t.(columns := Nullable(t.columns, a)))
  {
    var ta := t.(columns := Nullable(t.columns, a));
    PkOfNullable(t.columns, a);
    forall i | 0 <= i < |t.rows| ensures forall k :: k in t.rows[i] <==> HasColumn(ta, k) {
      forall k ensures k in t.rows[i] <==> HasColumn(ta, k) {
        NullableKeepsNames(t, a, k);
      }
    }
    NullableKnowsKeys(t, a);
    assert Keys(ta, ta.rows) == Keys(t, t.rows);
    assert NotNulls(ta.columns, t.rows) by {
      forall c, i | 0 <= c < |ta.columns| && 0 <= i < |t.rows| && ta.columns[c].notnull
        ensures Get(t.rows[i], ta.columns[c].name) != Null
      {
        assert ta.columns[c] == t.columns[c];
      }
    }
  }

  lemma NullablePrefix(columns: seq<Column>, a: string, c: nat)
    requires c <= |columns|
    ensures Nullable(columns, a)[..c] == Nullable(columns[..c], a)
  {
  }

  lemma NullableStaysPlain(t: Table, a: string, b: string)
    requires Plain(t) && a != b && IsNotNull(t, b)
    ensures var ta := t.(columns := Nullable(t.columns, a)); Plain(ta) && IsNotNull(ta, b)
  {
    var ta := t.(columns := Nullable(t.columns, a));
    forall c | 0 <= c < |t.columns|
      ensures ta.columns[c].ctype != "" && (ta.columns[c].pk == 0 || ta.columns[c].pk == |PkCols(ta.columns[..c])| + 1)
    {
      NullablePrefix(t.columns, a, c);
      PkOfNullable(t.columns[..c], a);
      assert ta.columns[c].ctype == t.columns[c].ctype && ta.columns[c].pk == t.columns[c].pk;
    }
    var at :| 0 <= at < |t.columns| && t.columns[at].name == b && t.columns[at].notnull;
    assert ta.columns[at] == t.columns[at];
  }

  lemma {:induction false} PkOfNullable(columns: seq<Column>, a: string)
    ensures PkCols(Nullable(columns, a)) == PkCols(columns)
  {
    if columns != [] {
      PkOfNullable(columns[..|columns| - 1], a);
      assert Nullable(columns, a)[..|columns| - 1] == Nullable(columns[..|columns| - 1], a);
    }
  }
}
