/** SQLite tables as the PRAGMAs of migrate.py describe them, with their rows. */
module Schema {
  import opened Wrappers

  /** A number is named by its decimal text. */
  datatype Cell = Null | Text(text: string) | Number(text: string)

  type Row = map<string, Cell>

  /** One PRAGMA table_info row; `pk` is the place in the primary key, counted from 1, or 0. */
  datatype Column = Column(name: string, ctype: string, notnull: bool, dflt: Option<Cell>, pk: nat)

  /** The WHERE of a partial index. */
  datatype Where = Always | IsSet(col: string) | IsFilled(col: string)

  datatype Index = Index(name: string, unique: bool, cols: seq<string>, where: Where)

  /** One column of a foreign key and its target; without a target it means the parent's primary key. */
  datatype Part = Part(from: string, to: Option<string>)

  datatype ForeignKey = ForeignKey(parent: string, parts: seq<Part>)

  /** `uniques` are the UNIQUE constraints of the CREATE TABLE, `indexes` those made by CREATE INDEX. */
  datatype Table = Table(
    columns: seq<Column>, uniques: seq<seq<string>>, indexes: seq<Index>, fks: seq<ForeignKey>, rows: seq<Row>)

  function Get(row: Row, col: string): Cell { if col in row then row[col] else Null }

  predicate Covers(where: Where, row: Row) {
    match where
    case Always => true
    case IsSet(col) => Get(row, col) != Null
    case IsFilled(col) => Get(row, col) != Null && Get(row, col) != Text("")
  }

  /** Two rows clash on a key when they agree on it without NULLs, which are all distinct. */
  predicate Clash(a: Row, b: Row, cols: seq<string>) {
    forall i | 0 <= i < |cols| :: Get(a, cols[i]) == Get(b, cols[i]) && Get(a, cols[i]) != Null
  }

  predicate Unique(rows: seq<Row>, cols: seq<string>, where: Where) {
    forall i, j | 0 <= i < j < |rows| && Covers(where, rows[i]) && Covers(where, rows[j]) ::
      !Clash(rows[i], rows[j], cols)
  }

  /** The primary key columns in column order. */
  function PkCols(columns: seq<Column>): seq<string> {
    if columns == [] then []
    else
      var last := columns[|columns| - 1];
      PkCols(columns[..|columns| - 1]) + if last.pk != 0 then [last.name] else []
  }

  predicate NotNulls(columns: seq<Column>, rows: seq<Row>) {
    forall c, i | 0 <= c < |columns| && 0 <= i < |rows| && columns[c].notnull :: Get(rows[i], columns[c].name) != Null
  }

  predicate Keys(t: Table, rows: seq<Row>) {
    && (PkCols(t.columns) != [] ==> Unique(rows, PkCols(t.columns), Always))
    && (forall u | 0 <= u < |t.uniques| :: Unique(rows, t.uniques[u], Always))
    && (forall x | 0 <= x < |t.indexes| && t.indexes[x].unique :: Unique(rows, t.indexes[x].cols, t.indexes[x].where))
  }

  /** What the database checks of an instance while foreign keys are off ... */
  predicate Fits(t: Table, rows: seq<Row>) { NotNulls(t.columns, rows) && Keys(t, rows) }

  /** ... and while they are on; `refers` tells whether a row's reference is met. */
  ghost predicate Accepts(t: Table, rows: seq<Row>, refers: (ForeignKey, Row) -> bool) {
    Fits(t, rows) && forall f, i | 0 <= f < |t.fks| && 0 <= i < |rows| :: refers(t.fks[f], rows[i])
  }

  predicate HasColumn(t: Table, name: string) { exists c | 0 <= c < |t.columns| :: t.columns[c].name == name }

  predicate HasIndex(t: Table, name: string) { exists x | 0 <= x < |t.indexes| :: t.indexes[x].name == name }

  predicate StartsWith(s: string, prefix: string) { |prefix| <= |s| && s[..|prefix|] == prefix }

  predicate AllKnown(t: Table, cols: seq<string>) { forall i | 0 <= i < |cols| :: HasColumn(t, cols[i]) }

  /** Every column a key or a WHERE mentions exists. */
  predicate KnowsKeys(t: Table) {
    && (forall u | 0 <= u < |t.uniques| :: AllKnown(t, t.uniques[u]))
    && (forall x | 0 <= x < |t.indexes| ::
          AllKnown(t, t.indexes[x].cols) && (t.indexes[x].where.Always? || HasColumn(t, t.indexes[x].where.col)))
  }

  /** What SQLite guarantees of any table. */
  ghost predicate WellFormed(t: Table) {
    && (forall a, b | 0 <= a < b < |t.columns| :: t.columns[a].name != t.columns[b].name)
    && (forall i | 0 <= i < |t.rows| :: forall k :: k in t.rows[i] <==> HasColumn(t, k))
    && (forall u | 0 <= u < |t.uniques| :: t.uniques[u] != [])
    && (forall x | 0 <= x < |t.indexes| :: t.indexes[x].cols != [] && !StartsWith(t.indexes[x].name, "sqlite_"))
    && KnowsKeys(t)
    && Fits(t, t.rows)
  }
}
