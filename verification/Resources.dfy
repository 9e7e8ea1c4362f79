/** Amounts of the three resources a node sells, and column sums over table rows. */
module Resources {

  /** vCPU, RAM in GB and storage in GB, always handled together. */
  datatype Res = Res(cpu: int, ram: int, disk: int) {
    function Plus(o: Res): Res { Res(cpu + o.cpu, ram + o.ram, disk + o.disk) }

    function Minus(o: Res): Res { Res(cpu - o.cpu, ram - o.ram, disk - o.disk) }

    /** Python's `max(0, x)` on each resource. */
    function Floor(): Res { Res(AtLeastZero(cpu), AtLeastZero(ram), AtLeastZero(disk)) }

    predicate AtMost(o: Res) { cpu <= o.cpu && ram <= o.ram && disk <= o.disk }

    predicate Nonnegative() { cpu >= 0 && ram >= 0 && disk >= 0 }
  }

  /** A requested amount; every caller clamps or validates it to be non-negative. */
  type Want = r: Res | r.Nonnegative() witness Res(0, 0, 0)

  const NOTHING := Res(0, 0, 0)

  function AtLeastZero(x: int): int { if x < 0 then 0 else x }

  /** `SELECT SUM(w) FROM rows`. */
  ghost function Total<T>(rows: seq<T>, w: T -> Res): Res {
    if rows == [] then NOTHING else Total(rows[..|rows| - 1], w).Plus(w(rows[|rows| - 1]))
  }

  lemma TotalAppend<T>(rows: seq<T>, row: T, w: T -> Res)
    ensures Total(rows + [row], w) == Total(rows, w).Plus(w(row))
  {
    assert (rows + [row])[..|rows|] == rows;
  }

  lemma TotalAppendNothing<T>(rows: seq<T>, row: T, w: T -> Res)
    requires w(row) == NOTHING
    ensures Total(rows + [row], w) == Total(rows, w)
  {
    TotalAppend(rows, row, w);
  }

  /** UPDATE of one row moves the sum by exactly that row's change. */
  lemma {:induction false} TotalUpdate<T>(rows: seq<T>, i: nat, row: T, w: T -> Res)
    requires i < |rows|
    ensures Total(rows[i := row], w) == Total(rows, w).Minus(w(rows[i])).Plus(w(row))
  {
    var last := |rows| - 1;
    if i == last {
      assert rows[i := row][..last] == rows[..last];
    } else {
      assert rows[i := row][..last] == rows[..last][i := row];
      TotalUpdate(rows[..last], i, row, w);
    }
  }

  /** With no negative weight, one row never weighs more than the whole table. */
  lemma {:induction false} TotalCoversRow<T>(rows: seq<T>, i: nat, w: T -> Res)
    requires i < |rows|
    requires forall k | 0 <= k < |rows| :: w(rows[k]).Nonnegative()
    ensures w(rows[i]).AtMost(Total(rows, w))
  {
    TotalNonnegative(rows[..|rows| - 1], w);
    if i < |rows| - 1 {
      TotalCoversRow(rows[..|rows| - 1], i, w);
    }
  }

  lemma {:induction false} TotalNonnegative<T>(rows: seq<T>, w: T -> Res)
    requires forall k | 0 <= k < |rows| :: w(rows[k]).Nonnegative()
    ensures Total(rows, w).Nonnegative()
  {
    if rows != [] {
      TotalNonnegative(rows[..|rows| - 1], w);
    }
  }
}
