/** Two transactions at once. reserve_capacity reads a node row, decides on what it read and later writes
    the new counter value back (no row lock is taken in SQLite); acquire_reservation does the
    test and the increment in one UPDATE. */
module LedgerRace {
  import opened Capacity
  import opened Ledger
  import opened LedgerInvariants
  import opened Resources
  import opened Wrappers

  /** One counter column at flush: an attribute set to the value it was loaded with is not written,
      any other value overwrites the column whatever it holds by then. */
  function WriteBack(current: int, loaded: int, value: int): int { if value == loaded then current else value }

  function WriteBackAll(current: Res, loaded: Res, value: Res): Res {
    Res(WriteBack(current.cpu, loaded.cpu, value.cpu),
        WriteBack(current.ram, loaded.ram, value.ram),
        WriteBack(current.disk, loaded.disk, value.disk))
  }

  /** The write half of reserve_capacity for a node row loaded earlier as `seen`. */
  function LateReserve(db: Db, seen: Node, at: nat, want: Want, key: string, expires: int): (after: Db)
    requires at < |db.nodes|
    ensures |after.nodes| == |db.nodes| && |after.holds| == |db.holds| + 1
  {
    var node := db.nodes[at];
    AddHold(db, at, want, key, "USD", expires).(
      nodes := db.nodes[at := node.(reserved := WriteBackAll(node.reserved, seen.reserved, seen.reserved.Plus(want)))])
  }

  /** The counter of every resource the request asks for is still the one that was read. */
  predicate Untouched(current: Res, seen: Res, want: Want) {
    && (want.cpu == 0 || current.cpu == seen.cpu)
    && (want.ram == 0 || current.ram == seen.ram)
    && (want.disk == 0 || current.disk == seen.disk)
  }

  /** Exactly when a late write leaves the counters equal to the sums over the rows. */
  lemma LateReserveIsExactIffUntouched(
    base: seq<Node>, db: Db, seen: Node, at: nat, want: Want, key: string, expires: int)
    requires Balanced(base, db) && at < |db.nodes|
    ensures Balanced(base, LateReserve(db, seen, at, want, key, expires))
            <==> Untouched(db.nodes[at].reserved, seen.reserved, want)
  {
    var right := AddHold(db, at, want, key, "USD", expires);
    var late := LateReserve(db, seen, at, want, key, expires);
    NewHoldKeepsBalance(base, db, at, want, key, "USD", expires);
    assert NodeBalanced(base[at], right.nodes[at], right.holds, right.claims, at);
    if Untouched(db.nodes[at].reserved, seen.reserved, want) {
      assert late == right;
    } else {
      assert late.nodes[at].reserved != right.nodes[at].reserved;
      assert !NodeBalanced(base[at], late.nodes[at], late.holds, late.claims, at);
    }
  }

  /** What the rows themselves promise on node n fits into the node, whatever its counters say. */
  ghost predicate RowsFit(base: Node, db: Db, n: nat) {
    base.reserve.Plus(base.inUse)
      .Plus(base.reserved.Plus(Total(db.holds, HeldBy(n))).Plus(Total(db.claims, ClaimedBy(n))))
      .Plus(base.committed.Plus(Total(db.holds, SoldBy(n))).Plus(Total(db.claims, ConsumedBy(n))))
      .AtMost(base.total)
  }

  /** Exactly when a late write oversells: the request must fit the row as it is at the write, not as it
      was at the read. The WHERE clause of acquire_reservation tests just that. */
  lemma LateReserveFitsIffRowStillFits(
    base: seq<Node>, db: Db, seen: Node, at: nat, want: Want, key: string, expires: int)
    requires Balanced(base, db) && at < |db.nodes| && db.nodes[at].active
    ensures RowsFit(base[at], LateReserve(db, seen, at, want, key, expires), at)
            <==> UpdateMatches(db.nodes[at], want)
  {
    var right := AddHold(db, at, want, key, "USD", expires);
    NewHoldKeepsBalance(base, db, at, want, key, "USD", expires);
    assert NodeBalanced(base[at], right.nodes[at], right.holds, right.claims, at);
    assert NodeBalanced(base[at], db.nodes[at], db.holds, db.claims, at);
    assert right.nodes[at].Used() == db.nodes[at].Used().Plus(want);
  }

  /** Two clients that read the same row: the second write hides the first, and the rows oversell the node
      unless it had room for both requests. */
  lemma SecondWriterHidesFirst(base: seq<Node>, db: Db, at: nat, want: Want, first: string, second: string,
      expires: int)
    requires Balanced(base, db) && at < |db.nodes| && db.nodes[at].active && want != NOTHING
    ensures var seen := db.nodes[at];
            var one := LateReserve(db, seen, at, want, first, expires);
            var two := LateReserve(one, seen, at, want, second, expires);
            && Balanced(base, one) && !Balanced(base, two)
            && two.nodes == one.nodes
            && (RowsFit(base[at], two, at) <==> want.Plus(want).AtMost(seen.total.Minus(seen.Used())))
  {
    var seen := db.nodes[at];
    var one := LateReserve(db, seen, at, want, first, expires);
    LateReserveIsExactIffUntouched(base, db, seen, at, want, first, expires);
    assert one.nodes[at].reserved == seen.reserved.Plus(want);
    LateReserveIsExactIffUntouched(base, one, seen, at, want, second, expires);
    LateReserveFitsIffRowStillFits(base, one, seen, at, want, second, expires);
    assert one.nodes[at].Used() == seen.Used().Plus(want);
  }

  /** So both clients pass both checks of reserve_capacity and the node is oversold, whenever the request
      fits once and not twice. */
  lemma TwoClientsOversell(base: seq<Node>, db: Db, at: nat, want: Want, first: string, second: string, expires: int)
    requires Balanced(base, db) && at < |db.nodes|
    requires db.nodes[at].CanFit(want) && db.nodes[at].committed.Nonnegative()
    requires !want.Plus(want).AtMost(db.nodes[at].total.Minus(db.nodes[at].Used()))
    requires want != NOTHING
    ensures db.nodes[at].FitsIgnoringCommitted(want)
    ensures var one := LateReserve(db, db.nodes[at], at, want, first, expires);
            !RowsFit(base[at], LateReserve(one, db.nodes[at], at, want, second, expires), at)
  {
    SecondCheckIsImplied(db.nodes[at], want);
    SecondWriterHidesFirst(base, db, at, want, first, second, expires);
  }
}
