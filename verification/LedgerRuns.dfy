/** Consequences of the invariant over whole runs, and the expiry sweep. */
module LedgerRuns {
  import opened Capacity
  import opened Ledger
  import opened LedgerInvariants
  import opened Resources
  import opened Wrappers

  // ---------------------------------------------------------------- absorbing states

  /** A row keeps its key, and once in an absorbing state it is never written again. */
  ghost predicate Follows(before: Hold, after: Hold) {
    && after.key == before.key
    && (Terminal(before.state) ==> after == before)
  }

  lemma EndHoldFollows(db: Db, id: nat, to: HoldState, reason: string)
    ensures var after := EndHold(db, id, to, reason).holds;
            |after| == |db.holds| && forall h | 0 <= h < |db.holds| :: Follows(db.holds[h], after[h])
  {
  }

  lemma {:induction false} ExpireAllFollows(db: Db, rows: seq<nat>)
    ensures var after := ExpireAll(db, rows).holds;
            |after| == |db.holds| && forall h | 0 <= h < |db.holds| :: Follows(db.holds[h], after[h])
  {
    if rows != [] {
      var before := ExpireAll(db, rows[..|rows| - 1]);
      ExpireAllFollows(db, rows[..|rows| - 1]);
      EndHoldFollows(before, rows[|rows| - 1], Expired, "expired");
      forall h | 0 <= h < |db.holds| ensures Follows(db.holds[h], ExpireAll(db, rows).holds[h]) {
        assert Follows(db.holds[h], before.holds[h]);
      }
    }
  }

  lemma StepFollows(db: Db, cmd: Cmd)
    ensures var after := Step(db, cmd).holds;
            |db.holds| <= |after| && forall h | 0 <= h < |db.holds| :: Follows(db.holds[h], after[h])
  {
    match cmd
    case Reserve(quote, key, currency, now, ttl) => var at := ReserveCases(db, quote, key, currency, now, ttl);
    case Release(id, reason) => EndHoldFollows(db, id, Released, reason);
    case Expire(id) => EndHoldFollows(db, id, Expired, "expired");
    case Sweep(rows) => ExpireAllFollows(db, rows);
    case Bind(id, key, currency, cents, now) => EndHoldFollows(db, id, Expired, "expired");
    case FailPay(id) =>
      if id < |db.checkouts| { EndHoldFollows(db, db.checkouts[id].hold, Released, "payment_failed"); }
    case _ =>
  }

  /** In every run, from any state: no transaction ever touches a hold that was committed, released,
      expired or cancelled. */
  lemma {:induction false} EndedHoldsNeverChange(db: Db, cmds: seq<Cmd>)
    ensures |db.holds| <= |Run(db, cmds).holds|
    ensures forall h | 0 <= h < |db.holds| :: Follows(db.holds[h], Run(db, cmds).holds[h])
  {
    if cmds != [] {
      var before := Run(db, cmds[..|cmds| - 1]);
      EndedHoldsNeverChange(db, cmds[..|cmds| - 1]);
      StepFollows(before, cmds[|cmds| - 1]);
      forall h | 0 <= h < |db.holds| ensures Follows(db.holds[h], Run(db, cmds).holds[h]) {
        assert Follows(db.holds[h], before.holds[h]);
      }
    }
  }

  /** An idempotency key stays spoken for: whatever ran in between, a retry returns the first
      reservation and writes nothing. */
  lemma RetryReturnsFirstReservation(
    base: seq<Node>, before: seq<Cmd>, between: seq<Cmd>, quote: nat, key: string, currency: string, now: int, ttl: nat,
    quote': nat, currency': string, now': int, ttl': nat)
    requires SoundBase(base)
    requires ReserveCapacity(Run(Opening(base), before), quote, key, currency, now, ttl).1.Created?
    ensures var first := ReserveCapacity(Run(Opening(base), before), quote, key, currency, now, ttl);
            var later := Run(first.0, between);
            ReserveCapacity(later, quote', key, currency', now', ttl') == (later, Replayed(first.1.id))
  {
    var db := Run(Opening(base), before);
    var (after, outcome) := ReserveCapacity(db, quote, key, currency, now, ttl);
    var at := ReserveCases(db, quote, key, currency, now, ttl);
    var later := Run(after, between);
    EndedHoldsNeverChange(after, between);
    assert after.holds[outcome.id].key == key && |key| >= 8;
    assert Follows(after.holds[outcome.id], later.holds[outcome.id]);
    RunAppend(Opening(base), before, Reserve(quote, key, currency, now, ttl), between);
    LedgerIsSound(base, before + [Reserve(quote, key, currency, now, ttl)] + between);
    var found := FindHold(later, key);
    assert found == Some(outcome.id);
  }

  lemma {:induction false} RunAppend(db: Db, first: seq<Cmd>, cmd: Cmd, rest: seq<Cmd>)
    ensures Run(Step(Run(db, first), cmd), rest) == Run(db, first + [cmd] + rest)
  {
    var all := first + [cmd] + rest;
    if rest == [] {
      assert all == first + [cmd] && all[..|all| - 1] == first;
    } else {
      assert all[..|all| - 1] == first + [cmd] + rest[..|rest| - 1];
      RunAppend(db, first, cmd, rest[..|rest| - 1]);
    }
  }

  /** A refused call writes nothing: no row, no counter, no event. The one exception is a checkout that comes too late,
      which expires the hold it found. */
  lemma RefusalsWriteNothing(db: Db, cmd: Cmd)
    ensures match cmd
            case Reserve(quote, key, currency, now, ttl) =>
              ReserveCapacity(db, quote, key, currency, now, ttl).1.Refused? ==> Step(db, cmd) == db
            case Bind(id, key, currency, cents, now) =>
              var outcome := BindCheckout(db, id, key, currency, cents, now).1;
              outcome.Refused? ==>
                Step(db, cmd) == if outcome.code == ReservationExpired then ExpireReservation(db, id) else db
            case Confirm(id) => ConfirmPayment(db, id).1.Refused? ==> Step(db, cmd) == db
            case AcquireClaim(pick, key, request, want) =>
              Acquire(db, pick, key, request, want).1.Refused? ==> Step(db, cmd) == db
            case Consume(id) => ConsumeClaim(db, id).1.Refused? ==> Step(db, cmd) == db
            case _ => true
  {
    match cmd
    case Reserve(quote, key, currency, now, ttl) => var at := ReserveCases(db, quote, key, currency, now, ttl);
    case _ =>
  }

  // ---------------------------------------------------------------- the sweep

  /** The sweep's query: at most `limit` due rows, in id order. */
  function DueRows(holds: seq<Hold>, now: int, limit: nat): (rows: seq<nat>)
    ensures AllDue(holds, rows, now)
    ensures |rows| <= limit
  {
    if holds == [] then []
    else
      var last := |holds| - 1;
      var rows := DueRows(holds[..last], now, limit);
      assert AllDue(holds, rows, now) && forall i | 0 <= i < |rows| :: rows[i] < last;
      if |rows| < limit && Due(holds[last], now) then rows + [last] else rows
  }

  lemma {:induction false} DueRowsLength(holds: seq<Hold>, now: int, limit: nat)
    ensures |DueRows(holds, now, limit)| == if DueCount(holds, now) < limit then DueCount(holds, now) else limit
  {
    if holds != [] {
      DueRowsLength(holds[..|holds| - 1], now, limit);
    }
  }

  /** How many holds a query without LIMIT would return. */
  function DueCount(holds: seq<Hold>, now: int): nat {
    if holds == [] then 0
    else DueCount(holds[..|holds| - 1], now) + if Due(holds[|holds| - 1], now) then 1 else 0
  }

  predicate Distinct(rows: seq<nat>) { forall i, j | 0 <= i < j < |rows| :: rows[i] != rows[j] }

  predicate AllDue(holds: seq<Hold>, rows: seq<nat>, now: int) {
    Distinct(rows) && forall i | 0 <= i < |rows| :: rows[i] < |holds| && Due(holds[rows[i]], now)
  }

  /** A sweep expires exactly the rows its query returned and leaves every other hold as it is. */
  lemma {:induction false} SweepExpiresItsRows(db: Db, rows: seq<nat>, now: int)
    requires AllDue(db.holds, rows, now)
    ensures var after := ExpireAll(db, rows);
            && |after.holds| == |db.holds|
            && (forall h | 0 <= h < |db.holds| :: after.holds[h] ==
                  if h in rows then db.holds[h].(state := Expired, reason := "expired") else db.holds[h])
            && |after.nodes| == |db.nodes|
            && (forall n | 0 <= n < |db.nodes| :: after.nodes[n].active == db.nodes[n].active)
            && after == db.(nodes := after.nodes, holds := after.holds, log := after.log)
  {
    if rows != [] {
      var last := rows[|rows| - 1];
      assert rows == rows[..|rows| - 1] + [last];
      SweepExpiresItsRows(db, rows[..|rows| - 1], now);
      assert last !in rows[..|rows| - 1];
    }
  }

  /** Whatever order the rows come back in, the counters and the rows end up the same, and the counters
      are the ones recomputed from the surviving rows. */
  lemma SweepOrderIsIrrelevant(base: seq<Node>, db: Db, rows: seq<nat>, other: seq<nat>, now: int)
    requires SoundBase(base) && Inv(base, db)
    requires AllDue(db.holds, rows, now) && AllDue(db.holds, other, now)
    requires forall r :: r in rows <==> r in other
    ensures ExpireAll(db, rows).nodes == ExpireAll(db, other).nodes
    ensures ExpireAll(db, rows).holds == ExpireAll(db, other).holds
    ensures Balanced(base, ExpireAll(db, rows))
  {
    var one, two := ExpireAll(db, rows), ExpireAll(db, other);
    SweepExpiresItsRows(db, rows, now);
    SweepExpiresItsRows(db, other, now);
    assert one.holds == two.holds;
    ExpireAllKeepsInv(base, db, rows);
    ExpireAllKeepsInv(base, db, other);
    forall n | 0 <= n < |base| ensures one.nodes[n] == two.nodes[n] {
      assert NodeBalanced(base[n], one.nodes[n], one.holds, one.claims, n);
      assert NodeBalanced(base[n], two.nodes[n], two.holds, two.claims, n);
    }
  }

  lemma {:induction false} DueCountUpdate(holds: seq<Hold>, id: nat, hold: Hold, now: int)
    requires id < |holds| && Due(holds[id], now) && !Due(hold, now)
    ensures DueCount(holds[id := hold], now) == DueCount(holds, now) - 1
  {
    var last := |holds| - 1;
    if id == last {
      assert holds[id := hold][..last] == holds[..last];
    } else {
      assert holds[id := hold][..last] == holds[..last][id := hold];
      DueCountUpdate(holds[..last], id, hold, now);
    }
  }

  lemma {:induction false} SweepReducesBacklog(db: Db, rows: seq<nat>, now: int)
    requires AllDue(db.holds, rows, now)
    ensures DueCount(ExpireAll(db, rows).holds, now) == DueCount(db.holds, now) - |rows|
  {
    if rows != [] {
      var last := rows[|rows| - 1];
      assert last in rows;
      var before := ExpireAll(db, rows[..|rows| - 1]);
      SweepReducesBacklog(db, rows[..|rows| - 1], now);
      SweepExpiresItsRows(db, rows[..|rows| - 1], now);
      assert last !in rows[..|rows| - 1];
      DueCountUpdate(before.holds, last, before.holds[last].(state := Expired, reason := "expired"), now);
    }
  }

  /** `times` sweeps in a row at the same instant. */
  function Sweeps(db: Db, now: int, limit: nat, times: nat): Db {
    if times == 0 then db
    else
      var before := Sweeps(db, now, limit, times - 1);
      ExpireAll(before, DueRows(before.holds, now, limit))
  }

  lemma SweepClearsUpToLimit(db: Db, now: int, limit: nat)
    ensures var after := ExpireAll(db, DueRows(db.holds, now, limit));
            && DueCount(after.holds, now) == AtLeastZero(DueCount(db.holds, now) - limit)
            && (DueCount(db.holds, now) == 0 ==> after == db)
  {
    DueRowsLength(db.holds, now, limit);
    SweepReducesBacklog(db, DueRows(db.holds, now, limit), now);
  }

  /** A backlog after a number of passes that each remove up to `limit`. */
  function Remaining(backlog: nat, limit: nat, times: nat): nat {
    if times == 0 then backlog else AtLeastZero(Remaining(backlog, limit, times - 1) - limit)
  }

  lemma {:induction false} RemainingClosedForm(backlog: nat, limit: nat, times: nat)
    ensures Remaining(backlog, limit, times) == AtLeastZero(backlog - times * limit)
  {
    if times != 0 {
      RemainingClosedForm(backlog, limit, times - 1);
      assert times * limit == (times - 1) * limit + limit;
    }
  }

  lemma {:induction false} SweepsLeaveRemaining(db: Db, now: int, limit: nat, times: nat)
    ensures DueCount(Sweeps(db, now, limit, times).holds, now) == Remaining(DueCount(db.holds, now), limit, times)
  {
    if times != 0 {
      var before := Sweeps(db, now, limit, times - 1);
      SweepsLeaveRemaining(db, now, limit, times - 1);
      SweepClearsUpToLimit(before, now, limit);
      var after := ExpireAll(before, DueRows(before.holds, now, limit));
      assert Sweeps(db, now, limit, times) == after;
      assert DueCount(after.holds, now) == AtLeastZero(Remaining(DueCount(db.holds, now), limit, times - 1) - limit);
    }
  }

  /** The LIMIT makes one sweep partial: k sweeps clear min(backlog, k * limit) holds, and from then on a
      sweep at the same instant changes nothing. */
  lemma SweepsDrainBacklog(db: Db, now: int, limit: nat, times: nat)
    ensures DueCount(Sweeps(db, now, limit, times).holds, now)
            == AtLeastZero(DueCount(db.holds, now) - times * limit)
    ensures DueCount(db.holds, now) <= times * limit ==>
              Sweeps(db, now, limit, times + 1) == Sweeps(db, now, limit, times)
  {
    SweepsLeaveRemaining(db, now, limit, times);
    RemainingClosedForm(DueCount(db.holds, now), limit, times);
    SweepClearsUpToLimit(Sweeps(db, now, limit, times), now, limit);
  }
}
