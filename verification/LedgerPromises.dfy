/** What the caller of each service function may rely on, in a ledger that keeps its invariant. */
module LedgerPromises {
  import opened Capacity
  import opened Ledger
  import opened LedgerInvariants
  import opened Resources
  import opened Wrappers

  /** The counters of node `at` move by these amounts, exactly; all else about the nodes stays. */
  ghost predicate Moved(nodes: seq<Node>, after: seq<Node>, at: Option<nat>, reserved: Res, committed: Res) {
    && |after| == |nodes|
    && forall n | 0 <= n < |nodes| ::
         after[n] == if at != Some(n) then nodes[n]
                     else nodes[n].(reserved := nodes[n].reserved.Plus(reserved),
                                    committed := nodes[n].committed.Plus(committed))
  }

  /** Every row but this one is as before. */
  ghost predicate OnlyRow<T(!new)>(rows: seq<T>, after: seq<T>, id: nat, row: T) {
    id < |rows| && after == rows[id := row]
  }

  /** reserve_capacity: one new hold under a key that was free, on a node with room for it and with room left over or
      none, its amount added to the counter; or the hold that has the key, or nothing. */
  ghost predicate Reserves(db: Db, after: Db, outcome: Outcome, quote: nat, key: string) {
    && (!outcome.Created? ==> after == db)
    && (outcome.Replayed? ==> outcome.id < |db.holds| && db.holds[outcome.id].key == key)
    && (outcome.Created? ==>
          && quote < |db.quotes| && outcome.id == |db.holds| && |after.holds| == |db.holds| + 1
          && after.holds[..outcome.id] == db.holds && (forall h | 0 <= h < |db.holds| :: db.holds[h].key != key)
          && after.checkouts == db.checkouts && after.claims == db.claims
          && var hold := after.holds[outcome.id];
          && hold.key == key && hold.state == Reserved && hold.want == db.quotes[quote].want
          && hold.node.Some? && hold.node.value < |db.nodes| && db.nodes[hold.node.value].CanFit(hold.want)
          && Moved(db.nodes, after.nodes, hold.node, hold.want, NOTHING))
  }

  lemma ReservePromise(db: Db, quote: nat, key: string, currency: string, now: int, ttl: nat)
    ensures var (after, outcome) := ReserveCapacity(db, quote, key, currency, now, ttl);
            Reserves(db, after, outcome, quote, key)
  {
    var at := ReserveCases(db, quote, key, currency, now, ttl);
    var (after, outcome) := ReserveCapacity(db, quote, key, currency, now, ttl);
    if outcome.Created? {
      assert after.holds[|db.holds|].node == Some(at);
    }
  }

  /** release_reservation and expire_reservation: a hold that still holds gives back its amount, all of it and no more,
      and any other call does nothing. */
  ghost predicate Ends(db: Db, after: Db, id: nat, to: HoldState) {
    if id < |db.holds| && Holding(db.holds[id].state)
    then
      && |after.holds| == |db.holds| && after.holds[id].state == to
      && OnlyRow(db.holds, after.holds, id, after.holds[id]) && after.holds[id].want == db.holds[id].want
      && Moved(db.nodes, after.nodes, db.holds[id].node, NOTHING.Minus(db.holds[id].want), NOTHING)
      && after.checkouts == db.checkouts && after.claims == db.claims
    else after == db
  }

  lemma GivesBackExactly(base: seq<Node>, db: Db, id: nat)
    requires SoundBase(base) && Balanced(base, db) && id < |db.holds| && Holding(db.holds[id].state)
    ensures var hold := db.holds[id];
            && Moved(db.nodes, GiveBack(db.nodes, hold.node, hold.want), hold.node, NOTHING.Minus(hold.want), NOTHING)
            && Moved(db.nodes, MoveToCommitted(db.nodes, hold.node, hold.want), hold.node,
                     NOTHING.Minus(hold.want), hold.want)
  {
    var hold := db.holds[id];
    if hold.node.Some? && hold.node.value < |base| {
      var n := hold.node.value;
      assert NodeBalanced(base[n], db.nodes[n], db.holds, db.claims, n);
      ReservedCoversHold(base[n], db.nodes[n], db.holds, db.claims, id, n);
    }
  }

  lemma EndPromise(base: seq<Node>, db: Db, id: nat, to: HoldState, reason: string)
    requires SoundBase(base) && Inv(base, db)
    ensures Ends(db, EndHold(db, id, to, reason), id, to)
  {
    if id < |db.holds| && Holding(db.holds[id].state) {
      GivesBackExactly(base, db, id);
    } else if id < |db.holds| {
      assert db.holds[id].state != Draft;
    }
  }

  /** bind_checkout: the first checkout of a hold, and no counter moves; refusals write nothing, but that a hold found
      too late is expired. */
  ghost predicate Binds(db: Db, after: Db, outcome: Outcome, id: nat, key: string) {
    && (outcome.Refused? && outcome.code != ReservationExpired ==> after == db)
    && (outcome == Refused(ReservationExpired) ==> Ends(db, after, id, Expired) && after.holds != db.holds)
    && (outcome.Replayed? ==>
          after == db && outcome.id < |db.checkouts| && db.checkouts[outcome.id].key == key)
    && (outcome.Created? ==>
          && id < |db.holds| && Holding(db.holds[id].state) && outcome.id == |db.checkouts|
          && (forall c | 0 <= c < |db.checkouts| :: db.checkouts[c].hold != id && db.checkouts[c].key != key)
          && |after.checkouts| == |db.checkouts| + 1 && after.checkouts[..outcome.id] == db.checkouts
          && after.checkouts[outcome.id].hold == id && after.checkouts[outcome.id].state == Pending
          && after.checkouts[outcome.id].total >= 0
          && |after.holds| == |db.holds| && after.holds[id].state == CheckoutBound
          && after.holds[id].checkout == Some(outcome.id)
          && OnlyRow(db.holds, after.holds, id, after.holds[id]) && after.nodes == db.nodes)
  }

  lemma BindPromise(base: seq<Node>, db: Db, id: nat, key: string, currency: string, cents: int, now: int)
    requires SoundBase(base) && Inv(base, db)
    ensures var (after, outcome) := BindCheckout(db, id, key, currency, cents, now);
            Binds(db, after, outcome, id, key)
  {
    var (after, outcome) := BindCheckout(db, id, key, currency, cents, now);
    if outcome == Refused(ReservationExpired) {
      EndPromise(base, db, id, Expired, "expired");
      assert after.holds[id].state == Expired;
    }
  }

  /** confirm_payment: a pending checkout is paid and its hold sold, so that its amount leaves the one counter as it
      enters the other; asking again does nothing. */
  ghost predicate Confirms(db: Db, after: Db, outcome: Outcome, id: nat) {
    if outcome == Done && id < |db.checkouts| && db.checkouts[id].state == Pending
    then
      var at := db.checkouts[id].hold;
      && at < |db.holds| && db.holds[at].state == CheckoutBound && |after.holds| == |db.holds|
      && OnlyRow(db.holds, after.holds, at, db.holds[at].(state := Committed))
      && OnlyRow(db.checkouts, after.checkouts, id, db.checkouts[id].(state := Paid))
      && Moved(db.nodes, after.nodes, db.holds[at].node, NOTHING.Minus(db.holds[at].want), db.holds[at].want)
    else after == db
  }

  lemma ConfirmPromise(base: seq<Node>, db: Db, id: nat)
    requires SoundBase(base) && Inv(base, db)
    ensures var (after, outcome) := ConfirmPayment(db, id);
            Confirms(db, after, outcome, id)
  {
    var (after, outcome) := ConfirmPayment(db, id);
    if outcome == Done && db.checkouts[id].state == Pending {
      GivesBackExactly(base, db, db.checkouts[id].hold);
    }
  }

  /** fail_payment: a pending checkout fails, and its hold ends if it has not ended before. */
  ghost predicate Fails(db: Db, after: Db, id: nat) {
    if id < |db.checkouts| && db.checkouts[id].state == Pending
    then
      && OnlyRow(db.checkouts, after.checkouts, id, db.checkouts[id].(state := Failed))
      && Ends(db, after.(checkouts := db.checkouts), db.checkouts[id].hold, Released)
    else after == db
  }

  lemma FailPromise(base: seq<Node>, db: Db, id: nat)
    requires SoundBase(base) && Inv(base, db)
    ensures Fails(db, FailPayment(db, id), id)
  {
    if id < |db.checkouts| && db.checkouts[id].state == Pending {
      var at := db.checkouts[id].hold;
      EndPromise(base, db, at, Released, "payment_failed");
      assert FailPayment(db, id).(checkouts := db.checkouts) == ReleaseReservation(db, at, "payment_failed");
    }
  }

  /** acquire_reservation: as reserve_capacity, with one claim for each key and each request. */
  ghost predicate Acquires(db: Db, after: Db, outcome: Outcome, key: string, request: string, want: Want) {
    && (!outcome.Created? ==> after == db)
    && (outcome.Replayed? ==>
          outcome.id < |db.claims| && (db.claims[outcome.id].key == key || db.claims[outcome.id].request == request))
    && (outcome.Created? ==>
          && outcome.id == |db.claims| && |after.claims| == |db.claims| + 1 && after.claims[..outcome.id] == db.claims
          && (forall c | 0 <= c < |db.claims| :: db.claims[c].key != key && db.claims[c].request != request)
          && after.holds == db.holds
          && var claim := after.claims[outcome.id];
          && claim.key == key && claim.request == request && claim.status == Active && claim.want == want
          && claim.node < |db.nodes| && db.nodes[claim.node].active
          && Moved(db.nodes, after.nodes, Some(claim.node), want, NOTHING))
  }

  lemma AcquirePromise(db: Db, pick: nat, key: string, request: string, want: Want)
    ensures var (after, outcome) := Acquire(db, pick, key, request, want);
            Acquires(db, after, outcome, key, request, want)
  {
    var (after, outcome) := Acquire(db, pick, key, request, want);
    if outcome.Created? {
      assert after.claims[|db.claims|] == Claim(pick, want, Active, key, request);
    }
  }

  /** The ends of a claim: an active one gives back its amount, or moves it if it is consumed. */
  ghost predicate ClaimEnds(db: Db, after: Db, id: nat, to: Status) {
    if id < |db.claims| && db.claims[id].status == Active
    then
      var claim := db.claims[id];
      && OnlyRow(db.claims, after.claims, id, claim.(status := to)) && after.holds == db.holds
      && Moved(db.nodes, after.nodes, Some(claim.node), NOTHING.Minus(claim.want),
               if to == Consumed then claim.want else NOTHING)
    else after == db
  }

  lemma ClaimIsCovered(base: seq<Node>, db: Db, id: nat)
    requires SoundBase(base) && Inv(base, db) && id < |db.claims| && db.claims[id].status == Active
    ensures db.claims[id].node < |db.nodes| ==> db.claims[id].want.AtMost(db.nodes[db.claims[id].node].reserved)
  {
    var n := db.claims[id].node;
    if n < |base| {
      assert NodeBalanced(base[n], db.nodes[n], db.holds, db.claims, n);
      ReservedCoversClaim(base[n], db.nodes[n], db.holds, db.claims, id);
    }
  }

  lemma EndClaimPromise(base: seq<Node>, db: Db, id: nat, to: Status)
    requires SoundBase(base) && Inv(base, db) && to != Consumed
    ensures ClaimEnds(db, EndClaim(db, id, to), id, to)
  {
    if id < |db.claims| && db.claims[id].status == Active {
      ClaimIsCovered(base, db, id);
    }
  }

  lemma ConsumePromise(base: seq<Node>, db: Db, id: nat)
    requires SoundBase(base) && Inv(base, db)
    ensures ClaimEnds(db, ConsumeClaim(db, id).0, id, Consumed)
  {
    if id < |db.claims| && db.claims[id].status == Active {
      ClaimIsCovered(base, db, id);
    }
  }
}
