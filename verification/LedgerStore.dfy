/** The service functions over live rows: each does its transaction of Ledger, keeps the ledger's invariant, and gives
    its caller what LedgerPromises says. */
module LedgerStore {
  import opened Capacity
  import opened Ledger
  import opened LedgerInvariants
  import opened LedgerPromises
  import opened LedgerRuns
  import opened Resources
  import opened Wrappers

  class Store {
    ghost const base: seq<Node>  // the node rows as the administrator left them
    var nodes: seq<Node>
    var quotes: seq<Quote>
    var holds: seq<Hold>
    var checkouts: seq<Checkout>
    var claims: seq<Claim>
    var log: seq<Event>

    ghost function State(): Db
      reads this
    {
      Db(nodes, quotes, holds, checkouts, claims, log)
    }

    /** Counters equal the sums over the rows, no node is overcommitted, keys are unique, checkouts and holds agree, and
        the log replays. */
    ghost predicate Valid()
      reads this
    {
      SoundBase(base) && Inv(base, State())
    }

    constructor (base: seq<Node>)
      requires SoundBase(base)
      ensures this.base == base && Valid() && State() == Opening(base)
    {
      this.base := base;
      nodes, quotes, holds, checkouts, claims, log := base, [], [], [], [], [];
      new;
      LedgerIsSound(base, []);
    }

    method PublishQuote(quote: Quote) returns (id: nat)
      requires Valid()
      modifies this
      ensures Valid() && id == |old(quotes)| && |quotes| == id + 1 && quotes[id] == quote
      ensures State() == Step(old(State()), Cmd.PublishQuote(quote))
    {
      quotes := quotes + [quote];
      id := |quotes| - 1;
      StepKeepsInv(base, old(State()), Cmd.PublishQuote(quote));
    }

    method ReserveCapacity(quote: nat, key: string, currency: string, now: int, ttl: nat) returns (outcome: Outcome)
      requires Valid()
      modifies this
      ensures Valid() && Reserves(old(State()), State(), outcome, quote, key)
      ensures (State(), outcome) == Ledger.ReserveCapacity(old(State()), quote, key, currency, now, ttl)
    {
      ghost var start := State();
      var existing := Find(holds, (h: Hold) => h.key == key);
      assert existing == FindHold(State(), key);
      if |key| < 8 {
        outcome := Refused(InvalidIdempotency);
      } else if existing.Some? {
        outcome := Replayed(existing.value);
      } else if quote >= |quotes| {
        outcome := Refused(QuoteNotFound);
      } else if now >= quotes[quote].expires {
        outcome := Refused(QuoteExpired);
      } else {
        var want := quotes[quote].want;
        outcome := ReserveOn(Preferred(Cluster(nodes), want), want, key, currency, now + ttl);
      }
      assert (State(), outcome) == Ledger.ReserveCapacity(start, quote, key, currency, now, ttl);
      ReservePromise(start, quote, key, currency, now, ttl);
      ReserveKeepsInv(base, start, quote, key, currency, now, ttl);
    }

    /** The second half of reserve_capacity, from the re-check on. */
    method ReserveOn(best: Option<nat>, want: Want, key: string, currency: string, expires: int)
      returns (outcome: Outcome)
      modifies this
      ensures outcome.Refused? ==> State() == old(State())
      ensures outcome.Refused? <==>
                best.None? || best.value >= |old(nodes)| || !old(nodes)[best.value].FitsIgnoringCommitted(want)
      ensures outcome.Refused? ==>
                outcome.code == if best.Some? && best.value >= |old(nodes)| then NodeUnavailable else CapacityExhausted
      ensures !outcome.Refused? ==>
                outcome == Created(|old(holds)|)
                && State() == AddHold(old(State()), best.value, want, key, currency, expires)
    {
      if best.None? {
        return Refused(CapacityExhausted);
      }
      var at := best.value;
      if at >= |nodes| {
        return Refused(NodeUnavailable);
      }
      if !nodes[at].FitsIgnoringCommitted(want) {
        return Refused(CapacityExhausted);
      }
      nodes := nodes[at := nodes[at].(reserved := nodes[at].reserved.Plus(want))];
      holds := holds + [Hold(Some(at), want, Reserved, key, expires, currency, None, "")];
      EmitEvent(|holds| - 1, None, Reserved);
      outcome := Created(|holds| - 1);
    }

    method ReleaseReservation(id: nat, reason: string)
      requires Valid()
      modifies this
      ensures Valid() && Ends(old(State()), State(), id, Released)
      ensures State() == Ledger.ReleaseReservation(old(State()), id, reason)
    {
      EndPromise(base, State(), id, Released, reason);
      EndHoldKeepsInv(base, State(), id, Released, reason);
      EndHold(id, Released, reason);
    }

    method ExpireReservation(id: nat)
      requires Valid()
      modifies this
      ensures Valid() && Ends(old(State()), State(), id, Expired)
      ensures State() == Ledger.ExpireReservation(old(State()), id)
    {
      EndPromise(base, State(), id, Expired, "expired");
      EndHoldKeepsInv(base, State(), id, Expired, "expired");
      EndHold(id, Expired, "expired");
    }

    /** What both do. */
    method EndHold(id: nat, to: HoldState, reason: string)
      modifies this
      ensures State() == Ledger.EndHold(old(State()), id, to, reason)
    {
      if id >= |holds| || Terminal(holds[id].state) {
        return;
      }
      var from := holds[id].state;
      Decrement(holds[id].node, holds[id].want);
      holds := holds[id := holds[id].(state := to, reason := reason)];
      EmitEvent(id, Some(from), to);
    }

    /** sweep_expired_reservations: one query, then one expiry per returned row. */
    method SweepExpired(now: int, maxJobs: nat) returns (count: nat)
      requires Valid()
      modifies this
      ensures Valid() && |holds| == |old(holds)|
      ensures forall h | 0 <= h < |holds| ::
                holds[h] == if h in DueRows(old(holds), now, maxJobs)
                            then old(holds)[h].(state := Expired, reason := "expired") else old(holds)[h]
      ensures State() == ExpireAll(old(State()), DueRows(old(holds), now, maxJobs))
      ensures count == |DueRows(old(holds), now, maxJobs)|
    {
      var rows := DueRows(holds, now, maxJobs);
      SweepExpiresItsRows(State(), rows, now);
      ExpireRows(rows);
      count := |rows|;
    }

    method ExpireRows(rows: seq<nat>)
      requires Valid()
      modifies this
      ensures Valid() && State() == ExpireAll(old(State()), rows)
    {
      ghost var start := State();
      for i := 0 to |rows|
        invariant Valid() && State() == ExpireAll(start, rows[..i])
      {
        assert rows[..i + 1][..i] == rows[..i];
        ExpireReservation(rows[i]);
      }
      assert rows[..|rows|] == rows;
    }

    method BindCheckout(id: nat, key: string, currency: string, platform: int, resources: int, addons: int, now: int)
      returns (outcome: Outcome)
      requires Valid()
      modifies this
      ensures Valid() && Binds(old(State()), State(), outcome, id, key)
      ensures (State(), outcome)
              == Ledger.BindCheckout(old(State()), id, key, currency, platform + resources + addons, now)
    {
      ghost var start := State();
      var existing := Find(checkouts, (c: Checkout) => c.key == key);
      assert existing == FindCheckout(State(), key);
      if |key| < 8 {
        outcome := Refused(InvalidIdempotency);
      } else if existing.Some? {
        outcome := Replayed(existing.value);
      } else if id >= |holds| {
        outcome := Refused(ReservationNotFound);
      } else if !Holding(holds[id].state) {
        outcome := Refused(ReservationNotActive);
      } else if now >= holds[id].expires {
        EndHold(id, Expired, "expired");
        outcome := Refused(ReservationExpired);
      } else if holds[id].currency != "" && currency != "" && holds[id].currency != currency {
        outcome := Refused(CurrencyMismatch);
      } else if exists c | 0 <= c < |checkouts| :: checkouts[c].hold == id {
        outcome := Refused(CheckoutConflict);
      } else {
        checkouts := checkouts + [Checkout(id, key, Pending, AtLeastZero(platform + resources + addons))];
        var from := holds[id].state;
        holds := holds[id := holds[id].(state := CheckoutBound, checkout := Some(|checkouts| - 1))];
        EmitEvent(id, Some(from), CheckoutBound);
        outcome := Created(|checkouts| - 1);
      }
      assert (State(), outcome)
          == Ledger.BindCheckout(start, id, key, currency, platform + resources + addons, now);
      BindPromise(base, start, id, key, currency, platform + resources + addons, now);
      BindKeepsInv(base, start, id, key, currency, platform + resources + addons, now);
    }

    method ConfirmPayment(id: nat) returns (outcome: Outcome)
      requires Valid()
      modifies this
      ensures Valid() && Confirms(old(State()), State(), outcome, id)
      ensures (State(), outcome) == Ledger.ConfirmPayment(old(State()), id)
    {
      ghost var start := State();
      if id >= |checkouts| {
        outcome := Refused(CheckoutNotFound);
      } else if checkouts[id].state == Paid {
        outcome := Done;
      } else if checkouts[id].state != Pending {
        outcome := Refused(CheckoutNotPending);
      } else if checkouts[id].hold >= |holds| {
        outcome := Refused(ReservationNotFound);
      } else if holds[checkouts[id].hold].state != CheckoutBound {
        outcome := Refused(NotCheckoutBound);
      } else {
        var at := checkouts[id].hold;
        Commit(holds[at].node, holds[at].want);
        holds := holds[at := holds[at].(state := Committed)];
        checkouts := checkouts[id := checkouts[id].(state := Paid)];
        EmitEvent(at, Some(CheckoutBound), Committed);
        outcome := Done;
      }
      assert (State(), outcome) == Ledger.ConfirmPayment(start, id);
      ConfirmPromise(base, start, id);
      ConfirmKeepsInv(base, start, id);
    }

    method FailPayment(id: nat)
      requires Valid()
      modifies this
      ensures Valid() && Fails(old(State()), State(), id)
      ensures State() == Ledger.FailPayment(old(State()), id)
    {
      FailPromise(base, State(), id);
      FailPaymentKeepsInv(base, State(), id);
      if id >= |checkouts| || checkouts[id].state != Pending {
        return;
      }
      checkouts := checkouts[id := checkouts[id].(state := Failed)];
      EndHold(checkouts[id].hold, Released, "payment_failed");
    }

    /** acquire_reservation after placement: one conditional UPDATE, then the insert. */
    method Acquire(pick: nat, key: string, request: string, want: Want) returns (outcome: Outcome)
      requires Valid()
      modifies this
      ensures Valid() && Acquires(old(State()), State(), outcome, key, request, want)
      ensures (State(), outcome) == Ledger.Acquire(old(State()), pick, key, request, want)
    {
      AcquirePromise(State(), pick, key, request, want);
      AcquireKeepsInv(base, State(), pick, key, request, want);
      var existing := FindClaim(Db(nodes, quotes, holds, checkouts, claims, log), key, request);
      if existing.Some? {
        return Replayed(existing.value);
      }
      if pick >= |nodes| || !UpdateMatches(nodes[pick], want) {
        return Refused(CapacityExhausted);
      }
      nodes := nodes[pick := nodes[pick].(reserved := nodes[pick].reserved.Plus(want))];
      claims := claims + [Claim(pick, want, Active, key, request)];
      outcome := Created(|claims| - 1);
    }

    /** release_reservation, expire_reservation and fail_reservation of a claim. */
    method EndClaim(id: nat, to: Status)
      requires Valid() && to in {Freed, TimedOut, Broken}
      modifies this
      ensures Valid() && ClaimEnds(old(State()), State(), id, to)
      ensures State() == Ledger.EndClaim(old(State()), id, to)
    {
      EndClaimPromise(base, State(), id, to);
      EndClaimKeepsInv(base, State(), id, to);
      if id >= |claims| || claims[id].status != Active {
        return;
      }
      Decrement(Some(claims[id].node), claims[id].want);
      claims := claims[id := claims[id].(status := to)];
    }

    method ConsumeClaim(id: nat) returns (outcome: Outcome)
      requires Valid()
      modifies this
      ensures Valid() && ClaimEnds(old(State()), State(), id, Consumed)
      ensures (State(), outcome) == Ledger.ConsumeClaim(old(State()), id)
    {
      ghost var start := State();
      if id >= |claims| || claims[id].status == Consumed {
        outcome := Done;
      } else if claims[id].status != Active {
        outcome := Refused(InvalidState);
      } else {
        Commit(Some(claims[id].node), claims[id].want);
        claims := claims[id := claims[id].(status := Consumed)];
        outcome := Done;
      }
      ConsumePromise(base, start, id);
      ConsumeKeepsInv(base, start, id);
    }

    method Commit(at: Option<nat>, want: Res)
      modifies this`nodes
      ensures nodes == MoveToCommitted(old(nodes), at, want)
    {
      if at.Some? && at.value < |nodes| {
        Decrement(at, want);
        nodes := nodes[at.value := nodes[at.value].(committed := nodes[at.value].committed.Plus(want))];
      }
    }

    method Decrement(at: Option<nat>, want: Res)
      modifies this`nodes
      ensures nodes == GiveBack(old(nodes), at, want)
    {
      if at.Some? && at.value < |nodes| {
        nodes := nodes[at.value := nodes[at.value].(reserved := nodes[at.value].reserved.Minus(want).Floor())];
      }
    }

    method EmitEvent(hold: nat, from: Option<HoldState>, to: HoldState)
      modifies this`log
      ensures log == old(log) + [Event(hold, from, to)]
    {
      log := log + [Event(hold, from, to)];
    }
  }
}
