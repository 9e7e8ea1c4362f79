/** What every transaction keeps: counters that equal the sums over the surviving rows, room on every
    node, one paid checkout per committed hold, unique keys, and an audit log that replays. */
module LedgerInvariants {
  import opened Capacity
  import opened Ledger
  import opened Resources
  import opened Wrappers

  // ---------------------------------------------------------------- definitions

  ghost function HeldBy(n: nat): Hold -> Res {
    (h: Hold) => if Holding(h.state) && h.node == Some(n) then h.want else NOTHING
  }

  ghost function SoldBy(n: nat): Hold -> Res {
    (h: Hold) => if h.state == Committed && h.node == Some(n) then h.want else NOTHING
  }

  ghost function ClaimedBy(n: nat): Claim -> Res {
    (c: Claim) => if c.status == Active && c.node == n then c.want else NOTHING
  }

  ghost function ConsumedBy(n: nat): Claim -> Res {
    (c: Claim) => if c.status == Consumed && c.node == n then c.want else NOTHING
  }

  /** Both counters of node n equal its opening values plus the sums over the rows of both tables. */
  ghost predicate NodeBalanced(base: Node, node: Node, holds: seq<Hold>, claims: seq<Claim>, n: nat) {
    && node.total == base.total && node.reserve == base.reserve && node.inUse == base.inUse
    && node.reserved == base.reserved.Plus(Total(holds, HeldBy(n))).Plus(Total(claims, ClaimedBy(n)))
    && node.committed == base.committed.Plus(Total(holds, SoldBy(n))).Plus(Total(claims, ConsumedBy(n)))
  }

  ghost predicate Balanced(base: seq<Node>, db: Db) {
    && |db.nodes| == |base|
    && forall n | 0 <= n < |base| :: NodeBalanced(base[n], db.nodes[n], db.holds, db.claims, n)
  }

  ghost predicate NoOvercommit(nodes: seq<Node>) { forall n | 0 <= n < |nodes| :: nodes[n].Roomy() }

  ghost predicate NoDrafts(holds: seq<Hold>) { forall i | 0 <= i < |holds| :: holds[i].state != Draft }

  ghost predicate UniqueHolds(holds: seq<Hold>) {
    forall i, j | 0 <= i < j < |holds| :: holds[i].key != holds[j].key
  }

  ghost predicate UniqueCheckouts(checkouts: seq<Checkout>) {
    forall i, j | 0 <= i < j < |checkouts| ::
      checkouts[i].key != checkouts[j].key && checkouts[i].hold != checkouts[j].hold
  }

  ghost predicate UniqueClaims(claims: seq<Claim>) {
    forall i, j | 0 <= i < j < |claims| ::
      claims[i].key != claims[j].key && claims[i].request != claims[j].request
  }

  /** The states a hold can be in while its checkout is in a given state. */
  predicate Agree(checkout: CheckoutState, hold: HoldState) {
    match checkout
    case Pending => hold in {CheckoutBound, Released, Expired}
    case Paid => hold == Committed
    case Failed => hold in {Released, Expired}
  }

  /** Payment and capacity tell the same story. */
  ghost predicate Bound(holds: seq<Hold>, checkouts: seq<Checkout>) {
    && (forall c | 0 <= c < |checkouts| ::
          && checkouts[c].hold < |holds|
          && Agree(checkouts[c].state, holds[checkouts[c].hold].state)
          && holds[checkouts[c].hold].checkout == Some(c))
    && (forall h | 0 <= h < |holds| && holds[h].state in {CheckoutBound, Committed} ::
          && holds[h].checkout.Some?
          && holds[h].checkout.value < |checkouts|
          && checkouts[holds[h].checkout.value].hold == h)
  }

  /** Replays one hold's events from draft; None when an event does not start where the previous one
      ended or is not in the transition table. */
  function Replay(log: seq<Event>, hold: nat): Option<HoldState> {
    if log == [] then Some(Draft)
    else
      var before, last := Replay(log[..|log| - 1], hold), log[|log| - 1];
      if last.hold == hold then Extend(before, last) else before
  }

  function Extend(before: Option<HoldState>, last: Event): Option<HoldState> {
    if before.Some? && last.from == (if before.value == Draft then None else before) && Legal(before.value, last.to)
    then Some(last.to) else None
  }

  ghost predicate Logged(holds: seq<Hold>, log: seq<Event>) {
    && (forall h | 0 <= h < |holds| :: Replay(log, h) == Some(holds[h].state))
    && (forall h: nat | |holds| <= h :: Replay(log, h) == Some(Draft))
  }

  ghost predicate Records(db: Db) {
    && NoDrafts(db.holds)
    && UniqueHolds(db.holds) && UniqueCheckouts(db.checkouts) && UniqueClaims(db.claims)
    && Bound(db.holds, db.checkouts)
    && Logged(db.holds, db.log)
  }

  ghost predicate Inv(base: seq<Node>, db: Db) {
    Balanced(base, db) && NoOvercommit(db.nodes) && Records(db)
  }

  /** An opening state: no negative counter and no node sold out beyond its total. */
  predicate SoundBase(base: seq<Node>) {
    forall n | 0 <= n < |base| ::
      base[n].reserved.Nonnegative() && base[n].committed.Nonnegative() && base[n].Roomy()
  }

  // ---------------------------------------------------------------- counters

  /** The amount a row is about to give back is really in the counter, so max(0, ...) never bites. */
  lemma ReservedCoversHold(base: Node, node: Node, holds: seq<Hold>, claims: seq<Claim>, id: nat, n: nat)
    requires base.reserved.Nonnegative() && NodeBalanced(base, node, holds, claims, n)
    requires id < |holds| && Holding(holds[id].state) && holds[id].node == Some(n)
    ensures holds[id].want.AtMost(node.reserved)
  {
    TotalCoversRow(holds, id, HeldBy(n));
    TotalNonnegative(claims, ClaimedBy(n));
  }

  lemma ReservedCoversClaim(base: Node, node: Node, holds: seq<Hold>, claims: seq<Claim>, id: nat)
    requires id < |claims| && claims[id].status == Active
    requires base.reserved.Nonnegative() && NodeBalanced(base, node, holds, claims, claims[id].node)
    ensures claims[id].want.AtMost(node.reserved)
  {
    TotalCoversRow(claims, id, ClaimedBy(claims[id].node));
    TotalNonnegative(holds, HeldBy(claims[id].node));
  }

  /** A bucket stays the opening value plus two sums when one of them moves together with it. */
  lemma BucketMoves(base: Res, bucket: Res, mine: Res, other: Res, was: Res, becomes: Res)
    requires bucket == base.Plus(mine).Plus(other)
    ensures bucket.Minus(was).Plus(becomes) == base.Plus(mine.Minus(was).Plus(becomes)).Plus(other)
    ensures bucket.Minus(was).Plus(becomes) == base.Plus(other).Plus(mine.Minus(was).Plus(becomes))
  {
  }

  /** Replacing one hold row moves the sums of node n by that row's change. */
  lemma HoldUpdate(base: Node, node: Node, after: Node, holds: seq<Hold>, claims: seq<Claim>, id: nat, hold: Hold,
      n: nat)
    requires NodeBalanced(base, node, holds, claims, n) && id < |holds|
    requires after.total == node.total && after.reserve == node.reserve && after.inUse == node.inUse
    requires after.reserved == node.reserved.Minus(HeldBy(n)(holds[id])).Plus(HeldBy(n)(hold))
    requires after.committed == node.committed.Minus(SoldBy(n)(holds[id])).Plus(SoldBy(n)(hold))
    ensures NodeBalanced(base, after, holds[id := hold], claims, n)
  {
    assert after.reserved == base.reserved.Plus(Total(holds[id := hold], HeldBy(n))).Plus(Total(claims,
        ClaimedBy(n))) by {
      TotalUpdate(holds, id, hold, HeldBy(n));
      BucketMoves(base.reserved, node.reserved, Total(holds, HeldBy(n)), Total(claims, ClaimedBy(n)),
                  HeldBy(n)(holds[id]), HeldBy(n)(hold));
    }
    assert after.committed == base.committed.Plus(Total(holds[id := hold], SoldBy(n))).Plus(Total(claims,
        ConsumedBy(n))) by {
      TotalUpdate(holds, id, hold, SoldBy(n));
      BucketMoves(base.committed, node.committed, Total(holds, SoldBy(n)), Total(claims, ConsumedBy(n)),
                  SoldBy(n)(holds[id]), SoldBy(n)(hold));
    }
  }

  lemma ClaimUpdate(base: Node, node: Node, after: Node, holds: seq<Hold>, claims: seq<Claim>, id: nat, claim: Claim,
      n: nat)
    requires NodeBalanced(base, node, holds, claims, n) && id < |claims|
    requires after.total == node.total && after.reserve == node.reserve && after.inUse == node.inUse
    requires after.reserved == node.reserved.Minus(ClaimedBy(n)(claims[id])).Plus(ClaimedBy(n)(claim))
    requires after.committed == node.committed.Minus(ConsumedBy(n)(claims[id])).Plus(ConsumedBy(n)(claim))
    ensures NodeBalanced(base, after, holds, claims[id := claim], n)
  {
    assert after.reserved == base.reserved.Plus(Total(holds, HeldBy(n))).Plus(Total(claims[id := claim],
        ClaimedBy(n))) by {
      TotalUpdate(claims, id, claim, ClaimedBy(n));
      BucketMoves(base.reserved, node.reserved, Total(claims, ClaimedBy(n)), Total(holds, HeldBy(n)),
                  ClaimedBy(n)(claims[id]), ClaimedBy(n)(claim));
    }
    assert after.committed == base.committed.Plus(Total(holds, SoldBy(n))).Plus(Total(claims[id := claim],
        ConsumedBy(n))) by {
      TotalUpdate(claims, id, claim, ConsumedBy(n));
      BucketMoves(base.committed, node.committed, Total(claims, ConsumedBy(n)), Total(holds, SoldBy(n)),
                  ConsumedBy(n)(claims[id]), ConsumedBy(n)(claim));
    }
  }

  /** A row inserted with its amount taken from node n. */
  lemma HoldInsert(base: Node, node: Node, after: Node, holds: seq<Hold>, claims: seq<Claim>, hold: Hold, n: nat)
    requires NodeBalanced(base, node, holds, claims, n) && hold.state == Reserved
    requires after.total == node.total && after.reserve == node.reserve && after.inUse == node.inUse
    requires after.reserved == node.reserved.Plus(HeldBy(n)(hold)) && after.committed == node.committed
    ensures NodeBalanced(base, after, holds + [hold], claims, n)
  {
    assert after.reserved == base.reserved.Plus(Total(holds + [hold], HeldBy(n))).Plus(Total(claims, ClaimedBy(n))) by {
      TotalAppend(holds, hold, HeldBy(n));
      BucketMoves(base.reserved, node.reserved, Total(holds, HeldBy(n)), Total(claims, ClaimedBy(n)), NOTHING,
          HeldBy(n)(hold));
    }
    assert SoldBy(n)(hold) == NOTHING;
    TotalAppendNothing(holds, hold, SoldBy(n));
  }

  lemma ClaimInsert(base: Node, node: Node, after: Node, holds: seq<Hold>, claims: seq<Claim>, claim: Claim, n: nat)
    requires NodeBalanced(base, node, holds, claims, n) && claim.status == Active
    requires after.total == node.total && after.reserve == node.reserve && after.inUse == node.inUse
    requires after.reserved == node.reserved.Plus(ClaimedBy(n)(claim)) && after.committed == node.committed
    ensures NodeBalanced(base, after, holds, claims + [claim], n)
  {
    assert after.reserved == base.reserved.Plus(Total(holds, HeldBy(n))).Plus(Total(claims + [claim],
        ClaimedBy(n))) by {
      TotalAppend(claims, claim, ClaimedBy(n));
      BucketMoves(base.reserved, node.reserved, Total(claims, ClaimedBy(n)), Total(holds, HeldBy(n)), NOTHING,
          ClaimedBy(n)(claim));
    }
    assert ConsumedBy(n)(claim) == NOTHING;
    TotalAppendNothing(claims, claim, ConsumedBy(n));
  }

  /** A hold that stops holding without being sold gives its amount back. */
  lemma EndHoldKeepsBalance(base: seq<Node>, db: Db, id: nat, hold: Hold)
    requires SoundBase(base) && Balanced(base, db) && id < |db.holds| && Holding(db.holds[id].state)
    requires !Holding(hold.state) && hold.state != Committed
    ensures Balanced(base, db.(nodes := GiveBack(db.nodes, db.holds[id].node, db.holds[id].want),
                               holds := db.holds[id := hold]))
  {
    var was := db.holds[id];
    var nodes := GiveBack(db.nodes, was.node, was.want);
    forall n | 0 <= n < |base| ensures NodeBalanced(base[n], nodes[n], db.holds[id := hold], db.claims, n) {
      assert NodeBalanced(base[n], db.nodes[n], db.holds, db.claims, n);
      if was.node == Some(n) {
        ReservedCoversHold(base[n], db.nodes[n], db.holds, db.claims, id, n);
      }
      HoldUpdate(base[n], db.nodes[n], nodes[n], db.holds, db.claims, id, hold, n);
    }
  }

  /** A hold that is sold moves its amount from one bucket to the other. */
  lemma CommitKeepsBalance(base: seq<Node>, db: Db, id: nat)
    requires SoundBase(base) && Balanced(base, db) && id < |db.holds| && Holding(db.holds[id].state)
    ensures Balanced(base, db.(nodes := MoveToCommitted(db.nodes, db.holds[id].node, db.holds[id].want),
                               holds := db.holds[id := db.holds[id].(state := Committed)]))
  {
    var was := db.holds[id];
    var hold := was.(state := Committed);
    var nodes := MoveToCommitted(db.nodes, was.node, was.want);
    forall n | 0 <= n < |base| ensures NodeBalanced(base[n], nodes[n], db.holds[id := hold], db.claims, n) {
      assert NodeBalanced(base[n], db.nodes[n], db.holds, db.claims, n);
      CommitKeepsNode(base[n], db.nodes[n], nodes[n], db.holds, db.claims, id, n);
    }
  }

  lemma CommitKeepsNode(
    base: Node, node: Node, after: Node, holds: seq<Hold>, claims: seq<Claim>, id: nat, n: nat)
    requires base.reserved.Nonnegative() && NodeBalanced(base, node, holds, claims, n)
    requires id < |holds| && Holding(holds[id].state)
    requires after == if holds[id].node != Some(n) then node
                      else node.(reserved := node.reserved.Minus(holds[id].want).Floor(),
                                 committed := node.committed.Plus(holds[id].want))
    ensures NodeBalanced(base, after, holds[id := holds[id].(state := Committed)], claims, n)
  {
    if holds[id].node == Some(n) {
      ReservedCoversHold(base, node, holds, claims, id, n);
    }
    HoldUpdate(base, node, after, holds, claims, id, holds[id].(state := Committed), n);
  }

  lemma BindKeepsBalance(base: seq<Node>, db: Db, id: nat, hold: Hold)
    requires Balanced(base, db) && id < |db.holds|
    requires hold.node == db.holds[id].node && hold.want == db.holds[id].want
    requires Holding(hold.state) && Holding(db.holds[id].state)
    ensures Balanced(base, db.(holds := db.holds[id := hold]))
  {
    forall n | 0 <= n < |base| ensures NodeBalanced(base[n], db.nodes[n], db.holds[id := hold], db.claims, n) {
      assert NodeBalanced(base[n], db.nodes[n], db.holds, db.claims, n);
      HoldUpdate(base[n], db.nodes[n], db.nodes[n], db.holds, db.claims, id, hold, n);
    }
  }

  lemma NewHoldKeepsBalance(base: seq<Node>, db: Db, at: nat, want: Want, key: string, currency: string, expires: int)
    requires Balanced(base, db) && at < |db.nodes|
    ensures Balanced(base, AddHold(db, at, want, key, currency, expires))
  {
    var after := AddHold(db, at, want, key, currency, expires);
    forall n | 0 <= n < |base| ensures NodeBalanced(base[n], after.nodes[n], after.holds, after.claims, n) {
      assert NodeBalanced(base[n], db.nodes[n], db.holds, db.claims, n);
      HoldInsert(base[n], db.nodes[n], after.nodes[n], db.holds, db.claims, after.holds[|db.holds|], n);
    }
  }

  lemma NewClaimKeepsBalance(base: seq<Node>, db: Db, claim: Claim)
    requires Balanced(base, db) && claim.node < |db.nodes| && claim.status == Active
    ensures Balanced(base, db.(nodes := TakeFrom(db.nodes, claim.node, claim.want), claims := db.claims + [claim]))
  {
    var nodes := TakeFrom(db.nodes, claim.node, claim.want);
    forall n | 0 <= n < |base| ensures NodeBalanced(base[n], nodes[n], db.holds, db.claims + [claim], n) {
      assert NodeBalanced(base[n], db.nodes[n], db.holds, db.claims, n);
      ClaimInsert(base[n], db.nodes[n], nodes[n], db.holds, db.claims, claim, n);
    }
  }

  /** The same two moves for a claim. */
  lemma EndClaimKeepsBalance(base: seq<Node>, db: Db, id: nat, to: Status)
    requires SoundBase(base) && Balanced(base, db) && id < |db.claims| && db.claims[id].status == Active
    requires to != Active && to != Consumed
    ensures Balanced(base, EndClaim(db, id, to))
  {
    var claim := db.claims[id];
    var after := EndClaim(db, id, to);
    forall n | 0 <= n < |base| ensures NodeBalanced(base[n], after.nodes[n], after.holds, after.claims, n) {
      assert NodeBalanced(base[n], db.nodes[n], db.holds, db.claims, n);
      if claim.node == n {
        ReservedCoversClaim(base[n], db.nodes[n], db.holds, db.claims, id);
      }
      ClaimUpdate(base[n], db.nodes[n], after.nodes[n], db.holds, db.claims, id, claim.(status := to), n);
    }
  }

  lemma ConsumeKeepsBalance(base: seq<Node>, db: Db, id: nat)
    requires SoundBase(base) && Balanced(base, db) && id < |db.claims| && db.claims[id].status == Active
    ensures Balanced(base, ConsumeClaim(db, id).0)
  {
    var claim := db.claims[id];
    var after := ConsumeClaim(db, id).0;
    forall n | 0 <= n < |base| ensures NodeBalanced(base[n], after.nodes[n], after.holds, after.claims, n) {
      assert NodeBalanced(base[n], db.nodes[n], db.holds, db.claims, n);
      if claim.node == n {
        ReservedCoversClaim(base[n], db.nodes[n], db.holds, db.claims, id);
      }
      ClaimUpdate(base[n], db.nodes[n], after.nodes[n], db.holds, db.claims, id, claim.(status := Consumed), n);
    }
  }

  // ---------------------------------------------------------------- room

  lemma CountersNonnegative(base: seq<Node>, db: Db, n: nat)
    requires SoundBase(base) && Balanced(base, db) && n < |base|
    ensures db.nodes[n].reserved.Nonnegative() && db.nodes[n].committed.Nonnegative()
  {
    assert NodeBalanced(base[n], db.nodes[n], db.holds, db.claims, n);
    TotalNonnegative(db.holds, HeldBy(n));
    TotalNonnegative(db.holds, SoldBy(n));
    TotalNonnegative(db.claims, ClaimedBy(n));
    TotalNonnegative(db.claims, ConsumedBy(n));
  }

  lemma TakeKeepsRoom(nodes: seq<Node>, at: nat, want: Want)
    requires NoOvercommit(nodes) && at < |nodes| && nodes[at].CanFit(want)
    ensures NoOvercommit(TakeFrom(nodes, at, want))
  {
    assert nodes[at].Roomy();
  }

  lemma GiveBackKeepsRoom(base: seq<Node>, db: Db, at: Option<nat>, want: Want)
    requires SoundBase(base) && Balanced(base, db) && NoOvercommit(db.nodes)
    ensures NoOvercommit(GiveBack(db.nodes, at, want))
  {
    if at.Some? && at.value < |base| {
      CountersNonnegative(base, db, at.value);
      assert db.nodes[at.value].Roomy();
    }
  }

  lemma CommitKeepsRoom(nodes: seq<Node>, at: Option<nat>, want: Want)
    requires NoOvercommit(nodes)
    requires at.Some? && at.value < |nodes| ==> want.AtMost(nodes[at.value].reserved)
    ensures NoOvercommit(MoveToCommitted(nodes, at, want))
  {
    if at.Some? && at.value < |nodes| {
      assert nodes[at.value].Roomy();
    }
  }

  // ---------------------------------------------------------------- keys, payment and log

  lemma ReplayAppend(log: seq<Event>, last: Event, hold: nat)
    ensures Replay(log + [last], hold) ==
            if last.hold == hold then Extend(Replay(log, hold), last) else Replay(log, hold)
  {
    assert (log + [last])[..|log|] == log;
  }

  /** A hold that moves along the table and appends the matching event keeps the log faithful. */
  lemma EventKeepsLog(holds: seq<Hold>, log: seq<Event>, id: nat, hold: Hold)
    requires Logged(holds, log) && NoDrafts(holds) && id < |holds| && Legal(holds[id].state, hold.state)
    ensures Logged(holds[id := hold], log + [Event(id, Some(holds[id].state), hold.state)])
  {
    var last := Event(id, Some(holds[id].state), hold.state);
    forall h: nat
      ensures Replay(log + [last], h) == if h == id then Some(hold.state) else Replay(log, h)
    {
      ReplayAppend(log, last, h);
    }
  }

  lemma NewHoldKeepsRecords(db: Db, hold: Hold)
    requires Records(db) && hold.state == Reserved && hold.checkout.None?
    requires forall i | 0 <= i < |db.holds| :: db.holds[i].key != hold.key
    ensures Records(db.(holds := db.holds + [hold], log := db.log + [Event(|db.holds|, None, Reserved)]))
  {
    var log := db.log + [Event(|db.holds|, None, Reserved)];
    forall h: nat
      ensures Replay(log, h) == if h == |db.holds| then Some(Reserved) else Replay(db.log, h)
    {
      ReplayAppend(db.log, Event(|db.holds|, None, Reserved), h);
    }
  }

  lemma EndHoldKeepsRecords(db: Db, id: nat, hold: Hold)
    requires Records(db) && id < |db.holds| && Holding(db.holds[id].state)
    requires hold.key == db.holds[id].key && hold.checkout == db.holds[id].checkout
    requires hold.state in {Released, Expired}
    ensures Records(db.(holds := db.holds[id := hold],
                        log := db.log + [Event(id, Some(db.holds[id].state), hold.state)]))
  {
    EventKeepsLog(db.holds, db.log, id, hold);
  }

  lemma BindKeepsRecords(db: Db, id: nat, checkout: Checkout)
    requires Records(db) && id < |db.holds| && Holding(db.holds[id].state)
    requires checkout.hold == id && checkout.state == Pending
    requires forall c | 0 <= c < |db.checkouts| :: db.checkouts[c].hold != id && db.checkouts[c].key != checkout.key
    ensures var hold := db.holds[id].(state := CheckoutBound, checkout := Some(|db.checkouts|));
            Records(db.(checkouts := db.checkouts + [checkout], holds := db.holds[id := hold],
                        log := db.log + [Event(id, Some(db.holds[id].state), CheckoutBound)]))
  {
    assert db.holds[id].state == Reserved;
    EventKeepsLog(db.holds, db.log, id, db.holds[id].(state := CheckoutBound, checkout := Some(|db.checkouts|)));
  }

  lemma ConfirmKeepsRecords(db: Db, id: nat)
    requires Records(db) && id < |db.checkouts| && db.checkouts[id].state == Pending
    requires db.holds[db.checkouts[id].hold].state == CheckoutBound
    ensures var at := db.checkouts[id].hold;
            Records(db.(holds := db.holds[at := db.holds[at].(state := Committed)],
                        checkouts := db.checkouts[id := db.checkouts[id].(state := Paid)],
                        log := db.log + [Event(at, Some(CheckoutBound), Committed)]))
  {
    var at := db.checkouts[id].hold;
    EventKeepsLog(db.holds, db.log, at, db.holds[at].(state := Committed));
  }

  lemma FailKeepsRecords(db: Db, id: nat)
    requires Records(db) && id < |db.checkouts| && db.checkouts[id].state == Pending
    requires db.holds[db.checkouts[id].hold].state in {Released, Expired}
    ensures Records(db.(checkouts := db.checkouts[id := db.checkouts[id].(state := Failed)]))
  {
  }

  // ---------------------------------------------------------------- one transaction

  lemma EndHoldKeepsInv(base: seq<Node>, db: Db, id: nat, to: HoldState, reason: string)
    requires SoundBase(base) && Inv(base, db) && to in {Released, Expired}
    ensures Inv(base, EndHold(db, id, to, reason))
  {
    if id < |db.holds| && !Terminal(db.holds[id].state) {
      var hold := db.holds[id];
      EndHoldKeepsBalance(base, db, id, hold.(state := to, reason := reason));
      GiveBackKeepsRoom(base, db, hold.node, hold.want);
      EndHoldKeepsRecords(db, id, hold.(state := to, reason := reason));
    }
  }

  lemma AddHoldKeepsInv(base: seq<Node>, db: Db, at: nat, want: Want, key: string, currency: string, expires: int)
    requires Inv(base, db) && at < |db.nodes| && db.nodes[at].CanFit(want)
    requires forall i | 0 <= i < |db.holds| :: db.holds[i].key != key
    ensures Inv(base, AddHold(db, at, want, key, currency, expires))
  {
    NewHoldKeepsBalance(base, db, at, want, key, currency, expires);
    TakeKeepsRoom(db.nodes, at, want);
    NewHoldKeepsRecords(db, Hold(Some(at), want, Reserved, key, expires, currency, None, ""));
  }

  /** What reserve_capacity does: nothing, or one new hold on a node that fits it, under a new key. */
  lemma ReserveCases(db: Db, quote: nat, key: string, currency: string, now: int, ttl: nat) returns (at: nat)
    ensures var (after, outcome) := ReserveCapacity(db, quote, key, currency, now, ttl);
            if outcome.Created?
            then
              && quote < |db.quotes| && at < |db.nodes| && db.nodes[at].CanFit(db.quotes[quote].want)
              && (forall i | 0 <= i < |db.holds| :: db.holds[i].key != key)
              && after == AddHold(db, at, db.quotes[quote].want, key, currency, now + ttl)
            else after == db
  {
    at := 0;
    var found := FindHold(db, key);
    if |key| >= 8 && found.None? && quote < |db.quotes| {
      var best := Preferred(Cluster(db.nodes), db.quotes[quote].want);
      if best.Some? {
        at := best.value;
      }
    }
  }

  lemma ReserveKeepsInv(base: seq<Node>, db: Db, quote: nat, key: string, currency: string, now: int, ttl: nat)
    requires Inv(base, db)
    ensures Inv(base, ReserveCapacity(db, quote, key, currency, now, ttl).0)
  {
    var at := ReserveCases(db, quote, key, currency, now, ttl);
    var (after, outcome) := ReserveCapacity(db, quote, key, currency, now, ttl);
    HoldOrNothingKeepsInv(base, db, after, outcome.Created?, at,
                          if quote < |db.quotes| then db.quotes[quote].want else NOTHING, key, currency, now + ttl);
  }

  lemma HoldOrNothingKeepsInv(
    base: seq<Node>, db: Db, after: Db, made: bool, at: nat, want: Want, key: string, currency: string, expires: int)
    requires Inv(base, db)
    requires made ==> at < |db.nodes| && db.nodes[at].CanFit(want)
    requires made ==> forall i | 0 <= i < |db.holds| :: db.holds[i].key != key
    requires after == if made then AddHold(db, at, want, key, currency, expires) else db
    ensures Inv(base, after)
  {
    if made {
      AddHoldKeepsInv(base, db, at, want, key, currency, expires);
    }
  }

  lemma BindKeepsInv(base: seq<Node>, db: Db, id: nat, key: string, currency: string, cents: int, now: int)
    requires SoundBase(base) && Inv(base, db)
    ensures Inv(base, BindCheckout(db, id, key, currency, cents, now).0)
  {
    var (after, outcome) := BindCheckout(db, id, key, currency, cents, now);
    if outcome == Refused(ReservationExpired) {
      EndHoldKeepsInv(base, db, id, Expired, "expired");
    } else if outcome.Created? {
      BindKeepsBalance(base, db, id, after.holds[id]);
      BindKeepsRecords(db, id, after.checkouts[|db.checkouts|]);
    }
  }

  lemma ConfirmKeepsInv(base: seq<Node>, db: Db, id: nat)
    requires SoundBase(base) && Inv(base, db)
    ensures Inv(base, ConfirmPayment(db, id).0)
  {
    var (after, outcome) := ConfirmPayment(db, id);
    if outcome == Done && db.checkouts[id].state != Paid {
      var at := db.checkouts[id].hold;
      var hold := db.holds[at];
      if hold.node.Some? && hold.node.value < |base| {
        var n := hold.node.value;
        assert NodeBalanced(base[n], db.nodes[n], db.holds, db.claims, n);
        ReservedCoversHold(base[n], db.nodes[n], db.holds, db.claims, at, n);
      }
      CommitKeepsBalance(base, db, at);
      CommitKeepsRoom(db.nodes, hold.node, hold.want);
      ConfirmKeepsRecords(db, id);
    }
  }

  lemma FailPaymentKeepsInv(base: seq<Node>, db: Db, id: nat)
    requires SoundBase(base) && Inv(base, db)
    ensures Inv(base, FailPayment(db, id))
  {
    if id < |db.checkouts| && db.checkouts[id].state == Pending {
      // The two writes touch different tables, so they may be taken in the other order.
      var at := db.checkouts[id].hold;
      var released := ReleaseReservation(db, at, "payment_failed");
      EndHoldKeepsInv(base, db, at, Released, "payment_failed");
      FailKeepsRecords(released, id);
      assert FailPayment(db, id) == released.(checkouts := db.checkouts[id := db.checkouts[id].(state := Failed)]);
    }
  }

  lemma EndClaimKeepsInv(base: seq<Node>, db: Db, id: nat, to: Status)
    requires SoundBase(base) && Inv(base, db) && to != Active && to != Consumed
    ensures Inv(base, EndClaim(db, id, to))
  {
    if id < |db.claims| && db.claims[id].status == Active {
      EndClaimKeepsBalance(base, db, id, to);
      GiveBackKeepsRoom(base, db, Some(db.claims[id].node), db.claims[id].want);
    }
  }

  lemma ConsumeKeepsInv(base: seq<Node>, db: Db, id: nat)
    requires SoundBase(base) && Inv(base, db)
    ensures Inv(base, ConsumeClaim(db, id).0)
  {
    if id < |db.claims| && db.claims[id].status == Active {
      var claim := db.claims[id];
      if claim.node < |base| {
        assert NodeBalanced(base[claim.node], db.nodes[claim.node], db.holds, db.claims, claim.node);
        ReservedCoversClaim(base[claim.node], db.nodes[claim.node], db.holds, db.claims, id);
      }
      ConsumeKeepsBalance(base, db, id);
      CommitKeepsRoom(db.nodes, Some(claim.node), claim.want);
    }
  }

  /** The conditional UPDATE is safe however old the snapshot behind `pick` is. */
  lemma AcquireKeepsInv(base: seq<Node>, db: Db, pick: nat, key: string, request: string, want: Want)
    requires Inv(base, db)
    ensures Inv(base, Acquire(db, pick, key, request, want).0)
  {
    var (after, outcome) := Acquire(db, pick, key, request, want);
    if outcome.Created? {
      NewClaimKeepsBalance(base, db, after.claims[|db.claims|]);
    }
  }

  lemma {:induction false} ExpireAllKeepsInv(base: seq<Node>, db: Db, rows: seq<nat>)
    requires SoundBase(base) && Inv(base, db)
    ensures Inv(base, ExpireAll(db, rows))
  {
    if rows != [] {
      ExpireAllKeepsInv(base, db, rows[..|rows| - 1]);
      EndHoldKeepsInv(base, ExpireAll(db, rows[..|rows| - 1]), rows[|rows| - 1], Expired, "expired");
    }
  }

  lemma SetActiveKeepsInv(base: seq<Node>, db: Db, at: nat, on: bool)
    requires Inv(base, db) && at < |db.nodes|
    ensures Inv(base, db.(nodes := db.nodes[at := db.nodes[at].(active := on)]))
  {
    assert db.nodes[at].Roomy();
    assert NodeBalanced(base[at], db.nodes[at], db.holds, db.claims, at);
  }

  lemma StepKeepsInv(base: seq<Node>, db: Db, cmd: Cmd)
    requires SoundBase(base) && Inv(base, db)
    ensures Inv(base, Step(db, cmd))
  {
    match cmd
    case PublishQuote(_) =>
    case Reserve(quote, key, currency, now, ttl) => ReserveKeepsInv(base, db, quote, key, currency, now, ttl);
    case Release(id, reason) => EndHoldKeepsInv(base, db, id, Released, reason);
    case Expire(id) => EndHoldKeepsInv(base, db, id, Expired, "expired");
    case Sweep(rows) => ExpireAllKeepsInv(base, db, rows);
    case Bind(id, key, currency, cents, now) => BindKeepsInv(base, db, id, key, currency, cents, now);
    case Confirm(id) => ConfirmKeepsInv(base, db, id);
    case FailPay(id) => FailPaymentKeepsInv(base, db, id);
    case AcquireClaim(pick, key, request, want) => AcquireKeepsInv(base, db, pick, key, request, want);
    case ReleaseClaim(id) => EndClaimKeepsInv(base, db, id, Freed);
    case ExpireClaim(id) => EndClaimKeepsInv(base, db, id, TimedOut);
    case FailClaim(id) => EndClaimKeepsInv(base, db, id, Broken);
    case Consume(id) => ConsumeKeepsInv(base, db, id);
    case SetActive(at, on) => if at < |db.nodes| { SetActiveKeepsInv(base, db, at, on); }
  }

  // ---------------------------------------------------------------- all runs

  /** Main result: after any sequence of transactions by any number of clients. */
  lemma {:induction false} LedgerIsSound(base: seq<Node>, cmds: seq<Cmd>)
    requires SoundBase(base)
    ensures Inv(base, Run(Opening(base), cmds))
  {
    if cmds == [] {
      assert forall n | 0 <= n < |base| :: NodeBalanced(base[n], base[n], [], [], n);
    } else {
      LedgerIsSound(base, cmds[..|cmds| - 1]);
      StepKeepsInv(base, Run(Opening(base), cmds[..|cmds| - 1]), cmds[|cmds| - 1]);
    }
  }
}
