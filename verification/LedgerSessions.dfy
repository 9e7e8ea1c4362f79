/** Sessions that read the rows of a hold or claim and of its node at some time, and write them back later: in SQLite no
    row is locked in between, and nothing is read again before the write. */
module LedgerSessions {
  import opened Capacity
  import opened Ledger
  import opened LedgerInvariants
  import opened LedgerRace
  import opened Resources
  import opened Wrappers

  // ---------------------------------------------------------------- one row and one node at the write

  /** reserved := max(0, seen - want), as it reaches the column. */
  function Lowered(current: Res, seen: Res, want: Res): Res { WriteBackAll(current, seen, seen.Minus(want).Floor()) }

  /** committed := seen + want. */
  function Raised(current: Res, seen: Res, want: Res): Res { WriteBackAll(current, seen, seen.Plus(want)) }

  function WithCounters(nodes: seq<Node>, at: Option<nat>, reserved: Node -> Res, committed: Node -> Res): seq<Node> {
    if at.Some? && at.value < |nodes|
    then
      var node := nodes[at.value];
      nodes[at.value := node.(reserved := reserved(node), committed := committed(node))]
    else nodes
  }

  predicate HasNode(db: Db, at: Option<nat>) { at.Some? && at.value < |db.nodes| }

  /** Writing one hold together with its node's counters is exact exactly if these move by what the row's place in the
      two sums moves by. */
  lemma HoldWriteIsExactIff(base: seq<Node>, db: Db, id: nat, hold: Hold, node: Node)
    requires Balanced(base, db) && id < |db.holds| && HasNode(db, db.holds[id].node)
    requires hold.node == db.holds[id].node
    requires node == db.nodes[hold.node.value].(reserved := node.reserved, committed := node.committed)
    ensures var n := hold.node.value;
            Balanced(base, db.(nodes := db.nodes[n := node], holds := db.holds[id := hold]))
            <==> && node.reserved == db.nodes[n].reserved.Minus(HeldBy(n)(db.holds[id])).Plus(HeldBy(n)(hold))
                 && node.committed == db.nodes[n].committed.Minus(SoldBy(n)(db.holds[id])).Plus(SoldBy(n)(hold))
  {
    var n := hold.node.value;
    var right := db.nodes[n].(
      reserved := db.nodes[n].reserved.Minus(HeldBy(n)(db.holds[id])).Plus(HeldBy(n)(hold)),
      committed := db.nodes[n].committed.Minus(SoldBy(n)(db.holds[id])).Plus(SoldBy(n)(hold)));
    var holds := db.holds[id := hold];
    assert NodeBalanced(base[n], db.nodes[n], db.holds, db.claims, n);
    HoldUpdate(base[n], db.nodes[n], right, db.holds, db.claims, id, hold, n);
    assert NodeBalanced(base[n], node, holds, db.claims, n) <==> node == right;
    forall m | 0 <= m < |base| && m != n ensures NodeBalanced(base[m], db.nodes[m], holds, db.claims, m) {
      assert NodeBalanced(base[m], db.nodes[m], db.holds, db.claims, m);
      HoldUpdate(base[m], db.nodes[m], db.nodes[m], db.holds, db.claims, id, hold, m);
    }
    var after := db.(nodes := db.nodes[n := node], holds := holds);
    assert Balanced(base, after) ==> NodeBalanced(base[n], after.nodes[n], holds, db.claims, n);
  }

  lemma HoldWithoutNode(base: seq<Node>, db: Db, id: nat, hold: Hold)
    requires Balanced(base, db) && id < |db.holds| && !HasNode(db, hold.node) && hold.node == db.holds[id].node
    ensures Balanced(base, db.(holds := db.holds[id := hold]))
  {
    forall m | 0 <= m < |base| ensures NodeBalanced(base[m], db.nodes[m], db.holds[id := hold], db.claims, m) {
      assert NodeBalanced(base[m], db.nodes[m], db.holds, db.claims, m);
      HoldUpdate(base[m], db.nodes[m], db.nodes[m], db.holds, db.claims, id, hold, m);
    }
  }

  lemma ClaimWriteIsExactIff(base: seq<Node>, db: Db, id: nat, claim: Claim, node: Node)
    requires Balanced(base, db) && id < |db.claims| && db.claims[id].node < |db.nodes|
    requires claim.node == db.claims[id].node
    requires node == db.nodes[claim.node].(reserved := node.reserved, committed := node.committed)
    ensures var n := claim.node;
            Balanced(base, db.(nodes := db.nodes[n := node], claims := db.claims[id := claim]))
            <==> && node.reserved == db.nodes[n].reserved.Minus(ClaimedBy(n)(db.claims[id])).Plus(ClaimedBy(n)(claim))
                 && node.committed
                    == db.nodes[n].committed.Minus(ConsumedBy(n)(db.claims[id])).Plus(ConsumedBy(n)(claim))
  {
    var n := claim.node;
    var right := db.nodes[n].(
      reserved := db.nodes[n].reserved.Minus(ClaimedBy(n)(db.claims[id])).Plus(ClaimedBy(n)(claim)),
      committed := db.nodes[n].committed.Minus(ConsumedBy(n)(db.claims[id])).Plus(ConsumedBy(n)(claim)));
    var claims := db.claims[id := claim];
    assert NodeBalanced(base[n], db.nodes[n], db.holds, db.claims, n);
    ClaimUpdate(base[n], db.nodes[n], right, db.holds, db.claims, id, claim, n);
    assert NodeBalanced(base[n], node, db.holds, claims, n) <==> node == right;
    forall m | 0 <= m < |base| && m != n ensures NodeBalanced(base[m], db.nodes[m], db.holds, claims, m) {
      assert NodeBalanced(base[m], db.nodes[m], db.holds, db.claims, m);
      ClaimUpdate(base[m], db.nodes[m], db.nodes[m], db.holds, db.claims, id, claim, m);
    }
    var after := db.(nodes := db.nodes[n := node], claims := claims);
    assert Balanced(base, after) ==> NodeBalanced(base[n], after.nodes[n], db.holds, claims, n);
  }

  lemma ClaimWithoutNode(base: seq<Node>, db: Db, id: nat, claim: Claim)
    requires Balanced(base, db) && id < |db.claims| && claim.node >= |db.nodes| && claim.node == db.claims[id].node
    ensures Balanced(base, db.(claims := db.claims[id := claim]))
  {
    forall m | 0 <= m < |base| ensures NodeBalanced(base[m], db.nodes[m], db.holds, db.claims[id := claim], m) {
      assert NodeBalanced(base[m], db.nodes[m], db.holds, db.claims, m);
      ClaimUpdate(base[m], db.nodes[m], db.nodes[m], db.holds, db.claims, id, claim, m);
    }
  }

  // ---------------------------------------------------------------- the writes

  /** What a session writes. The counters it has seen are those of some earlier time, never negative; it got here
      because the row was then in a state that allows the call. The claim calls compute in SQL, on the counters as they
      are. */
  datatype Late =
    | Reserving(seen: Want, at: nat, want: Want, key: string, expires: int)
    | Ending(seen: Want, id: nat, from: HoldState, to: HoldState)
    | Binding(id: nat, from: HoldState, key: string, total: int)
    | Confirming(seen: Want, sold: Want, checkout: nat)
    | Acquiring(pick: nat, key: string, request: string, want: Want)
    | EndingClaim(id: nat, status: Status)
    | Consuming(id: nat)

  predicate Allowed(late: Late) {
    && (late.Ending? ==> Holding(late.from) && late.to in {Released, Expired})
    && (late.Binding? ==> Holding(late.from))
    && (late.EndingClaim? ==> late.status in {Freed, TimedOut, Broken})
  }

  function LateEnd(db: Db, seen: Want, id: nat, from: HoldState, to: HoldState): Db
    requires id < |db.holds|
  {
    var hold := db.holds[id];
    db.(nodes := WithCounters(db.nodes, hold.node, (node: Node) => Lowered(node.reserved, seen, hold.want),
                              (node: Node) => node.committed),
        holds := db.holds[id := hold.(state := to)],
        log := db.log + [Event(id, Some(from), to)])
  }

  /** The new checkout meets the two unique constraints or the call is undone. */
  function LateBind(db: Db, id: nat, from: HoldState, key: string, total: int): Db
    requires id < |db.holds|
  {
    if exists c | 0 <= c < |db.checkouts| :: db.checkouts[c].hold == id || db.checkouts[c].key == key then db
    else
      db.(checkouts := db.checkouts + [Checkout(id, key, Pending, AtLeastZero(total))],
          holds := db.holds[id := db.holds[id].(state := CheckoutBound, checkout := Some(|db.checkouts|))],
          log := db.log + [Event(id, Some(from), CheckoutBound)])
  }

  function LateConfirm(db: Db, seen: Want, sold: Want, checkout: nat): Db
    requires checkout < |db.checkouts| && db.checkouts[checkout].hold < |db.holds|
  {
    var id := db.checkouts[checkout].hold;
    var hold := db.holds[id];
    db.(nodes := WithCounters(db.nodes, hold.node, (node: Node) => Lowered(node.reserved, seen, hold.want),
                              (node: Node) => Raised(node.committed, sold, hold.want)),
        holds := db.holds[id := hold.(state := Committed)],
        checkouts := db.checkouts[checkout := db.checkouts[checkout].(state := Paid)],
        log := db.log + [Event(id, Some(CheckoutBound), Committed)])
  }

  function LateClaimEnd(db: Db, id: nat, to: Status): Db
    requires id < |db.claims|
  {
    var claim := db.claims[id];
    db.(nodes := if to == Consumed then MoveToCommitted(db.nodes, Some(claim.node), claim.want)
                 else GiveBack(db.nodes, Some(claim.node), claim.want),
        claims := db.claims[id := claim.(status := to)])
  }

  function WriteLate(db: Db, late: Late): Db {
    if !Allowed(late) then db
    else
      match late
      case Reserving(seen, at, want, key, expires) =>
        if at >= |db.nodes| || FindHold(db, key).Some? then db
        else LateReserve(db, db.nodes[at].(reserved := seen), at, want, key, expires)
      case Ending(seen, id, from, to) => if id < |db.holds| then LateEnd(db, seen, id, from, to) else db
      case Binding(id, from, key, total) => if id < |db.holds| then LateBind(db, id, from, key, total) else db
      case Confirming(seen, sold, checkout) =>
        if checkout < |db.checkouts| && db.checkouts[checkout].hold < |db.holds|
        then LateConfirm(db, seen, sold, checkout) else db
      case Acquiring(pick, key, request, want) => Acquire(db, pick, key, request, want).0
      case EndingClaim(id, status) => if id < |db.claims| then LateClaimEnd(db, id, status) else db
      case Consuming(id) => if id < |db.claims| then LateClaimEnd(db, id, Consumed) else db
  }

  // ---------------------------------------------------------------- when a write is right

  /** The counter falls by the amount: it is what was seen, or the floor at zero happens to fit. */
  predicate Falls(current: int, seen: int, want: int) {
    want == 0 || (seen >= want && current == seen) || (0 < seen < want && current == want)
  }

  /** The counter stays: somebody else has taken the amount off since it was seen. */
  predicate HasFallen(current: int, seen: int, want: int) {
    want == 0 || seen == 0 || current == AtLeastZero(seen - want)
  }

  predicate Rises(current: int, seen: int, want: int) { want == 0 || current == seen }

  predicate HasRisen(current: int, seen: int, want: int) { want == 0 || current == seen + want }

  predicate EachOf(p: (int, int, int) -> bool, current: Res, seen: Res, want: Res) {
    p(current.cpu, seen.cpu, want.cpu) && p(current.ram, seen.ram, want.ram) && p(current.disk, seen.disk, want.disk)
  }

  predicate NoneLeft(current: int, seen: int, want: int) { want == 0 || current == 0 }

  /** A write of `to` over a hold, by what the hold is at the write: still held, sold, or ended. */
  predicate RightForHold(node: Node, hold: Hold, seen: Want, to: HoldState) {
    if Holding(hold.state) then EachOf(Falls, node.reserved, seen, hold.want)
    else if hold.state == Committed && to != Committed then hold.want == NOTHING
    else EachOf(HasFallen, node.reserved, seen, hold.want)
  }

  predicate RightForSale(node: Node, hold: Hold, sold: Want) {
    if hold.state == Committed then EachOf(HasRisen, node.committed, sold, hold.want)
    else EachOf(Rises, node.committed, sold, hold.want)
  }

  predicate RightForClaim(node: Node, claim: Claim, to: Status) {
    if claim.status == Active then true
    else if claim.status == Consumed then claim.want == NOTHING
    else EachOf(NoneLeft, node.reserved, node.reserved, claim.want)
  }

  /** Nothing that the write relies on has changed since it was read; or it has, and it does not matter. */
  predicate Right(db: Db, late: Late) {
    Allowed(late) ==>
      match late
      case Reserving(seen, at, want, key, expires) =>
        at < |db.nodes| && FindHold(db, key).None? ==> EachOf(Rises, db.nodes[at].reserved, seen, want)
      case Ending(seen, id, from, to) =>
        id < |db.holds| && HasNode(db, db.holds[id].node) ==>
          RightForHold(db.nodes[db.holds[id].node.value], db.holds[id], seen, to)
      case Binding(id, from, key, total) =>
        id < |db.holds| && HasNode(db, db.holds[id].node) && LateBind(db, id, from, key, total) != db ==>
          Holding(db.holds[id].state) || db.holds[id].want == NOTHING
      case Confirming(seen, sold, checkout) =>
        checkout < |db.checkouts| && db.checkouts[checkout].hold < |db.holds| ==>
          var hold := db.holds[db.checkouts[checkout].hold];
          HasNode(db, hold.node) ==>
            RightForHold(db.nodes[hold.node.value], hold, seen, Committed)
            && RightForSale(db.nodes[hold.node.value], hold, sold)
      case Acquiring(pick, key, request, want) => true
      case EndingClaim(id, status) =>
        id < |db.claims| && db.claims[id].node < |db.nodes| ==>
          RightForClaim(db.nodes[db.claims[id].node], db.claims[id], status)
      case Consuming(id) =>
        id < |db.claims| && db.claims[id].node < |db.nodes| ==>
          RightForClaim(db.nodes[db.claims[id].node], db.claims[id], Consumed)
  }

  // ---------------------------------------------------------------- exactness, write by write

  lemma LoweredIff(current: int, seen: int, want: int)
    requires seen >= 0 && want >= 0
    ensures WriteBack(current, seen, AtLeastZero(seen - want)) == current - want <==> Falls(current, seen, want)
    ensures WriteBack(current, seen, AtLeastZero(seen - want)) == current <==> HasFallen(current, seen, want)
  {
  }

  lemma RaisedIff(current: int, seen: int, want: int)
    requires want >= 0
    ensures WriteBack(current, seen, seen + want) == current + want <==> Rises(current, seen, want)
    ensures WriteBack(current, seen, seen + want) == current <==> HasRisen(current, seen, want)
  {
  }

  lemma CountersIff(current: Res, seen: Want, want: Want)
    ensures Lowered(current, seen, want) == current.Minus(want) <==> EachOf(Falls, current, seen, want)
    ensures Lowered(current, seen, want) == current <==> EachOf(HasFallen, current, seen, want)
    ensures Raised(current, seen, want) == current.Plus(want) <==> EachOf(Rises, current, seen, want)
    ensures Raised(current, seen, want) == current <==> EachOf(HasRisen, current, seen, want)
  {
    LoweredIff(current.cpu, seen.cpu, want.cpu);
    LoweredIff(current.ram, seen.ram, want.ram);
    LoweredIff(current.disk, seen.disk, want.disk);
    RaisedIff(current.cpu, seen.cpu, want.cpu);
    RaisedIff(current.ram, seen.ram, want.ram);
    RaisedIff(current.disk, seen.disk, want.disk);
  }

  /** What the two counters of a node must be after a hold of it is written. */
  ghost predicate Fitting(node: Node, hold: Hold, after: Hold, reserved: Res, committed: Res)
    requires hold.node.Some?
  {
    var n := hold.node.value;
    && reserved == node.reserved.Minus(HeldBy(n)(hold)).Plus(HeldBy(n)(after))
    && committed == node.committed.Minus(SoldBy(n)(hold)).Plus(SoldBy(n)(after))
  }

  lemma EndFitsIff(node: Node, hold: Hold, seen: Want, to: HoldState)
    requires hold.node.Some? && to in {Released, Expired}
    ensures Fitting(node, hold, hold.(state := to), Lowered(node.reserved, seen, hold.want), node.committed)
            <==> RightForHold(node, hold, seen, to)
  {
    var n := hold.node.value;
    CountersIff(node.reserved, seen, hold.want);
    assert HeldBy(n)(hold.(state := to)) == NOTHING && SoldBy(n)(hold.(state := to)) == NOTHING;
    if Holding(hold.state) {
      assert HeldBy(n)(hold) == hold.want && SoldBy(n)(hold) == NOTHING;
      Unmoved(node.committed, NOTHING);
    } else if hold.state == Committed {
      assert HeldBy(n)(hold) == NOTHING && SoldBy(n)(hold) == hold.want;
      Unmoved(node.committed, hold.want);
      Unmoved(node.reserved, NOTHING);
    } else {
      assert HeldBy(n)(hold) == NOTHING && SoldBy(n)(hold) == NOTHING;
      Unmoved(node.committed, NOTHING);
      Unmoved(node.reserved, NOTHING);
    }
  }

  lemma Unmoved(current: Res, want: Res)
    ensures current == current.Minus(want).Plus(NOTHING) <==> want == NOTHING
    ensures current.Minus(NOTHING).Plus(want) == current.Plus(want)
    ensures current.Minus(want).Plus(NOTHING) == current.Minus(want)
  {
  }

  lemma BindFitsIff(node: Node, hold: Hold, checkout: nat)
    requires hold.node.Some?
    ensures Fitting(node, hold, hold.(state := CheckoutBound, checkout := Some(checkout)), node.reserved,
                    node.committed)
            <==> Holding(hold.state) || hold.want == NOTHING
  {
  }

  lemma TakenAndGiven(current: Res, want: Res)
    ensures current.Minus(NOTHING).Plus(NOTHING) == current && current.Minus(want).Plus(want) == current
    ensures current.Minus(NOTHING).Plus(want) == current.Plus(want)
    ensures current.Minus(want).Plus(NOTHING) == current.Minus(want)
  {
  }

  lemma ConfirmFits(node: Node, hold: Hold, reserved: Res, committed: Res)
    requires hold.node.Some?
    ensures Fitting(node, hold, hold.(state := Committed), reserved, committed)
            <==> && reserved == (if Holding(hold.state) then node.reserved.Minus(hold.want) else node.reserved)
                 && committed == (if hold.state == Committed then node.committed else node.committed.Plus(hold.want))
  {
    var n := hold.node.value;
    assert HeldBy(n)(hold.(state := Committed)) == NOTHING && SoldBy(n)(hold.(state := Committed)) == hold.want;
    assert HeldBy(n)(hold) == if Holding(hold.state) then hold.want else NOTHING;
    assert SoldBy(n)(hold) == if hold.state == Committed then hold.want else NOTHING;
    TakenAndGiven(node.reserved, hold.want);
    TakenAndGiven(node.committed, hold.want);
  }

  lemma ConfirmFitsIff(node: Node, hold: Hold, seen: Want, sold: Want)
    requires hold.node.Some?
    ensures Fitting(node, hold, hold.(state := Committed), Lowered(node.reserved, seen, hold.want),
                    Raised(node.committed, sold, hold.want))
            <==> RightForHold(node, hold, seen, Committed) && RightForSale(node, hold, sold)
  {
    ConfirmFits(node, hold, Lowered(node.reserved, seen, hold.want), Raised(node.committed, sold, hold.want));
    CountersIff(node.reserved, seen, hold.want);
    CountersIff(node.committed, sold, hold.want);
  }

  /** Balance is about nodes, holds and claims only; this is how every call writes a hold. */
  lemma HoldCallIsExactIff(base: seq<Node>, db: Db, after: Db, id: nat, hold: Hold, reserved: Res, committed: Res)
    requires Balanced(base, db) && id < |db.holds| && hold.node == db.holds[id].node && HasNode(db, hold.node)
    requires after.holds == db.holds[id := hold] && after.claims == db.claims
    requires var n := hold.node.value;
             after.nodes == db.nodes[n := db.nodes[n].(reserved := reserved, committed := committed)]
    ensures Balanced(base, after)
            <==> Fitting(db.nodes[hold.node.value], db.holds[id], hold, reserved, committed)
  {
    var n := hold.node.value;
    HoldWriteIsExactIff(base, db, id, hold, db.nodes[n].(reserved := reserved, committed := committed));
    assert Balanced(base, after) <==> Balanced(base, db.(nodes := after.nodes, holds := after.holds));
  }

  lemma HoldCallWithoutNode(base: seq<Node>, db: Db, after: Db, id: nat, hold: Hold)
    requires Balanced(base, db) && id < |db.holds| && hold.node == db.holds[id].node && !HasNode(db, hold.node)
    requires after.nodes == db.nodes && after.holds == db.holds[id := hold] && after.claims == db.claims
    ensures Balanced(base, after)
  {
    HoldWithoutNode(base, db, id, hold);
    assert Balanced(base, after) <==> Balanced(base, db.(holds := after.holds));
  }

  /** Ending a hold is exact by what the hold is at the write: still held, and no counter has moved; or ended by
      somebody else, and the counters have moved by just its amount since; or sold, and it asks for nothing. */
  lemma LateEndIsExactIff(base: seq<Node>, db: Db, seen: Want, id: nat, from: HoldState, to: HoldState)
    requires Balanced(base, db) && id < |db.holds| && to in {Released, Expired}
    ensures Balanced(base, LateEnd(db, seen, id, from, to))
            <==> (HasNode(db, db.holds[id].node) ==>
                    RightForHold(db.nodes[db.holds[id].node.value], db.holds[id], seen, to))
  {
    var hold, late := db.holds[id], LateEnd(db, seen, id, from, to);
    if HasNode(db, hold.node) {
      var node := db.nodes[hold.node.value];
      EndFitsIff(node, hold, seen, to);
      HoldCallIsExactIff(base, db, late, id, hold.(state := to), Lowered(node.reserved, seen, hold.want),
                         node.committed);
    } else {
      HoldCallWithoutNode(base, db, late, id, hold.(state := to));
    }
  }

  /** A checkout bound over a hold that has ended, or been sold, takes its capacity for a second time without a counter
      moving. */
  lemma LateBindIsExactIff(base: seq<Node>, db: Db, id: nat, from: HoldState, key: string, total: int)
    requires Balanced(base, db) && id < |db.holds|
    ensures Balanced(base, LateBind(db, id, from, key, total))
            <==> (HasNode(db, db.holds[id].node) && LateBind(db, id, from, key, total) != db ==>
                    Holding(db.holds[id].state) || db.holds[id].want == NOTHING)
  {
    var late := LateBind(db, id, from, key, total);
    if late != db {
      var hold := db.holds[id].(state := CheckoutBound, checkout := Some(|db.checkouts|));
      if HasNode(db, hold.node) {
        var node := db.nodes[hold.node.value];
        BindFitsIff(node, db.holds[id], |db.checkouts|);
        HoldCallIsExactIff(base, db, late, id, hold, node.reserved, node.committed);
      } else {
        HoldCallWithoutNode(base, db, late, id, hold);
      }
    }
  }

  /** A payment is exact if both counters are: the hold leaves the one and enters the other, unless somebody has done
      either before. */
  lemma LateConfirmIsExactIff(base: seq<Node>, db: Db, seen: Want, sold: Want, checkout: nat)
    requires Balanced(base, db) && checkout < |db.checkouts| && db.checkouts[checkout].hold < |db.holds|
    ensures var hold := db.holds[db.checkouts[checkout].hold];
            Balanced(base, LateConfirm(db, seen, sold, checkout))
            <==> (HasNode(db, hold.node) ==>
                    RightForHold(db.nodes[hold.node.value], hold, seen, Committed)
                    && RightForSale(db.nodes[hold.node.value], hold, sold))
  {
    var id := db.checkouts[checkout].hold;
    var hold, late := db.holds[id], LateConfirm(db, seen, sold, checkout);
    if HasNode(db, hold.node) {
      var node := db.nodes[hold.node.value];
      ConfirmFitsIff(node, hold, seen, sold);
      HoldCallIsExactIff(base, db, late, id, hold.(state := Committed), Lowered(node.reserved, seen, hold.want),
                         Raised(node.committed, sold, hold.want));
    } else {
      HoldCallWithoutNode(base, db, late, id, hold.(state := Committed));
    }
  }

  predicate CountersNonnegative(nodes: seq<Node>) {
    forall n | 0 <= n < |nodes| :: nodes[n].reserved.Nonnegative() && nodes[n].committed.Nonnegative()
  }

  ghost predicate ClaimFitting(node: Node, claim: Claim, to: Status) {
    var n := claim.node;
    && node.reserved.Minus(claim.want).Floor()
       == node.reserved.Minus(ClaimedBy(n)(claim)).Plus(ClaimedBy(n)(claim.(status := to)))
    && (if to == Consumed then node.committed.Plus(claim.want) else node.committed)
       == node.committed.Minus(ConsumedBy(n)(claim)).Plus(ConsumedBy(n)(claim.(status := to)))
  }

  lemma ClaimFitsIff(node: Node, claim: Claim, to: Status)
    requires to in {Freed, TimedOut, Broken, Consumed} && node.reserved.Nonnegative()
    requires claim.status == Active ==> claim.want.AtMost(node.reserved)
    ensures ClaimFitting(node, claim, to) <==> RightForClaim(node, claim, to)
  {
    var n := claim.node;
    var after := claim.(status := to);
    assert ClaimedBy(n)(after) == NOTHING && ConsumedBy(n)(after) == if to == Consumed then claim.want else NOTHING;
    Unmoved(node.committed, claim.want);
    Unmoved(node.committed, NOTHING);
    Unmoved(node.reserved, claim.want);
    Unmoved(node.reserved, NOTHING);
    if claim.status == Active {
      assert ClaimedBy(n)(claim) == claim.want && ConsumedBy(n)(claim) == NOTHING;
      assert node.reserved.Minus(claim.want).Floor() == node.reserved.Minus(claim.want);
    } else if claim.status == Consumed {
      assert ClaimedBy(n)(claim) == NOTHING && ConsumedBy(n)(claim) == claim.want;
      SoldTwiceIff(node, claim.want, to == Consumed);
    } else {
      assert ClaimedBy(n)(claim) == NOTHING && ConsumedBy(n)(claim) == NOTHING;
      FloorIff(node.reserved, claim.want);
    }
  }

  lemma FloorIff(current: Res, want: Want)
    requires current.Nonnegative()
    ensures current.Minus(want).Floor() == current <==> EachOf(NoneLeft, current, current, want)
  {
  }

  lemma SoldTwiceIff(node: Node, want: Want, again: bool)
    requires node.reserved.Nonnegative()
    ensures node.reserved.Minus(want).Floor() == node.reserved
            && (if again then node.committed.Plus(want) else node.committed)
               == node.committed.Minus(want).Plus(if again then want else NOTHING)
            <==> want == NOTHING
  {
  }

  /** A claim's amount is computed in SQL, so its end is exact while it is active, whatever has moved; over a claim that
      somebody has ended it is exact only where nothing is left to take. */
  lemma LateClaimEndIsExactIff(base: seq<Node>, db: Db, id: nat, to: Status)
    requires SoundBase(base) && Balanced(base, db) && CountersNonnegative(db.nodes)
    requires id < |db.claims| && to in {Freed, TimedOut, Broken, Consumed}
    ensures Balanced(base, LateClaimEnd(db, id, to))
            <==> (db.claims[id].node < |db.nodes| ==>
                    RightForClaim(db.nodes[db.claims[id].node], db.claims[id], to))
  {
    var claim, late := db.claims[id], LateClaimEnd(db, id, to);
    var n := claim.node;
    if n < |db.nodes| {
      if claim.status == Active {
        assert NodeBalanced(base[n], db.nodes[n], db.holds, db.claims, n);
        ReservedCoversClaim(base[n], db.nodes[n], db.holds, db.claims, id);
      }
      ClaimFitsIff(db.nodes[n], claim, to);
      ClaimWriteIsExactIff(base, db, id, claim.(status := to), late.nodes[n]);
      assert late.nodes == db.nodes[n := late.nodes[n]];
    } else {
      ClaimWithoutNode(base, db, id, claim.(status := to));
    }
  }

  // ---------------------------------------------------------------- whole runs

  function WriteAll(db: Db, writes: seq<Late>): Db {
    if writes == [] then db else WriteLate(WriteAll(db, writes[..|writes| - 1]), writes[|writes| - 1])
  }

  ghost predicate AlwaysBalanced(base: seq<Node>, db: Db, writes: seq<Late>) {
    && Balanced(base, WriteAll(db, writes))
    && (writes != [] ==> AlwaysBalanced(base, db, writes[..|writes| - 1]))
  }

  ghost predicate AllRight(db: Db, writes: seq<Late>) {
    writes != [] ==>
      var last := |writes| - 1;
      AllRight(db, writes[..last]) && Right(WriteAll(db, writes[..last]), writes[last])
  }

  lemma WriteKeepsNonnegative(db: Db, late: Late)
    requires CountersNonnegative(db.nodes)
    ensures CountersNonnegative(WriteLate(db, late).nodes)
  {
  }

  /** No counter is ever written below zero, so no session has seen one there. */
  lemma {:induction false} CountersStayNonnegative(db: Db, writes: seq<Late>)
    requires CountersNonnegative(db.nodes)
    ensures CountersNonnegative(WriteAll(db, writes).nodes)
  {
    if writes != [] {
      CountersStayNonnegative(db, writes[..|writes| - 1]);
      WriteKeepsNonnegative(WriteAll(db, writes[..|writes| - 1]), writes[|writes| - 1]);
    }
  }

  lemma ReserveIsRightIff(base: seq<Node>, db: Db, late: Late)
    requires Balanced(base, db) && (late.Reserving? || late.Acquiring?)
    ensures Balanced(base, WriteLate(db, late)) <==> Right(db, late)
  {
    if late.Reserving? {
      if late.at < |db.nodes| && FindHold(db, late.key).None? {
        var seen := db.nodes[late.at].(reserved := late.seen);
        LateReserveIsExactIffUntouched(base, db, seen, late.at, late.want, late.key, late.expires);
      }
    } else if Acquire(db, late.pick, late.key, late.request, late.want).1.Created? {
      NewClaimKeepsBalance(base, db, Claim(late.pick, late.want, Active, late.key, late.request));
    }
  }

  lemma WriteIsExactIffRight(base: seq<Node>, db: Db, late: Late)
    requires SoundBase(base) && Balanced(base, db) && CountersNonnegative(db.nodes)
    ensures Balanced(base, WriteLate(db, late)) <==> Right(db, late)
  {
    if Allowed(late) {
      match late
      case Reserving(seen, at, want, key, expires) => ReserveIsRightIff(base, db, late);
      case Ending(seen, id, from, to) =>
        if id < |db.holds| { LateEndIsExactIff(base, db, seen, id, from, to); }
      case Binding(id, from, key, total) =>
        if id < |db.holds| { LateBindIsExactIff(base, db, id, from, key, total); }
      case Confirming(seen, sold, checkout) =>
        if checkout < |db.checkouts| && db.checkouts[checkout].hold < |db.holds| {
          LateConfirmIsExactIff(base, db, seen, sold, checkout);
        }
      case Acquiring(pick, key, request, want) => ReserveIsRightIff(base, db, late);
      case EndingClaim(id, status) =>
        if id < |db.claims| { LateClaimEndIsExactIff(base, db, id, status); }
      case Consuming(id) =>
        if id < |db.claims| { LateClaimEndIsExactIff(base, db, id, Consumed); }
    }
  }

  /** In any interleaving of sessions, whatever they have seen and however late they write, counters and rows agree all
      the time exactly if every write is right by what its row and its node are when it comes. */
  lemma {:induction false} BalancedIffRight(base: seq<Node>, db: Db, writes: seq<Late>)
    requires SoundBase(base) && Balanced(base, db) && CountersNonnegative(db.nodes)
    ensures AlwaysBalanced(base, db, writes) <==> AllRight(db, writes)
  {
    if writes != [] {
      var last := |writes| - 1;
      BalancedIffRight(base, db, writes[..last]);
      CountersStayNonnegative(db, writes[..last]);
      if AllRight(db, writes[..last]) {
        WriteIsExactIffRight(base, WriteAll(db, writes[..last]), writes[last]);
      }
    }
  }

  // ---------------------------------------------------------------- what goes wrong

  /** Two sessions have found a hold held; one ends it and commits; the other reads the node row only then, sees no
      counter move until its own write, and ends the hold again: what the node had reserved for others goes. */
  lemma DoubleEndGivesBackTwice(base: seq<Node>, db: Db, id: nat, first: HoldState, second: HoldState)
    requires SoundBase(base) && Balanced(base, db) && CountersNonnegative(db.nodes)
    requires id < |db.holds| && Holding(db.holds[id].state) && HasNode(db, db.holds[id].node)
    requires first in {Released, Expired} && second in {Released, Expired}
    ensures var hold, n := db.holds[id], db.holds[id].node.value;
            var one := LateEnd(db, db.nodes[n].reserved, id, hold.state, first);
            var two := LateEnd(one, one.nodes[n].reserved, id, hold.state, second);
            && Balanced(base, one)
            && two.nodes[n].reserved == db.nodes[n].reserved.Minus(hold.want).Minus(hold.want).Floor()
            && (Balanced(base, two) <==> EachOf(NoneLeft, one.nodes[n].reserved, one.nodes[n].reserved, hold.want))
  {
    var hold, n := db.holds[id], db.holds[id].node.value;
    assert NodeBalanced(base[n], db.nodes[n], db.holds, db.claims, n);
    ReservedCoversHold(base[n], db.nodes[n], db.holds, db.claims, id, n);
    var one := LateEnd(db, db.nodes[n].reserved, id, hold.state, first);
    LateEndIsExactIff(base, db, db.nodes[n].reserved, id, hold.state, first);
    OwnCounter(db.nodes[n].reserved, hold.want);
    assert one.nodes[n].reserved == db.nodes[n].reserved.Minus(hold.want);
    LateEndIsExactIff(base, one, one.nodes[n].reserved, id, hold.state, second);
    OwnCounter(one.nodes[n].reserved, hold.want);
  }

  lemma OwnCounter(current: Want, want: Want)
    ensures Lowered(current, current, want) == current.Minus(want).Floor()
    ensures want.AtMost(current) ==> EachOf(Falls, current, current, want)
    ensures EachOf(HasFallen, current, current, want) <==> EachOf(NoneLeft, current, current, want)
  {
  }

  /** Had the other read the node row before the first commit, it would write the same value again, and do no harm. */
  lemma SameSightIsHarmless(base: seq<Node>, db: Db, id: nat, first: HoldState, second: HoldState)
    requires SoundBase(base) && Balanced(base, db) && CountersNonnegative(db.nodes)
    requires id < |db.holds| && Holding(db.holds[id].state) && HasNode(db, db.holds[id].node)
    requires first in {Released, Expired} && second in {Released, Expired}
    ensures var hold, n := db.holds[id], db.holds[id].node.value;
            var one := LateEnd(db, db.nodes[n].reserved, id, hold.state, first);
            Balanced(base, LateEnd(one, db.nodes[n].reserved, id, hold.state, second))
  {
    var hold, n := db.holds[id], db.holds[id].node.value;
    assert NodeBalanced(base[n], db.nodes[n], db.holds, db.claims, n);
    ReservedCoversHold(base[n], db.nodes[n], db.holds, db.claims, id, n);
    var one := LateEnd(db, db.nodes[n].reserved, id, hold.state, first);
    LateEndIsExactIff(base, db, db.nodes[n].reserved, id, hold.state, first);
    OwnCounter(db.nodes[n].reserved, hold.want);
    assert one.nodes[n].reserved == db.nodes[n].reserved.Minus(hold.want);
    assert EachOf(HasFallen, one.nodes[n].reserved, db.nodes[n].reserved, hold.want);
    LateEndIsExactIff(base, one, db.nodes[n].reserved, id, hold.state, second);
  }

  /** A checkout bound over a hold that another session has ended: no counter has it, and payment sells it all the
      same. */
  lemma BoundAfterTheEnd(base: seq<Node>, db: Db, id: nat, end: HoldState, key: string, total: int)
    requires SoundBase(base) && Balanced(base, db) && CountersNonnegative(db.nodes)
    requires id < |db.holds| && Holding(db.holds[id].state) && HasNode(db, db.holds[id].node)
    requires end in {Released, Expired} && db.holds[id].want != NOTHING
    requires forall c | 0 <= c < |db.checkouts| :: db.checkouts[c].hold != id && db.checkouts[c].key != key
    ensures var hold, n := db.holds[id], db.holds[id].node.value;
            var ended := LateEnd(db, db.nodes[n].reserved, id, hold.state, end);
            var bound := LateBind(ended, id, hold.state, key, total);
            && Balanced(base, ended) && !Balanced(base, bound) && bound.nodes == ended.nodes
            && bound.holds[id].state == CheckoutBound
            && ConfirmPayment(bound, |db.checkouts|).1 == Done
  {
    var hold, n := db.holds[id], db.holds[id].node.value;
    assert NodeBalanced(base[n], db.nodes[n], db.holds, db.claims, n);
    ReservedCoversHold(base[n], db.nodes[n], db.holds, db.claims, id, n);
    var ended := LateEnd(db, db.nodes[n].reserved, id, hold.state, end);
    LateEndIsExactIff(base, db, db.nodes[n].reserved, id, hold.state, end);
    OwnCounter(db.nodes[n].reserved, hold.want);
    var bound := LateBind(ended, id, hold.state, key, total);
    assert bound.checkouts[|db.checkouts|] == Checkout(id, key, Pending, AtLeastZero(total));
    LateBindIsExactIff(base, ended, id, hold.state, key, total);
  }
}
