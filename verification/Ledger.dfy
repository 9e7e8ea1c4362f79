/** The reservation tables and every service call that moves capacity
    (helper_compute/reservation.py and helper_compute/proxmox/reservation.py).
    A table is the sequence of its rows in id order; a row is named by its index. */
module Ledger {
  import opened Capacity
  import opened Resources
  import opened Wrappers

  datatype HoldState = Draft | Reserved | CheckoutBound | Committed | Released | Expired | Cancelled

  /** HC_RESERVATION_TRANSITIONS. */
  predicate Legal(from: HoldState, to: HoldState) {
    match from
    case Draft => to in {Reserved, Cancelled}
    case Reserved => to in {CheckoutBound, Released, Expired, Cancelled}
    case CheckoutBound => to in {Committed, Released, Expired, Cancelled}
    case _ => false
  }

  predicate Holding(s: HoldState) { s == Reserved || s == CheckoutBound }

  predicate Terminal(s: HoldState) { s in {Released, Expired, Cancelled, Committed} }

  datatype Quote = Quote(want: Want, expires: int)

  datatype Hold = Hold(
    node: Option<nat>, want: Want, state: HoldState, key: string, expires: int, currency: string,
    checkout: Option<nat>, reason: string)

  datatype CheckoutState = Pending | Paid | Failed

  datatype Checkout = Checkout(hold: nat, key: string, state: CheckoutState, total: int)

  /** One audit row; a creation event has no from_state. */
  datatype Event = Event(hold: nat, from: Option<HoldState>, to: HoldState)

  datatype Status = Active | Consumed | Freed | TimedOut | Broken

  /** One proxmox_reservations row, drawing on the same node counters. */
  datatype Claim = Claim(node: nat, want: Want, status: Status, key: string, request: string)

  datatype Db = Db(
    nodes: seq<Node>, quotes: seq<Quote>, holds: seq<Hold>, checkouts: seq<Checkout>,
    claims: seq<Claim>, log: seq<Event>)

  datatype Code =
    | InvalidIdempotency | QuoteNotFound | QuoteExpired | CapacityExhausted | NodeUnavailable
    | ReservationNotFound | ReservationNotActive | ReservationExpired | CurrencyMismatch
    | CheckoutConflict | CheckoutNotFound | CheckoutNotPending | NotCheckoutBound | InvalidState

  datatype Outcome = Created(id: nat) | Replayed(id: nat) | Done | Refused(code: Code)

  // ---------------------------------------------------------------- lookups by unique key

  /** The row of a table that matches a key, if there is one. */
  function Find<T>(rows: seq<T>, matches: T -> bool): (found: Option<nat>)
    ensures found.Some? ==> found.value < |rows| && matches(rows[found.value])
    ensures found.None? ==> forall i | 0 <= i < |rows| :: !matches(rows[i])
  {
    if rows == [] then None
    else if matches(rows[|rows| - 1]) then Some(|rows| - 1)
    else Find(rows[..|rows| - 1], matches)
  }

  function FindHold(db: Db, key: string): Option<nat> { Find(db.holds, (h: Hold) => h.key == key) }

  function FindCheckout(db: Db, key: string): Option<nat> {
    Find(db.checkouts, (c: Checkout) => c.key == key)
  }

  function FindClaim(db: Db, key: string, request: string): Option<nat> {
    var byKey := Find(db.claims, (c: Claim) => c.key == key);
    if byKey.Some? then byKey else Find(db.claims, (c: Claim) => c.request == request)
  }

  // ---------------------------------------------------------------- counters

  /** reserved := max(0, reserved - want), when the node row exists. */
  function GiveBack(nodes: seq<Node>, at: Option<nat>, want: Res): seq<Node> {
    if at.Some? && at.value < |nodes|
    then nodes[at.value := nodes[at.value].(reserved := nodes[at.value].reserved.Minus(want).Floor())]
    else nodes
  }

  /** Move an amount from the reserved to the committed bucket, when the node row exists. */
  function MoveToCommitted(nodes: seq<Node>, at: Option<nat>, want: Res): seq<Node> {
    if at.Some? && at.value < |nodes|
    then
      var freed := GiveBack(nodes, at, want);
      freed[at.value := freed[at.value].(committed := freed[at.value].committed.Plus(want))]
    else nodes
  }

  function TakeFrom(nodes: seq<Node>, at: nat, want: Res): seq<Node>
    requires at < |nodes|
  {
    nodes[at := nodes[at].(reserved := nodes[at].reserved.Plus(want))]
  }

  // ---------------------------------------------------------------- Helper Compute holds

  /** reserve_capacity. */
  function ReserveCapacity(db: Db, quote: nat, key: string, currency: string, now: int, ttl: nat)
    : (Db, Outcome)
  {
    if |key| < 8 then (db, Refused(InvalidIdempotency))
    else if FindHold(db, key).Some? then (db, Replayed(FindHold(db, key).value))
    else if quote >= |db.quotes| then (db, Refused(QuoteNotFound))
    else if now >= db.quotes[quote].expires then (db, Refused(QuoteExpired))
    else
      var want := db.quotes[quote].want;
      var best := Preferred(Cluster(db.nodes), want);
      if best.None? then (db, Refused(CapacityExhausted))
      else if best.value >= |db.nodes| then (db, Refused(NodeUnavailable))
      else if !db.nodes[best.value].FitsIgnoringCommitted(want) then (db, Refused(CapacityExhausted))
      else (AddHold(db, best.value, want, key, currency, now + ttl), Created(|db.holds|))
  }

  function AddHold(db: Db, at: nat, want: Want, key: string, currency: string, expires: int): Db
    requires at < |db.nodes|
  {
    db.(nodes := TakeFrom(db.nodes, at, want),
        holds := db.holds + [Hold(Some(at), want, Reserved, key, expires, currency, None, "")],
        log := db.log + [Event(|db.holds|, None, Reserved)])
  }

  /** The shared tail of release_reservation and expire_reservation. */
  function EndHold(db: Db, id: nat, to: HoldState, reason: string): Db {
    if id >= |db.holds| || Terminal(db.holds[id].state) then db
    else
      var hold := db.holds[id];
      db.(nodes := GiveBack(db.nodes, hold.node, hold.want),
          holds := db.holds[id := hold.(state := to, reason := reason)],
          log := db.log + [Event(id, Some(hold.state), to)])
  }

  function ReleaseReservation(db: Db, id: nat, reason: string): Db { EndHold(db, id, Released, reason) }

  function ExpireReservation(db: Db, id: nat): Db { EndHold(db, id, Expired, "expired") }

  predicate Due(hold: Hold, now: int) { Holding(hold.state) && hold.expires <= now }

  /** The loop of sweep_expired_reservations over the rows its query returned. */
  function ExpireAll(db: Db, rows: seq<nat>): Db {
    if rows == [] then db else ExpireReservation(ExpireAll(db, rows[..|rows| - 1]), rows[|rows| - 1])
  }

  /** bind_checkout; the total is recomputed on the server and floored at zero. */
  function BindCheckout(db: Db, id: nat, key: string, currency: string, cents: int, now: int)
    : (Db, Outcome)
  {
    if |key| < 8 then (db, Refused(InvalidIdempotency))
    else if FindCheckout(db, key).Some? then (db, Replayed(FindCheckout(db, key).value))
    else if id >= |db.holds| then (db, Refused(ReservationNotFound))
    else
      var hold := db.holds[id];
      if !Holding(hold.state) then (db, Refused(ReservationNotActive))
      else if now >= hold.expires then (ExpireReservation(db, id), Refused(ReservationExpired))
      else if hold.currency != "" && currency != "" && hold.currency != currency
      then (db, Refused(CurrencyMismatch))
      else if exists c | 0 <= c < |db.checkouts| :: db.checkouts[c].hold == id
      then (db, Refused(CheckoutConflict))  // the unique constraint on reservation_id
      else
        (db.(checkouts := db.checkouts + [Checkout(id, key, Pending, AtLeastZero(cents))],
             holds := db.holds[id := hold.(state := CheckoutBound, checkout := Some(|db.checkouts|))],
             log := db.log + [Event(id, Some(hold.state), CheckoutBound)]),
         Created(|db.checkouts|))
  }

  /** confirm_payment. */
  function ConfirmPayment(db: Db, id: nat): (Db, Outcome) {
    if id >= |db.checkouts| then (db, Refused(CheckoutNotFound))
    else
      var checkout := db.checkouts[id];
      if checkout.state == Paid then (db, Done)
      else if checkout.state != Pending then (db, Refused(CheckoutNotPending))
      else if checkout.hold >= |db.holds| then (db, Refused(ReservationNotFound))
      else
        var hold := db.holds[checkout.hold];
        if hold.state != CheckoutBound then (db, Refused(NotCheckoutBound))
        else
          (db.(nodes := MoveToCommitted(db.nodes, hold.node, hold.want),
               holds := db.holds[checkout.hold := hold.(state := Committed)],
               checkouts := db.checkouts[id := checkout.(state := Paid)],
               log := db.log + [Event(checkout.hold, Some(hold.state), Committed)]),
           Done)
  }

  /** fail_payment. */
  function FailPayment(db: Db, id: nat): Db {
    if id >= |db.checkouts| || db.checkouts[id].state != Pending then db
    else
      var checkout := db.checkouts[id];
      ReleaseReservation(db.(checkouts := db.checkouts[id := checkout.(state := Failed)]),
                         checkout.hold, "payment_failed")
  }

  // ---------------------------------------------------------------- Proxmox claims

  /** acquire_reservation from its conditional UPDATE on. `pick` is the node chosen earlier from a
      possibly outdated snapshot, so it is arbitrary. */
  function Acquire(db: Db, pick: nat, key: string, request: string, want: Want): (Db, Outcome) {
    if FindClaim(db, key, request).Some? then (db, Replayed(FindClaim(db, key, request).value))
    else if pick >= |db.nodes| || !UpdateMatches(db.nodes[pick], want)
    then (db, Refused(CapacityExhausted))
    else
      (db.(nodes := TakeFrom(db.nodes, pick, want),
           claims := db.claims + [Claim(pick, want, Active, key, request)]),
       Created(|db.claims|))
  }

  /** The WHERE clause of that UPDATE: no flooring, committed included. */
  predicate UpdateMatches(node: Node, want: Want) {
    node.active && want.AtMost(node.total.Minus(node.Used()))
  }

  /** release_reservation, expire_reservation and fail_reservation of a claim. */
  function EndClaim(db: Db, id: nat, to: Status): Db {
    if id >= |db.claims| || db.claims[id].status != Active then db
    else
      var claim := db.claims[id];
      db.(nodes := GiveBack(db.nodes, Some(claim.node), claim.want),
          claims := db.claims[id := claim.(status := to)])
  }

  /** consume_reservation. */
  function ConsumeClaim(db: Db, id: nat): (Db, Outcome) {
    if id >= |db.claims| || db.claims[id].status == Consumed then (db, Done)
    else if db.claims[id].status != Active then (db, Refused(InvalidState))
    else
      var claim := db.claims[id];
      (db.(nodes := MoveToCommitted(db.nodes, Some(claim.node), claim.want),
           claims := db.claims[id := claim.(status := Consumed)]),
       Done)
  }

  // ---------------------------------------------------------------- runs

  datatype Cmd =
    | PublishQuote(quote: Quote)
    | Reserve(quoteId: nat, key: string, currency: string, now: int, ttl: nat)
    | Release(id: nat, reason: string)
    | Expire(id: nat)
    | Sweep(rows: seq<nat>)
    | Bind(id: nat, key: string, currency: string, cents: int, now: int)
    | Confirm(id: nat)
    | FailPay(id: nat)
    | AcquireClaim(pick: nat, key: string, request: string, want: Want)
    | ReleaseClaim(id: nat)
    | ExpireClaim(id: nat)
    | FailClaim(id: nat)
    | Consume(id: nat)
    | SetActive(at: nat, on: bool)

  /** One committed transaction of any client. */
  function Step(db: Db, cmd: Cmd): Db {
    match cmd
    case PublishQuote(quote) => db.(quotes := db.quotes + [quote])
    case Reserve(quote, key, currency, now, ttl) => ReserveCapacity(db, quote, key, currency, now, ttl).0
    case Release(id, reason) => ReleaseReservation(db, id, reason)
    case Expire(id) => ExpireReservation(db, id)
    case Sweep(rows) => ExpireAll(db, rows)
    case Bind(id, key, currency, cents, now) => BindCheckout(db, id, key, currency, cents, now).0
    case Confirm(id) => ConfirmPayment(db, id).0
    case FailPay(id) => FailPayment(db, id)
    case AcquireClaim(pick, key, request, want) => Acquire(db, pick, key, request, want).0
    case ReleaseClaim(id) => EndClaim(db, id, Freed)
    case ExpireClaim(id) => EndClaim(db, id, TimedOut)
    case FailClaim(id) => EndClaim(db, id, Broken)
    case Consume(id) => ConsumeClaim(db, id).0
    case SetActive(at, on) =>
      if at < |db.nodes| then db.(nodes := db.nodes[at := db.nodes[at].(active := on)]) else db
  }

  function Run(db: Db, cmds: seq<Cmd>): Db {
    if cmds == [] then db else Step(Run(db, cmds[..|cmds| - 1]), cmds[|cmds| - 1])
  }

  /** A ledger whose node rows are as an administrator left them and whose tables are empty. */
  function Opening(base: seq<Node>): Db { Db(base, [], [], [], [], []) }
}
