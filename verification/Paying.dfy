/** Marking a booking paid as a protocol: the reads of the booking, the holds and the
    account, the reconciliation and the transaction are separate steps, of any number of
    payers, interleaved with each other and with everything else the application does, and
    any payer may die on the way. */
module Paying {
  import opened Wrappers
  import opened Bookings
  import opened Database
  import opened Operations

  datatype Order = Order(bookingId: Id, admin: Id, slip: string)

  /** Where a payer stands: what it will do next. */
  datatype Payer =
    | ToCheckHold(order: Order)
    | ToFindAccount(order: Order)
    | ToReconcile(order: Order, account: Id)
    | ToCommit(order: Order, account: Id)

  datatype Till = Till(db: Db, payers: map<nat, Payer>)

  datatype TillStep =
    | Begin(p: nat, order: Order)
    | CheckHold(p: nat)
    | FindAccount(p: nat)
    | Reconcile(p: nat, balance: int)
    | Commit(p: nat)
    | Die(p: nat)
    | Elsewhere(action: Action)

  const OPENING := Till(EMPTY, map[])

  function Goto(t: Till, p: nat, next: Payer): Till {
    t.(payers := t.payers[p := next])
  }

  function Finish(t: Till, p: nat): Till {
    t.(payers := t.payers - {p})
  }

  predicate Releasable(db: Db, id: Id) {
    id in db.bookings && db.bookings[id].escrow.Releasable?
  }

  /** A slip is given and the booking's money is RELEASABLE. */
  function AfterBegin(t: Till, p: nat, order: Order): Till {
    if Trim(order.slip) == "" || !Releasable(t.db, order.bookingId) then t
    else Goto(t, p, ToCheckHold(order.(slip := Trim(order.slip))))
  }

  /** Some active hold covers the booking or its host. */
  predicate HoldActive(db: Db, id: Id) {
    id in db.bookings && ActiveHold(db, id, db.bookings[id].terms.host)
  }

  function AfterCheckHold(t: Till, p: nat, order: Order): Till {
    if HoldActive(t.db, order.bookingId) then Finish(t, p) else Goto(t, p, ToFindAccount(order))
  }

  function AccountFor(db: Db, id: Id): Option<Account> {
    if id in db.bookings then NewestAccount(db.accounts, db.bookings[id].terms.host) else None
  }

  function AfterFindAccount(t: Till, p: nat, order: Order): Till {
    match AccountFor(t.db, order.bookingId)
    case Some(account) => Goto(t, p, ToReconcile(order, account.id))
    case None => Finish(t, p)
  }

  function AfterReconcile(t: Till, p: nat, order: Order, account: Id, balance: int): Till {
    if ReconcileOk(t.db.ledger, balance) then Goto(t, p, ToCommit(order, account)) else Finish(t, p)
  }

  /** The transaction: the ledger move and the payout row, or neither. It looks at the
      escrow state again, and at nothing else. */
  function Committed(db: Db, order: Order, account: Id): Db {
    match Act(db, order.bookingId, PayingOut(order.admin, account, order.slip))
    case Success(after) => after
    case Failure(_) => db
  }

  function AfterCommit(t: Till, p: nat, order: Order, account: Id): Till {
    Finish(t.(db := Committed(t.db, order, account)), p)
  }

  /** Everything else the application does; the operation that pays in one go is taken
      apart here. */
  predicate IsElsewhere(action: Action) {
    !action.MarkingPaid?
  }

  /** One step; a step that is not enabled changes nothing. */
  function Advance(t: Till, step: TillStep): Till {
    match step
    case Begin(p, order) => if p in t.payers then t else AfterBegin(t, p, order)
    case CheckHold(p) =>
      if p in t.payers && t.payers[p].ToCheckHold? then AfterCheckHold(t, p, t.payers[p].order) else t
    case FindAccount(p) =>
      if p in t.payers && t.payers[p].ToFindAccount? then AfterFindAccount(t, p, t.payers[p].order) else t
    case Reconcile(p, balance) =>
      if p in t.payers && t.payers[p].ToReconcile? then
        AfterReconcile(t, p, t.payers[p].order, t.payers[p].account, balance)
      else t
    case Commit(p) =>
      if p in t.payers && t.payers[p].ToCommit? then AfterCommit(t, p, t.payers[p].order, t.payers[p].account) else t
    case Die(p) => Finish(t, p)
    case Elsewhere(action) => if IsElsewhere(action) then t.(db := Step(t.db, action)) else t
  }

  function TillRun(t: Till, steps: seq<TillStep>): Till {
    if steps == [] then t else Advance(TillRun(t, steps[..|steps| - 1]), steps[|steps| - 1])
  }

  /** A payer of this booking is past its look at the holds. */
  predicate InFlight(p: Payer, id: Id) {
    !p.ToCheckHold? && p.order.bookingId == id
  }

  predicate SomeInFlight(payers: map<nat, Payer>, id: Id) {
    exists p :: p in payers && InFlight(payers[p], id)
  }
}
