/** Sending a booking's refund as a protocol: the gate, the read of the refund row, the
    look-up of the payment, the gateway call and the storing of its answer are separate
    steps, of any number of senders, interleaved with each other and with everything else
    the application does, and any sender may die on the way. */
module RefundSending {
  import opened Wrappers
  import opened Bookings
  import opened Database
  import opened Operations

  /** Where a sender stands: what it will do next, and the amount it has read. */
  datatype Sender =
    | ToRead(bookingId: Id)
    | ToPay(bookingId: Id, amount: int)
    | ToCall(bookingId: Id, amount: int)
    | ToStore(bookingId: Id, amount: int, refundId: Id)

  /** Money the gateway has given back for a booking. */
  datatype GatewayRefund = GatewayRefund(bookingId: Id, amount: int)

  /** `sent` is the gateway's own record; the program does not see it. */
  datatype Desk = Desk(db: Db, senders: map<nat, Sender>, sent: seq<GatewayRefund>)

  datatype DeskStep =
    | Gate(h: nat, bookingId: Id)
    | CancelPage(h: nat, bookingId: Id, a: DirectAction)
    | ReadRow(h: nat)
    | FindPayment(h: nat)
    | CallGateway(h: nat, answer: Option<Id>)
    | StoreId(h: nat)
    | Die(h: nat)
    | Elsewhere(action: Action)

  const FRESH := Desk(EMPTY, map[], [])

  function Goto(d: Desk, h: nat, next: Sender): Desk {
    d.(senders := d.senders[h := next])
  }

  function Finish(d: Desk, h: nat): Desk {
    d.(senders := d.senders - {h})
  }

  /** The administrator's gate: the dispute is decided and its money not frozen. */
  predicate GateOpen(db: Db, id: Id) {
    && id in db.bookings && id in db.disputes
    && !db.disputes[id].status.Open? && !db.bookings[id].escrow.Frozen?
  }

  /** The cancellation pages send the refund right after the cancellation commits. */
  function AfterCancel(d: Desk, h: nat, id: Id, a: DirectAction): Desk {
    if !a.CancellingAsGuest? && !a.CancellingAsHost? then d
    else
      match Act(d.db, id, a)
      case Success(db) => Goto(d.(db := db), h, ToRead(id))
      case Failure(_) => d
  }

  /** Something is owed and no id is stored yet. */
  predicate Owed(db: Db, id: Id) {
    id in db.refunds && 0 < db.refunds[id].amounts.refund && db.refunds[id].opnRefundId.None?
  }

  function AfterRead(d: Desk, h: nat, id: Id): Desk {
    if Owed(d.db, id) then Goto(d, h, ToPay(id, d.db.refunds[id].amounts.refund)) else Finish(d, h)
  }

  function AfterFind(d: Desk, h: nat, id: Id, amount: int): Desk {
    if HasPaid(d.db, id) then Goto(d, h, ToCall(id, amount)) else Finish(d, h)
  }

  /** The gateway refunds the amount and answers with an id, or the call fails and
      nothing was refunded. */
  function AfterCall(d: Desk, h: nat, id: Id, amount: int, answer: Option<Id>): Desk {
    match answer
    case Some(refundId) => Goto(d.(sent := d.sent + [GatewayRefund(id, amount)]), h, ToStore(id, amount, refundId))
    case None => Finish(d, h)
  }

  /** Write the id onto the row as it is now. */
  function StoredDb(db: Db, id: Id, refundId: Id): Db {
    if id in db.refunds then db.(refunds := db.refunds[id := db.refunds[id].(opnRefundId := Some(refundId))]) else db
  }

  /** Everything else the application does; the two operations that send a refund in one
      go are taken apart here. */
  predicate IsElsewhere(action: Action) {
    !action.SendingRefund? && !action.FinalizingRefund?
  }

  /** One step; a step that is not enabled changes nothing. */
  function Advance(d: Desk, step: DeskStep): Desk {
    match step
    case Gate(h, id) => if h !in d.senders && GateOpen(d.db, id) then Goto(d, h, ToRead(id)) else d
    case CancelPage(h, id, a) => if h !in d.senders then AfterCancel(d, h, id, a) else d
    case ReadRow(h) => if h in d.senders && d.senders[h].ToRead? then AfterRead(d, h, d.senders[h].bookingId) else d
    case FindPayment(h) =>
      if h in d.senders && d.senders[h].ToPay? then AfterFind(d, h, d.senders[h].bookingId, d.senders[h].amount) else d
    case CallGateway(h, answer) =>
      if h in d.senders && d.senders[h].ToCall? then
        AfterCall(d, h, d.senders[h].bookingId, d.senders[h].amount, answer)
      else d
    case StoreId(h) =>
      if h in d.senders && d.senders[h].ToStore? then
        Finish(d.(db := StoredDb(d.db, d.senders[h].bookingId, d.senders[h].refundId)), h)
      else d
    case Die(h) => Finish(d, h)
    case Elsewhere(action) => if IsElsewhere(action) then d.(db := Step(d.db, action)) else d
  }

  function DeskRun(d: Desk, steps: seq<DeskStep>): Desk {
    if steps == [] then d else Advance(DeskRun(d, steps[..|steps| - 1]), steps[|steps| - 1])
  }

  // ---- What has been sent, and what is about to be ----

  /** The amounts the gateway has refunded for one booking. */
  function SentFor(sent: seq<GatewayRefund>, id: Id): seq<int> {
    if sent == [] then []
    else
      var last := sent[|sent| - 1];
      SentFor(sent[..|sent| - 1], id) + (if last.bookingId == id then [last.amount] else [])
  }

  /** A sender that has found nothing stored and has not called the gateway yet. */
  predicate Carries(p: Sender, id: Id) {
    (p.ToPay? || p.ToCall?) && p.bookingId == id
  }

  function InFlight(senders: map<nat, Sender>, id: Id): set<nat> {
    set h | h in senders && Carries(senders[h], id)
  }

  /** Refunds made, and refunds senders are set to make. */
  function Potential(d: Desk, id: Id): nat {
    |SentFor(d.sent, id)| + |InFlight(d.senders, id)|
  }

  /** The step is a sender of this booking finding that nothing has been sent. */
  predicate PassesNullCheck(d: Desk, step: DeskStep, id: Id) {
    && step.ReadRow? && step.h in d.senders && d.senders[step.h] == ToRead(id) && Owed(d.db, id)
  }

  function RowAmount(db: Db, id: Id): int {
    if id in db.refunds then db.refunds[id].amounts.refund else 0
  }

  /** The guest has been sent nothing, or once exactly what the refund row says. */
  predicate SentIsOwed(d: Desk, id: Id) {
    SentFor(d.sent, id) == [] || SentFor(d.sent, id) == [RowAmount(d.db, id)]
  }
}
