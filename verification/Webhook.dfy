/** Payment webhooks and stranded-charge refunds as a protocol: any number of deliveries
    of any number of charges, each cut at the gaps between its database transactions
    and its gateway calls, interleaved with each other and with everything else the
    application does, and any of them may die on the way. */
module Webhook {
  import opened Codes
  import opened Bookings
  import opened Database
  import opened Operations

  datatype ChargeState = ChargePending | ChargeSuccessful | ChargeFailed | ChargeExpired

  /** A charge at the gateway. `event` is the id of the webhook event that reports its
      completion; the gateway gives every charge its own. */
  datatype GatewayCharge = GatewayCharge(bookingId: Id, event: Id, state: ChargeState)

  /** Where a handler stands: what it will do next. */
  datatype Handler =
    | Arrived(event: Id, charge: Id)
    | ToConfirm(event: Id, charge: Id, bookingId: Id)
    | ToMark(charge: Id, status: PaymentStatus)
    | ToClaim(charge: Id)
    | ToRefund(charge: Id)
    | ToRollBack(charge: Id)
    | ToCreate(bookingId: Id, keepsRow: bool)
    | ToRecord(charge: Id, bookingId: Id)

  /** `refunds` counts what the gateway has actually refunded as stranded; `lost` holds
      the charges whose refund was claimed by a handler that died. Neither is visible to
      the program. */
  datatype Sys = Sys(db: Db, charges: map<Id, GatewayCharge>, handlers: map<nat, Handler>, refunds: map<Id, nat>,
                     lost: set<Id>)

  datatype SysStep =
    | Deliver(h: nat, event: Id, charge: Id)
    | Fetch(h: nat)
    | Confirm(h: nat, month: YearMonth)
    | Mark(h: nat)
    | Claim(h: nat)
    | CallGateway(h: nat, ok: bool)
    | RollBack(h: nat)
    | Crash(h: nat)
    | BeginPayment(h: nat, bookingId: Id, keepsRow: bool)
    | CreateCharge(h: nat, charge: Id, event: Id)
    | RecordRow(h: nat)
    | GatewaySettles(charge: Id, state: ChargeState)
    | Elsewhere(action: Action)

  const START := Sys(EMPTY, map[], map[], map[], {})

  function Refunds(sys: Sys, charge: Id): nat {
    if charge in sys.refunds then sys.refunds[charge] else 0
  }

  function Goto(sys: Sys, h: nat, next: Handler): Sys {
    sys.(handlers := sys.handlers[h := next])
  }

  function Finish(sys: Sys, h: nat): Sys {
    sys.(handlers := sys.handlers - {h})
  }

  /** The actions of the rest of the application: all but the payment writes, which only
      the handlers below make. */
  predicate IsElsewhere(action: Action) {
    !action.ConfirmingPayment? && !action.AddingPayment? && !action.MarkingPayment? && !action.SwappingPayment?
  }

  /** Ask the gateway for the charge's authoritative status. */
  function AfterFetch(sys: Sys, h: nat, event: Id, charge: Id): Sys {
    if charge !in sys.charges then Finish(sys, h)
    else
      match sys.charges[charge].state
      case ChargeSuccessful => Goto(sys, h, ToConfirm(event, charge, sys.charges[charge].bookingId))
      case ChargeFailed => Goto(sys, h, ToMark(charge, PaymentStatus.Failed))
      case ChargeExpired => Goto(sys, h, ToMark(charge, Lapsed))
      case ChargePending => Finish(sys, h)
  }

  /** The confirming transaction. A booking in the wrong state strands the charge; any
      other refusal ends the handler. */
  function AfterConfirm(sys: Sys, h: nat, p: Handler, month: YearMonth): Sys
    requires p.ToConfirm?
  {
    match ConfirmFromWebhook(sys.db, p.bookingId, p.event, month)
    case Success(db) => Goto(sys.(db := db), h, ToMark(p.charge, Successful))
    case Failure(e) => if e.WrongState? then Goto(sys, h, ToClaim(p.charge)) else Finish(sys, h)
  }

  /** The compare-and-swap from PENDING to REFUNDED. */
  function AfterClaim(sys: Sys, h: nat, charge: Id): Sys {
    if charge in sys.db.payments && sys.db.payments[charge].status.Pending? then
      Goto(sys.(db := MarkPayment(sys.db, charge, RefundedPayment)), h, ToRefund(charge))
    else Finish(sys, h)
  }

  predicate HoldsClaim(p: Handler, charge: Id) {
    p == ToRefund(charge) || p == ToRollBack(charge)
  }

  function AfterCrash(sys: Sys, h: nat, p: Handler): Sys {
    if p.ToRefund? || p.ToRollBack? then Finish(sys.(lost := sys.lost + {p.charge}), h) else Finish(sys, h)
  }

  predicate EventInUse(charges: map<Id, GatewayCharge>, event: Id) {
    exists c :: c in charges && charges[c].event == event
  }

  function AfterMark(sys: Sys, h: nat, p: Handler): Sys
    requires p.ToMark?
  {
    Finish(sys.(db := MarkPayment(sys.db, p.charge, p.status)), h)
  }

  /** The gateway refunds the charge, or the call fails and nothing was refunded. */
  function AfterGateway(sys: Sys, h: nat, charge: Id, ok: bool): Sys {
    if ok then Finish(sys.(refunds := sys.refunds[charge := Refunds(sys, charge) + 1]), h)
    else Goto(sys, h, ToRollBack(charge))
  }

  function AfterRollBack(sys: Sys, h: nat, charge: Id): Sys {
    Finish(sys.(db := SwapPayment(sys.db, charge, RefundedPayment, Pending)), h)
  }

  function AfterCreate(sys: Sys, h: nat, p: Handler, charge: Id, event: Id): Sys
    requires p.ToCreate?
  {
    var created := sys.(charges := sys.charges[charge := GatewayCharge(p.bookingId, event, ChargePending)]);
    if p.keepsRow then Goto(created, h, ToRecord(charge, p.bookingId)) else Finish(created, h)
  }

  function AfterRecord(sys: Sys, h: nat, p: Handler): Sys
    requires p.ToRecord?
  {
    match AddPayment(sys.db, p.charge, p.bookingId)
    case Success(db) => Finish(sys.(db := db), h)
    case Failure(_) => Finish(sys, h)
  }

  /** One step; a step that is not enabled changes nothing. */
  function Advance(sys: Sys, step: SysStep): Sys {
    match step
    case Deliver(h, event, charge) => if h in sys.handlers then sys else Goto(sys, h, Arrived(event, charge))
    case Fetch(h) =>
      if h in sys.handlers && sys.handlers[h].Arrived? then
        AfterFetch(sys, h, sys.handlers[h].event, sys.handlers[h].charge)
      else sys
    case Confirm(h, month) =>
      if h in sys.handlers && sys.handlers[h].ToConfirm? then AfterConfirm(sys, h, sys.handlers[h], month) else sys
    case Mark(h) => if h in sys.handlers && sys.handlers[h].ToMark? then AfterMark(sys, h, sys.handlers[h]) else sys
    case Claim(h) => if h in sys.handlers && sys.handlers[h].ToClaim? then AfterClaim(sys, h, sys.handlers[h].charge)
                     else sys
    case CallGateway(h, ok) =>
      if h in sys.handlers && sys.handlers[h].ToRefund? then AfterGateway(sys, h, sys.handlers[h].charge, ok) else sys
    case RollBack(h) => if h in sys.handlers && sys.handlers[h].ToRollBack? then
                          AfterRollBack(sys, h, sys.handlers[h].charge)
                        else sys
    case Crash(h) => if h in sys.handlers then AfterCrash(sys, h, sys.handlers[h]) else sys
    case BeginPayment(h, id, keepsRow) =>
      if h !in sys.handlers && id in sys.db.bookings && sys.db.bookings[id].status.AwaitingPayment? then
        Goto(sys, h, ToCreate(id, keepsRow))
      else sys
    case CreateCharge(h, charge, event) =>
      if h in sys.handlers && sys.handlers[h].ToCreate? && charge !in sys.charges
          && !EventInUse(sys.charges, event) then
        AfterCreate(sys, h, sys.handlers[h], charge, event)
      else sys
    case RecordRow(h) => if h in sys.handlers && sys.handlers[h].ToRecord? then AfterRecord(sys, h, sys.handlers[h])
                         else sys
    case GatewaySettles(charge, state) =>
      if charge in sys.charges && sys.charges[charge].state.ChargePending? then
        sys.(charges := sys.charges[charge := sys.charges[charge].(state := state)])
      else sys
    case Elsewhere(action) => if IsElsewhere(action) then sys.(db := Step(sys.db, action)) else sys
  }

  function SysRun(sys: Sys, steps: seq<SysStep>): Sys {
    if steps == [] then sys else Advance(SysRun(sys, steps[..|steps| - 1]), steps[|steps| - 1])
  }

  /** Every delivery carries the one event id the gateway gave the charge. */
  predicate OneEventPerCharge(sys: Sys, step: SysStep) {
    step.Deliver? ==> step.charge in sys.charges && step.event == sys.charges[step.charge].event
  }

  predicate HonestRun(steps: seq<SysStep>)
  {
    if steps == [] then true
    else
      var front := steps[..|steps| - 1];
      HonestRun(front) && OneEventPerCharge(SysRun(START, front), steps[|steps| - 1])
  }
}
