/** One booking's case: its row, its ledger entries, and its refund, dispute and
    payout rows, with every transition the application can make on it. A refused
    transition is a `Failure`: the transaction rolls back and nothing changes. */
module Bookings {
  import opened Wrappers
  import opened Escrow
  import opened Refund
  import opened Codes

  type Id = nat

  datatype BookingStatus =
    | Requested
    | AwaitingPayment
    | Confirmed
    | CheckedIn
    | Completed
    | Declined
    | Expired
    | CancelledByGuest
    | CancelledByHost
    | Disputed

  datatype BookingMode = RequestMode | InstantMode

  datatype Error =
    | NotFound
    | NotGuest
    | NotHost
    | NotRelated
    | WrongState
    | DeadlineNotPassed
    | DisputeNotOpen
    | AlreadyAppealed
    | AppealNotOpen
    | EscrowRefused(reason: EscrowError)
    | DuplicateRow
    | CardTokenRequired
    | GatewayFailed
    | ColumnOverflow
    | DatesTaken
    | NotFinal
    | NotBookingReport
    | NotListingReport
    | ReasonRequired
    | TargetRequired
    | SlipRequired
    | NotReleasable
    | OnHold
    | NoPayoutAccount
    | ReconcileBlocked

  // Times are milliseconds since the epoch.
  const HOUR := 3600000
  const DAY := 24 * HOUR
  const HOST_RESPOND_HOURS := 12
  const PAY_HOURS_REQUEST := 12
  const PAY_HOURS_INSTANT := 1

  /** The snapshot taken when the booking is made; it never changes afterwards.
      `host` is the owner of the booked listing. */
  datatype Terms = Terms(guest: Id, host: Id, checkIn: int, checkOut: int, total: int, commission: int,
                         tier: CancellationTier, mode: BookingMode)

  /** The deadlines and marks the cron sweeps work from. */
  datatype Timers = Timers(respondBy: Option<int>, payBy: Option<int>, remindedAt: Option<int>)

  datatype Booking = Booking(terms: Terms, status: BookingStatus, timers: Timers, code: Option<Code>,
                             escrow: EscrowState)

  datatype RefundRow = RefundRow(amounts: RefundBreakdown, opnRefundId: Option<Id>)

  datatype DisputeStatus = Open | ResolvedReleased | ResolvedPartial | ResolvedRefunded

  datatype Dispute = Dispute(id: Id, status: DisputeStatus, partialPct: Option<int>,
                             guestAppealedAt: Option<int>, hostAppealedAt: Option<int>)

  datatype Payout = Payout(account: Id, hostAmount: int, slipRef: string, paidBy: Id)

  datatype Resolution = ReleaseAll | PartialRefund(pct: int) | RefundAll

  datatype Side = GuestSide | HostSide

  /** [start] to REQUESTED. */
  function RequestRow(terms: Terms, now: int): Booking {
    Booking(terms.(mode := RequestMode), Requested, Timers(Some(now + HOST_RESPOND_HOURS * HOUR), None, None), None,
        Uncharged)
  }

  /** [start] to AWAITING_PAYMENT. */
  function InstantRow(terms: Terms, now: int): Booking {
    Booking(terms.(mode := InstantMode), AwaitingPayment, Timers(None, Some(now + PAY_HOURS_INSTANT * HOUR), None),
        None, Uncharged)
  }

  /** Whole days left before check-in, never negative. */
  function DaysUntil(checkIn: int, now: int): (days: int)
    ensures 0 <= days
    ensures checkIn - now < (days + 1) * DAY
    ensures now <= checkIn ==> days * DAY <= checkIn - now
  {
    var days := (checkIn - now) / DAY;
    if days < 0 then 0 else days
  }

  function ResolvedAs(d: Dispute, res: Resolution): Dispute {
    match res
    case ReleaseAll => d.(status := ResolvedReleased)
    case PartialRefund(pct) => d.(status := ResolvedPartial, partialPct := Some(pct))
    case RefundAll => d.(status := ResolvedRefunded)
  }

  function ResolutionCause(res: Resolution): RefundCause {
    if res.PartialRefund? then RefundDisputePartial else RefundDisputeFull
  }

  /** What a decision takes out of a pot for the guest. */
  function GuestSlice(pot: int, res: Resolution): int {
    match res
    case ReleaseAll => 0
    case PartialRefund(pct) => RefundForPct(pot, pct)
    case RefundAll => pot
  }

  function StatusAfter(res: Resolution): BookingStatus {
    if res.RefundAll? then CancelledByHost else Completed
  }

  datatype Case = Case(id: Id, row: Booking, entries: seq<Entry>,
                       refund: Option<RefundRow>, dispute: Option<Dispute>, payout: Option<Payout>)
  {
    /** The state comes from the cached column, the amount from the log. */
    function CurrentPosition(): Position {
      Position(row.escrow, Obligation(entries))
    }

    /** A later version of the same case: the ledger only ever grows. */
    predicate Extends(before: Case) {
      id == before.id && before.entries <= entries
    }

    function WithStatus(s: BookingStatus): Case {
      this.(row := row.(status := s))
    }

    /** Run one escrow event, append its rows and refresh the cached state. */
    function ApplyEvent(event: EscrowEvent, causeRef: Option<nat>, actor: Option<nat>): (r: Result<Case, Error>)
      ensures r.Success? ==> r.value.Extends(this)
    {
      match Reduce(CurrentPosition(), event)
      case Failure(e) => Failure(EscrowRefused(e))
      case Success(t) =>
        Success(this.(entries := entries + Stamp(id, t.moves, causeRef, actor),
                      row := row.(escrow := t.position.state)))
    }

    /** The refund table holds one row per booking. */
    function RecordRefund(amounts: RefundBreakdown): Result<Case, Error> {
      if refund.Some? then Failure(DuplicateRow) else Success(this.(refund := Some(RefundRow(amounts, None))))
    }

    function UpsertRefund(amounts: RefundBreakdown): Case {
      this.(refund := Some(RefundRow(amounts, if refund.Some? then refund.value.opnRefundId else None)))
    }

    function Accept(hostId: Id, now: int, datesTaken: bool): (r: Result<Case, Error>)
      ensures r.Success? ==> r.value.Extends(this)
    {
      if row.terms.host != hostId then Failure(NotHost)
      else if row.status != Requested then Failure(WrongState)
      else if datesTaken then Failure(DatesTaken)
      else
        var timers := row.timers.(payBy := Some(now + PAY_HOURS_REQUEST * HOUR));
        Success(this.(row := row.(status := AwaitingPayment, timers := timers)))
    }

    function Decline(hostId: Id): (r: Result<Case, Error>)
      ensures r.Success? ==> r.value.Extends(this)
    {
      if row.terms.host != hostId then Failure(NotHost)
      else if row.status != Requested then Failure(WrongState)
      else Success(WithStatus(Declined))
    }

    function Expire(now: int): (r: Result<Case, Error>)
      ensures r.Success? ==> r.value.Extends(this)
    {
      var deadline := match row.status
                      case Requested => row.timers.respondBy
                      case AwaitingPayment => row.timers.payBy
                      case _ => None;
      if deadline.None? then Failure(WrongState)
      else if deadline.value > now then Failure(DeadlineNotPassed)
      else Success(WithStatus(BookingStatus.Expired))
    }

    function Confirm(event: Id, code: Code): (r: Result<Case, Error>)
      ensures r.Success? ==> r.value.Extends(this)
    {
      if row.status != AwaitingPayment then Failure(WrongState)
      else
        this.(row := row.(status := Confirmed, code := Some(code)))
        .ApplyEvent(Charge(row.terms.total), Some(event), None)
    }

    function CheckIn(): (r: Result<Case, Error>)
      ensures r.Success? ==> r.value.Extends(this)
    {
      if row.status != Confirmed then Failure(WrongState) else Success(WithStatus(CheckedIn))
    }

    function Complete(): (r: Result<Case, Error>)
      ensures r.Success? ==> r.value.Extends(this)
    {
      if row.status != CheckedIn then Failure(WrongState)
      else if row.escrow.Held? then WithStatus(Completed).ApplyEvent(Release, None, None)
      else Success(WithStatus(Completed))
    }

    function CancelByGuest(userId: Id, now: int): (r: Result<Case, Error>)
      ensures r.Success? ==> r.value.Extends(this)
    {
      if row.terms.guest != userId then Failure(NotGuest)
      else if row.status.Requested? || row.status.AwaitingPayment? then Success(WithStatus(CancelledByGuest))
      else if row.status != Confirmed then Failure(WrongState)
      else
        var amounts := ComputeRefund(row.terms.total, row.terms.tier, DaysUntil(row.terms.checkIn, now));
        var c :- WithStatus(CancelledByGuest).RecordRefund(amounts);
        c.ApplyEvent(Settle(amounts.refund, RefundGuestTier), None, None)
    }

    function CancelByHost(hostId: Id): (r: Result<Case, Error>)
      ensures r.Success? ==> r.value.Extends(this)
    {
      if row.terms.host != hostId then Failure(NotHost)
      else if row.status != Confirmed then Failure(WrongState)
      else
        var c :- WithStatus(CancelledByHost).RecordRefund(Breakdown(row.terms.total, row.terms.total));
        c.ApplyEvent(Settle(row.terms.total, RefundHostCancelled), None, None)
    }

    function OpenDispute(userId: Id, disputeId: Id): (r: Result<Case, Error>)
      ensures r.Success? ==> r.value.Extends(this)
    {
      if row.terms.guest != userId then Failure(NotGuest)
      else if row.status != CheckedIn then Failure(WrongState)
      else if dispute.Some? then Failure(DuplicateRow)
      else
        WithStatus(Disputed)
        .(dispute := Some(Dispute(disputeId, Open, None, None, None)))
        .ApplyEvent(Freeze(HoldDisputeOpened), Some(disputeId), None)
    }

    function ResolveDispute(admin: Id, res: Resolution): (r: Result<Case, Error>)
      ensures r.Success? ==> r.value.Extends(this)
    {
      if row.status != Disputed then Failure(WrongState)
      else if dispute.None? || dispute.value.status != Open then Failure(DisputeNotOpen)
      else
        var slice := GuestSlice(row.terms.total, res);
        var decided := WithStatus(StatusAfter(res)).(dispute := Some(ResolvedAs(dispute.value, res)));
        var c :- if res.ReleaseAll? then Success(decided) else decided.RecordRefund(Breakdown(row.terms.total, slice));
        c.ApplyEvent(Settle(slice, ResolutionCause(res)), Some(admin), None)
    }

    function AppealDispute(userId: Id, side: Side, now: int): (r: Result<Case, Error>)
      ensures r.Success? ==> r.value.Extends(this)
    {
      if dispute.None? || dispute.value.status == Open then Failure(WrongState)
      else if side.GuestSide? && row.terms.guest != userId then Failure(NotGuest)
      else if side.HostSide? && row.terms.host != userId then Failure(NotHost)
      else if (if side.GuestSide? then dispute.value.guestAppealedAt else dispute.value.hostAppealedAt).Some? then
        Failure(AlreadyAppealed)
      else if !row.escrow.Held? && !row.escrow.Releasable? then Failure(AppealNotOpen)
      else if refund.Some? && refund.value.opnRefundId.Some? then Failure(AppealNotOpen)
      else
        var d := if side.GuestSide? then dispute.value.(guestAppealedAt := Some(now))
                 else dispute.value.(hostAppealedAt := Some(now));
        this.(dispute := Some(d)).ApplyEvent(Freeze(HoldDisputeOpened), Some(d.id), None)
    }

    function PriorRefund(): int {
      if refund.Some? then refund.value.amounts.refund else 0
    }

    /** Guarded by the existence of a dispute and the FROZEN state only. */
    function ResolveAppeal(admin: Id, res: Resolution): (r: Result<Case, Error>)
      ensures r.Success? ==> r.value.Extends(this)
    {
      if dispute.None? then Failure(WrongState)
      else if !row.escrow.Frozen? then Failure(AppealNotOpen)
      else
        var slice := GuestSlice(CurrentPosition().amount, res);
        var decided := WithStatus(StatusAfter(res)).(dispute := Some(ResolvedAs(dispute.value, res)));
        var c := if res.ReleaseAll? then decided
                 else decided.UpsertRefund(Breakdown(row.terms.total, PriorRefund() + slice));
        c.ApplyEvent(Settle(slice, ResolutionCause(res)), Some(admin), None)
    }

    /** Taking a booking report into review freezes money that is still HELD or
        RELEASABLE, whatever stage the booking is at. */
    function ReportFreeze(reportId: Id): (r: Result<Case, Error>)
      ensures r.Success? ==> r.value.Extends(this)
    {
      if row.escrow.Held? || row.escrow.Releasable? then ApplyEvent(Freeze(HoldBookingReport), Some(reportId), None)
      else Success(this)
    }

    function HostAmount(): int {
      row.terms.total - row.terms.commission
    }

    function PayOut(admin: Id, account: Id, slipRef: string): (r: Result<Case, Error>)
      ensures r.Success? ==> r.value.Extends(this)
    {
      var c :- ApplyEvent(Pay, Some(admin), Some(admin));
      if payout.Some? then Failure(DuplicateRow)
      else Success(c.(payout := Some(Payout(account, HostAmount(), slipRef, admin))))
    }

    /** Store the gateway's refund id once the guest's money has been sent. A refund
        that is absent, zero or already sent, a booking with no successful payment,
        and a gateway failure (no id) all leave the case as it is. */
    function SendRefund(paid: bool, gateway: Option<Id>): (c: Case)
      ensures c.Extends(this)
    {
      if refund.None? || refund.value.amounts.refund <= 0 || refund.value.opnRefundId.Some? || !paid
          || gateway.None? then this
      else this.(refund := Some(refund.value.(opnRefundId := gateway)))
    }

    /** The administrator's gate in front of `SendRefund`. */
    function FinalizeRefund(paid: bool, gateway: Option<Id>): (r: Result<Case, Error>)
      ensures r.Success? ==> r.value.Extends(this)
    {
      if dispute.None? then Failure(NotFound)
      else if dispute.value.status == Open || row.escrow.Frozen? then Failure(NotFinal)
      else Success(SendRefund(paid, gateway))
    }

    /** The best-effort refund the cancellation pages fire right after a successful
        `CancelByGuest` or `CancelByHost`. */
    function RefundAfterCancel(paid: bool, gateway: Option<Id>): (r: Result<Case, Error>)
      ensures r.Success? ==> r.value.Extends(this)
    {
      if (row.status.CancelledByGuest? || row.status.CancelledByHost?) && dispute.None? then
        Success(SendRefund(paid, gateway))
      else Failure(WrongState)
    }

    function StampReminder(now: int): (c: Case)
      ensures c.Extends(this)
    {
      if row.timers.remindedAt.Some? then this else this.(row := row.(timers := row.timers.(remindedAt := Some(now))))
    }
  }

  /** Every way the application can act on one case. */
  datatype CaseAction =
    | Accepting(hostId: Id, now: int, datesTaken: bool)
    | Declining(hostId: Id)
    | Expiring(now: int)
    | Confirming(event: Id, code: Code)
    | CheckingIn
    | Completing
    | CancellingAsGuest(userId: Id, now: int)
    | CancellingAsHost(hostId: Id)
    | OpeningDispute(userId: Id, disputeId: Id)
    | ResolvingDispute(admin: Id, res: Resolution)
    | Appealing(userId: Id, side: Side, now: int)
    | ResolvingAppeal(admin: Id, res: Resolution)
    | FreezingForReport(reportId: Id)
    | PayingOut(admin: Id, account: Id, slipRef: string)
    | RefundingCancelled(paid: bool, gateway: Option<Id>)
    | Finalizing(paid: bool, gateway: Option<Id>)
    | Reminding(now: int)

  function CaseNext(c: Case, a: CaseAction): (r: Result<Case, Error>)
    ensures r.Success? ==> r.value.Extends(c)
  {
    match a
    case Accepting(hostId, now, datesTaken) => c.Accept(hostId, now, datesTaken)
    case Declining(hostId) => c.Decline(hostId)
    case Expiring(now) => c.Expire(now)
    case Confirming(event, code) => c.Confirm(event, code)
    case CheckingIn => c.CheckIn()
    case Completing => c.Complete()
    case CancellingAsGuest(userId, now) => c.CancelByGuest(userId, now)
    case CancellingAsHost(hostId) => c.CancelByHost(hostId)
    case OpeningDispute(userId, disputeId) => c.OpenDispute(userId, disputeId)
    case ResolvingDispute(admin, res) => c.ResolveDispute(admin, res)
    case Appealing(userId, side, now) => c.AppealDispute(userId, side, now)
    case ResolvingAppeal(admin, res) => c.ResolveAppeal(admin, res)
    case FreezingForReport(reportId) => c.ReportFreeze(reportId)
    case PayingOut(admin, account, slipRef) => c.PayOut(admin, account, slipRef)
    case RefundingCancelled(paid, gateway) => c.RefundAfterCancel(paid, gateway)
    case Finalizing(paid, gateway) => c.FinalizeRefund(paid, gateway)
    case Reminding(now) => Success(c.StampReminder(now))
  }

  /** A refused action rolls back. */
  function CaseStep(c: Case, a: CaseAction): (c': Case)
    ensures c'.Extends(c)
  {
    match CaseNext(c, a)
    case Success(c') => c'
    case Failure(_) => c
  }

  function CaseRun(c: Case, actions: seq<CaseAction>): Case {
    if actions == [] then c else CaseStep(CaseRun(c, actions[..|actions| - 1]), actions[|actions| - 1])
  }

  function NewCase(id: Id, row: Booking): Case {
    Case(id, row, [], None, None, None)
  }
}
