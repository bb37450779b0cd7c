/** What every reachable case satisfies: booking status, dispute, refund, payout and
    escrow agree at every step, and no satang is lost. */
module CaseInvariants {
  import opened Wrappers
  import opened Money
  import opened Escrow
  import opened Refund
  import opened Codes
  import opened Bookings

  /** The ledger agrees with the cached state and with the refund and payout rows:
      received = total = refunded + in escrow + paid out, and the refund row is the
      ledger's refunded total, split with nothing lost. */
  predicate MoneyOk(c: Case) {
    && Agrees(c.CurrentPosition(), c.entries)
    && FitsColumn(c.row.terms.total)
    && (c.row.escrow.Uncharged? ==> c.entries == [])
    && (!c.row.escrow.Uncharged? ==> Fold(c.entries, Received) == c.row.terms.total)
    && RefundIs(c, Fold(c.entries, Refunded))
    && (c.payout.Some? <==> c.row.escrow.Paid?)
    && (c.payout.Some? ==> c.payout.value.hostAmount == c.HostAmount())
    && (c.row.code.Some? <==> !c.row.escrow.Uncharged?)
  }

  predicate RefundIs(c: Case, refunded: int) {
    && c.PriorRefund() == refunded
    && (c.refund.Some? ==> c.refund.value.amounts == Breakdown(c.row.terms.total, refunded))
  }

  predicate Untouched(c: Case) {
    c.row.escrow.Uncharged? && c.refund.None? && c.dispute.None? && c.payout.None?
  }

  predicate Undisputed(c: Case) {
    (c.row.escrow.Held? || c.row.escrow.Frozen?) && c.refund.None? && c.dispute.None?
  }

  /** The status says where the money may be. */
  predicate StageOk(c: Case) {
    match c.row.status
    case Requested => Untouched(c) && c.row.timers.respondBy.Some?
    case AwaitingPayment => Untouched(c) && c.row.timers.payBy.Some?
    case Declined => Untouched(c)
    case Expired => Untouched(c)
    case Confirmed => Undisputed(c)
    case CheckedIn => Undisputed(c)
    case Disputed => c.row.escrow.Frozen? && c.refund.None? && c.dispute.Some? && c.dispute.value.status.Open?
    case Completed =>
      && !c.row.escrow.Uncharged? && !c.row.escrow.Held?
      && (if c.dispute.Some? then !c.dispute.value.status.Open? && !c.dispute.value.status.ResolvedRefunded?
          else c.refund.None?)
    case CancelledByGuest =>
      && c.dispute.None?
      && (Untouched(c) || (c.refund.Some? && !c.row.escrow.Uncharged? && !c.row.escrow.Held?))
    case CancelledByHost =>
      c.row.escrow.Reversed? && c.refund.Some? && (c.dispute.Some? ==> c.dispute.value.status.ResolvedRefunded?)
  }

  /** A ledger row of this booking: a positive, storable amount, and a row out of
      NONE (the charge) only in first place. */
  predicate EntryOk(id: Id, i: nat, e: Entry) {
    && e.bookingId == id && 0 < e.move.amount && IsSatang(e.move.amount)
    && (e.move.from.Uncharged? <==> i == 0)
  }

  predicate EntriesOk(c: Case) {
    forall i :: 0 <= i < |c.entries| ==> EntryOk(c.id, i, c.entries[i])
  }

  predicate CaseOk(c: Case) {
    MoneyOk(c) && StageOk(c) && EntriesOk(c)
  }

  lemma ApplyEventEntries(c: Case, event: EscrowEvent, causeRef: Option<nat>, actor: Option<nat>)
    requires EntriesOk(c) && (event.Charge? <==> c.entries == [])
    requires c.ApplyEvent(event, causeRef, actor).Success?
    requires GoodMoves(event, Reduce(c.CurrentPosition(), event).value.moves)
    ensures EntriesOk(c.ApplyEvent(event, causeRef, actor).value)
  {
  }

  /** The part of `MoneyOk` and `EntriesOk` that an escrow event relies on and keeps. */
  predicate LedgerOk(c: Case) {
    && Agrees(c.CurrentPosition(), c.entries)
    && (c.row.escrow.Uncharged? <==> c.entries == [])
    && EntriesOk(c)
  }

  lemma LedgerIsOk(c: Case)
    requires MoneyOk(c) && EntriesOk(c)
    ensures LedgerOk(c)
  {
  }

  /** `c'` is `c` after an accepted escrow event: only the ledger and the cached
      state moved, and the three outer totals moved by what the event says. */
  predicate Moved(c: Case, event: EscrowEvent, c': Case) {
    && c' == c.(entries := c'.entries, row := c.row.(escrow := c'.row.escrow))
    && LedgerOk(c') && !c'.row.escrow.Uncharged?
    && var p, p' := c.CurrentPosition(), c'.CurrentPosition();
       && Fold(c'.entries, Received) == Fold(c.entries, Received) + EventDelta(p, event, p', Received)
       && Fold(c'.entries, Refunded) == Fold(c.entries, Refunded) + EventDelta(p, event, p', Refunded)
       && Fold(c'.entries, PaidOut) == Fold(c.entries, PaidOut) + EventDelta(p, event, p', PaidOut)
       && Reduce(p, event).Success? && p' == Reduce(p, event).value.position
  }

  lemma ApplyEventMoves(c: Case, event: EscrowEvent, causeRef: Option<nat>, actor: Option<nat>)
    requires LedgerOk(c)
    requires c.ApplyEvent(event, causeRef, actor).Success?
    ensures Moved(c, event, c.ApplyEvent(event, causeRef, actor).value)
  {
    var p := c.CurrentPosition();
    var c' := c.ApplyEvent(event, causeRef, actor).value;
    ReduceAgrees(p, event, c.entries, c.id, causeRef, actor);
    ReduceOutcome(p, event);
    ApplyEventEntries(c, event, causeRef, actor);
    AgreementMeansInvariant(Reduce(p, event).value.position, c'.entries);
  }

  // ---- Every transition keeps the invariant ----

  lemma NewCaseIsOk(id: Id, row: Booking)
    requires FitsColumn(row.terms.total) && row.code.None? && row.escrow.Uncharged?
    requires (row.status.Requested? && row.timers.respondBy.Some?)
             || (row.status.AwaitingPayment? && row.timers.payBy.Some?)
    ensures CaseOk(NewCase(id, row))
  {
  }

  lemma AcceptKeeps(c: Case, hostId: Id, now: int, datesTaken: bool, c': Case)
    requires CaseOk(c) && c.Accept(hostId, now, datesTaken) == Success(c')
    ensures CaseOk(c')
  {
  }

  lemma DeclineKeeps(c: Case, hostId: Id, c': Case)
    requires CaseOk(c) && c.Decline(hostId) == Success(c')
    ensures CaseOk(c')
  {
  }

  lemma ExpireKeeps(c: Case, now: int, c': Case)
    requires CaseOk(c) && c.Expire(now) == Success(c')
    ensures CaseOk(c')
  {
  }

  lemma ConfirmKeeps(c: Case, event: Id, code: Code, c': Case)
    requires CaseOk(c) && c.Confirm(event, code) == Success(c')
    ensures CaseOk(c')
    ensures c.row.escrow.Uncharged? && c'.row.escrow.Held? && c'.CurrentPosition().amount == c.row.terms.total
  {
  }

  lemma CheckInKeeps(c: Case, c': Case)
    requires CaseOk(c) && c.CheckIn() == Success(c')
    ensures CaseOk(c')
  {
  }

  lemma CompleteKeeps(c: Case, c': Case)
    requires CaseOk(c) && c.Complete() == Success(c')
    ensures CaseOk(c')
    ensures c'.row.escrow == if c.row.escrow.Held? then Releasable else Frozen
    ensures c'.CurrentPosition().amount == c.CurrentPosition().amount
  {
  }

  /** A settlement after the refund row has been written with the new cumulative
      refund. */
  lemma SettleKeepsMoney(c: Case, b: Case, slice: int, cause: RefundCause, ref: Option<nat>, c': Case)
    requires MoneyOk(c) && EntriesOk(c)
    requires b == c.(row := c.row.(status := b.row.status), refund := b.refund, dispute := b.dispute)
    requires RefundIs(b, Fold(c.entries, Refunded) + slice)
    requires b.ApplyEvent(Settle(slice, cause), ref, None) == Success(c')
    ensures MoneyOk(c') && EntriesOk(c')
    ensures c'.row.escrow == (if slice < c.CurrentPosition().amount then Releasable else Reversed)
    ensures c' == b.(entries := c'.entries, row := b.row.(escrow := c'.row.escrow))
  {
    LedgerIsOk(c);
    assert LedgerOk(b);
    ApplyEventMoves(b, Settle(slice, cause), ref, None);
  }

  /** While nothing has been refunded or paid, the whole total is in escrow. */
  lemma FullPot(c: Case)
    requires MoneyOk(c) && c.refund.None? && (c.row.escrow.Held? || c.row.escrow.Frozen?)
    ensures c.CurrentPosition().amount == c.row.terms.total > 0
    ensures Fold(c.entries, Refunded) == 0
  {
  }

  lemma CancelByGuestKeeps(c: Case, userId: Id, now: int, c': Case)
    requires CaseOk(c) && c.CancelByGuest(userId, now) == Success(c')
    ensures CaseOk(c')
  {
    if c.row.status.Confirmed? {
      FullPot(c);
      var amounts := ComputeRefund(c.row.terms.total, c.row.terms.tier, DaysUntil(c.row.terms.checkIn, now));
      var b := c.WithStatus(CancelledByGuest).RecordRefund(amounts).value;
      SettleKeepsMoney(c, b, amounts.refund, RefundGuestTier, None, c');
    }
  }

  lemma CancelByHostKeeps(c: Case, hostId: Id, c': Case)
    requires CaseOk(c) && c.CancelByHost(hostId) == Success(c')
    ensures CaseOk(c')
  {
    FullPot(c);
    var total := c.row.terms.total;
    var b := c.WithStatus(CancelledByHost).RecordRefund(Breakdown(total, total)).value;
    SettleKeepsMoney(c, b, total, RefundHostCancelled, None, c');
  }

  lemma FreezeKeepsMoney(c: Case, b: Case, cause: FreezeCause, ref: Option<nat>, c': Case)
    requires MoneyOk(c) && EntriesOk(c)
    requires b == c.(row := c.row.(status := b.row.status), dispute := b.dispute)
    requires b.ApplyEvent(Freeze(cause), ref, None) == Success(c')
    ensures MoneyOk(c') && EntriesOk(c') && c'.row.escrow.Frozen?
    ensures c' == b.(entries := c'.entries, row := b.row.(escrow := Frozen))
    ensures c.row.escrow.Held? || c.row.escrow.Releasable?
  {
  }

  lemma OpenDisputeKeeps(c: Case, userId: Id, disputeId: Id, c': Case)
    requires CaseOk(c) && c.OpenDispute(userId, disputeId) == Success(c')
    ensures CaseOk(c')
    ensures c'.row.status.Disputed? && c'.dispute.Some? && c'.dispute.value.status.Open?
    ensures c'.row.escrow.Frozen? && c'.CurrentPosition().amount == c.row.terms.total
  {
  }

  lemma SliceFits(pot: int, res: Resolution)
    requires 0 <= pot
    ensures 0 <= GuestSlice(pot, res) <= pot
  {
  }

  lemma ResolveDisputeKeeps(c: Case, admin: Id, res: Resolution, c': Case)
    requires CaseOk(c) && c.ResolveDispute(admin, res) == Success(c')
    ensures CaseOk(c')
  {
    FullPot(c);
    var slice := GuestSlice(c.row.terms.total, res);
    SliceFits(c.row.terms.total, res);
    var decided := c.WithStatus(StatusAfter(res)).(dispute := Some(ResolvedAs(c.dispute.value, res)));
    var b := if res.ReleaseAll? then decided else decided.RecordRefund(Breakdown(c.row.terms.total, slice)).value;
    SettleKeepsMoney(c, b, slice, ResolutionCause(res), Some(admin), c');
  }

  lemma AppealDisputeKeeps(c: Case, userId: Id, side: Side, now: int, c': Case)
    requires CaseOk(c) && c.AppealDispute(userId, side, now) == Success(c')
    ensures CaseOk(c')
    ensures c.row.escrow.Releasable? && c'.row.escrow.Frozen?
    ensures c'.CurrentPosition().amount == c.CurrentPosition().amount && c'.refund == c.refund
  {
  }

  /** The refund row a decision on an appeal writes is the new cumulative refund. */
  lemma AppealRow(c: Case, slice: int, res: Resolution, b: Case)
    requires CaseOk(c) && c.dispute.Some? && c.row.escrow.Frozen?
    requires slice == GuestSlice(c.CurrentPosition().amount, res)
    requires var decided := c.WithStatus(StatusAfter(res)).(dispute := Some(ResolvedAs(c.dispute.value, res)));
             b == if res.ReleaseAll? then decided
                  else decided.UpsertRefund(Breakdown(c.row.terms.total, c.PriorRefund() + slice))
    ensures RefundIs(b, Fold(c.entries, Refunded) + slice)
  {
  }

  lemma AppealStage(c: Case, res: Resolution, b: Case, c': Case)
    requires CaseOk(c) && c.dispute.Some? && c.row.escrow.Frozen? && MoneyOk(c') && EntriesOk(c')
    requires b.row == c.row.(status := StatusAfter(res)) && b.dispute == Some(ResolvedAs(c.dispute.value, res))
    requires c' == b.(entries := c'.entries, row := b.row.(escrow := c'.row.escrow))
    requires res.RefundAll? ==> c'.row.escrow.Reversed? && c'.refund.Some?
    requires c'.row.escrow.Releasable? || c'.row.escrow.Reversed?
    ensures CaseOk(c')
  {
  }

  lemma ResolveAppealKeeps(c: Case, admin: Id, res: Resolution, c': Case)
    requires CaseOk(c) && c.ResolveAppeal(admin, res) == Success(c')
    ensures CaseOk(c')
  {
    var pot := c.CurrentPosition().amount;
    var slice := GuestSlice(pot, res);
    SliceFits(pot, res);
    var decided := c.WithStatus(StatusAfter(res)).(dispute := Some(ResolvedAs(c.dispute.value, res)));
    var b := if res.ReleaseAll? then decided
             else decided.UpsertRefund(Breakdown(c.row.terms.total, c.PriorRefund() + slice));
    AppealRow(c, slice, res, b);
    SettleKeepsMoney(c, b, slice, ResolutionCause(res), Some(admin), c');
    AppealStage(c, res, b, c');
  }

  lemma ReportFreezeKeeps(c: Case, reportId: Id, c': Case)
    requires CaseOk(c) && c.ReportFreeze(reportId) == Success(c')
    ensures CaseOk(c')
  {
    if c.row.escrow.Held? || c.row.escrow.Releasable? {
      FreezeKeepsMoney(c, c, HoldBookingReport, Some(reportId), c');
    }
  }

  lemma PayOutKeeps(c: Case, admin: Id, account: Id, slipRef: string, c': Case)
    requires CaseOk(c) && c.PayOut(admin, account, slipRef) == Success(c')
    ensures CaseOk(c')
  {
  }

  /** Marks on the refund row and the timers, which do not touch the money. */
  predicate Marking(a: CaseAction) {
    a.RefundingCancelled? || a.Finalizing? || a.Reminding?
  }

  lemma MarkChanges(c: Case, a: CaseAction, c': Case)
    requires Marking(a) && CaseNext(c, a) == Success(c')
    ensures c' == c.(row := c.row.(timers := c'.row.timers), refund := c'.refund)
    ensures c'.row.timers == c.row.timers.(remindedAt := c'.row.timers.remindedAt)
    ensures if c.refund.Some? then c'.refund == Some(c.refund.value.(opnRefundId := c'.refund.value.opnRefundId))
            else c'.refund.None?
  {
  }

  lemma MarkKeeps(c: Case, a: CaseAction, c': Case)
    requires Marking(a) && CaseOk(c) && CaseNext(c, a) == Success(c')
    ensures CaseOk(c')
  {
    MarkChanges(c, a, c');
  }

  lemma DisputeActionKeeps(c: Case, a: CaseAction, c': Case)
    requires Disputing(a) && CaseOk(c) && CaseNext(c, a) == Success(c')
    ensures CaseOk(c')
  {
    match a
    case OpeningDispute(userId, disputeId) => OpenDisputeKeeps(c, userId, disputeId, c');
    case ResolvingDispute(admin, res) => ResolveDisputeKeeps(c, admin, res, c');
    case Appealing(userId, side, now) => AppealDisputeKeeps(c, userId, side, now, c');
    case ResolvingAppeal(admin, res) => ResolveAppealKeeps(c, admin, res, c');
    case FreezingForReport(reportId) => ReportFreezeKeeps(c, reportId, c');
  }

  lemma OpenActionKeeps(c: Case, a: CaseAction, c': Case)
    requires a.Accepting? || a.Declining? || a.Expiring? || a.Confirming? || a.CheckingIn? || a.Completing?
    requires CaseOk(c) && CaseNext(c, a) == Success(c')
    ensures CaseOk(c')
  {
    match a
    case Accepting(hostId, now, datesTaken) => AcceptKeeps(c, hostId, now, datesTaken, c');
    case Declining(hostId) => DeclineKeeps(c, hostId, c');
    case Expiring(now) => ExpireKeeps(c, now, c');
    case Confirming(event, code) => ConfirmKeeps(c, event, code, c');
    case CheckingIn => CheckInKeeps(c, c');
    case Completing => CompleteKeeps(c, c');
  }

  lemma EndingActionKeeps(c: Case, a: CaseAction, c': Case)
    requires a.CancellingAsGuest? || a.CancellingAsHost? || a.PayingOut?
    requires CaseOk(c) && CaseNext(c, a) == Success(c')
    ensures CaseOk(c')
  {
    match a
    case CancellingAsGuest(userId, now) => CancelByGuestKeeps(c, userId, now, c');
    case CancellingAsHost(hostId) => CancelByHostKeeps(c, hostId, c');
    case PayingOut(admin, account, slipRef) => PayOutKeeps(c, admin, account, slipRef, c');
  }

  predicate Disputing(a: CaseAction) {
    a.OpeningDispute? || a.ResolvingDispute? || a.Appealing? || a.ResolvingAppeal? || a.FreezingForReport?
  }

  lemma CaseNextKeeps(c: Case, a: CaseAction, c': Case)
    requires CaseOk(c) && CaseNext(c, a) == Success(c')
    ensures CaseOk(c')
  {
    if a.CancellingAsGuest? || a.CancellingAsHost? || a.PayingOut? {
      EndingActionKeeps(c, a, c');
    } else if Marking(a) {
      MarkKeeps(c, a, c');
    } else if Disputing(a) {
      DisputeActionKeeps(c, a, c');
    } else {
      OpenActionKeeps(c, a, c');
    }
  }

  /** The coupled invariant holds after every run of one case. */
  lemma {:induction false} CaseRunKeeps(c: Case, actions: seq<CaseAction>)
    requires CaseOk(c)
    ensures CaseOk(CaseRun(c, actions))
  {
    if actions == [] {
    } else {
      var before := CaseRun(c, actions[..|actions| - 1]);
      CaseRunKeeps(c, actions[..|actions| - 1]);
      if CaseNext(before, actions[|actions| - 1]).Success? {
        CaseNextKeeps(before, actions[|actions| - 1], CaseRun(c, actions));
      }
    }
  }
}
