/** A measure that every real step on a booking lowers, so its history is finite. */
module CaseTermination {
  import opened Wrappers
  import opened Escrow
  import opened Bookings
  import opened CaseInvariants

  function StatusRank(s: BookingStatus): nat {
    match s
    case Requested => 5
    case AwaitingPayment => 4
    case Confirmed => 3
    case CheckedIn => 2
    case Disputed => 1
    case _ => 0
  }

  function EscrowRank(s: EscrowState): nat {
    match s
    case Uncharged => 5
    case Held => 4
    case Frozen => 3
    case Releasable => 2
    case _ => 0
  }

  /** Each side of a dispute may appeal once. */
  function UnspentSides(c: Case): nat {
    if c.dispute.None? then 2
    else
      (if c.dispute.value.guestAppealedAt.None? then 1 else 0) + (if c.dispute.value.hostAppealedAt.None? then 1 else 0)
  }

  function Rank(c: Case): nat {
    2 * UnspentSides(c) + StatusRank(c.row.status) + EscrowRank(c.row.escrow)
  }

  const MAX_RANK := 14

  /** The step changed the booking's status, its escrow state or its ledger. */
  predicate Progress(c: Case, c': Case) {
    c'.row.status != c.row.status || c'.row.escrow != c.row.escrow || c'.entries != c.entries
  }

  /** A report freeze may re-arm a RELEASABLE pot and costs one rank at most. */
  lemma ReportFreezeRank(c: Case, reportId: Id, c': Case)
    requires CaseOk(c) && c.ReportFreeze(reportId) == Success(c')
    ensures Rank(c') <= Rank(c) + 1
  {
  }

  lemma OpenDisputeRank(c: Case, userId: Id, disputeId: Id, c': Case)
    requires CaseOk(c) && c.OpenDispute(userId, disputeId) == Success(c')
    ensures Rank(c') < Rank(c)
  {
  }

  lemma ResolveDisputeRank(c: Case, admin: Id, res: Resolution, c': Case)
    requires c.ResolveDispute(admin, res) == Success(c')
    ensures Rank(c') < Rank(c)
  {
  }

  lemma AppealRank(c: Case, userId: Id, side: Side, now: int, c': Case)
    requires c.AppealDispute(userId, side, now) == Success(c')
    ensures Rank(c') < Rank(c)
  {
  }

  lemma ResolveAppealRank(c: Case, admin: Id, res: Resolution, c': Case)
    requires CaseOk(c) && c.ResolveAppeal(admin, res) == Success(c')
    ensures Rank(c') < Rank(c)
  {
  }

  lemma CancelRank(c: Case, a: CaseAction, c': Case)
    requires a.CancellingAsGuest? || a.CancellingAsHost?
    requires CaseOk(c) && CaseNext(c, a) == Success(c')
    ensures Rank(c') < Rank(c)
  {
  }

  lemma OtherStepRank(c: Case, a: CaseAction, c': Case)
    requires a.Accepting? || a.Declining? || a.Expiring? || a.Confirming? || a.CheckingIn? || a.Completing?
             || a.PayingOut?
    requires CaseNext(c, a) == Success(c')
    ensures Rank(c') < Rank(c)
  {
  }

  /** Every other accepted action that moves anything strictly lowers the rank. */
  lemma StepLowersRank(c: Case, a: CaseAction, c': Case)
    requires CaseOk(c) && CaseNext(c, a) == Success(c') && !a.FreezingForReport?
    ensures Rank(c') <= Rank(c)
    ensures Progress(c, c') ==> Rank(c') < Rank(c)
  {
    match a
    case OpeningDispute(userId, disputeId) => OpenDisputeRank(c, userId, disputeId, c');
    case ResolvingDispute(admin, res) => ResolveDisputeRank(c, admin, res, c');
    case Appealing(userId, side, now) => AppealRank(c, userId, side, now, c');
    case ResolvingAppeal(admin, res) => ResolveAppealRank(c, admin, res, c');
    case CancellingAsGuest(_, _) => CancelRank(c, a, c');
    case CancellingAsHost(_) => CancelRank(c, a, c');
    case RefundingCancelled(_, _) =>
    case Finalizing(_, _) =>
    case Reminding(_) =>
    case _ => OtherStepRank(c, a, c');
  }
}
