/** Statements over whole histories of one booking: when a sent refund is final, when a
    completed booking is, and how rounding adds up over a chain of decisions. */
module CaseHistories {
  import opened Wrappers
  import opened Escrow
  import opened Refund
  import opened Bookings
  import opened CaseInvariants
  import opened CaseLaws

  // ---- A sent refund ----

  /** Sent, and not waiting for another decision on a dispute. */
  predicate SentAndSettled(c: Case) {
    Sent(c) && !(c.dispute.Some? && c.row.escrow.Frozen?)
  }

  lemma OnlySendersSend(c: Case, a: CaseAction, c': Case)
    requires !Sent(c) && CaseNext(c, a) == Success(c') && Sent(c')
    ensures a.RefundingCancelled? || a.Finalizing?
  {
  }

  /** Sent in one go, gate, gateway call and store uninterrupted, a refund leaves the case
      settled, whichever caller did it. `RefundSafety` says when the same holds of a sender
      that can be interrupted between them. */
  lemma SendingSettles(c: Case, a: CaseAction, c': Case)
    requires CaseOk(c) && !Sent(c) && CaseNext(c, a) == Success(c') && Sent(c')
    ensures a.RefundingCancelled? || a.Finalizing?
    ensures SentAndSettled(c') && c'.refund.value.amounts == c.refund.value.amounts
  {
    OnlySendersSend(c, a, c');
  }

  /** The stages at which a refund row exists. */
  lemma RefundStages(c: Case)
    requires CaseOk(c) && c.refund.Some?
    ensures c.row.status.Completed? || c.row.status.CancelledByGuest? || c.row.status.CancelledByHost?
    ensures c.row.status.Completed? ==> c.dispute.Some?
    ensures c.dispute.Some? ==> !c.dispute.value.status.Open?
  {
  }

  lemma SentPayout(c: Case, a: CaseAction, c': Case)
    requires CaseOk(c) && SentAndSettled(c) && a.PayingOut? && CaseNext(c, a) == Success(c')
    ensures c'.refund == c.refund && SentAndSettled(c') && c'.dispute == c.dispute
  {
    PayOutAcceptedIff(c, a.admin, a.account, a.slipRef);
    PayOutKeeps(c, a.admin, a.account, a.slipRef, c');
  }

  lemma SentStep(c: Case, a: CaseAction, c': Case)
    requires CaseOk(c) && SentAndSettled(c) && CaseNext(c, a) == Success(c')
    requires !(a.FreezingForReport? && c.dispute.Some? && c.row.escrow.Releasable?)
    ensures c'.refund == c.refund && SentAndSettled(c') && c'.dispute.Some? == c.dispute.Some?
  {
    RefundStages(c);
    match a
    case Appealing(userId, side, now) => AppealAcceptedIff(c, userId, side, now);
    case FreezingForReport(reportId) => assert c.dispute.Some? ==> c' == c;
    case PayingOut(_, _, _) => SentPayout(c, a, c');
    case _ =>
  }

  /** No report freeze is accepted anywhere in the run. */
  ghost predicate NoReportFreeze(c: Case, actions: seq<CaseAction>) {
    forall i :: 0 <= i < |actions| && actions[i].FreezingForReport? ==>
      CaseStep(CaseRun(c, actions[..i]), actions[i]) == CaseRun(c, actions[..i])
  }

  /** Once the gateway's id is stored, the refund never changes again in any run that
      freezes nothing for a report. */
  lemma {:induction false} SentRefundIsFixed(c: Case, actions: seq<CaseAction>)
    requires CaseOk(c) && SentAndSettled(c) && NoReportFreeze(c, actions)
    ensures CaseRun(c, actions).refund == c.refund && SentAndSettled(CaseRun(c, actions))
  {
    if actions != [] {
      var n := |actions| - 1;
      var front, last := actions[..n], actions[n];
      forall i | 0 <= i < n && front[i].FreezingForReport?
        ensures CaseStep(CaseRun(c, front[..i]), front[i]) == CaseRun(c, front[..i])
      {
        assert actions[i].FreezingForReport?;
        assert front[..i] == actions[..i];
      }
      SentRefundIsFixed(c, front);
      CaseRunKeeps(c, front);
      var before := CaseRun(c, front);
      if CaseNext(before, last).Success? && CaseStep(before, last) != before {
        SentStep(before, last, CaseRun(c, actions));
      }
    }
  }

  /** A dispute whose remainder is still RELEASABLE or FROZEN can be re-decided. */
  predicate Reopenable(c: Case) {
    c.dispute.Some? && (c.row.escrow.Releasable? || c.row.escrow.Frozen?)
  }

  lemma {:induction false} ClosedRefundIsFinal(c: Case, actions: seq<CaseAction>)
    requires CaseOk(c) && Sent(c) && !Reopenable(c)
    ensures CaseRun(c, actions).refund == c.refund && !Reopenable(CaseRun(c, actions))
  {
    if actions != [] {
      var front, last := actions[..|actions| - 1], actions[|actions| - 1];
      ClosedRefundIsFinal(c, front);
      CaseRunKeeps(c, front);
      var before := CaseRun(c, front);
      if CaseNext(before, last).Success? {
        ClosedStep(before, last, CaseRun(c, actions));
      }
    }
  }

  lemma ClosedStep(c: Case, a: CaseAction, c': Case)
    requires CaseOk(c) && Sent(c) && !Reopenable(c) && CaseNext(c, a) == Success(c')
    ensures c'.refund == c.refund && !Reopenable(c')
  {
  }

  /** PAID and REVERSED accept no further ledger move. */
  lemma SpentNeverMoves(c: Case, a: CaseAction, c': Case)
    requires CaseOk(c) && (c.row.escrow.Paid? || c.row.escrow.Reversed?) && CaseNext(c, a) == Success(c')
    ensures c'.entries == c.entries && c'.row.escrow == c.row.escrow
  {
  }

  /** The sent amount can still change exactly when there is a dispute whose
      remainder is RELEASABLE or FROZEN: a report freeze re-arms the pot, and
      `ResolveAppeal` does not ask whether an appeal was made. */
  lemma SentRefundMayChangeIff(c: Case)
    requires CaseOk(c) && Sent(c)
    ensures (exists actions :: CaseRun(c, actions).refund != c.refund) <==> Reopenable(c)
  {
    if Reopenable(c) {
      ReopeningGrowsRefund(c);
      assert CaseRun(c, Reopening()).refund != c.refund;
    } else {
      forall actions
        ensures CaseRun(c, actions).refund == c.refund
      {
        ClosedRefundIsFinal(c, actions);
      }
    }
  }

  lemma TwoStepRun(c: Case, a: CaseAction, b: CaseAction)
    ensures CaseRun(c, [a, b]) == CaseStep(CaseStep(c, a), b)
  {
    assert [a, b][..1] == [a];
    OneStepRun(c, a);
  }

  /** What an accepted decision does to the refund row. */
  lemma DecisionEffect(c: Case, a: CaseAction, c': Case)
    requires a.ResolvingDispute? || a.ResolvingAppeal?
    requires CaseNext(c, a) == Success(c')
    ensures var pot := if a.ResolvingDispute? then c.row.terms.total else c.CurrentPosition().amount;
            c'.PriorRefund() == c.PriorRefund() + GuestSlice(pot, a.res)
    ensures c'.dispute.Some? && c'.row.terms == c.row.terms && !c'.row.status.Disputed?
    ensures Sent(c) ==> Sent(c') && c'.refund.value.opnRefundId == c.refund.value.opnRefundId
  {
  }

  /** The two actions that reopen a decided dispute without any appeal. */
  function Reopening(): seq<CaseAction> {
    [FreezingForReport(0), ResolvingAppeal(0, RefundAll)]
  }

  /** A reopenable case is frozen after a report freeze, its refund row untouched. */
  lemma FreezeForReport(c: Case, report: Id, f: Case)
    requires CaseOk(c) && Reopenable(c) && f == CaseStep(c, FreezingForReport(report))
    ensures CaseOk(f) && f.row.escrow.Frozen? && f.dispute.Some?
    ensures f.refund == c.refund && f.row.terms == c.row.terms
  {
    ReportFreezeNeverRefused(c, report);
    ReportFreezeKeeps(c, report, f);
    if c.row.escrow.Releasable? {
      FreezeKeepsMoney(c, c, HoldBookingReport, Some(report), f);
    }
  }

  /** A full refund out of the frozen pot brings the row to the whole total and puts the
      blame on the host. */
  lemma RefundTheRest(f: Case, c': Case)
    requires CaseOk(f) && f.row.escrow.Frozen? && f.dispute.Some?
    requires c' == CaseStep(f, ResolvingAppeal(0, RefundAll))
    ensures Sent(f) ==> Sent(c') && c'.refund.value.opnRefundId == f.refund.value.opnRefundId
    ensures c'.PriorRefund() == f.row.terms.total > f.PriorRefund()
    ensures c'.refund.Some? && c'.row.status.CancelledByHost?
  {
    ResolveAppealAcceptedIff(f, 0, RefundAll);
  }

  /** Report freeze, then a full refund: the row grows to the whole total although a
      smaller amount has already been sent, and the booking ends cancelled. */
  lemma ReopeningGrowsRefund(c: Case)
    requires CaseOk(c) && Reopenable(c)
    ensures var c' := CaseRun(c, Reopening());
            && (Sent(c) ==> Sent(c') && c'.refund.value.opnRefundId == c.refund.value.opnRefundId)
            && c'.PriorRefund() == c.row.terms.total > c.PriorRefund()
            && c'.row.status.CancelledByHost?
  {
    var f := CaseStep(c, FreezingForReport(0));
    TwoStepRun(c, FreezingForReport(0), ResolvingAppeal(0, RefundAll));
    FreezeForReport(c, 0, f);
    RefundTheRest(f, CaseStep(f, ResolvingAppeal(0, RefundAll)));
  }

  // ---- A completed booking ----

  lemma FinalStep(c: Case, a: CaseAction, c': Case)
    requires CaseOk(c) && c.row.status.Completed? && !Reopenable(c) && CaseNext(c, a) == Success(c')
    ensures c'.row.status.Completed? && !Reopenable(c')
  {
  }

  lemma {:induction false} FinalForever(c: Case, actions: seq<CaseAction>)
    requires CaseOk(c) && c.row.status.Completed? && !Reopenable(c)
    ensures CaseRun(c, actions).row.status.Completed? && !Reopenable(CaseRun(c, actions))
  {
    if actions != [] {
      var front, last := actions[..|actions| - 1], actions[|actions| - 1];
      FinalForever(c, front);
      CaseRunKeeps(c, front);
      if CaseNext(CaseRun(c, front), last).Success? {
        FinalStep(CaseRun(c, front), last, CaseRun(c, actions));
      }
    }
  }

  /** A COMPLETED booking can still leave COMPLETED exactly when it carries a dispute
      whose remainder is RELEASABLE or FROZEN. */
  lemma CompletedIsFinalIff(c: Case)
    requires CaseOk(c) && c.row.status.Completed?
    ensures (exists actions :: !CaseRun(c, actions).row.status.Completed?) <==> Reopenable(c)
  {
    if Reopenable(c) {
      ReopeningGrowsRefund(c);
      assert !CaseRun(c, Reopening()).row.status.Completed?;
    } else {
      forall actions
        ensures CaseRun(c, actions).row.status.Completed?
      {
        FinalForever(c, actions);
      }
    }
  }

  // ---- Rounding over the decisions of a real history ----

  function DecidedPct(res: Resolution): int {
    match res
    case ReleaseAll => 0
    case PartialRefund(pct) => pct
    case RefundAll => 100
  }

  /** The percentages of the accepted dispute and appeal decisions, in order. */
  function Decisions(c: Case, actions: seq<CaseAction>): seq<int> {
    if actions == [] then []
    else
      var front, last := actions[..|actions| - 1], actions[|actions| - 1];
      Decisions(c, front)
      + (if CaseNext(CaseRun(c, front), last).Failure? then []
         else match last
              case ResolvingDispute(_, res) => [DecidedPct(res)]
              case ResolvingAppeal(_, res) => [DecidedPct(res)]
              case _ => [])
  }

  lemma SliceIsPct(pot: int, res: Resolution)
    ensures GuestSlice(pot, res) == RefundForPct(pot, DecidedPct(res))
  {
  }

  lemma PotSnoc(total: int, pcts: seq<int>, pct: int)
    ensures PotAfter(total, pcts + [pct]) == PotAfter(total, pcts) - RefundForPct(PotAfter(total, pcts), pct)
  {
  }

  /** The refund row of a disputed booking says what the chain of decisions says. */
  predicate FollowsChain(c: Case, pcts: seq<int>) {
    if c.dispute.Some? then c.PriorRefund() == c.row.terms.total - PotAfter(c.row.terms.total, pcts)
    else pcts == []
  }

  /** A decision divides exactly what the earlier decisions left. */
  lemma DecisionPot(c: Case, a: CaseAction, pcts: seq<int>)
    requires CaseOk(c) && FollowsChain(c, pcts) && CaseNext(c, a).Success?
    requires a.ResolvingDispute? || a.ResolvingAppeal?
    requires c.row.status.Disputed? ==> pcts == []
    ensures PotAfter(c.row.terms.total, pcts)
            == if a.ResolvingDispute? then c.row.terms.total else c.CurrentPosition().amount
    ensures c.dispute.Some?
    ensures a.ResolvingDispute? ==> c.PriorRefund() == 0
  {
  }

  lemma DecisionStep(c: Case, a: CaseAction, c': Case, pcts: seq<int>)
    requires CaseOk(c) && FollowsChain(c, pcts) && CaseNext(c, a) == Success(c')
    requires a.ResolvingDispute? || a.ResolvingAppeal?
    requires c.row.status.Disputed? ==> pcts == []
    ensures FollowsChain(c', pcts + [DecidedPct(a.res)])
    ensures c'.row.terms == c.row.terms && !c'.row.status.Disputed?
  {
    var total := c.row.terms.total;
    DecisionEffect(c, a, c');
    DecisionPot(c, a, pcts);
    SliceIsPct(PotAfter(total, pcts), a.res);
    PotSnoc(total, pcts, DecidedPct(a.res));
  }

  lemma DisputeBeginsUnrefunded(c: Case, userId: Id, disputeId: Id, c': Case)
    requires CaseOk(c) && c.OpenDispute(userId, disputeId) == Success(c')
    ensures c'.row.terms == c.row.terms && c.dispute.None? && c'.dispute.Some? && c'.PriorRefund() == 0
  {
  }

  /** No other action touches the refund row of a disputed booking. */
  lemma OtherStep(c: Case, a: CaseAction, c': Case)
    requires CaseOk(c) && CaseNext(c, a) == Success(c')
    requires !a.ResolvingDispute? && !a.ResolvingAppeal?
    ensures c'.row.terms == c.row.terms
    ensures c.dispute.Some? ==> c'.dispute.Some? && c'.PriorRefund() == c.PriorRefund()
    ensures c.dispute.None? && c'.dispute.Some? ==> c'.PriorRefund() == 0
    ensures c'.row.status.Disputed? ==> c.row.status.Disputed? || c.dispute.None?
  {
    if a.OpeningDispute? {
      DisputeBeginsUnrefunded(c, a.userId, a.disputeId, c');
    }
  }

  lemma {:induction false} HistoryFollowsChain(c: Case, actions: seq<CaseAction>)
    requires CaseOk(c) && c.dispute.None?
    ensures FollowsChain(CaseRun(c, actions), Decisions(c, actions))
    ensures CaseRun(c, actions).row.terms == c.row.terms
    ensures CaseRun(c, actions).row.status.Disputed? ==> Decisions(c, actions) == []
  {
    if actions != [] {
      var front, last := actions[..|actions| - 1], actions[|actions| - 1];
      HistoryFollowsChain(c, front);
      CaseRunKeeps(c, front);
      var before, after := CaseRun(c, front), CaseRun(c, actions);
      assert PotAfter(c.row.terms.total, []) == c.row.terms.total;
      if CaseNext(before, last).Success? {
        if last.ResolvingDispute? || last.ResolvingAppeal? {
          DecisionStep(before, last, after, Decisions(c, front));
        } else {
          OtherStep(before, last, after);
          assert Decisions(c, actions) == Decisions(c, front);
        }
      } else {
        assert Decisions(c, actions) == Decisions(c, front);
      }
    }
  }

  /** Over any history, with k dispute and appeal decisions of 0 to 100 percent, the
      guest's cumulative refund is within the total, never below the exact rational
      share, and above it by less than k satang. */
  lemma RoundingOverHistory(c: Case, actions: seq<CaseAction>)
    requires CaseOk(c) && c.dispute.None?
    requires CaseRun(c, actions).dispute.Some?
    requires Percentages(Decisions(c, actions)) && Decisions(c, actions) != []
    ensures var pcts := Decisions(c, actions);
            var refunded := Fold(CaseRun(c, actions).entries, Refunded);
            var exactShare := c.row.terms.total as real - ExactPot(c.row.terms.total, pcts);
            && 0 <= refunded <= c.row.terms.total
            && exactShare <= refunded as real < exactShare + |pcts| as real
  {
    HistoryFollowsChain(c, actions);
    CaseRunKeeps(c, actions);
    var last := CaseRun(c, actions);
    MoneyIsConserved(last);
    ChainRounding(c.row.terms.total, Decisions(c, actions));
  }
}
