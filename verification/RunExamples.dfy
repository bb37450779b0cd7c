/** Steps of the application from the empty system, shared by the example runs. */
module RunExamples {
  import opened Money
  import opened Codes
  import opened Bookings
  import opened CaseInvariants
  import opened CaseLaws
  import opened CaseExamples
  import opened Database
  import opened Operations
  import opened Effects
  import opened Runs
  import opened PayoutSafety

  lemma HoldStep(id: Id, terms: Terms)
    requires FitsColumn(terms.total) && FitsColumn(terms.commission)
    ensures Step(EMPTY, HoldingInstantly(id, terms, 0, false)) == EMPTY.(bookings := map[id := InstantRow(terms, 0)])
  {
    assert Next(EMPTY, HoldingInstantly(id, terms, 0, false)) == InstantHold(EMPTY, id, terms, 0, false);
  }

  lemma ConfirmIsAccepted(db: Db, id: Id, event: Id, month: YearMonth)
    requires id in db.bookings && event !in db.events && db.counters == map[]
    requires CaseOf(db, id).Confirm(event, Code(month, 1)).Success?
    ensures Next(db, ConfirmingPayment(id, event, month)).Success?
    ensures Step(db, ConfirmingPayment(id, event, month)).payments == db.payments
  {
    assert Next(db, ConfirmingPayment(id, event, month)) == ConfirmFromWebhook(db, id, event, month);
  }

  lemma StepSnoc(db: Db, actions: seq<Action>, action: Action)
    ensures Run(db, actions + [action]) == Step(Run(db, actions), action)
  {
    assert (actions + [action])[..|actions|] == actions;
  }

  lemma OneRun(db: Db, action: Action)
    ensures Run(db, [action]) == Step(db, action)
  {
    assert Run(db, [action][..0]) == db;
  }

  lemma ActingStep(db: Db, id: Id, a: DirectAction)
    requires id in db.bookings
    ensures id in Step(db, Acting(id, a)).bookings
    ensures CaseOf(Step(db, Acting(id, a)), id) == CaseStep(CaseOf(db, id), a)
    ensures Step(db, Acting(id, a)).holds == db.holds
  {
    if CaseNext(CaseOf(db, id), a).Success? {
      ActingTakes(db, id, a);
      ActIsAccepted(db, id, a);
      ActsKeepHolds(db, id, a);
    } else {
      RefusedActs(db, id, a);
    }
  }

  lemma ActsKeepHolds(db: Db, id: Id, a: DirectAction)
    requires Next(db, Acting(id, a)).Success?
    ensures Step(db, Acting(id, a)).holds == db.holds
  {
    ActKeepsHolds(db, id, a, Step(db, Acting(id, a)));
  }

  lemma RefusedActs(db: Db, id: Id, a: DirectAction)
    requires id in db.bookings && CaseNext(CaseOf(db, id), a).Failure?
    ensures Step(db, Acting(id, a)) == db
  {
    assert Next(db, Acting(id, a)) == Act(db, id, a);
  }

  // ---- A stay from its booking to its release ----

  /** Booked, paid and checked in. */
  function Stay(id: Id, terms: Terms, event: Id, month: YearMonth): seq<Action> {
    [HoldingInstantly(id, terms, 0, false)] + [ConfirmingPayment(id, event, month)] + [Acting(id, CheckingIn)]
  }

  lemma ConfirmTakes(db: Db, id: Id, event: Id, month: YearMonth)
    requires id in db.bookings && event !in db.events && db.counters == map[]
    requires CaseNext(CaseOf(db, id), Confirming(event, Code(month, 1))).Success?
    ensures var after := Step(db, ConfirmingPayment(id, event, month));
            && id in after.bookings && CaseOf(after, id) == CaseStep(CaseOf(db, id), Confirming(event, Code(month, 1)))
            && after.holds == db.holds
  {
    ConfirmIsAccepted(db, id, event, month);
    ActionTakes(db, ConfirmingPayment(id, event, month), id, Confirming(event, Code(month, 1)));
    ConfirmHolds(db, id, event, month);
  }

  lemma ConfirmHolds(db: Db, id: Id, event: Id, month: YearMonth)
    requires Next(db, ConfirmingPayment(id, event, month)).Success?
    ensures Step(db, ConfirmingPayment(id, event, month)).holds == db.holds
  {
    ConfirmKeepsHolds(db, id, event, month, Step(db, ConfirmingPayment(id, event, month)));
  }

  lemma StayIsHeld(id: Id, terms: Terms, event: Id, month: YearMonth)
    requires FitsColumn(terms.total) && FitsColumn(terms.commission) && 0 < terms.total
    ensures var db := Run(EMPTY, Stay(id, terms, event, month));
            && id in db.bookings && CaseOf(db, id) == CaseRun(NewHold(id, terms), Staying(event, Code(month, 1)))
            && db.holds == map[]
  {
    var c, code := NewHold(id, terms), Code(month, 1);
    var holding, confirming := HoldingInstantly(id, terms, 0, false), ConfirmingPayment(id, event, month);
    var held := EMPTY.(bookings := map[id := InstantRow(terms, 0)]);
    HoldStep(id, terms);
    OneRun(EMPTY, holding);
    NewCaseIsOk(id, InstantRow(terms, 0));
    ConfirmAcceptedIff(c, event, code);
    OneStepRun(c, Confirming(event, code));
    assert CaseOf(held, id) == c;
    ConfirmTakes(held, id, event, month);
    StepSnoc(EMPTY, [holding], confirming);
    ActingStep(Step(held, confirming), id, CheckingIn);
    StepSnoc(EMPTY, [holding] + [confirming], Acting(id, CheckingIn));
    RunSnoc(c, [Confirming(event, code)], CheckingIn);
  }

  /** And completed, its money RELEASABLE. */
  function Released(id: Id, terms: Terms, event: Id, month: YearMonth): seq<Action> {
    Stay(id, terms, event, month) + [Acting(id, Completing)]
  }

  lemma ReleasedIsReleasable(id: Id, terms: Terms, event: Id, month: YearMonth)
    requires FitsColumn(terms.total) && FitsColumn(terms.commission) && 0 < terms.total
    ensures var db := Run(EMPTY, Released(id, terms, event, month));
            && id in db.bookings && db.bookings[id].escrow.Releasable? && db.holds == map[] && id !in db.payouts
            && db.bookings[id].terms == terms.(mode := InstantMode)
  {
    var stay := Stay(id, terms, event, month);
    var db := Run(EMPTY, stay);
    StayIsHeld(id, terms, event, month);
    GetsToItsStay(id, terms, event, Code(month, 1));
    ActingStep(db, id, Completing);
    StepSnoc(EMPTY, stay, Acting(id, Completing));
    CompletingReleases(CaseOf(db, id));
    var after := Run(EMPTY, Released(id, terms, event, month));
    assert CaseOf(after, id).row == after.bookings[id];
    assert CaseOf(after, id).payout.None?;
  }

  lemma CompletingReleases(c: Case)
    requires CaseOk(c) && c.row.status.CheckedIn? && c.row.escrow.Held?
    ensures CaseStep(c, Completing).row.escrow.Releasable? && CaseStep(c, Completing).payout.None?
    ensures CaseStep(c, Completing).row.terms == c.row.terms
  {
    CompleteAcceptedIff(c);
    TermsNeverChange(c, Completing, CaseStep(c, Completing));
    CompleteKeeps(c, CaseStep(c, Completing));
  }
}
