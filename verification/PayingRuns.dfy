/** Holds against payouts, over every run of the payout protocol: exactly when a booking
    that a hold covers can still be paid out. */
module PayingRuns {
  import opened Wrappers
  import opened Escrow
  import opened Bookings
  import opened CaseInvariants
  import opened CaseLaws
  import opened CaseWrites
  import opened CaseOutcomes
  import opened Database
  import opened Operations
  import opened Effects
  import opened Runs
  import opened GlobalLedger
  import opened PayoutSafety
  import opened Paying
  import opened PayingViews

  // ---- The payers ----

  predicate PayerOk(db: Db, p: Payer) {
    p.order.bookingId in db.bookings && PastRelease(CaseOf(db, p.order.bookingId))
  }

  /** The tables keep their invariant, and every payer has seen its booking RELEASABLE. */
  ghost predicate TillOk(t: Till) {
    DbOk(t.db) && forall p :: p in t.payers ==> PayerOk(t.db, t.payers[p])
  }

  /** The payer at `p` after a step was there before, with the same order, or has just
      begun. */
  predicate PayerFollows(t: Till, step: TillStep, after: Till, p: nat)
    requires p in after.payers
  {
    || (p in t.payers && after.payers[p] == t.payers[p])
    || (p in t.payers && after.payers[p].order == t.payers[p].order && !after.payers[p].ToCheckHold?
        && (t.payers[p].ToCheckHold? ==> !HoldActive(t.db, t.payers[p].order.bookingId)))
    || (after.payers[p].ToCheckHold? && Paying.Releasable(t.db, after.payers[p].order.bookingId))
  }

  lemma PayersFollow(t: Till, step: TillStep, p: nat)
    requires p in Advance(t, step).payers
    ensures PayerFollows(t, step, Advance(t, step), p)
  {
  }

  lemma PayerStaysOk(t: Till, step: TillStep, p: nat)
    requires TillOk(t) && p in Advance(t, step).payers
    ensures PayerOk(Advance(t, step).db, Advance(t, step).payers[p])
  {
    var after := Advance(t, step);
    var id := after.payers[p].order.bookingId;
    PayersFollow(t, step, p);
    if p in t.payers && t.payers[p].order.bookingId == id {
      assert PayerOk(t.db, t.payers[p]);
    }
    assert CaseOk(CaseOf(t.db, id));
    if Paying.Releasable(t.db, id) {
      ReleasableIsPast(CaseOf(t.db, id));
    }
    StepIsOnward(t, step, id);
    AdvanceDb(t, step);
  }

  lemma TillStepOk(t: Till, step: TillStep)
    requires TillOk(t)
    ensures TillOk(Advance(t, step))
  {
    AdvanceDb(t, step);
    DbAfterIsOk(t, step);
    forall p | p in Advance(t, step).payers
      ensures PayerOk(Advance(t, step).db, Advance(t, step).payers[p])
    {
      PayerStaysOk(t, step, p);
    }
  }

  /** Every till that can be reached from the empty system is sound. */
  lemma {:induction false} TillRunOk(t: Till, steps: seq<TillStep>)
    requires TillOk(t)
    ensures TillOk(TillRun(t, steps))
  {
    if steps != [] {
      TillRunOk(t, steps[..|steps| - 1]);
      TillStepOk(TillRun(t, steps[..|steps| - 1]), steps[|steps| - 1]);
    }
  }

  lemma OpeningIsOk()
    ensures TillOk(OPENING)
  {
    EmptyIsOk();
  }

  // ---- A covered booking that is safe ----

  predicate Releases(step: TillStep, hold: Id) {
    step == Elsewhere(ReleasingHold(hold))
  }

  predicate KeepsHold(steps: seq<TillStep>, hold: Id) {
    forall i :: 0 <= i < |steps| ==> !Releases(steps[i], hold)
  }

  /** No payer of the booking is past its look at the holds, or the money can never be
      RELEASABLE again. */
  predicate Safe(t: Till, id: Id)
    requires id in t.db.bookings
  {
    !SomeInFlight(t.payers, id) || !Payable(CaseOf(t.db, id))
  }

  lemma CoveredStays(t: Till, step: TillStep, hold: Id, id: Id)
    requires CoveredBy(t.db, hold, id) && !Releases(step, hold)
    ensures CoveredBy(Advance(t, step).db, hold, id)
  {
    AdvanceDb(t, step);
    if Commits(t, step) {
      CommitKeepsHold(t.db, t.payers[step.p].order, t.payers[step.p].account, hold, id);
    } else if step.Elsewhere? && IsElsewhere(step.action) && Next(t.db, step.action).Success? {
      HoldStays(t.db, step.action, Step(t.db, step.action), hold, id);
    }
  }

  lemma CommitKeepsHold(db: Db, order: Order, account: Id, hold: Id, id: Id)
    requires CoveredBy(db, hold, id)
    ensures CoveredBy(Committed(db, order, account), hold, id)
  {
    var a := PayingOut(order.admin, account, order.slip);
    if Act(db, order.bookingId, a).Success? {
      var after := Committed(db, order, account);
      ActKeepsHolds(db, order.bookingId, a, after);
      ActShows(db, order.bookingId, a, after);
      TermsStay(db, Moves(order.bookingId, a), after, id);
    }
  }

  lemma CoveredIsOnHold(db: Db, hold: Id, id: Id)
    requires CoveredBy(db, hold, id)
    ensures HoldActive(db, id)
  {
  }

  lemma NobodyJoins(t: Till, step: TillStep, hold: Id, id: Id)
    requires CoveredBy(t.db, hold, id) && !SomeInFlight(t.payers, id)
    ensures !SomeInFlight(Advance(t, step).payers, id)
  {
    CoveredIsOnHold(t.db, hold, id);
    forall p | p in Advance(t, step).payers
      ensures !InFlight(Advance(t, step).payers[p], id)
    {
      PayersFollow(t, step, p);
      assert p in t.payers ==> !InFlight(t.payers[p], id);
    }
  }

  /** The transaction looks at the escrow state again. */
  lemma CommitRefused(db: Db, order: Order, account: Id)
    requires order.bookingId in db.bookings && CaseOk(CaseOf(db, order.bookingId))
    requires !db.bookings[order.bookingId].escrow.Releasable?
    ensures Committed(db, order, account) == db
  {
    PayOutAcceptedIff(CaseOf(db, order.bookingId), order.admin, account, order.slip);
  }

  lemma CommitUnpaid(db: Db, order: Order, account: Id, id: Id)
    requires id in db.bookings && CaseOk(CaseOf(db, id))
    requires order.bookingId == id ==> !Payable(CaseOf(db, id))
    ensures Lookup(Committed(db, order, account).payouts, id) == Lookup(db.payouts, id)
  {
    if order.bookingId == id {
      CommitRefused(db, order, account);
    } else {
      CommittedView(db, order, account, id);
      assert CaseOf(Committed(db, order, account), id).payout == CaseOf(db, id).payout;
    }
  }

  lemma ElsewhereUnpaid(db: Db, action: Action, id: Id)
    requires RowsOk(db) && id in db.bookings && IsElsewhere(action)
    ensures Lookup(Step(db, action).payouts, id) == Lookup(db.payouts, id)
  {
    if Next(db, action).Success? {
      var effect, after := EffectOf(db, action), Step(db, action);
      NextShows(db, action, after);
      EffectProjects(db, effect, after, id);
      assert CaseOf(after, id).payout == Lookup(after.payouts, id);
      if effect.Moves? && effect.id == id {
        OnlyMarkingPaysOut(db, action);
        PayoutWrittenOnce(CaseOf(db, id), effect.a, CaseOf(after, id));
      }
    }
  }

  lemma OnlyMarkingPaysOut(db: Db, action: Action)
    requires IsElsewhere(action) && EffectOf(db, action).Moves?
    ensures !EffectOf(db, action).a.PayingOut?
  {
  }

  lemma UnpaidStep(t: Till, step: TillStep, id: Id)
    requires TillOk(t) && id in t.db.bookings && Safe(t, id)
    ensures Lookup(Advance(t, step).db.payouts, id) == Lookup(t.db.payouts, id)
  {
    AdvanceDb(t, step);
    assert CaseOk(CaseOf(t.db, id));
    if Commits(t, step) {
      assert t.payers[step.p].order.bookingId == id ==> InFlight(t.payers[step.p], id);
      CommitUnpaid(t.db, t.payers[step.p].order, t.payers[step.p].account, id);
    } else if step.Elsewhere? && IsElsewhere(step.action) {
      ElsewhereUnpaid(t.db, step.action, id);
    }
  }

  lemma SafeStep(t: Till, step: TillStep, hold: Id, id: Id)
    requires TillOk(t) && CoveredBy(t.db, hold, id) && Safe(t, id) && !Releases(step, hold)
    ensures CoveredBy(Advance(t, step).db, hold, id) && Safe(Advance(t, step), id)
  {
    CoveredStays(t, step, hold, id);
    if SomeInFlight(t.payers, id) {
      var p :| p in t.payers && InFlight(t.payers[p], id);
      assert PayerOk(t.db, t.payers[p]);
      assert CaseOk(CaseOf(t.db, id));
      AdvanceDb(t, step);
      StepIsOnward(t, step, id);
    } else {
      NobodyJoins(t, step, hold, id);
    }
  }

  lemma {:induction false} SafeForever(t: Till, steps: seq<TillStep>, hold: Id, id: Id)
    requires TillOk(t) && CoveredBy(t.db, hold, id) && Safe(t, id) && KeepsHold(steps, hold)
    ensures var after := TillRun(t, steps);
            && CoveredBy(after.db, hold, id) && Safe(after, id)
                && Lookup(after.db.payouts, id) == Lookup(t.db.payouts, id)
  {
    if steps != [] {
      var front := steps[..|steps| - 1];
      SafeForever(t, front, hold, id);
      TillRunOk(t, front);
      SafeStep(TillRun(t, front), steps[|steps| - 1], hold, id);
      UnpaidStep(TillRun(t, front), steps[|steps| - 1], id);
    }
  }

  /** A booking covered by an active hold, its own or its host's, with no payer past its
      look at the holds, is never paid out in any run that does not release that hold. */
  lemma HeldIsNeverPaid(t: Till, steps: seq<TillStep>, hold: Id, id: Id)
    requires TillOk(t) && CoveredBy(t.db, hold, id) && !SomeInFlight(t.payers, id) && KeepsHold(steps, hold)
    ensures CoveredBy(TillRun(t, steps).db, hold, id)
    ensures Lookup(TillRun(t, steps).db.payouts, id) == Lookup(t.db.payouts, id)
  {
    SafeForever(t, steps, hold, id);
  }

  // ---- A covered booking that is not ----

  lemma Snoc(t: Till, steps: seq<TillStep>, step: TillStep)
    ensures TillRun(t, steps + [step]) == Advance(TillRun(t, steps), step)
  {
    assert (steps + [step])[..|steps|] == steps;
  }

  lemma Then(t: Till, steps: seq<TillStep>, step: TillStep, hold: Id)
    requires KeepsHold(steps, hold) && !Releases(step, hold)
    ensures KeepsHold(steps + [step], hold)
    ensures TillRun(t, steps + [step]) == Advance(TillRun(t, steps), step)
  {
    Snoc(t, steps, step);
  }

  lemma ElsewhereStep(t: Till, action: Action)
    requires IsElsewhere(action)
    ensures Advance(t, Elsewhere(action)) == t.(db := Step(t.db, action))
  {
  }

  lemma AccountStep(db: Db, account: Account)
    ensures Step(db, AddingAccount(account)) == db.(accounts := db.accounts + [account])
    ensures NewestAccount(db.accounts + [account], account.user).Some?
  {
    assert Next(db, AddingAccount(account)) == Success(AddAccount(db, account));
  }

  /** The same tables but for the accounts. */
  predicate SameButAccounts(a: Db, b: Db) {
    a == b.(accounts := a.accounts)
  }

  lemma FindStep(t: Till, p: nat, order: Order)
    requires p in t.payers && t.payers[p] == ToFindAccount(order) && AccountFor(t.db, order.bookingId).Some?
    ensures Advance(t, FindAccount(p)) == Goto(t, p, ToReconcile(order, AccountFor(t.db, order.bookingId).value.id))
  {
  }

  lemma FindsAccount(t: Till, p: nat, id: Id, hold: Id) returns (steps: seq<TillStep>, after: Till)
    requires p in t.payers && t.payers[p].ToFindAccount? && t.payers[p].order.bookingId == id && id in t.db.bookings
    ensures KeepsHold(steps, hold) && after == TillRun(t, steps) && SameButAccounts(after.db, t.db)
    ensures p in after.payers && after.payers[p].ToReconcile? && after.payers[p].order.bookingId == id
  {
    var account := Account(0, t.db.bookings[id].terms.host, 0);
    var extended := t.(db := t.db.(accounts := t.db.accounts + [account]));
    AccountStep(t.db, account);
    ElsewhereStep(t, AddingAccount(account));
    FindStep(extended, p, t.payers[p].order);
    steps := [Elsewhere(AddingAccount(account))];
    Then(t, [], Elsewhere(AddingAccount(account)), hold);
    assert [] + steps == steps;
    Then(t, steps, FindAccount(p), hold);
    steps, after := steps + [FindAccount(p)], Advance(extended, FindAccount(p));
  }

  lemma Reconciles(t: Till, p: nat, id: Id, hold: Id) returns (steps: seq<TillStep>, after: Till)
    requires p in t.payers && t.payers[p].ToReconcile? && t.payers[p].order.bookingId == id && DbOk(t.db)
    ensures KeepsHold(steps, hold) && after == TillRun(t, steps) && after.db == t.db
    ensures p in after.payers && after.payers[p].ToCommit? && after.payers[p].order.bookingId == id
  {
    var step := Reconcile(p, Obligation(t.db.ledger));
    LedgerIsSound(t.db);
    Then(t, [], step, hold);
    assert [] + [step] == [step];
    steps, after := [step], TillRun(t, [step]);
  }

  lemma {:induction false} RunConcat(t: Till, first: seq<TillStep>, second: seq<TillStep>)
    ensures TillRun(t, first + second) == TillRun(TillRun(t, first), second)
  {
    if second == [] {
      assert first + second == first;
    } else {
      RunConcat(t, first, second[..|second| - 1]);
      assert (first + second)[..|first + second| - 1] == first + second[..|second| - 1];
    }
  }

  lemma SameCase(a: Db, b: Db, id: Id)
    requires SameButAccounts(a, b) && id in b.bookings
    ensures id in a.bookings && CaseOf(a, id) == CaseOf(b, id) && a.payouts == b.payouts
  {
  }

  /** A payer past its look at the holds can be brought to its transaction. */
  lemma Arrives(t: Till, p: nat, id: Id, hold: Id) returns (steps: seq<TillStep>, after: Till)
    requires TillOk(t) && p in t.payers && InFlight(t.payers[p], id) && id in t.db.bookings
    ensures KeepsHold(steps, hold) && after == TillRun(t, steps) && SameButAccounts(after.db, t.db) && TillOk(after)
    ensures p in after.payers && after.payers[p].ToCommit? && after.payers[p].order.bookingId == id
  {
    steps, after := [], t;
    if t.payers[p].ToFindAccount? {
      steps, after := FindsAccount(t, p, id, hold);
      TillRunOk(t, steps);
    }
    if after.payers[p].ToReconcile? {
      var rest, reconciled := Reconciles(after, p, id, hold);
      RunConcat(t, steps, rest);
      steps, after := steps + rest, reconciled;
      TillRunOk(t, steps);
    }
  }

  /** A decision in the host's favour makes frozen money RELEASABLE. */
  lemma DecisionReleases(c: Case)
    requires CaseOk(c) && c.row.escrow.Frozen? && c.dispute.Some?
    ensures CaseNext(c, ResolvingAppeal(0, ReleaseAll)).Success?
    ensures CaseStep(c, ResolvingAppeal(0, ReleaseAll)).row.escrow.Releasable?
  {
    ResolveAppealAcceptedIff(c, 0, ReleaseAll);
    DecidedPot(c, ResolvingAppeal(0, ReleaseAll));
    ResolveAppealWrites(c, 0, ReleaseAll, c.ResolveAppeal(0, ReleaseAll).value);
  }

  lemma ReleasingView(db: Db, id: Id, after: Db)
    requires id in db.bookings && after == Step(db, Acting(id, ResolvingAppeal(0, ReleaseAll)))
    requires var c := CaseOf(db, id); CaseOk(c) && c.row.escrow.Frozen? && c.dispute.Some?
    ensures Paying.Releasable(after, id)
  {
    DecisionReleases(CaseOf(db, id));
    ActingTakes(db, id, ResolvingAppeal(0, ReleaseAll));
    assert CaseOf(after, id).row == after.bookings[id];
  }

  lemma Rearm(t: Till, id: Id, hold: Id) returns (steps: seq<TillStep>, after: Till)
    requires TillOk(t) && id in t.db.bookings && Payable(CaseOf(t.db, id))
    ensures KeepsHold(steps, hold) && after == TillRun(t, steps) && TillOk(after) && after.payers == t.payers
    ensures Paying.Releasable(after.db, id)
  {
    steps, after := [], t;
    assert CaseOk(CaseOf(t.db, id));
    if t.db.bookings[id].escrow.Frozen? {
      var releasing := Acting(id, ResolvingAppeal(0, ReleaseAll));
      ReleasingView(t.db, id, Step(t.db, releasing));
      ElsewhereStep(t, releasing);
      steps := [Elsewhere(releasing)];
      Then(t, [], Elsewhere(releasing), hold);
      assert [] + steps == steps;
      after := TillRun(t, steps);
      TillRunOk(t, steps);
    }
  }

  lemma CommittedPays(db: Db, order: Order, account: Id)
    requires Paying.Releasable(db, order.bookingId) && CaseOk(CaseOf(db, order.bookingId))
    ensures order.bookingId in Committed(db, order, account).payouts
  {
    var id, a := order.bookingId, PayingOut(order.admin, account, order.slip);
    PayOutAcceptedIff(CaseOf(db, id), order.admin, account, order.slip);
    CommittedView(db, order, account, id);
    PayoutWrittenOnce(CaseOf(db, id), a, CaseStep(CaseOf(db, id), a));
    assert CaseOf(Committed(db, order, account), id).payout.Some?;
  }

  /** The transaction of a payer that got this far pays, whatever holds there are. */
  lemma CommitPays(t: Till, p: nat, id: Id)
    requires TillOk(t) && p in t.payers && t.payers[p].ToCommit? && t.payers[p].order.bookingId == id
    requires Paying.Releasable(t.db, id)
    ensures id in Advance(t, Commit(p)).db.payouts
  {
    assert CaseOk(CaseOf(t.db, id));
    CommittedPays(t.db, t.payers[p].order, t.payers[p].account);
    AdvanceDb(t, Commit(p));
  }

  lemma {:induction false} KeepsHoldConcat(first: seq<TillStep>, second: seq<TillStep>, hold: Id)
    requires KeepsHold(first, hold) && KeepsHold(second, hold)
    ensures KeepsHold(first + second, hold)
  {
  }

  lemma PaidAllTheSame(t: Till, hold: Id, id: Id) returns (steps: seq<TillStep>)
    requires TillOk(t) && id in t.db.bookings && !Safe(t, id)
    ensures KeepsHold(steps, hold) && id in TillRun(t, steps).db.payouts
  {
    var p :| p in t.payers && InFlight(t.payers[p], id);
    var first, arrived := Arrives(t, p, id, hold);
    SameCase(arrived.db, t.db, id);
    var second, ready := Rearm(arrived, id, hold);
    RunConcat(t, first, second);
    KeepsHoldConcat(first, second, hold);
    Then(t, first + second, Commit(p), hold);
    CommitPays(ready, p, id);
    steps := first + second + [Commit(p)];
  }

  /** A booking that an active hold covers, and that is not paid out, can still be paid out
      without that hold being released exactly when a payer is past its look at the holds
      and the money is RELEASABLE, or FROZEN with a dispute that can release it. */
  lemma CoveredMayBePaidIff(t: Till, hold: Id, id: Id)
    requires TillOk(t) && CoveredBy(t.db, hold, id) && id !in t.db.payouts
    ensures (exists steps :: KeepsHold(steps, hold) && id in TillRun(t, steps).db.payouts)
            <==> SomeInFlight(t.payers, id) && Payable(CaseOf(t.db, id))
  {
    if Safe(t, id) {
      forall steps | KeepsHold(steps, hold)
        ensures id !in TillRun(t, steps).db.payouts
      {
        SafeForever(t, steps, hold, id);
      }
    } else {
      var steps := PaidAllTheSame(t, hold, id);
    }
  }

  // ---- Paid out once ----

  lemma PaidStep(t: Till, step: TillStep, id: Id)
    requires TillOk(t) && id in t.db.payouts
    ensures id in Advance(t, step).db.payouts && Advance(t, step).db.payouts[id] == t.db.payouts[id]
  {
    AdvanceDb(t, step);
    if Commits(t, step) {
      var order, account := t.payers[step.p].order, t.payers[step.p].account;
      var a := PayingOut(order.admin, account, order.slip);
      CommittedView(t.db, order, account, id);
      PaidCaseStays(CaseOf(t.db, id), a);
    } else if step.Elsewhere? && IsElsewhere(step.action) {
      ElsewhereUnpaid(t.db, step.action, id);
    }
  }

  lemma PaidCaseStays(c: Case, a: CaseAction)
    requires c.payout.Some?
    ensures CaseStep(c, a).payout == c.payout
  {
    if CaseNext(c, a).Success? {
      PayoutWrittenOnce(c, a, CaseStep(c, a));
    }
  }

  /** However many payers overlap and whoever dies, a payout row once written stays as it
      is: no booking is paid out twice. */
  lemma {:induction false} PaidOutOnceByAnyone(t: Till, steps: seq<TillStep>, id: Id)
    requires TillOk(t) && id in t.db.payouts
    ensures id in TillRun(t, steps).db.payouts && TillRun(t, steps).db.payouts[id] == t.db.payouts[id]
  {
    if steps != [] {
      PaidOutOnceByAnyone(t, steps[..|steps| - 1], id);
      TillRunOk(t, steps[..|steps| - 1]);
      PaidStep(TillRun(t, steps[..|steps| - 1]), steps[|steps| - 1], id);
    }
  }
}
