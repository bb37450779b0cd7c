/** A payer that nobody interrupts does what marking paid in one go does; and a run, from
    the empty system, in which a hold placed while the gateway is asked for its balance
    comes too late. */
module PayingExamples {
  import opened Wrappers
  import opened Money
  import opened Escrow
  import opened Codes
  import opened Bookings
  import opened Database
  import opened Operations
  import opened Runs
  import opened GlobalLedger
  import opened RunExamples
  import opened PayoutSafety
  import opened Paying
  import opened PayingRuns

  // ---- A payer that nobody interrupts ----

  /** All five steps, in order. */
  function MarkingAlone(p: nat, order: Order, balance: int): seq<TillStep> {
    [Begin(p, order)] + [CheckHold(p)] + [FindAccount(p)] + [Reconcile(p, balance)] + [Commit(p)]
  }

  lemma MarkingUnfolds(t: Till, p: nat, order: Order, balance: int)
    ensures TillRun(t, MarkingAlone(p, order, balance))
            == Advance(Advance(Advance(Advance(Advance(t, Begin(p, order)), CheckHold(p)), FindAccount(p)),
                               Reconcile(p, balance)), Commit(p))
  {
    var a, b, c := [Begin(p, order)], [CheckHold(p)], [FindAccount(p)];
    assert a[..0] == [];
    assert TillRun(t, a[..0]) == t;
    Snoc(t, a, CheckHold(p));
    Snoc(t, a + b, FindAccount(p));
    Snoc(t, a + b + c, Reconcile(p, balance));
    Snoc(t, a + b + c + [Reconcile(p, balance)], Commit(p));
  }

  lemma GoneStep(t: Till, p: nat, step: TillStep)
    requires p !in t.payers
    requires step == CheckHold(p) || step == FindAccount(p) || step == Commit(p) || (step.Reconcile? && step.p == p)
    ensures Advance(t, step) == t
  {
  }

  lemma BeginStep(t: Till, p: nat, order: Order)
    requires p !in t.payers
    ensures Advance(t, Begin(p, order)) == AfterBegin(t, p, order)
  {
  }

  lemma HoldCheckStep(t: Till, p: nat, order: Order)
    requires p in t.payers && t.payers[p] == ToCheckHold(order)
    ensures Advance(t, CheckHold(p)) == AfterCheckHold(t, p, order)
  {
  }

  lemma AccountCheckStep(t: Till, p: nat, order: Order)
    requires p in t.payers && t.payers[p] == ToFindAccount(order)
    ensures Advance(t, FindAccount(p)) == AfterFindAccount(t, p, order)
  {
  }

  lemma ReconcileStep(t: Till, p: nat, order: Order, account: Id, balance: int)
    requires p in t.payers && t.payers[p] == ToReconcile(order, account)
    ensures Advance(t, Reconcile(p, balance)) == AfterReconcile(t, p, order, account, balance)
  {
  }

  lemma CommitStep(t: Till, p: nat, order: Order, account: Id)
    requires p in t.payers && t.payers[p] == ToCommit(order, account)
    ensures Advance(t, Commit(p)) == AfterCommit(t, p, order, account)
  {
  }

  /** The three checks in a row, from a payer that has begun. */
  function Checked(t: Till, p: nat, order: Order, balance: int): Till {
    if HoldActive(t.db, order.bookingId) || AccountFor(t.db, order.bookingId).None?
        || !ReconcileOk(t.db.ledger, balance)
    then Finish(t, p)
    else Goto(t, p, ToCommit(order, AccountFor(t.db, order.bookingId).value.id))
  }

  lemma ChecksInARow(t: Till, p: nat, order: Order, balance: int)
    requires p in t.payers && t.payers[p] == ToCheckHold(order)
    ensures Advance(Advance(Advance(t, CheckHold(p)), FindAccount(p)), Reconcile(p, balance))
            == Checked(t, p, order, balance)
  {
    var db, id := t.db, order.bookingId;
    HoldCheckStep(t, p, order);
    if HoldActive(db, id) {
      GoneStep(Finish(t, p), p, FindAccount(p));
      GoneStep(Finish(t, p), p, Reconcile(p, balance));
    } else {
      var finding := Goto(t, p, ToFindAccount(order));
      AccountCheckStep(finding, p, order);
      if AccountFor(db, id).None? {
        assert Finish(finding, p) == Finish(t, p);
        GoneStep(Finish(t, p), p, Reconcile(p, balance));
      } else {
        var account := AccountFor(db, id).value.id;
        var reconciling := Goto(finding, p, ToReconcile(order, account));
        assert reconciling == Goto(t, p, ToReconcile(order, account));
        ReconcileStep(reconciling, p, order, account, balance);
        assert Finish(reconciling, p) == Finish(t, p);
        assert Goto(reconciling, p, ToCommit(order, account)) == Goto(t, p, ToCommit(order, account));
      }
    }
  }

  /** What marking paid in one go does, read off the same checks. */
  lemma MarkPaidUnfolds(db: Db, order: Order, balance: int)
    ensures var id, slip := order.bookingId, Trim(order.slip);
            Step(db, MarkingPaid(order.admin, id, order.slip, balance))
            == if slip == "" || !Paying.Releasable(db, id) || HoldActive(db, id) || AccountFor(db, id).None?
                  || !ReconcileOk(db.ledger, balance) then db
               else Committed(db, order.(slip := slip), AccountFor(db, id).value.id)
  {
    assert Next(db, MarkingPaid(order.admin, order.bookingId, order.slip, balance))
        == MarkPaid(db, order.admin, order.bookingId, order.slip, balance);
  }

  lemma NeverBegun(t: Till, p: nat, order: Order, balance: int)
    requires p !in t.payers
    ensures Advance(Advance(Advance(Advance(t, CheckHold(p)), FindAccount(p)), Reconcile(p, balance)), Commit(p)) == t
  {
    GoneStep(t, p, CheckHold(p));
    GoneStep(t, p, FindAccount(p));
    GoneStep(t, p, Reconcile(p, balance));
    GoneStep(t, p, Commit(p));
  }

  lemma CheckedCommits(t: Till, p: nat, order: Order, balance: int)
    requires p in t.payers && t.payers[p] == ToCheckHold(order)
    ensures var id := order.bookingId;
            Advance(Checked(t, p, order, balance), Commit(p))
            == Till(if HoldActive(t.db, id) || AccountFor(t.db, id).None? || !ReconcileOk(t.db.ledger, balance) then
                      t.db
                    else Committed(t.db, order, AccountFor(t.db, id).value.id), t.payers - {p})
  {
    var checked := Checked(t, p, order, balance);
    if p !in checked.payers {
      GoneStep(checked, p, Commit(p));
    } else {
      CommitStep(checked, p, order, AccountFor(t.db, order.bookingId).value.id);
      assert checked.payers - {p} == t.payers - {p};
    }
  }

  /** Refused at once: no slip, or no money due. */
  lemma RefusedAlone(t: Till, p: nat, order: Order, balance: int)
    requires p !in t.payers && (Trim(order.slip) == "" || !Paying.Releasable(t.db, order.bookingId))
    ensures TillRun(t, MarkingAlone(p, order, balance)) == t
    ensures Step(t.db, MarkingPaid(order.admin, order.bookingId, order.slip, balance)) == t.db
  {
    MarkingUnfolds(t, p, order, balance);
    MarkPaidUnfolds(t.db, order, balance);
    BeginStep(t, p, order);
    NeverBegun(t, p, order, balance);
  }

  lemma BegunAlone(t: Till, p: nat, order: Order, trimmed: Order, balance: int)
    requires p !in t.payers && Trim(order.slip) != "" && Paying.Releasable(t.db, order.bookingId)
    requires trimmed == order.(slip := Trim(order.slip))
    ensures TillRun(t, MarkingAlone(p, order, balance))
            == Advance(Checked(Goto(t, p, ToCheckHold(trimmed)), p, trimmed, balance), Commit(p))
  {
    MarkingUnfolds(t, p, order, balance);
    BeginStep(t, p, order);
    ChecksInARow(Goto(t, p, ToCheckHold(trimmed)), p, trimmed, balance);
  }

  /** A payer that nobody interrupts is the one-step operation. */
  lemma PayingAlone(t: Till, p: nat, order: Order, balance: int)
    requires p !in t.payers
    ensures TillRun(t, MarkingAlone(p, order, balance))
            == Till(Step(t.db, MarkingPaid(order.admin, order.bookingId, order.slip, balance)), t.payers)
  {
    if Trim(order.slip) == "" || !Paying.Releasable(t.db, order.bookingId) {
      RefusedAlone(t, p, order, balance);
    } else {
      var trimmed := order.(slip := Trim(order.slip));
      var begun := Goto(t, p, ToCheckHold(trimmed));
      BegunAlone(t, p, order, trimmed, balance);
      CheckedCommits(begun, p, trimmed, balance);
      assert begun.payers - {p} == t.payers;
      MarkPaidUnfolds(t.db, order, balance);
    }
  }

  // ---- A hold that comes too late ----

  function Holding(hold: Id, id: Id, reason: string): Action {
    PlacingHold(hold, Some(id), None, reason)
  }

  lemma HoldingStep(db: Db, hold: Id, id: Id, reason: string)
    requires id in db.bookings && hold !in db.holds && Trim(reason) != ""
    ensures Step(db, Holding(hold, id, reason))
            == db.(holds := db.holds[hold := Hold(BookingHold(id), Trim(reason), false)])
  {
    HoldIsPlaced(db, hold, id, reason);
    NextIsPlaceHold(db, hold, id, reason);
  }

  lemma HoldIsPlaced(db: Db, hold: Id, id: Id, reason: string)
    requires id in db.bookings && hold !in db.holds && Trim(reason) != ""
    ensures PlaceHold(db, hold, Some(id), None, reason)
            == Success(db.(holds := db.holds[hold := Hold(BookingHold(id), Trim(reason), false)]))
  {
  }

  lemma NextIsPlaceHold(db: Db, hold: Id, id: Id, reason: string)
    ensures Next(db, Holding(hold, id, reason)) == PlaceHold(db, hold, Some(id), None, reason)
  {
  }

  /** From any sound till with a payer at its transaction: the hold is placed, covers the
      booking, and the booking is paid. */
  lemma HoldComesTooLate(t: Till, p: nat, id: Id, hold: Id, reason: string)
    requires TillOk(t) && p in t.payers && t.payers[p].ToCommit? && t.payers[p].order.bookingId == id
    requires Paying.Releasable(t.db, id) && hold !in t.db.holds && Trim(reason) != ""
    ensures var held := Advance(t, Elsewhere(Holding(hold, id, reason)));
            && CoveredBy(held.db, hold, id) && held.db.payouts == t.db.payouts
            && CoveredBy(Advance(held, Commit(p)).db, hold, id) && id in Advance(held, Commit(p)).db.payouts
  {
    var holding := Elsewhere(Holding(hold, id, reason));
    ElsewhereStep(t, Holding(hold, id, reason));
    HoldingStep(t.db, hold, id, reason);
    TillStepOk(t, holding);
    CommitPays(Advance(t, holding), p, id);
    CoveredStays(Advance(t, holding), Commit(p), hold, id);
  }

  /** A stay completed and released, and its host's account. */
  function ReadyToPay(id: Id, terms: Terms, event: Id, month: YearMonth): seq<Action> {
    Released(id, terms, event, month) + [AddingAccount(Account(0, terms.host, 0))]
  }

  function AllElsewhere(actions: seq<Action>): seq<TillStep> {
    if actions == [] then []
    else AllElsewhere(actions[..|actions| - 1]) + [Elsewhere(actions[|actions| - 1])]
  }

  /** Runs that pay nobody are runs of the application. */
  lemma {:induction false} AllElsewhereRuns(actions: seq<Action>)
    requires forall i :: 0 <= i < |actions| ==> IsElsewhere(actions[i])
    ensures TillRun(OPENING, AllElsewhere(actions)) == Till(Run(EMPTY, actions), map[])
  {
    if actions != [] {
      var front, last := actions[..|actions| - 1], actions[|actions| - 1];
      AllElsewhereRuns(front);
      Snoc(OPENING, AllElsewhere(front), Elsewhere(last));
      ElsewhereStep(TillRun(OPENING, AllElsewhere(front)), last);
    }
  }

  lemma ReadyIsPayable(id: Id, terms: Terms, event: Id, month: YearMonth)
    requires FitsColumn(terms.total) && FitsColumn(terms.commission) && 0 < terms.total
    ensures var t := TillRun(OPENING, AllElsewhere(ReadyToPay(id, terms, event, month)));
            && t.payers == map[] && t.db.holds == map[] && id !in t.db.payouts
            && Paying.Releasable(t.db, id) && AccountFor(t.db, id).Some?
  {
    var released := Released(id, terms, event, month);
    var account := Account(0, terms.host, 0);
    AllElsewhereRuns(ReadyToPay(id, terms, event, month));
    RunExamples.ReleasedIsReleasable(id, terms, event, month);
    StepSnoc(EMPTY, released, AddingAccount(account));
    AccountStep(Run(EMPTY, released), account);
  }

  /** The payer's checks, the hold, the transaction. */
  function HoldInBetween(order: Order, balance: int, hold: Id, reason: string): seq<TillStep> {
    [Begin(0, order)] + [CheckHold(0)] + [FindAccount(0)] + [Reconcile(0, balance)]
    + [Elsewhere(Holding(hold, order.bookingId, reason))] + [Commit(0)]
  }

  lemma ChecksUnfold(t: Till, order: Order, balance: int)
    ensures TillRun(t, [Begin(0, order)] + [CheckHold(0)] + [FindAccount(0)] + [Reconcile(0, balance)])
            == Advance(Advance(Advance(Advance(t, Begin(0, order)), CheckHold(0)), FindAccount(0)),
                Reconcile(0, balance))
  {
    var a, b, c := [Begin(0, order)], [CheckHold(0)], [FindAccount(0)];
    assert TillRun(t, a[..0]) == t;
    Snoc(t, a, CheckHold(0));
    Snoc(t, a + b, FindAccount(0));
    Snoc(t, a + b + c, Reconcile(0, balance));
  }

  lemma NothingInTheWay(t: Till, p: nat, order: Order)
    requires DbOk(t.db) && t.db.holds == map[] && AccountFor(t.db, order.bookingId).Some?
    ensures Checked(t, p, order, Obligation(t.db.ledger)).payers
            == t.payers[p := ToCommit(order, AccountFor(t.db, order.bookingId).value.id)]
    ensures Checked(t, p, order, Obligation(t.db.ledger)).db == t.db
  {
    LedgerIsSound(t.db);
  }

  lemma PassesItsChecks(t: Till, order: Order) returns (after: Till)
    requires t.payers == map[] && Trim(order.slip) != "" && DbOk(t.db)
    requires Paying.Releasable(t.db, order.bookingId) && t.db.holds == map[] && AccountFor(t.db, order.bookingId).Some?
    ensures after
            == TillRun(t, [Begin(0, order)] + [CheckHold(0)] + [FindAccount(0)]
                + [Reconcile(0, Obligation(t.db.ledger))])
    ensures after.db == t.db && 0 in after.payers && after.payers[0].ToCommit?
    ensures after.payers[0].order.bookingId == order.bookingId
  {
    var balance, trimmed := Obligation(t.db.ledger), order.(slip := Trim(order.slip));
    var begun := Goto(t, 0, ToCheckHold(trimmed));
    ChecksUnfold(t, order, balance);
    BeginStep(t, 0, order);
    ChecksInARow(begun, 0, trimmed, balance);
    NothingInTheWay(begun, 0, trimmed);
    after := Checked(begun, 0, trimmed, balance);
  }

  lemma HoldInBetweenPays(t: Till, order: Order, hold: Id, reason: string)
    requires TillOk(t) && t.payers == map[] && Trim(order.slip) != "" && Trim(reason) != ""
    requires Paying.Releasable(t.db, order.bookingId) && t.db.holds == map[] && AccountFor(t.db, order.bookingId).Some?
    ensures var after := TillRun(t, HoldInBetween(order, Obligation(t.db.ledger), hold, reason));
            CoveredBy(after.db, hold, order.bookingId) && order.bookingId in after.db.payouts
  {
    var balance := Obligation(t.db.ledger);
    var checks := [Begin(0, order)] + [CheckHold(0)] + [FindAccount(0)] + [Reconcile(0, balance)];
    var holding := Elsewhere(Holding(hold, order.bookingId, reason));
    var checked := PassesItsChecks(t, order);
    TillRunOk(t, checks);
    HoldComesTooLate(checked, 0, order.bookingId, hold, reason);
    Snoc(t, checks, holding);
    Snoc(t, checks + [holding], Commit(0));
  }

  /** From the empty system: a stay is booked, paid, completed and released; an
      administrator marks it paid; the checks pass; a hold on the booking is placed; and the
      booking is paid, the hold in force before and after. */
  lemma HeldAndPaid(terms: Terms, event: Id, month: YearMonth, order: Order, hold: Id, reason: string)
    requires FitsColumn(terms.total) && FitsColumn(terms.commission) && 0 < terms.total
    requires Trim(order.slip) != "" && Trim(reason) != ""
    ensures var story := AllElsewhere(ReadyToPay(order.bookingId, terms, event, month));
            var balance := Obligation(TillRun(OPENING, story).db.ledger);
            var after := TillRun(OPENING, story + HoldInBetween(order, balance, hold, reason));
            CoveredBy(after.db, hold, order.bookingId) && order.bookingId in after.db.payouts
  {
    var story := AllElsewhere(ReadyToPay(order.bookingId, terms, event, month));
    var t := TillRun(OPENING, story);
    ReadyIsPayable(order.bookingId, terms, event, month);
    OpeningIsOk();
    TillRunOk(OPENING, story);
    HoldInBetweenPays(t, order, hold, reason);
    RunConcat(OPENING, story, HoldInBetween(order, Obligation(t.db.ledger), hold, reason));
  }
}
