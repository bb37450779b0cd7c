/** The discipline under which the guest is sent exactly the refund row, once, however the
    protocol's steps are interleaved. */
module RefundSafety {
  import opened Wrappers
  import opened Bookings
  import opened CaseInvariants
  import opened CaseLaws
  import opened CaseHistories
  import opened Database
  import opened Operations
  import opened Effects
  import opened Runs
  import opened RefundSending
  import opened RefundViews
  import opened RefundRuns

  /** A gateway id is stored on the refund row. */
  predicate Stored(db: Db, id: Id) {
    id in db.refunds && db.refunds[id].opnRefundId.Some?
  }

  /** The money of the booking's dispute waits for a decision. */
  predicate AwaitsDecision(db: Db, id: Id) {
    id in db.bookings && Undecided(CaseOf(db, id))
  }

  predicate StoresFor(d: Desk, step: DeskStep, id: Id) {
    Stores(d, step) && d.senders[step.h].bookingId == id
  }

  predicate TakesReport(step: DeskStep) {
    step.Elsewhere? && step.action.AcceptingReport?
  }

  /** What a step does to the stored id and to the frozen money. */
  predicate MarksFollow(d: Desk, step: DeskStep, id: Id, after: Db) {
    && (Stored(after, id) ==> Stored(d.db, id) || StoresFor(d, step, id))
    && (StoresFor(d, step, id) && id in d.db.refunds ==> Stored(after, id))
    && (StoresFor(d, step, id) ==> (AwaitsDecision(after, id) <==> AwaitsDecision(d.db, id)))
    && (Stored(d.db, id) && AwaitsDecision(after, id) ==> AwaitsDecision(d.db, id) || TakesReport(step))
  }

  lemma StoredIsSent(db: Db, id: Id)
    requires id in db.bookings
    ensures Stored(db, id) <==> Sent(CaseOf(db, id))
  {
  }

  lemma NotStoredYet(db: Db, action: Action, id: Id)
    requires DbOk(db) && id !in db.bookings
    ensures !Stored(Step(db, action), id)
  {
    StepKeeps(db, action);
    if id in Step(db, action).bookings {
      CreatedNow(db, action, id);
      NextShows(db, action, Step(db, action));
      CreateViews(db, id, EffectOf(db, action).row, Step(db, action), id);
      StoredIsSent(Step(db, action), id);
    }
  }

  lemma MoveMarks(c: Case, a: CaseAction, c': Case)
    requires CaseOk(c) && CaseNext(c, a) == Success(c') && !Sends(a)
    ensures Sent(c') ==> Sent(c)
    ensures Sent(c) && Undecided(c') ==> Undecided(c) || a.FreezingForReport?
  {
    RowStays(c, a, c');
    if SentAndSettled(c) && !a.FreezingForReport? {
      SentStep(c, a, c');
    }
  }

  lemma ActionMarks(db: Db, action: Action, id: Id)
    requires RowsOk(db) && id in db.bookings && CaseOk(CaseOf(db, id)) && IsElsewhere(action)
    ensures Stored(Step(db, action), id) ==> Stored(db, id)
    ensures Stored(db, id) && AwaitsDecision(Step(db, action), id) ==> AwaitsDecision(db, id) || action.AcceptingReport?
  {
    var after := Step(db, action);
    var moved, a := ActionMoves(db, action, id);
    StoredIsSent(db, id);
    StoredIsSent(after, id);
    if moved {
      MoveMarks(CaseOf(db, id), a, CaseOf(after, id));
    }
  }

  lemma StoredRows(db: Db, owner: Id, refundId: Id)
    ensures var after := StoredDb(db, owner, refundId);
            && after == db.(refunds := after.refunds) && after.refunds.Keys == db.refunds.Keys
            && (forall id :: id in db.refunds && id != owner ==> after.refunds[id] == db.refunds[id])
            && (owner in db.refunds ==> after.refunds[owner].opnRefundId == Some(refundId))
  {
  }

  lemma SameMoney(a: Db, b: Db, id: Id)
    requires a == b.(refunds := a.refunds)
    ensures AwaitsDecision(a, id) <==> AwaitsDecision(b, id)
  {
  }

  lemma StoreMarks(db: Db, owner: Id, refundId: Id, id: Id)
    ensures var after := StoredDb(db, owner, refundId);
            && (Stored(after, id) ==> Stored(db, id) || owner == id)
            && (owner == id && id in db.refunds ==> Stored(after, id))
            && (AwaitsDecision(after, id) <==> AwaitsDecision(db, id))
  {
    StoredRows(db, owner, refundId);
    SameMoney(StoredDb(db, owner, refundId), db, id);
  }

  lemma ActionsDoNotStore(d: Desk, step: DeskStep, id: Id)
    requires ActionOf(d, step).Some?
    ensures !StoresFor(d, step, id) && IsElsewhere(ActionOf(d, step).value)
    ensures ActionOf(d, step).value.AcceptingReport? ==> TakesReport(step)
  {
  }

  lemma ActionMarksFollow(d: Desk, step: DeskStep, id: Id)
    requires DbOk(d.db) && ActionOf(d, step).Some?
    ensures MarksFollow(d, step, id, Step(d.db, ActionOf(d, step).value))
  {
    ActionsDoNotStore(d, step, id);
    NoStoreMarks(d.db, ActionOf(d, step).value, id);
  }

  lemma NoStoreMarks(db: Db, action: Action, id: Id)
    requires DbOk(db) && IsElsewhere(action)
    ensures Stored(Step(db, action), id) ==> Stored(db, id)
    ensures Stored(db, id) && AwaitsDecision(Step(db, action), id) ==> AwaitsDecision(db, id) || action.AcceptingReport?
  {
    if id in db.bookings {
      assert CaseOk(CaseOf(db, id));
      ActionMarks(db, action, id);
    } else {
      NotStoredYet(db, action, id);
    }
  }

  lemma StoreMarksFollow(d: Desk, step: DeskStep, id: Id)
    requires Stores(d, step)
    ensures MarksFollow(d, step, id, StoredDb(d.db, d.senders[step.h].bookingId, d.senders[step.h].refundId))
  {
    StoreMarks(d.db, d.senders[step.h].bookingId, d.senders[step.h].refundId, id);
  }

  lemma MarksStep(d: Desk, step: DeskStep, id: Id)
    requires DbOk(d.db)
    ensures MarksFollow(d, step, id, DbAfter(d, step))
  {
    if ActionOf(d, step).Some? {
      ActionMarksFollow(d, step, id);
    } else if Stores(d, step) {
      StoreMarksFollow(d, step, id);
    }
  }

  // ---- The discipline ----

  /** Frozen money of the booking's dispute comes to wait for a decision. */
  predicate Rearms(d: Desk, step: DeskStep, id: Id) {
    !AwaitsDecision(d.db, id) && AwaitsDecision(Advance(d, step).db, id)
  }

  /** The null check is passed only while no other sender of the booking stands between
      check and store and no decision is pending; no sender dies between gateway and store;
      no appeal or report freeze re-arms the dispute while a sender stands between check
      and store; and no report freeze does once something has been sent. */
  predicate Undisturbed(d: Desk, step: DeskStep, id: Id) {
    var mine := Mine(d.senders, id);
    && (PassesNullCheck(d, step, id) ==> mine == map[] && !AwaitsDecision(d.db, id))
    && !(step.Die? && step.h in mine && mine[step.h].ToStore?)
    && (Rearms(d, step, id) ==> mine == map[] && !(TakesReport(step) && SentFor(d.sent, id) != []))
  }

  predicate RunUndisturbed(d: Desk, steps: seq<DeskStep>, id: Id) {
    if steps == [] then true
    else
      var front := steps[..|steps| - 1];
      RunUndisturbed(d, front, id) && Undisturbed(DeskRun(d, front), steps[|steps| - 1], id)
  }

  /** At most one sender stands between check and store, with the row's amount; it has
      reached the gateway exactly when something has been sent. */
  predicate OneSender(mine: map<nat, Sender>, sent: seq<int>, amount: int) {
    && (forall h, k :: h in mine && k in mine ==> h == k)
    && (forall h :: h in mine ==> !mine[h].ToRead? && mine[h].amount == amount && (mine[h].ToStore? <==> sent != []))
    && (sent == [] || sent == [amount])
  }

  predicate Tidy(d: Desk, id: Id) {
    && OneSender(Mine(d.senders, id), SentFor(d.sent, id), RowAmount(d.db, id))
    && (SentFor(d.sent, id) != [] || Mine(d.senders, id) != map[] ==> !AwaitsDecision(d.db, id))
    && (SentFor(d.sent, id) != [] && Mine(d.senders, id) == map[] ==> Stored(d.db, id))
    && (Stored(d.db, id) ==> SentFor(d.sent, id) != [])
  }

  lemma OneSenderMoves(mine: map<nat, Sender>, sent: seq<int>, move: SenderMove, id: Id, amount: int)
    requires OneSender(mine, sent, amount) && Enabled(mine, move)
    requires move.Passed? ==> mine == map[] && sent == []
    requires move.Left? && move.h in mine ==> mine[move.h].ToStore? || sent == []
    ensures OneSender(MineAfter(mine, move, id, amount), sent
            + (if move.Fired? then [mine[move.h].amount] else []), amount)
  {
  }

  lemma SameRow(d: Desk, id: Id, after: Db)
    requires TablesFollow(d.db, after, id) && id in d.db.bookings && id in d.db.refunds && !AwaitsDecision(d.db, id)
    ensures RowAmount(after, id) == RowAmount(d.db, id)
  {
    RowAmountIsPrior(d.db, id);
    RowAmountIsPrior(after, id);
  }

  lemma StoringIsMine(d: Desk, step: DeskStep, id: Id)
    requires StoresFor(d, step, id)
    ensures step.h in Mine(d.senders, id) && Mine(d.senders, id)[step.h].ToStore?
    ensures MoveOf(d, step, id) == Left(step.h)
  {
  }

  /** A sender leaves between the gateway and the store only by storing. */
  lemma LeavingStores(d: Desk, step: DeskStep, id: Id, h: nat)
    requires MoveOf(d, step, id) == Left(h) && h in Mine(d.senders, id) && Mine(d.senders, id)[h].ToStore?
    requires Undisturbed(d, step, id)
    ensures StoresFor(d, step, id)
  {
  }

  /** A freeze that the discipline allows. */
  predicate MayRearm(d: Desk, step: DeskStep, id: Id, after: Db) {
    !AwaitsDecision(d.db, id) && AwaitsDecision(after, id) ==>
      Mine(d.senders, id) == map[] && !(TakesReport(step) && SentFor(d.sent, id) != [])
  }

  lemma TidySenders(d: Desk, step: DeskStep, id: Id, after: Desk)
    requires Backed(d, id) && Tidy(d, id) && Undisturbed(d, step, id)
    requires SendersFollow(d, MoveOf(d, step, id), id, after) && TablesFollow(d.db, after.db, id)
    requires MoveOf(d, step, id).Passed? ==> PassesNullCheck(d, step, id) && Owed(d.db, id) && id in d.db.bookings
    ensures OneSender(Mine(after.senders, id), SentFor(after.sent, id), RowAmount(after.db, id))
  {
    var move, mine := MoveOf(d, step, id), Mine(d.senders, id);
    if SentFor(d.sent, id) != [] || mine != map[] || move.Passed? {
      SameRow(d, id, after.db);
      OneSenderMoves(mine, SentFor(d.sent, id), move, id, RowAmount(d.db, id));
    }
  }

  /** A stored id stays stored. */
  lemma StoredStays(before: Db, after: Db, id: Id)
    requires TablesFollow(before, after, id) && Stored(before, id) && id in before.bookings
    ensures Stored(after, id)
  {
    StoredIsSent(before, id);
    StoredIsSent(after, id);
  }

  /** The last sender to go has stored its id. */
  lemma LeftByStoring(d: Desk, step: DeskStep, id: Id, after: Desk)
    requires Backed(d, id) && Tidy(d, id) && Undisturbed(d, step, id) && MarksFollow(d, step, id, after.db)
    requires Mine(d.senders, id) != map[] && SentFor(d.sent, id) != []
    requires MineAfter(Mine(d.senders, id), MoveOf(d, step, id), id, RowAmount(d.db, id)) == map[]
    requires Enabled(Mine(d.senders, id), MoveOf(d, step, id))
    ensures Stored(after.db, id)
  {
    var mine, move := Mine(d.senders, id), MoveOf(d, step, id);
    var h :| h in mine;
    assert mine[h].ToStore?;
    assert move == Left(h);
    LeavingStores(d, step, id, h);
  }

  lemma TidyRest(d: Desk, step: DeskStep, id: Id, after: Desk)
    requires Backed(d, id) && Tidy(d, id) && Undisturbed(d, step, id)
    requires SendersFollow(d, MoveOf(d, step, id), id, after) && TablesFollow(d.db, after.db, id)
    requires MarksFollow(d, step, id, after.db)
    ensures SentFor(after.sent, id) != [] && Mine(after.senders, id) == map[] ==> Stored(after.db, id)
  {
    if SentFor(after.sent, id) != [] && Mine(after.senders, id) == map[] {
      if Mine(d.senders, id) != map[] {
        LeftByStoring(d, step, id, after);
      } else {
        StoredStays(d.db, after.db, id);
      }
    }
  }

  lemma TidyMarks(d: Desk, step: DeskStep, id: Id, after: Desk)
    requires Backed(d, id) && Tidy(d, id) && MayRearm(d, step, id, after.db)
    requires SendersFollow(d, MoveOf(d, step, id), id, after) && MarksFollow(d, step, id, after.db)
    requires MoveOf(d, step, id).Passed? ==> PassesNullCheck(d, step, id) && !AwaitsDecision(d.db, id)
    requires PassesNullCheck(d, step, id) ==> after.db == d.db
    ensures SentFor(after.sent, id) != [] || Mine(after.senders, id) != map[] ==> !AwaitsDecision(after.db, id)
    ensures Stored(after.db, id) ==> SentFor(after.sent, id) != []
  {
    if StoresFor(d, step, id) {
      StoringIsMine(d, step, id);
    }
  }

  lemma PassingOnlyReads(d: Desk, step: DeskStep, id: Id)
    requires PassesNullCheck(d, step, id)
    ensures DbAfter(d, step) == d.db
  {
  }

  lemma TidyStep(d: Desk, step: DeskStep, id: Id)
    requires DeskOk(d, id) && Tidy(d, id) && Undisturbed(d, step, id)
    ensures DeskOk(Advance(d, step), id) && Tidy(Advance(d, step), id)
  {
    OkStep(d, step, id);
    PassingIsOwed(d, step, id);
    AdvanceDb(d, step);
    MarksStep(d, step, id);
    TidySenders(d, step, id, Advance(d, step));
    TidyRest(d, step, id, Advance(d, step));
    if PassesNullCheck(d, step, id) {
      PassingOnlyReads(d, step, id);
    }
    TidyMarks(d, step, id, Advance(d, step));
  }

  lemma {:induction false} TidyRun(steps: seq<DeskStep>, id: Id)
    requires RunUndisturbed(FRESH, steps, id)
    ensures DeskOk(DeskRun(FRESH, steps), id) && Tidy(DeskRun(FRESH, steps), id)
  {
    if steps == [] {
      FreshIsOk(id);
    } else {
      TidyRun(steps[..|steps| - 1], id);
      TidyStep(DeskRun(FRESH, steps[..|steps| - 1]), steps[|steps| - 1], id);
    }
  }

  /** Under the discipline the guest is sent nothing or, once, what the row says from then
      on. With no sender left, the row is marked exactly when the guest was sent it, and a
      marked case has no decision pending. */
  lemma SentOnceAsOwed(steps: seq<DeskStep>, id: Id)
    requires RunUndisturbed(FRESH, steps, id)
    ensures var d := DeskRun(FRESH, steps);
            && SentIsOwed(d, id)
            && (Mine(d.senders, id) == map[] ==>
                (Stored(d.db, id) <==> SentFor(d.sent, id) == [RowAmount(d.db, id)]))
            && (Stored(d.db, id) ==> id in d.db.bookings && SentAndSettled(CaseOf(d.db, id)))
  {
    TidyRun(steps, id);
    var d := DeskRun(FRESH, steps);
    if Stored(d.db, id) {
      StoredIsSent(d.db, id);
    }
  }
}
