/** What one step of the refund protocol does to a booking's case. */
module RefundViews {
  import opened Wrappers
  import opened Bookings
  import opened CaseInvariants
  import opened CaseLaws
  import opened CaseHistories
  import opened Database
  import opened Operations
  import opened Effects
  import opened Runs
  import opened RefundSending

  // ---- One transition of one case ----

  /** The transitions that store a gateway id in one go; the protocol does without them. */
  predicate Sends(a: CaseAction) {
    a.RefundingCancelled? || a.Finalizing?
  }

  /** Money of a dispute waiting for a decision. */
  predicate Undecided(c: Case) {
    c.dispute.Some? && c.row.escrow.Frozen?
  }

  lemma RowStays(c: Case, a: CaseAction, c': Case)
    requires CaseNext(c, a) == Success(c') && !Sends(a)
    ensures c.refund.Some? ==> c'.refund.Some? && c'.refund.value.opnRefundId == c.refund.value.opnRefundId
    ensures c.refund.None? ==> !Sent(c')
    ensures c.dispute.Some? ==> c'.dispute.Some?
  {
  }

  /** An owed amount only changes while the dispute's money is FROZEN. */
  lemma CalmAmount(c: Case, a: CaseAction, c': Case)
    requires CaseOk(c) && CaseNext(c, a) == Success(c')
    requires c.refund.Some? && !Undecided(c)
    ensures c'.PriorRefund() == c.PriorRefund()
  {
  }

  /** Once the dispute's remainder is paid or gone, never again. */
  lemma ClosedAmount(c: Case, a: CaseAction, c': Case)
    requires CaseOk(c) && CaseNext(c, a) == Success(c')
    requires c.refund.Some? && !Reopenable(c)
    ensures c'.PriorRefund() == c.PriorRefund() && !Reopenable(c')
  {
    CalmAmount(c, a, c');
    RefundStages(c);
    if c.dispute.Some? {
      SpentNeverMoves(c, a, c');
    }
  }

  /** How a booking's case may have changed: everything later steps rely on. */
  predicate Onward(c: Case, c': Case) {
    && (c.refund.Some? ==> c'.refund.Some?)
    && (Sent(c) ==> Sent(c'))
    && (c.dispute.Some? ==> c'.dispute.Some?)
    && (c.refund.Some? && !Undecided(c) ==> c'.PriorRefund() == c.PriorRefund())
    && (c.refund.Some? && !Reopenable(c) ==> c'.PriorRefund() == c.PriorRefund() && !Reopenable(c'))
  }

  lemma MoveIsOnward(c: Case, a: CaseAction, c': Case)
    requires CaseOk(c) && CaseNext(c, a) == Success(c') && !Sends(a)
    ensures Onward(c, c')
  {
    RowStays(c, a, c');
    if c.refund.Some? && !Undecided(c) {
      CalmAmount(c, a, c');
    }
    if c.refund.Some? && !Reopenable(c) {
      ClosedAmount(c, a, c');
    }
  }

  // ---- One step of the protocol ----

  /** The application's action behind a step, if there is one. */
  function ActionOf(d: Desk, step: DeskStep): Option<Action> {
    match step
    case CancelPage(h, id, a) =>
      if h !in d.senders && (a.CancellingAsGuest? || a.CancellingAsHost?) then Some(Acting(id, a)) else None
    case Elsewhere(action) => if IsElsewhere(action) then Some(action) else None
    case _ => None
  }

  predicate Stores(d: Desk, step: DeskStep) {
    step.StoreId? && step.h in d.senders && d.senders[step.h].ToStore?
  }

  function DbAfter(d: Desk, step: DeskStep): Db {
    if ActionOf(d, step).Some? then Step(d.db, ActionOf(d, step).value)
    else if Stores(d, step) then StoredDb(d.db, d.senders[step.h].bookingId, d.senders[step.h].refundId)
    else d.db
  }

  lemma CancelIsAStep(db: Db, id: Id, a: DirectAction)
    ensures Step(db, Acting(id, a)) == match Act(db, id, a) { case Success(after) => after case Failure(_) => db }
  {
  }

  lemma AdvanceDb(d: Desk, step: DeskStep)
    ensures Advance(d, step).db == DbAfter(d, step)
  {
    match step
    case CancelPage(h, id, a) => CancelIsAStep(d.db, id, a);
    case _ =>
  }

  /** An action moves one booking's case by one transition at most. */
  lemma ActionMoves(db: Db, action: Action, id: Id) returns (moved: bool, a: CaseAction)
    requires RowsOk(db) && id in db.bookings && IsElsewhere(action)
    ensures id in Step(db, action).bookings
    ensures !moved ==> CaseOf(Step(db, action), id) == CaseOf(db, id)
    ensures moved ==> !Sends(a) && CaseNext(CaseOf(db, id), a) == Success(CaseOf(Step(db, action), id))
    ensures moved && a.FreezingForReport? ==> action.AcceptingReport?
  {
    moved, a := false, CheckingIn;
    if Next(db, action).Success? {
      var effect := EffectOf(db, action);
      NextShows(db, action, Step(db, action));
      EffectProjects(db, effect, Step(db, action), id);
      if effect.Moves? && effect.id == id {
        moved, a := true, effect.a;
        NotASend(db, action);
      }
    }
  }

  lemma NotASend(db: Db, action: Action)
    requires IsElsewhere(action) && EffectOf(db, action).Moves?
    ensures !Sends(EffectOf(db, action).a)
    ensures EffectOf(db, action).a.FreezingForReport? ==> action.AcceptingReport?
  {
  }

  lemma StoredView(db: Db, id: Id, refundId: Id, other: Id)
    requires other in db.bookings
    ensures var c, c' := CaseOf(db, other), CaseOf(StoredDb(db, id, refundId), other);
            c' == if other == id && c.refund.Some? then
                    c.(refund := Some(c.refund.value.(opnRefundId := Some(refundId))))
                  else c
  {
  }

  lemma StoringIsOnward(c: Case, refundId: Id)
    requires c.refund.Some?
    ensures Onward(c, c.(refund := Some(c.refund.value.(opnRefundId := Some(refundId)))))
    ensures CaseOk(c) ==> CaseOk(c.(refund := Some(c.refund.value.(opnRefundId := Some(refundId)))))
  {
  }

  lemma ActionIsOnward(db: Db, action: Action, id: Id)
    requires RowsOk(db) && id in db.bookings && CaseOk(CaseOf(db, id)) && IsElsewhere(action)
    ensures id in Step(db, action).bookings && Onward(CaseOf(db, id), CaseOf(Step(db, action), id))
  {
    var c := CaseOf(db, id);
    var moved, a := ActionMoves(db, action, id);
    var c' := CaseOf(Step(db, action), id);
    if moved {
      MoveIsOnward(c, a, c');
    } else {
      StayingIsOnward(c);
    }
  }

  lemma StayingIsOnward(c: Case)
    ensures Onward(c, c)
  {
  }

  lemma StoreIsOnward(db: Db, owner: Id, refundId: Id, id: Id)
    requires id in db.bookings
    ensures id in StoredDb(db, owner, refundId).bookings
    ensures Onward(CaseOf(db, id), CaseOf(StoredDb(db, owner, refundId), id))
  {
    var c := CaseOf(db, id);
    StoredView(db, owner, refundId, id);
    StayingIsOnward(c);
    if c.refund.Some? {
      StoringIsOnward(c, refundId);
    }
  }

  /** Every step moves every booking onward. */
  lemma StepIsOnward(d: Desk, step: DeskStep, id: Id)
    requires RowsOk(d.db) && id in d.db.bookings && CaseOk(CaseOf(d.db, id))
    ensures id in DbAfter(d, step).bookings && Onward(CaseOf(d.db, id), CaseOf(DbAfter(d, step), id))
  {
    if ActionOf(d, step).Some? {
      ActionIsElsewhere(d, step);
      ActionIsOnward(d.db, ActionOf(d, step).value, id);
    } else if Stores(d, step) {
      StoreIsOnward(d.db, d.senders[step.h].bookingId, d.senders[step.h].refundId, id);
    } else {
      StayingIsOnward(CaseOf(d.db, id));
    }
  }

  lemma ActionIsElsewhere(d: Desk, step: DeskStep)
    requires ActionOf(d, step).Some?
    ensures IsElsewhere(ActionOf(d, step).value)
  {
  }

  lemma StoredDbOk(db: Db, id: Id, refundId: Id)
    requires DbOk(db)
    ensures DbOk(StoredDb(db, id, refundId))
  {
    forall other | other in db.bookings
      ensures CaseOk(CaseOf(StoredDb(db, id, refundId), other))
    {
      StoredView(db, id, refundId, other);
      assert CaseOk(CaseOf(db, other));
      if CaseOf(db, other).refund.Some? {
        StoringIsOnward(CaseOf(db, other), refundId);
      }
    }
  }

  lemma DbAfterIsOk(d: Desk, step: DeskStep)
    requires DbOk(d.db)
    ensures DbOk(DbAfter(d, step))
  {
    if ActionOf(d, step).Some? {
      StepKeeps(d.db, ActionOf(d, step).value);
    } else if Stores(d, step) {
      StoredDbOk(d.db, d.senders[step.h].bookingId, d.senders[step.h].refundId);
    }
  }
}
