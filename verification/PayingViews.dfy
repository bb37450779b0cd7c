/** What one step of the payout protocol does to a booking's case. */
module PayingViews {
  import opened Wrappers
  import opened Bookings
  import opened CaseInvariants
  import opened CaseLaws
  import opened CaseHistories
  import opened Database
  import opened Operations
  import opened Effects
  import opened Runs
  import opened Paying

  // ---- One transition of one case ----

  /** The money has been RELEASABLE before: the stay is over, or was called off. */
  predicate PastRelease(c: Case) {
    && !c.row.escrow.Uncharged? && !c.row.escrow.Held?
    && (c.row.status.Completed? || c.row.status.CancelledByGuest? || c.row.status.CancelledByHost?)
  }

  /** RELEASABLE, or frozen with a dispute that can still be decided. */
  predicate Payable(c: Case) {
    c.row.escrow.Releasable? || (c.row.escrow.Frozen? && c.dispute.Some?)
  }

  lemma ReleasableIsPast(c: Case)
    requires CaseOk(c) && c.row.escrow.Releasable?
    ensures PastRelease(c)
  {
  }

  /** No transition goes back to a stay or its beginnings. */
  lemma StatusStaysPast(c: Case, a: CaseAction, c': Case)
    requires CaseNext(c, a) == Success(c')
    requires c.row.status.Completed? || c.row.status.CancelledByGuest? || c.row.status.CancelledByHost?
    ensures c'.row.status.Completed? || c'.row.status.CancelledByGuest? || c'.row.status.CancelledByHost?
  {
  }

  lemma PastReleaseStays(c: Case, a: CaseAction, c': Case)
    requires CaseOk(c) && PastRelease(c) && CaseNext(c, a) == Success(c')
    ensures PastRelease(c')
  {
    StatusStaysPast(c, a, c');
    EscrowStaysPast(c, a, c');
  }

  lemma EscrowStaysPast(c: Case, a: CaseAction, c': Case)
    requires PastRelease(c) && CaseNext(c, a) == Success(c')
    ensures !c'.row.escrow.Uncharged? && !c'.row.escrow.Held?
  {
  }

  /** Paid, reversed or trapped money stays so. */
  lemma UnpayableStays(c: Case, a: CaseAction, c': Case)
    requires CaseOk(c) && PastRelease(c) && !Payable(c) && CaseNext(c, a) == Success(c')
    ensures !Payable(c')
  {
    if c.row.escrow.Frozen? {
      TrappedStep(c, a, c');
    } else {
      SpentNeverMoves(c, a, c');
    }
  }

  /** How a booking's case may have changed by a step in which it is not paid. */
  predicate Onward(c: Case, c': Case) {
    && (PastRelease(c) ==> PastRelease(c'))
    && (PastRelease(c) && !Payable(c) ==> !Payable(c'))
  }

  lemma MoveIsOnward(c: Case, a: CaseAction, c': Case)
    requires CaseOk(c) && CaseNext(c, a) == Success(c')
    ensures Onward(c, c')
  {
    if PastRelease(c) {
      PastReleaseStays(c, a, c');
      if !Payable(c) {
        UnpayableStays(c, a, c');
      }
    }
  }

  // ---- One step of the protocol ----

  predicate Commits(t: Till, step: TillStep) {
    step.Commit? && step.p in t.payers && t.payers[step.p].ToCommit?
  }

  function DbAfter(t: Till, step: TillStep): Db {
    if Commits(t, step) then Committed(t.db, t.payers[step.p].order, t.payers[step.p].account)
    else if step.Elsewhere? && IsElsewhere(step.action) then Step(t.db, step.action)
    else t.db
  }

  lemma AdvanceDb(t: Till, step: TillStep)
    ensures Advance(t, step).db == DbAfter(t, step)
  {
  }

  lemma CommittedView(db: Db, order: Order, account: Id, other: Id)
    requires other in db.bookings
    ensures other in Committed(db, order, account).bookings
    ensures var a := PayingOut(order.admin, account, order.slip);
            CaseOf(Committed(db, order, account), other)
            == if other == order.bookingId then CaseStep(CaseOf(db, other), a) else CaseOf(db, other)
  {
    var id, a := order.bookingId, PayingOut(order.admin, account, order.slip);
    if Act(db, id, a).Success? {
      ActShows(db, id, a, Committed(db, order, account));
      MoveViews(db, id, a, Committed(db, order, account), other);
    }
  }

  lemma CommittedIsOk(db: Db, order: Order, account: Id)
    requires DbOk(db)
    ensures DbOk(Committed(db, order, account))
  {
    var id, a, after := order.bookingId, PayingOut(order.admin, account, order.slip), Committed(db, order, account);
    if Act(db, id, a).Success? {
      ActShows(db, id, a, after);
      RowsStayOk(db, Moves(id, a), after);
      forall other | other in after.bookings
        ensures CaseOk(CaseOf(after, other))
      {
        CasesStayOk(db, Moves(id, a), after, other);
      }
    }
  }

  lemma DbAfterIsOk(t: Till, step: TillStep)
    requires DbOk(t.db)
    ensures DbOk(DbAfter(t, step))
  {
    if Commits(t, step) {
      CommittedIsOk(t.db, t.payers[step.p].order, t.payers[step.p].account);
    } else if step.Elsewhere? {
      StepKeeps(t.db, step.action);
    }
  }

  lemma ElsewhereIsOnward(db: Db, action: Action, id: Id)
    requires RowsOk(db) && id in db.bookings && CaseOk(CaseOf(db, id))
    ensures id in Step(db, action).bookings && Onward(CaseOf(db, id), CaseOf(Step(db, action), id))
  {
    if Next(db, action).Success? {
      var effect := EffectOf(db, action);
      NextShows(db, action, Step(db, action));
      EffectProjects(db, effect, Step(db, action), id);
      if effect.Moves? && effect.id == id {
        MoveIsOnward(CaseOf(db, id), effect.a, CaseOf(Step(db, action), id));
      }
    }
  }

  lemma CommitIsOnward(db: Db, order: Order, account: Id, id: Id)
    requires id in db.bookings && CaseOk(CaseOf(db, id))
    ensures id in Committed(db, order, account).bookings
    ensures Onward(CaseOf(db, id), CaseOf(Committed(db, order, account), id))
  {
    var a := PayingOut(order.admin, account, order.slip);
    CommittedView(db, order, account, id);
    if order.bookingId == id && CaseNext(CaseOf(db, id), a).Success? {
      MoveIsOnward(CaseOf(db, id), a, CaseOf(Committed(db, order, account), id));
    }
  }

  lemma StepIsOnward(t: Till, step: TillStep, id: Id)
    requires RowsOk(t.db) && id in t.db.bookings && CaseOk(CaseOf(t.db, id))
    ensures id in DbAfter(t, step).bookings && Onward(CaseOf(t.db, id), CaseOf(DbAfter(t, step), id))
  {
    if Commits(t, step) {
      CommitIsOnward(t.db, t.payers[step.p].order, t.payers[step.p].account, id);
    } else if step.Elsewhere? && IsElsewhere(step.action) {
      ElsewhereIsOnward(t.db, step.action, id);
    }
  }
}
