/** Runs of the whole application: every database reachable from an empty one keeps
    every booking's invariant, and what happens to one booking in it is a run of
    that booking's own case. */
module Runs {
  import opened Money
  import opened Escrow
  import opened Bookings
  import opened CaseInvariants
  import opened CaseLaws
  import opened Database
  import opened Operations
  import opened Effects

  // ---- The invariant of every reachable database ----

  ghost predicate CasesOk(db: Db) {
    forall id :: id in db.bookings ==> CaseOk(CaseOf(db, id))
  }

  /** No row refers to a booking that does not exist. */
  predicate RowsOk(db: Db) {
    && db.refunds.Keys <= db.bookings.Keys && db.disputes.Keys <= db.bookings.Keys
        && db.payouts.Keys <= db.bookings.Keys
    && forall i :: 0 <= i < |db.ledger| ==> db.ledger[i].bookingId in db.bookings
  }

  ghost predicate DbOk(db: Db) {
    CasesOk(db) && RowsOk(db)
  }

  lemma SameCasesSameView(a: Db, b: Db, id: Id)
    requires SameCases(a, b) && id in b.bookings
    ensures CaseOf(a, id) == CaseOf(b, id)
  {
  }

  lemma {:induction false} NoRowsYet(db: Db, ledger: seq<Entry>, id: Id)
    requires id !in db.bookings && forall i :: 0 <= i < |ledger| ==> ledger[i].bookingId in db.bookings
    ensures EntriesOf(ledger, id) == []
  {
    if ledger != [] {
      NoRowsYet(db, ledger[..|ledger| - 1], id);
    }
  }

  /** A created booking starts as a new case and leaves every other case alone. */
  lemma CreateViews(db: Db, id: Id, row: Booking, after: Db, other: Id)
    requires RowsOk(db) && Shows(db, Creates(id, row), after)
    requires other == id || other in db.bookings
    ensures other in after.bookings
    ensures CaseOf(after, other) == if other == id then NewCase(id, row) else CaseOf(db, other)
  {
    NoRowsYet(db, db.ledger, id);
  }

  /** A transition changes the view of its own booking only. */
  lemma MoveViews(db: Db, id: Id, a: CaseAction, after: Db, other: Id)
    requires Shows(db, Moves(id, a), after) && other in db.bookings
    ensures other in after.bookings && after.bookings.Keys == db.bookings.Keys
    ensures CaseOf(after, other) == if other == id then CaseStep(CaseOf(db, id), a) else CaseOf(db, other)
  {
    EntriesOfAreMine(db.ledger, id);
    var c := CaseNext(CaseOf(db, id), a).value;
    CaseNextIsMine(CaseOf(db, id), a, c);
    PutGet(db, id, c);
    SameCasesSameView(after, Put(db, id, c), other);
  }

  predicate FreshRow(row: Booking) {
    && FitsColumn(row.terms.total) && row.code.None? && row.escrow.Uncharged?
    && ((row.status.Requested? && row.timers.respondBy.Some?)
        || (row.status.AwaitingPayment? && row.timers.payBy.Some?))
  }

  lemma CreatedRowIsFresh(db: Db, action: Action)
    requires EffectOf(db, action).Creates? && FitsColumn(EffectOf(db, action).row.terms.total)
    ensures FreshRow(EffectOf(db, action).row)
  {
  }

  lemma CasesStayOk(db: Db, effect: Effect, after: Db, id: Id)
    requires DbOk(db) && Shows(db, effect, after) && id in after.bookings
    requires effect.Creates? ==> FreshRow(effect.row)
    ensures CaseOk(CaseOf(after, id))
  {
    match effect
    case Aside => SameCasesSameView(after, db, id);
    case Creates(new', row) =>
      CreateViews(db, new', row, after, id);
      NewCaseIsOk(new', row);
    case Moves(moved, a) =>
      MoveViews(db, moved, a, after, moved);
      MoveViews(db, moved, a, after, id);
      if id == moved {
        CaseNextKeeps(CaseOf(db, id), a, CaseOf(after, id));
      }
  }

  lemma MovedRowsOk(db: Db, id: Id, a: CaseAction)
    requires RowsOk(db) && id in db.bookings && CaseNext(CaseOf(db, id), a).Success?
    ensures RowsOk(Put(db, id, CaseNext(CaseOf(db, id), a).value))
  {
    var c := CaseNext(CaseOf(db, id), a).value;
    EntriesOfAreMine(db.ledger, id);
    CaseNextIsMine(CaseOf(db, id), a, c);
  }

  lemma RowsStayOk(db: Db, effect: Effect, after: Db)
    requires RowsOk(db) && Shows(db, effect, after)
    ensures RowsOk(after)
  {
    if effect.Moves? {
      MovedRowsOk(db, effect.id, effect.a);
    }
  }

  lemma StepKeeps(db: Db, action: Action)
    requires DbOk(db)
    ensures DbOk(Step(db, action))
  {
    if Next(db, action).Success? {
      var after, effect := Step(db, action), EffectOf(db, action);
      NextShows(db, action, after);
      RowsStayOk(db, effect, after);
      if effect.Creates? {
        CreatedRowIsFresh(db, action);
      }
      forall id | id in after.bookings
        ensures CaseOk(CaseOf(after, id))
      {
        CasesStayOk(db, effect, after, id);
      }
    }
  }

  /** Whatever the application does, in whatever order and for however many bookings,
      every booking's status, escrow, dispute, refund, payout and ledger agree. */
  lemma {:induction false} RunKeeps(db: Db, actions: seq<Action>)
    requires DbOk(db)
    ensures DbOk(Run(db, actions))
  {
    if actions != [] {
      RunKeeps(db, actions[..|actions| - 1]);
      StepKeeps(Run(db, actions[..|actions| - 1]), actions[|actions| - 1]);
    }
  }

  lemma EmptyIsOk()
    ensures DbOk(EMPTY)
  {
  }

  // ---- An accepted action ----

  /** An accepted action carries out its transition. */
  lemma ActionTakes(db: Db, action: Action, id: Id, a: CaseAction)
    requires Next(db, action).Success? && EffectOf(db, action) == Moves(id, a) && id in db.bookings
    ensures id in Step(db, action).bookings && CaseNext(CaseOf(db, id), a).Success?
    ensures CaseOf(Step(db, action), id) == CaseStep(CaseOf(db, id), a)
  {
    NextShows(db, action, Step(db, action));
    MoveViews(db, id, a, Step(db, action), id);
  }

  lemma ActingTakes(db: Db, id: Id, a: DirectAction)
    requires id in db.bookings && CaseNext(CaseOf(db, id), a).Success?
    ensures id in Step(db, Acting(id, a)).bookings
    ensures CaseOf(Step(db, Acting(id, a)), id) == CaseStep(CaseOf(db, id), a)
  {
    ActIsAccepted(db, id, a);
    ActionTakes(db, Acting(id, a), id, a);
  }

  lemma ActIsAccepted(db: Db, id: Id, a: DirectAction)
    requires id in db.bookings && CaseNext(CaseOf(db, id), a).Success?
    ensures Next(db, Acting(id, a)).Success?
  {
    assert Act(db, id, a).Success?;
  }

  // ---- One booking's share of a run ----

  /** The transitions of one booking that an action carries out. */
  function MovesOf(db: Db, action: Action, id: Id): seq<CaseAction> {
    if id in db.bookings && Next(db, action).Success? && EffectOf(db, action).Moves?
        && EffectOf(db, action).id == id then
      [EffectOf(db, action).a]
    else []
  }

  function Projected(db: Db, actions: seq<Action>, id: Id): seq<CaseAction> {
    if actions == [] then []
    else
      var front := actions[..|actions| - 1];
      Projected(db, front, id) + MovesOf(Run(db, front), actions[|actions| - 1], id)
  }

  lemma EffectProjects(db: Db, effect: Effect, after: Db, id: Id)
    requires RowsOk(db) && id in db.bookings && Shows(db, effect, after)
    ensures id in after.bookings
    ensures CaseOf(after, id)
            == if effect.Moves? && effect.id == id then CaseStep(CaseOf(db, id), effect.a) else CaseOf(db, id)
  {
    match effect
    case Aside => SameCasesSameView(after, db, id);
    case Creates(other, row) => CreateViews(db, other, row, after, id);
    case Moves(other, a) => MoveViews(db, other, a, after, id);
  }

  lemma StepProjects(db: Db, action: Action, id: Id)
    requires RowsOk(db) && id in db.bookings
    ensures id in Step(db, action).bookings
    ensures CaseOf(Step(db, action), id) == CaseRun(CaseOf(db, id), MovesOf(db, action, id))
  {
    if Next(db, action).Success? {
      var after, effect := Step(db, action), EffectOf(db, action);
      NextShows(db, action, after);
      EffectProjects(db, effect, after, id);
      if effect.Moves? && effect.id == id {
        OneStepRun(CaseOf(db, id), effect.a);
      }
    }
  }

  lemma {:induction false} CaseRunConcat(c: Case, first: seq<CaseAction>, second: seq<CaseAction>)
    ensures CaseRun(c, first + second) == CaseRun(CaseRun(c, first), second)
  {
    if second == [] {
      assert first + second == first;
    } else {
      CaseRunConcat(c, first, second[..|second| - 1]);
      assert (first + second)[..|first + second| - 1] == first + second[..|second| - 1];
    }
  }

  /** Interleaved with any number of other bookings, one booking goes through a run of
      its own case: whatever holds of all case runs holds of it. */
  lemma {:induction false} RunProjects(db: Db, actions: seq<Action>, id: Id)
    requires DbOk(db) && id in db.bookings
    ensures id in Run(db, actions).bookings
    ensures CaseOf(Run(db, actions), id) == CaseRun(CaseOf(db, id), Projected(db, actions, id))
  {
    if actions == [] {
    } else {
      var front, last := actions[..|actions| - 1], actions[|actions| - 1];
      RunProjects(db, front, id);
      RunKeeps(db, front);
      StepProjects(Run(db, front), last, id);
      CaseRunConcat(CaseOf(db, id), Projected(db, front, id), MovesOf(Run(db, front), last, id));
    }
  }

  /** A booking that appears during a run starts as a new case. */
  lemma {:induction false} RunProjectsFromCreation(db: Db, actions: seq<Action>, id: Id) returns (row: Booking)
    requires DbOk(db) && id !in db.bookings && id in Run(db, actions).bookings
    ensures FreshRow(row)
    ensures CaseOf(Run(db, actions), id) == CaseRun(NewCase(id, row), Projected(db, actions, id))
  {
    var front, last := actions[..|actions| - 1], actions[|actions| - 1];
    var before := Run(db, front);
    RunKeeps(db, front);
    if id in before.bookings {
      row := RunProjectsFromCreation(db, front, id);
      StepProjects(before, last, id);
      CaseRunConcat(NewCase(id, row), Projected(db, front, id), MovesOf(before, last, id));
    } else {
      NextShows(before, last, Step(before, last));
      CreatedNow(before, last, id);
      row := EffectOf(before, last).row;
      CreateViews(before, id, row, Step(before, last), id);
      NothingBeforeCreation(db, front, id);
    }
  }

  lemma CreatedNow(db: Db, action: Action, id: Id)
    requires DbOk(db) && id !in db.bookings && id in Step(db, action).bookings
    ensures Next(db, action).Success?
    ensures EffectOf(db, action).Creates? && EffectOf(db, action).id == id && FreshRow(EffectOf(db, action).row)
  {
    NextShows(db, action, Step(db, action));
    if EffectOf(db, action).Creates? {
      CreatedRowIsFresh(db, action);
    }
  }

  lemma BookingsStay(db: Db, action: Action, id: Id)
    requires id in db.bookings
    ensures id in Step(db, action).bookings
  {
    if Next(db, action).Success? {
      NextShows(db, action, Step(db, action));
    }
  }

  lemma {:induction false} NothingBeforeCreation(db: Db, actions: seq<Action>, id: Id)
    requires id !in Run(db, actions).bookings
    ensures Projected(db, actions, id) == []
  {
    if actions != [] {
      var front, last := actions[..|actions| - 1], actions[|actions| - 1];
      if id in Run(db, front).bookings {
        BookingsStay(Run(db, front), last, id);
      }
      NothingBeforeCreation(db, front, id);
    }
  }
}
