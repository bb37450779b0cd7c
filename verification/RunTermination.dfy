/** How often one booking can move in a run of the whole application: at most
    fourteen times, and twice more for every report filed against it. */
module RunTermination {
  import opened Wrappers
  import opened Money
  import opened Bookings
  import opened CaseInvariants
  import opened CaseTermination
  import opened Database
  import opened Operations
  import opened Effects
  import opened Runs

  predicate Unread(reports: map<Id, Report>, report: Id, id: Id) {
    report in reports && reports[report] == Report(ReportStatus.Received, OnBooking(id))
  }

  /** The reports on a booking that nobody has taken into review yet. */
  function UnreadReports(reports: map<Id, Report>, id: Id): set<Id> {
    set report | report in reports && Unread(reports, report, id)
  }

  /** What is left for one booking: its rank, and two for each report still waiting. */
  function Budget(db: Db, id: Id): nat {
    RankOf(db, id) + 2 * |UnreadReports(db.reports, id)|
  }

  /** The booking exists and its status, escrow or ledger changes. */
  predicate ProgressIn(db: Db, after: Db, id: Id) {
    id in db.bookings && id in after.bookings && Progress(CaseOf(db, id), CaseOf(after, id))
  }

  predicate Progresses(db: Db, action: Action, id: Id) {
    ProgressIn(db, Step(db, action), id)
  }

  predicate Files(db: Db, action: Action, id: Id) {
    action.FilingBookingReport? && action.id == id && Next(db, action).Success?
  }

  lemma ReportRowChanges(reports: map<Id, Report>, report: Id, row: Report, id: Id)
    ensures UnreadReports(reports[report := row], id)
            == if row == Report(ReportStatus.Received, OnBooking(id)) then UnreadReports(reports, id) + {report}
               else UnreadReports(reports, id) - {report}
  {
  }

  /** Triage never brings a report back to RECEIVED. */
  lemma TriageReads(reports: map<Id, Report>, report: Id, status: ReportStatus, id: Id)
    requires !status.Received?
    ensures UnreadReports(Triaged(reports, report, status), id) == UnreadReports(reports, id) - {report}
  {
  }

  /** How the waiting reports of a booking change. */
  predicate UnreadFollow(db: Db, action: Action, reports: map<Id, Report>, id: Id) {
    var before, now := UnreadReports(db.reports, id), UnreadReports(reports, id);
    && (Files(db, action, id) ==> now == before + {action.report})
    && (!Files(db, action, id) ==> now <= before)
    && (action.AcceptingReport? && Unread(db.reports, action.report, id)
        ==> action.report in before && now == before - {action.report})
  }

  lemma FilingFollows(db: Db, action: Action, id: Id)
    requires IsFiling(action) && Next(db, action).Success?
    ensures UnreadFollow(db, action, ReportsAfter(db, action), id)
  {
    match action
    case FilingBookingReport(report, _, target) =>
      ReportRowChanges(db.reports, report, Report(ReportStatus.Received, OnBooking(target)), id);
    case FilingListingReport(report, lister) =>
      ReportRowChanges(db.reports, report, Report(ReportStatus.Received, OnListing(lister)), id);
    case FilingOtherReport(report) => ReportRowChanges(db.reports, report, Report(ReportStatus.Received, OnOther), id);
  }

  /** Everything else triages one report, or none. */
  lemma TriageFollows(db: Db, action: Action, id: Id)
    requires !IsFiling(action)
    ensures UnreadFollow(db, action, ReportsAfter(db, action), id)
  {
    match action
    case AcceptingReport(report) => TriageReads(db.reports, report, InReview, id);
    case ResolvingReport(report, _) => TriageReads(db.reports, report, Resolved, id);
    case DismissingReport(report, _) => TriageReads(db.reports, report, Dismissed, id);
    case UnlistingFromReport(report) => TriageReads(db.reports, report, InReview, id);
    case ReviewingEscalated(report) => TriageReads(db.reports, report, InReview, id);
    case _ =>
  }

  lemma UnreadAfter(db: Db, action: Action, after: Db, id: Id)
    requires Next(db, action) == Success(after)
    ensures UnreadFollow(db, action, after.reports, id)
  {
    NextBeside(db, action, after);
    if IsFiling(action) {
      FilingFollows(db, action, id);
    } else {
      TriageFollows(db, action, id);
    }
  }

  lemma CountFollows(before: set<Id>, now: set<Id>, report: Id)
    ensures now == before + {report} ==> |now| <= |before| + 1
    ensures now <= before ==> |now| <= |before|
    ensures report in before && now == before - {report} ==> |now| + 1 == |before|
  {
    if now <= before {
      assert before == now + (before - now);
    }
  }

  lemma MovedRank(c: Case, a: CaseAction, c': Case)
    requires CaseOk(c) && CaseNext(c, a) == Success(c')
    ensures if a.FreezingForReport? then Rank(c') <= Rank(c) + 1
            else Rank(c') <= Rank(c) && (Progress(c, c') ==> Rank(c') < Rank(c))
  {
    if a.FreezingForReport? {
      ReportFreezeRank(c, a.reportId, c');
    } else {
      StepLowersRank(c, a, c');
    }
  }

  predicate FreezesForReport(effect: Effect, id: Id) {
    effect.Moves? && effect.id == id && effect.a.FreezingForReport?
  }

  /** What the step does to the booking's rank. */
  lemma RankAfter(db: Db, effect: Effect, after: Db, id: Id)
    requires RowsOk(db) && id in db.bookings && CaseOk(CaseOf(db, id)) && Shows(db, effect, after)
    ensures id in after.bookings
    ensures var c, c' := CaseOf(db, id), CaseOf(after, id);
            if FreezesForReport(effect, id) then Rank(c') <= Rank(c) + 1
            else Rank(c') <= Rank(c) && (Progress(c, c') ==> Rank(c') < Rank(c))
  {
    match effect
    case Aside => SameCasesSameView(after, db, id);
    case Creates(other, row) => CreateViews(db, other, row, after, id);
    case Moves(other, a) =>
      MoveViews(db, other, a, after, id);
      if other == id {
        MovedRank(CaseOf(db, id), a, CaseOf(after, id));
      }
  }

  /** The effect is a report freeze only when an unread report on the booking is taken
      into review. */
  lemma FreezeReadsReport(db: Db, action: Action, id: Id)
    requires Next(db, action).Success? && FreezesForReport(EffectOf(db, action), id)
    ensures action.AcceptingReport? && Unread(db.reports, action.report, id)
  {
  }

  function RankOf(db: Db, id: Id): nat {
    if id in db.bookings then Rank(CaseOf(db, id)) else MAX_RANK
  }

  lemma CreationRank(db: Db, effect: Effect, after: Db)
    requires RowsOk(db) && effect.Creates? && Shows(db, effect, after) && FreshRow(effect.row)
    ensures RankOf(after, effect.id) <= MAX_RANK
  {
  }

  /** The step as its effect shows it. */
  lemma EffectRank(db: Db, effect: Effect, after: Db, id: Id)
    requires RowsOk(db) && (id in db.bookings ==> CaseOk(CaseOf(db, id))) && Shows(db, effect, after)
    requires effect.Creates? ==> FreshRow(effect.row)
    ensures RankOf(after, id) + (if ProgressIn(db, after, id) then 1 else 0)
            <= RankOf(db, id) + (if FreezesForReport(effect, id) then 2 else 0)
  {
    if id in db.bookings {
      RankAfter(db, effect, after, id);
    } else if effect.Creates? && effect.id == id {
      CreationRank(db, effect, after);
    }
  }

  lemma RankStep(db: Db, action: Action, id: Id)
    requires RowsOk(db) && (id in db.bookings ==> CaseOk(CaseOf(db, id)))
    requires Next(db, action).Success?
    ensures RankOf(Step(db, action), id) + (if Progresses(db, action, id) then 1 else 0)
            <= RankOf(db, id) + (if FreezesForReport(EffectOf(db, action), id) then 2 else 0)
  {
    var effect := EffectOf(db, action);
    NextShows(db, action, Step(db, action));
    if effect.Creates? {
      assert FitsColumn(effect.row.terms.total);
      CreatedRowIsFresh(db, action);
    }
    EffectRank(db, effect, Step(db, action), id);
  }

  /** Every step that moves the booking spends from its budget; only a newly filed
      report adds to it. */
  lemma StepSpends(db: Db, action: Action, id: Id)
    requires DbOk(db)
    ensures Budget(Step(db, action), id) + (if Progresses(db, action, id) then 1 else 0)
            <= Budget(db, id) + (if Files(db, action, id) then 2 else 0)
  {
    if Next(db, action).Success? {
      var after := Step(db, action);
      RankStep(db, action, id);
      UnreadAfter(db, action, after, id);
      if FreezesForReport(EffectOf(db, action), id) {
        FreezeReadsReport(db, action, id);
      }
      CountFollows(UnreadReports(db.reports, id), UnreadReports(after.reports, id),
                   if action.AcceptingReport? || action.FilingBookingReport? then action.report else 0);
    }
  }

  function Moves(db: Db, actions: seq<Action>, id: Id): nat {
    if actions == [] then 0
    else
      var front := actions[..|actions| - 1];
      Moves(db, front, id) + (if Progresses(Run(db, front), actions[|actions| - 1], id) then 1 else 0)
  }

  function Filings(db: Db, actions: seq<Action>, id: Id): nat {
    if actions == [] then 0
    else
      var front := actions[..|actions| - 1];
      Filings(db, front, id) + (if Files(Run(db, front), actions[|actions| - 1], id) then 1 else 0)
  }

  lemma {:induction false} RunSpends(db: Db, actions: seq<Action>, id: Id)
    requires DbOk(db)
    ensures Budget(Run(db, actions), id) + Moves(db, actions, id) <= Budget(db, id) + 2 * Filings(db, actions, id)
  {
    if actions != [] {
      var front := actions[..|actions| - 1];
      RunSpends(db, front, id);
      RunKeeps(db, front);
      StepSpends(Run(db, front), actions[|actions| - 1], id);
    }
  }

  /** However long the run and however many bookings it serves, one booking moves at
      most fourteen times, and at most twice more per report filed on it. */
  lemma BookingsMoveFinitelyOften(actions: seq<Action>, id: Id)
    ensures Moves(EMPTY, actions, id) <= MAX_RANK + 2 * Filings(EMPTY, actions, id)
  {
    EmptyIsOk();
    RunSpends(EMPTY, actions, id);
    assert UnreadReports(EMPTY.reports, id) == {};
  }
}
