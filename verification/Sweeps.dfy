/** The cron sweeps over the bookings. Deadlines are rows, so ticks may be missed or
    repeated: what a booking looks like after a tick depends only on the last one. */
module Sweeps {
  import opened Wrappers
  import opened Bookings
  import opened CaseInvariants
  import opened CaseLaws
  import opened Database
  import opened Operations
  import opened Effects
  import opened Runs
  import opened Persistence
  import Transitions

  datatype Job = OverdueRequests | OverduePayments | PaymentReminders | DueCheckIns | DueCheckouts

  /** The order of one tick. */
  const JOBS: seq<Job> := [OverdueRequests, OverduePayments, PaymentReminders, DueCheckIns, DueCheckouts]

  const CHECKIN_OFFSET := 8 * HOUR
  const CHECKOUT_OFFSET := 4 * HOUR
  const PAY_REMINDER_LEAD := 2 * HOUR

  /** The rows a sweep selects. */
  predicate Due(job: Job, row: Booking, now: int) {
    match job
    case OverdueRequests => row.status.Requested? && row.timers.respondBy.Some? && row.timers.respondBy.value < now
    case OverduePayments => row.status.AwaitingPayment? && row.timers.payBy.Some? && row.timers.payBy.value < now
    case PaymentReminders =>
      && row.status.AwaitingPayment? && row.timers.remindedAt.None?
      && row.timers.payBy.Some? && now < row.timers.payBy.value <= now + PAY_REMINDER_LEAD
    case DueCheckIns => row.status.Confirmed? && row.terms.checkIn <= now - CHECKIN_OFFSET
    case DueCheckouts => row.status.CheckedIn? && row.terms.checkOut <= now - CHECKOUT_OFFSET
  }

  /** The transition a sweep calls for each of its rows. */
  function RowAction(job: Job, now: int): (a: CaseAction)
    ensures !HostFault(a)
  {
    match job
    case OverdueRequests => Expiring(now)
    case OverduePayments => Expiring(now)
    case PaymentReminders => Reminding(now)
    case DueCheckIns => CheckingIn
    case DueCheckouts => Completing
  }

  function RunJob(job: Job, c: Case, now: int): Case {
    if Due(job, c.row, now) then CaseStep(c, RowAction(job, now)) else c
  }

  /** One tick, as one booking sees it. */
  function Tick(c: Case, now: int): Case {
    var c1 := RunJob(OverdueRequests, c, now);
    var c2 := RunJob(OverduePayments, c1, now);
    var c3 := RunJob(PaymentReminders, c2, now);
    var c4 := RunJob(DueCheckIns, c3, now);
    RunJob(DueCheckouts, c4, now)
  }

  predicate OtherTablesSame(a: Db, b: Db) {
    a == b.(bookings := a.bookings, ledger := a.ledger, refunds := a.refunds, disputes := a.disputes,
            payouts := a.payouts)
  }

  /** One sweep took every booking from `before` to `after`, whatever order it took the
      rows in. */
  ghost predicate Swept(job: Job, before: Db, after: Db, now: int) {
    && after.bookings.Keys == before.bookings.Keys && OtherTablesSame(after, before)
    && forall id :: id in before.bookings ==> CaseOf(after, id) == RunJob(job, CaseOf(before, id), now)
  }

  ghost predicate Ticked(before: Db, after: Db, now: int) {
    && after.bookings.Keys == before.bookings.Keys && OtherTablesSame(after, before)
    && forall id :: id in before.bookings ==> CaseOf(after, id) == Tick(CaseOf(before, id), now)
  }

  // ---- The sweeps on the store ----

  /** Stamp the reminder if nobody has; the update selects unstamped rows only. */
  method StampReminder(s: Store, id: Id, now: int) returns (r: Outcome)
    modifies s
    ensures Commits(Act(old(s.Tables()), id, Reminding(now)), old(s.Tables()), s.Tables(), r)
  {
    if id !in s.bookings {
      return Failure(NotFound);
    }
    var row := s.bookings[id];
    s.Opens(id);
    if row.timers.remindedAt.None? {
      s.UpdateBooking(s.Tables(), id, CaseOf(s.Tables(), id), row.(timers := row.timers.(remindedAt := Some(now))));
    }
    r := Success(());
  }

  method RunRow(s: Store, job: Job, id: Id, now: int) returns (r: Outcome)
    modifies s
    ensures Commits(Act(old(s.Tables()), id, RowAction(job, now)), old(s.Tables()), s.Tables(), r)
  {
    match job {
      case OverdueRequests => r := Transitions.Expire(s, id, now);
      case OverduePayments => r := Transitions.Expire(s, id, now);
      case PaymentReminders => r := StampReminder(s, id, now);
      case DueCheckIns => r := Transitions.CheckIn(s, id);
      case DueCheckouts => r := Transitions.Complete(s, id);
    }
  }

  /** What one row's transition leaves for every booking. */
  lemma RowViews(db: Db, id: Id, a: CaseAction, after: Db, other: Id)
    requires id in db.bookings && other in db.bookings && !HostFault(a)
    requires after == match Act(db, id, a) { case Success(done) => done case Failure(_) => db }
    ensures after.bookings.Keys == db.bookings.Keys && OtherTablesSame(after, db)
    ensures CaseOf(after, other) == if other == id then CaseStep(CaseOf(db, id), a) else CaseOf(db, other)
  {
    if Act(db, id, a).Success? {
      ActShows(db, id, a, after);
      MoveViews(db, id, a, after, other);
    }
  }

  /** A due row's transition is never refused. */
  lemma DueSucceeds(job: Job, c: Case, now: int)
    requires CaseOk(c) && Due(job, c.row, now)
    ensures CaseNext(c, RowAction(job, now)).Success?
  {
  }

  function DueIds(job: Job, bookings: map<Id, Booking>, now: int): set<Id> {
    set id | id in bookings && Due(job, bookings[id], now)
  }

  /** A sweep underway: the rows in `left` are still as they were found, all others are
      as the sweep leaves them. */
  ghost predicate Underway(job: Job, before: Db, after: Db, left: set<Id>, now: int) {
    && after.bookings.Keys == before.bookings.Keys && OtherTablesSame(after, before)
    && forall id :: id in before.bookings ==>
         CaseOf(after, id) == if id in left then CaseOf(before, id) else RunJob(job, CaseOf(before, id), now)
  }

  lemma RowDone(job: Job, before: Db, db: Db, after: Db, left: set<Id>, id: Id, now: int)
    requires Underway(job, before, db, left, now) && id in left && left <= DueIds(job, before.bookings, now)
    requires after == match Act(db, id, RowAction(job, now)) { case Success(done) => done case Failure(_) => db }
    ensures Underway(job, before, after, left - {id}, now)
  {
    forall other | other in before.bookings
      ensures CaseOf(after, other) == if other in left - {id} then CaseOf(before, other)
                                      else RunJob(job, CaseOf(before, other), now)
    {
      RowViews(db, id, RowAction(job, now), after, other);
    }
    RowViews(db, id, RowAction(job, now), after, id);
  }

  lemma RowSucceeds(job: Job, before: Db, db: Db, left: set<Id>, id: Id, now: int)
    requires Underway(job, before, db, left, now) && id in left && left <= DueIds(job, before.bookings, now)
    ensures CasesOk(before) ==> Act(db, id, RowAction(job, now)).Success?
  {
    if CasesOk(before) {
      assert CaseOk(CaseOf(before, id));
      DueSucceeds(job, CaseOf(before, id), now);
    }
  }

  /** One row of the sweep, run through its transition. */
  lemma RowSwept(job: Job, before: Db, db: Db, after: Db, left: set<Id>, id: Id, now: int, r: Outcome)
    requires Underway(job, before, db, left, now) && id in left && left <= DueIds(job, before.bookings, now)
    requires Commits(Act(db, id, RowAction(job, now)), db, after, r)
    ensures Underway(job, before, after, left - {id}, now)
    ensures CasesOk(before) ==> r.Success?
  {
    RowSucceeds(job, before, db, left, id, now);
    RowDone(job, before, db, after, left, id, now);
  }

  /** One row: its transition, and what that leaves of the sweep. */
  method SweepRow(s: Store, job: Job, ghost before: Db, ghost left: set<Id>, id: Id, now: int) returns (r: Outcome)
    requires Underway(job, before, s.Tables(), left, now) && id in left && left <= DueIds(job, before.bookings, now)
    modifies s
    ensures Underway(job, before, s.Tables(), left - {id}, now)
    ensures CasesOk(before) ==> r.Success?
  {
    ghost var db := s.Tables();
    r := RunRow(s, job, id, now);
    RowSwept(job, before, db, s.Tables(), left, id, now, r);
  }

  lemma SweepBegins(job: Job, db: Db, now: int)
    ensures Underway(job, db, db, DueIds(job, db.bookings, now), now)
  {
  }

  lemma SweepEnds(job: Job, before: Db, after: Db, now: int)
    requires Underway(job, before, after, {}, now)
    ensures Swept(job, before, after, now)
  {
  }

  lemma OneLess(left: set<Id>, id: Id)
    requires id in left
    ensures |left - {id}| == |left| - 1
  {
  }

  /** Select the due rows, then run the transition on each in any order; a row that
      fails does not stop the others. Returns how many succeeded. */
  method Sweep(s: Store, job: Job, now: int) returns (done: nat)
    modifies s
    ensures Swept(job, old(s.Tables()), s.Tables(), now)
    ensures CasesOk(old(s.Tables())) ==> done == |DueIds(job, old(s.bookings), now)|
  {
    ghost var before := s.Tables();
    ghost var sound := CasesOk(before);
    var rows := DueIds(job, s.bookings, now);
    var left := rows;
    done := 0;
    SweepBegins(job, before, now);
    while left != {}
      invariant left <= rows
      invariant Underway(job, before, s.Tables(), left, now)
      invariant sound ==> done == |rows| - |left|
      decreases |left|
    {
      var id :| id in left;
      OneLess(left, id);
      var r := SweepRow(s, job, before, left, id, now);
      left := left - {id};
      if r.Success? {
        done := done + 1;
      }
    }
    SweepEnds(job, before, s.Tables(), now);
  }

  /** One tick: every sweep once, in order. */
  method RunSweeps(s: Store, now: int)
    modifies s
    ensures Ticked(old(s.Tables()), s.Tables(), now)
  {
    ghost var stages := [s.Tables()];
    for i := 0 to |JOBS|
      invariant |stages| == i + 1 && stages[0] == old(s.Tables()) && stages[i] == s.Tables()
      invariant forall k :: 0 <= k < i ==> Swept(JOBS[k], stages[k], stages[k + 1], now)
    {
      var done := Sweep(s, JOBS[i], now);
      stages := stages + [s.Tables()];
    }
    FiveSweeps(stages, now);
  }

  lemma FiveSweeps(stages: seq<Db>, now: int)
    requires |stages| == 6
    requires forall k :: 0 <= k < 5 ==> Swept(JOBS[k], stages[k], stages[k + 1], now)
    ensures Ticked(stages[0], stages[5], now)
  {
    assert Swept(JOBS[0], stages[0], stages[1], now);
    assert Swept(JOBS[1], stages[1], stages[2], now);
    assert Swept(JOBS[2], stages[2], stages[3], now);
    assert Swept(JOBS[3], stages[3], stages[4], now);
    assert Swept(JOBS[4], stages[4], stages[5], now);
    forall id | id in stages[0].bookings
      ensures CaseOf(stages[5], id) == Tick(CaseOf(stages[0], id), now)
    {
    }
  }

  // ---- Missed and repeated ticks ----

  /** Running the sweeps again at once changes nothing. */
  lemma TickTwice(c: Case, now: int)
    requires CaseOk(c)
    ensures Tick(Tick(c, now), now) == Tick(c, now)
  {
    match c.row.status
    case Requested => MissedTickWhileRequested(c, now, now);
    case AwaitingPayment =>
      TickWhileAwaiting(c, now);
      if Due(OverduePayments, c.row, now) {
        Idle(c.WithStatus(BookingStatus.Expired), now);
      } else {
        TickWhileAwaiting(Tick(c, now), now);
      }
    case Confirmed => MissedTickDuringStay(c, now, now);
    case CheckedIn => MissedTickDuringStay(c, now, now);
    case _ => Idle(c, now);
  }

  /** Equal but for the reminder stamp. */
  predicate SameButReminder(c: Case, d: Case) {
    c.(row := c.row.(timers := c.row.timers.(remindedAt := None)))
        == d.(row := d.row.(timers := d.row.timers.(remindedAt := None)))
  }

  lemma MissedTickWhileRequested(c: Case, earlier: int, now: int)
    requires earlier <= now && c.row.status.Requested?
    ensures Tick(Tick(c, earlier), now) == Tick(c, now)
  {
  }

  /** A booking awaiting payment expires, or at most gets its reminder stamp. */
  lemma TickWhileAwaiting(c: Case, now: int)
    requires c.row.status.AwaitingPayment?
    ensures Tick(c, now) == if Due(OverduePayments, c.row, now) then c.WithStatus(BookingStatus.Expired)
                            else if Due(PaymentReminders, c.row, now) then c.StampReminder(now) else c
  {
  }

  lemma MissedTickWhileAwaiting(c: Case, earlier: int, now: int)
    requires earlier <= now && c.row.status.AwaitingPayment?
    ensures SameButReminder(Tick(Tick(c, earlier), now), Tick(c, now))
  {
    TickWhileAwaiting(c, earlier);
    TickWhileAwaiting(c, now);
    if Due(OverduePayments, c.row, earlier) {
      Idle(c.WithStatus(BookingStatus.Expired), now);
    } else {
      TickWhileAwaiting(Tick(c, earlier), now);
    }
  }

  /** A stay is checked in and completed, one or both, and released if HELD. */
  lemma TickDuringStay(c: Case, now: int)
    requires c.row.status.Confirmed? || c.row.status.CheckedIn?
    ensures Tick(c, now)
            == var arrived := if Due(DueCheckIns, c.row, now) then c.WithStatus(CheckedIn) else c;
               RunJob(DueCheckouts, arrived, now)
  {
  }

  lemma CompletedIsIdle(c: Case, now: int)
    requires CaseOk(c) && c.row.status.CheckedIn? && Due(DueCheckouts, c.row, now)
    ensures RunJob(DueCheckouts, c, now).row.status.Completed?
  {
    CompleteAcceptedIff(c);
  }

  lemma MissedTickWhileStaying(c: Case, earlier: int, now: int)
    requires CaseOk(c) && earlier <= now && c.row.status.CheckedIn?
    ensures Tick(Tick(c, earlier), now) == Tick(c, now)
  {
    TickDuringStay(c, earlier);
    TickDuringStay(c, now);
    if Due(DueCheckouts, c.row, earlier) {
      CompletedIsIdle(c, earlier);
      Idle(Tick(c, earlier), now);
      DueForGood(c, earlier, now);
    }
  }

  /** A due check-out stays due, and what it does is not a matter of time. */
  lemma DueForGood(c: Case, earlier: int, now: int)
    requires earlier <= now && Due(DueCheckouts, c.row, earlier)
    ensures RunJob(DueCheckouts, c, earlier) == RunJob(DueCheckouts, c, now)
  {
  }

  lemma MissedTickDuringStay(c: Case, earlier: int, now: int)
    requires CaseOk(c) && earlier <= now && (c.row.status.Confirmed? || c.row.status.CheckedIn?)
    ensures Tick(Tick(c, earlier), now) == Tick(c, now)
  {
    TickDuringStay(c, earlier);
    TickDuringStay(c, now);
    if c.row.status.CheckedIn? {
      MissedTickWhileStaying(c, earlier, now);
    } else if Due(DueCheckIns, c.row, earlier) {
      var arrived := c.WithStatus(CheckedIn);
      TickDuringStay(arrived, earlier);
      TickDuringStay(arrived, now);
      MissedTickWhileStaying(arrived, earlier, now);
    }
  }

  /** A tick that was missed does not matter to any later one. */
  lemma MissedTick(c: Case, earlier: int, now: int)
    requires CaseOk(c) && earlier <= now
    ensures SameButReminder(Tick(Tick(c, earlier), now), Tick(c, now))
  {
    match c.row.status
    case Requested => MissedTickWhileRequested(c, earlier, now);
    case AwaitingPayment => MissedTickWhileAwaiting(c, earlier, now);
    case Confirmed => MissedTickDuringStay(c, earlier, now);
    case CheckedIn => MissedTickDuringStay(c, earlier, now);
    case _ => Idle(c, earlier); Idle(c, now);
  }

  lemma Idle(c: Case, now: int)
    requires !c.row.status.Requested? && !c.row.status.AwaitingPayment? && !c.row.status.Confirmed?
             && !c.row.status.CheckedIn?
    ensures Tick(c, now) == c
  {
  }

  /** For any number of bookings: two ticks leave every booking, its ledger, refund,
      dispute and payout as the later tick alone would, but for the reminder stamp;
      repeating a tick changes nothing at all. */
  lemma MissedTicksDoNotMatter(before: Db, middle: Db, after: Db, direct: Db, earlier: int, now: int, id: Id)
    requires CasesOk(before) && id in before.bookings && earlier <= now
    requires Ticked(before, middle, earlier) && Ticked(middle, after, now) && Ticked(before, direct, now)
    ensures SameButReminder(CaseOf(after, id), CaseOf(direct, id))
    ensures earlier == now ==> CaseOf(after, id) == CaseOf(direct, id)
  {
    assert CaseOk(CaseOf(before, id));
    MissedTick(CaseOf(before, id), earlier, now);
    if earlier == now {
      TickTwice(CaseOf(before, id), now);
    }
  }
}
