/** A tick cut short by a restart, after any of its jobs and any rows of the next one:
    the next full tick makes up for it. */
module PartialTicks {
  import opened Bookings
  import opened CaseInvariants
  import opened CaseLaws
  import opened Database
  import opened Runs
  import opened Sweeps

  /** The first jobs of a tick, as one booking sees them. */
  function TickUpTo(c: Case, jobs: nat, now: int): Case
    requires jobs <= |JOBS|
  {
    if jobs == 0 then c else RunJob(JOBS[jobs - 1], TickUpTo(c, jobs - 1, now), now)
  }

  lemma WholeTick(c: Case, now: int)
    ensures TickUpTo(c, |JOBS|, now) == Tick(c, now)
  {
    assert TickUpTo(c, 1, now) == RunJob(OverdueRequests, c, now);
    assert TickUpTo(c, 2, now) == RunJob(OverduePayments, TickUpTo(c, 1, now), now);
    assert TickUpTo(c, 3, now) == RunJob(PaymentReminders, TickUpTo(c, 2, now), now);
    assert TickUpTo(c, 4, now) == RunJob(DueCheckIns, TickUpTo(c, 3, now), now);
  }

  /** Every booking has gone through some of the tick's jobs, each through its own share. */
  ghost predicate CutShort(before: Db, after: Db, now: int) {
    && after.bookings.Keys == before.bookings.Keys && OtherTablesSame(after, before)
    && forall id :: id in before.bookings ==> PartOfTick(CaseOf(before, id), CaseOf(after, id), now)
  }

  ghost predicate PartOfTick(c: Case, c': Case, now: int) {
    exists jobs: nat :: jobs <= |JOBS| && c' == TickUpTo(c, jobs, now)
  }

  /** After the jobs in `stages`, all complete. */
  lemma {:induction false} JobsDone(stages: seq<Db>, now: int)
    requires 0 < |stages| <= |JOBS| + 1
    requires forall k :: 0 <= k < |stages| - 1 ==> Swept(JOBS[k], stages[k], stages[k + 1], now)
    ensures var first, last := stages[0], stages[|stages| - 1];
            && last.bookings.Keys == first.bookings.Keys && OtherTablesSame(last, first)
            && forall id :: id in first.bookings ==> CaseOf(last, id) == TickUpTo(CaseOf(first, id), |stages| - 1, now)
  {
    if |stages| > 1 {
      var front := stages[..|stages| - 1];
      forall k | 0 <= k < |front| - 1
        ensures Swept(JOBS[k], front[k], front[k + 1], now)
      {
        assert Swept(JOBS[k], stages[k], stages[k + 1], now);
      }
      JobsDone(front, now);
      assert Swept(JOBS[|stages| - 2], stages[|stages| - 2], stages[|stages| - 1], now);
    }
  }

  /** A store in which some jobs are complete and the next is underway, any of its rows
      done, has been cut short. */
  lemma CutInAJob(stages: seq<Db>, cut: Db, left: set<Id>, now: int)
    requires 0 < |stages| <= |JOBS|
    requires forall k :: 0 <= k < |stages| - 1 ==> Swept(JOBS[k], stages[k], stages[k + 1], now)
    requires Underway(JOBS[|stages| - 1], stages[|stages| - 1], cut, left, now)
    ensures CutShort(stages[0], cut, now)
  {
    JobsDone(stages, now);
    forall id | id in stages[0].bookings
      ensures PartOfTick(CaseOf(stages[0], id), CaseOf(cut, id), now)
    {
      var c := CaseOf(stages[0], id);
      assert CaseOf(cut, id) == TickUpTo(c, |stages| - 1, now) || CaseOf(cut, id) == TickUpTo(c, |stages|, now);
    }
  }

  // ---- What a cut leaves, and what the next tick makes of it ----

  /** Jobs that do not select a booking leave it alone. */
  lemma {:induction false} NotSelected(c: Case, jobs: nat, now: int)
    requires jobs <= |JOBS| && forall k :: 0 <= k < jobs ==> !Due(JOBS[k], c.row, now)
    ensures TickUpTo(c, jobs, now) == c
  {
    if jobs > 0 {
      NotSelected(c, jobs - 1, now);
    }
  }

  /** Nor do jobs that do not select what earlier ones left. */
  lemma {:induction false} NothingMore(c: Case, done: nat, jobs: nat, now: int)
    requires done <= jobs <= |JOBS|
    requires forall k :: done <= k < jobs ==> !Due(JOBS[k], TickUpTo(c, done, now).row, now)
    ensures TickUpTo(c, jobs, now) == TickUpTo(c, done, now)
  {
    if done < jobs {
      NothingMore(c, done, jobs - 1, now);
    }
  }

  /** A booking that is waiting stands as before the tick or after it. */
  lemma CutWhileRequested(c: Case, jobs: nat, now: int)
    requires jobs <= |JOBS| && c.row.status.Requested?
    ensures TickUpTo(c, jobs, now) == c || TickUpTo(c, jobs, now) == Tick(c, now)
  {
    if jobs > 0 {
      assert TickUpTo(c, 1, now) == RunJob(OverdueRequests, c, now);
      NothingMore(c, 1, jobs, now);
      NothingMore(c, 1, |JOBS|, now);
      WholeTick(c, now);
    }
  }

  lemma ReminderStays(c: Case, now: int)
    requires c.row.status.AwaitingPayment?
    ensures var part := RunJob(PaymentReminders, c, now);
            part.row.status.AwaitingPayment? && forall k :: 3 <= k < |JOBS| ==> !Due(JOBS[k], part.row, now)
  {
  }

  lemma CutWhileAwaiting(c: Case, jobs: nat, now: int)
    requires jobs <= |JOBS| && c.row.status.AwaitingPayment?
    ensures TickUpTo(c, jobs, now) == c || TickUpTo(c, jobs, now) == Tick(c, now)
  {
    WholeTick(c, now);
    if Due(OverduePayments, c.row, now) {
      CutWhenOverdue(c, jobs, now);
    } else {
      NotSelected(c, 2, now);
      ReminderStays(c, now);
      assert TickUpTo(c, 3, now) == RunJob(PaymentReminders, TickUpTo(c, 2, now), now);
      if jobs <= 2 {
        NotSelected(c, jobs, now);
      } else {
        NothingMore(c, 3, jobs, now);
        NothingMore(c, 3, |JOBS|, now);
      }
    }
  }

  lemma CutWhenOverdue(c: Case, jobs: nat, now: int)
    requires jobs <= |JOBS| && Due(OverduePayments, c.row, now)
    ensures TickUpTo(c, jobs, now) == c || TickUpTo(c, jobs, now) == Tick(c, now)
  {
    WholeTick(c, now);
    NotSelected(c, 1, now);
    assert TickUpTo(c, 2, now) == RunJob(OverduePayments, TickUpTo(c, 1, now), now);
    if jobs >= 2 {
      NothingMore(c, 2, jobs, now);
      NothingMore(c, 2, |JOBS|, now);
    } else {
      NotSelected(c, jobs, now);
    }
  }

  /** A stay may also have been checked in and not yet completed. */
  lemma CutDuringStay(c: Case, jobs: nat, now: int)
    requires jobs <= |JOBS| && (c.row.status.Confirmed? || c.row.status.CheckedIn?)
    ensures var part := TickUpTo(c, jobs, now);
            || part == c || part == Tick(c, now)
            || (Due(DueCheckIns, c.row, now) && part == c.WithStatus(CheckedIn))
  {
    WholeTick(c, now);
    if jobs <= 3 {
      NotSelected(c, jobs, now);
    } else {
      NotSelected(c, 3, now);
      assert TickUpTo(c, 4, now) == RunJob(DueCheckIns, TickUpTo(c, 3, now), now);
    }
  }

  lemma AfterTheCheckIn(c: Case, earlier: int, now: int)
    requires CaseOk(c) && earlier <= now && Due(DueCheckIns, c.row, earlier)
    ensures Tick(c.WithStatus(CheckedIn), now) == Tick(c, now)
  {
    CompleteAcceptedIff(c.WithStatus(CheckedIn));
  }

  lemma CutTick(c: Case, part: Case, earlier: int, now: int)
    requires CaseOk(c) && earlier <= now && PartOfTick(c, part, earlier)
    ensures SameButReminder(Tick(part, now), Tick(c, now))
  {
    var jobs: nat :| jobs <= |JOBS| && part == TickUpTo(c, jobs, earlier);
    MissedTick(c, earlier, now);
    match c.row.status
    case Requested => CutWhileRequested(c, jobs, earlier);
    case AwaitingPayment => CutWhileAwaiting(c, jobs, earlier);
    case Confirmed =>
      CutDuringStay(c, jobs, earlier);
      if Due(DueCheckIns, c.row, earlier) {
        AfterTheCheckIn(c, earlier, now);
      }
    case CheckedIn => CutDuringStay(c, jobs, earlier);
    case _ => NotSelected(c, jobs, earlier);
  }

  /** A tick cut short anywhere, then a full one: every booking, its ledger, refund, dispute
      and payout is as the full tick alone would leave it, but for the reminder stamp. */
  lemma CutTicksDoNotMatter(before: Db, middle: Db, after: Db, direct: Db, earlier: int, now: int, id: Id)
    requires CasesOk(before) && id in before.bookings && earlier <= now
    requires CutShort(before, middle, earlier) && Ticked(middle, after, now) && Ticked(before, direct, now)
    ensures SameButReminder(CaseOf(after, id), CaseOf(direct, id))
  {
    assert CaseOk(CaseOf(before, id));
    assert PartOfTick(CaseOf(before, id), CaseOf(middle, id), earlier);
    CutTick(CaseOf(before, id), CaseOf(middle, id), earlier, now);
  }
}
