/** The laws of a single case, carried over to every run of the whole application. */
module RunLaws {
  import opened Escrow
  import opened Bookings
  import opened CaseLaws
  import opened CaseHistories
  import opened DisputeRows
  import opened Database
  import opened Operations
  import opened Runs

  /** Conservation for every charged booking of every reachable database. */
  lemma MoneyIsConservedInEveryRun(actions: seq<Action>, id: Id)
    requires id in Run(EMPTY, actions).bookings && EntriesOf(Run(EMPTY, actions).ledger, id) != []
    ensures var db := Run(EMPTY, actions);
            var rows, total := EntriesOf(db.ledger, id), db.bookings[id].terms.total;
            && Fold(rows, Bucket.Received) == total
            && total == Fold(rows, Refunded) + Obligation(rows) + Fold(rows, PaidOut)
            && (id in db.refunds ==> db.refunds[id].amounts.refund == Fold(rows, Refunded))
            && (id !in db.refunds ==> Fold(rows, Refunded) == 0)
            && (id in db.payouts <==> Fold(rows, PaidOut) > 0)
  {
    EmptyIsOk();
    RunKeeps(EMPTY, actions);
    MoneyIsConserved(CaseOf(Run(EMPTY, actions), id));
  }

  /** Once the gateway's refund id is stored, the refund row of the booking never
      changes again, whatever happens to it and to every other booking, as long as no
      report freezes its money. */
  lemma SentRefundIsFixedInEveryRun(db: Db, actions: seq<Action>, id: Id)
    requires DbOk(db) && id in db.bookings && SentAndSettled(CaseOf(db, id))
    requires NoReportFreeze(CaseOf(db, id), Projected(db, actions, id))
    ensures Lookup(Run(db, actions).refunds, id) == Lookup(db.refunds, id)
  {
    RunProjects(db, actions, id);
    SentRefundIsFixed(CaseOf(db, id), Projected(db, actions, id));
  }

  /** In every run of the application a booking's dispute row tells the last decision taken
      on it and the percentage of the last partial one, and each side's stamp is that of its
      one accepted appeal. */
  lemma DisputeRowInEveryRun(actions: seq<Action>, id: Id, side: Side) returns (row: Booking)
    requires id in Run(EMPTY, actions).bookings
    ensures var c, history := CaseOf(Run(EMPTY, actions), id), Projected(EMPTY, actions, id);
            && Tells(c, LastDecision(NewCase(id, row), history), LastPct(NewCase(id, row), history))
            && AppealTimes(NewCase(id, row), history, side) == SideStamp(c, side)
            && |AppealTimes(NewCase(id, row), history, side)| <= 1
  {
    EmptyIsOk();
    row := RunProjectsFromCreation(EMPTY, actions, id);
    DisputeTellsTheLastDecision(NewCase(id, row), Projected(EMPTY, actions, id));
    OneAppealForEachSide(NewCase(id, row), Projected(EMPTY, actions, id), side);
  }
}
