/** A sender that nobody interrupts: the protocol then does what the one-step operations
    of `Operations` say. */
module RefundAlone {
  import opened Wrappers
  import opened Bookings
  import opened CaseInvariants
  import opened Database
  import opened Operations
  import opened Runs
  import opened RefundSending
  import opened RefundCounting
  import opened RefundRuns
  import opened RefundViews

  /** From the read of the row to the store, in one go. */
  function Sending(h: nat, answer: Option<Id>): seq<DeskStep> {
    [ReadRow(h)] + [FindPayment(h)] + [CallGateway(h, answer)] + [StoreId(h)]
  }

  lemma GoneStep(d: Desk, h: nat, step: DeskStep)
    requires h !in d.senders && OfOneSender(step) && step.h == h
    ensures Advance(d, step) == d
  {
  }

  lemma SendingUnfolds(d: Desk, h: nat, answer: Option<Id>)
    ensures DeskRun(d, Sending(h, answer))
            == Advance(Advance(Advance(Advance(d, ReadRow(h)), FindPayment(h)), CallGateway(h, answer)), StoreId(h))
  {
    OneStep(d, ReadRow(h));
    Snoc(d, [ReadRow(h)], FindPayment(h));
    Snoc(d, [ReadRow(h)] + [FindPayment(h)], CallGateway(h, answer));
    Snoc(d, [ReadRow(h)] + [FindPayment(h)] + [CallGateway(h, answer)], StoreId(h));
  }

  lemma GivesUp(d: Desk, h: nat, answer: Option<Id>)
    requires h !in d.senders
    ensures Advance(Advance(Advance(d, FindPayment(h)), CallGateway(h, answer)), StoreId(h)) == d
  {
    GoneStep(d, h, FindPayment(h));
    GoneStep(d, h, CallGateway(h, answer));
    GoneStep(d, h, StoreId(h));
  }

  /** Where the sender stops, and with what tables. */
  lemma StopsAtRead(d: Desk, h: nat, id: Id, answer: Option<Id>)
    requires h in d.senders && d.senders[h] == ToRead(id) && !Owed(d.db, id)
    ensures DeskRun(d, Sending(h, answer)) == Finish(d, h)
  {
    SendingUnfolds(d, h, answer);
    StopStep(d, h, ReadRow(h));
    GivesUp(Finish(d, h), h, answer);
  }

  /** A sender with nothing more to do. */
  lemma StopStep(d: Desk, h: nat, step: DeskStep)
    requires h in d.senders
    requires || (step == ReadRow(h) && d.senders[h].ToRead? && !Owed(d.db, d.senders[h].bookingId))
             || (step == FindPayment(h) && d.senders[h].ToPay? && !HasPaid(d.db, d.senders[h].bookingId))
             || (step == CallGateway(h, None) && d.senders[h].ToCall?)
    ensures Advance(d, step) == Finish(d, h)
  {
  }

  lemma StopsAtFind(d: Desk, h: nat, id: Id, answer: Option<Id>)
    requires h in d.senders && d.senders[h] == ToRead(id) && Owed(d.db, id) && !HasPaid(d.db, id)
    ensures DeskRun(d, Sending(h, answer)) == Finish(d, h)
  {
    var pay := Goto(d, h, ToPay(id, RowAmount(d.db, id)));
    SendingUnfolds(d, h, answer);
    ReadStep(d, h, id);
    StopStep(pay, h, FindPayment(h));
    GoneStep(Finish(pay, h), h, CallGateway(h, answer));
    GoneStep(Finish(pay, h), h, StoreId(h));
    assert Finish(pay, h) == Finish(d, h);
  }

  lemma ReachesTheCall(d: Desk, h: nat, id: Id)
    requires h in d.senders && d.senders[h] == ToRead(id) && Owed(d.db, id) && HasPaid(d.db, id)
    ensures Advance(Advance(d, ReadRow(h)), FindPayment(h)) == Goto(d, h, ToCall(id, RowAmount(d.db, id)))
  {
    var pay := Goto(d, h, ToPay(id, RowAmount(d.db, id)));
    ReadStep(d, h, id);
    FindStep(pay, h, id, RowAmount(d.db, id));
    assert Goto(pay, h, ToCall(id, RowAmount(d.db, id))) == Goto(d, h, ToCall(id, RowAmount(d.db, id)));
  }

  lemma StopsAtCall(d: Desk, h: nat, id: Id)
    requires h in d.senders && d.senders[h] == ToRead(id) && Owed(d.db, id) && HasPaid(d.db, id)
    ensures DeskRun(d, Sending(h, None)) == Finish(d, h)
  {
    var call := Goto(d, h, ToCall(id, RowAmount(d.db, id)));
    SendingUnfolds(d, h, None);
    ReachesTheCall(d, h, id);
    StopStep(call, h, CallGateway(h, None));
    GoneStep(Finish(call, h), h, StoreId(h));
    assert Finish(call, h) == Finish(d, h);
  }

  lemma GoesThrough(d: Desk, h: nat, id: Id, refundId: Id)
    requires h in d.senders && d.senders[h] == ToRead(id) && Owed(d.db, id) && HasPaid(d.db, id)
    ensures DeskRun(d, Sending(h, Some(refundId)))
            == Desk(StoredDb(d.db, id, refundId), d.senders - {h}, d.sent + [GatewayRefund(id, RowAmount(d.db, id))])
  {
    var amount := RowAmount(d.db, id);
    var call := Goto(d, h, ToCall(id, amount));
    SendingUnfolds(d, h, Some(refundId));
    ReachesTheCall(d, h, id);
    CallStep(call, h, id, amount, refundId);
    var store := Goto(call.(sent := call.sent + [GatewayRefund(id, amount)]), h, ToStore(id, amount, refundId));
    StoreStep(store, h, id, amount, refundId);
    assert store.senders - {h} == d.senders - {h};
  }

  lemma StoredPut(db: Db, id: Id, refundId: Id)
    requires id in db.bookings && Owed(db, id)
    ensures StoredDb(db, id, refundId) == Put(db, id, CaseOf(db, id).SendRefund(true, Some(refundId)))
  {
  }

  lemma NothingPut(db: Db, id: Id, paid: bool, answer: Option<Id>)
    requires id in db.bookings && (!Owed(db, id) || !paid || answer.None?)
    ensures Put(db, id, CaseOf(db, id).SendRefund(paid, answer)) == db
  {
    PutSame(db, id);
  }

  /** Left alone, a sender does what the one-step `SendRefund` says, and the guest is sent
      the row's amount exactly when an id is stored. */
  lemma SendingAlone(d: Desk, h: nat, id: Id, answer: Option<Id>)
    requires h in d.senders && d.senders[h] == ToRead(id) && id in d.db.bookings
    ensures var after := DeskRun(d, Sending(h, answer));
            var goes := Owed(d.db, id) && HasPaid(d.db, id) && answer.Some?;
            && after.db == Put(d.db, id, CaseOf(d.db, id).SendRefund(HasPaid(d.db, id), answer))
            && after.senders == d.senders - {h}
            && after.sent == d.sent + (if goes then [GatewayRefund(id, RowAmount(d.db, id))] else [])
  {
    if !Owed(d.db, id) {
      StopsAtRead(d, h, id, answer);
      NothingPut(d.db, id, HasPaid(d.db, id), answer);
    } else if !HasPaid(d.db, id) {
      StopsAtFind(d, h, id, answer);
      NothingPut(d.db, id, false, answer);
    } else if answer.None? {
      StopsAtCall(d, h, id);
      NothingPut(d.db, id, true, None);
    } else {
      GoesThrough(d, h, id, answer.value);
      StoredPut(d.db, id, answer.value);
    }
  }

  /** A finalization that nobody interrupts is the one-step operation. */
  lemma FinalizingAlone(d: Desk, h: nat, id: Id, answer: Option<Id>)
    requires h !in d.senders && id in d.db.bookings
    ensures DeskRun(d, [Gate(h, id)] + Sending(h, answer)).db == Step(d.db, FinalizingRefund(id, answer))
    ensures DeskRun(d, [Gate(h, id)] + Sending(h, answer)).senders == d.senders
  {
    OneStep(d, Gate(h, id));
    DeskRunConcat(d, [Gate(h, id)], Sending(h, answer));
    if GateOpen(d.db, id) {
      GateStep(d, h, id);
      SendingAlone(Goto(d, h, ToRead(id)), h, id, answer);
      FinalizeIsSend(d.db, id, answer);
    } else {
      GateShut(d, h, id, answer);
    }
  }

  lemma GateShut(d: Desk, h: nat, id: Id, answer: Option<Id>)
    requires h !in d.senders && id in d.db.bookings && !GateOpen(d.db, id)
    ensures Advance(d, Gate(h, id)) == d && DeskRun(d, Sending(h, answer)) == d
    ensures Step(d.db, FinalizingRefund(id, answer)) == d.db
  {
    SendingUnfolds(d, h, answer);
    GoneStep(d, h, ReadRow(h));
    GivesUp(d, h, answer);
    NextIsFinalize(d.db, id, answer);
  }

  /** A cancellation page that nobody interrupts cancels and then sends. */
  lemma CancellingAlone(d: Desk, h: nat, id: Id, a: DirectAction, answer: Option<Id>)
    requires h !in d.senders && id in d.db.bookings && CaseOk(CaseOf(d.db, id))
    requires (a.CancellingAsGuest? || a.CancellingAsHost?) && Act(d.db, id, a).Success?
    ensures DeskRun(d, [CancelPage(h, id, a)] + Sending(h, answer)).db
            == Step(Step(d.db, Acting(id, a)), SendingRefund(id, answer))
  {
    var cancelled := Act(d.db, id, a).value;
    OneStep(d, CancelPage(h, id, a));
    DeskRunConcat(d, [CancelPage(h, id, a)], Sending(h, answer));
    PageStep(d, h, id, a);
    CancelIsAStep(d.db, id, a);
    ActingTakes(d.db, id, a);
    CancelledCase(CaseOf(d.db, id), a, CaseNext(CaseOf(d.db, id), a).value);
    SendingAlone(Goto(d.(db := cancelled), h, ToRead(id)), h, id, answer);
    CancelledSends(cancelled, id, answer);
  }

  lemma PageStep(d: Desk, h: nat, id: Id, a: DirectAction)
    requires h !in d.senders && (a.CancellingAsGuest? || a.CancellingAsHost?) && Act(d.db, id, a).Success?
    ensures Advance(d, CancelPage(h, id, a)) == Goto(d.(db := Act(d.db, id, a).value), h, ToRead(id))
  {
  }

  lemma CancelledCase(c: Case, a: CaseAction, c': Case)
    requires CaseOk(c) && (a.CancellingAsGuest? || a.CancellingAsHost?) && CaseNext(c, a) == Success(c')
    ensures (c'.row.status.CancelledByGuest? || c'.row.status.CancelledByHost?) && c'.dispute.None?
  {
  }

  lemma CancelledSends(db: Db, id: Id, answer: Option<Id>)
    requires id in db.bookings && CaseOf(db, id).dispute.None?
    requires CaseOf(db, id).row.status.CancelledByGuest? || CaseOf(db, id).row.status.CancelledByHost?
    ensures Step(db, SendingRefund(id, answer)) == Put(db, id, CaseOf(db, id).SendRefund(HasPaid(db, id), answer))
  {
    assert Next(db, SendingRefund(id, answer)) == RefundCancelled(db, id, answer);
  }

  lemma FinalizeIsSend(db: Db, id: Id, answer: Option<Id>)
    requires id in db.bookings && GateOpen(db, id)
    ensures Step(db, FinalizingRefund(id, answer)) == Put(db, id, CaseOf(db, id).SendRefund(HasPaid(db, id), answer))
  {
    FinalizeSends(db, id, answer);
    NextIsFinalize(db, id, answer);
  }

  lemma FinalizeSends(db: Db, id: Id, answer: Option<Id>)
    requires id in db.bookings && GateOpen(db, id)
    ensures FinalizeRefund(db, id, answer) == Success(Put(db, id, CaseOf(db, id).SendRefund(HasPaid(db, id), answer)))
  {
  }

  lemma NextIsFinalize(db: Db, id: Id, answer: Option<Id>)
    ensures Next(db, FinalizingRefund(id, answer)) == FinalizeRefund(db, id, answer)
  {
  }
}
