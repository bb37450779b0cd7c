/** How often the refund protocol sends: exactly when two senders in flight can send
    twice, and the discipline under which nobody does. */
module RefundCounting {
  import opened Wrappers
  import opened Bookings
  import opened Database
  import opened Operations
  import opened RefundSending

  lemma GotoCount(senders: map<nat, Sender>, h: nat, p: Sender, id: Id)
    ensures |InFlight(senders[h := p], id)|
            == |InFlight(senders, id)| - (if h in InFlight(senders, id) then 1 else 0)
                + (if Carries(p, id) then 1 else 0)
  {
    var before := InFlight(senders, id);
    assert InFlight(senders[h := p], id) == if Carries(p, id) then (before - {h}) + {h} else before - {h};
  }

  lemma FinishCount(senders: map<nat, Sender>, h: nat, id: Id)
    ensures |InFlight(senders - {h}, id)| == |InFlight(senders, id)| - (if h in InFlight(senders, id) then 1 else 0)
  {
    assert InFlight(senders - {h}, id) == InFlight(senders, id) - {h};
  }

  lemma SentSnoc(sent: seq<GatewayRefund>, r: GatewayRefund, id: Id)
    ensures SentFor(sent + [r], id) == SentFor(sent, id) + (if r.bookingId == id then [r.amount] else [])
  {
    assert (sent + [r])[..|sent|] == sent;
  }

  /** Only a sender passing the null check adds to what may be sent. */
  lemma PotentialStep(d: Desk, step: DeskStep, id: Id)
    ensures Potential(Advance(d, step), id) <= Potential(d, id) + (if PassesNullCheck(d, step, id) then 1 else 0)
  {
    match step
    case Gate(h, other) => GotoCount(d.senders, h, ToRead(other), id);
    case CancelPage(h, other, _) => GotoCount(d.senders, h, ToRead(other), id);
    case Elsewhere(_) =>
    case Die(h) => FinishCount(d.senders, h, id);
    case _ => SenderPotential(d, step, id);
  }

  lemma SenderPotential(d: Desk, step: DeskStep, id: Id)
    requires step.ReadRow? || step.FindPayment? || step.CallGateway? || step.StoreId?
    ensures Potential(Advance(d, step), id) <= Potential(d, id) + (if PassesNullCheck(d, step, id) then 1 else 0)
  {
    var h := step.h;
    FinishCount(d.senders, h, id);
    if h in d.senders {
      var p := d.senders[h];
      match p
      case ToRead(other) => GotoCount(d.senders, h, ToPay(other, RowAmount(d.db, other)), id);
      case ToPay(other, amount) => GotoCount(d.senders, h, ToCall(other, amount), id);
      case ToCall(other, amount) =>
        if step.CallGateway? && step.answer.Some? {
          GotoCount(d.senders, h, ToStore(other, amount, step.answer.value), id);
          SentSnoc(d.sent, GatewayRefund(other, amount), id);
        }
      case ToStore(_, _, _) =>
    }
  }

  /** Nobody passes the null check for this booking anywhere in the run. */
  predicate NobodyPasses(d: Desk, steps: seq<DeskStep>, id: Id) {
    if steps == [] then true
    else
      var front := steps[..|steps| - 1];
      NobodyPasses(d, front, id) && !PassesNullCheck(DeskRun(d, front), steps[|steps| - 1], id)
  }

  /** Whoever passes the null check for this booking finds nobody between the check and
      the gateway, and nothing sent but not stored. */
  predicate OneAtATime(d: Desk, steps: seq<DeskStep>, id: Id) {
    if steps == [] then true
    else
      var front := steps[..|steps| - 1];
      && OneAtATime(d, front, id)
      && (PassesNullCheck(DeskRun(d, front), steps[|steps| - 1], id) ==> Potential(DeskRun(d, front), id) == 0)
  }

  lemma {:induction false} PotentialIsOne(steps: seq<DeskStep>, id: Id)
    requires OneAtATime(FRESH, steps, id)
    ensures Potential(DeskRun(FRESH, steps), id) <= 1
  {
    if steps == [] {
      assert InFlight(FRESH.senders, id) == {};
    } else {
      PotentialIsOne(steps[..|steps| - 1], id);
      PotentialStep(DeskRun(FRESH, steps[..|steps| - 1]), steps[|steps| - 1], id);
    }
  }

  /** Sender by sender, a refund is sent at most once, whatever else happens and whoever
      dies. */
  lemma SentAtMostOnce(steps: seq<DeskStep>, id: Id)
    requires OneAtATime(FRESH, steps, id)
    ensures |SentFor(DeskRun(FRESH, steps).sent, id)| <= 1
  {
    PotentialIsOne(steps, id);
  }

  // ---- The discipline is needed ----

  lemma {:induction false} DeskRunConcat(d: Desk, first: seq<DeskStep>, second: seq<DeskStep>)
    ensures DeskRun(d, first + second) == DeskRun(DeskRun(d, first), second)
  {
    if second == [] {
      assert first + second == first;
    } else {
      DeskRunConcat(d, first, second[..|second| - 1]);
      assert (first + second)[..|first + second| - 1] == first + second[..|second| - 1];
    }
  }

  lemma OneStep(d: Desk, step: DeskStep)
    ensures DeskRun(d, [step]) == Advance(d, step)
    ensures forall id :: NobodyPasses(d, [step], id) <==> !PassesNullCheck(d, step, id)
  {
    assert [step][..0] == [];
    assert DeskRun(d, [step][..0]) == d;
  }

  lemma {:induction false} NobodyPassesConcat(d: Desk, first: seq<DeskStep>, second: seq<DeskStep>, id: Id)
    requires NobodyPasses(d, first, id) && NobodyPasses(DeskRun(d, first), second, id)
    ensures NobodyPasses(d, first + second, id)
  {
    if second == [] {
      assert first + second == first;
    } else {
      var front := second[..|second| - 1];
      NobodyPassesConcat(d, first, front, id);
      DeskRunConcat(d, first, front);
      assert (first + second)[..|first + second| - 1] == first + front;
    }
  }

  lemma Then(d: Desk, steps: seq<DeskStep>, step: DeskStep, id: Id)
    requires NobodyPasses(d, steps, id) && !PassesNullCheck(DeskRun(d, steps), step, id)
    ensures NobodyPasses(d, steps + [step], id)
    ensures DeskRun(d, steps + [step]) == Advance(DeskRun(d, steps), step)
  {
    assert (steps + [step])[..|steps|] == steps;
  }

  lemma ElsewhereStep(d: Desk, action: Action)
    requires IsElsewhere(action)
    ensures Advance(d, Elsewhere(action)) == d.(db := Step(d.db, action))
  {
  }

  /** Two actions that give a booking a successful payment and touch nothing else. */
  function PaidBy(charge: Id, id: Id): seq<DeskStep> {
    [Elsewhere(AddingPayment(charge, id))] + [Elsewhere(MarkingPayment(charge, Successful))]
  }

  lemma PayingSteps(d: Desk, charge: Id, id: Id)
    requires id in d.db.bookings && charge !in d.db.payments
    ensures DeskRun(d, PaidBy(charge, id))
            == d.(db := d.db.(payments := d.db.payments[charge := Payment(id, Successful)]))
    ensures forall other :: NobodyPasses(d, PaidBy(charge, id), other)
  {
    var adding, marking := AddingPayment(charge, id), MarkingPayment(charge, Successful);
    var added := d.db.(payments := d.db.payments[charge := Payment(id, Pending)]);
    AddStep(d.db, charge, id);
    MarkStep(added, charge, id);
    ElsewhereStep(d, adding);
    ElsewhereStep(d.(db := added), marking);
    OneStep(d, Elsewhere(adding));
    forall other: Id
      ensures NobodyPasses(d, PaidBy(charge, id), other)
      ensures DeskRun(d, PaidBy(charge, id)) == Advance(d.(db := added), Elsewhere(marking))
    {
      Then(d, [Elsewhere(adding)], Elsewhere(marking), other);
    }
  }

  lemma AddStep(db: Db, charge: Id, id: Id)
    requires id in db.bookings && charge !in db.payments
    ensures Step(db, AddingPayment(charge, id)) == db.(payments := db.payments[charge := Payment(id, Pending)])
  {
    assert Next(db, AddingPayment(charge, id)) == AddPayment(db, charge, id);
  }

  lemma MarkStep(db: Db, charge: Id, id: Id)
    requires charge in db.payments && db.payments[charge].bookingId == id
    ensures Step(db, MarkingPayment(charge, Successful))
            == db.(payments := db.payments[charge := Payment(id, Successful)])
  {
    assert Next(db, MarkingPayment(charge, Successful)) == Success(MarkPayment(db, charge, Successful));
  }

  /** The same tables but for the payments. */
  predicate SameButPayments(a: Db, b: Db) {
    a == b.(payments := a.payments)
  }

  lemma CallStep(d: Desk, h: nat, id: Id, amount: int, refundId: Id)
    requires h in d.senders && d.senders[h] == ToCall(id, amount)
    ensures Advance(d, CallGateway(h, Some(refundId)))
            == Goto(d.(sent := d.sent + [GatewayRefund(id, amount)]), h, ToStore(id, amount, refundId))
  {
  }

  lemma FindStep(d: Desk, h: nat, id: Id, amount: int)
    requires h in d.senders && d.senders[h] == ToPay(id, amount) && HasPaid(d.db, id)
    ensures Advance(d, FindPayment(h)) == Goto(d, h, ToCall(id, amount))
  {
  }

  lemma Snoc(d: Desk, steps: seq<DeskStep>, step: DeskStep)
    ensures DeskRun(d, steps + [step]) == Advance(DeskRun(d, steps), step)
  {
    assert (steps + [step])[..|steps|] == steps;
  }

  lemma GateStep(d: Desk, h: nat, id: Id)
    requires h !in d.senders && GateOpen(d.db, id)
    ensures Advance(d, Gate(h, id)) == Goto(d, h, ToRead(id))
  {
  }

  lemma ReadStep(d: Desk, h: nat, id: Id)
    requires h in d.senders && d.senders[h] == ToRead(id) && Owed(d.db, id)
    ensures Advance(d, ReadRow(h)) == Goto(d, h, ToPay(id, RowAmount(d.db, id)))
  {
  }

  lemma StoreStep(d: Desk, h: nat, id: Id, amount: int, refund: Id)
    requires h in d.senders && d.senders[h] == ToStore(id, amount, refund)
    ensures Advance(d, StoreId(h)) == Finish(d.(db := StoredDb(d.db, id, refund)), h)
  {
  }

  /** A sender in flight can be brought to the gateway without anyone else's doing. */
  lemma Arrive(d: Desk, h: nat, id: Id, amount: int) returns (steps: seq<DeskStep>, after: Desk)
    requires h in d.senders && d.senders[h] == ToPay(id, amount) && id in d.db.bookings
    ensures NobodyPasses(d, steps, id) && after == DeskRun(d, steps)
    ensures after.senders == d.senders[h := ToCall(id, amount)] && after.sent == d.sent
            && SameButPayments(after.db, d.db)
  {
    var charge := FreshKey(d.db.payments.Keys);
    PayingSteps(d, charge, id);
    var paid := DeskRun(d, PaidBy(charge, id));
    assert paid.db.payments[charge] == Payment(id, Successful);
    steps := PaidBy(charge, id) + [FindPayment(h)];
    FindStep(paid, h, id, amount);
    Then(d, PaidBy(charge, id), FindPayment(h), id);
    after := DeskRun(d, steps);
  }

  /** And through it. */
  lemma Fire(d: Desk, h: nat, id: Id) returns (steps: seq<DeskStep>, after: Desk)
    requires h in InFlight(d.senders, id) && id in d.db.bookings
    ensures NobodyPasses(d, steps, id) && after == DeskRun(d, steps)
    ensures SentFor(after.sent, id) == SentFor(d.sent, id) + [d.senders[h].amount]
    ensures InFlight(after.senders, id) == InFlight(d.senders, id) - {h} && SameButPayments(after.db, d.db)
  {
    var amount := d.senders[h].amount;
    steps, after := [], d;
    if d.senders[h].ToPay? {
      steps, after := Arrive(d, h, id, amount);
    }
    CallStep(after, h, id, amount, 0);
    SentSnoc(after.sent, GatewayRefund(id, amount), id);
    Then(d, steps, CallGateway(h, Some(0)), id);
    steps := steps + [CallGateway(h, Some(0))];
    after := DeskRun(d, steps);
  }

  /** All senders in flight can send. */
  lemma {:induction false} Drain(d: Desk, id: Id) returns (steps: seq<DeskStep>)
    requires id in d.db.bookings
    ensures NobodyPasses(d, steps, id) && |SentFor(DeskRun(d, steps).sent, id)| == Potential(d, id)
    decreases |InFlight(d.senders, id)|
  {
    steps := [];
    if InFlight(d.senders, id) != {} {
      var h :| h in InFlight(d.senders, id);
      var first, after := Fire(d, h, id);
      var rest := Drain(after, id);
      steps := first + rest;
      DeskRunConcat(d, first, rest);
      NobodyPassesConcat(d, first, rest, id);
    }
  }

  lemma {:induction false} PotentialNeverGrows(d: Desk, steps: seq<DeskStep>, id: Id)
    requires NobodyPasses(d, steps, id)
    ensures Potential(DeskRun(d, steps), id) <= Potential(d, id)
  {
    if steps != [] {
      PotentialNeverGrows(d, steps[..|steps| - 1], id);
      PotentialStep(DeskRun(d, steps[..|steps| - 1]), steps[|steps| - 1], id);
    }
  }

  /** Without anyone else passing the null check, the guest can be sent the refund twice
      exactly when the refunds made and the senders already in flight are two or more. */
  lemma MaySendTwiceIff(d: Desk, id: Id)
    requires id in d.db.bookings
    ensures (exists steps :: NobodyPasses(d, steps, id) && |SentFor(DeskRun(d, steps).sent, id)| >= 2)
            <==> Potential(d, id) >= 2
  {
    if Potential(d, id) >= 2 {
      var steps := Drain(d, id);
    } else {
      forall steps | NobodyPasses(d, steps, id)
        ensures |SentFor(DeskRun(d, steps).sent, id)| < 2
      {
        PotentialNeverGrows(d, steps, id);
      }
    }
  }
}
