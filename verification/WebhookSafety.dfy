/** Safety of the webhook protocol over every interleaving: a booking is charged once,
    its charge is never refunded as stranded, and any other charge is refunded at most
    once, with every claimed refund accounted for. */
module WebhookSafety {
  import opened Wrappers
  import opened Bookings
  import opened CaseInvariants
  import opened Database
  import opened Operations
  import opened Effects
  import opened Runs
  import opened Webhook

  // ---- What never comes back ----

  predicate Opened(db: Db, id: Id) {
    id in db.bookings && !db.bookings[id].status.Requested?
  }

  /** The booking has left AWAITING_PAYMENT for good. */
  predicate Past(db: Db, id: Id) {
    Opened(db, id) && !db.bookings[id].status.AwaitingPayment?
  }

  /** The booking's ledger starts with the charge that this event reported. */
  predicate ChargedBy(db: Db, id: Id, event: Id) {
    id in db.bookings && EntriesOf(db.ledger, id) != [] && EntriesOf(db.ledger, id)[0].causeRef == Some(event)
  }

  /** Every ledger starts with a claimed event. */
  predicate FirstRowClaimed(db: Db, id: Id) {
    id in db.bookings && EntriesOf(db.ledger, id) != [] ==>
      var first := EntriesOf(db.ledger, id)[0].causeRef;
      first.Some? && first.value in db.events
  }

  /** The charge row comes first, and only a confirmation writes it. */
  lemma FirstRowIsTheCharge(c: Case, a: CaseAction, c': Case)
    requires CaseOk(c) && CaseNext(c, a) == Success(c')
    ensures a.Confirming? ==> c.entries == [] && c'.entries != [] && c'.entries[0].causeRef == Some(a.event)
    ensures !a.Confirming? && c.entries == [] ==> c'.entries == []
  {
  }

  lemma StatusNeverReturns(c: Case, a: CaseAction, c': Case)
    requires CaseNext(c, a) == Success(c')
    ensures !c.row.status.Requested? ==> !c'.row.status.Requested?
    ensures !c.row.status.Requested? && !c.row.status.AwaitingPayment? ==> !c'.row.status.AwaitingPayment?
  {
  }

  /** What holds of a booking for good: from `a` to `b`. */
  predicate Onward(a: Db, b: Db, id: Id) {
    && (Opened(a, id) ==> Opened(b, id))
    && (Past(a, id) ==> Past(b, id))
    && (id in a.bookings ==> id in b.bookings && EntriesOf(a.ledger, id) <= EntriesOf(b.ledger, id))
  }

  lemma EffectIsOnward(db: Db, effect: Effect, after: Db, id: Id)
    requires RowsOk(db) && Shows(db, effect, after)
    ensures Onward(db, after, id)
  {
    if id in db.bookings {
      match effect
      case Aside => SameCasesSameView(after, db, id);
      case Creates(other, row) => CreateViews(db, other, row, after, id);
      case Moves(other, a) =>
        MoveViews(db, other, a, after, id);
        if other == id {
          StatusNeverReturns(CaseOf(db, id), a, CaseOf(after, id));
        }
    }
  }

  lemma EffectKeepsFirstRows(db: Db, effect: Effect, after: Db, id: Id)
    requires DbOk(db) && Shows(db, effect, after) && db.events <= after.events
    requires effect.Moves? && effect.a.Confirming? ==> effect.a.event in after.events
    requires FirstRowClaimed(db, id)
    ensures FirstRowClaimed(after, id)
  {
    match effect
    case Aside =>
    case Creates(other, row) =>
      if id in db.bookings || id == other {
        CreateViews(db, other, row, after, id);
      }
    case Moves(other, a) =>
      if id in db.bookings {
        MoveViews(db, other, a, after, id);
        if other == id {
          FirstRowIsTheCharge(CaseOf(db, id), a, CaseOf(after, id));
        }
      } else {
        MoveViews(db, other, a, after, other);
      }
  }

  // ---- The invariant ----

  /** Paid, not recorded, and too late to be recorded. */
  predicate Stranded(sys: Sys, charge: Id) {
    && charge in sys.charges && sys.charges[charge].state.ChargeSuccessful?
    && sys.charges[charge].event !in sys.db.events && Past(sys.db, sys.charges[charge].bookingId)
  }

  /** The status a handler is about to write is what the gateway said. */
  predicate MayMark(db: Db, c: GatewayCharge, status: PaymentStatus) {
    match status
    case Successful => c.event in db.events
    case Failed => c.state.ChargeFailed?
    case Lapsed => c.state.ChargeExpired?
    case _ => false
  }

  predicate HandlerOk(sys: Sys, p: Handler) {
    match p
    case Arrived(event, charge) => charge in sys.charges && event == sys.charges[charge].event
    case ToConfirm(event, charge, id) =>
        charge in sys.charges && sys.charges[charge] == GatewayCharge(id, event, ChargeSuccessful)
    case ToMark(charge, status) => charge in sys.charges && MayMark(sys.db, sys.charges[charge], status)
    case ToClaim(charge) => Stranded(sys, charge)
    case ToRefund(charge) => Stranded(sys, charge)
    case ToRollBack(charge) => Stranded(sys, charge)
    case ToCreate(id, _) => Opened(sys.db, id)
    case ToRecord(charge, id) => charge in sys.charges && sys.charges[charge].bookingId == id
  }

  /** A charge of an opened booking; once its event is claimed, it is the one in the
      booking's ledger. */
  predicate ChargeOk(db: Db, c: GatewayCharge) {
    Opened(db, c.bookingId)
        && (c.event in db.events ==> c.state.ChargeSuccessful? && ChargedBy(db, c.bookingId, c.event))
  }

  predicate RowRefunded(db: Db, charge: Id) {
    charge in db.payments && db.payments[charge].status.RefundedPayment?
  }

  /** The handlers that have claimed the charge's refund and not finished with it. */
  function ClaimHolders(handlers: map<nat, Handler>, charge: Id): set<nat> {
    set h | h in handlers && HoldsClaim(handlers[h], charge)
  }

  /** Every claim is accounted for: a REFUNDED row stands for exactly one refund made,
      one handler still at it, or one claim lost with a handler that died. */
  predicate Accounted(sys: Sys, charge: Id) {
    Refunds(sys, charge) + |ClaimHolders(sys.handlers, charge)| + (if charge in sys.lost then 1 else 0)
    == if RowRefunded(sys.db, charge) then 1 else 0
  }

  /** The charge's claims are accounted for, and its row says REFUNDED only if it is
      stranded. */
  predicate RefundOk(sys: Sys, charge: Id) {
    Accounted(sys, charge) && (RowRefunded(sys.db, charge) ==> Stranded(sys, charge))
  }

  ghost predicate DistinctEvents(charges: map<Id, GatewayCharge>) {
    forall a, b :: a in charges && b in charges && charges[a].event == charges[b].event ==> a == b
  }

  ghost predicate ChargesOk(sys: Sys) {
    && DistinctEvents(sys.charges)
    && (forall e :: e in sys.db.events ==> EventInUse(sys.charges, e))
    && (forall c :: c in sys.charges ==> ChargeOk(sys.db, sys.charges[c]))
  }

  ghost predicate HandlersOk(sys: Sys) {
    forall h :: h in sys.handlers ==> HandlerOk(sys, sys.handlers[h])
  }

  ghost predicate RefundsOk(sys: Sys) {
    forall c :: RefundOk(sys, c)
  }

  ghost predicate LedgersOk(db: Db) {
    DbOk(db) && forall id :: FirstRowClaimed(db, id)
  }

  ghost predicate Inv(sys: Sys) {
    LedgersOk(sys.db) && ChargesOk(sys) && HandlersOk(sys) && RefundsOk(sys)
  }

  // ---- Counting claims ----

  lemma GotoCount(handlers: map<nat, Handler>, h: nat, p: Handler, charge: Id)
    ensures |ClaimHolders(handlers[h := p], charge)|
            == |ClaimHolders(handlers, charge)| - (if h in ClaimHolders(handlers, charge) then 1 else 0)
                + (if HoldsClaim(p, charge) then 1 else 0)
  {
    var before := ClaimHolders(handlers, charge);
    assert ClaimHolders(handlers[h := p], charge) == if HoldsClaim(p, charge) then (before - {h}) + {h}
                                                     else before - {h};
  }

  lemma FinishCount(handlers: map<nat, Handler>, h: nat, charge: Id)
    ensures |ClaimHolders(handlers - {h}, charge)|
            == |ClaimHolders(handlers, charge)| - (if h in ClaimHolders(handlers, charge) then 1 else 0)
  {
    assert ClaimHolders(handlers - {h}, charge) == ClaimHolders(handlers, charge) - {h};
  }

  // ---- Steps that leave the bookings alone ----

  predicate SameBut(a: Db, b: Db) {
    SameCases(a, b) && a.events == b.events
  }

  lemma DbStaysOk(a: Db, b: Db)
    requires LedgersOk(a) && SameBut(b, a)
    ensures LedgersOk(b)
  {
    forall id | id in b.bookings
      ensures CaseOk(CaseOf(b, id))
    {
      SameCasesSameView(b, a, id);
    }
    forall id: Id
      ensures FirstRowClaimed(b, id)
    {
      assert FirstRowClaimed(a, id);
    }
  }

  lemma HandlerStays(sys: Sys, after: Sys, p: Handler)
    requires SameBut(after.db, sys.db) && after.charges == sys.charges
    ensures HandlerOk(after, p) == HandlerOk(sys, p)
  {
  }

  lemma ChargesStay(sys: Sys, after: Sys)
    requires ChargesOk(sys) && SameBut(after.db, sys.db) && after.charges == sys.charges
    ensures ChargesOk(after)
  {
  }

  /** One handler moved, payments or refunds may have been written, and the accounts
      still balance. */
  ghost predicate HandlerMove(sys: Sys, after: Sys, h: nat) {
    && SameBut(after.db, sys.db) && after.charges == sys.charges
    && (forall k :: k in after.handlers && k != h ==> k in sys.handlers && after.handlers[k] == sys.handlers[k])
    && (h in after.handlers ==> HandlerOk(sys, after.handlers[h]))
    && (forall c :: Accounted(after, c) && (RowRefunded(after.db, c) ==> Stranded(sys, c)))
  }

  lemma HandlerMoved(sys: Sys, after: Sys, h: nat)
    requires Inv(sys) && HandlerMove(sys, after, h)
    ensures Inv(after)
  {
    DbStaysOk(sys.db, after.db);
    ChargesStay(sys, after);
    forall k | k in after.handlers
      ensures HandlerOk(after, after.handlers[k])
    {
      HandlerStays(sys, after, after.handlers[k]);
      assert k != h ==> HandlerOk(sys, sys.handlers[k]);
    }
    forall c: Id
      ensures RefundOk(after, c)
    {
      HandlerStays(sys, after, ToClaim(c));
    }
  }

  predicate KeepsClaims(sys: Sys, h: nat) {
    h in sys.handlers ==> !sys.handlers[h].ToRefund? && !sys.handlers[h].ToRollBack?
  }

  lemma GotoAccounts(sys: Sys, h: nat, p: Handler, charge: Id)
    requires RefundOk(sys, charge) && KeepsClaims(sys, h) && !p.ToRefund? && !p.ToRollBack?
    ensures Accounted(Goto(sys, h, p), charge)
  {
    GotoCount(sys.handlers, h, p, charge);
  }

  lemma GotoMoves(sys: Sys, h: nat, p: Handler)
    requires RefundsOk(sys) && KeepsClaims(sys, h) && HandlerOk(sys, p) && !p.ToRefund? && !p.ToRollBack?
    ensures HandlerMove(sys, Goto(sys, h, p), h)
  {
    forall c: Id
      ensures Accounted(Goto(sys, h, p), c) && (RowRefunded(sys.db, c) ==> Stranded(sys, c))
    {
      assert RefundOk(sys, c);
      GotoAccounts(sys, h, p, c);
    }
  }

  lemma GotoKeeps(sys: Sys, h: nat, p: Handler)
    requires Inv(sys) && KeepsClaims(sys, h) && HandlerOk(sys, p) && !p.ToRefund? && !p.ToRollBack?
    ensures Inv(Goto(sys, h, p))
  {
    GotoMoves(sys, h, p);
    HandlerMoved(sys, Goto(sys, h, p), h);
  }

  /** Writing a payment that was not and does not become REFUNDED. */
  lemma PaymentMove(sys: Sys, db: Db, h: nat)
    requires RefundsOk(sys) && KeepsClaims(sys, h) && SameBut(db, sys.db)
    requires forall c :: RowRefunded(db, c) == RowRefunded(sys.db, c)
    ensures HandlerMove(sys, Finish(sys.(db := db), h), h)
  {
    var after := Finish(sys.(db := db), h);
    forall c: Id
      ensures Accounted(after, c) && (RowRefunded(db, c) ==> Stranded(sys, c))
    {
      assert RefundOk(sys, c);
      FinishCount(sys.handlers, h, c);
    }
  }

  lemma PaymentKeeps(sys: Sys, db: Db, h: nat)
    requires Inv(sys) && KeepsClaims(sys, h) && SameBut(db, sys.db)
    requires forall c :: RowRefunded(db, c) == RowRefunded(sys.db, c)
    ensures Inv(Finish(sys.(db := db), h))
  {
    PaymentMove(sys, db, h);
    HandlerMoved(sys, Finish(sys.(db := db), h), h);
  }

  lemma FinishKeeps(sys: Sys, h: nat)
    requires Inv(sys) && KeepsClaims(sys, h)
    ensures Inv(Finish(sys, h))
  {
    PaymentKeeps(sys, sys.db, h);
  }

  lemma FetchKeeps(sys: Sys, h: nat, event: Id, charge: Id)
    requires Inv(sys) && h in sys.handlers && sys.handlers[h] == Arrived(event, charge)
    ensures Inv(AfterFetch(sys, h, event, charge))
  {
    assert HandlerOk(sys, sys.handlers[h]);
    match sys.charges[charge].state
    case ChargeSuccessful => GotoKeeps(sys, h, ToConfirm(event, charge, sys.charges[charge].bookingId));
    case ChargeFailed => GotoKeeps(sys, h, ToMark(charge, PaymentStatus.Failed));
    case ChargeExpired => GotoKeeps(sys, h, ToMark(charge, Lapsed));
    case ChargePending => FinishKeeps(sys, h);
  }

  /** A charge about to be marked is not stranded, so its row is not REFUNDED. */
  lemma MarkedIsNotStranded(sys: Sys, p: Handler)
    requires ChargesOk(sys) && p.ToMark? && HandlerOk(sys, p)
    ensures !Stranded(sys, p.charge) && !p.status.RefundedPayment?
  {
  }

  lemma MarkLeavesRefunded(sys: Sys, charge: Id, status: PaymentStatus, c: Id)
    requires !RowRefunded(sys.db, charge) && !status.RefundedPayment?
    ensures RowRefunded(MarkPayment(sys.db, charge, status), c) == RowRefunded(sys.db, c)
  {
  }

  lemma MarkLeavesAllRefunded(sys: Sys, p: Handler)
    requires ChargesOk(sys) && RefundsOk(sys) && p.ToMark? && HandlerOk(sys, p)
    ensures forall c :: RowRefunded(MarkPayment(sys.db, p.charge, p.status), c) == RowRefunded(sys.db, c)
  {
    MarkedIsNotStranded(sys, p);
    assert RefundOk(sys, p.charge);
    forall c: Id
      ensures RowRefunded(MarkPayment(sys.db, p.charge, p.status), c) == RowRefunded(sys.db, c)
    {
      MarkLeavesRefunded(sys, p.charge, p.status, c);
    }
  }

  lemma MarkMove(sys: Sys, h: nat, p: Handler)
    requires ChargesOk(sys) && HandlersOk(sys) && RefundsOk(sys) && h in sys.handlers && sys.handlers[h] == p
             && p.ToMark?
    ensures HandlerMove(sys, AfterMark(sys, h, p), h)
  {
    MarkLeavesAllRefunded(sys, p);
    PaymentMove(sys, MarkPayment(sys.db, p.charge, p.status), h);
  }

  lemma MarkKeepsInv(sys: Sys, h: nat, p: Handler)
    requires Inv(sys) && h in sys.handlers && sys.handlers[h] == p && p.ToMark?
    ensures Inv(AfterMark(sys, h, p))
  {
    MarkMove(sys, h, p);
    HandlerMoved(sys, AfterMark(sys, h, p), h);
  }

  lemma RecordKeeps(sys: Sys, h: nat, p: Handler)
    requires Inv(sys) && h in sys.handlers && sys.handlers[h] == p && p.ToRecord?
    ensures Inv(AfterRecord(sys, h, p))
  {
    match AddPayment(sys.db, p.charge, p.bookingId)
    case Success(db) => PaymentKeeps(sys, db, h);
    case Failure(_) => FinishKeeps(sys, h);
  }

  // ---- Claims ----

  lemma ClaimAccounts(sys: Sys, h: nat, charge: Id, c: Id)
    requires RefundOk(sys, c) && Stranded(sys, charge) && h in sys.handlers && sys.handlers[h] == ToClaim(charge)
    requires charge in sys.db.payments && sys.db.payments[charge].status.Pending?
    ensures var after := AfterClaim(sys, h, charge);
            Accounted(after, c) && (RowRefunded(after.db, c) ==> Stranded(sys, c))
  {
    GotoCount(sys.handlers, h, ToRefund(charge), c);
  }

  lemma ClaimMove(sys: Sys, h: nat, charge: Id)
    requires HandlersOk(sys) && RefundsOk(sys) && h in sys.handlers && sys.handlers[h] == ToClaim(charge)
    requires charge in sys.db.payments && sys.db.payments[charge].status.Pending?
    ensures HandlerMove(sys, AfterClaim(sys, h, charge), h)
  {
    var after := AfterClaim(sys, h, charge);
    assert HandlerOk(sys, sys.handlers[h]);
    forall c: Id
      ensures Accounted(after, c) && (RowRefunded(after.db, c) ==> Stranded(sys, c))
    {
      assert RefundOk(sys, c);
      ClaimAccounts(sys, h, charge, c);
    }
  }

  lemma ClaimKeeps(sys: Sys, h: nat, charge: Id)
    requires Inv(sys) && h in sys.handlers && sys.handlers[h] == ToClaim(charge)
    ensures Inv(AfterClaim(sys, h, charge))
  {
    if charge in sys.db.payments && sys.db.payments[charge].status.Pending? {
      ClaimMove(sys, h, charge);
      HandlerMoved(sys, AfterClaim(sys, h, charge), h);
    } else {
      FinishKeeps(sys, h);
    }
  }

  /** A held claim is the only one, and its row says REFUNDED. */
  lemma HeldClaim(sys: Sys, h: nat, charge: Id)
    requires Accounted(sys, charge) && h in sys.handlers && HoldsClaim(sys.handlers[h], charge)
    ensures RowRefunded(sys.db, charge) && Refunds(sys, charge) == 0 && charge !in sys.lost
    ensures ClaimHolders(sys.handlers, charge) == {h}
  {
    var holders := ClaimHolders(sys.handlers, charge);
    assert h in holders;
    assert |holders - {h}| == |holders| - 1;
  }

  /** A handler holding the claim is the claim: whatever it does next, refund, roll
      back or die, passes the claim on to exactly one account. */
  lemma HolderAccounts(sys: Sys, h: nat, charge: Id, after: Sys, c: Id)
    requires RefundOk(sys, c) && RefundOk(sys, charge) && h in sys.handlers && HoldsClaim(sys.handlers[h], charge)
    requires || after == AfterGateway(sys, h, charge, true)
             || after == AfterGateway(sys, h, charge, false)
             || after == AfterRollBack(sys, h, charge)
             || after == AfterCrash(sys, h, sys.handlers[h])
    ensures Accounted(after, c) && (RowRefunded(after.db, c) ==> Stranded(sys, c))
  {
    HeldClaim(sys, h, charge);
    FinishCount(sys.handlers, h, c);
    GotoCount(sys.handlers, h, ToRollBack(charge), c);
  }

  lemma HolderMove(sys: Sys, h: nat, charge: Id, after: Sys)
    requires HandlersOk(sys) && RefundsOk(sys) && h in sys.handlers && HoldsClaim(sys.handlers[h], charge)
    requires || after == AfterGateway(sys, h, charge, true)
             || after == AfterGateway(sys, h, charge, false)
             || after == AfterRollBack(sys, h, charge)
             || after == AfterCrash(sys, h, sys.handlers[h])
    ensures HandlerMove(sys, after, h)
  {
    assert HandlerOk(sys, sys.handlers[h]) && RefundOk(sys, charge);
    forall c: Id
      ensures Accounted(after, c) && (RowRefunded(after.db, c) ==> Stranded(sys, c))
    {
      assert RefundOk(sys, c);
      HolderAccounts(sys, h, charge, after, c);
    }
  }

  lemma HolderKeeps(sys: Sys, h: nat, charge: Id, after: Sys)
    requires Inv(sys) && h in sys.handlers && HoldsClaim(sys.handlers[h], charge)
    requires || after == AfterGateway(sys, h, charge, true)
             || after == AfterGateway(sys, h, charge, false)
             || after == AfterRollBack(sys, h, charge)
             || after == AfterCrash(sys, h, sys.handlers[h])
    ensures Inv(after)
  {
    HolderMove(sys, h, charge, after);
    HandlerMoved(sys, after, h);
  }

  lemma CrashKeeps(sys: Sys, h: nat)
    requires Inv(sys) && h in sys.handlers
    ensures Inv(AfterCrash(sys, h, sys.handlers[h]))
  {
    var p := sys.handlers[h];
    if p.ToRefund? || p.ToRollBack? {
      HolderKeeps(sys, h, p.charge, AfterCrash(sys, h, p));
    } else {
      FinishKeeps(sys, h);
    }
  }
}
