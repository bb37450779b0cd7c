/** The pure escrow machine: one booking's money moves through six states, and
    every accepted event appends balanced rows to an append-only ledger. */
module Escrow {
  import opened Wrappers
  import opened Money

  /** `Uncharged` is the source's NONE. */
  datatype EscrowState = Uncharged | Held | Releasable | Frozen | Paid | Reversed

  datatype LedgerCause =
    | ChargeWebhook
    | ReleaseCheckout
    | HoldDisputeOpened
    | HoldBookingReport
    | HoldAdminManual
    | ReleaseHoldLifted
    | PaidAdminTransfer
    | RefundGuestTier
    | RefundHostCancelled
    | RefundDisputeFull
    | RefundDisputePartial

  type FreezeCause = c: LedgerCause | c.HoldDisputeOpened? || c.HoldBookingReport? || c.HoldAdminManual?
    witness HoldDisputeOpened

  type RefundCause = c: LedgerCause |
    c.RefundGuestTier? || c.RefundHostCancelled? || c.RefundDisputeFull? || c.RefundDisputePartial?
    witness RefundGuestTier

  datatype EscrowError = AlreadyCharged | IllegalTransition | NonPositiveAmount | RefundOutOfRange | NotSatang

  datatype EscrowEvent =
    | Charge(amount: int)
    | Release
    | Freeze(cause: FreezeCause)
    | Pay
    | Settle(refund: int, refundCause: RefundCause)

  /** Where a booking's remaining money sits, and how much of it is left. */
  datatype Position = Position(state: EscrowState, amount: int)

  const INITIAL_POSITION := Position(Uncharged, 0)

  datatype Move = Move(from: EscrowState, to: EscrowState, amount: int, cause: LedgerCause)

  datatype Transition = Transition(position: Position, moves: seq<Move>)

  predicate InEscrow(s: EscrowState) {
    s.Held? || s.Releasable? || s.Frozen?
  }

  /** The transition that shifts all of `amount` at once. */
  function Shift(from: EscrowState, to: EscrowState, amount: int, cause: LedgerCause): Result<Transition, EscrowError> {
    if !IsSatang(amount) then Failure(NotSatang)
    else Success(Transition(Position(to, if to.Paid? then 0 else amount), [Move(from, to, amount, cause)]))
  }

  /** Apply one event to a position, or say why it is refused. */
  function Reduce(p: Position, event: EscrowEvent): Result<Transition, EscrowError> {
    match event
    case Charge(amount) =>
      if p.state != Uncharged then Failure(AlreadyCharged)
      else if !IsSatang(amount) then Failure(NotSatang)
      else if amount <= 0 then Failure(NonPositiveAmount)
      else Shift(Uncharged, Held, amount, ChargeWebhook)
    case Release =>
      if p.state != Held then Failure(IllegalTransition)
      else Shift(p.state, Releasable, p.amount, ReleaseCheckout)
    case Freeze(cause) =>
      if p.state != Held && p.state != Releasable then Failure(IllegalTransition)
      else Shift(p.state, Frozen, p.amount, cause)
    case Pay =>
      if p.state != Releasable then Failure(IllegalTransition)
      else Shift(p.state, Paid, p.amount, PaidAdminTransfer)
    case Settle(refund, refundCause) =>
      if p.state != Held && p.state != Frozen then Failure(IllegalTransition)
      else if p.amount <= 0 then Failure(IllegalTransition)
      else if !IsSatang(refund) then Failure(NotSatang)
      else if refund < 0 || refund > p.amount then Failure(RefundOutOfRange)
      else
        var remainder := p.amount - refund;
        if !IsSatang(remainder) then Failure(NotSatang)
        else
          Success(Transition(
            if remainder > 0 then Position(Releasable, remainder) else Position(Reversed, 0),
            (if refund > 0 then [Move(p.state, Reversed, refund, refundCause)] else [])
            + (if remainder > 0 then [Move(p.state, Releasable, remainder, ReleaseHoldLifted)] else [])))
  }

  // ---- Running totals over the ledger ----

  /** The six running totals: three count money crossing the escrow boundary, three
      the money inside it by state. */
  datatype Bucket = Received | Refunded | PaidOut | InHeld | InReleasable | InFrozen

  /** What one move adds to a bucket. A move out of `Uncharged` is an inflow, one
      into `Reversed` a guest refund, one into `Paid` a disbursement; the rest shift
      between the in-escrow buckets. */
  function Delta(m: Move, b: Bucket): int {
    match b
    case Received => Share(m.from.Uncharged?, m.amount)
    case Refunded => Share(m.to.Reversed?, m.amount)
    case PaidOut => Share(m.to.Paid?, m.amount)
    case InHeld => Share(m.to.Held?, m.amount) - Share(m.from.Held?, m.amount)
    case InReleasable => Share(m.to.Releasable?, m.amount) - Share(m.from.Releasable?, m.amount)
    case InFrozen => Share(m.to.Frozen?, m.amount) - Share(m.from.Frozen?, m.amount)
  }

  function Share(hit: bool, amount: int): int {
    if hit then amount else 0
  }

  /** One appended ledger row: the booking it belongs to, the move, and what
      authorised it. */
  datatype Entry = Entry(bookingId: nat, move: Move, causeRef: Option<nat>, actor: Option<nat>)

  function Stamp(bookingId: nat, moves: seq<Move>, causeRef: Option<nat>, actor: Option<nat>): (es: seq<Entry>)
    ensures |es| == |moves|
  {
    seq(|moves|, i requires 0 <= i < |moves| => Entry(bookingId, moves[i], causeRef, actor))
  }

  /** The total of one bucket over a list of ledger rows. */
  function Fold(entries: seq<Entry>, b: Bucket): int {
    if entries == [] then 0
    else Fold(entries[..|entries| - 1], b) + Delta(entries[|entries| - 1].move, b)
  }

  /** What is still inside escrow. */
  function Obligation(entries: seq<Entry>): int {
    Fold(entries, InHeld) + Fold(entries, InReleasable) + Fold(entries, InFrozen)
  }

  predicate InvariantHolds(entries: seq<Entry>) {
    Obligation(entries) == Fold(entries, Received) - Fold(entries, Refunded) - Fold(entries, PaidOut)
  }

  lemma FoldSnoc(entries: seq<Entry>, e: Entry, b: Bucket)
    ensures Fold(entries + [e], b) == Fold(entries, b) + Delta(e.move, b)
  {
  }

  lemma {:induction false} FoldConcat(x: seq<Entry>, y: seq<Entry>, b: Bucket)
    ensures Fold(x + y, b) == Fold(x, b) + Fold(y, b)
  {
    if y == [] {
      assert x + y == x;
    } else {
      var front, last := y[..|y| - 1], y[|y| - 1];
      FoldConcat(x, front, b);
      assert x + y == (x + front) + [last];
      FoldSnoc(x + front, last, b);
    }
  }

  lemma MultisetSnoc(x: seq<Entry>, e: Entry)
    ensures multiset(x + [e]) == multiset(x) + multiset{e}
  {
  }

  lemma MultisetWithout(before: seq<Entry>, e: Entry, after: seq<Entry>)
    ensures multiset(before + [e] + after) == multiset(before + after) + multiset{e}
  {
  }

  lemma FoldOutOfOrder(before: seq<Entry>, e: Entry, after: seq<Entry>, b: Bucket)
    ensures Fold(before + [e] + after, b) == Fold(before + after, b) + Delta(e.move, b)
  {
    FoldConcat(before + [e], after, b);
    FoldSnoc(before, e, b);
    FoldConcat(before, after, b);
  }

  /** The queries that feed the fold have no ORDER BY; the totals do not care. */
  lemma {:induction false} FoldIgnoresOrder(x: seq<Entry>, y: seq<Entry>, b: Bucket)
    requires multiset(x) == multiset(y)
    ensures Fold(x, b) == Fold(y, b)
    decreases |x|
  {
    if x == [] {
      assert |multiset(y)| == 0;
    } else {
      var last := x[|x| - 1];
      var front := x[..|x| - 1];
      assert x == front + [last];
      MultisetSnoc(front, last);
      assert last in multiset(y);
      var i :| 0 <= i < |y| && y[i] == last;
      var rest := y[..i] + y[i + 1..];
      assert y == y[..i] + [last] + y[i + 1..];
      MultisetWithout(y[..i], last, y[i + 1..]);
      assert multiset(front) == multiset(x) - multiset{last};
      assert multiset(rest) == multiset(y) - multiset{last};
      FoldIgnoresOrder(front, rest, b);
      FoldOutOfOrder(y[..i], last, y[i + 1..], b);
      FoldSnoc(front, last, b);
    }
  }

  // ---- The ledger agrees with the machine ----

  /** The ledger describes exactly the position `p`: at most one in-escrow bucket is
      non-zero, it is the one the state names, and nothing is lost. */
  predicate Agrees(p: Position, entries: seq<Entry>) {
    && Fold(entries, InHeld) == Share(p.state.Held?, p.amount)
    && Fold(entries, InReleasable) == Share(p.state.Releasable?, p.amount)
    && Fold(entries, InFrozen) == Share(p.state.Frozen?, p.amount)
    && Fold(entries, Received) == Fold(entries, Refunded) + Fold(entries, PaidOut) + p.amount
    && 0 <= Fold(entries, Refunded) && 0 <= Fold(entries, PaidOut) && IsSatang(Fold(entries, Received))
    && PositionOk(p)
    && (p.state.Uncharged? <==> Fold(entries, Received) == 0)
    && (p.state.Paid? <==> Fold(entries, PaidOut) > 0)
    && (p.state.Held? ==> Fold(entries, Refunded) == 0)
  }

  /** Money in escrow exactly in the three in-escrow states. */
  predicate PositionOk(p: Position) {
    0 <= p.amount && (InEscrow(p.state) <==> p.amount > 0)
  }

  function MovesDelta(moves: seq<Move>, b: Bucket): int {
    if moves == [] then 0 else Delta(moves[0], b) + MovesDelta(moves[1..], b)
  }

  lemma {:induction false} FoldStamp(entries: seq<Entry>, id: nat, moves: seq<Move>, causeRef: Option<nat>,
                                     actor: Option<nat>, b: Bucket)
    ensures Fold(entries + Stamp(id, moves, causeRef, actor), b) == Fold(entries, b) + MovesDelta(moves, b)
    decreases |moves|
  {
    var stamped := Stamp(id, moves, causeRef, actor);
    if moves == [] {
      assert entries + stamped == entries;
    } else {
      var first := stamped[0];
      assert entries + stamped == entries + [first] + Stamp(id, moves[1..], causeRef, actor);
      FoldSnoc(entries, first, b);
      FoldStamp(entries + [first], id, moves[1..], causeRef, actor, b);
    }
  }

  lemma DeltaOfOne(m: Move, b: Bucket)
    ensures MovesDelta([m], b) == Delta(m, b)
  {
  }

  lemma DeltaOfTwo(m: Move, n: Move, b: Bucket)
    ensures MovesDelta([m] + [n], b) == Delta(m, b) + Delta(n, b)
  {
    assert ([m] + [n])[1..] == [n];
    DeltaOfOne(n, b);
  }

  predicate GoodMoves(event: EscrowEvent, moves: seq<Move>) {
    && 1 <= |moves| <= 2
    && forall i :: 0 <= i < |moves| ==>
         0 < moves[i].amount && IsSatang(moves[i].amount) && (moves[i].from.Uncharged? <==> event.Charge?)
  }

  /** What an accepted event does to a bucket, read off the event and the positions
      around it. */
  function EventDelta(p: Position, event: EscrowEvent, p': Position, b: Bucket): int {
    match b
    case Received => if event.Charge? then event.amount else 0
    case Refunded => if event.Settle? then event.refund else 0
    case PaidOut => if event.Pay? then p.amount else 0
    case InHeld => Share(p'.state.Held?, p'.amount) - Share(p.state.Held?, p.amount)
    case InReleasable => Share(p'.state.Releasable?, p'.amount) - Share(p.state.Releasable?, p.amount)
    case InFrozen => Share(p'.state.Frozen?, p'.amount) - Share(p.state.Frozen?, p.amount)
  }

  /** The rows of a settlement: to the guest, to the host, or both. */
  lemma SettleMoves(p: Position, event: EscrowEvent)
    requires PositionOk(p) && event.Settle? && Reduce(p, event).Success?
    ensures var refunded := Move(p.state, Reversed, event.refund, event.refundCause);
            var released := Move(p.state, Releasable, p.amount - event.refund, ReleaseHoldLifted);
            Reduce(p, event).value.moves == if event.refund == 0 then [released]
                                            else if event.refund == p.amount then [refunded]
                                            else [refunded] + [released]
    ensures 0 <= event.refund <= p.amount && IsSatang(event.refund) && IsSatang(p.amount - event.refund)
    ensures GoodMoves(event, Reduce(p, event).value.moves)
  {
  }

  lemma SettleDelta(p: Position, event: EscrowEvent, b: Bucket)
    requires PositionOk(p) && event.Settle? && Reduce(p, event).Success?
    ensures var t := Reduce(p, event).value;
            MovesDelta(t.moves, b) == EventDelta(p, event, t.position, b) && GoodMoves(event, t.moves)
  {
    var refunded := Move(p.state, Reversed, event.refund, event.refundCause);
    var released := Move(p.state, Releasable, p.amount - event.refund, ReleaseHoldLifted);
    SettleMoves(p, event);
    DeltaOfOne(refunded, b);
    DeltaOfOne(released, b);
    DeltaOfTwo(refunded, released, b);
  }

  lemma ReduceDelta(p: Position, event: EscrowEvent, b: Bucket)
    requires PositionOk(p) && Reduce(p, event).Success?
    ensures var t := Reduce(p, event).value;
            MovesDelta(t.moves, b) == EventDelta(p, event, t.position, b) && GoodMoves(event, t.moves)
  {
    if event.Settle? {
      SettleDelta(p, event, b);
    } else {
      var moves := Reduce(p, event).value.moves;
      DeltaOfOne(moves[0], b);
      assert moves == [moves[0]];
    }
  }

  /** What an accepted event leaves behind. */
  lemma ReduceOutcome(p: Position, event: EscrowEvent)
    requires PositionOk(p) && Reduce(p, event).Success?
    ensures var p' := Reduce(p, event).value.position;
            && PositionOk(p') && !p'.state.Uncharged?
            && p'.amount == p.amount + EventDelta(p, event, p', Received) - EventDelta(p, event, p', Refunded)
                            - EventDelta(p, event, p', PaidOut)
            && (p'.state.Paid? <==> event.Pay?)
            && (p'.state.Held? <==> event.Charge?)
            && !p.state.Paid? && (event.Charge? <==> p.state.Uncharged?)
            && (event.Charge? ==> 0 < event.amount && IsSatang(event.amount))
            && 0 <= EventDelta(p, event, p', Refunded) && (event.Pay? ==> 0 < p.amount)
  {
  }

  /** Appending an accepted event's rows keeps the ledger and the position in step,
      and changes each total by exactly what the event says. */
  lemma ReduceAgrees(p: Position, event: EscrowEvent, entries: seq<Entry>, id: nat, causeRef: Option<nat>,
                     actor: Option<nat>)
    requires Agrees(p, entries)
    requires Reduce(p, event).Success?
    ensures var t := Reduce(p, event).value;
            var after := entries + Stamp(id, t.moves, causeRef, actor);
            && Agrees(t.position, after)
            && GoodMoves(event, t.moves)
            && Fold(after, Received) == Fold(entries, Received) + EventDelta(p, event, t.position, Received)
            && Fold(after, Refunded) == Fold(entries, Refunded) + EventDelta(p, event, t.position, Refunded)
            && Fold(after, PaidOut) == Fold(entries, PaidOut) + EventDelta(p, event, t.position, PaidOut)
  {
    var t := Reduce(p, event).value;
    ReduceOutcome(p, event);
    forall b: Bucket
      ensures Fold(entries + Stamp(id, t.moves, causeRef, actor), b)
              == Fold(entries, b) + EventDelta(p, event, t.position, b)
    {
      FoldStamp(entries, id, t.moves, causeRef, actor, b);
      ReduceDelta(p, event, b);
    }
    ReduceDelta(p, event, Received);
  }

  /** Feed a list of events to the machine, keeping the log it writes; the first
      refused event stops the run. */
  function RunEvents(id: nat, events: seq<EscrowEvent>): Result<(Position, seq<Entry>), EscrowError> {
    if events == [] then Success((INITIAL_POSITION, []))
    else
      var before :- RunEvents(id, events[..|events| - 1]);
      var t :- Reduce(before.0, events[|events| - 1]);
      Success((t.position, before.1 + Stamp(id, t.moves, None, None)))
  }

  lemma {:induction false} RunAgrees(id: nat, events: seq<EscrowEvent>)
    requires RunEvents(id, events).Success?
    ensures var (p, entries) := RunEvents(id, events).value;
            Agrees(p, entries)
  {
    if events == [] {
    } else {
      var front := events[..|events| - 1];
      RunAgrees(id, front);
      var before := RunEvents(id, front).value;
      ReduceAgrees(before.0, events[|events| - 1], before.1, id, None, None);
    }
  }

  lemma AgreesIgnoresOrder(p: Position, x: seq<Entry>, y: seq<Entry>)
    requires multiset(x) == multiset(y) && Agrees(p, y)
    ensures Agrees(p, x)
  {
    forall b: Bucket
      ensures Fold(x, b) == Fold(y, b)
    {
      FoldIgnoresOrder(x, y, b);
    }
  }

  lemma AgreementMeansInvariant(p: Position, entries: seq<Entry>)
    requires Agrees(p, entries)
    ensures Obligation(entries) == p.amount
    ensures InvariantHolds(entries)
  {
  }

  /** After any accepted sequence of events, in whatever order the rows are read
      back, the position rebuilt from the log is the one the machine returned, and
      the escrow invariant holds. */
  lemma LogRebuildsPosition(id: nat, events: seq<EscrowEvent>, rows: seq<Entry>)
    requires RunEvents(id, events).Success?
    requires multiset(rows) == multiset(RunEvents(id, events).value.1)
    ensures var p := RunEvents(id, events).value.0;
            Obligation(rows) == p.amount && Agrees(p, rows) && InvariantHolds(rows)
  {
    var (p, entries) := RunEvents(id, events).value;
    RunAgrees(id, events);
    AgreesIgnoresOrder(p, rows, entries);
    AgreementMeansInvariant(p, rows);
  }

  /** A state that has disbursed or reversed its money accepts nothing more. */
  lemma SpentIsFinal(p: Position, event: EscrowEvent)
    requires p.state.Paid? || p.state.Reversed?
    ensures Reduce(p, event).Failure?
  {
  }

  /** Exactly when each event is accepted, for any position a ledger describes. */
  lemma AcceptedIff(p: Position, entries: seq<Entry>, event: EscrowEvent)
    requires Agrees(p, entries)
    ensures Reduce(p, event).Success? <==>
            match event
            case Charge(amount) => p.state.Uncharged? && 0 < amount <= MAX_SAFE_INTEGER
            case Release => p.state.Held?
            case Freeze(_) => p.state.Held? || p.state.Releasable?
            case Pay => p.state.Releasable?
            case Settle(refund, _) => (p.state.Held? || p.state.Frozen?) && 0 <= refund <= p.amount
  {
  }

  /** Why an event is refused, in the order its guards are asked. */
  lemma ReduceRefusals(p: Position, entries: seq<Entry>, event: EscrowEvent)
    requires Agrees(p, entries) && Reduce(p, event).Failure?
    ensures Reduce(p, event).error
            == match event
               case Charge(amount) =>
                 if !p.state.Uncharged? then AlreadyCharged
                 else if -MAX_SAFE_INTEGER <= amount <= 0 then NonPositiveAmount else EscrowError.NotSatang
               case Settle(refund, _) =>
                 if !p.state.Held? && !p.state.Frozen? then IllegalTransition
                 else if -MAX_SAFE_INTEGER <= refund <= MAX_SAFE_INTEGER then RefundOutOfRange
                 else EscrowError.NotSatang
               case _ => IllegalTransition
  {
  }
}
