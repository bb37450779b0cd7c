/** The mutable store behind the application: one field per table, the row writes the
    transitions are made of, and the escrow write layer. */
module Persistence {
  import opened Wrappers
  import opened Escrow
  import opened Codes
  import opened Refund
  import opened Bookings
  import opened Database
  import opened Operations

  type Outcome = Result<(), Error>

  /** The method's outcome and the tables it leaves match the specification: done as
      specified, or refused with everything rolled back. */
  predicate Commits<T(==)>(spec: Result<Db, Error>, before: Db, after: Db, r: Result<T, Error>) {
    match spec
    case Success(db) => r.Success? && after == db
    case Failure(e) => r == Failure(e) && after == before
  }

  /** The six running totals, kept as a record indexed by bucket. */
  type Buckets = m: map<Bucket, int> | forall b: Bucket :: b in m
    witness map b: Bucket | true :: 0

  const EMPTY_BUCKETS: Buckets := map b: Bucket | true :: 0

  function FoldMove(buckets: Buckets, m: Move): Buckets {
    map b: Bucket | b in buckets :: buckets[b] + Delta(m, b)
  }

  /** The totals of a list of rows. */
  ghost predicate Totals(buckets: Buckets, rows: seq<Entry>) {
    forall b: Bucket :: buckets[b] == Fold(rows, b)
  }

  lemma TotalsSnoc(buckets: Buckets, rows: seq<Entry>, e: Entry)
    requires Totals(buckets, rows)
    ensures Totals(FoldMove(buckets, e.move), rows + [e])
  {
  }

  /** The loop both ledger queries run over the rows they read. */
  method FoldRows(rows: seq<Entry>) returns (buckets: Buckets)
    ensures Totals(buckets, rows)
  {
    buckets := EMPTY_BUCKETS;
    for i := 0 to |rows|
      invariant Totals(buckets, rows[..i])
    {
      TotalsSnoc(buckets, rows[..i], rows[i]);
      assert rows[..i] + [rows[i]] == rows[..i + 1];
      buckets := FoldMove(buckets, rows[i].move);
    }
    assert rows[..|rows|] == rows;
  }

  /** A query without ORDER BY: the rows come back in any order. */
  method AnyOrder<T(==)>(rows: seq<T>) returns (found: seq<T>)
    ensures multiset(found) == multiset(rows)
  {
    found := [];
    var left := multiset(rows);
    while left != multiset{}
      invariant multiset(found) + left == multiset(rows)
      decreases |left|
    {
      var row :| row in left;
      found := found + [row];
      left := left - multiset{row};
    }
  }

  /** What the rows of an accepted event change in the tables. */
  lemma AppliedRows(base: Db, id: Id, c: Case, event: EscrowEvent, causeRef: Option<nat>, actor: Option<nat>, c': Case)
    requires id in base.bookings && c.Extends(CaseOf(base, id)) && AllOf(c.entries, id)
    requires c.ApplyEvent(event, causeRef, actor) == Success(c')
    ensures AllOf(c'.entries, id) && c'.Extends(CaseOf(base, id))
    ensures var moves := Reduce(c.CurrentPosition(), event).value.moves;
            Put(base, id, c') == Put(base, id, c).(
              ledger := Put(base, id, c).ledger + Stamp(id, moves, causeRef, actor),
              bookings := Put(base, id, c).bookings[id := c'.row])
  {
    var moves := Reduce(c.CurrentPosition(), event).value.moves;
    var n := |EntriesOf(base.ledger, id)|;
    assert c'.entries[n..] == c.entries[n..] + Stamp(id, moves, causeRef, actor);
    ApplyEventIsMine(c, event, causeRef, actor, c');
  }

  /** On a ledger that agrees with the cache, the position the machine returns is the
      one the rows rebuild. */
  lemma RebuiltPosition(c: Case, event: EscrowEvent, causeRef: Option<nat>, actor: Option<nat>, c': Case)
    requires Agrees(c.CurrentPosition(), c.entries) && c.ApplyEvent(event, causeRef, actor) == Success(c')
    ensures c'.CurrentPosition() == Reduce(c.CurrentPosition(), event).value.position
  {
    ReduceAgrees(c.CurrentPosition(), event, c.entries, c.id, causeRef, actor);
    AgreementMeansInvariant(Reduce(c.CurrentPosition(), event).value.position, c'.entries);
  }

  class Store {
    var bookings: map<Id, Booking>
    var ledger: seq<Entry>
    var refunds: map<Id, RefundRow>
    var disputes: map<Id, Dispute>
    var payouts: map<Id, Payout>
    var strikes: seq<Strike>
    var suspended: set<Id>
    var reports: map<Id, Report>
    var events: set<Id>
    var counters: map<YearMonth, nat>
    var payments: map<Id, Payment>
    var holds: map<Id, Hold>
    var accounts: seq<Account>

    constructor ()
      ensures Tables() == EMPTY
    {
      bookings, ledger, refunds, disputes, payouts := map[], [], map[], map[], map[];
      strikes, suspended, reports, events, counters := [], {}, map[], {}, map[];
      payments, holds, accounts := map[], map[], [];
    }

    function Tables(): Db
      reads this
    {
      Db(bookings, ledger, refunds, disputes, payouts, strikes, suspended, reports, events, counters, payments,
          holds, accounts)
    }

    /** The tables are `base` with booking `id` brought to the state `c`. */
    ghost predicate Holds(base: Db, id: Id, c: Case)
      reads this
    {
      id in base.bookings && c.Extends(CaseOf(base, id)) && AllOf(c.entries, id) && Tables() == Put(base, id, c)
    }

    /** The starting point of a transaction on an existing booking. */
    lemma Opens(id: Id)
      requires id in bookings
      ensures Holds(Tables(), id, CaseOf(Tables(), id))
    {
      PutSame(Tables(), id);
      EntriesOfAreMine(ledger, id);
    }

    /** A transaction that throws leaves everything as it found it. */
    method Rollback(saved: Db, ghost id: Id, ghost c: Case)
      requires Holds(saved, id, c)
      modifies `bookings, `ledger, `refunds, `disputes, `payouts
      ensures Tables() == saved
    {
      bookings := saved.bookings;
      ledger := saved.ledger;
      refunds := saved.refunds;
      disputes := saved.disputes;
      payouts := saved.payouts;
    }

    // ---- Row writes ----

    method UpdateBooking(ghost base: Db, id: Id, ghost c: Case, row: Booking)
      requires Holds(base, id, c)
      modifies `bookings
      ensures Holds(base, id, c.(row := row))
    {
      bookings := bookings[id := row];
    }

    method WriteDispute(ghost base: Db, id: Id, ghost c: Case, d: Dispute)
      requires Holds(base, id, c)
      modifies `disputes
      ensures Holds(base, id, c.(dispute := Some(d)))
    {
      disputes := disputes[id := d];
    }

    /** The refund table has one row per booking. */
    method RecordRefund(ghost base: Db, id: Id, ghost c: Case, amounts: RefundBreakdown) returns (r: Outcome)
      requires Holds(base, id, c)
      modifies `refunds
      ensures match c.RecordRefund(amounts)
              case Success(c') => r.Success? && Holds(base, id, c')
              case Failure(e) => r == Failure(e) && Holds(base, id, c)
    {
      if id in refunds {
        return Failure(DuplicateRow);
      }
      refunds := refunds[id := RefundRow(amounts, None)];
      r := Success(());
    }

    method UpsertRefund(ghost base: Db, id: Id, ghost c: Case, amounts: RefundBreakdown)
      requires Holds(base, id, c)
      modifies `refunds
      ensures Holds(base, id, c.UpsertRefund(amounts))
    {
      if id in refunds {
        refunds := refunds[id := refunds[id].(amounts := amounts)];
      } else {
        refunds := refunds[id := RefundRow(amounts, None)];
      }
    }

    /** One payout per booking. */
    method CreatePayout(ghost base: Db, id: Id, ghost c: Case, payout: Payout) returns (r: Outcome)
      requires Holds(base, id, c)
      modifies `payouts
      ensures if c.payout.Some? then r == Failure(DuplicateRow) && Holds(base, id, c)
              else r.Success? && Holds(base, id, c.(payout := Some(payout)))
    {
      if id in payouts {
        return Failure(DuplicateRow);
      }
      payouts := payouts[id := payout];
      r := Success(());
    }

    /** Store the gateway's refund id on the booking's refund row. */
    method SetRefundId(ghost base: Db, id: Id, ghost c: Case, opnRefundId: Id)
      requires Holds(base, id, c) && id in refunds && c.refund == Some(refunds[id])
      modifies `refunds
      ensures Holds(base, id, c.(refund := Some(c.refund.value.(opnRefundId := Some(opnRefundId)))))
    {
      refunds := refunds[id := refunds[id].(opnRefundId := Some(opnRefundId))];
    }

    // ---- The escrow write layer ----

    /** The state is the cached column, the amount is folded from the booking's rows. */
    method CurrentPosition(id: Id) returns (p: Position)
      requires id in bookings
      ensures p == CaseOf(Tables(), id).CurrentPosition()
    {
      var rows := AnyOrder(EntriesOf(ledger, id));
      var buckets := FoldRows(rows);
      forall b: Bucket
        ensures buckets[b] == Fold(EntriesOf(ledger, id), b)
      {
        FoldIgnoresOrder(rows, EntriesOf(ledger, id), b);
      }
      p := Position(bookings[id].escrow, buckets[InHeld] + buckets[InReleasable] + buckets[InFrozen]);
    }

    /** The totals of the entire ledger. */
    method LedgerTotals() returns (buckets: Buckets)
      ensures Totals(buckets, ledger)
    {
      var rows := AnyOrder(ledger);
      buckets := FoldRows(rows);
      forall b: Bucket
        ensures buckets[b] == Fold(ledger, b)
      {
        FoldIgnoresOrder(rows, ledger, b);
      }
    }

    /** Derive the position, run the machine, append its rows and refresh the cache.
        What is returned is the machine's position, see `RebuiltPosition`. */
    method ApplyEvent(ghost base: Db, id: Id, ghost c: Case, event: EscrowEvent, causeRef: Option<nat>,
                      actor: Option<nat>)
      returns (r: Result<Position, Error>)
      requires Holds(base, id, c)
      modifies `ledger, `bookings
      ensures match c.ApplyEvent(event, causeRef, actor)
              case Success(c') =>
                Holds(base, id, c') && r == Success(Reduce(c.CurrentPosition(), event).value.position)
              case Failure(e) => r == Failure(e) && Holds(base, id, c)
    {
      PutGet(base, id, c);
      var position := CurrentPosition(id);
      var reduced := Reduce(position, event);
      if reduced.Failure? {
        return Failure(EscrowRefused(reduced.error));
      }
      ghost var c' := c.ApplyEvent(event, causeRef, actor).value;
      AppliedRows(base, id, c, event, causeRef, actor, c');
      var t := reduced.value;
      ledger := ledger + Stamp(id, t.moves, causeRef, actor);
      bookings := bookings[id := bookings[id].(escrow := t.position.state)];
      assert bookings == Put(base, id, c).bookings[id := c'.row];
      r := Success(t.position);
    }

    // ---- Events, code numbers and strikes ----

    /** False on a replay. */
    method ClaimWebhookEvent(event: Id) returns (claimed: bool)
      modifies `events
      ensures claimed == (event !in old(events)) && events == old(events) + {event}
    {
      claimed := event !in events;
      events := events + {event};
    }

    /** Create or bump the month's counter and return its new value as a code. */
    method IssueBookingCode(month: YearMonth) returns (code: Code)
      modifies `counters
      ensures code == Code(month, Counter(old(counters), month) + 1)
      ensures counters == old(counters)[month := code.number]
    {
      var number := if month in counters then counters[month] + 1 else 1;
      counters := counters[month := number];
      code := Code(month, number);
    }

    method IssueStrike(strike: Strike)
      modifies `strikes, `suspended
      ensures Tables() == Operations.IssueStrike(old(Tables()), strike)
    {
      strikes := strikes + [strike];
      var count := CountStrikes(strikes, strike.host);
      if count >= STRIKE_SUSPENSION_THRESHOLD {
        suspended := suspended + {strike.host};
      }
    }
  }
}
