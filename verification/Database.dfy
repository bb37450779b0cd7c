/** The tables the money core reads and writes, and one booking's view of them. */
module Database {
  import opened Wrappers
  import opened Escrow
  import opened Codes
  import opened Bookings

  datatype StrikeReason = HostCancelled | StaleCalendarDoubleBooking | AdminManual

  datatype Strike = Strike(host: Id, bookingId: Option<Id>, reason: StrikeReason)

  datatype ReportStatus = Received | InReview | Resolved | Dismissed

  /** A report names exactly one target; a listing is represented by its host. */
  datatype ReportTarget = OnBooking(bookingId: Id) | OnListing(host: Id) | OnOther

  datatype Report = Report(status: ReportStatus, target: ReportTarget)

  datatype PaymentStatus = Pending | Successful | Failed | Lapsed | RefundedPayment

  /** One charge attempt, keyed by the gateway's charge id. */
  datatype Payment = Payment(bookingId: Id, status: PaymentStatus)

  datatype HoldScope = BookingHold(bookingId: Id) | HostHold(host: Id)

  datatype Hold = Hold(scope: HoldScope, reason: string, released: bool)

  datatype Account = Account(id: Id, user: Id, createdAt: int)

  datatype Db = Db(
    bookings: map<Id, Booking>,
    ledger: seq<Entry>,
    refunds: map<Id, RefundRow>,
    disputes: map<Id, Dispute>,
    payouts: map<Id, Payout>,
    strikes: seq<Strike>,
    suspended: set<Id>,
    reports: map<Id, Report>,
    events: set<Id>,
    counters: map<YearMonth, nat>,
    payments: map<Id, Payment>,
    holds: map<Id, Hold>,
    accounts: seq<Account>)

  const EMPTY := Db(map[], [], map[], map[], map[], [], {}, map[], {}, map[], map[], map[], [])

  function Lookup<T>(table: map<Id, T>, id: Id): Option<T> {
    if id in table then Some(table[id]) else None
  }

  function Write<T>(table: map<Id, T>, id: Id, row: Option<T>): map<Id, T> {
    if row.Some? then table[id := row.value] else table - {id}
  }

  /** The ledger rows of one booking. */
  function EntriesOf(ledger: seq<Entry>, id: Id): seq<Entry> {
    if ledger == [] then []
    else
      var last := ledger[|ledger| - 1];
      EntriesOf(ledger[..|ledger| - 1], id) + (if last.bookingId == id then [last] else [])
  }

  /** Everything stored about one booking. */
  function CaseOf(db: Db, id: Id): Case
    requires id in db.bookings
  {
    Case(id, db.bookings[id], EntriesOf(db.ledger, id), Lookup(db.refunds, id), Lookup(db.disputes, id),
        Lookup(db.payouts, id))
  }

  /** Write a later version of one booking's case back into the tables. */
  function Put(db: Db, id: Id, c: Case): Db
    requires |EntriesOf(db.ledger, id)| <= |c.entries|
  {
    db.(bookings := db.bookings[id := c.row],
        ledger := db.ledger + c.entries[|EntriesOf(db.ledger, id)|..],
        refunds := Write(db.refunds, id, c.refund),
        disputes := Write(db.disputes, id, c.dispute),
        payouts := Write(db.payouts, id, c.payout))
  }

  predicate AllOf(entries: seq<Entry>, id: Id) {
    forall i :: 0 <= i < |entries| ==> entries[i].bookingId == id
  }

  lemma {:induction false} EntriesOfConcat(a: seq<Entry>, b: seq<Entry>, id: Id)
    ensures EntriesOf(a + b, id) == EntriesOf(a, id) + EntriesOf(b, id)
  {
    if b == [] {
      assert a + b == a;
    } else {
      EntriesOfConcat(a, b[..|b| - 1], id);
      assert (a + b)[..|a + b| - 1] == a + b[..|b| - 1];
    }
  }

  lemma {:induction false} EntriesOfOne(entries: seq<Entry>, owner: Id, id: Id)
    requires AllOf(entries, owner)
    ensures EntriesOf(entries, id) == if id == owner then entries else []
  {
    if entries != [] {
      EntriesOfOne(entries[..|entries| - 1], owner, id);
    }
  }

  lemma {:induction false} EntriesOfAreMine(ledger: seq<Entry>, id: Id)
    ensures AllOf(EntriesOf(ledger, id), id)
  {
    if ledger != [] {
      EntriesOfAreMine(ledger[..|ledger| - 1], id);
    }
  }

  /** Appending one booking's rows shows up in that booking's view only. */
  lemma AppendedRows(ledger: seq<Entry>, rows: seq<Entry>, owner: Id, id: Id)
    requires AllOf(rows, owner)
    ensures EntriesOf(ledger + rows, id) == EntriesOf(ledger, id) + (if id == owner then rows else [])
  {
    EntriesOfConcat(ledger, rows, id);
    EntriesOfOne(rows, owner, id);
  }

  lemma AppendedBy(db: Db, id: Id, c: Case, other: Id)
    requires id in db.bookings && c.Extends(CaseOf(db, id)) && AllOf(c.entries, id)
    ensures EntriesOf(Put(db, id, c).ledger, other) == if other == id then c.entries else EntriesOf(db.ledger, other)
  {
    var n := |EntriesOf(db.ledger, id)|;
    assert AllOf(c.entries[n..], id);
    AppendedRows(db.ledger, c.entries[n..], id, other);
    assert c.entries == c.entries[..n] + c.entries[n..];
  }

  /** What was put is what is read back, and no other booking notices. */
  lemma PutGet(db: Db, id: Id, c: Case)
    requires id in db.bookings && c.Extends(CaseOf(db, id)) && AllOf(c.entries, id)
    ensures CaseOf(Put(db, id, c), id) == c
    ensures forall other :: other in db.bookings && other != id ==> CaseOf(Put(db, id, c), other) == CaseOf(db, other)
  {
    AppendedBy(db, id, c, id);
    forall other | other in db.bookings && other != id
      ensures CaseOf(Put(db, id, c), other) == CaseOf(db, other)
    {
      AppendedBy(db, id, c, other);
    }
  }

  /** Writing a case back unchanged changes nothing. */
  lemma PutSame(db: Db, id: Id)
    requires id in db.bookings
    ensures Put(db, id, CaseOf(db, id)) == db
  {
  }

  lemma ApplyEventIsMine(c: Case, event: EscrowEvent, causeRef: Option<nat>, actor: Option<nat>, c': Case)
    requires AllOf(c.entries, c.id) && c.ApplyEvent(event, causeRef, actor) == Success(c')
    ensures AllOf(c'.entries, c.id)
  {
  }

  /** A transition only ever appends rows of its own booking. */
  lemma CaseNextIsMine(c: Case, a: CaseAction, c': Case)
    requires AllOf(c.entries, c.id) && CaseNext(c, a) == Success(c')
    ensures AllOf(c'.entries, c.id)
  {
  }
}
