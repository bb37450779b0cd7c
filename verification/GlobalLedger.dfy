/** The whole ledger: its totals are the bookings' totals summed, however their rows
    are interleaved, so the reconciliation gate compares the gateway's balance with
    exactly what is owed on every booking. */
module GlobalLedger {
  import opened Escrow
  import opened Bookings
  import opened CaseInvariants
  import opened Database
  import opened Operations
  import opened Runs

  predicate NoRepeats(ids: seq<Id>) {
    forall i, j :: 0 <= i < j < |ids| ==> ids[i] != ids[j]
  }

  /** A bucket's totals per booking, added up. */
  function SumFolds(ids: seq<Id>, ledger: seq<Entry>, b: Bucket): int {
    if ids == [] then 0 else SumFolds(ids[1..], ledger, b) + Fold(EntriesOf(ledger, ids[0]), b)
  }

  lemma FoldOfNewRow(ledger: seq<Entry>, e: Entry, id: Id, b: Bucket)
    ensures Fold(EntriesOf(ledger + [e], id), b)
            == Fold(EntriesOf(ledger, id), b) + (if e.bookingId == id then Delta(e.move, b) else 0)
  {
    assert (ledger + [e])[..|ledger|] == ledger;
    if e.bookingId == id {
      FoldSnoc(EntriesOf(ledger, id), e, b);
    } else {
      assert EntriesOf(ledger + [e], id) == EntriesOf(ledger, id);
    }
  }

  /** One more row counts once, in its own booking's total. */
  lemma {:induction false} SumOfNewRow(ids: seq<Id>, ledger: seq<Entry>, e: Entry, b: Bucket)
    requires NoRepeats(ids)
    ensures SumFolds(ids, ledger + [e], b)
            == SumFolds(ids, ledger, b) + (if e.bookingId in ids then Delta(e.move, b) else 0)
  {
    if ids != [] {
      FoldOfNewRow(ledger, e, ids[0], b);
      SumOfNewRow(ids[1..], ledger, e, b);
    }
  }

  lemma {:induction false} SumOverNothing(ids: seq<Id>, b: Bucket)
    ensures SumFolds(ids, [], b) == 0
  {
    if ids != [] {
      SumOverNothing(ids[1..], b);
    }
  }

  /** The global fold is the sum of the per-booking folds, for any interleaving. */
  lemma {:induction false} GlobalFoldIsSum(ids: seq<Id>, ledger: seq<Entry>, b: Bucket)
    requires NoRepeats(ids) && forall i :: 0 <= i < |ledger| ==> ledger[i].bookingId in ids
    ensures Fold(ledger, b) == SumFolds(ids, ledger, b)
  {
    if ledger == [] {
      SumOverNothing(ids, b);
    } else {
      var front, last := ledger[..|ledger| - 1], ledger[|ledger| - 1];
      GlobalFoldIsSum(ids, front, b);
      SumOfNewRow(ids, front, last, b);
      assert front + [last] == ledger;
    }
  }

  /** What is still owed out on one booking, read off its rows. */
  function Owed(c: Case): int {
    if InEscrow(c.row.escrow) then c.row.terms.total - c.PriorRefund() else 0
  }

  lemma OwedIsThePosition(c: Case)
    requires CaseOk(c)
    ensures Owed(c) == c.CurrentPosition().amount
    ensures InvariantHolds(c.entries)
  {
  }

  function SumOwed(db: Db, ids: seq<Id>): int
    requires forall i :: 0 <= i < |ids| ==> ids[i] in db.bookings
  {
    if ids == [] then 0 else SumOwed(db, ids[1..]) + Owed(CaseOf(db, ids[0]))
  }

  /** What the six sums must satisfy together. */
  lemma {:induction false} SumsBalance(db: Db, ids: seq<Id>)
    requires CasesOk(db) && forall i :: 0 <= i < |ids| ==> ids[i] in db.bookings
    ensures var inside := SumFolds(ids, db.ledger, InHeld) + SumFolds(ids, db.ledger, InReleasable)
                          + SumFolds(ids, db.ledger, InFrozen);
            && inside == SumOwed(db, ids)
            && inside == SumFolds(ids, db.ledger, Bucket.Received) - SumFolds(ids, db.ledger, Refunded)
                         - SumFolds(ids, db.ledger, PaidOut)
  {
    if ids != [] {
      SumsBalance(db, ids[1..]);
      OwedIsThePosition(CaseOf(db, ids[0]));
    }
  }

  predicate Enumerates(ids: seq<Id>, db: Db) {
    && NoRepeats(ids)
    && (forall i :: 0 <= i < |ids| ==> ids[i] in db.bookings)
    && (forall id :: id in db.bookings ==> id in ids)
  }

  /** In every sound database the escrow invariant holds, and the gate passes exactly
      when the balance covers what is owed on all bookings together, in whatever order
      the rows are read. */
  lemma GateIsSolvency(db: Db, ids: seq<Id>, rows: seq<Entry>, balance: int)
    requires DbOk(db) && Enumerates(ids, db) && multiset(rows) == multiset(db.ledger)
    ensures InvariantHolds(rows)
    ensures Obligation(rows) == SumOwed(db, ids)
    ensures ReconcileOk(rows, balance) <==> balance >= SumOwed(db, ids)
  {
    forall b: Bucket
      ensures Fold(rows, b) == SumFolds(ids, db.ledger, b)
    {
      FoldIgnoresOrder(rows, db.ledger, b);
      GlobalFoldIsSum(ids, db.ledger, b);
    }
    SumsBalance(db, ids);
  }

  lemma {:induction false} InSomeOrder(keys: set<Id>) returns (ids: seq<Id>)
    ensures NoRepeats(ids) && forall id :: id in ids <==> id in keys
  {
    ids := [];
    if keys != {} {
      var id :| id in keys;
      var rest := InSomeOrder(keys - {id});
      ids := [id] + rest;
    }
  }

  /** The gate's first half never fails in a sound database. */
  lemma LedgerIsSound(db: Db)
    requires DbOk(db)
    ensures InvariantHolds(db.ledger)
  {
    var ids := InSomeOrder(db.bookings.Keys);
    GateIsSolvency(db, ids, db.ledger, 0);
  }
}
