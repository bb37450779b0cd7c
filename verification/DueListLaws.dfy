/** What the due list shows, against what `MarkPaid` would find for each booking. */
module DueListLaws {
  import opened Wrappers
  import opened Bookings
  import opened CaseInvariants
  import opened Database
  import opened Operations
  import opened GlobalLedger
  import opened DueList

  // ---- Holds ----

  lemma {:induction false} LastHoldFinds(holds: map<Id, Hold>, rows: seq<Id>, scope: HoldScope)
    requires KnownHolds(holds, rows)
    ensures LastHold(holds, rows, scope).None? ==> forall i :: 0 <= i < |rows| ==> holds[rows[i]].scope != scope
    ensures LastHold(holds, rows, scope).Some? ==>
              LastHold(holds, rows, scope).value in rows && holds[LastHold(holds, rows, scope).value].scope == scope
  {
    if rows != [] {
      LastHoldFinds(holds, rows[..|rows| - 1], scope);
    }
  }

  /** The list finds a hold in a scope exactly if the direct query would. */
  lemma HoldInScope(holds: map<Id, Hold>, rows: seq<Id>, scope: HoldScope)
    requires KnownHolds(holds, rows) && HoldRows(holds, rows)
    ensures LastHold(holds, rows, scope).Some?
            <==> exists h :: h in holds && !holds[h].released && holds[h].scope == scope
    ensures LastHold(holds, rows, scope).Some? ==>
              var h := LastHold(holds, rows, scope).value; h in holds && !holds[h].released && holds[h].scope == scope
  {
    LastHoldFinds(holds, rows, scope);
  }

  /** The note is there exactly when the active-hold query finds one, it names a hold
      that covers the booking, and it prefers a hold on the booking itself. */
  lemma NoteIffActiveHold(db: Db, rows: seq<Id>, id: Id, host: Id)
    requires KnownHolds(db.holds, rows) && HoldRows(db.holds, rows)
    ensures NoteFor(db.holds, rows, id, host).Some? <==> ActiveHold(db, id, host)
    ensures NoteFor(db.holds, rows, id, host).Some? ==>
              var note := NoteFor(db.holds, rows, id, host).value;
              && note.hold in db.holds && Covers(db.holds[note.hold], id, host)
              && db.holds[note.hold].scope == (if note.wholeHost then HostHold(host) else BookingHold(id))
              && (note.wholeHost ==>
                    forall h :: h in db.holds && !db.holds[h].released ==> db.holds[h].scope != BookingHold(id))
  {
    HoldInScope(db.holds, rows, BookingHold(id));
    HoldInScope(db.holds, rows, HostHold(host));
    if ActiveHold(db, id, host) {
      var h :| h in db.holds && Covers(db.holds[h], id, host);
      assert db.holds[h].scope == BookingHold(id) || db.holds[h].scope == HostHold(host);
    }
  }

  // ---- Accounts ----

  lemma {:induction false} NewestFinds(accounts: seq<Account>, host: Id)
    ensures var found := NewestAccount(accounts, host);
            && (found.None? ==> forall i :: 0 <= i < |accounts| ==> accounts[i].user != host)
            && (found.Some? ==> found.value in accounts && found.value.user == host)
            && (found.Some? ==>
                  forall i :: 0 <= i < |accounts| && accounts[i].user == host ==>
                    accounts[i].createdAt <= found.value.createdAt)
  {
    if accounts != [] {
      NewestFinds(accounts[..|accounts| - 1], host);
    }
  }

  lemma {:induction false} FirstFinds(rows: seq<Account>, host: Id) returns (k: nat)
    ensures FirstAccount(rows, host).None? ==> forall i :: 0 <= i < |rows| ==> rows[i].user != host
    ensures FirstAccount(rows, host).Some? ==>
              k < |rows| && rows[k].user == host && rows[k].id == FirstAccount(rows, host).value
              && forall i :: 0 <= i < k ==> rows[i].user != host
  {
    k := 0;
    if rows != [] {
      k := FirstFinds(rows[..|rows| - 1], host);
      if FirstAccount(rows[..|rows| - 1], host).None? {
        k := |rows| - 1;
      }
    }
  }

  /** A host's accounts were created at different times. */
  predicate DistinctCreation(accounts: seq<Account>) {
    forall i, j :: 0 <= i < |accounts| && 0 <= j < |accounts| ==>
      (accounts[i].user == accounts[j].user && accounts[i].createdAt == accounts[j].createdAt ==>
         accounts[i] == accounts[j])
  }

  /** The account shown for a host is the newest one, which is the one paid. */
  lemma AccountIsNewest(accounts: seq<Account>, hosts: seq<Id>, rows: seq<Account>, host: Id)
    requires AccountRows(accounts, hosts, rows) && host in hosts && DistinctCreation(accounts)
    ensures var newest := NewestAccount(accounts, host);
            FirstAccount(rows, host) == if newest.Some? then Some(newest.value.id) else None
  {
    NewestFinds(accounts, host);
    var newest := NewestAccount(accounts, host);
    var k := FirstFinds(rows, host);
    if newest.Some? {
      assert newest.value in rows;
      var j :| 0 <= j < |rows| && rows[j] == newest.value;
      assert FirstAccount(rows, host).Some?;
      assert rows[k] in accounts;
      var i :| 0 <= i < |accounts| && accounts[i] == rows[k];
      assert rows[k].createdAt >= rows[j].createdAt;
    }
  }

  // ---- Grouping ----

  lemma {:induction false} HostsAreDistinct(db: Db, rows: seq<Id>)
    requires Known(db, rows)
    ensures NoRepeats(Hosts(db, rows))
  {
    if rows != [] {
      HostsAreDistinct(db, rows[..|rows| - 1]);
    }
  }

  lemma {:induction false} OfHostIsSound(db: Db, rows: seq<Id>, host: Id)
    requires Known(db, rows) && NoRepeats(rows)
    ensures NoRepeats(OfHost(db, rows, host))
    ensures forall i :: 0 <= i < |OfHost(db, rows, host)| ==>
              OfHost(db, rows, host)[i] in rows && HostOf(db, OfHost(db, rows, host)[i]) == host
  {
    if rows != [] {
      OfHostIsSound(db, rows[..|rows| - 1], host);
    }
  }

  /** Every booking is somewhere in its own host's group. */
  lemma {:induction false} OfHostIsComplete(db: Db, rows: seq<Id>, i: nat) returns (k: nat)
    requires Known(db, rows) && i < |rows|
    ensures k < |OfHost(db, rows, HostOf(db, rows[i]))| && OfHost(db, rows, HostOf(db, rows[i]))[k] == rows[i]
  {
    if i == |rows| - 1 {
      k := |OfHost(db, rows, HostOf(db, rows[i]))| - 1;
    } else {
      k := OfHostIsComplete(db, rows[..|rows| - 1], i);
    }
  }

  predicate ByCheckOut(db: Db, rows: seq<Id>)
    requires Known(db, rows)
  {
    forall i, j :: 0 <= i < j < |rows| ==> db.bookings[rows[i]].terms.checkOut <= db.bookings[rows[j]].terms.checkOut
  }

  /** Within a group the bookings come in the order of the list, earliest check-out first. */
  lemma {:induction false} GroupByCheckOut(db: Db, rows: seq<Id>, host: Id)
    requires Known(db, rows) && ByCheckOut(db, rows)
    ensures ByCheckOut(db, OfHost(db, rows, host))
    ensures OfHost(db, rows, host) != [] ==>
              forall i :: 0 <= i < |OfHost(db, rows, host)| ==>
                db.bookings[OfHost(db, rows, host)[i]].terms.checkOut <= db.bookings[rows[|rows| - 1]].terms.checkOut
  {
    if rows != [] {
      var n := |rows| - 1;
      GroupByCheckOut(db, rows[..n], host);
      if n > 0 {
        assert db.bookings[rows[n - 1]].terms.checkOut <= db.bookings[rows[n]].terms.checkOut;
      }
    }
  }

  /** When the first booking listed for a host checks out. */
  function Earliest(db: Db, rows: seq<Id>, host: Id): int
    requires Known(db, rows) && OfHost(db, rows, host) != []
  {
    db.bookings[OfHost(db, rows, host)[0]].terms.checkOut
  }

  lemma EarliestStays(db: Db, rows: seq<Id>, host: Id)
    requires Known(db, rows) && rows != [] && OfHost(db, rows[..|rows| - 1], host) != []
    ensures OfHost(db, rows, host) != [] && Earliest(db, rows, host) == Earliest(db, rows[..|rows| - 1], host)
  {
  }

  /** The first booking listed for any host checks out no later than a later row. */
  lemma {:induction false} EarliestIsEarly(db: Db, rows: seq<Id>, host: Id, bound: int)
    requires Known(db, rows) && OfHost(db, rows, host) != []
    requires forall i :: 0 <= i < |rows| ==> db.bookings[rows[i]].terms.checkOut <= bound
    ensures Earliest(db, rows, host) <= bound
  {
    if OfHost(db, rows[..|rows| - 1], host) != [] {
      EarliestStays(db, rows, host);
      EarliestIsEarly(db, rows[..|rows| - 1], host, bound);
    }
  }

  /** It is the earliest check-out of all the host's bookings on the list. */
  lemma {:induction false} EarliestIsTheMinimum(db: Db, rows: seq<Id>, i: nat)
    requires Known(db, rows) && ByCheckOut(db, rows) && i < |rows|
    ensures OfHost(db, rows, HostOf(db, rows[i])) != []
    ensures Earliest(db, rows, HostOf(db, rows[i])) <= db.bookings[rows[i]].terms.checkOut
  {
    var front, host := rows[..|rows| - 1], HostOf(db, rows[i]);
    if i < |rows| - 1 {
      EarliestIsTheMinimum(db, front, i);
      EarliestStays(db, rows, host);
    } else {
      EarliestIsEarly(db, rows, host, db.bookings[rows[i]].terms.checkOut);
    }
  }

  /** Groups come in the order of their earliest check-out: no booking of a host whose
      group comes later checks out before all bookings of a host whose group comes
      earlier. */
  lemma GroupsByEarliest(db: Db, rows: seq<Id>, g: nat, k: nat, i: nat)
    requires Known(db, rows) && ByCheckOut(db, rows) && g < k < |Hosts(db, rows)|
    requires i < |rows| && HostOf(db, rows[i]) == Hosts(db, rows)[k]
    ensures exists j :: 0 <= j < |rows| && HostOf(db, rows[j]) == Hosts(db, rows)[g]
                        && db.bookings[rows[j]].terms.checkOut <= db.bookings[rows[i]].terms.checkOut
  {
    FirstsAreOrdered(db, rows, g, k);
    EarliestIsTheMinimum(db, rows, i);
    var j := FirstIsListed(db, rows, Hosts(db, rows)[g]);
  }

  lemma {:induction false} FirstIsListed(db: Db, rows: seq<Id>, host: Id) returns (j: nat)
    requires Known(db, rows) && OfHost(db, rows, host) != []
    ensures j < |rows| && HostOf(db, rows[j]) == host && rows[j] == OfHost(db, rows, host)[0]
  {
    j := |rows| - 1;
    if OfHost(db, rows[..|rows| - 1], host) != [] {
      j := FirstIsListed(db, rows[..|rows| - 1], host);
    }
  }

  /** The first bookings of the groups are in order. */
  lemma {:induction false} FirstsAreOrdered(db: Db, rows: seq<Id>, g: nat, k: nat)
    requires Known(db, rows) && ByCheckOut(db, rows) && g < k < |Hosts(db, rows)|
    ensures OfHost(db, rows, Hosts(db, rows)[g]) != [] && OfHost(db, rows, Hosts(db, rows)[k]) != []
    ensures Earliest(db, rows, Hosts(db, rows)[g]) <= Earliest(db, rows, Hosts(db, rows)[k])
  {
    var front := rows[..|rows| - 1];
    var hg, hk := Hosts(db, rows)[g], Hosts(db, rows)[k];
    NotSeenYet(db, rows, hg);
    NotSeenYet(db, rows, hk);
    NotSeenYet(db, front, hg);
    NotSeenYet(db, front, hk);
    assert Hosts(db, front)[g] == hg;
    EarliestStays(db, rows, hg);
    if k < |Hosts(db, front)| {
      assert Hosts(db, front)[k] == hk;
      EarliestStays(db, rows, hk);
      FirstsAreOrdered(db, front, g, k);
    } else {
      EarliestIsEarly(db, front, hg, db.bookings[rows[|rows| - 1]].terms.checkOut);
      HostsAreDistinct(db, rows);
      assert OfHost(db, front, hk) == [];
    }
  }

  /** The list as the method returns it. */
  predicate IsDueList(db: Db, rows: seq<Id>, holdRows: seq<Id>, accountRows: seq<Account>, groups: seq<PayoutGroup>)
    requires Known(db, rows) && KnownHolds(db.holds, holdRows)
  {
    && |groups| == |Hosts(db, rows)|
    && forall g :: 0 <= g < |groups| ==> groups[g] == GroupOf(db, rows, holdRows, accountRows, Hosts(db, rows)[g])
  }

  /** Every RELEASABLE booking appears under its own host. */
  lemma EveryDueBookingIsListed(db: Db, rows: seq<Id>, holdRows: seq<Id>, accountRows: seq<Account>,
                                groups: seq<PayoutGroup>, id: Id)
    returns (g: nat, k: nat)
    requires DueRows(db, rows) && KnownHolds(db.holds, holdRows) && IsDueList(db, rows, holdRows, accountRows, groups)
    requires id in db.bookings && db.bookings[id].escrow.Releasable?
    ensures g < |groups| && k < |groups[g].bookings| && groups[g].bookings[k].id == id
            && groups[g].host == HostOf(db, id)
  {
    var i :| 0 <= i < |rows| && rows[i] == id;
    k := OfHostIsComplete(db, rows, i);
    NotSeenYet(db, rows, HostOf(db, id));
    g :| 0 <= g < |Hosts(db, rows)| && Hosts(db, rows)[g] == HostOf(db, id);
  }

  /** Nothing else is listed, and nothing twice: one group per host, each line a
      RELEASABLE booking of that host, all lines different. */
  lemma NothingIsListedTwice(db: Db, rows: seq<Id>, holdRows: seq<Id>, accountRows: seq<Account>,
                             groups: seq<PayoutGroup>,
                             g: nat, k: nat, g': nat, k': nat)
    requires DueRows(db, rows) && KnownHolds(db.holds, holdRows) && IsDueList(db, rows, holdRows, accountRows, groups)
    requires g < |groups| && k < |groups[g].bookings| && g' < |groups| && k' < |groups[g'].bookings|
    ensures var id := groups[g].bookings[k].id;
            id in db.bookings && db.bookings[id].escrow.Releasable? && HostOf(db, id) == groups[g].host
    ensures groups[g].host == groups[g'].host <==> g == g'
    ensures groups[g].bookings[k].id == groups[g'].bookings[k'].id <==> g == g' && k == k'
  {
    HostsAreDistinct(db, rows);
    OfHostIsSound(db, rows, Hosts(db, rows)[g]);
    OfHostIsSound(db, rows, Hosts(db, rows)[g']);
    var id := OfHost(db, rows, Hosts(db, rows)[g])[k];
    var i :| 0 <= i < |rows| && rows[i] == id;
  }

  /** The operation succeeded and recorded this payout. */
  predicate PaidAs(r: Result<Db, Error>, id: Id, payout: Payout) {
    && r.Success? && id in r.value.bookings && r.value.bookings[id].escrow.Paid?
    && id in r.value.payouts && r.value.payouts[id] == payout
  }

  /** A line on the list says what `MarkPaid` would do with the booking, given a slip and
      a balance that pass: refuse it for a hold, refuse it for want of an account, or
      pay exactly the amount shown to the account shown. */
  lemma ListAgreesWithMarkPaid(db: Db, rows: seq<Id>, holdRows: seq<Id>, accountRows: seq<Account>,
                               id: Id, admin: Id, slipRef: string, balance: int)
    requires DueRows(db, rows) && KnownHolds(db.holds, holdRows) && HoldRows(db.holds, holdRows)
    requires AccountRows(db.accounts, Hosts(db, rows), accountRows) && DistinctCreation(db.accounts)
    requires id in db.bookings && db.bookings[id].escrow.Releasable? && CaseOk(CaseOf(db, id))
    requires Trim(slipRef) != "" && ReconcileOk(db.ledger, balance)
    ensures var line, account := Line(db, holdRows, id), FirstAccount(accountRows, HostOf(db, id));
            var paid := MarkPaid(db, admin, id, slipRef, balance);
            if line.hold.Some? then paid == Failure(OnHold)
            else if account.None? then paid == Failure(NoPayoutAccount)
            else PaidAs(paid, id, Payout(account.value, line.hostAmount, Trim(slipRef), admin))
  {
    var host := HostOf(db, id);
    NoteIffActiveHold(db, holdRows, id, host);
    var i :| 0 <= i < |rows| && rows[i] == id;
    var k := OfHostIsComplete(db, rows, i);
    NotSeenYet(db, rows, host);
    AccountIsNewest(db.accounts, Hosts(db, rows), accountRows, host);
    var newest := NewestAccount(db.accounts, host);
    if newest.Some? {
      PaidOutAs(db, id, admin, newest.value.id, Trim(slipRef));
    }
  }

  lemma PaidOutAs(db: Db, id: Id, admin: Id, account: Id, slip: string)
    requires id in db.bookings && db.bookings[id].escrow.Releasable? && CaseOk(CaseOf(db, id))
    ensures PaidAs(Act(db, id, PayingOut(admin, account, slip)), id,
                   Payout(account, db.bookings[id].terms.total - db.bookings[id].terms.commission, slip, admin))
  {
  }
}
