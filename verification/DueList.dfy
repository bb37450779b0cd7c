/** The payout due list: built with hash maps over three queries, and agreeing with the
    direct queries `MarkPaid` makes for one booking. */
module DueList {
  import opened Wrappers
  import opened Bookings
  import opened Database
  import opened GlobalLedger

  datatype HoldNote = HoldNote(hold: Id, wholeHost: bool)

  datatype DueBooking = DueBooking(id: Id, hostAmount: int, hold: Option<HoldNote>)

  datatype PayoutGroup = PayoutGroup(host: Id, account: Option<Id>, bookings: seq<DueBooking>, total: int)

  // ---- What the three queries return ----

  /** Every RELEASABLE booking once, earliest check-out first, ties in any order. */
  predicate DueRows(db: Db, rows: seq<Id>) {
    && NoRepeats(rows)
    && (forall i :: 0 <= i < |rows| ==> rows[i] in db.bookings && db.bookings[rows[i]].escrow.Releasable?)
    && (forall id :: id in db.bookings && db.bookings[id].escrow.Releasable? ==> id in rows)
    && (forall i, j :: 0 <= i < j < |rows| ==>
          db.bookings[rows[i]].terms.checkOut <= db.bookings[rows[j]].terms.checkOut)
  }

  /** Every unreleased hold, in any order. */
  predicate HoldRows(holds: map<Id, Hold>, rows: seq<Id>) {
    && (forall i :: 0 <= i < |rows| ==> rows[i] in holds && !holds[rows[i]].released)
    && (forall h :: h in holds && !holds[h].released ==> h in rows)
  }

  /** The accounts of all hosts on the list, newest first. */
  predicate AccountRows(accounts: seq<Account>, hosts: seq<Id>, rows: seq<Account>) {
    && (forall i :: 0 <= i < |rows| ==> rows[i] in accounts)
    && (forall a :: a in accounts && a.user in hosts ==> a in rows)
    && (forall i, j :: 0 <= i < j < |rows| ==> rows[i].createdAt >= rows[j].createdAt)
  }

  // ---- What the list is ----

  function HostOf(db: Db, id: Id): Id
    requires id in db.bookings
  {
    db.bookings[id].terms.host
  }

  predicate Known(db: Db, rows: seq<Id>) {
    forall i :: 0 <= i < |rows| ==> rows[i] in db.bookings
  }

  predicate KnownHolds(holds: map<Id, Hold>, rows: seq<Id>) {
    forall i :: 0 <= i < |rows| ==> rows[i] in holds
  }

  /** The hosts in the order their first booking appears. */
  function Hosts(db: Db, rows: seq<Id>): seq<Id>
    requires Known(db, rows)
  {
    if rows == [] then []
    else
      var before, host := Hosts(db, rows[..|rows| - 1]), HostOf(db, rows[|rows| - 1]);
      if host in before then before else before + [host]
  }

  function OfHost(db: Db, rows: seq<Id>, host: Id): seq<Id>
    requires Known(db, rows)
    ensures Known(db, OfHost(db, rows, host))
  {
    if rows == [] then []
    else
      var before, last := OfHost(db, rows[..|rows| - 1], host), rows[|rows| - 1];
      if HostOf(db, last) == host then before + [last] else before
  }

  /** A hash map keeps the last hold written under a key. */
  function LastHold(holds: map<Id, Hold>, rows: seq<Id>, scope: HoldScope): Option<Id>
    requires KnownHolds(holds, rows)
  {
    if rows == [] then None
    else if holds[rows[|rows| - 1]].scope == scope then Some(rows[|rows| - 1])
    else LastHold(holds, rows[..|rows| - 1], scope)
  }

  /** The account map keeps the first account seen for a host. */
  function FirstAccount(rows: seq<Account>, host: Id): Option<Id> {
    if rows == [] then None
    else
      var before, last := FirstAccount(rows[..|rows| - 1], host), rows[|rows| - 1];
      if before.Some? then before else if last.user == host then Some(last.id) else None
  }

  /** A hold on the booking itself is shown before one on its host. */
  function NoteFor(holds: map<Id, Hold>, rows: seq<Id>, id: Id, host: Id): Option<HoldNote>
    requires KnownHolds(holds, rows)
  {
    var own, wide := LastHold(holds, rows, BookingHold(id)), LastHold(holds, rows, HostHold(host));
    if own.Some? then Some(HoldNote(own.value, false))
    else if wide.Some? then Some(HoldNote(wide.value, true))
    else None
  }

  function Line(db: Db, holdRows: seq<Id>, id: Id): DueBooking
    requires id in db.bookings && KnownHolds(db.holds, holdRows)
  {
    DueBooking(id, db.bookings[id].terms.total - db.bookings[id].terms.commission,
        NoteFor(db.holds, holdRows, id, HostOf(db, id)))
  }

  function Lines(db: Db, holdRows: seq<Id>, ids: seq<Id>): (lines: seq<DueBooking>)
    requires Known(db, ids) && KnownHolds(db.holds, holdRows)
    ensures |lines| == |ids| && forall i :: 0 <= i < |ids| ==> lines[i] == Line(db, holdRows, ids[i])
  {
    if ids == [] then [] else Lines(db, holdRows, ids[..|ids| - 1]) + [Line(db, holdRows, ids[|ids| - 1])]
  }

  /** What can be paid out now: held bookings do not count. */
  function Payable(lines: seq<DueBooking>): int {
    if lines == [] then 0
    else Payable(lines[..|lines| - 1]) + (if lines[|lines| - 1].hold.None? then lines[|lines| - 1].hostAmount else 0)
  }

  function GroupOf(db: Db, rows: seq<Id>, holdRows: seq<Id>, accountRows: seq<Account>, host: Id): PayoutGroup
    requires Known(db, rows) && KnownHolds(db.holds, holdRows)
  {
    var lines := Lines(db, holdRows, OfHost(db, rows, host));
    PayoutGroup(host, FirstAccount(accountRows, host), lines, Payable(lines))
  }

  // ---- How the program builds it ----

  method IndexHolds(holds: map<Id, Hold>, rows: seq<Id>) returns (bookingHold: map<Id, Id>, hostHold: map<Id, Id>)
    requires KnownHolds(holds, rows)
    ensures forall id :: Lookup(bookingHold, id) == LastHold(holds, rows, BookingHold(id))
    ensures forall host :: Lookup(hostHold, host) == LastHold(holds, rows, HostHold(host))
  {
    bookingHold, hostHold := map[], map[];
    for i := 0 to |rows|
      invariant forall id :: Lookup(bookingHold, id) == LastHold(holds, rows[..i], BookingHold(id))
      invariant forall host :: Lookup(hostHold, host) == LastHold(holds, rows[..i], HostHold(host))
    {
      assert rows[..i + 1][..i] == rows[..i];
      match holds[rows[i]].scope {
        case BookingHold(id) => bookingHold := bookingHold[id := rows[i]];
        case HostHold(host) => hostHold := hostHold[host := rows[i]];
      }
    }
    assert rows[..|rows|] == rows;
  }

  method IndexAccounts(rows: seq<Account>) returns (accountByHost: map<Id, Id>)
    ensures forall host :: Lookup(accountByHost, host) == FirstAccount(rows, host)
  {
    accountByHost := map[];
    for i := 0 to |rows|
      invariant forall host :: Lookup(accountByHost, host) == FirstAccount(rows[..i], host)
    {
      assert rows[..i + 1][..i] == rows[..i];
      if rows[i].user !in accountByHost {
        assert Lookup(accountByHost, rows[i].user).None?;
        accountByHost := accountByHost[rows[i].user := rows[i].id];
      } else {
        assert Lookup(accountByHost, rows[i].user).Some?;
      }
    }
    assert rows[..|rows|] == rows;
  }

  function AddLine(group: PayoutGroup, line: DueBooking): PayoutGroup {
    group.(bookings := group.bookings + [line], total := group.total + (if line.hold.None? then line.hostAmount else 0))
  }

  lemma {:induction false} NotSeenYet(db: Db, rows: seq<Id>, host: Id)
    requires Known(db, rows)
    ensures host in Hosts(db, rows) <==> OfHost(db, rows, host) != []
  {
    if rows != [] {
      NotSeenYet(db, rows[..|rows| - 1], host);
    }
  }

  lemma OfHostGrows(db: Db, rows: seq<Id>, id: Id, host: Id)
    requires Known(db, rows) && id in db.bookings
    ensures Known(db, rows + [id])
    ensures OfHost(db, rows + [id], host) == OfHost(db, rows, host) + (if HostOf(db, id) == host then [id] else [])
  {
    assert (rows + [id])[..|rows|] == rows;
  }

  lemma LinesGrow(db: Db, holdRows: seq<Id>, ids: seq<Id>, id: Id)
    requires Known(db, ids) && id in db.bookings && KnownHolds(db.holds, holdRows)
    ensures Known(db, ids + [id])
    ensures Lines(db, holdRows, ids + [id]) == Lines(db, holdRows, ids) + [Line(db, holdRows, id)]
  {
    assert (ids + [id])[..|ids|] == ids;
  }

  lemma PayableGrows(lines: seq<DueBooking>, line: DueBooking)
    ensures Payable([]) == 0
    ensures Payable(lines + [line]) == Payable(lines) + (if line.hold.None? then line.hostAmount else 0)
  {
    assert (lines + [line])[..|lines|] == lines;
  }

  /** One more booking extends its own host's group and no other. */
  lemma GroupGrows(db: Db, rows: seq<Id>, id: Id, holdRows: seq<Id>, accountRows: seq<Account>, host: Id)
    requires Known(db, rows) && id in db.bookings && KnownHolds(db.holds, holdRows)
    ensures Known(db, rows + [id])
    ensures GroupOf(db, rows + [id], holdRows, accountRows, host)
            == if HostOf(db, id) == host then
                 AddLine(GroupOf(db, rows, holdRows, accountRows, host), Line(db, holdRows, id))
               else GroupOf(db, rows, holdRows, accountRows, host)
  {
    var mine := OfHost(db, rows, host);
    OfHostGrows(db, rows, id, host);
    if HostOf(db, id) == host {
      LinesGrow(db, holdRows, mine, id);
      PayableGrows(Lines(db, holdRows, mine), Line(db, holdRows, id));
    }
  }

  lemma HostsGrow(db: Db, rows: seq<Id>, id: Id)
    requires Known(db, rows) && id in db.bookings
    ensures Known(db, rows + [id])
    ensures Hosts(db, rows + [id])
            == if HostOf(db, id) in Hosts(db, rows) then Hosts(db, rows) else Hosts(db, rows) + [HostOf(db, id)]
  {
  }

  /** The map from host to group after the bookings in `rows`. */
  ghost predicate Grouped(db: Db, rows: seq<Id>, holdRows: seq<Id>, accountRows: seq<Account>,
                          byHost: map<Id, PayoutGroup>)
    requires Known(db, rows) && KnownHolds(db.holds, holdRows)
  {
    && (forall h :: h in byHost <==> OfHost(db, rows, h) != [])
    && (forall h :: h in byHost ==> byHost[h] == GroupOf(db, rows, holdRows, accountRows, h))
  }

  lemma SameHostsSeen(db: Db, rows: seq<Id>, id: Id, h: Id)
    requires Known(db, rows) && id in db.bookings
    ensures Known(db, rows + [id])
    ensures OfHost(db, rows + [id], h) != [] <==> OfHost(db, rows, h) != [] || h == HostOf(db, id)
  {
  }

  function GroupSoFar(byHost: map<Id, PayoutGroup>, host: Id, account: Option<Id>): PayoutGroup {
    if host in byHost then byHost[host] else PayoutGroup(host, account, [], 0)
  }

  /** A host's group before its first booking is empty. */
  lemma SoFarIsGroup(db: Db, rows: seq<Id>, holdRows: seq<Id>, accountRows: seq<Account>,
                     byHost: map<Id, PayoutGroup>, host: Id)
    requires Known(db, rows) && KnownHolds(db.holds, holdRows) && Grouped(db, rows, holdRows, accountRows, byHost)
    ensures GroupSoFar(byHost, host, FirstAccount(accountRows, host)) == GroupOf(db, rows, holdRows, accountRows, host)
  {
  }

  /** Adding the line to its group, new or old, groups one more booking. */
  lemma PlacedLine(db: Db, rows: seq<Id>, id: Id, holdRows: seq<Id>, accountRows: seq<Account>,
                   byHost: map<Id, PayoutGroup>)
    requires Known(db, rows) && id in db.bookings && KnownHolds(db.holds, holdRows)
    requires Grouped(db, rows, holdRows, accountRows, byHost)
    ensures Known(db, rows + [id])
    ensures var group := GroupSoFar(byHost, HostOf(db, id), FirstAccount(accountRows, HostOf(db, id)));
            Grouped(db, rows + [id], holdRows, accountRows,
                byHost[HostOf(db, id) := AddLine(group, Line(db, holdRows, id))])
  {
    SoFarIsGroup(db, rows, holdRows, accountRows, byHost, HostOf(db, id));
    var grown := AddLine(GroupOf(db, rows, holdRows, accountRows, HostOf(db, id)), Line(db, holdRows, id));
    var after := byHost[HostOf(db, id) := grown];
    forall h: Id
      ensures Known(db, rows + [id])
      ensures h in after <==> OfHost(db, rows + [id], h) != []
      ensures h in after ==> after[h] == GroupOf(db, rows + [id], holdRows, accountRows, h)
    {
      SameHostsSeen(db, rows, id, h);
      GroupGrows(db, rows, id, holdRows, accountRows, h);
    }
  }

  /** The three indexes, checked against the queries they were built from. */
  ghost predicate Indexed(holds: map<Id, Hold>, holdRows: seq<Id>, accountRows: seq<Account>,
                          bookingHold: map<Id, Id>, hostHold: map<Id, Id>, accountByHost: map<Id, Id>)
    requires KnownHolds(holds, holdRows)
  {
    && (forall id :: Lookup(bookingHold, id) == LastHold(holds, holdRows, BookingHold(id)))
    && (forall host :: Lookup(hostHold, host) == LastHold(holds, holdRows, HostHold(host)))
    && (forall host :: Lookup(accountByHost, host) == FirstAccount(accountRows, host))
  }

  /** One turn of the grouping loop. */
  method Place(db: Db, ghost seen: seq<Id>, id: Id, ghost holdRows: seq<Id>, ghost accountRows: seq<Account>,
               bookingHold: map<Id, Id>, hostHold: map<Id, Id>, accountByHost: map<Id, Id>,
               byHost: map<Id, PayoutGroup>, order: seq<Id>)
    returns (byHost': map<Id, PayoutGroup>, order': seq<Id>)
    requires Known(db, seen) && id in db.bookings && KnownHolds(db.holds, holdRows)
    requires Indexed(db.holds, holdRows, accountRows, bookingHold, hostHold, accountByHost)
    requires order == Hosts(db, seen) && Grouped(db, seen, holdRows, accountRows, byHost)
    ensures Known(db, seen + [id])
    ensures order' == Hosts(db, seen + [id]) && Grouped(db, seen + [id], holdRows, accountRows, byHost')
  {
    var booking := db.bookings[id];
    var host := booking.terms.host;
    HostsGrow(db, seen, id);
    NotSeenYet(db, seen, host);
    PlacedLine(db, seen, id, holdRows, accountRows, byHost);
    order' := if host in byHost then order else order + [host];
    var group := GroupSoFar(byHost, host, Lookup(accountByHost, host));
    var own, wide := Lookup(bookingHold, id), Lookup(hostHold, host);
    var note := None;
    if own.Some? {
      note := Some(HoldNote(own.value, false));
    } else if wide.Some? {
      note := Some(HoldNote(wide.value, true));
    }
    var line := DueBooking(id, booking.terms.total - booking.terms.commission, note);
    assert line == Line(db, holdRows, id);
    byHost' := byHost[host := AddLine(group, line)];
  }

  /** One pass over the bookings; `order` remembers the order the hosts came in, as the
      map's own iteration order does. */
  method GroupByHost(db: Db, rows: seq<Id>, holdRows: seq<Id>, accountRows: seq<Account>)
    returns (byHost: map<Id, PayoutGroup>, order: seq<Id>)
    requires Known(db, rows) && KnownHolds(db.holds, holdRows)
    ensures order == Hosts(db, rows) && Grouped(db, rows, holdRows, accountRows, byHost)
  {
    var bookingHold, hostHold := IndexHolds(db.holds, holdRows);
    var accountByHost := IndexAccounts(accountRows);
    byHost, order := map[], [];
    for i := 0 to |rows|
      invariant Known(db, rows[..i])
      invariant order == Hosts(db, rows[..i]) && Grouped(db, rows[..i], holdRows, accountRows, byHost)
    {
      assert rows[..i + 1] == rows[..i] + [rows[i]];
      byHost, order := Place(db, rows[..i], rows[i], holdRows, accountRows, bookingHold, hostHold, accountByHost,
          byHost, order);
    }
    assert rows[..|rows|] == rows;
  }

  /** The due list: the groups in the order their hosts first appeared. */
  method LoadPayoutDueList(db: Db, rows: seq<Id>, holdRows: seq<Id>, accountRows: seq<Account>)
    returns (groups: seq<PayoutGroup>)
    requires Known(db, rows) && KnownHolds(db.holds, holdRows)
    ensures |groups| == |Hosts(db, rows)|
    ensures forall g :: 0 <= g < |groups| ==> groups[g] == GroupOf(db, rows, holdRows, accountRows, Hosts(db, rows)[g])
  {
    var byHost, order := GroupByHost(db, rows, holdRows, accountRows);
    groups := [];
    for g := 0 to |order|
      invariant |groups| == g
      invariant forall k :: 0 <= k < g ==> groups[k] == GroupOf(db, rows, holdRows, accountRows, order[k])
    {
      NotSeenYet(db, rows, order[g]);
      groups := groups + [byHost[order[g]]];
    }
  }
}
