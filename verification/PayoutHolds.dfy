/** What an administrator's hold covers: one booking, or every booking of one host. */
module PayoutHolds {
  import opened Wrappers
  import opened Bookings
  import opened Database
  import opened Operations

  /** Marking the booking paid is refused for a hold. */
  ghost predicate PayoutsRefused(db: Db, id: Id) {
    forall admin, slip, balance :: Trim(slip) != "" ==> MarkPaid(db, admin, id, slip, balance) == Failure(OnHold)
  }

  lemma ActiveHoldRefuses(db: Db, id: Id)
    requires id in db.bookings && db.bookings[id].escrow.Releasable? && ActiveHold(db, id, db.bookings[id].terms.host)
    ensures PayoutsRefused(db, id)
  {
  }

  /** One hold has been added, and nothing else has changed. */
  predicate HoldAdded(db: Db, hold: Id, after: Db) {
    hold !in db.holds && hold in after.holds && after == db.(holds := db.holds[hold := after.holds[hold]])
  }

  /** When a hold is accepted, and what each refusal is for. */
  lemma PlaceHoldAcceptedIff(db: Db, hold: Id, id: Option<Id>, host: Option<Id>, reason: string)
    ensures var r := PlaceHold(db, hold, id, host, reason);
            && (r == Failure(TargetRequired) <==> (id.Some? && host.Some?) || (id.None? && host.None?))
            && (r == Failure(ReasonRequired) <==> id.Some? != host.Some? && Trim(reason) == "")
            && (r == Failure(NotFound)
                <==> id.Some? && host.None? && Trim(reason) != "" && id.value !in db.bookings)
            && (r == Failure(DuplicateRow)
                <==> id.Some? != host.Some? && Trim(reason) != "" && (id.Some? ==> id.value in db.bookings)
                     && hold in db.holds)
            && (r.Success? <==> id.Some? != host.Some? && Trim(reason) != "" && (id.Some? ==> id.value in db.bookings)
                                && hold !in db.holds)
  {
  }

  lemma Added(db: Db, hold: Id, id: Option<Id>, host: Option<Id>, reason: string, after: Db)
    requires PlaceHold(db, hold, id, host, reason) == Success(after)
    ensures HoldAdded(db, hold, after) && !after.holds[hold].released && after.holds[hold].reason == Trim(reason)
    ensures after.holds[hold].scope == if host.Some? then HostHold(host.value) else BookingHold(id.value)
  {
  }

  /** One more hold adds what it covers itself, and nothing else. */
  lemma CoverageGrows(db: Db, hold: Id, after: Db, id: Id, host: Id)
    requires HoldAdded(db, hold, after)
    ensures ActiveHold(after, id, host) <==> ActiveHold(db, id, host) || Covers(after.holds[hold], id, host)
  {
    if ActiveHold(db, id, host) {
      var h :| h in db.holds && Covers(db.holds[h], id, host);
      assert h in after.holds && Covers(after.holds[h], id, host);
    }
    if ActiveHold(after, id, host) && !Covers(after.holds[hold], id, host) {
      var h :| h in after.holds && Covers(after.holds[h], id, host);
      assert h in db.holds && Covers(db.holds[h], id, host);
    }
  }

  predicate DueTo(row: Booking, host: Id) {
    row.terms.host == host && row.escrow.Releasable?
  }

  /** A hold on a host covers every booking of that host, present or future, so that none
      of them is paid out; all other bookings are covered as before. */
  lemma HostHoldCoversTheHost(db: Db, hold: Id, host: Id, reason: string, after: Db)
    requires PlaceHold(db, hold, None, Some(host), reason) == Success(after)
    ensures HoldAdded(db, hold, after) && after.holds[hold].reason == Trim(reason)
    ensures forall id :: ActiveHold(after, id, host)
    ensures forall id :: id in after.bookings && DueTo(after.bookings[id], host) ==> PayoutsRefused(after, id)
    ensures forall id, other :: other != host ==> (ActiveHold(after, id, other) <==> ActiveHold(db, id, other))
  {
    Added(db, hold, None, Some(host), reason, after);
    forall id: Id, other: Id
      ensures ActiveHold(after, id, other) <==> ActiveHold(db, id, other) || other == host
    {
      CoverageGrows(db, hold, after, id, other);
    }
    forall id | id in after.bookings && DueTo(after.bookings[id], host)
      ensures PayoutsRefused(after, id)
    {
      ActiveHoldRefuses(after, id);
    }
  }

  /** A hold on a booking covers that booking, whoever its host is, and no other. */
  lemma BookingHoldCoversTheBooking(db: Db, hold: Id, id: Id, reason: string, after: Db)
    requires PlaceHold(db, hold, Some(id), None, reason) == Success(after)
    ensures HoldAdded(db, hold, after) && after.holds[hold].reason == Trim(reason)
    ensures forall host :: ActiveHold(after, id, host)
    ensures id in after.bookings && (after.bookings[id].escrow.Releasable? ==> PayoutsRefused(after, id))
    ensures forall other, host :: other != id ==> (ActiveHold(after, other, host) <==> ActiveHold(db, other, host))
  {
    Added(db, hold, Some(id), None, reason, after);
    forall other: Id, host: Id
      ensures ActiveHold(after, other, host) <==> ActiveHold(db, other, host) || other == id
    {
      CoverageGrows(db, hold, after, other, host);
    }
    if after.bookings[id].escrow.Releasable? {
      ActiveHoldRefuses(after, id);
    }
  }

  /** Releasing a hold: accepted exactly for one that is there and active; afterwards a
      booking is covered exactly if some other active hold covers it. */
  lemma ReleasingUncovers(db: Db, hold: Id)
    ensures var r := ReleaseHold(db, hold);
            && (r.Success? <==> hold in db.holds && !db.holds[hold].released)
            && (r.Failure? ==> r.error == NotFound)
            && (r.Success? ==>
                  && r.value == db.(holds := db.holds[hold := db.holds[hold].(released := true)])
                  && forall id, host :: ActiveHold(r.value, id, host)
                       <==> exists h :: h in db.holds && h != hold && Covers(db.holds[h], id, host))
  {
    if ReleaseHold(db, hold).Success? {
      var after := ReleaseHold(db, hold).value;
      forall id: Id, host: Id
        ensures ActiveHold(after, id, host)
                <==> exists h :: h in db.holds && h != hold && Covers(db.holds[h], id, host)
      {
        OthersStillCover(db, hold, after, id, host);
      }
    }
  }

  lemma OthersStillCover(db: Db, hold: Id, after: Db, id: Id, host: Id)
    requires ReleaseHold(db, hold) == Success(after)
    ensures ActiveHold(after, id, host)
            <==> exists h :: h in db.holds && h != hold && Covers(db.holds[h], id, host)
  {
    if ActiveHold(after, id, host) {
      var h :| h in after.holds && Covers(after.holds[h], id, host);
      assert h in db.holds && h != hold && Covers(db.holds[h], id, host);
    }
    if exists h :: h in db.holds && h != hold && Covers(db.holds[h], id, host) {
      var h :| h in db.holds && h != hold && Covers(db.holds[h], id, host);
      assert h in after.holds && Covers(after.holds[h], id, host);
    }
  }

  /** A hold that is placed and released leaves every booking covered as before. */
  lemma PlacedAndReleased(db: Db, hold: Id, id: Option<Id>, host: Option<Id>, reason: string, held: Db, after: Db)
    requires PlaceHold(db, hold, id, host, reason) == Success(held) && ReleaseHold(held, hold) == Success(after)
    ensures forall other, whose :: ActiveHold(after, other, whose) <==> ActiveHold(db, other, whose)
  {
    Added(db, hold, id, host, reason, held);
    forall other: Id, whose: Id
      ensures ActiveHold(after, other, whose) <==> ActiveHold(db, other, whose)
    {
      OthersStillCover(held, hold, after, other, whose);
      if ActiveHold(db, other, whose) {
        var h :| h in db.holds && Covers(db.holds[h], other, whose);
        assert h in held.holds && h != hold && Covers(held.holds[h], other, whose);
      }
    }
  }
}
