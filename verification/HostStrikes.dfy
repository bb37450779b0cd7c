/** Host accountability over whole runs: a booking carries one HOST_CANCELLED strike
    exactly if the host is to blame for its cancellation, and a host is suspended
    exactly from the third strike on. */
module HostStrikes {
  import opened Wrappers
  import opened Bookings
  import opened CaseInvariants
  import opened Database
  import opened Operations
  import opened Effects
  import opened Runs

  /** The HOST_CANCELLED strikes tied to one booking. */
  function CancelStrikes(strikes: seq<Strike>, id: Id): nat {
    if strikes == [] then 0
    else
      var last := strikes[|strikes| - 1];
      CancelStrikes(strikes[..|strikes| - 1], id)
      + (if last.bookingId == Some(id) && last.reason.HostCancelled? then 1 else 0)
  }

  predicate CancelledByItsHost(bookings: map<Id, Booking>, id: Id) {
    id in bookings && bookings[id].status.CancelledByHost?
  }

  ghost predicate StrikesOk(db: Db) {
    && (forall id :: CancelStrikes(db.strikes, id) == if CancelledByItsHost(db.bookings, id) then 1 else 0)
    && (forall host :: host in db.suspended <==> CountStrikes(db.strikes, host) >= STRIKE_SUSPENSION_THRESHOLD)
  }

  lemma FaultCancels(c: Case, a: CaseAction, c': Case)
    requires CaseOk(c) && CaseNext(c, a) == Success(c') && HostFault(a)
    ensures c'.row.status.CancelledByHost? && !c.row.status.CancelledByHost?
  {
  }

  lemma DecisionsDoNotCancel(c: Case, a: CaseAction, c': Case)
    requires a.ResolvingDispute? || a.ResolvingAppeal?
    requires CaseOk(c) && CaseNext(c, a) == Success(c') && !HostFault(a)
    ensures !c'.row.status.CancelledByHost? && !c.row.status.CancelledByHost?
  {
  }

  lemma OthersDoNotCancel(c: Case, a: CaseAction, c': Case)
    requires CaseOk(c) && CaseNext(c, a) == Success(c') && !HostFault(a)
    ensures c'.row.status.CancelledByHost? <==> c.row.status.CancelledByHost?
  {
    if a.ResolvingDispute? || a.ResolvingAppeal? {
      DecisionsDoNotCancel(c, a, c');
    } else {
      RestDoNotCancel(c, a, c');
    }
  }

  lemma RestDoNotCancel(c: Case, a: CaseAction, c': Case)
    requires !a.ResolvingDispute? && !a.ResolvingAppeal? && !a.CancellingAsHost?
    requires CaseNext(c, a) == Success(c')
    ensures c'.row.status.CancelledByHost? <==> c.row.status.CancelledByHost?
  {
  }

  /** A transition ends in CANCELLED_BY_HOST exactly when it blames the host, which no
      transition does twice. */
  lemma HostFaultIsFinal(c: Case, a: CaseAction, c': Case)
    requires CaseOk(c) && CaseNext(c, a) == Success(c')
    ensures c'.row.status.CancelledByHost? <==> c.row.status.CancelledByHost? || HostFault(a)
    ensures !(c.row.status.CancelledByHost? && HostFault(a))
  {
    if HostFault(a) {
      FaultCancels(c, a, c');
    } else {
      OthersDoNotCancel(c, a, c');
    }
  }

  lemma CountOneMore(strikes: seq<Strike>, s: Strike, id: Id, host: Id)
    ensures CancelStrikes(strikes + [s], id)
            == CancelStrikes(strikes, id) + (if s.bookingId == Some(id) && s.reason.HostCancelled? then 1 else 0)
    ensures CountStrikes(strikes + [s], host) == CountStrikes(strikes, host) + (if s.host == host then 1 else 0)
  {
  }

  /** The strike is counted against its host at once. */
  lemma StrikeSuspends(db: Db, s: Strike, after: Db)
    requires StruckWith(db, s, after)
    requires forall host :: host in db.suspended <==> CountStrikes(db.strikes, host) >= STRIKE_SUSPENSION_THRESHOLD
    ensures forall host :: host in after.suspended <==> CountStrikes(after.strikes, host) >= STRIKE_SUSPENSION_THRESHOLD
  {
  }

  predicate Blames(action: Action, id: Id) {
    action.Acting? && HostFault(action.a) && action.id == id
  }

  lemma BlameIsAnEffect(db: Db, action: Action, id: Id)
    ensures Blames(action, id) <==>
            EffectOf(db, action).Moves? && EffectOf(db, action).id == id && HostFault(EffectOf(db, action).a)
  {
  }

  lemma StatusAfterEffect(db: Db, effect: Effect, after: Db, id: Id)
    requires Shows(db, effect, after) && (effect.Creates? ==> FreshRow(effect.row))
    requires effect.Moves? ==> CaseOk(CaseOf(db, effect.id))
    ensures var blamed := effect.Moves? && effect.id == id && HostFault(effect.a);
            && (CancelledByItsHost(after.bookings, id) <==> CancelledByItsHost(db.bookings, id) || blamed)
            && !(CancelledByItsHost(db.bookings, id) && blamed)
  {
    if effect.Moves? {
      var c, c' := CaseOf(db, effect.id), CaseStep(CaseOf(db, effect.id), effect.a);
      HostFaultIsFinal(c, effect.a, c');
      assert after.bookings == db.bookings[effect.id := c'.row];
    }
  }

  /** How CANCELLED_BY_HOST spreads over the bookings. */
  lemma StatusAfter(db: Db, action: Action, after: Db, id: Id)
    requires DbOk(db) && Next(db, action) == Success(after)
    ensures CancelledByItsHost(after.bookings, id) <==> CancelledByItsHost(db.bookings, id) || Blames(action, id)
    ensures !(CancelledByItsHost(db.bookings, id) && Blames(action, id))
  {
    var effect := EffectOf(db, action);
    NextShows(db, action, after);
    BlameIsAnEffect(db, action, id);
    if effect.Creates? {
      CreatedRowIsFresh(db, action);
    }
    if effect.Moves? {
      assert CaseOk(CaseOf(db, effect.id));
    }
    StatusAfterEffect(db, effect, after, id);
  }

  /** What one action does to the HOST_CANCELLED strikes of a booking, when strikes
      issued by hand use another reason. */
  lemma CancelStrikesAfter(db: Db, action: Action, after: Db, id: Id)
    requires Next(db, action) == Success(after)
    requires action.StrikingFromReport? ==> !action.strike.HostCancelled?
    ensures CancelStrikes(after.strikes, id)
            == CancelStrikes(db.strikes, id) + (if Blames(action, id) then 1 else 0)
  {
    NextBeside(db, action, after);
    NextShows(db, action, after);
    if StrikeOf(db, action).Some? {
      CountOneMore(db.strikes, StrikeOf(db, action).value, id, 0);
    }
  }

  lemma SuspensionsStep(db: Db, action: Action, after: Db)
    requires StrikesOk(db) && Next(db, action) == Success(after)
    ensures forall host :: host in after.suspended <==> CountStrikes(after.strikes, host) >= STRIKE_SUSPENSION_THRESHOLD
  {
    NextBeside(db, action, after);
    if StrikeOf(db, action).Some? {
      StrikeSuspends(db, StrikeOf(db, action).value, after);
    }
  }

  lemma StrikesStep(db: Db, action: Action)
    requires DbOk(db) && StrikesOk(db)
    requires action.StrikingFromReport? ==> !action.strike.HostCancelled?
    ensures StrikesOk(Step(db, action))
  {
    if Next(db, action).Success? {
      var after := Step(db, action);
      forall id: Id
        ensures CancelStrikes(after.strikes, id) == if CancelledByItsHost(after.bookings, id) then 1 else 0
      {
        StatusAfter(db, action, after, id);
        CancelStrikesAfter(db, action, after, id);
      }
      SuspensionsStep(db, action, after);
    }
  }

  /** Strikes issued by hand never claim a cancellation: the only caller passes
      ADMIN_MANUAL. */
  predicate ManualStrikesAreManual(actions: seq<Action>) {
    forall i :: 0 <= i < |actions| && actions[i].StrikingFromReport? ==> !actions[i].strike.HostCancelled?
  }

  lemma {:induction false} StrikesMatchCancellations(actions: seq<Action>)
    requires ManualStrikesAreManual(actions)
    ensures StrikesOk(Run(EMPTY, actions))
  {
    if actions != [] {
      var front := actions[..|actions| - 1];
      StrikesMatchCancellations(front);
      EmptyIsOk();
      RunKeeps(EMPTY, front);
      StrikesStep(Run(EMPTY, front), actions[|actions| - 1]);
    }
  }
}
