/** Code issuance over whole runs: for every month the numbers handed out are exactly
    1 to k, with k the number of committed confirmations, and no two bookings share a
    code. Rolled-back confirmations leave no gap. */
module BookingCodes {
  import opened Wrappers
  import opened Codes
  import opened Bookings
  import opened CaseInvariants
  import opened Database
  import opened Operations
  import opened Effects
  import opened Runs

  /** The codes stored on the bookings. */
  function Issued(bookings: map<Id, Booking>): map<Id, Code> {
    map id | id in bookings && bookings[id].code.Some? :: bookings[id].code.value
  }

  /** The bookings confirmed in one month. */
  function IssuedIn(issued: map<Id, Code>, month: YearMonth): set<Id> {
    set id | id in issued && issued[id].month == month
  }

  ghost predicate CodesOk(issued: map<Id, Code>, counters: map<YearMonth, nat>) {
    && (forall month :: |IssuedIn(issued, month)| == Counter(counters, month))
    && (forall id :: id in issued ==> 1 <= issued[id].number <= Counter(counters, issued[id].month))
    && (forall id, other :: id in issued && other in issued && issued[id] == issued[other] ==> id == other)
    && (forall month, n: nat :: 1 <= n <= Counter(counters, month) ==> Code(month, n) in issued.Values)
  }

  lemma IssueCounts(issued: map<Id, Code>, id: Id, code: Code, month: YearMonth)
    requires id !in issued
    ensures |IssuedIn(issued[id := code], month)| == |IssuedIn(issued, month)| + (if month == code.month then 1 else 0)
  {
    assert IssuedIn(issued[id := code], month) == if month == code.month then IssuedIn(issued, month) + {id}
                                                  else IssuedIn(issued, month);
  }

  lemma IssueCovers(issued: map<Id, Code>, id: Id, code: Code, held: Code)
    requires id !in issued && (held in issued.Values || held == code)
    ensures held in issued[id := code].Values
  {
    if held == code {
      assert issued[id := code][id] == held;
    } else {
      var holder :| holder in issued && issued[holder] == held;
      assert issued[id := code][holder] == held;
    }
  }

  /** Handing out the next number of a month keeps the numbering gap-free. */
  lemma IssueKeeps(issued: map<Id, Code>, counters: map<YearMonth, nat>, id: Id, month: YearMonth)
    requires CodesOk(issued, counters) && id !in issued
    ensures CodesOk(issued[id := Code(month, Counter(counters, month) + 1)],
            counters[month := Counter(counters, month) + 1])
  {
    var code := Code(month, Counter(counters, month) + 1);
    var issued', counters' := issued[id := code], counters[month := code.number];
    forall m: YearMonth
      ensures |IssuedIn(issued', m)| == Counter(counters', m)
    {
      IssueCounts(issued, id, code, m);
    }
    forall m: YearMonth, n: nat | 1 <= n <= Counter(counters', m)
      ensures Code(m, n) in issued'.Values
    {
      IssueCovers(issued, id, code, Code(m, n));
    }
  }

  /** Only a confirmation writes a code, and only onto a booking that has none. */
  lemma CodeWrittenOnce(c: Case, a: CaseAction, c': Case)
    requires CaseOk(c) && CaseNext(c, a) == Success(c')
    ensures if a.Confirming? then c.row.code.None? && c'.row.code == Some(a.code) else c'.row.code == c.row.code
  {
  }

  lemma RowIssues(bookings: map<Id, Booking>, id: Id, row: Booking)
    requires id in bookings
    ensures row.code == bookings[id].code ==> Issued(bookings[id := row]) == Issued(bookings)
    ensures row.code.Some? ==> Issued(bookings[id := row]) == Issued(bookings)[id := row.code.value]
  {
  }

  lemma MoveIssues(db: Db, id: Id, a: CaseAction, after: Db)
    requires Shows(db, Moves(id, a), after) && CaseOk(CaseOf(db, id))
    ensures if a.Confirming? then
              id !in Issued(db.bookings) && Issued(after.bookings) == Issued(db.bookings)[id := a.code]
            else Issued(after.bookings) == Issued(db.bookings)
  {
    var c := CaseNext(CaseOf(db, id), a).value;
    CodeWrittenOnce(CaseOf(db, id), a, c);
    RowIssues(db.bookings, id, c.row);
  }

  lemma NewRowIssues(bookings: map<Id, Booking>, id: Id, row: Booking)
    requires id !in bookings && row.code.None?
    ensures Issued(bookings[id := row]) == Issued(bookings)
  {
  }

  predicate Confirms(effect: Effect) {
    effect.Moves? && effect.a.Confirming?
  }

  lemma EffectIssues(db: Db, effect: Effect, after: Db)
    requires Shows(db, effect, after) && (effect.Creates? ==> FreshRow(effect.row))
    requires effect.Moves? ==> CaseOk(CaseOf(db, effect.id))
    ensures Confirms(effect) ==>
              effect.id !in Issued(db.bookings)
                  && Issued(after.bookings) == Issued(db.bookings)[effect.id := effect.a.code]
    ensures !Confirms(effect) ==> Issued(after.bookings) == Issued(db.bookings)
  {
    match effect
    case Aside =>
    case Creates(id, row) => NewRowIssues(db.bookings, id, row);
    case Moves(id, a) => MoveIssues(db, id, a, after);
  }

  /** The counter moves together with the code. */
  lemma CounterFollowsCode(db: Db, action: Action)
    ensures var effect := EffectOf(db, action);
            if Confirms(effect) then
              && effect.a.code.number == Counter(db.counters, effect.a.code.month) + 1
              && CountersAfter(db, action) == db.counters[effect.a.code.month := effect.a.code.number]
            else CountersAfter(db, action) == db.counters
  {
  }

  /** A step either hands out the next number of a month to a booking that has none, or
      leaves codes and counters alone. */
  predicate IssueStep(issued: map<Id, Code>, counters: map<YearMonth, nat>, effect: Effect,
                      issued': map<Id, Code>, counters': map<YearMonth, nat>) {
    if Confirms(effect) then
      var code := Code(effect.a.code.month, Counter(counters, effect.a.code.month) + 1);
      effect.id !in issued && issued' == issued[effect.id := code] && counters' == counters[code.month := code.number]
    else issued' == issued && counters' == counters
  }

  lemma IssueStepKeeps(issued: map<Id, Code>, counters: map<YearMonth, nat>, effect: Effect,
                       issued': map<Id, Code>, counters': map<YearMonth, nat>)
    requires CodesOk(issued, counters) && IssueStep(issued, counters, effect, issued', counters')
    ensures CodesOk(issued', counters')
  {
    if Confirms(effect) {
      IssueKeeps(issued, counters, effect.id, effect.a.code.month);
    }
  }

  /** What an accepted action does to the codes and the counters together. */
  lemma IssuesAfter(db: Db, action: Action, after: Db)
    requires Next(db, action) == Success(after)
    requires EffectOf(db, action).Moves? && EffectOf(db, action).id in db.bookings
             ==> CaseOk(CaseOf(db, EffectOf(db, action).id))
    ensures IssueStep(Issued(db.bookings), db.counters, EffectOf(db, action), Issued(after.bookings), after.counters)
  {
    NextShows(db, action, after);
    NextBeside(db, action, after);
    if EffectOf(db, action).Creates? {
      CreatedRowIsFresh(db, action);
    }
    EffectIssues(db, EffectOf(db, action), after);
    CounterFollowsCode(db, action);
  }

  /** Gap-free numbering over every run, refused confirmations included. */
  lemma {:induction false} CodesAreGapFree(actions: seq<Action>)
    ensures var db := Run(EMPTY, actions);
            CodesOk(Issued(db.bookings), db.counters)
  {
    if actions == [] {
      assert forall month :: IssuedIn(Issued(EMPTY.bookings), month) == {};
    } else {
      var front, last := actions[..|actions| - 1], actions[|actions| - 1];
      var before, after := Run(EMPTY, front), Run(EMPTY, actions);
      CodesAreGapFree(front);
      if Next(before, last).Success? {
        EmptyIsOk();
        RunKeeps(EMPTY, front);
        IssuesAfter(before, last, after);
        IssueStepKeeps(Issued(before.bookings), before.counters, EffectOf(before, last), Issued(after.bookings),
            after.counters);
      }
    }
  }

  /** Printed codes are pairwise distinct across all months. */
  lemma CodeTextsAreDistinct(actions: seq<Action>, id: Id, other: Id)
    requires var issued := Issued(Run(EMPTY, actions).bookings);
             id in issued && other in issued && id != other
    ensures var issued := Issued(Run(EMPTY, actions).bookings);
            FormatBookingCode(issued[id]) != FormatBookingCode(issued[other])
  {
    CodesAreGapFree(actions);
    var issued := Issued(Run(EMPTY, actions).bookings);
    if FormatBookingCode(issued[id]) == FormatBookingCode(issued[other]) {
      CodeTextIsInjective(issued[id], issued[other]);
    }
  }
}
