/** What the dispute row says: a decision writes its own kind and percentage, an appeal the
    stamp of its own side, and nothing else touches them. */
module DisputeRows {
  import opened Wrappers
  import opened Money
  import opened Codes
  import opened Bookings
  import opened CaseInvariants
  import opened CaseLaws
  import opened CaseExamples
  import Effects

  // ---- One transition ----

  /** An opened dispute: nothing decided, nobody has appealed. */
  lemma OpeningWrites(c: Case, userId: Id, disputeId: Id, c': Case)
    requires c.OpenDispute(userId, disputeId) == Success(c')
    ensures c.dispute.None? && c'.dispute == Some(Dispute(disputeId, Open, None, None, None))
  {
  }

  /** A decision, on the dispute or on an appeal, writes what was decided; a percentage only
      if it is a partial one. */
  lemma DecisionWrites(c: Case, a: CaseAction, c': Case)
    requires a.ResolvingDispute? || a.ResolvingAppeal?
    requires CaseNext(c, a) == Success(c')
    ensures c.dispute.Some? && c'.dispute.Some?
    ensures var d, d' := c.dispute.value, c'.dispute.value;
            && (a.res.ReleaseAll? ==> d'.status == ResolvedReleased && d'.partialPct == d.partialPct)
            && (a.res.PartialRefund? ==> d'.status == ResolvedPartial && d'.partialPct == Some(a.res.pct))
            && (a.res.RefundAll? ==> d'.status == ResolvedRefunded && d'.partialPct == d.partialPct)
            && d'.id == d.id && d'.guestAppealedAt == d.guestAppealedAt && d'.hostAppealedAt == d.hostAppealedAt
  {
  }

  /** An appeal uses up its own side's stamp and nothing else. */
  lemma AppealWrites(c: Case, userId: Id, side: Side, now: int, c': Case)
    requires c.AppealDispute(userId, side, now) == Success(c')
    ensures c.dispute.Some? && c'.dispute.Some?
    ensures var d, d' := c.dispute.value, c'.dispute.value;
            && (side.GuestSide? ==> d.guestAppealedAt == None && d'.guestAppealedAt == Some(now)
                                    && d'.hostAppealedAt == d.hostAppealedAt)
            && (side.HostSide? ==> d.hostAppealedAt == None && d'.hostAppealedAt == Some(now)
                                   && d'.guestAppealedAt == d.guestAppealedAt)
            && d'.id == d.id && d'.status == d.status && d'.partialPct == d.partialPct
  {
  }

  predicate WritesDispute(a: CaseAction) {
    a.OpeningDispute? || a.ResolvingDispute? || a.Appealing? || a.ResolvingAppeal?
  }

  lemma OthersLeaveDispute(c: Case, a: CaseAction, c': Case)
    requires !WritesDispute(a) && CaseNext(c, a) == Success(c')
    ensures c'.dispute == c.dispute
  {
  }

  /** Refunded in full is what a dispute says exactly when its booking is cancelled on the
      host. */
  lemma RefundedIffCancelled(c: Case)
    requires CaseOk(c) && c.dispute.Some?
    ensures c.dispute.value.status.ResolvedRefunded? <==> c.row.status.CancelledByHost?
  {
  }

  // ---- A whole history ----

  /** The last accepted decision. */
  function LastDecision(c: Case, actions: seq<CaseAction>): Option<Resolution> {
    if actions == [] then None
    else
      var front, last := actions[..|actions| - 1], actions[|actions| - 1];
      if CaseNext(CaseRun(c, front), last).Success? && (last.ResolvingDispute? || last.ResolvingAppeal?) then
        Some(last.res)
      else LastDecision(c, front)
  }

  /** The percentage of the last accepted partial decision. */
  function LastPct(c: Case, actions: seq<CaseAction>): Option<int> {
    if actions == [] then None
    else
      var front, last := actions[..|actions| - 1], actions[|actions| - 1];
      if CaseNext(CaseRun(c, front), last).Success? && (last.ResolvingDispute? || last.ResolvingAppeal?)
          && last.res.PartialRefund? then
        Some(last.res.pct)
      else LastPct(c, front)
  }

  /** When one side's appeals were accepted. */
  function AppealTimes(c: Case, actions: seq<CaseAction>, side: Side): seq<int> {
    if actions == [] then []
    else
      var front, last := actions[..|actions| - 1], actions[|actions| - 1];
      AppealTimes(c, front, side)
      + (if CaseNext(CaseRun(c, front), last).Success? && last.Appealing? && last.side == side then [last.now] else [])
  }

  predicate Tells(c: Case, decision: Option<Resolution>, pct: Option<int>) {
    match c.dispute
    case None => decision.None? && pct.None?
    case Some(d) =>
      && d.partialPct == pct
      && match decision
         case None => d.status == Open
         case Some(ReleaseAll) => d.status == ResolvedReleased
         case Some(PartialRefund(_)) => d.status == ResolvedPartial
         case Some(RefundAll) => d.status == ResolvedRefunded
  }

  lemma TellsStep(c: Case, a: CaseAction, c': Case, decision: Option<Resolution>, pct: Option<int>)
    requires CaseNext(c, a) == Success(c') && Tells(c, decision, pct)
    ensures if a.ResolvingDispute? || a.ResolvingAppeal?
            then Tells(c', Some(a.res), if a.res.PartialRefund? then Some(a.res.pct) else pct)
            else Tells(c', decision, pct)
  {
    match a
    case OpeningDispute(userId, disputeId) => OpeningWrites(c, userId, disputeId, c');
    case Appealing(userId, side, now) => AppealWrites(c, userId, side, now, c');
    case ResolvingDispute(_, _) => DecisionWrites(c, a, c');
    case ResolvingAppeal(_, _) => DecisionWrites(c, a, c');
    case _ => OthersLeaveDispute(c, a, c');
  }

  /** In every history the dispute row tells the last decision taken, and the percentage of
      the last partial one. */
  lemma {:induction false} DisputeTellsTheLastDecision(c: Case, actions: seq<CaseAction>)
    requires c.dispute.None?
    ensures Tells(CaseRun(c, actions), LastDecision(c, actions), LastPct(c, actions))
  {
    if actions != [] {
      var front, last := actions[..|actions| - 1], actions[|actions| - 1];
      DisputeTellsTheLastDecision(c, front);
      if CaseNext(CaseRun(c, front), last).Success? {
        TellsStep(CaseRun(c, front), last, CaseRun(c, actions), LastDecision(c, front), LastPct(c, front));
      }
    }
  }

  /** The stamp of a side, as a list. */
  function SideStamp(c: Case, side: Side): seq<int> {
    if c.dispute.None? || AppealedAt(c.dispute.value, side).None? then []
    else [AppealedAt(c.dispute.value, side).value]
  }

  lemma StampStep(c: Case, a: CaseAction, c': Case, side: Side)
    requires CaseNext(c, a) == Success(c')
    ensures SideStamp(c', side) == SideStamp(c, side) + (if a.Appealing? && a.side == side then [a.now] else [])
  {
    match a
    case OpeningDispute(userId, disputeId) => OpeningWrites(c, userId, disputeId, c');
    case Appealing(userId, acting, now) => AppealWrites(c, userId, acting, now, c');
    case ResolvingDispute(_, _) => DecisionWrites(c, a, c');
    case ResolvingAppeal(_, _) => DecisionWrites(c, a, c');
    case _ => OthersLeaveDispute(c, a, c');
  }

  /** One appeal for each side: in every history a side's stamp is the time of its one
      accepted appeal, and is not set by anything the other side does. */
  lemma {:induction false} OneAppealForEachSide(c: Case, actions: seq<CaseAction>, side: Side)
    requires c.dispute.None?
    ensures AppealTimes(c, actions, side) == SideStamp(CaseRun(c, actions), side)
    ensures |AppealTimes(c, actions, side)| <= 1
  {
    if actions != [] {
      var front, last := actions[..|actions| - 1], actions[|actions| - 1];
      OneAppealForEachSide(c, front, side);
      if CaseNext(CaseRun(c, front), last).Success? {
        StampStep(CaseRun(c, front), last, CaseRun(c, actions), side);
      }
    }
  }

  // ---- Both sides appeal ----

  /** A stay disputed and decided in the host's favour. */
  function ReleasedToHost(event: Id, code: Code, guest: Id): seq<CaseAction> {
    Staying(event, code) + [OpeningDispute(guest, event)] + [ResolvingDispute(event, ReleaseAll)]
  }

  /** The guest appeals, the decision is upheld, and the host appeals. */
  function BothAppeal(event: Id, code: Code, guest: Id, host: Id, first: int, second: int): seq<CaseAction> {
    ReleasedToHost(event, code, guest) + [Appealing(guest, GuestSide, first)] + [ResolvingAppeal(event, ReleaseAll)]
    + [Appealing(host, HostSide, second)]
  }

  /** Decided in the host's favour, whichever decision it was. */
  lemma ReleaseLeavesReleasable(c: Case, a: CaseAction, c': Case)
    requires CaseOk(c) && (a.ResolvingDispute? || a.ResolvingAppeal?) && a.res.ReleaseAll?
    requires CaseNext(c, a) == Success(c') && !Sent(c)
    ensures CaseOk(c') && c'.row.escrow.Releasable? && !Sent(c') && c'.row.terms == c.row.terms
  {
    CaseNextKeeps(c, a, c');
    ReleasedState(c, a, c');
  }

  lemma ReleasedState(c: Case, a: CaseAction, c': Case)
    requires CaseOk(c) && (a.ResolvingDispute? || a.ResolvingAppeal?) && a.res.ReleaseAll?
    requires CaseNext(c, a) == Success(c') && !Sent(c)
    ensures c'.row.escrow.Releasable? && !Sent(c') && c'.row.terms == c.row.terms
  {
  }

  /** Decided in the host's favour, not sent, with these appeals used up. */
  predicate Upheld(c: Case, guest: Option<int>, host: Option<int>) {
    && CaseOk(c) && c.row.escrow.Releasable? && !Sent(c) && c.dispute.Some?
    && c.dispute.value.status == ResolvedReleased
    && c.dispute.value.guestAppealedAt == guest && c.dispute.value.hostAppealedAt == host
  }

  lemma GetsUpheld(id: Id, terms: Terms, event: Id, code: Code)
    requires FitsColumn(terms.total) && 0 < terms.total
    ensures var c := CaseRun(NewHold(id, terms), ReleasedToHost(event, code, terms.guest));
            Upheld(c, None, None) && c.row.terms == terms.(mode := InstantMode)
  {
    var c, opening := NewHold(id, terms), OpeningDispute(terms.guest, event);
    var staying := CaseRun(c, Staying(event, code));
    var disputed := CaseStep(staying, opening);
    var decided := CaseStep(disputed, ResolvingDispute(event, ReleaseAll));
    GetsToItsStay(id, terms, event, code);
    RunSnoc(c, Staying(event, code), opening);
    OpenDisputeAcceptedIff(staying, terms.guest, event);
    OpenDisputeKeeps(staying, terms.guest, event, disputed);
    OpeningWrites(staying, terms.guest, event, disputed);
    OpenedIsUnrefunded(disputed);
    Effects.TermsNeverChange(staying, opening, disputed);
    RunSnoc(c, Staying(event, code) + [opening], ResolvingDispute(event, ReleaseAll));
    ResolveDisputeAcceptedIff(disputed, event, ReleaseAll);
    DecisionWrites(disputed, ResolvingDispute(event, ReleaseAll), decided);
    ReleaseLeavesReleasable(disputed, ResolvingDispute(event, ReleaseAll), decided);
  }

  /** One side appeals: accepted, its stamp set, the money frozen again. */
  lemma SideAppeals(c: Case, side: Side, now: int, guest: Option<int>, host: Option<int>) returns (c': Case)
    requires Upheld(c, guest, host) && (if side.GuestSide? then guest else host).None?
    ensures var userId := if side.GuestSide? then c.row.terms.guest else c.row.terms.host;
            c.AppealDispute(userId, side, now) == Success(c') && c' == CaseStep(c, Appealing(userId, side, now))
    ensures CaseOk(c') && c'.row.escrow.Frozen? && !Sent(c') && c'.row.terms == c.row.terms && c'.dispute.Some?
    ensures c'.dispute.value.guestAppealedAt == if side.GuestSide? then Some(now) else guest
    ensures c'.dispute.value.hostAppealedAt == if side.HostSide? then Some(now) else host
  {
    var userId := if side.GuestSide? then c.row.terms.guest else c.row.terms.host;
    AppealAcceptedIff(c, userId, side, now);
    c' := c.AppealDispute(userId, side, now).value;
    AppealDisputeKeeps(c, userId, side, now, c');
    AppealWrites(c, userId, side, now, c');
    Effects.TermsNeverChange(c, Appealing(userId, side, now), c');
  }

  lemma AppealUpheld(c: Case, admin: Id, guest: Option<int>, host: Option<int>) returns (c': Case)
    requires CaseOk(c) && c.row.escrow.Frozen? && c.dispute.Some? && !Sent(c)
    requires c.dispute.value.guestAppealedAt == guest && c.dispute.value.hostAppealedAt == host
    ensures c' == CaseStep(c, ResolvingAppeal(admin, ReleaseAll)) && Upheld(c', guest, host)
    ensures c'.row.terms == c.row.terms
  {
    ResolveAppealAcceptedIff(c, admin, ReleaseAll);
    c' := c.ResolveAppeal(admin, ReleaseAll).value;
    DecisionWrites(c, ResolvingAppeal(admin, ReleaseAll), c');
    ReleaseLeavesReleasable(c, ResolvingAppeal(admin, ReleaseAll), c');
  }

  /** From a new booking, both sides get their appeal: the guest's does not use up the
      host's. */
  lemma BothSidesAppeal(id: Id, terms: Terms, event: Id, code: Code, first: int, second: int)
    requires FitsColumn(terms.total) && 0 < terms.total
    ensures var c := CaseRun(NewHold(id, terms), BothAppeal(event, code, terms.guest, terms.host, first, second));
            && c.row.escrow.Frozen? && c.dispute.Some?
            && c.dispute.value.guestAppealedAt == Some(first) && c.dispute.value.hostAppealedAt == Some(second)
  {
    var c, released := NewHold(id, terms), ReleasedToHost(event, code, terms.guest);
    var guest, upheld := Appealing(terms.guest, GuestSide, first), ResolvingAppeal(event, ReleaseAll);
    GetsUpheld(id, terms, event, code);
    var once := SideAppeals(CaseRun(c, released), GuestSide, first, None, None);
    RunSnoc(c, released, guest);
    var again := AppealUpheld(once, event, Some(first), None);
    RunSnoc(c, released + [guest], upheld);
    var twice := SideAppeals(again, HostSide, second, Some(first), None);
    RunSnoc(c, released + [guest] + [upheld], Appealing(terms.host, HostSide, second));
  }
}
