/** What the claims of the retry sweep do not promise: two workers can be sending the same
    message at once, and a message can be lost. Exactly when. */
module RetryLimits {
  import opened Wrappers
  import opened Bookings
  import opened Retry

  lemma Snoc(log: Log, steps: seq<LogStep>, step: LogStep)
    ensures LogRun(log, steps + [step]) == Advance(LogRun(log, steps), step)
  {
    assert (steps + [step])[..|steps|] == steps;
  }

  lemma OneStep(log: Log, step: LogStep)
    ensures LogRun(log, [step]) == Advance(log, step)
  {
    assert [step][..0] == [];
    assert LogRun(log, [step][..0]) == log;
  }

  lemma {:induction false} InvStays(log: Log, steps: seq<LogStep>)
    requires Inv(log)
    ensures Inv(LogRun(log, steps))
  {
    if steps != [] {
      InvStays(log, steps[..|steps| - 1]);
      StepKeeps(LogRun(log, steps[..|steps| - 1]), steps[|steps| - 1]);
    }
  }

  predicate ClaimsRow(p: Worker, id: Id) {
    p.Claimed? && p.row == id
  }

  /** The sweep selects the row. */
  predicate Selectable(log: Log, id: Id) {
    id in log.rows && log.rows[id].status.Failed? && log.rows[id].attempts < MAX_ATTEMPTS
  }

  /** A sweep reads a FAILED row with fewer than five attempts behind it, and no other. */
  lemma ReadsSelectable(log: Log, w: nat, id: Id)
    requires w !in log.workers
    ensures Selectable(log, id) <==> id in log.rows && log.rows[id].status == Failed && log.rows[id].attempts < 5
    ensures Advance(log, LogStep.Read(w, id))
            == if Selectable(log, id) then Work(log, w, HasRead(id, log.rows[id].attempts)) else log
  {
  }

  // ---- A message that is lost ----

  /** Some worker holds a claim, or is about to record the first dispatch as failed, or
      the sweep selects the row. */
  ghost predicate Sendable(log: Log, id: Id) {
    || Selectable(log, id)
    || exists w :: w in log.workers && (ClaimsRow(log.workers[w], id) || log.workers[w] == Bounced(id, 1))
  }

  lemma UnsendableStep(log: Log, step: LogStep, id: Id)
    requires Inv(log) && id in log.rows && !Sendable(log, id)
    ensures id in Advance(log, step).rows && !Sendable(Advance(log, step), id)
    ensures RowSends(Advance(log, step).sends, id) == RowSends(log.sends, id)
  {
    if step.Claim? || step.Finish? || step.Send? {
      assert step.w in log.workers ==> WorkerOk(log, log.workers[step.w]);
    }
  }

  lemma {:induction false} NeverSentAgain(log: Log, steps: seq<LogStep>, id: Id)
    requires Inv(log) && id in log.rows && !Sendable(log, id)
    ensures id in LogRun(log, steps).rows && !Sendable(LogRun(log, steps), id)
    ensures RowSends(LogRun(log, steps).sends, id) == RowSends(log.sends, id)
  {
    if steps != [] {
      NeverSentAgain(log, steps[..|steps| - 1], id);
      InvStays(log, steps[..|steps| - 1]);
      UnsendableStep(LogRun(log, steps[..|steps| - 1]), steps[|steps| - 1], id);
    }
  }

  /** A fresh worker claims the row's next attempt. */
  function ReadAndClaim(w: nat, id: Id): seq<LogStep> {
    [LogStep.Read(w, id)] + [Claim(w)]
  }

  lemma Claims(log: Log, w: nat, id: Id)
    requires Selectable(log, id) && w !in log.workers
    ensures var after := LogRun(log, ReadAndClaim(w, id));
            && after.workers == log.workers[w := Claimed(id, log.rows[id].attempts + 1)]
            && after.rows == log.rows[id := LogRow(Failed, log.rows[id].attempts + 1)]
            && after.sends == log.sends
  {
    OneStep(log, LogStep.Read(w, id));
    Snoc(log, [LogStep.Read(w, id)], Claim(w));
  }

  lemma SendsOne(log: Log, w: nat, id: Id)
    requires w in log.workers && ClaimsRow(log.workers[w], id)
    ensures RowSends(Advance(log, Send(w, true)).sends, id) == RowSends(log.sends, id) + 1
    ensures Advance(log, Send(w, true)).workers == log.workers[w := Delivered(id, log.workers[w].attempt)]
    ensures Advance(log, Send(w, true)).rows == log.rows
  {
    assert (log.sends + [(id, log.workers[w].attempt)])[..|log.sends|] == log.sends;
  }

  lemma ClaimAndSend(log: Log, id: Id) returns (steps: seq<LogStep>)
    requires Selectable(log, id)
    ensures RowSends(LogRun(log, steps).sends, id) == RowSends(log.sends, id) + 1
  {
    var w := FreshKey(log.workers.Keys);
    Claims(log, w, id);
    steps := ReadAndClaim(w, id) + [Send(w, true)];
    Snoc(log, ReadAndClaim(w, id), Send(w, true));
    SendsOne(LogRun(log, ReadAndClaim(w, id)), w, id);
  }

  lemma {:induction false} RunConcat(log: Log, first: seq<LogStep>, second: seq<LogStep>)
    ensures LogRun(log, first + second) == LogRun(LogRun(log, first), second)
  {
    if second == [] {
      assert first + second == first;
    } else {
      RunConcat(log, first, second[..|second| - 1]);
      assert (first + second)[..|first + second| - 1] == first + second[..|second| - 1];
    }
  }

  lemma SendIt(log: Log, id: Id) returns (steps: seq<LogStep>)
    requires Inv(log) && Sendable(log, id)
    ensures RowSends(LogRun(log, steps).sends, id) > RowSends(log.sends, id)
  {
    if Selectable(log, id) {
      steps := ClaimAndSend(log, id);
    } else {
      var w :| w in log.workers && (ClaimsRow(log.workers[w], id) || log.workers[w] == Bounced(id, 1));
      if ClaimsRow(log.workers[w], id) {
        SendsOne(log, w, id);
        OneStep(log, Send(w, true));
        steps := [Send(w, true)];
      } else {
        assert WorkerOk(log, log.workers[w]);
        OneStep(log, Finish(w));
        var rest := ClaimAndSend(Advance(log, Finish(w)), id);
        steps := [Finish(w)] + rest;
        RunConcat(log, [Finish(w)], rest);
      }
    }
  }

  /** A message can still be sent exactly when a worker holds a claim on it, or its first
      dispatch has failed and is still to be recorded, or it is FAILED with attempts left:
      a QUEUED row whose dispatcher has died, and one whose last claim was lost, are not. */
  lemma MayBeSentIff(log: Log, id: Id)
    requires Inv(log) && id in log.rows
    ensures (exists steps :: RowSends(LogRun(log, steps).sends, id) > RowSends(log.sends, id)) <==> Sendable(log, id)
  {
    if Sendable(log, id) {
      var steps := SendIt(log, id);
    } else {
      forall steps
        ensures RowSends(LogRun(log, steps).sends, id) == RowSends(log.sends, id)
      {
        NeverSentAgain(log, steps, id);
      }
    }
  }

  /** A dispatcher that dies before its first send loses the message for good. */
  lemma DyingDispatcherLosesIt(w: nat, id: Id, rest: seq<LogStep>)
    ensures var story := [Dispatch(w, id)] + [Die(w)];
            RowSends(LogRun(LogRun(EMPTY_LOG, story), rest).sends, id) == 0
  {
    var story := [Dispatch(w, id)] + [Die(w)];
    OneStep(EMPTY_LOG, Dispatch(w, id));
    Snoc(EMPTY_LOG, [Dispatch(w, id)], Die(w));
    RunKeeps(story);
    NeverSentAgain(LogRun(EMPTY_LOG, story), rest, id);
  }

  // ---- Two workers sending the same message ----

  predicate WithoutWorker(steps: seq<LogStep>, w: nat) {
    forall i :: 0 <= i < |steps| ==> steps[i].w != w
  }

  predicate AnotherClaims(log: Log, w: nat, id: Id) {
    exists v :: v in log.workers && v != w && ClaimsRow(log.workers[v], id)
  }

  lemma AloneStep(log: Log, step: LogStep, w: nat, id: Id)
    requires Inv(log) && w in log.workers && ClaimsRow(log.workers[w], id) && step.w != w
    requires !AnotherClaims(log, w, id) && !Selectable(log, id)
    ensures var after := Advance(log, step);
            w in after.workers && after.workers[w] == log.workers[w] && !AnotherClaims(after, w, id)
                && !Selectable(after, id)
  {
    assert WorkerOk(log, log.workers[w]);
    if step.w in log.workers {
      assert WorkerOk(log, log.workers[step.w]);
      assert IsFirst(log.workers[step.w], id) ==> !IsFirst(log.workers[w], id);
    }
  }

  lemma {:induction false} AloneForever(log: Log, steps: seq<LogStep>, w: nat, id: Id)
    requires Inv(log) && w in log.workers && ClaimsRow(log.workers[w], id) && WithoutWorker(steps, w)
    requires !AnotherClaims(log, w, id) && !Selectable(log, id)
    ensures var after := LogRun(log, steps);
            w in after.workers && after.workers[w] == log.workers[w] && !AnotherClaims(after, w, id)
                && !Selectable(after, id)
  {
    if steps != [] {
      var front := steps[..|steps| - 1];
      AloneForever(log, front, w, id);
      InvStays(log, front);
      AloneStep(LogRun(log, front), steps[|steps| - 1], w, id);
    }
  }

  /** While one worker is sending a message, another can come to send it too exactly when
      one already is, or the row is FAILED with attempts left: a claim does not change the
      status, so the next attempt can be claimed before this one ends. */
  lemma MayOverlapIff(log: Log, w: nat, id: Id)
    requires Inv(log) && w in log.workers && ClaimsRow(log.workers[w], id)
    ensures (exists steps :: WithoutWorker(steps, w) && AnotherClaims(LogRun(log, steps), w, id))
            <==> AnotherClaims(log, w, id) || Selectable(log, id)
  {
    if AnotherClaims(log, w, id) {
      assert LogRun(log, []) == log && WithoutWorker([], w);
    } else if Selectable(log, id) {
      var v := FreshKey(log.workers.Keys);
      Claims(log, v, id);
      assert WithoutWorker(ReadAndClaim(v, id), w);
      assert v in LogRun(log, ReadAndClaim(v, id)).workers;
    } else {
      forall steps | WithoutWorker(steps, w)
        ensures !AnotherClaims(LogRun(log, steps), w, id)
      {
        AloneForever(log, steps, w, id);
      }
    }
  }

  /** The first dispatch has failed and two overlapping ticks have claimed two attempts. */
  function TwoTicks(id: Id): seq<LogStep> {
    [Dispatch(0, id)] + [Send(0, false)] + [Finish(0)] + ReadAndClaim(1, id) + ReadAndClaim(2, id)
  }

  lemma FailsOnce(id: Id)
    ensures LogRun(EMPTY_LOG, [Dispatch(0, id)] + [Send(0, false)] + [Finish(0)])
            == Log(map[id := LogRow(Failed, 1)], map[], [(id, 1)])
  {
    var queued := Log(map[id := LogRow(Queued, 0)], map[0 := Claimed(id, 1)], []);
    OneStep(EMPTY_LOG, Dispatch(0, id));
    assert Advance(EMPTY_LOG, Dispatch(0, id)) == queued;
    Snoc(EMPTY_LOG, [Dispatch(0, id)], Send(0, false));
    var bounced := Log(queued.rows, map[0 := Bounced(id, 1)], [(id, 1)]);
    assert Advance(queued, Send(0, false)) == bounced by {
      assert queued.sends + [(id, 1)] == [(id, 1)];
    }
    Snoc(EMPTY_LOG, [Dispatch(0, id)] + [Send(0, false)], Finish(0));
    assert Advance(bounced, Finish(0)) == Log(map[id := LogRow(Failed, 1)], map[], [(id, 1)]) by {
      assert bounced.workers - {0} == map[];
    }
  }

  /** Overlapping ticks deliver one message twice. */
  lemma OverlappingTicksSendTwice(id: Id)
    ensures var log := LogRun(EMPTY_LOG, TwoTicks(id) + [Send(1, true)] + [Send(2, true)]);
            log.workers == map[1 := Delivered(id, 2), 2 := Delivered(id, 3)]
  {
    var failed := [Dispatch(0, id)] + [Send(0, false)] + [Finish(0)];
    var log := LogRun(EMPTY_LOG, failed);
    FailsOnce(id);
    RunConcat(EMPTY_LOG, failed, ReadAndClaim(1, id));
    Claims(log, 1, id);
    var once := LogRun(log, ReadAndClaim(1, id));
    RunConcat(EMPTY_LOG, failed + ReadAndClaim(1, id), ReadAndClaim(2, id));
    Claims(once, 2, id);
    var both := LogRun(once, ReadAndClaim(2, id));
    Snoc(EMPTY_LOG, TwoTicks(id), Send(1, true));
    SendsOne(both, 1, id);
    Snoc(EMPTY_LOG, TwoTicks(id) + [Send(1, true)], Send(2, true));
    SendsOne(Advance(both, Send(1, true)), 2, id);
  }
}
