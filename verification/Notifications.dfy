/** The dispatch and the retry sweep as they run on the notification log, and their
    agreement with the protocol's steps. */
module Notifications {
  import opened Bookings
  import opened Retry

  class NotificationLog {
    var rows: map<Id, LogRow>

    constructor ()
      ensures rows == map[]
    {
      rows := map[];
    }

    /** Create the QUEUED row, call the driver once, record SENT or FAILED. */
    method Dispatch(id: Id, ok: bool)
      requires id !in rows
      modifies this
      ensures rows == LogRun(Quiet(old(rows)), [LogStep.Dispatch(0, id)] + [Send(0, ok)] + [Finish(0)]).rows
    {
      DispatchPass(rows, id, ok);
      rows := rows[id := LogRow(Queued, 0)];
      if ok {
        rows := rows[id := LogRow(Sent, 1)];
      } else {
        rows := rows[id := LogRow(Failed, 1)];
      }
    }

    /** One row of the sweep: claim an attempt, call the driver, record the outcome. */
    method RetryRow(id: Id, ok: bool) returns (sent: nat)
      requires Retryable(rows, id)
      modifies this
      ensures rows == old(rows)[id := Retried(old(rows)[id], ok)]
      ensures sent == if ok then 1 else 0
    {
      var read := rows[id];
      sent := 0;
      if rows[id] == LogRow(Failed, read.attempts) {
        rows := rows[id := LogRow(Failed, read.attempts + 1)];
        if ok {
          rows := rows[id := rows[id].(status := Sent)];
          sent := 1;
        }
      }
    }

    /** Go through the batch the query returned, skipping what can no longer be sent.
        `sendable` are the rows whose template, user and preferences still allow the
        channel; `works` are the rows the driver delivers. */
    method SweepFailedNotifications(batch: seq<Id>, sendable: set<Id>, works: set<Id>) returns (resent: nat)
      requires forall i, j :: 0 <= i < j < |batch| ==> batch[i] != batch[j]
      requires forall i :: 0 <= i < |batch| ==> Retryable(rows, batch[i])
      modifies this
      ensures rows == LogRun(Quiet(old(rows)), SweepSteps(batch, sendable, works)).rows
      ensures resent == |Resent(batch, sendable, works)|
    {
      resent := 0;
      ghost var log := Quiet(rows);
      for i := 0 to |batch|
        invariant log == LogRun(Quiet(old(rows)), SweepSteps(batch[..i], sendable, works))
        invariant log.rows == rows && log.workers == map[]
        invariant forall k :: i <= k < |batch| ==> Retryable(rows, batch[k])
        invariant resent == |Resent(batch[..i], sendable, works)|
      {
        var id := batch[i];
        assert batch[..i + 1] == batch[..i] + [id];
        ResentGrows(batch[..i], id, sendable, works);
        SweepGrows(Quiet(old(rows)), batch[..i], id, sendable, works);
        if id in sendable {
          RetryPass(log, id, id in works);
          log := LogRun(log, Attempt(id, id in works));
          var sent := RetryRow(id, id in works);
          resent := resent + sent;
        }
      }
      assert batch[..|batch|] == batch;
    }
  }

  /** The log with no worker on it. */
  function Quiet(rows: map<Id, LogRow>): Log {
    Log(rows, map[], [])
  }

  /** What the query selects. */
  predicate Retryable(rows: map<Id, LogRow>, id: Id) {
    id in rows && rows[id].status.Failed? && rows[id].attempts < MAX_ATTEMPTS
  }

  function Retried(row: LogRow, ok: bool): LogRow {
    LogRow(if ok then Sent else row.status, row.attempts + 1)
  }

  /** The rows a sweep delivers. */
  function Resent(batch: seq<Id>, sendable: set<Id>, works: set<Id>): set<Id> {
    set id | id in batch && id in sendable && id in works
  }

  lemma ResentGrows(batch: seq<Id>, id: Id, sendable: set<Id>, works: set<Id>)
    requires id !in batch
    ensures |Resent(batch + [id], sendable, works)|
            == |Resent(batch, sendable, works)| + (if id in sendable && id in works then 1 else 0)
  {
    assert Resent(batch + [id], sendable, works)
        == if id in sendable && id in works then Resent(batch, sendable, works) + {id}
           else Resent(batch, sendable, works);
  }

  /** One worker's whole turn at a row. */
  function Attempt(id: Id, ok: bool): seq<LogStep> {
    [Read(0, id)] + [Claim(0)] + [Send(0, ok)] + [Finish(0)]
  }

  function SweepSteps(batch: seq<Id>, sendable: set<Id>, works: set<Id>): seq<LogStep> {
    if batch == [] then []
    else
      var last := batch[|batch| - 1];
      SweepSteps(batch[..|batch| - 1], sendable, works)
          + (if last in sendable then Attempt(last, last in works) else [])
  }

  lemma {:induction false} LogRunConcat(log: Log, first: seq<LogStep>, second: seq<LogStep>)
    ensures LogRun(log, first + second) == LogRun(LogRun(log, first), second)
  {
    if second == [] {
      assert first + second == first;
    } else {
      LogRunConcat(log, first, second[..|second| - 1]);
      assert (first + second)[..|first + second| - 1] == first + second[..|second| - 1];
    }
  }

  lemma SweepGrows(log: Log, batch: seq<Id>, id: Id, sendable: set<Id>, works: set<Id>)
    ensures var before := LogRun(log, SweepSteps(batch, sendable, works));
            LogRun(log, SweepSteps(batch + [id], sendable, works))
            == if id in sendable then LogRun(before, Attempt(id, id in works)) else before
  {
    assert (batch + [id])[..|batch|] == batch;
    LogRunConcat(log, SweepSteps(batch, sendable, works), Attempt(id, id in works));
    assert SweepSteps(batch, sendable, works) + [] == SweepSteps(batch, sendable, works);
  }

  lemma Append(log: Log, steps: seq<LogStep>, step: LogStep)
    ensures LogRun(log, steps + [step]) == Advance(LogRun(log, steps), step)
  {
  }

  lemma ClaimPass(log: Log, id: Id)
    requires log.workers == map[] && Retryable(log.rows, id)
    ensures var attempt := log.rows[id].attempts + 1;
            Advance(Advance(log, Read(0, id)), Claim(0))
            == Log(log.rows[id := LogRow(Failed, attempt)], map[0 := Claimed(id, attempt)], log.sends)
  {
  }

  lemma SendPass(log: Log, id: Id, attempt: nat, ok: bool)
    requires id in log.rows && log.rows[id] == LogRow(Failed, attempt)
    requires log.workers == map[0 := Claimed(id, attempt)]
    ensures Advance(Advance(log, Send(0, ok)), Finish(0))
            == Log(log.rows[id := LogRow(if ok then Sent else Failed, attempt)], map[], log.sends + [(id, attempt)])
  {
    var sent := AfterSend(log, 0, id, attempt, ok);
    assert Advance(log, Send(0, ok)) == sent;
    assert sent.workers - {0} == map[];
  }

  /** An uninterrupted turn claims the next attempt, sends it, and records the outcome. */
  lemma RetryPass(log: Log, id: Id, ok: bool)
    requires log.workers == map[] && Retryable(log.rows, id)
    ensures var after := LogRun(log, Attempt(id, ok));
            && after.workers == map[]
            && after.rows == log.rows[id := Retried(log.rows[id], ok)]
            && after.sends == log.sends + [(id, log.rows[id].attempts + 1)]
  {
    Append(log, [], Read(0, id));
    Append(log, [Read(0, id)], Claim(0));
    Append(log, [Read(0, id)] + [Claim(0)], Send(0, ok));
    Append(log, [Read(0, id)] + [Claim(0)] + [Send(0, ok)], Finish(0));
    assert [] + [Read(0, id)] == [Read(0, id)];
    ClaimPass(log, id);
    var attempt := log.rows[id].attempts + 1;
    var claimed := Log(log.rows[id := LogRow(Failed, attempt)], map[0 := Claimed(id, attempt)], log.sends);
    SendPass(claimed, id, attempt, ok);
  }

  /** What a sweep leaves of the rows it may send: SENT, or FAILED as before, with one more
      attempt behind them; every other row is as it was. */
  predicate SweptRows(before: map<Id, LogRow>, after: map<Id, LogRow>, batch: seq<Id>, sendable: set<Id>,
                      works: set<Id>) {
    && after.Keys == before.Keys
    && forall id :: id in before ==>
         after[id] == if id in batch && id in sendable then
                        LogRow(if id in works then Sent else Failed, before[id].attempts + 1)
                      else before[id]
  }

  lemma {:induction false} SweepOutcome(rows: map<Id, LogRow>, batch: seq<Id>, sendable: set<Id>, works: set<Id>)
    requires forall i, j :: 0 <= i < j < |batch| ==> batch[i] != batch[j]
    requires forall i :: 0 <= i < |batch| ==> Retryable(rows, batch[i])
    ensures var after := LogRun(Quiet(rows), SweepSteps(batch, sendable, works));
            after.workers == map[] && SweptRows(rows, after.rows, batch, sendable, works)
  {
    if batch != [] {
      var front, id := batch[..|batch| - 1], batch[|batch| - 1];
      SweepOutcome(rows, front, sendable, works);
      SweepGrows(Quiet(rows), front, id, sendable, works);
      assert front + [id] == batch;
      var before := LogRun(Quiet(rows), SweepSteps(front, sendable, works));
      if id in sendable {
        assert id !in front && before.rows[id] == rows[id];
        RetryPass(before, id, id in works);
      }
    }
  }

  lemma DispatchPass(rows: map<Id, LogRow>, id: Id, ok: bool)
    requires id !in rows
    ensures LogRun(Quiet(rows), [LogStep.Dispatch(0, id)] + [Send(0, ok)] + [Finish(0)]).rows
            == rows[id := LogRow(if ok then Sent else Failed, 1)]
  {
    Append(Quiet(rows), [], LogStep.Dispatch(0, id));
    Append(Quiet(rows), [LogStep.Dispatch(0, id)], Send(0, ok));
    Append(Quiet(rows), [LogStep.Dispatch(0, id)] + [Send(0, ok)], Finish(0));
    assert [] + [LogStep.Dispatch(0, id)] == [LogStep.Dispatch(0, id)];
  }
}
