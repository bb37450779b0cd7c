/** Notification dispatch and the retry sweep: any number of overlapping sweeps claim
    attempts by compare-and-swap on the attempt count. */
module Retry {
  import opened Bookings

  datatype LogStatus = Queued | Sent | Failed

  datatype LogRow = LogRow(status: LogStatus, attempts: nat)

  const MAX_ATTEMPTS := 5

  /** A worker of a sweep that has read a row, claimed an attempt, or sent and still has
      to write the outcome; or the first dispatch of a new row. */
  datatype Worker =
    | HasRead(row: Id, attempts: nat)
    | Claimed(row: Id, attempt: nat)
    | Delivered(row: Id, attempt: nat)
    | Bounced(row: Id, attempt: nat)

  /** `sends` records every call of a driver: the row and the attempt it was made for.
      The program does not see it. */
  datatype Log = Log(rows: map<Id, LogRow>, workers: map<nat, Worker>, sends: seq<(Id, nat)>)

  const EMPTY_LOG := Log(map[], map[], [])

  datatype LogStep =
    | Dispatch(w: nat, row: Id)
    | Read(w: nat, row: Id)
    | Claim(w: nat)
    | Send(w: nat, ok: bool)
    | Finish(w: nat)
    | Die(w: nat)

  function Work(log: Log, w: nat, next: Worker): Log {
    log.(workers := log.workers[w := next])
  }

  function Rest(log: Log, w: nat): Log {
    log.(workers := log.workers - {w})
  }

  predicate Busy(log: Log, w: nat) {
    w in log.workers
  }

  /** Bump `attempts` if the row is still FAILED with the count that was read. */
  function AfterClaim(log: Log, w: nat, id: Id, attempts: nat): Log {
    if id in log.rows && log.rows[id] == LogRow(Failed, attempts) then
      Work(log.(rows := log.rows[id := LogRow(Failed, attempts + 1)]), w, Claimed(id, attempts + 1))
    else Rest(log, w)
  }

  function AfterSend(log: Log, w: nat, id: Id, attempt: nat, ok: bool): Log {
    Work(log.(sends := log.sends + [(id, attempt)]), w, if ok then Delivered(id, attempt) else Bounced(id, attempt))
  }

  /** Write the outcome. The first dispatch sets the count to one; a retry leaves the
      count its claim has set, and a failed retry leaves the status too. */
  function AfterFinish(log: Log, w: nat, id: Id, attempt: nat, ok: bool): Log {
    if id !in log.rows then Rest(log, w)
    else
      var row := log.rows[id];
      var attempts := if attempt == 1 then 1 else row.attempts;
      var status := if ok then Sent else if attempt == 1 then Failed else row.status;
      Rest(log.(rows := log.rows[id := LogRow(status, attempts)]), w)
  }

  function Advance(log: Log, step: LogStep): Log {
    match step
    case Dispatch(w, id) =>
      if Busy(log, w) || id in log.rows then log
      else Work(log.(rows := log.rows[id := LogRow(Queued, 0)]), w, Claimed(id, 1))
    case Read(w, id) =>
      if Busy(log, w) || id !in log.rows || !log.rows[id].status.Failed? || log.rows[id].attempts >= MAX_ATTEMPTS then
        log
      else Work(log, w, HasRead(id, log.rows[id].attempts))
    case Claim(w) =>
      if Busy(log, w) && log.workers[w].HasRead? then AfterClaim(log, w, log.workers[w].row, log.workers[w].attempts)
      else log
    case Send(w, ok) =>
      if Busy(log, w) && log.workers[w].Claimed? then AfterSend(log, w, log.workers[w].row, log.workers[w].attempt, ok)
      else log
    case Finish(w) =>
      if Busy(log, w) && (log.workers[w].Delivered? || log.workers[w].Bounced?) then
        AfterFinish(log, w, log.workers[w].row, log.workers[w].attempt, log.workers[w].Delivered?)
      else log
    case Die(w) => Rest(log, w)
  }

  function LogRun(log: Log, steps: seq<LogStep>): Log {
    if steps == [] then log else Advance(LogRun(log, steps[..|steps| - 1]), steps[|steps| - 1])
  }

  // ---- The invariant ----

  /** How many times the driver was called for one attempt at one row. */
  function SendsOf(sends: seq<(Id, nat)>, id: Id, attempt: nat): nat {
    if sends == [] then 0
    else SendsOf(sends[..|sends| - 1], id, attempt) + (if sends[|sends| - 1] == (id, attempt) then 1 else 0)
  }

  function RowSends(sends: seq<(Id, nat)>, id: Id): nat {
    if sends == [] then 0
    else RowSends(sends[..|sends| - 1], id) + (if sends[|sends| - 1].0 == id then 1 else 0)
  }

  predicate Holds(p: Worker, id: Id, attempt: nat) {
    p == Claimed(id, attempt)
  }

  function Holders(workers: map<nat, Worker>, id: Id, attempt: nat): set<nat> {
    set w | w in workers && Holds(workers[w], id, attempt)
  }

  /** The attempts handed out for a row so far: a queued row's first dispatch counts. */
  function Issued(log: Log, id: Id): nat {
    if id !in log.rows then 0 else if log.rows[id].attempts == 0 then 1 else log.rows[id].attempts
  }

  /** Each attempt has been sent, or is still held by one worker, once at most, and only
      if it was handed out. */
  predicate AttemptOk(log: Log, id: Id, attempt: nat) {
    SendsOf(log.sends, id, attempt) + |Holders(log.workers, id, attempt)| <= if 1 <= attempt <= Issued(log, id) then 1
                                                                             else 0
  }

  predicate RowOk(row: LogRow) {
    && row.attempts <= MAX_ATTEMPTS
    && (row.attempts == 0 <==> row.status.Queued?)
  }

  predicate WorkerOk(log: Log, p: Worker) {
    match p
    case HasRead(id, attempts) => id in log.rows && 1 <= attempts < MAX_ATTEMPTS
    case _ =>
      && p.row in log.rows && 1 <= p.attempt <= Issued(log, p.row)
      && (p.attempt == 1 ==> log.rows[p.row].attempts == 0)
  }

  predicate IsFirst(p: Worker, id: Id) {
    !p.HasRead? && p.row == id && p.attempt == 1
  }

  /** One worker at most is on the first dispatch of a row. */
  ghost predicate OneFirst(log: Log) {
    forall v, w :: v in log.workers && w in log.workers && v != w && IsFirst(log.workers[v], log.workers[v].row) ==>
      !IsFirst(log.workers[w], log.workers[v].row)
  }

  ghost predicate Inv(log: Log) {
    && (forall id :: id in log.rows ==> RowOk(log.rows[id]))
    && (forall w :: w in log.workers ==> WorkerOk(log, log.workers[w]))
    && (forall id, attempt: nat :: AttemptOk(log, id, attempt))
    && OneFirst(log)
  }

  // ---- Every step keeps it ----

  lemma WorkCount(workers: map<nat, Worker>, w: nat, p: Worker, id: Id, attempt: nat)
    ensures |Holders(workers[w := p], id, attempt)|
            == |Holders(workers, id, attempt)| - (if w in Holders(workers, id, attempt) then 1 else 0)
                + (if Holds(p, id, attempt) then 1 else 0)
  {
    var before := Holders(workers, id, attempt);
    assert Holders(workers[w := p], id, attempt) == if Holds(p, id, attempt) then (before - {w}) + {w}
                                                    else before - {w};
  }

  lemma RestCount(workers: map<nat, Worker>, w: nat, id: Id, attempt: nat)
    ensures |Holders(workers - {w}, id, attempt)| <= |Holders(workers, id, attempt)|
  {
    var before := Holders(workers, id, attempt);
    assert Holders(workers - {w}, id, attempt) == before - {w};
  }

  lemma SendCount(sends: seq<(Id, nat)>, id: Id, attempt: nat, to: Id, made: nat)
    ensures SendsOf(sends + [(to, made)], id, attempt)
            == SendsOf(sends, id, attempt) + (if (to, made) == (id, attempt) then 1 else 0)
  {
  }

  lemma RestKeeps(log: Log, w: nat)
    requires Inv(log)
    ensures Inv(Rest(log, w))
  {
    forall id: Id, attempt: nat
      ensures AttemptOk(Rest(log, w), id, attempt)
    {
      assert AttemptOk(log, id, attempt);
      RestCount(log.workers, w, id, attempt);
    }
    forall v | v in Rest(log, w).workers
      ensures WorkerOk(Rest(log, w), log.workers[v])
    {
      assert WorkerOk(log, log.workers[v]);
    }
  }

  lemma ReadKeeps(log: Log, w: nat, id: Id)
    requires Inv(log) && w !in log.workers && id in log.rows && log.rows[id].status.Failed?
             && log.rows[id].attempts < MAX_ATTEMPTS
    ensures Inv(Work(log, w, HasRead(id, log.rows[id].attempts)))
  {
    var p := HasRead(id, log.rows[id].attempts);
    var after := Work(log, w, p);
    assert RowOk(log.rows[id]);
    forall i: Id, attempt: nat
      ensures AttemptOk(after, i, attempt)
    {
      assert AttemptOk(log, i, attempt);
      WorkCount(log.workers, w, p, i, attempt);
    }
    forall v | v in after.workers
      ensures WorkerOk(after, after.workers[v])
    {
      assert v != w ==> WorkerOk(log, log.workers[v]);
    }
  }

  lemma DispatchKeeps(log: Log, w: nat, id: Id)
    requires Inv(log) && w !in log.workers && id !in log.rows
    ensures Inv(Advance(log, Dispatch(w, id)))
  {
    var after := Advance(log, Dispatch(w, id));
    forall i: Id, attempt: nat
      ensures AttemptOk(after, i, attempt)
    {
      assert AttemptOk(log, i, attempt);
      WorkCount(log.workers, w, Claimed(id, 1), i, attempt);
    }
    forall v | v in after.workers
      ensures WorkerOk(after, after.workers[v])
    {
      assert v != w ==> WorkerOk(log, log.workers[v]);
    }
  }

  /** The winner of the swap gets an attempt nobody has had. */
  lemma ClaimKeeps(log: Log, w: nat, id: Id, attempts: nat)
    requires Inv(log) && w in log.workers && log.workers[w] == HasRead(id, attempts)
    ensures Inv(AfterClaim(log, w, id, attempts))
  {
    assert WorkerOk(log, log.workers[w]);
    if log.rows[id] == LogRow(Failed, attempts) {
      var after := AfterClaim(log, w, id, attempts);
      forall i: Id, attempt: nat
        ensures AttemptOk(after, i, attempt)
      {
        assert AttemptOk(log, i, attempt);
        WorkCount(log.workers, w, Claimed(id, attempts + 1), i, attempt);
      }
      forall v | v in after.workers
        ensures WorkerOk(after, after.workers[v])
      {
        assert v != w ==> WorkerOk(log, log.workers[v]);
      }
    } else {
      RestKeeps(log, w);
    }
  }

  lemma SendKeeps(log: Log, w: nat, id: Id, attempt: nat, ok: bool)
    requires Inv(log) && w in log.workers && log.workers[w] == Claimed(id, attempt)
    ensures Inv(AfterSend(log, w, id, attempt, ok))
  {
    var after := AfterSend(log, w, id, attempt, ok);
    assert WorkerOk(log, log.workers[w]);
    forall i: Id, a: nat
      ensures AttemptOk(after, i, a)
    {
      assert AttemptOk(log, i, a);
      WorkCount(log.workers, w, after.workers[w], i, a);
      SendCount(log.sends, i, a, id, attempt);
    }
    forall v | v in after.workers
      ensures WorkerOk(after, after.workers[v])
    {
      assert v != w ==> WorkerOk(log, log.workers[v]);
    }
  }

  lemma FinishKeeps(log: Log, w: nat, id: Id, attempt: nat, ok: bool)
    requires Inv(log) && w in log.workers
             && log.workers[w] == (if ok then Delivered(id, attempt) else Bounced(id, attempt))
    ensures Inv(AfterFinish(log, w, id, attempt, ok))
  {
    var after := AfterFinish(log, w, id, attempt, ok);
    assert WorkerOk(log, log.workers[w]) && RowOk(log.rows[id]);
    forall i: Id, a: nat
      ensures AttemptOk(after, i, a)
    {
      assert AttemptOk(log, i, a);
      RestCount(log.workers, w, i, a);
    }
    forall v | v in after.workers
      ensures WorkerOk(after, after.workers[v])
    {
      assert WorkerOk(log, log.workers[v]);
      assert attempt == 1 ==> !IsFirst(log.workers[v], id);
    }
  }

  lemma StepKeeps(log: Log, step: LogStep)
    requires Inv(log)
    ensures Inv(Advance(log, step))
  {
    match step
    case Dispatch(w, id) => if w !in log.workers && id !in log.rows { DispatchKeeps(log, w, id); }
    case Read(w, id) =>
      if w !in log.workers && id in log.rows && log.rows[id].status.Failed? && log.rows[id].attempts < MAX_ATTEMPTS {
        ReadKeeps(log, w, id);
      }
    case Claim(w) =>
      if w in log.workers && log.workers[w].HasRead? {
        ClaimKeeps(log, w, log.workers[w].row, log.workers[w].attempts);
      }
    case Send(w, ok) =>
      if w in log.workers && log.workers[w].Claimed? {
        SendKeeps(log, w, log.workers[w].row, log.workers[w].attempt, ok);
      }
    case Finish(w) =>
      if w in log.workers && (log.workers[w].Delivered? || log.workers[w].Bounced?) {
        FinishKeeps(log, w, log.workers[w].row, log.workers[w].attempt, log.workers[w].Delivered?);
      }
    case Die(w) => RestKeeps(log, w);
  }

  lemma {:induction false} RunKeeps(steps: seq<LogStep>)
    ensures Inv(LogRun(EMPTY_LOG, steps))
  {
    if steps == [] {
      assert forall id, attempt: nat :: Holders(EMPTY_LOG.workers, id, attempt) == {};
    } else {
      RunKeeps(steps[..|steps| - 1]);
      StepKeeps(LogRun(EMPTY_LOG, steps[..|steps| - 1]), steps[|steps| - 1]);
    }
  }

  // ---- What it means ----

  /** Sends of attempts 1 to n. */
  function SendsUpTo(sends: seq<(Id, nat)>, id: Id, n: nat): nat {
    if n == 0 then 0 else SendsUpTo(sends, id, n - 1) + SendsOf(sends, id, n)
  }

  lemma {:induction false} UpToGrows(sends: seq<(Id, nat)>, id: Id, n: nat, to: Id, made: nat)
    ensures SendsUpTo(sends + [(to, made)], id, n)
            == SendsUpTo(sends, id, n) + (if to == id && 1 <= made <= n then 1 else 0)
  {
    if n > 0 {
      UpToGrows(sends, id, n - 1, to, made);
      SendCount(sends, id, n, to, made);
    }
  }

  lemma {:induction false} UpToNothing(id: Id, n: nat)
    ensures SendsUpTo([], id, n) == 0
  {
    if n > 0 {
      UpToNothing(id, n - 1);
    }
  }

  /** All sends of a row, counted by attempt. */
  lemma {:induction false} RowSendsByAttempt(sends: seq<(Id, nat)>, id: Id, n: nat)
    requires forall i :: 0 <= i < |sends| && sends[i].0 == id ==> 1 <= sends[i].1 <= n
    ensures RowSends(sends, id) == SendsUpTo(sends, id, n)
  {
    if sends == [] {
      UpToNothing(id, n);
    } else {
      var front, last := sends[..|sends| - 1], sends[|sends| - 1];
      RowSendsByAttempt(front, id, n);
      UpToGrows(front, id, n, last.0, last.1);
      assert front + [(last.0, last.1)] == sends;
    }
  }

  lemma {:induction false} CountedOnce(sends: seq<(Id, nat)>, i: nat)
    requires i < |sends|
    ensures SendsOf(sends, sends[i].0, sends[i].1) >= 1
  {
    if i < |sends| - 1 {
      CountedOnce(sends[..|sends| - 1], i);
    }
  }

  lemma {:induction false} UpToBounded(log: Log, id: Id, n: nat)
    requires Inv(log)
    ensures SendsUpTo(log.sends, id, n) <= n
  {
    if n > 0 {
      UpToBounded(log, id, n - 1);
      assert AttemptOk(log, id, n);
    }
  }

  /** However many sweeps overlap and whoever dies, each attempt at a row is sent by one
      worker at most, and a row is sent five times at most, its first dispatch
      included. */
  lemma SendsAreBounded(steps: seq<LogStep>, id: Id, attempt: nat)
    ensures var log := LogRun(EMPTY_LOG, steps);
            && SendsOf(log.sends, id, attempt) <= 1
            && |Holders(log.workers, id, attempt)| <= 1
            && RowSends(log.sends, id) <= Issued(log, id) <= 5
  {
    RunKeeps(steps);
    var log := LogRun(EMPTY_LOG, steps);
    assert AttemptOk(log, id, attempt);
    assert id in log.rows ==> RowOk(log.rows[id]);
    forall i | 0 <= i < |log.sends| && log.sends[i].0 == id
      ensures 1 <= log.sends[i].1 <= Issued(log, id)
    {
      CountedOnce(log.sends, i);
      assert AttemptOk(log, id, log.sends[i].1);
    }
    RowSendsByAttempt(log.sends, id, Issued(log, id));
    UpToBounded(log, id, Issued(log, id));
  }
}
