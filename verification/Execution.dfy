/** An attempt in place: the context a function runs in, the task execution that owns its
    transaction, and the loops that issue a group of calls or a sleep. */
module Execution {
  import opened Wrappers
  import opened Store
  import opened StoreLaws
  import opened Programs
  import opened PromiseIds
  import opened Workflow
  import opened Database
  import StoreRuns

  /** What running one move of the function came to. */
  datatype Moved =
    | Passed(results: seq<Json>)
    | Suspends(awaited: seq<Id>)
    | Raises

  /** The memo filled from a list of rows, a later row of an id replacing an earlier one. */
  function Known(preload: seq<(Id, Promise)>): map<Id, Promise> {
    if preload == [] then map[]
    else
      var last := preload[|preload| - 1];
      Known(preload[..|preload| - 1])[last.0 := last.1]
  }

  /** The promises an attempt knows, and how many ids it has issued. */
  class Context {
    const taskId: Id
    const depth: int
    var memo: map<Id, Promise>
    var callIndex: nat

    constructor (taskId: Id, depth: int, preload: seq<(Id, Promise)>)
      ensures this.taskId == taskId && this.depth == depth && callIndex == 0 && memo == Known(preload)
    {
      this.taskId, this.depth, callIndex, memo := taskId, depth, 0, map[];
      new;
      var k := 0;
      while k < |preload|
        invariant k <= |preload| && callIndex == 0 && memo == Known(preload[..k])
      {
        assert preload[..k + 1][..k] == preload[..k];
        memo := memo[preload[k].0 := preload[k].1];
        k := k + 1;
      }
      assert preload[..k] == preload;
    }

    /** The next child id; the count goes up even when the limit refuses the id. */
    method NextId(func: string) returns (id: Option<Id>)
      modifies this`callIndex
      ensures callIndex == old(callIndex) + 1
      ensures id == if callIndex <= MAX_CHILD_PROMISES then Some(ChildId(taskId, callIndex, func)) else None
    {
      callIndex := callIndex + 1;
      if callIndex > MAX_CHILD_PROMISES {
        return None;
      }
      id := Some(ChildId(taskId, callIndex, func));
    }

    method Save(id: Id, row: Promise)
      modifies this`memo
      ensures memo == old(memo)[id := row]
    {
      memo := memo[id := row];
    }
  }

  /** A claimed task and the tables its transaction sees, with what the transaction found in them;
      it ends with one outcome at most. */
  class TaskExecution {
    const id: Id
    const tables: Tables
    const found: Db
    var finished: bool

    constructor (id: Id, tables: Tables)
      ensures this.id == id && this.tables == tables && !finished && found == tables.Contents()
    {
      this.id, this.tables, finished := id, tables, false;
      found := Db(tables.promises, tables.tasks, tables.waits);
    }

    method Submit(calls: seq<SubmitCall>) returns (rows: Option<Result<seq<Promise>, StoreError>>)
      modifies tables`promises, tables`tasks
      ensures rows.None? <==> finished
      ensures finished ==> tables.Contents() == old(tables.Contents())
      ensures rows.Some? ==>
                Submitted(tables.Contents(), rows.value) == Store.SubmitCalls(old(tables.Contents()), calls)
    {
      if finished {
        return None;
      }
      var answer := tables.SubmitCalls(calls);
      rows := Some(answer);
    }

    method Timer(timer: SubmitTimer) returns (rows: Option<Result<seq<Promise>, StoreError>>)
      modifies tables`promises
      ensures rows.None? <==> finished
      ensures finished ==> tables.Contents() == old(tables.Contents())
      ensures rows.Some? ==> Submitted(tables.Contents(), rows.value) == SubmitTimerRow(old(tables.Contents()), timer)
    {
      if finished {
        return None;
      }
      var answer := tables.SubmitTimer(timer);
      rows := Some(answer);
    }

    /** Apply the outcome of the attempt. An execution that has an outcome takes no other, and one
        that fails to apply leaves the transaction as it was and unfinished. */
    method Settle(status: Status, now: int) returns (applied: bool)
      requires !status.Running? && (status.Suspending? ==> ValidSuspend(id, status.awaited))
      modifies this`finished, tables
      ensures old(finished) ==> !applied && finished && tables.Contents() == old(tables.Contents())
      ensures !old(finished) ==>
                applied == finished == StoreRuns.Finishing(old(tables.Contents()), id, Report(status), now).Ok?
      ensures applied ==>
                tables.Contents() == StoreRuns.Finishing(old(tables.Contents()), id, Report(status), now).value
      ensures !applied ==> tables.Contents() == old(tables.Contents())
    {
      if finished {
        return false;
      }
      match status {
        case Suspending(awaited) =>
          var error := tables.SuspendTask(id, awaited, now);
          finished := error.None?;
        case Returning(value) =>
          var error := tables.SettleTask(id, Complete(if value == JSON_NULL then None else Some(value)), now);
          finished := error.None?;
        case Raising(cause) =>
          var error := tables.SettleTask(id, Reject(cause), now);
          finished := error.None?;
        case Retrying(cause) =>
          var reply := tables.RetryTask(id, cause, 0, now);
          finished := reply.Ok?;
      }
      applied := finished;
    }

    /** Leave the claim: the transaction commits exactly when an outcome was applied and nothing was
        raised after it; otherwise the tables are again what the claim found. */
    method Leave(raised: bool) returns (committed: bool)
      modifies tables
      ensures committed == (finished && !raised)
      ensures tables.Contents() == if committed then old(tables.Contents()) else found
    {
      committed := finished && !raised;
      if !committed {
        tables.promises, tables.tasks, tables.waits := found.promises, found.tasks, found.waits;
      }
    }
  }

  // ---------------------------------------------------------------- issuing a group

  /** The attempt a context stands for. */
  ghost function AttemptOf(c: Context, history: History): Attempt
    reads c
  {
    Attempt(c.memo, history, c.callIndex, Running)
  }

  predicate RefusedBefore(p: Parent, a: Attempt, calls: seq<Call>, k: nat, now: int, retentionMs: int) {
    exists j :: 0 <= j < k && j < |calls| && Refused(p, a, calls, j, now, retentionMs)
  }

  /** The request of one position that the memo does not answer and nothing refuses. */
  function Request(p: Parent, a: Attempt, calls: seq<Call>, k: nat, now: int, retentionMs: int): seq<SubmitCall>
    requires k < |calls|
  {
    if CallId(p.id, a.callIndex, k, calls[k]) in a.memo || Refused(p, a, calls, k, now, retentionMs) then []
    else [ChildCall(p, a.callIndex, k, calls[k], now, retentionMs)]
  }

  /** Issue the ids of a group and collect the requests the memo does not answer. When a child is
      refused, the requests are those of the others that were under way by then. */
  method Issue(c: Context, p: Parent, history: History, calls: seq<Call>, now: int, retentionMs: int, flushed: set<nat>)
    returns (refused: bool, requests: seq<SubmitCall>, ids: seq<Id>)
    requires c.taskId == p.id && c.depth == p.depth
    modifies c`callIndex
    ensures var a := old(AttemptOf(c, history));
            && refused == GroupRefused(p, a, calls, now, retentionMs)
            && requests == FreshCalls(p, a, calls, 0, now, retentionMs, flushed)
            && c.callIndex == RefusedGroup(p, a, calls).callIndex
            && (!refused ==> ids == GroupIds(p, a, calls) && c.callIndex == a.callIndex + |calls|)
  {
    hide FreshCalls, ValidCall, ChildId, GroupRefused, Request;
    ghost var a := AttemptOf(c, history);
    var unanswered: seq<SubmitCall> := [];
    var underWay: seq<SubmitCall> := [];
    refused, ids := false, [];
    var k := 0;
    while k < |calls|
      invariant k <= |calls| && c.memo == a.memo
      invariant c.callIndex == a.callIndex + if p.depth + 1 > MAX_PROMISE_DEPTH then 0 else k
      invariant refused == RefusedBefore(p, a, calls, k, now, retentionMs)
      invariant !refused ==> |ids| == k && forall j :: 0 <= j < k ==> ids[j] == CallId(p.id, a.callIndex, j, calls[j])
      invariant !GroupRefused(p, a, calls, now, retentionMs) ==>
                  unanswered + FreshCalls(p, a, calls, k, now, retentionMs, flushed)
                  == FreshCalls(p, a, calls, 0, now, retentionMs, flushed)
      invariant GroupRefused(p, a, calls, now, retentionMs) ==>
                  underWay + FreshCalls(p, a, calls, k, now, retentionMs, flushed)
                  == FreshCalls(p, a, calls, 0, now, retentionMs, flushed)
    {
      var request, id := IssueOne(c, p, history, a, calls, k, now, retentionMs);
      FreshStep(p, a, calls, k, now, retentionMs, flushed);
      RefusedStep(p, a, calls, k, now, retentionMs);
      if id.None? {
        refused := true;
      } else {
        ids := ids + [id.value];
      }
      unanswered := unanswered + request;
      if k in flushed {
        underWay := underWay + request;
      }
      k := k + 1;
    }
    GroupIsRefused(p, a, calls, now, retentionMs);
    FreshEnd(p, a, calls, now, retentionMs, flushed);
    if !refused && calls != [] {
      NoneRefused(p, a, calls, 0, now, retentionMs);
    }
    requests := if refused then underWay else unanswered;
  }

  /** Issue one child: the depth is checked first, then its number is taken, then its request is
      validated unless the memo answers it. No id comes back when it is refused. */
  method IssueOne(c: Context, p: Parent, history: History, ghost a: Attempt, calls: seq<Call>, k: nat, now: int,
                  retentionMs: int)
    returns (request: seq<SubmitCall>, id: Option<Id>)
    requires c.taskId == p.id && c.depth == p.depth && k < |calls| && c.memo == a.memo
    requires p.depth + 1 <= MAX_PROMISE_DEPTH ==> c.callIndex == a.callIndex + k
    modifies c`callIndex
    ensures c.callIndex == old(c.callIndex) + if p.depth + 1 > MAX_PROMISE_DEPTH then 0 else 1
    ensures request == Request(p, a, calls, k, now, retentionMs)
    ensures id == if Refused(p, a, calls, k, now, retentionMs) then None
                  else Some(CallId(p.id, a.callIndex, k, calls[k]))
  {
    hide ValidCall, ChildId;
    if c.depth + 1 > MAX_PROMISE_DEPTH {
      return [], None;
    }
    id := c.NextId(calls[k].func);
    if id.None? || id.value in c.memo {
      return [], id;
    }
    var call := SubmitCall(id.value, calls[k].func, calls[k].input, calls[k].topic, calls[k].version, c.depth + 1, 0,
                           now, calls[k].executionTimeoutMs, now + calls[k].durationMs, retentionMs,
                           calls[k].maxFailures, Some(p.graph));
    assert call == ChildCall(p, a.callIndex, k, calls[k], now, retentionMs);
    if !ValidCall(call) {
      return [], None;
    }
    request := [call];
  }

  lemma RefusedStep(p: Parent, a: Attempt, calls: seq<Call>, k: nat, now: int, retentionMs: int)
    requires k < |calls|
    ensures RefusedBefore(p, a, calls, k + 1, now, retentionMs)
       <==> RefusedBefore(p, a, calls, k, now, retentionMs) || Refused(p, a, calls, k, now, retentionMs)
  {
    hide Refused;
    if RefusedBefore(p, a, calls, k + 1, now, retentionMs) {
      var j :| 0 <= j < k + 1 && j < |calls| && Refused(p, a, calls, j, now, retentionMs);
      assert j < k || j == k;
    }
  }

  lemma GroupIsRefused(p: Parent, a: Attempt, calls: seq<Call>, now: int, retentionMs: int)
    ensures RefusedBefore(p, a, calls, |calls|, now, retentionMs) <==> GroupRefused(p, a, calls, now, retentionMs)
  {
    hide Refused;
  }

  lemma FreshStep(p: Parent, a: Attempt, calls: seq<Call>, k: nat, now: int, retentionMs: int, flushed: set<nat>)
    requires k < |calls|
    ensures FreshCalls(p, a, calls, k, now, retentionMs, flushed)
         == (if GroupRefused(p, a, calls, now, retentionMs) && k !in flushed then []
             else Request(p, a, calls, k, now, retentionMs))
            + FreshCalls(p, a, calls, k + 1, now, retentionMs, flushed)
  {
    hide GroupRefused, Refused, CallId;
    if !GroupRefused(p, a, calls, now, retentionMs) {
      NoneRefused(p, a, calls, k, now, retentionMs);
    }
  }

  lemma NoneRefused(p: Parent, a: Attempt, calls: seq<Call>, k: nat, now: int, retentionMs: int)
    requires k < |calls| && !GroupRefused(p, a, calls, now, retentionMs)
    ensures !Refused(p, a, calls, k, now, retentionMs)
  {
    hide Refused;
  }

  lemma FreshEnd(p: Parent, a: Attempt, calls: seq<Call>, now: int, retentionMs: int, flushed: set<nat>)
    ensures FreshCalls(p, a, calls, |calls|, now, retentionMs, flushed) == []
  {
  }

  lemma TakeOne(memo: map<Id, Promise>, ids: seq<Id>, rows: seq<Promise>, k: nat)
    requires |ids| == |rows| && k < |ids|
    ensures Remember(memo, ids[k..], rows[k..]) == Remember(memo[ids[k] := rows[k]], ids[k + 1..], rows[k + 1..])
    ensures PendingIds(ids[k..], rows[k..])
            == (if rows[k].state == Pending then [ids[k]] else []) + PendingIds(ids[k + 1..], rows[k + 1..])
  {
    assert ids[k..][1..] == ids[k + 1..] && rows[k..][1..] == rows[k + 1..];
  }

  lemma TakeNone(memo: map<Id, Promise>, ids: seq<Id>, rows: seq<Promise>)
    requires |ids| == |rows|
    ensures Remember(memo, ids[|ids|..], rows[|ids|..]) == memo && PendingIds(ids[|ids|..], rows[|ids|..]) == []
    ensures ids[0..] == ids && rows[0..] == rows
  {
  }

  /** Take in the rows of a group: remember each, and list the pending ones in order. */
  method TakeRows(c: Context, ids: seq<Id>, rows: seq<Promise>) returns (pending: seq<Id>)
    requires |ids| == |rows|
    modifies c`memo
    ensures c.memo == Remember(old(c.memo), ids, rows) && pending == PendingIds(ids, rows)
  {
    hide Remember, PendingIds;
    ghost var goal := Remember(c.memo, ids, rows);
    pending := [];
    TakeNone(c.memo, ids, rows);
    var k := 0;
    while k < |ids|
      invariant k <= |ids|
      invariant Remember(c.memo, ids[k..], rows[k..]) == goal
      invariant pending + PendingIds(ids[k..], rows[k..]) == PendingIds(ids, rows)
    {
      TakeOne(c.memo, ids, rows, k);
      c.Save(ids[k], rows[k]);
      if rows[k].state == Pending {
        pending := pending + [ids[k]];
      }
      k := k + 1;
    }
    TakeNone(c.memo, ids, rows);
  }

  /** The attempt a move leaves, as the context and the outcome stand for it. */
  ghost function After(c: Context, history: History, moved: Moved): Attempt
    reads c
  {
    match moved
    case Raises => Attempt(c.memo, history, c.callIndex, Raising(REFUSAL))
    case Suspends(awaited) => Attempt(c.memo, history, c.callIndex, Suspending(awaited))
    case Passed(results) => Attempt(c.memo, history + [results], c.callIndex, Running)
  }

  /** Gather a group of calls: the context, the transaction and the outcome are those of the
      attempt's move in the model, whichever requests of a refused group were under way. After the
      execution has an outcome nothing is sent. */
  method Gather(c: Context, execution: TaskExecution, p: Parent, history: History, calls: seq<Call>, now: int,
                retentionMs: int,
                flushed: set<nat>)
    returns (moved: Moved)
    requires c.taskId == p.id && c.depth == p.depth && execution.id == p.id
    modifies c`callIndex, c`memo, execution.tables`promises, execution.tables`tasks
    ensures execution.finished ==> execution.tables.Contents() == old(execution.tables.Contents())
    ensures !execution.finished ==>
              execution.tables.Contents()
              == Store.SubmitCalls(old(execution.tables.Contents()),
                                   FreshCalls(p, old(AttemptOf(c, history)), calls, 0, now, retentionMs, flushed)).db
    ensures !execution.finished ==>
              After(c, history, moved)
              == AdvanceGather(old(execution.tables.Contents()), p, old(AttemptOf(c, history)), calls, now, retentionMs,
                               flushed).attempt
  {
    hide GroupRefused, FreshCalls, Store.SubmitCalls, CallId, Remember, PendingIds, AllThere, GroupRows;
    ghost var a := AttemptOf(c, history);
    ghost var db := execution.tables.Contents();
    var refused, requests, ids := Issue(c, p, history, calls, now, retentionMs, flushed);
    EmptyBatch(db);
    if requests != [] {
      var answer := execution.Submit(requests);
      if answer.None? || answer.value.Err? {
        return Raises;
      }
    }
    if refused {
      return Raises;
    }
    var rows: seq<Promise> := [];
    var k := 0;
    while k < |ids|
      invariant k <= |ids| && |rows| == k
      invariant forall j :: 0 <= j < k ==>
                  && (ids[j] in c.memo || ids[j] in execution.tables.promises)
                  && rows[j] == RowOf(a, execution.tables.Contents(), ids[j])
    {
      if ids[k] in c.memo {
        rows := rows + [c.memo[ids[k]]];
      } else if ids[k] in execution.tables.promises {
        rows := rows + [execution.tables.promises[ids[k]]];
      } else {
        GroupMissing(p, a, execution.tables.Contents(), calls, k);
        return Raises;
      }
      k := k + 1;
    }
    GroupThere(p, a, execution.tables.Contents(), calls, ids, rows);
    var pending := TakeRows(c, ids, rows);
    if pending != [] {
      return Suspends(pending);
    }
    if exists j :: 0 <= j < |rows| && rows[j].state != Resolved {
      return Raises;
    }
    moved := Passed(Values(rows));
  }

  lemma GroupMissing(p: Parent, a: Attempt, db: Db, calls: seq<Call>, k: nat)
    requires k < |calls| && GroupIds(p, a, calls)[k] !in a.memo && GroupIds(p, a, calls)[k] !in db.promises
    ensures !AllThere(p, a, db, calls)
  {
    hide CallId;
  }

  lemma GroupThere(p: Parent, a: Attempt, db: Db, calls: seq<Call>, ids: seq<Id>, rows: seq<Promise>)
    requires ids == GroupIds(p, a, calls) && |rows| == |ids|
    requires forall j :: 0 <= j < |ids| ==>
               (ids[j] in a.memo || ids[j] in db.promises) && rows[j] == RowOf(a, db, ids[j])
    ensures AllThere(p, a, db, calls) && rows == GroupRows(p, a, db, calls)
  {
    hide CallId, RowOf;
    forall k | 0 <= k < |calls| ensures ids[k] == CallId(p.id, a.callIndex, k, calls[k]) {
    }
  }

  lemma EmptyBatch(db: Db)
    ensures Store.SubmitCalls(db, []).db == db && Store.SubmitCalls(db, []).rows.Ok?
  {
  }

  /** Sleep on a durable timer, as the attempt's move in the model does. After the execution has an
      outcome nothing is sent. */
  method SleepOn(c: Context, execution: TaskExecution, p: Parent, history: History, delayMs: int, now: int,
                 retentionMs: int)
    returns (moved: Moved)
    requires c.taskId == p.id && execution.id == p.id
    modifies c`callIndex, c`memo, execution.tables`promises
    ensures execution.finished ==> execution.tables.Contents() == old(execution.tables.Contents())
    ensures var next := AdvanceSleep(old(execution.tables.Contents()), p, old(AttemptOf(c, history)), delayMs, now,
                                     retentionMs);
            !execution.finished ==>
              && execution.tables.Contents()
                 == (if next.step.Some? then SubmitTimerRow(old(execution.tables.Contents()), next.step.value.timer).db
                     else old(execution.tables.Contents()))
              && After(c, history, moved) == next.attempt
  {
    hide SubmitTimerRow, ChildId, ValidTimer;
    if delayMs <= 0 {
      return Passed(NAP);
    }
    var next := c.NextId(SLEEP);
    if next.None? {
      return Raises;
    }
    var id := next.value;
    var row: Promise;
    if id in c.memo {
      row := c.memo[id];
    } else {
      var timer := SubmitTimer(id, now + delayMs, retentionMs, Some(p.graph));
      if !ValidTimer(timer) {
        return Raises;
      }
      var answer := execution.Timer(timer);
      if answer.None? || answer.value.Err? || id !in execution.tables.promises {
        return Raises;
      }
      row := execution.tables.promises[id];
    }
    c.Save(id, row);
    match row.state {
      case Pending => moved := Suspends([id]);
      case Resolved => moved := Passed(NAP);
      case _ => moved := Raises;
    }
  }
}
