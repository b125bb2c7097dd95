/** Durable equals direct: whatever suspensions, retries, rollbacks and timeouts happen, a resolved
    call holds the value plain evaluation gives. */
module WorkflowLaws {
  import opened Wrappers
  import opened Store
  import opened StoreLaws
  import opened StoreRuns
  import opened StoreSafety
  import opened Programs
  import opened PromiseIds
  import opened Workflow
  import opened Issuing

  // ---------------------------------------------------------------- the invariant

  function WorkOfKey(key: Fingerprint): Work
    requires key.CallKey?
  {
    Work(key.func, key.version, key.input)
  }

  /** A resolved call holds what plain evaluation of its function and arguments gives. */
  ghost predicate RowCorrect(lib: Library, p: Promise) {
    p.state == Resolved && p.key.CallKey? ==> Evaluates(lib, WorkOfKey(p.key), ValueOf(p))
  }

  ghost predicate Correct(lib: Library, db: Db) {
    forall p :: p in db.promises ==> RowCorrect(lib, db.promises[p])
  }

  /** Every wait is for a child its waiter issues. */
  ghost predicate EdgesIssued(lib: Library, db: Db) {
    forall e :: e in db.waits ==>
      && IsCall(db, e.waiter) && e.awaited in db.promises
      && IssuedBy(lib, ParentOf(db, e.waiter), e.awaited, db.promises[e.awaited].key)
  }

  /** A remembered promise is one the task issues, and its row is the store's once it is terminal. */
  ghost predicate Remembered(lib: Library, view: Db, p: Parent, id: Id, row: Promise) {
    && id in view.promises && view.promises[id].key == row.key
    && (row.state != Pending ==> view.promises[id] == row)
    && IssuedBy(lib, p, id, row.key)
  }

  ghost predicate MemoOk(lib: Library, view: Db, p: Parent, memo: map<Id, Promise>) {
    forall id :: id in memo ==> Remembered(lib, view, p, id, memo[id])
  }

  ghost predicate Awaitable(lib: Library, view: Db, p: Parent, id: Id) {
    id in view.promises && IssuedBy(lib, p, id, view.promises[id].key)
  }

  ghost predicate StatusOk(lib: Library, view: Db, p: Parent, a: Attempt) {
    && ValidHistory(lib, p.work, a.history)
    && match a.status
       case Running => a.callIndex == Issued(lib, p.work, a.history)
       case Returning(value) => Evaluates(lib, p.work, value)
       case Suspending(awaited) =>
         && awaited != [] && (forall i, j :: 0 <= i < j < |awaited| ==> awaited[i] != awaited[j])
         && forall id :: id in awaited ==> Awaitable(lib, view, p, id)
       case _ => true
  }

  ghost predicate AttemptOk(lib: Library, view: Db, p: Parent, a: Attempt) {
    MemoOk(lib, view, p, a.memo) && StatusOk(lib, view, p, a)
  }

  ghost predicate AttemptsOk(lib: Library, w: World) {
    && w.attempts.Keys == w.sys.claims.Keys
    && forall c :: c in w.attempts ==>
         IsCall(w.sys.db, c) && AttemptOk(lib, Inside(w, c), ParentOf(w.sys.db, c), w.attempts[c])
  }

  ghost predicate WorldInv(lib: Library, w: World) {
    SysInv(w.sys) && Correct(lib, w.sys.db) && EdgesIssued(lib, w.sys.db) && AttemptsOk(lib, w)
  }

  // ---------------------------------------------------------------- a group of calls

  /** The rows of a group: each is a promise issued for that very call. */
  ghost predicate GroupOk(lib: Library, view: Db, p: Parent, base: nat, calls: seq<Call>, ids: seq<Id>,
                          rows: seq<Promise>)
  {
    && |ids| == |rows| == |calls|
    && forall k :: 0 <= k < |calls| ==>
         && ids[k] == CallId(p.id, base, k, calls[k])
         && rows[k].key == ChildKey(p, base, k, calls[k])
         && Remembered(lib, view, p, ids[k], rows[k])
  }

  lemma {:induction false} FreshHas(p: Parent, a: Attempt, calls: seq<Call>, from: nat, now: int, retentionMs: int,
                                    flushed: set<nat>, k: nat)
    requires from <= k < |calls| && CallId(p.id, a.callIndex, k, calls[k]) !in a.memo
    requires !GroupRefused(p, a, calls, now, retentionMs)
    ensures ChildCall(p, a.callIndex, k, calls[k], now, retentionMs)
            in FreshCalls(p, a, calls, from, now, retentionMs, flushed)
    decreases |calls| - from
  {
    hide GroupRefused, ChildCall, CallId, Refused;
    if from < k {
      FreshHas(p, a, calls, from + 1, now, retentionMs, flushed, k);
    }
  }

  lemma {:induction false} FreshOnly(p: Parent, a: Attempt, calls: seq<Call>, from: nat, now: int, retentionMs: int,
                                     flushed: set<nat>)
    requires from <= |calls|
    ensures forall c :: c in FreshCalls(p, a, calls, from, now, retentionMs, flushed) ==>
              exists k :: from <= k < |calls| && c == ChildCall(p, a.callIndex, k, calls[k], now, retentionMs)
                          && !Refused(p, a, calls, k, now, retentionMs)
                          && CallId(p.id, a.callIndex, k, calls[k]) !in a.memo
    decreases |calls| - from
  {
    hide ChildCall, CallId, Refused;
    if from < |calls| {
      FreshOnly(p, a, calls, from + 1, now, retentionMs, flushed);
    }
  }

  /** A batch that raises nothing holds, under each requested id, the requested fingerprint. */
  lemma SubmittedKey(db: Db, calls: seq<SubmitCall>, c: SubmitCall)
    requires Inv(db) && SubmitCalls(db, calls).rows.Ok? && c in calls
    ensures c.id in SubmitCalls(db, calls).db.promises
            && SubmitCalls(db, calls).db.promises[c.id].key == CallFingerprint(c)
  {
    hide Inv, SubmitCalls, CallFingerprint, CallPromise, CallTask;
    SubmitCreatesOnlyTheAbsent(db, calls);
    var i :| 0 <= i < |calls| && calls[i] == c;
  }

  /** The row of one call of the group, once the missing calls have been submitted. */
  lemma GroupRow(lib: Library, view: Db, p: Parent, a: Attempt, calls: seq<Call>, k: nat, now: int, retentionMs: int,
                 flushed: set<nat>)
    requires Inv(view) && AttemptOk(lib, view, p, a) && a.status == Running && lib(p.work, a.history) == Gather(calls)
             && k < |calls|
    requires !GroupRefused(p, a, calls, now, retentionMs)
    requires SubmitCalls(view, FreshCalls(p, a, calls, 0, now, retentionMs, flushed)).rows.Ok?
    ensures var after := SubmitCalls(view, FreshCalls(p, a, calls, 0, now, retentionMs, flushed)).db;
            var id := CallId(p.id, a.callIndex, k, calls[k]);
            && (id in a.memo || id in after.promises)
            && RowOf(a, after, id).key == ChildKey(p, a.callIndex, k, calls[k])
            && Remembered(lib, after, p, id, RowOf(a, after, id))
  {
    hide Inv, SubmitCalls, ChildKey, CallFingerprint, GroupRefused, FreshCalls, Issued, ValidHistory, IssuedBy;
    var sent := FreshCalls(p, a, calls, 0, now, retentionMs, flushed);
    var after := SubmitCalls(view, sent).db;
    var id := CallId(p.id, a.callIndex, k, calls[k]);
    InvHasPromises(view);
    SubmitKeepsRows(view, sent);
    if id in a.memo {
      assert Remembered(lib, view, p, id, a.memo[id]);
      IssuedCallMatches(lib, p, a.history, calls, k, id, a.memo[id].key);
    } else {
      FreshHas(p, a, calls, 0, now, retentionMs, flushed, k);
      var c := ChildCall(p, a.callIndex, k, calls[k], now, retentionMs);
      SubmittedKey(view, sent, c);
      ChildKeyOf(p, a.callIndex, k, calls[k], now, retentionMs);
      IssuesCall(lib, p, a.history, calls, k);
    }
  }

  lemma IssuesCall(lib: Library, p: Parent, history: History, calls: seq<Call>, k: nat)
    requires ValidHistory(lib, p.work, history) && lib(p.work, history) == Gather(calls) && k < |calls|
    ensures var base := Issued(lib, p.work, history);
            IssuedBy(lib, p, CallId(p.id, base, k, calls[k]), ChildKey(p, base, k, calls[k]))
  {
    hide ValidHistory, ChildKey, Issued, CallId;
    var base := Issued(lib, p.work, history);
    assert CallAt(lib, p, history, calls, k, CallId(p.id, base, k, calls[k]), ChildKey(p, base, k, calls[k]));
    assert IssuesAt(lib, p, history, CallId(p.id, base, k, calls[k]), ChildKey(p, base, k, calls[k]));
  }

  lemma {:induction false} RememberKeepsMemo(lib: Library, view: Db, p: Parent, memo: map<Id, Promise>, ids: seq<Id>,
                                             rows: seq<Promise>)
    requires |ids| == |rows| && MemoOk(lib, view, p, memo)
    requires forall k :: 0 <= k < |ids| ==> Remembered(lib, view, p, ids[k], rows[k])
    ensures MemoOk(lib, view, p, Remember(memo, ids, rows))
    decreases |ids|
  {
    hide Remembered;
    if ids != [] {
      assert MemoOk(lib, view, p, memo[ids[0] := rows[0]]);
      RememberKeepsMemo(lib, view, p, memo[ids[0] := rows[0]], ids[1..], rows[1..]);
    }
  }

  lemma {:induction false} PendingIdsAreGroupIds(ids: seq<Id>, rows: seq<Promise>)
    requires |ids| == |rows|
    ensures forall id :: id in PendingIds(ids, rows) ==>
              exists k :: 0 <= k < |ids| && ids[k] == id && rows[k].state == Pending
    ensures forall k :: 0 <= k < |ids| && rows[k].state == Pending ==> ids[k] in PendingIds(ids, rows)
  {
    if ids != [] {
      PendingIdsAreGroupIds(ids[1..], rows[1..]);
      var rest := PendingIds(ids[1..], rows[1..]);
      forall id | id in rest ensures exists k :: 0 <= k < |ids| && ids[k] == id && rows[k].state == Pending {
        var k :| 0 <= k < |ids| - 1 && ids[1..][k] == id && rows[1..][k].state == Pending;
        assert ids[k + 1] == id && rows[k + 1].state == Pending;
      }
      forall k | 0 <= k < |ids| && rows[k].state == Pending ensures ids[k] in PendingIds(ids, rows) {
        if k > 0 {
          assert ids[1..][k - 1] == ids[k] && rows[1..][k - 1] == rows[k];
        }
      }
    }
  }

  lemma {:induction false} PendingIdsDistinct(ids: seq<Id>, rows: seq<Promise>)
    requires |ids| == |rows| && forall i, j :: 0 <= i < j < |ids| ==> ids[i] != ids[j]
    ensures forall i, j :: 0 <= i < j < |PendingIds(ids, rows)| ==> PendingIds(ids, rows)[i] != PendingIds(ids, rows)[j]
  {
    if ids != [] {
      PendingIdsDistinct(ids[1..], rows[1..]);
      PendingIdsAreGroupIds(ids[1..], rows[1..]);
      var rest := PendingIds(ids[1..], rows[1..]);
      assert ids[0] !in rest;
    }
  }

  /** Passing a group whose rows have all resolved extends the history by what plain evaluation
      gives the calls. */
  lemma GroupPasses(lib: Library, view: Db, p: Parent, base: nat, calls: seq<Call>, ids: seq<Id>, rows: seq<Promise>)
    requires Correct(lib, view) && GroupOk(lib, view, p, base, calls, ids, rows)
    requires forall k :: 0 <= k < |rows| ==> rows[k].state == Resolved
    ensures AllEvaluate(lib, calls, Values(rows))
  {
    hide Evaluates, IssuedBy;
    forall k | 0 <= k < |calls| ensures Evaluates(lib, WorkOf(calls[k]), Values(rows)[k]) {
      assert Remembered(lib, view, p, ids[k], rows[k]);
      assert RowCorrect(lib, view.promises[ids[k]]);
    }
  }

  lemma AfterGroupOk(lib: Library, view: Db, p: Parent, a: Attempt, calls: seq<Call>, ids: seq<Id>, rows: seq<Promise>)
    requires Correct(lib, view) && MemoOk(lib, view, p, a.memo) && a.status == Running
             && lib(p.work, a.history) == Gather(calls)
    requires ValidHistory(lib, p.work, a.history) && a.callIndex == Issued(lib, p.work, a.history)
    requires GroupOk(lib, view, p, a.callIndex, calls, ids, rows)
    ensures AttemptOk(lib, view, p, AfterGroup(a, ids, rows))
  {
    hide Correct, MemoOk, ValidHistory, ChildKey, CallId, IssuedBy, Issued;
    RememberKeepsMemo(lib, view, p, a.memo, ids, rows);
    PendingIdsAreGroupIds(ids, rows);
    forall i, j | 0 <= i < j < |ids| ensures ids[i] != ids[j] {
      if ids[i] == ids[j] {
        GroupIdsDistinct(p.id, a.callIndex, calls, i, j);
      }
    }
    PendingIdsDistinct(ids, rows);
    if PendingIds(ids, rows) == [] && forall k :: 0 <= k < |rows| ==> rows[k].state == Resolved {
      GroupPasses(lib, view, p, a.callIndex, calls, ids, rows);
      HistoryExtends(lib, p.work, a.history, Values(rows));
      IssuedExtends(lib, p.work, a.history, Values(rows));
    }
  }

  /** Advancing over a group keeps the attempt well formed in the transaction's new view. */
  lemma GatherKeepsAttempt(lib: Library, view: Db, p: Parent, a: Attempt, calls: seq<Call>, now: int, retentionMs: int,
                           flushed: set<nat>)
    requires Inv(view) && Correct(lib, view) && AttemptOk(lib, view, p, a) && a.status == Running
    requires lib(p.work, a.history) == Gather(calls)
    ensures var sent := FreshCalls(p, a, calls, 0, now, retentionMs, flushed);
            AttemptOk(lib, SubmitCalls(view, sent).db, p,
                      AdvanceGather(view, p, a, calls, now, retentionMs, flushed).attempt)
  {
    hide Inv, ChildKey, CallFingerprint, GroupRefused, FreshCalls, Issued, ValidHistory, IssuedBy, SubmitCalls,
         AfterGroup, Correct, CallId, Remembered, MemoOk;
    var sent := FreshCalls(p, a, calls, 0, now, retentionMs, flushed);
    var after := SubmitCalls(view, sent).db;
    SubmitCorrect(lib, view, sent);
    SubmitKeepsMemo(lib, view, p, a.memo, sent);
    if !GroupRefused(p, a, calls, now, retentionMs) && SubmitCalls(view, sent).rows.Ok? {
      forall k | 0 <= k < |calls|
        ensures var id := CallId(p.id, a.callIndex, k, calls[k]);
                && (id in a.memo || id in after.promises)
                && RowOf(a, after, id).key == ChildKey(p, a.callIndex, k, calls[k])
                && Remembered(lib, after, p, id, RowOf(a, after, id))
      {
        GroupRow(lib, view, p, a, calls, k, now, retentionMs, flushed);
      }
      AfterGroupOk(lib, after, p, a, calls, GroupIds(p, a, calls), GroupRows(p, a, after, calls));
    }
  }

  /** Rows that appear pending do not make anything incorrect. */
  lemma SubmitCorrect(lib: Library, db: Db, calls: seq<SubmitCall>)
    requires Inv(db) && Correct(lib, db)
    ensures Correct(lib, SubmitCalls(db, calls).db)
  {
    hide Inv, SubmitCalls, Evaluates, CallTask;
    InvHasPromises(db);
    SubmitKeepsRows(db, calls);
  }

  lemma SubmitKeepsMemo(lib: Library, db: Db, p: Parent, memo: map<Id, Promise>, calls: seq<SubmitCall>)
    requires Inv(db) && MemoOk(lib, db, p, memo)
    ensures MemoOk(lib, SubmitCalls(db, calls).db, p, memo)
  {
    hide Inv, SubmitCalls, IssuedBy, CallTask, CallPromise;
    InvHasPromises(db);
    SubmitKeepsRows(db, calls);
  }

  // ---------------------------------------------------------------- a sleep

  lemma AfterTimerOk(lib: Library, view: Db, p: Parent, a: Attempt, delayMs: int, id: Id, row: Promise)
    requires MemoOk(lib, view, p, a.memo) && a.status == Running && lib(p.work, a.history) == Sleep(delayMs)
             && delayMs > 0
    requires ValidHistory(lib, p.work, a.history) && a.callIndex == Issued(lib, p.work, a.history)
    requires Remembered(lib, view, p, id, row)
    ensures AttemptOk(lib, view, p, AfterTimer(a, id, row))
  {
    hide ValidHistory, Issued, IssuedBy;
    if row.state == Resolved {
      HistoryExtends(lib, p.work, a.history, NAP);
      IssuedExtends(lib, p.work, a.history, NAP);
    }
  }

  lemma IssuesTimer(lib: Library, p: Parent, history: History, delayMs: int, key: Fingerprint)
    requires ValidHistory(lib, p.work, history) && lib(p.work, history) == Sleep(delayMs) && delayMs > 0
    requires key.TimerKey?
             && key == TimerKey(TimerId(p.id, Issued(lib, p.work, history)), key.dueAt, None, Some(p.graph))
    ensures IssuedBy(lib, p, TimerId(p.id, Issued(lib, p.work, history)), key)
  {
    hide ValidHistory, Issued, TimerId;
    assert IssuesAt(lib, p, history, TimerId(p.id, Issued(lib, p.work, history)), key);
  }

  lemma SleepKeepsAttempt(lib: Library, view: Db, p: Parent, a: Attempt, delayMs: int, now: int, retentionMs: int)
    requires AttemptOk(lib, view, p, a) && a.status == Running && lib(p.work, a.history) == Sleep(delayMs)
    ensures var moved := AdvanceSleep(view, p, a, delayMs, now, retentionMs);
            && (moved.step.None? ==> AttemptOk(lib, view, p, moved.attempt))
            && (moved.step.Some? ==>
                  AttemptOk(lib, SubmitTimerRow(view, ChildTimer(p, a.callIndex, delayMs, now, retentionMs)).db, p,
                            moved.attempt))
  {
    hide ValidHistory, Issued, IssuedBy, SubmitTimerRow, AfterTimer, TimerPromise, ValidTimer, Remembered;
    if delayMs <= 0 {
      HistoryExtends(lib, p.work, a.history, NAP);
      IssuedExtends(lib, p.work, a.history, NAP);
    } else {
      var id := TimerId(p.id, a.callIndex);
      var timer := ChildTimer(p, a.callIndex, delayMs, now, retentionMs);
      if id in a.memo {
        AfterTimerOk(lib, view, p, a, delayMs, id, a.memo[id]);
      } else {
        TimerKeepsMemo(lib, view, p, a.memo, timer);
        var submitted := SubmitTimerRow(view, timer);
        if submitted.rows.Ok? {
          SubmittedTimer(view, timer);
          IssuesTimer(lib, p, a.history, delayMs, TimerFingerprint(timer));
          assert Remembered(lib, submitted.db, p, id, submitted.db.promises[id]) by {
            RememberRow(lib, submitted.db, p, id);
          }
          AfterTimerOk(lib, submitted.db, p, a, delayMs, id, submitted.db.promises[id]);
        }
      }
    }
  }

  lemma RememberRow(lib: Library, view: Db, p: Parent, id: Id)
    requires id in view.promises && IssuedBy(lib, p, id, view.promises[id].key)
    ensures Remembered(lib, view, p, id, view.promises[id])
  {
  }

  lemma SubmittedTimer(db: Db, t: SubmitTimer)
    requires SubmitTimerRow(db, t).rows.Ok?
    ensures t.id in SubmitTimerRow(db, t).db.promises
            && SubmitTimerRow(db, t).db.promises[t.id].key == TimerFingerprint(t)
  {
    hide RootsPresent;
  }

  lemma TimerKeepsMemo(lib: Library, db: Db, p: Parent, memo: map<Id, Promise>, t: SubmitTimer)
    requires MemoOk(lib, db, p, memo)
    ensures MemoOk(lib, SubmitTimerRow(db, t).db, p, memo)
  {
    hide SubmitTimerRow, IssuedBy, TimerPromise;
    SubmitTimerKeepsRows(db, t);
  }

  lemma TimerCorrect(lib: Library, db: Db, t: SubmitTimer)
    requires Correct(lib, db)
    ensures Correct(lib, SubmitTimerRow(db, t).db)
  {
    hide SubmitTimerRow, Evaluates;
    SubmitTimerKeepsRows(db, t);
  }

  // ---------------------------------------------------------------- what other steps leave to an attempt

  /** A promise keeps what it was submitted for, and its row once it is terminal. */
  ghost predicate Kept(db: Db, after: Db, q: Id) {
    && q in db.promises && q in after.promises
    && after.promises[q].key == db.promises[q].key && after.promises[q].root == db.promises[q].root
    && (db.promises[q].state != Pending ==> after.promises[q] == db.promises[q])
  }

  lemma SettleRowsKeeps(db: Db, settled: map<Id, Promise>, removed: set<Id>, now: int, q: Id)
    requires Settles(db, settled, removed) && q in db.promises
    ensures Kept(db, SettleRows(db, settled, removed, now), q)
  {
    hide PromiseRowOk, Woken, SettledFor;
  }

  lemma SettleOneKeeps(db: Db, id: Id, state: PromiseState, result: Option<Json>, error: Option<Json>, now: int, q: Id)
    requires Settleable(db, id) && q in db.promises
    ensures Kept(db, SettleOne(db, id, state, result, error, now), q)
  {
    hide Woken, SettledFor;
  }

  lemma FinishKeeps(view: Db, id: Id, finish: StoreRuns.Finish, now: int, q: Id)
    requires Finishing(view, id, finish, now).Ok? && q in view.promises
    ensures Kept(view, Finishing(view, id, finish, now).value, q)
  {
    hide SettleOne, StillPending, NewEdges;
    match finish
    case Settled(Complete(result)) => SettleOneKeeps(view, id, Resolved, result, None, now, q);
    case Settled(Reject(error)) => SettleOneKeeps(view, id, Rejected, None, Some(error), now, q);
    case Failed(error, delayMs) =>
      if view.tasks[id].failures + 1 >= view.tasks[id].maxFailures {
        SettleOneKeeps(view, id, Rejected, None, Some(error), now, q);
      }
    case Suspended(awaited) =>
  }

  /** A step keeps every promise, unless it collects the promise's graph. */
  lemma StepKeeps(s: System, step: Step, q: Id)
    requires SysInv(s) && Enabled(s, step) && q in s.db.promises
    requires step.Collect? ==> GraphOf(s.db, q) !in step.doomed
    ensures Kept(s.db, Do(s, step).db, q)
  {
    hide Inv, OverlayOk, ClaimsOk, Finishing, SubmitCalls, SubmitTimerRow, Settles, SettleRows, DueRows, ValidFinish,
         OverlaysApart, ValidCall, ValidTimer, Doomed, DeleteExpired;
    match step
    case Submit(calls) => InvHasPromises(s.db); SubmitKeepsRows(s.db, calls);
    case Timer(timer) => SubmitTimerKeepsRows(s.db, timer);
    case Commit(id, finish, now) =>
      CommittedView(s, id);
      FinishKeeps(View(s.db, s.claims[id]), id, finish, now, q);
    case Maintain(timers, timeouts, kept, now) =>
      DueBatchSettles(s.db, timers, timeouts, kept, now);
      SettleRowsKeeps(s.db, DueRows(s.db, timers, timeouts, now), timeouts - kept, now, q);
    case Collect(doomed, before) => DeleteExpiredTakesWholeGraphs(s.db, doomed, before);
    case _ =>
  }

  lemma CommittedView(s: System, id: Id)
    requires SysInv(s) && id in s.claims
    ensures forall q :: q in s.db.promises ==>
              q in View(s.db, s.claims[id]).promises && View(s.db, s.claims[id]).promises[q] == s.db.promises[q]
  {
    hide Inv, OverlaysApart, PromiseRowOk, KeyOk, TaskRowOk, TaskMatches, ClaimOk;
    ViewKeepsTerminal(s.db, id, s.claims[id]);
  }

  ghost predicate KeptFor(db: Db, after: Db, graph: Id) {
    forall q :: q in db.promises && GraphOf(db, q) == graph ==> Kept(db, after, q)
  }

  /** An attempt stays well formed while its graph's promises are kept. */
  lemma AttemptSteady(lib: Library, view: Db, after: Db, p: Parent, a: Attempt)
    requires RowsOk(view) && AttemptOk(lib, view, p, a) && KeptFor(view, after, p.graph)
    ensures AttemptOk(lib, after, p, a)
  {
    hide IssuedBy, ValidHistory, Issued, Evaluates, PromiseRowOk;
    forall id | id in a.memo ensures Remembered(lib, after, p, id, a.memo[id]) {
      assert Remembered(lib, view, p, id, a.memo[id]);
      IssuedIsChild(lib, p, id, a.memo[id].key);
      assert KeyOk(id, view.promises[id]);
      assert Kept(view, after, id);
    }
    if a.status.Suspending? {
      forall id | id in a.status.awaited ensures Awaitable(lib, after, p, id) {
        assert Awaitable(lib, view, p, id);
        IssuedIsChild(lib, p, id, view.promises[id].key);
        assert KeyOk(id, view.promises[id]);
        assert Kept(view, after, id);
      }
    }
  }

  /** What another step leaves of a claim's view: its graph's promises and its own rows. */
  lemma ViewKept(s: System, step: Step, c: Id, after: System)
    requires SysInv(s) && Enabled(s, step) && after == Do(s, step) && SysInv(after)
    requires c in s.claims && c in after.claims && after.claims[c] == s.claims[c]
    requires step.Collect? ==> GraphOf(s.db, c) !in step.doomed
    ensures c in s.db.promises
    ensures KeptFor(View(s.db, s.claims[c]), View(after.db, after.claims[c]), GraphOf(s.db, c))
  {
    hide Inv, OverlaysApart, Enabled, Do, ClaimOk, PromiseRowOk, KeyOk, TaskRowOk, TaskMatches;
    assert OverlayOk(s.db, c, s.claims[c]);
    var o := s.claims[c];
    var view, next := View(s.db, o), View(after.db, o);
    CommittedView(s, c);
    CommittedView(after, c);
    forall q | q in view.promises && GraphOf(view, q) == GraphOf(s.db, c) ensures Kept(view, next, q) {
      if q in s.db.promises {
        StepKeeps(s, step, q);
      } else {
        assert q in o.promises;
        assert next.promises[q] == o.promises[q];
      }
    }
  }

  /** A claimed task's graph is never collected: its promise is pending. */
  lemma ClaimedGraphStays(s: System, doomed: set<Id>, before: int, c: Id)
    requires SysInv(s) && Enabled(s, Collect(doomed, before)) && c in s.claims
    ensures c in s.db.promises && GraphOf(s.db, c) !in doomed
  {
    hide Inv, OverlaysApart, OverlayOk;
    assert ClaimOk(s.db, c);
    assert GraphOf(s.db, c) in doomed ==> Doomed(s.db, GraphOf(s.db, c), before);
  }

  /** A task's parent record never changes while it is claimed. */
  lemma ParentStays(db: Db, after: Db, c: Id)
    requires IsCall(db, c) && Kept(db, after, c)
    ensures IsCall(after, c) && ParentOf(after, c) == ParentOf(db, c)
  {
  }

  lemma OtherAttemptSteady(lib: Library, s: System, step: Step, c: Id, a: Attempt)
    requires SysInv(s) && Enabled(s, step) && c in s.claims && c in Do(s, step).claims
             && Do(s, step).claims[c] == s.claims[c]
    requires IsCall(s.db, c) && AttemptOk(lib, View(s.db, s.claims[c]), ParentOf(s.db, c), a)
    ensures IsCall(Do(s, step).db, c)
    ensures AttemptOk(lib, View(Do(s, step).db, s.claims[c]), ParentOf(Do(s, step).db, c), a)
  {
    hide SysInv, Enabled, Do, AttemptOk, View, KeptFor;
    var after := Do(s, step);
    StepKeepsSysInv(s, step);
    if step.Collect? {
      ClaimedGraphStays(s, step.doomed, step.before, c);
    }
    StepKeeps(s, step, c);
    ParentStays(s.db, after.db, c);
    ViewKept(s, step, c, after);
    ViewRows(s, c);
    AttemptSteady(lib, View(s.db, s.claims[c]), View(after.db, s.claims[c]), ParentOf(s.db, c), a);
  }

  lemma ViewRows(s: System, c: Id)
    requires SysInv(s) && c in s.claims
    ensures RowsOk(View(s.db, s.claims[c])) && Inv(View(s.db, s.claims[c]))
  {
    hide OverlaysApart, RowsOk, WaitsOk, TasksOk, CountersExact, RootsPresent, CallsHaveTasks, OverlayOk, ClaimOk, View;
    ViewKeepsInv(s.db, c, s.claims[c]);
  }

  // ---------------------------------------------------------------- correctness is kept

  lemma SettleRowsCorrect(lib: Library, db: Db, settled: map<Id, Promise>, removed: set<Id>, now: int)
    requires Correct(lib, db) && forall id :: id in settled ==> RowCorrect(lib, settled[id])
    ensures Correct(lib, SettleRows(db, settled, removed, now))
  {
    hide RowCorrect, Woken, SettledFor;
  }

  lemma DueRowsCorrect(lib: Library, db: Db, timers: set<Id>, timeouts: set<Id>, kept: set<Id>, now: int)
    requires RowsOk(db) && DueBatch(db, timers, timeouts, kept, now)
    ensures forall id :: id in DueRows(db, timers, timeouts, now) ==>
              RowCorrect(lib, DueRows(db, timers, timeouts, now)[id])
  {
    hide Evaluates, SettledFor;
    var rows := DueRows(db, timers, timeouts, now);
    forall id | id in rows ensures RowCorrect(lib, rows[id]) {
      assert PromiseRowOk(id, db.promises[id]) && KeyOk(id, db.promises[id]);
    }
  }

  /** A commit that resolves a promise resolves it with what plain evaluation gives. */
  ghost predicate ResolvesTruly(lib: Library, db: Db, step: Step) {
    step.Commit? && step.finish.Settled? && step.finish.outcome.Complete? ==>
      && IsCall(db, step.id)
      && Evaluates(lib, WorkOfKey(db.promises[step.id].key),
                   if step.finish.outcome.result.Some? then step.finish.outcome.result.value else JSON_NULL)
  }

  lemma SettleOneCorrect(lib: Library, db: Db, id: Id, state: PromiseState, result: Option<Json>, error: Option<Json>,
                         now: int)
    requires Correct(lib, db) && id in db.promises
             && RowCorrect(lib, Terminal(db.promises[id], state, result, error, now))
    ensures Correct(lib, SettleOne(db, id, state, result, error, now))
  {
    hide RowCorrect, SettleRows;
    SettleRowsCorrect(lib, db, map[id := Terminal(db.promises[id], state, result, error, now)], {id}, now);
  }

  lemma FinishCorrect(lib: Library, view: Db, id: Id, finish: StoreRuns.Finish, now: int)
    requires Correct(lib, view) && ResolvesTruly(lib, view, Commit(id, finish, now))
             && Finishing(view, id, finish, now).Ok?
    ensures Correct(lib, Finishing(view, id, finish, now).value)
  {
    hide Evaluates, SettleOne, StillPending, NewEdges, Correct;
    match finish
    case Settled(Complete(result)) => SettleOneCorrect(lib, view, id, Resolved, result, None, now);
    case Settled(Reject(error)) => SettleOneCorrect(lib, view, id, Rejected, None, Some(error), now);
    case Failed(error, delayMs) =>
      if view.tasks[id].failures + 1 >= view.tasks[id].maxFailures {
        SettleOneCorrect(lib, view, id, Rejected, None, Some(error), now);
      } else {
        SamePromisesCorrect(lib, view, Finishing(view, id, finish, now).value);
      }
    case Suspended(awaited) =>
      SamePromisesCorrect(lib, view, Finishing(view, id, finish, now).value);
  }

  lemma SamePromisesCorrect(lib: Library, db: Db, after: Db)
    requires Correct(lib, db)
             && forall p :: p in after.promises ==> p in db.promises && after.promises[p] == db.promises[p]
    ensures Correct(lib, after)
  {
    hide RowCorrect;
  }

  lemma ViewCorrect(lib: Library, s: System, c: Id)
    requires SysInv(s) && c in s.claims && Correct(lib, s.db)
    ensures Correct(lib, View(s.db, s.claims[c]))
  {
    hide Inv, OverlaysApart, Evaluates, PromiseRowOk, KeyOk, TaskRowOk, TaskMatches, ClaimOk;
    assert OverlayOk(s.db, c, s.claims[c]);
  }

  lemma StepCorrect(lib: Library, s: System, step: Step)
    requires SysInv(s) && Enabled(s, step) && Correct(lib, s.db) && ResolvesTruly(lib, s.db, step)
    ensures Correct(lib, Do(s, step).db)
  {
    hide Inv, OverlayOk, ClaimsOk, Finishing, SubmitCalls, SubmitTimerRow, SettleRows, DueRows, ValidFinish,
         OverlaysApart, ValidCall, ValidTimer, Doomed, DeleteExpired, Correct, RowCorrect, ParentOf, Evaluates;
    match step
    case Submit(calls) => SubmitCorrect(lib, s.db, calls);
    case Timer(timer) => TimerCorrect(lib, s.db, timer);
    case Commit(id, finish, now) =>
      CommittedView(s, id);
      ViewCorrect(lib, s, id);
      FinishCorrect(lib, View(s.db, s.claims[id]), id, finish, now);
    case Maintain(timers, timeouts, kept, now) =>
      InvRows(s.db);
      DueRowsCorrect(lib, s.db, timers, timeouts, kept, now);
      SettleRowsCorrect(lib, s.db, DueRows(s.db, timers, timeouts, now), timeouts - kept, now);
    case Collect(doomed, before) =>
      DeleteExpiredTakesWholeGraphs(s.db, doomed, before);
      SamePromisesCorrect(lib, s.db, DeleteExpired(s.db, doomed));
    case _ =>
  }

  lemma InvRows(db: Db)
    requires Inv(db)
    ensures RowsOk(db) && WaitsOk(db)
  {
    hide CountersExact, TasksOk, CallsHaveTasks, RootsPresent, RowsOk, WaitsOk;
  }

  // ---------------------------------------------------------------- waits are kept

  ghost predicate EdgeIssued(lib: Library, db: Db, e: Edge) {
    && IsCall(db, e.waiter) && e.awaited in db.promises
    && IssuedBy(lib, ParentOf(db, e.waiter), e.awaited, db.promises[e.awaited].key)
  }

  lemma EdgeKept(lib: Library, db: Db, after: Db, e: Edge)
    requires EdgeIssued(lib, db, e) && Kept(db, after, e.waiter) && Kept(db, after, e.awaited)
    ensures EdgeIssued(lib, after, e)
  {
    hide IssuedBy;
    ParentStays(db, after, e.waiter);
  }

  /** A commit that suspends awaits children its task issues. */
  ghost predicate SuspendsOnIssued(lib: Library, s: System, step: Step) {
    step.Commit? && step.finish.Suspended? ==>
      && step.id in s.claims && IsCall(s.db, step.id)
      && forall a :: a in step.finish.awaited ==>
           Awaitable(lib, View(s.db, s.claims[step.id]), ParentOf(s.db, step.id), a)
  }

  lemma CommitEdges(lib: Library, s: System, id: Id, finish: StoreRuns.Finish, now: int)
    requires SysInv(s) && Enabled(s, Commit(id, finish, now)) && EdgesIssued(lib, s.db)
    requires SuspendsOnIssued(lib, s, Commit(id, finish, now))
    ensures EdgesIssued(lib, Do(s, Commit(id, finish, now)).db)
  {
    hide SysInv, Finishing, ValidFinish, IssuedBy, View, ParentOf, IsCall;
    var view := View(s.db, s.claims[id]);
    var after := Finishing(view, id, finish, now).value;
    CommittedView(s, id);
    ViewWaits(s, id);
    FinishWaits(view, id, finish, now);
    forall e | e in after.waits ensures EdgeIssued(lib, after, e) {
      if e in s.db.waits {
        assert EdgeIssued(lib, s.db, e);
        CalledIsPromise(s.db, e.waiter);
        StepKeeps(s, Commit(id, finish, now), e.waiter);
        StepKeeps(s, Commit(id, finish, now), e.awaited);
        EdgeKept(lib, s.db, after, e);
      } else {
        CalledIsPromise(s.db, id);
        SameParent(s.db, view, id);
        FinishKeeps(view, id, finish, now, e.waiter);
        FinishKeeps(view, id, finish, now, e.awaited);
        EdgeKept(lib, view, after, e);
      }
    }
  }

  lemma CalledIsPromise(db: Db, id: Id)
    ensures IsCall(db, id) ==> id in db.promises
  {
  }

  lemma SameParent(db: Db, view: Db, id: Id)
    requires IsCall(db, id) && id in view.promises && view.promises[id] == db.promises[id]
    ensures IsCall(view, id) && ParentOf(view, id) == ParentOf(db, id)
  {
  }

  lemma ViewWaits(s: System, id: Id)
    requires id in s.claims
    ensures View(s.db, s.claims[id]).waits == s.db.waits
  {
  }

  lemma StepEdges(lib: Library, s: System, step: Step)
    requires SysInv(s) && Enabled(s, step) && EdgesIssued(lib, s.db) && SuspendsOnIssued(lib, s, step)
    ensures EdgesIssued(lib, Do(s, step).db)
  {
    hide SysInv, Enabled, Do, IssuedBy, SuspendsOnIssued;
    if step.Commit? {
      CommitEdges(lib, s, step.id, step.finish, step.now);
    } else {
      var after := Do(s, step).db;
      OldWaits(s, step);
      forall e | e in after.waits ensures EdgeIssued(lib, after, e) {
        assert EdgeIssued(lib, s.db, e);
        StepKeeps(s, step, e.waiter);
        StepKeeps(s, step, e.awaited);
        EdgeKept(lib, s.db, after, e);
      }
    }
  }

  /** No step but a suspension adds a wait, and the waits that stay are of graphs that stay. */
  lemma OldWaits(s: System, step: Step)
    requires SysInv(s) && Enabled(s, step) && !step.Commit?
    ensures forall e :: e in Do(s, step).db.waits ==>
              && e in s.db.waits && e.waiter in s.db.promises && e.awaited in s.db.promises
              && (step.Collect? ==> GraphOf(s.db, e.waiter) !in step.doomed && GraphOf(s.db, e.awaited) !in step.doomed)
  {
    hide RowsOk, TasksOk, CountersExact, RootsPresent, CallsHaveTasks, ClaimsOk, OverlaysApart, SubmitCalls, Woken,
         SettledFor, Doomed, DueRows, ValidCall, ValidTimer;
    if step.Submit? {
      SubmitWaits(s.db, step.calls);
    }
  }

  // ---------------------------------------------------------------- every step of the world

  /** What the statement of a step may be relied on for. */
  ghost predicate Sound(lib: Library, s: System, step: Step) {
    ResolvesTruly(lib, s.db, step) && SuspendsOnIssued(lib, s, step)
  }

  lemma StatementKeepsStore(lib: Library, w: World, step: Step)
    requires WorldInv(lib, w) && Enabled(w.sys, step) && Sound(lib, w.sys, step)
    ensures SysInv(Do(w.sys, step)) && Correct(lib, Do(w.sys, step).db) && EdgesIssued(lib, Do(w.sys, step).db)
  {
    hide SysInv, Correct, EdgesIssued, AttemptsOk, Enabled, Do, ResolvesTruly, SuspendsOnIssued;
    StepKeepsSysInv(w.sys, step);
    StepCorrect(lib, w.sys, step);
    StepEdges(lib, w.sys, step);
  }

  /** A step taken by one claim, or by none, leaves every other attempt well formed. */
  lemma OthersSteady(lib: Library, w: World, step: Step, c: Id)
    requires WorldInv(lib, w) && Enabled(w.sys, step) && c in w.attempts
    requires c in Do(w.sys, step).claims && Do(w.sys, step).claims[c] == w.sys.claims[c]
    ensures IsCall(Do(w.sys, step).db, c)
    ensures AttemptOk(lib, View(Do(w.sys, step).db, Do(w.sys, step).claims[c]), ParentOf(Do(w.sys, step).db, c),
                      w.attempts[c])
  {
    hide SysInv, Correct, EdgesIssued, Enabled, Do, AttemptOk, View, ParentOf, IsCall;
    OtherAttemptSteady(lib, w.sys, step, c, w.attempts[c]);
  }

  /** Which claims a statement leaves as they are. */
  lemma OtherClaims(s: System, step: Step)
    requires Enabled(s, step)
    ensures match step
            case Claim(id, _) => Do(s, step).claims == s.claims[id := NOTHING]
            case WriteCalls(id, _) =>
              && Do(s, step).claims.Keys == s.claims.Keys
              && forall c :: c in s.claims && c != id ==> Do(s, step).claims[c] == s.claims[c]
            case WriteTimer(id, _) =>
              && Do(s, step).claims.Keys == s.claims.Keys
              && forall c :: c in s.claims && c != id ==> Do(s, step).claims[c] == s.claims[c]
            case Commit(id, _, _) => Do(s, step).claims == s.claims - {id}
            case Rollback(id) => Do(s, step).claims == s.claims - {id}
            case _ => Do(s, step).claims == s.claims
  {
    hide Delta, SubmitCalls, SubmitTimerRow, ProcessDue, DeleteExpired, Finishing;
  }

  lemma OutsideStep(lib: Library, w: World, step: Step)
    requires WorldInv(lib, w) && WorldEnabled(lib, w, Outside(step))
    ensures WorldInv(lib, WorldDo(lib, w, Outside(step)))
  {
    hide SysInv, Correct, EdgesIssued, AttemptOk, ParentOf, IsCall, Do, Enabled;
    OtherClaims(w.sys, step);
    assert Sound(lib, w.sys, step);
    StatementKeepsStore(lib, w, step);
    forall c | c in w.attempts
      ensures IsCall(Do(w.sys, step).db, c)
      ensures AttemptOk(lib, View(Do(w.sys, step).db, w.sys.claims[c]), ParentOf(Do(w.sys, step).db, c), w.attempts[c])
    {
      OthersSteady(lib, w, step, c);
    }
  }

  lemma AbandonStep(lib: Library, w: World, id: Id)
    requires WorldInv(lib, w) && WorldEnabled(lib, w, Abandon(id))
    ensures WorldInv(lib, WorldDo(lib, w, Abandon(id)))
  {
    hide SysInv, Correct, EdgesIssued, AttemptOk, ParentOf, IsCall, Do, Enabled;
    var step := Rollback(id);
    OtherClaims(w.sys, step);
    assert Sound(lib, w.sys, step);
    StatementKeepsStore(lib, w, step);
    forall c | c in w.attempts && c != id
      ensures IsCall(Do(w.sys, step).db, c)
      ensures AttemptOk(lib, View(Do(w.sys, step).db, w.sys.claims[c]), ParentOf(Do(w.sys, step).db, c), w.attempts[c])
    {
      OthersSteady(lib, w, step, c);
    }
  }

  lemma InterruptStep(lib: Library, w: World, id: Id, status: Status)
    requires WorldInv(lib, w) && WorldEnabled(lib, w, Interrupt(id, status))
    ensures WorldInv(lib, WorldDo(lib, w, Interrupt(id, status)))
  {
    hide SysInv, Correct, EdgesIssued, ParentOf, IsCall, MemoOk, View, ValidHistory, Evaluates, Awaitable, Report, Do;
  }

  /** A task with a row is a call. */
  lemma TaskIsCall(db: Db, id: Id)
    requires Inv(db) && id in db.tasks
    ensures IsCall(db, id)
  {
    hide CountersExact, RowsOk, WaitsOk, CallsHaveTasks, RootsPresent;
    TaskRow(db, id);
  }

  /** A claimed task starts from the promises it awaited, all of them issued by it. */
  lemma PreloadOk(lib: Library, db: Db, id: Id, view: Db)
    requires EdgesIssued(lib, db) && IsCall(db, id) && view == View(db, NOTHING)
    ensures MemoOk(lib, view, ParentOf(db, id), Preload(db, id))
  {
    hide IssuedBy, ParentOf;
    var memo := Preload(db, id);
    forall a | a in memo ensures Remembered(lib, view, ParentOf(db, id), a, memo[a]) {
      assert Edge(id, a) in db.waits;
    }
  }

  lemma BeginStep(lib: Library, w: World, id: Id, now: int)
    requires WorldInv(lib, w) && WorldEnabled(lib, w, Begin(id, now))
    ensures WorldInv(lib, WorldDo(lib, w, Begin(id, now)))
  {
    hide SysInv, Correct, EdgesIssued, ParentOf, IsCall, MemoOk, View, Preload;
    var step := Claim(id, now);
    StatementKeepsStore(lib, w, step);
    BeginsCall(lib, w, id, now);
    PreloadOk(lib, w.sys.db, id, View(w.sys.db, NOTHING));
    assert ValidHistory(lib, ParentOf(w.sys.db, id).work, []);
  }

  lemma BeginsCall(lib: Library, w: World, id: Id, now: int)
    requires WorldInv(lib, w) && Enabled(w.sys, Claim(id, now))
    ensures IsCall(w.sys.db, id)
  {
    hide ClaimsOk, OverlaysApart, Correct, EdgesIssued, AttemptsOk, IsCall, Inv;
    TaskIsCall(w.sys.db, id);
  }

  lemma StatusHolds(lib: Library, w: World, id: Id)
    requires AttemptsOk(lib, w) && id in w.attempts
    ensures id in w.sys.claims && IsCall(w.sys.db, id)
    ensures StatusOk(lib, Inside(w, id), ParentOf(w.sys.db, id), w.attempts[id])
  {
    hide StatusOk, MemoOk, IsCall, ParentOf, View;
  }

  lemma ParentWork(db: Db, id: Id)
    requires IsCall(db, id)
    ensures ParentOf(db, id).work == WorkOfKey(db.promises[id].key)
  {
  }

  lemma FinishSound(lib: Library, w: World, id: Id, now: int)
    requires AttemptsOk(lib, w) && id in w.attempts && !w.attempts[id].status.Running?
    ensures Sound(lib, w.sys, Commit(id, Report(w.attempts[id].status), now))
  {
    hide AttemptsOk, Evaluates, ValidHistory, Issued, View, Awaitable, ParentOf, IsCall, SuspendsOnIssued,
         ResolvesTruly;
    StatusHolds(lib, w, id);
    FinishSuspends(lib, w, id, now);
    FinishResolves(lib, w, id, now);
  }

  lemma FinishSuspends(lib: Library, w: World, id: Id, now: int)
    requires id in w.attempts && id in w.sys.claims && IsCall(w.sys.db, id)
    requires !w.attempts[id].status.Running? && StatusOk(lib, Inside(w, id), ParentOf(w.sys.db, id), w.attempts[id])
    ensures SuspendsOnIssued(lib, w.sys, Commit(id, Report(w.attempts[id].status), now))
  {
    hide Evaluates, ValidHistory, Issued, View, Awaitable, ParentOf, IsCall;
  }

  lemma FinishResolves(lib: Library, w: World, id: Id, now: int)
    requires id in w.attempts && id in w.sys.claims && IsCall(w.sys.db, id)
    requires !w.attempts[id].status.Running? && StatusOk(lib, Inside(w, id), ParentOf(w.sys.db, id), w.attempts[id])
    ensures ResolvesTruly(lib, w.sys.db, Commit(id, Report(w.attempts[id].status), now))
  {
    hide Evaluates, ValidHistory, Issued, View, Awaitable, ParentOf;
    ParentWork(w.sys.db, id);
  }

  lemma FinishStep(lib: Library, w: World, id: Id, now: int)
    requires WorldInv(lib, w) && WorldEnabled(lib, w, Workflow.Finish(id, now))
    ensures WorldInv(lib, WorldDo(lib, w, Workflow.Finish(id, now)))
  {
    hide SysInv, Correct, EdgesIssued, AttemptOk, ParentOf, IsCall, Do, Enabled, Report, Sound, Moved;
    var step := Commit(id, Report(w.attempts[id].status), now);
    OtherClaims(w.sys, step);
    FinishSound(lib, w, id, now);
    StatementKeepsStore(lib, w, step);
    forall c | c in w.attempts && c != id
      ensures IsCall(Do(w.sys, step).db, c)
      ensures AttemptOk(lib, View(Do(w.sys, step).db, w.sys.claims[c]), ParentOf(Do(w.sys, step).db, c), w.attempts[c])
    {
      OthersSteady(lib, w, step, c);
    }
  }

  /** The attempt that advances is well formed in the view its statement leaves it. */
  lemma AdvancedOk(lib: Library, view: Db, p: Parent, a: Attempt, now: int, retentionMs: int, flushed: set<nat>)
    requires Inv(view) && Correct(lib, view) && AttemptOk(lib, view, p, a) && a.status == Running
    ensures var moved := AdvanceAttempt(lib, view, p, a, now, retentionMs, flushed);
            match moved.step
            case None => AttemptOk(lib, view, p, moved.attempt)
            case Some(WriteCalls(id, calls)) =>
              id == p.id && AttemptOk(lib, SubmitCalls(view, calls).db, p, moved.attempt)
            case Some(WriteTimer(id, timer)) =>
              id == p.id && AttemptOk(lib, SubmitTimerRow(view, timer).db, p, moved.attempt)
            case Some(_) => false
  {
    hide Inv, Correct, MemoOk, ValidHistory, Issued, SubmitCalls, SubmitTimerRow, FreshCalls, GroupRefused, AfterGroup,
         AfterTimer, ValidTimer, ChildTimer, AllThere, Evaluates, IssuedBy, Remembered;
    match lib(p.work, a.history)
    case Done(value) => ReturnsTheValue(lib, p.work, a.history, value);
    case Raise(error) =>
    case Sleep(delayMs) => SleepKeepsAttempt(lib, view, p, a, delayMs, now, retentionMs);
    case Gather(calls) =>
      GatherKeepsAttempt(lib, view, p, a, calls, now, retentionMs, flushed);
      SubmitNothing(view);
  }

  lemma SubmitNothing(db: Db)
    ensures SubmitCalls(db, []).db == db
  {
  }

  /** What a claim sees after its own statement. */
  lemma OwnView(s: System, step: Step, id: Id)
    requires SysInv(s) && Enabled(s, step) && id in s.claims
    requires (step.WriteCalls? || step.WriteTimer?) && step.id == id
    ensures Do(s, step).db == s.db
    ensures step.WriteCalls? ==>
              View(s.db, Do(s, step).claims[id]) == SubmitCalls(View(s.db, s.claims[id]), step.calls).db
    ensures step.WriteTimer? ==>
              View(s.db, Do(s, step).claims[id]) == SubmitTimerRow(View(s.db, s.claims[id]), step.timer).db
  {
    hide Inv, OverlayOk, OverlaysApart, ClaimOk, View, Delta, SubmitCalls, SubmitTimerRow, ValidCall, ValidTimer,
         Reserved;
    assert OverlayOk(s.db, id, s.claims[id]);
    if step.WriteCalls? {
      WriteKeepsOverlay(s.db, id, s.claims[id], step.calls);
    } else {
      WriteTimerKeepsOverlay(s.db, id, s.claims[id], step.timer);
    }
  }

  lemma AdvanceStep(lib: Library, w: World, id: Id, now: int, retentionMs: int, flushed: set<nat>)
    requires WorldInv(lib, w) && WorldEnabled(lib, w, Advance(id, now, retentionMs, flushed))
    ensures WorldInv(lib, WorldDo(lib, w, Advance(id, now, retentionMs, flushed)))
  {
    hide SysInv, Correct, EdgesIssued, AttemptOk, IsCall, Do, Enabled, AdvanceAttempt, View, Inv, SubmitCalls,
         SubmitTimerRow, Sound;
    var view := Inside(w, id);
    var p := ParentOf(w.sys.db, id);
    var a := w.attempts[id];
    ViewRows(w.sys, id);
    ViewCorrect(lib, w.sys, id);
    AdvancedOk(lib, view, p, a, now, retentionMs, flushed);
    var moved := Moved(lib, w, id, now, retentionMs, flushed);
    if moved.step.Some? {
      var step := moved.step.value;
      WritesAreSound(lib, w.sys, step);
      OtherClaims(w.sys, step);
      StatementKeepsStore(lib, w, step);
      OwnView(w.sys, step, id);
      forall c | c in w.attempts && c != id
        ensures IsCall(Do(w.sys, step).db, c)
        ensures AttemptOk(lib, View(Do(w.sys, step).db, w.sys.claims[c]), ParentOf(Do(w.sys, step).db, c),
                          w.attempts[c])
      {
        OthersSteady(lib, w, step, c);
      }
    }
  }

  lemma WritesAreSound(lib: Library, s: System, step: Step)
    requires step.WriteCalls? || step.WriteTimer?
    ensures Sound(lib, s, step)
  {
  }

  lemma WorldStepKeepsInv(lib: Library, w: World, step: WorldStep)
    requires WorldInv(lib, w) && WorldEnabled(lib, w, step)
    ensures WorldInv(lib, WorldDo(lib, w, step))
  {
    hide WorldInv, WorldEnabled, WorldDo;
    match step
    case Outside(outside) => OutsideStep(lib, w, outside);
    case Begin(id, now) => BeginStep(lib, w, id, now);
    case Advance(id, now, retentionMs, flushed) => AdvanceStep(lib, w, id, now, retentionMs, flushed);
    case Interrupt(id, status) => InterruptStep(lib, w, id, status);
    case Finish(id, now) => FinishStep(lib, w, id, now);
    case Abandon(id) => AbandonStep(lib, w, id);
  }

  /** A legal step leads to the rest of a legal run. */
  lemma Follows(lib: Library, w: World, steps: seq<WorldStep>, next: World)
    requires steps != [] && WorldEnabled(lib, w, steps[0]) && WorldDo(lib, w, steps[0]) == next
    requires WorldLegal(lib, next, steps[1..])
    ensures WorldLegal(lib, w, steps) && WorldReach(lib, w, steps) == WorldReach(lib, next, steps[1..])
  {
    hide WorldEnabled, WorldDo;
  }

  lemma LastStep(lib: Library, w: World, step: WorldStep)
    requires WorldEnabled(lib, w, step)
    ensures WorldLegal(lib, w, [step]) && WorldReach(lib, w, [step]) == WorldDo(lib, w, step)
  {
    hide WorldEnabled, WorldDo;
    var last := WorldDo(lib, w, step);
    assert [step][1..] == [];
    assert WorldLegal(lib, last, []) && WorldReach(lib, last, []) == last;
  }

  lemma {:induction false} RunKeepsWorldInv(lib: Library, w: World, steps: seq<WorldStep>)
    requires WorldInv(lib, w) && WorldLegal(lib, w, steps)
    ensures WorldInv(lib, WorldReach(lib, w, steps))
    decreases |steps|
  {
    hide WorldInv, WorldEnabled, WorldDo;
    if steps != [] {
      WorldStepKeepsInv(lib, w, steps[0]);
      RunKeepsWorldInv(lib, WorldDo(lib, w, steps[0]), steps[1..]);
    }
  }

  lemma StartInv(lib: Library)
    ensures WorldInv(lib, START)
  {
    InitialSysInv();
  }

  /** Durable equals direct. In every state any run of the whole system reaches, through any
      suspensions, retries, rollbacks, timeouts, maintenance, collections and outside submissions,
      every resolved call holds exactly the value that plain recursive evaluation of its function
      and arguments gives. */
  lemma DurableEqualsDirect(lib: Library, steps: seq<WorldStep>, id: Id)
    requires WorldLegal(lib, START, steps)
    requires id in WorldReach(lib, START, steps).sys.db.promises
    ensures var p := WorldReach(lib, START, steps).sys.db.promises[id];
            p.state == Resolved && p.key.CallKey? ==>
              forall v :: Evaluates(lib, WorkOfKey(p.key), v) <==> v == ValueOf(p)
  {
    hide SysInv, EdgesIssued, AttemptsOk, WorldLegal, WorldReach, Evaluates;
    StartInv(lib);
    RunKeepsWorldInv(lib, START, steps);
    var p := WorldReach(lib, START, steps).sys.db.promises[id];
    assert RowCorrect(lib, p);
    if p.state == Resolved && p.key.CallKey? {
      forall v | Evaluates(lib, WorkOfKey(p.key), v) ensures v == ValueOf(p) {
        EvaluatesUnique(lib, WorkOfKey(p.key), v, ValueOf(p));
      }
    }
  }
}
