/** The store with its workers: claim transactions that stay open, write, and commit or roll back,
    while submissions, maintenance and garbage collection go on around them. */
module StoreRuns {
  import opened Wrappers
  import opened Store
  import opened StoreLaws

  /** The rows an open transaction has inserted and nobody else sees yet. */
  datatype Overlay = Overlay(promises: map<Id, Promise>, tasks: map<Id, Task>)

  const NOTHING := Overlay(map[], map[])

  /** The committed store, and the open claims with what each has written. */
  datatype System = System(db: Db, claims: map<Id, Overlay>)

  const INITIAL := System(EMPTY, map[])

  /** How a claim ends: a settlement, a failed attempt, or a suspension. */
  datatype Finish =
    | Settled(outcome: Outcome)
    | Failed(error: Json, delayMs: int)
    | Suspended(awaited: seq<Id>)

  datatype Step =
    | Submit(calls: seq<SubmitCall>)
    | Timer(timer: SubmitTimer)
    | Claim(id: Id, now: int)
    | WriteCalls(id: Id, calls: seq<SubmitCall>)
    | WriteTimer(id: Id, timer: SubmitTimer)
    | Commit(id: Id, finish: Finish, now: int)
    | Rollback(id: Id)
    | Maintain(timers: set<Id>, timeouts: set<Id>, kept: set<Id>, now: int)
    | Collect(doomed: set<Id>, before: int)

  /** What a transaction reads: the committed rows and its own. */
  function View(db: Db, o: Overlay): Db {
    Db(db.promises + o.promises, db.tasks + o.tasks, db.waits)
  }

  /** The rows `after` adds to `db`. */
  function Delta(db: Db, after: Db): Overlay {
    Overlay(map p | p in after.promises && p !in db.promises :: after.promises[p],
            map t | t in after.tasks && t !in db.tasks :: after.tasks[t])
  }

  /** A row another open transaction has inserted: inserting the same id waits for its outcome. */
  predicate Reserved(s: System, own: Option<Id>, id: Id) {
    exists c :: c in s.claims && own != Some(c) && id in s.claims[c].promises
  }

  predicate Claimable(db: Db, id: Id, now: int) {
    && id in db.tasks && id in db.promises && db.tasks[id].pendingWaits == 0 && db.tasks[id].availableAt <= now
    && db.promises[id].state == Pending && db.promises[id].expiresAt.Some? && db.promises[id].expiresAt.value > now
  }

  function Finishing(view: Db, id: Id, finish: Finish, now: int): Result<Db, StoreError> {
    match finish
    case Settled(outcome) => Settle(view, id, outcome, now)
    case Failed(error, delayMs) =>
      (match Retry(view, id, error, delayMs, now)
       case Ok(retried) => Ok(retried.db)
       case Err(error) => Err(error))
    case Suspended(awaited) => Suspend(view, id, awaited, now)
  }

  predicate ValidFinish(id: Id, finish: Finish) {
    finish.Suspended? ==> ValidSuspend(id, finish.awaited)
  }

  /** Children are submitted below the claimed task's root. */
  predicate ValidChild(s: System, id: Id, root: Option<Id>)
    requires id in s.db.promises
  {
    root == Some(GraphOf(s.db, id))
  }

  predicate Enabled(s: System, step: Step) {
    match step
    case Submit(calls) =>
      forall i :: 0 <= i < |calls| ==> ValidCall(calls[i]) && !Reserved(s, None, calls[i].id)
    case Timer(timer) => ValidTimer(timer) && !Reserved(s, None, timer.id)
    case Claim(id, now) => Claimable(s.db, id, now) && id !in s.claims
    case WriteCalls(id, calls) =>
      && id in s.claims && id in s.db.promises
      && forall i :: 0 <= i < |calls| ==>
           ValidCall(calls[i]) && ValidChild(s, id, calls[i].root) && !Reserved(s, Some(id), calls[i].id)
    case WriteTimer(id, timer) =>
      && id in s.claims && id in s.db.promises
      && ValidTimer(timer) && ValidChild(s, id, timer.root) && !Reserved(s, Some(id), timer.id)
    case Commit(id, finish, now) =>
      id in s.claims && ValidFinish(id, finish) && Finishing(View(s.db, s.claims[id]), id, finish, now).Ok?
    case Rollback(id) => id in s.claims
    case Maintain(timers, timeouts, kept, now) =>
      DueBatch(s.db, timers, timeouts, kept, now) && timeouts !! s.claims.Keys
    case Collect(doomed, before) => forall id :: id in doomed ==> Doomed(s.db, id, before)
  }

  function Do(s: System, step: Step): System
    requires Enabled(s, step)
  {
    match step
    case Submit(calls) => s.(db := SubmitCalls(s.db, calls).db)
    case Timer(timer) => s.(db := SubmitTimerRow(s.db, timer).db)
    case Claim(id, now) => s.(claims := s.claims[id := NOTHING])
    case WriteCalls(id, calls) =>
      s.(claims := s.claims[id := Delta(s.db, SubmitCalls(View(s.db, s.claims[id]), calls).db)])
    case WriteTimer(id, timer) =>
      s.(claims := s.claims[id := Delta(s.db, SubmitTimerRow(View(s.db, s.claims[id]), timer).db)])
    case Commit(id, finish, now) =>
      System(Finishing(View(s.db, s.claims[id]), id, finish, now).value, s.claims - {id})
    case Rollback(id) => s.(claims := s.claims - {id})
    case Maintain(timers, timeouts, kept, now) => s.(db := ProcessDue(s.db, timers, timeouts, kept, now))
    case Collect(doomed, before) => s.(db := DeleteExpired(s.db, doomed))
  }

  predicate Legal(s: System, steps: seq<Step>)
    decreases |steps|
  {
    steps == [] || (Enabled(s, steps[0]) && Legal(Do(s, steps[0]), steps[1..]))
  }

  function Reach(s: System, steps: seq<Step>): System
    requires Legal(s, steps)
    decreases |steps|
  {
    if steps == [] then s else Reach(Do(s, steps[0]), steps[1..])
  }

  // ---------------------------------------------------------------- the invariant

  /** Uncommitted rows are fresh pending children of the claimed task's graph. */
  ghost predicate OverlayOk(db: Db, claim: Id, o: Overlay) {
    && claim in db.promises
    && (forall p :: p in o.promises ==>
          && p !in db.promises && PromiseRowOk(p, o.promises[p]) && KeyOk(p, o.promises[p])
          && o.promises[p].state == Pending && o.promises[p].root == Some(GraphOf(db, claim))
          && (o.promises[p].expiresAt.Some? <==> p in o.tasks))
    && (forall t :: t in o.tasks ==>
          && t in o.promises && TaskRowOk(o.tasks[t]) && TaskMatches(o.promises[t], o.tasks[t])
          && o.tasks[t].pendingWaits == 0 && o.tasks[t].failures == 0)
  }

  /** A claimed task awaits nothing and its promise is pending. */
  ghost predicate ClaimOk(db: Db, id: Id) {
    && id in db.promises && id in db.tasks && db.promises[id].state == Pending
    && db.tasks[id].pendingWaits == 0
  }

  ghost predicate ClaimsOk(s: System) {
    forall c :: c in s.claims ==> ClaimOk(s.db, c) && OverlayOk(s.db, c, s.claims[c])
  }

  ghost predicate OverlaysApart(s: System) {
    forall c, d :: c in s.claims && d in s.claims && c != d ==> s.claims[c].promises.Keys !! s.claims[d].promises.Keys
  }

  ghost predicate SysInv(s: System) {
    Inv(s.db) && ClaimsOk(s) && OverlaysApart(s)
  }

  // ---------------------------------------------------------------- a transaction's view

  lemma ViewKeepsRows(db: Db, claim: Id, o: Overlay)
    requires RowsOk(db) && CallsHaveTasks(db) && OverlayOk(db, claim, o)
    ensures RowsOk(View(db, o)) && CallsHaveTasks(View(db, o))
  {
    hide PromiseRowOk, KeyOk, TaskRowOk, TaskMatches;
  }

  lemma ViewKeepsTasks(db: Db, claim: Id, o: Overlay)
    requires TasksOk(db) && WaitsOk(db) && OverlayOk(db, claim, o)
    ensures TasksOk(View(db, o)) && WaitsOk(View(db, o))
  {
    hide PromiseRowOk, KeyOk, TaskRowOk, TaskMatches;
  }

  lemma ViewKeepsRoots(db: Db, claim: Id, o: Overlay)
    requires RootsPresent(db) && OverlayOk(db, claim, o)
    ensures RootsPresent(View(db, o))
  {
    hide PromiseRowOk, KeyOk, TaskRowOk, TaskMatches;
    var view := View(db, o);
    assert RootPresent(db, claim);
    forall p | p in view.promises ensures RootPresent(view, p) {
      assert p in db.promises ==> RootPresent(db, p);
    }
  }

  lemma ViewAwaits(db: Db, claim: Id, o: Overlay, t: Id)
    requires WaitsOk(db) && OverlayOk(db, claim, o)
    ensures PendingAwaits(View(db, o), t) == PendingAwaits(db, t)
  {
    hide PromiseRowOk, KeyOk, TaskRowOk, TaskMatches;
  }

  lemma ViewKeepsCounters(db: Db, claim: Id, o: Overlay)
    requires TasksOk(db) && WaitsOk(db) && CountersExact(db) && OverlayOk(db, claim, o)
    ensures CountersExact(View(db, o))
  {
    hide PromiseRowOk, KeyOk, TaskRowOk, TaskMatches, PendingAwaits;
    var view := View(db, o);
    forall t | t in view.tasks ensures view.tasks[t].pendingWaits == |PendingAwaits(view, t)| {
      ViewAwaits(db, claim, o, t);
      if t in o.tasks {
        NobodyAwaits(db, t);
      }
    }
  }

  lemma NobodyAwaits(db: Db, t: Id)
    requires WaitsOk(db) && t !in db.tasks
    ensures PendingAwaits(db, t) == {}
  {
  }

  /** What a transaction sees satisfies the invariant too. */
  lemma ViewKeepsInv(db: Db, claim: Id, o: Overlay)
    requires Inv(db) && OverlayOk(db, claim, o)
    ensures Inv(View(db, o))
  {
    hide RowsOk, CallsHaveTasks, TasksOk, WaitsOk, CountersExact, RootsPresent, OverlayOk, View;
    ViewKeepsRows(db, claim, o);
    ViewKeepsTasks(db, claim, o);
    ViewKeepsRoots(db, claim, o);
    ViewKeepsCounters(db, claim, o);
  }

  // ---------------------------------------------------------------- what a step cannot touch

  /** A row of both tables is the same before and after. */
  ghost predicate Frozen(db: Db, after: Db, c: Id) {
    && c in db.promises && c in after.promises && after.promises[c] == db.promises[c]
    && c in db.tasks && c in after.tasks && after.tasks[c] == db.tasks[c]
  }

  lemma FrozenKeepsClaim(db: Db, after: Db, c: Id, o: Overlay)
    requires ClaimOk(db, c) && OverlayOk(db, c, o) && Frozen(db, after, c)
    requires forall p :: p in o.promises ==> p !in after.promises
    ensures ClaimOk(after, c) && OverlayOk(after, c, o)
  {
    hide PromiseRowOk, KeyOk, TaskRowOk, TaskMatches;
  }

  ghost predicate KeepsRows(db: Db, after: Db) {
    && (forall p :: p in db.promises ==> p in after.promises && after.promises[p] == db.promises[p])
    && (forall t :: t in db.tasks ==> t in after.tasks && after.tasks[t] == db.tasks[t])
    && after.waits == db.waits
  }

  lemma InsertsKeepRows(db: Db, calls: seq<SubmitCall>)
    requires TasksHavePromises(db) && DistinctIds(calls)
    ensures KeepsRows(db, InsertCalls(db, calls))
    ensures var after := InsertCalls(db, calls);
            forall t :: t in after.tasks && t !in db.tasks ==> t in after.promises && t !in db.promises
  {
    hide CallPromise, CallTask;
    InsertCallsHas(db, calls);
    InsertCallsRows(db, calls);
  }

  lemma InsertedRow(db: Db, calls: seq<SubmitCall>, p: Id)
    requires TasksHavePromises(db) && DistinctIds(calls) && p in InsertCalls(db, calls).promises && p !in db.promises
    ensures var after := InsertCalls(db, calls);
            exists i :: 0 <= i < |calls| && calls[i].id == p && after.promises[p] == CallPromise(calls[i])
                        && p in after.tasks && after.tasks[p] == CallTask(calls[i])
  {
    hide CallPromise, CallTask, KeepsRows;
    InsertCallsRows(db, calls);
    var i :| 0 <= i < |calls| && calls[i].id == p;
    assert calls[i].id !in db.promises;
  }

  lemma SubmittedStore(db: Db, calls: seq<SubmitCall>)
    ensures SubmitCalls(db, calls).db == db
            || (DistinctIds(calls) && SubmitCalls(db, calls).db == InsertCalls(db, calls))
  {
    hide InsertCalls, RootsPresent, FirstConflict;
    NoDuplicate(calls, 0);
  }

  lemma SubmitKeepsRows(db: Db, calls: seq<SubmitCall>)
    requires TasksHavePromises(db)
    ensures KeepsRows(db, SubmitCalls(db, calls).db)
    ensures var after := SubmitCalls(db, calls).db;
            && (forall p :: p in after.promises && p !in db.promises ==>
                  exists i :: 0 <= i < |calls| && calls[i].id == p && after.promises[p] == CallPromise(calls[i])
                              && p in after.tasks && after.tasks[p] == CallTask(calls[i]))
            && (forall t :: t in after.tasks && t !in db.tasks ==> t in after.promises && t !in db.promises)
  {
    hide CallPromise, CallTask, SubmitCalls, InsertCalls;
    SubmittedStore(db, calls);
    var after := SubmitCalls(db, calls).db;
    if after != db {
      InsertsKeepRows(db, calls);
      forall p | p in after.promises && p !in db.promises
        ensures exists i :: 0 <= i < |calls| && calls[i].id == p && after.promises[p] == CallPromise(calls[i])
                            && p in after.tasks && after.tasks[p] == CallTask(calls[i])
      {
        InsertedRow(db, calls, p);
      }
    }
  }

  lemma SubmitTimerKeepsRows(db: Db, t: SubmitTimer)
    ensures KeepsRows(db, SubmitTimerRow(db, t).db)
    ensures var after := SubmitTimerRow(db, t).db;
            && (forall p :: p in after.promises && p !in db.promises ==>
                  p == t.id && after.promises[p] == TimerPromise(t))
            && after.tasks == db.tasks
  {
    hide TimerPromise, RootsPresent;
  }

  /** Settling other promises leaves a task that awaits nothing alone. */
  lemma SettleRowsFreezes(db: Db, settled: map<Id, Promise>, removed: set<Id>, now: int, c: Id)
    requires ClaimOk(db, c) && CountersExact(db) && Settles(db, settled, removed) && c !in settled
    ensures Frozen(db, SettleRows(db, settled, removed, now), c)
  {
    hide PendingAfter, PendingAwaits, PromiseRowOk;
    WokenIsExact(db, settled, removed, now, c);
  }

  /** The new rows of a settlement: no promise appears. */
  lemma SettleRowsKeys(db: Db, settled: map<Id, Promise>, removed: set<Id>, now: int)
    requires Settles(db, settled, removed)
    ensures SettleRows(db, settled, removed, now).promises.Keys == db.promises.Keys
  {
    hide PromiseRowOk, Woken, SettledFor;
  }

  lemma FinishFreezes(view: Db, id: Id, finish: Finish, now: int, c: Id)
    requires Inv(view) && ClaimOk(view, c) && c != id
    requires Finishing(view, id, finish, now).Ok?
    ensures Frozen(view, Finishing(view, id, finish, now).value, c)
    ensures Finishing(view, id, finish, now).value.promises.Keys == view.promises.Keys
  {
    hide CountersExact, TasksOk, WaitsOk, CallsHaveTasks, RootsPresent, Settles, SettleRows, StillPending, NewEdges;
    match finish
    case Settled(Complete(result)) => SettleOneFreezes(view, id, Resolved, result, None, now, c);
    case Settled(Reject(error)) => SettleOneFreezes(view, id, Rejected, None, Some(error), now, c);
    case Failed(error, delayMs) =>
      if view.tasks[id].failures + 1 >= view.tasks[id].maxFailures {
        SettleOneFreezes(view, id, Rejected, None, Some(error), now, c);
      }
    case Suspended(awaited) =>
  }

  lemma SettleOneFreezes(db: Db, id: Id, state: PromiseState, result: Option<Json>, error: Option<Json>, now: int,
                         c: Id)
    requires Inv(db) && Settleable(db, id) && ClaimOk(db, c) && c != id
    requires (state == Resolved && error.None?) || (state == Rejected && result.None? && error.Some?)
    ensures Frozen(db, SettleOne(db, id, state, result, error, now), c)
    ensures SettleOne(db, id, state, result, error, now).promises.Keys == db.promises.Keys
  {
    hide CountersExact, TasksOk, RowsOk, WaitsOk, CallsHaveTasks, RootsPresent, Settles, SettleRows;
    SettleOneSettles(db, id, state, result, error, now);
    var settled := map[id := Terminal(db.promises[id], state, result, error, now)];
    SettleRowsFreezes(db, settled, {id}, now, c);
    SettleRowsKeys(db, settled, {id}, now);
  }

  lemma ViewFreezes(db: Db, claim: Id, o: Overlay, c: Id)
    requires ClaimOk(db, c) && OverlayOk(db, claim, o)
    ensures Frozen(db, View(db, o), c) && ClaimOk(View(db, o), c)
  {
    hide PromiseRowOk, KeyOk, TaskRowOk, TaskMatches;
  }

  lemma MaintainFreezes(s: System, timers: set<Id>, timeouts: set<Id>, kept: set<Id>, now: int, c: Id)
    requires SysInv(s) && Enabled(s, Maintain(timers, timeouts, kept, now)) && c in s.claims
    ensures Frozen(s.db, ProcessDue(s.db, timers, timeouts, kept, now), c)
    ensures ProcessDue(s.db, timers, timeouts, kept, now).promises.Keys == s.db.promises.Keys
  {
    hide CountersExact, WaitsOk, CallsHaveTasks, RootsPresent, Settles, SettleRows, OverlayOk, OverlaysApart,
         DueRows, PromiseRowOk, TaskRowOk, KeyOk;
    DueBatchSettles(s.db, timers, timeouts, kept, now);
    var settled := DueRows(s.db, timers, timeouts, now);
    DueKeys(s.db, timers, timeouts, now);
    ClaimIsCall(s.db, c);
    SettleRowsFreezes(s.db, settled, timeouts - kept, now, c);
    SettleRowsKeys(s.db, settled, timeouts - kept, now);
  }

  lemma DueKeys(db: Db, timers: set<Id>, timeouts: set<Id>, now: int)
    requires forall id :: id in timers || id in timeouts ==> id in db.promises
    ensures DueRows(db, timers, timeouts, now).Keys == timers + timeouts
  {
  }

  /** A promise with a task is a call, never a timer. */
  lemma ClaimIsCall(db: Db, c: Id)
    requires TasksOk(db) && RowsOk(db) && c in db.tasks
    ensures c in db.promises && db.promises[c].expiresAt.Some? && db.promises[c].dueAt.None?
  {
    hide TaskRowOk;
    assert PromiseRowOk(c, db.promises[c]) && KeyOk(c, db.promises[c]) && TaskMatches(db.promises[c], db.tasks[c]);
  }

  lemma CollectFreezes(db: Db, doomed: set<Id>, before: int, c: Id)
    requires Inv(db) && ClaimOk(db, c) && forall id :: id in doomed ==> Doomed(db, id, before)
    ensures Frozen(db, DeleteExpired(db, doomed), c)
    ensures DeleteExpired(db, doomed).promises.Keys <= db.promises.Keys
  {
    hide CountersExact, RowsOk, TasksOk, WaitsOk, CallsHaveTasks, RootsPresent, Doomed, DeleteExpired;
    DeleteExpiredTakesWholeGraphs(db, doomed, before);
  }
}
