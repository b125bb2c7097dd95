/** Every statement keeps the store's invariant; in particular the wait counters stay exact. */
module StoreLaws {
  import opened Wrappers
  import opened Store

  lemma EmptyInv()
    ensures Inv(EMPTY)
  {
  }

  // ---------------------------------------------------------------- sets

  lemma {:induction false} SubsetSize<T>(a: set<T>, b: set<T>)
    requires a <= b
    ensures |a| <= |b|
    ensures |b - a| == |b| - |a|
  {
    assert b == a + (b - a);
  }

  // ---------------------------------------------------------------- submission

  /** The invariant while a batch is being inserted, before its root references are checked. */
  ghost predicate InvButRoots(db: Db) {
    RowsOk(db) && CallsHaveTasks(db) && TasksOk(db) && WaitsOk(db) && CountersExact(db)
  }

  /** A promise nobody awaits yet changes no counter. */
  lemma NewPromiseKeepsCounters(db: Db, after: Db, id: Id)
    requires TasksOk(db) && WaitsOk(db) && CountersExact(db) && id !in db.promises
    requires after.waits == db.waits && after.promises.Keys == db.promises.Keys + {id}
    requires forall q :: q in db.promises ==> after.promises[q] == db.promises[q]
    requires forall t :: t in after.tasks ==>
               if t in db.tasks then after.tasks[t] == db.tasks[t] else t == id && after.tasks[t].pendingWaits == 0
    ensures CountersExact(after)
  {
    forall t | t in after.tasks ensures after.tasks[t].pendingWaits == |PendingAwaits(after, t)| {
      if t in db.tasks {
        assert PendingAwaits(after, t) == PendingAwaits(db, t);
      } else {
        assert PendingAwaits(after, t) == {};
      }
    }
  }

  lemma InsertCallKeepsRows(db: Db, c: SubmitCall)
    requires InvButRoots(db) && ValidCall(c)
    ensures RowsOk(InsertCall(db, c)) && CallsHaveTasks(InsertCall(db, c))
  {
    hide CountersExact, WaitsOk, TasksOk;
  }

  lemma InsertCallKeepsTasks(db: Db, c: SubmitCall)
    requires InvButRoots(db) && ValidCall(c)
    ensures TasksOk(InsertCall(db, c)) && WaitsOk(InsertCall(db, c))
  {
    hide CountersExact, RowsOk, CallsHaveTasks;
  }

  lemma InsertCallKeepsCounters(db: Db, c: SubmitCall)
    requires TasksOk(db) && WaitsOk(db) && CountersExact(db)
    ensures CountersExact(InsertCall(db, c))
  {
    hide TaskMatches, TaskRowOk;
    if c.id !in db.promises {
      assert c.id !in db.tasks;
      NewPromiseKeepsCounters(db, InsertCall(db, c), c.id);
    }
  }

  lemma InsertCallKeepsInv(db: Db, c: SubmitCall)
    requires InvButRoots(db) && ValidCall(c)
    ensures InvButRoots(InsertCall(db, c))
  {
    hide RowsOk, CallsHaveTasks, TasksOk, WaitsOk, CountersExact, InsertCall;
    InsertCallKeepsRows(db, c);
    InsertCallKeepsTasks(db, c);
    InsertCallKeepsCounters(db, c);
  }

  lemma InsertTimerKeepsRows(db: Db, t: SubmitTimer)
    requires InvButRoots(db) && ValidTimer(t)
    ensures RowsOk(InsertTimer(db, t)) && CallsHaveTasks(InsertTimer(db, t))
  {
    hide CountersExact, WaitsOk, TasksOk;
  }

  lemma InsertTimerKeepsTasks(db: Db, t: SubmitTimer)
    requires InvButRoots(db) && ValidTimer(t)
    ensures TasksOk(InsertTimer(db, t)) && WaitsOk(InsertTimer(db, t))
  {
    hide CountersExact, RowsOk, CallsHaveTasks;
  }

  lemma InsertTimerKeepsCounters(db: Db, t: SubmitTimer)
    requires TasksOk(db) && WaitsOk(db) && CountersExact(db)
    ensures CountersExact(InsertTimer(db, t))
  {
    hide TaskMatches, TaskRowOk;
    if t.id !in db.promises {
      NewPromiseKeepsCounters(db, InsertTimer(db, t), t.id);
    }
  }

  lemma InsertTimerKeepsInv(db: Db, t: SubmitTimer)
    requires InvButRoots(db) && ValidTimer(t)
    ensures InvButRoots(InsertTimer(db, t))
  {
    hide RowsOk, CallsHaveTasks, TasksOk, WaitsOk, CountersExact, InsertTimer;
    InsertTimerKeepsRows(db, t);
    InsertTimerKeepsTasks(db, t);
    InsertTimerKeepsCounters(db, t);
  }

  lemma {:induction false} InsertCallsKeepsInv(db: Db, calls: seq<SubmitCall>)
    requires InvButRoots(db) && forall i :: 0 <= i < |calls| ==> ValidCall(calls[i])
    ensures InvButRoots(InsertCalls(db, calls))
    decreases |calls|
  {
    if calls != [] {
      InsertCallKeepsInv(db, calls[0]);
      InsertCallsKeepsInv(InsertCall(db, calls[0]), calls[1..]);
    }
  }

  lemma SubmitCallsKeepsInv(db: Db, calls: seq<SubmitCall>)
    requires Inv(db) && forall i :: 0 <= i < |calls| ==> ValidCall(calls[i])
    ensures Inv(SubmitCalls(db, calls).db)
  {
    InsertCallsKeepsInv(db, calls);
  }

  lemma SubmitTimerKeepsInv(db: Db, t: SubmitTimer)
    requires Inv(db) && ValidTimer(t)
    ensures Inv(SubmitTimerRow(db, t).db)
  {
    InsertTimerKeepsInv(db, t);
  }

  // ---------------------------------------------------------------- settlement

  /** What a settling statement writes: pending rows become terminal and keep everything else,
      and only tasks of settled promises are removed. */
  ghost predicate Settles(db: Db, settled: map<Id, Promise>, removed: set<Id>) {
    && removed <= settled.Keys
    && forall id :: id in settled ==>
         && id in db.promises && db.promises[id].state == Pending && settled[id].state != Pending
         && PromiseRowOk(id, settled[id])
         && settled[id] == Terminal(db.promises[id], settled[id].state, settled[id].result, settled[id].error,
                                    if settled[id].settledAt.Some? then settled[id].settledAt.value else 0)
  }

  function Freed(db: Db, settled: set<Id>, waiter: Id): set<Id> {
    set a | a in settled && Edge(waiter, a) in db.waits
  }

  lemma FreedCount(db: Db, settled: set<Id>, waiter: Id)
    ensures SettledFor(db, settled, waiter) == |Freed(db, settled, waiter)|
  {
  }

  lemma OneSettled(db: Db, id: Id, w: Id)
    ensures SettledFor(db, {id}, w) == if Edge(w, id) in db.waits then 1 else 0
  {
    assert Freed(db, {id}, w) == if Edge(w, id) in db.waits then {id} else {};
    FreedCount(db, {id}, w);
  }

  ghost function PendingAfter(db: Db, settled: map<Id, Promise>, waiter: Id): set<Id> {
    PendingAwaits(db.(promises := db.promises + settled), waiter)
  }

  /** The awaited promises still pending are the earlier ones without those that settled. */
  lemma PendingShrinks(db: Db, settled: map<Id, Promise>, removed: set<Id>, w: Id)
    requires Settles(db, settled, removed)
    ensures Freed(db, settled.Keys, w) <= PendingAwaits(db, w)
    ensures PendingAfter(db, settled, w) == PendingAwaits(db, w) - Freed(db, settled.Keys, w)
  {
  }

  /** The counter of a waiter goes down by exactly the number of its awaited promises that
      settled: flooring it at zero and skipping rows already at zero never change anything. */
  lemma WokenIsExact(db: Db, settled: map<Id, Promise>, removed: set<Id>, now: int, w: Id)
    requires CountersExact(db) && Settles(db, settled, removed) && w in db.tasks
    ensures var count := SettledFor(db, settled.Keys, w);
            && count <= db.tasks[w].pendingWaits
            && Woken(db.tasks[w], count, now).pendingWaits == db.tasks[w].pendingWaits - count
                                                          == |PendingAfter(db, settled, w)|
  {
    hide Settles, PendingAfter, PendingAwaits;
    PendingShrinks(db, settled, removed, w);
    SubsetSize(Freed(db, settled.Keys, w), PendingAwaits(db, w));
    FreedCount(db, settled.Keys, w);
  }

  lemma PendingAfterRows(db: Db, settled: map<Id, Promise>, removed: set<Id>, now: int, w: Id)
    requires w !in removed
    ensures PendingAwaits(SettleRows(db, settled, removed, now), w) == PendingAfter(db, settled, w)
  {
    hide Woken, SettledFor;
  }

  lemma SettleRowsTask(db: Db, settled: map<Id, Promise>, removed: set<Id>, now: int, w: Id)
    requires w in SettleRows(db, settled, removed, now).tasks
    ensures w in db.tasks && w !in removed
    ensures SettleRows(db, settled, removed, now).tasks[w] == Woken(db.tasks[w], SettledFor(db, settled.Keys, w), now)
  {
    hide Woken, SettledFor;
  }

  lemma SettleRowsKeepsCounters(db: Db, settled: map<Id, Promise>, removed: set<Id>, now: int)
    requires CountersExact(db) && Settles(db, settled, removed)
    ensures CountersExact(SettleRows(db, settled, removed, now))
  {
    hide SettleRows, Settles, Woken, PendingAfter, SettledFor, PendingAwaits;
    var after := SettleRows(db, settled, removed, now);
    forall w | w in after.tasks ensures after.tasks[w].pendingWaits == |PendingAwaits(after, w)| {
      SettleRowsTask(db, settled, removed, now, w);
      WokenIsExact(db, settled, removed, now, w);
      PendingAfterRows(db, settled, removed, now, w);
    }
  }

  lemma SettleRowsKeepsTasks(db: Db, settled: map<Id, Promise>, removed: set<Id>, now: int)
    requires Inv(db) && Settles(db, settled, removed)
    ensures TasksOk(SettleRows(db, settled, removed, now))
  {
    var after := SettleRows(db, settled, removed, now);
    forall t | t in after.tasks
      ensures t in after.promises && TaskRowOk(after.tasks[t]) && TaskMatches(after.promises[t], after.tasks[t])
    {
      assert TaskRowOk(db.tasks[t]) && TaskMatches(db.promises[t], db.tasks[t]);
    }
  }

  lemma SettleRowsKeepsRows(db: Db, settled: map<Id, Promise>, removed: set<Id>, now: int)
    requires RowsOk(db) && CallsHaveTasks(db) && RootsPresent(db) && Settles(db, settled, removed)
    ensures var after := SettleRows(db, settled, removed, now);
            RowsOk(after) && CallsHaveTasks(after) && RootsPresent(after)
  {
    hide Woken, SettledFor, PromiseRowOk;
    var after := SettleRows(db, settled, removed, now);
    forall id | id in after.promises ensures RootPresent(after, id) {
      assert RootPresent(db, id);
    }
  }

  lemma SettleRowsKeepsWaits(db: Db, settled: map<Id, Promise>, removed: set<Id>, now: int)
    requires WaitsOk(db) && Settles(db, settled, removed)
    ensures WaitsOk(SettleRows(db, settled, removed, now))
  {
    hide Woken, SettledFor, PromiseRowOk;
  }

  lemma SettleRowsKeepsInv(db: Db, settled: map<Id, Promise>, removed: set<Id>, now: int)
    requires Inv(db) && Settles(db, settled, removed)
    ensures Inv(SettleRows(db, settled, removed, now))
  {
    hide CountersExact, TasksOk, RowsOk, CallsHaveTasks, WaitsOk, Settles, SettleRows, RootsPresent;
    SettleRowsKeepsRows(db, settled, removed, now);
    SettleRowsKeepsWaits(db, settled, removed, now);
    SettleRowsKeepsCounters(db, settled, removed, now);
    SettleRowsKeepsTasks(db, settled, removed, now);
  }

  lemma SettleOneSettles(db: Db, id: Id, state: PromiseState, result: Option<Json>, error: Option<Json>, now: int)
    requires RowsOk(db) && Settleable(db, id)
    requires (state == Resolved && error.None?) || (state == Rejected && result.None? && error.Some?)
    ensures Settles(db, map[id := Terminal(db.promises[id], state, result, error, now)], {id})
  {
    assert PromiseRowOk(id, db.promises[id]);
  }

  lemma SettleOneKeepsInv(db: Db, id: Id, state: PromiseState, result: Option<Json>, error: Option<Json>, now: int)
    requires Inv(db) && Settleable(db, id)
    requires (state == Resolved && error.None?) || (state == Rejected && result.None? && error.Some?)
    ensures Inv(SettleOne(db, id, state, result, error, now))
  {
    hide CountersExact, TasksOk, RowsOk, WaitsOk, CallsHaveTasks, RootsPresent, Settles, SettleRows;
    SettleOneSettles(db, id, state, result, error, now);
    SettleRowsKeepsInv(db, map[id := Terminal(db.promises[id], state, result, error, now)], {id}, now);
  }

  lemma SettleKeepsInv(db: Db, id: Id, outcome: Outcome, now: int)
    requires Inv(db)
    ensures Settle(db, id, outcome, now).Ok? ==> Inv(Settle(db, id, outcome, now).value)
  {
    hide Inv, SettleOne;
    if Settleable(db, id) {
      match outcome
      case Complete(result) => SettleOneKeepsInv(db, id, Resolved, result, None, now);
      case Reject(error) => SettleOneKeepsInv(db, id, Rejected, None, Some(error), now);
    }
  }

  lemma SamePromises(db: Db, after: Db)
    requires after.promises == db.promises
    ensures RootsPresent(db) ==> RootsPresent(after)
    ensures RowsOk(db) ==> RowsOk(after)
    ensures CallsHaveTasks(db) && db.tasks.Keys <= after.tasks.Keys ==> CallsHaveTasks(after)
  {
    hide PromiseRowOk, KeyOk;
    if RootsPresent(db) {
      forall p | p in after.promises ensures RootPresent(after, p) {
        assert RootPresent(db, p);
      }
    }
  }

  function Requeue(db: Db, id: Id, t: Task): Db {
    db.(tasks := db.tasks[id := t])
  }

  lemma RequeueKeepsCounters(db: Db, id: Id, t: Task)
    requires CountersExact(db) && id in db.tasks && t.pendingWaits == db.tasks[id].pendingWaits
    ensures CountersExact(Requeue(db, id, t))
  {
    var after := Requeue(db, id, t);
    forall w | w in after.tasks ensures after.tasks[w].pendingWaits == |PendingAwaits(after, w)| {
      assert PendingAwaits(after, w) == PendingAwaits(db, w);
    }
  }

  lemma RequeueKeepsRest(db: Db, id: Id, t: Task)
    requires Inv(db) && id in db.tasks && TaskRowOk(t) && TaskMatches(db.promises[id], t)
    ensures var after := Requeue(db, id, t);
            RootsPresent(after) && RowsOk(after) && CallsHaveTasks(after) && TasksOk(after) && WaitsOk(after)
  {
    hide CountersExact, RootsPresent, RowsOk, CallsHaveTasks;
    SamePromises(db, Requeue(db, id, t));
  }

  lemma RequeueKeepsInv(db: Db, id: Id, t: Task)
    requires Inv(db) && id in db.tasks && TaskRowOk(t) && t.pendingWaits == db.tasks[id].pendingWaits
    requires TaskMatches(db.promises[id], t)
    ensures Inv(Requeue(db, id, t))
  {
    hide CountersExact, TasksOk, RowsOk, WaitsOk, CallsHaveTasks, RootsPresent, Requeue;
    RequeueKeepsCounters(db, id, t);
    RequeueKeepsRest(db, id, t);
  }

  lemma TaskRow(db: Db, id: Id)
    requires TasksOk(db) && id in db.tasks
    ensures id in db.promises && TaskRowOk(db.tasks[id]) && TaskMatches(db.promises[id], db.tasks[id])
  {
  }

  lemma RetryKeepsInv(db: Db, id: Id, error: Json, delayMs: int, now: int)
    requires Inv(db)
    ensures Retry(db, id, error, delayMs, now).Ok? ==> Inv(Retry(db, id, error, delayMs, now).value.db)
  {
    hide CountersExact, TasksOk, RowsOk, WaitsOk, CallsHaveTasks, RootsPresent, SettleOne;
    if Settleable(db, id) {
      var t := db.tasks[id];
      TaskRow(db, id);
      if t.failures + 1 < t.maxFailures {
        RequeueKeepsInv(db, id, t.(failures := t.failures + 1, availableAt := now + delayMs));
      } else {
        SettleOneKeepsInv(db, id, Rejected, None, Some(error), now);
      }
    }
  }

  // ---------------------------------------------------------------- suspension

  lemma {:induction false} NothingMissing(db: Db, ids: seq<Id>)
    ensures FirstMissing(db, ids).None? <==> forall a :: a in ids ==> a in db.promises
    ensures FirstMissing(db, ids).Some? ==>
              FirstMissing(db, ids).value in ids && FirstMissing(db, ids).value !in db.promises
  {
    if ids != [] {
      NothingMissing(db, ids[1..]);
    }
  }

  /** The suspended task's counter: everything it awaited before has settled, so the pending
      promises among the requested ones are all it waits for. */
  lemma SuspendCounts(db: Db, id: Id, awaited: seq<Id>, now: int)
    requires Inv(db) && id in db.tasks && db.tasks[id].pendingWaits == 0 && ValidSuspend(id, awaited)
    requires Suspend(db, id, awaited, now).Ok?
    ensures PendingAwaits(Suspend(db, id, awaited, now).value, id) == StillPending(db, awaited)
    ensures forall w :: w in db.tasks && w != id ==>
              PendingAwaits(Suspend(db, id, awaited, now).value, w) == PendingAwaits(db, w)
  {
    var after := Suspend(db, id, awaited, now).value;
    assert PendingAwaits(db, id) == {};
    forall a ensures a in PendingAwaits(after, id) <==> a in StillPending(db, awaited) {
      assert a in awaited ==> Edge(id, a) in NewEdges(id, awaited);
      assert a !in PendingAwaits(db, id);
    }
    forall w | w in db.tasks && w != id ensures PendingAwaits(after, w) == PendingAwaits(db, w) {
    }
  }

  lemma SuspendKeepsWaits(db: Db, id: Id, awaited: seq<Id>, now: int)
    requires Inv(db) && id in db.tasks && ValidSuspend(id, awaited)
    requires Suspend(db, id, awaited, now).Ok?
    ensures WaitsOk(Suspend(db, id, awaited, now).value)
  {
    hide CountersExact;
    NothingMissing(db, awaited);
    var after := Suspend(db, id, awaited, now).value;
    forall e | e in after.waits
      ensures e.waiter in after.tasks && e.waiter in after.promises && e.awaited in after.promises
              && e.waiter != e.awaited
      ensures GraphOf(after, e.waiter) == after.waits[e] == GraphOf(after, e.awaited)
    {
      if e !in db.waits {
        assert e in NewEdges(id, awaited);
        assert e.awaited in awaited;
      }
    }
  }

  lemma SuspendKeepsCounters(db: Db, id: Id, awaited: seq<Id>, now: int)
    requires Inv(db) && (id in db.tasks ==> db.tasks[id].pendingWaits == 0) && ValidSuspend(id, awaited)
    requires Suspend(db, id, awaited, now).Ok?
    ensures CountersExact(Suspend(db, id, awaited, now).value)
  {
    hide RowsOk, WaitsOk, CallsHaveTasks, TasksOk, RootsPresent, PendingAwaits, StillPending, ValidSuspend, NewEdges;
    SuspendCounts(db, id, awaited, now);
  }

  lemma SuspendKeepsRest(db: Db, id: Id, awaited: seq<Id>, now: int)
    requires Inv(db) && ValidSuspend(id, awaited) && Suspend(db, id, awaited, now).Ok?
    ensures var after := Suspend(db, id, awaited, now).value;
            RootsPresent(after) && RowsOk(after) && CallsHaveTasks(after) && TasksOk(after)
  {
    hide CountersExact, RootsPresent, RowsOk, CallsHaveTasks, WaitsOk, StillPending, NewEdges;
    SamePromises(db, Suspend(db, id, awaited, now).value);
    TaskRow(db, id);
  }

  lemma SuspendKeepsInv(db: Db, id: Id, awaited: seq<Id>, now: int)
    requires Inv(db) && (id in db.tasks ==> db.tasks[id].pendingWaits == 0) && ValidSuspend(id, awaited)
    ensures Suspend(db, id, awaited, now).Ok? ==> Inv(Suspend(db, id, awaited, now).value)
  {
    hide CountersExact, TasksOk, RowsOk, WaitsOk, CallsHaveTasks, RootsPresent, ValidSuspend, StillPending, NewEdges;
    if Suspend(db, id, awaited, now).Ok? {
      SuspendKeepsCounters(db, id, awaited, now);
      SuspendKeepsWaits(db, id, awaited, now);
      SuspendKeepsRest(db, id, awaited, now);
    }
  }

  // ---------------------------------------------------------------- maintenance

  lemma DueBatchSettles(db: Db, timers: set<Id>, timeouts: set<Id>, kept: set<Id>, now: int)
    requires Inv(db) && DueBatch(db, timers, timeouts, kept, now)
    ensures Settles(db, DueRows(db, timers, timeouts, now), timeouts - kept)
  {
    var settled := DueRows(db, timers, timeouts, now);
    assert settled.Keys == timers + timeouts;
    forall id | id in settled ensures PromiseRowOk(id, settled[id]) {
      assert PromiseRowOk(id, db.promises[id]);
    }
  }

  lemma ProcessDueKeepsInv(db: Db, timers: set<Id>, timeouts: set<Id>, kept: set<Id>, now: int)
    requires Inv(db) && DueBatch(db, timers, timeouts, kept, now)
    ensures Inv(ProcessDue(db, timers, timeouts, kept, now))
  {
    hide Inv, Settles, SettleRows;
    DueBatchSettles(db, timers, timeouts, kept, now);
    SettleRowsKeepsInv(db, DueRows(db, timers, timeouts, now), timeouts - kept, now);
  }

  // ---------------------------------------------------------------- garbage collection

  /** Garbage collection takes whole graphs: a promise goes exactly when its root is doomed, no
      pending promise goes, no row that stays refers to one that went, and the rest is untouched. */
  lemma DeleteExpiredTakesWholeGraphs(db: Db, doomed: set<Id>, before: int)
    requires Inv(db) && forall id :: id in doomed ==> Doomed(db, id, before)
    ensures var after := DeleteExpired(db, doomed);
            && (forall id :: id in db.promises ==> (id in after.promises <==> GraphOf(db, id) !in doomed))
            && (forall id :: id in after.promises ==> id in db.promises && after.promises[id] == db.promises[id])
            && (forall id :: id in db.promises && id !in after.promises ==> db.promises[id].state != Pending)
            && (forall id :: id in db.promises && id in after.promises ==>
                  (id in db.tasks <==> id in after.tasks) && (id in db.tasks ==> after.tasks[id] == db.tasks[id]))
            && (forall id :: id in after.tasks ==> id in after.promises)
            && (forall e :: e in after.waits ==>
                  e in db.waits && e.waiter in after.tasks && e.awaited in after.promises)
            && (forall e :: e in db.waits && e.waiter in after.promises ==>
                  e in after.waits && after.waits[e] == db.waits[e])
  {
    hide CountersExact, RowsOk, CallsHaveTasks;
    var after := DeleteExpired(db, doomed);
    forall id | id in db.promises && id !in after.promises ensures db.promises[id].state != Pending {
      assert Doomed(db, GraphOf(db, id), before);
    }
  }

  lemma DeleteExpiredKeepsCounters(db: Db, doomed: set<Id>, before: int)
    requires Inv(db) && forall id :: id in doomed ==> Doomed(db, id, before)
    ensures CountersExact(DeleteExpired(db, doomed))
  {
    hide RowsOk, CallsHaveTasks;
    var after := DeleteExpired(db, doomed);
    DeleteExpiredTakesWholeGraphs(db, doomed, before);
    forall w | w in after.tasks ensures after.tasks[w].pendingWaits == |PendingAwaits(after, w)| {
      assert PendingAwaits(after, w) == PendingAwaits(db, w);
    }
  }

  lemma DeleteExpiredKeepsRoots(db: Db, doomed: set<Id>)
    requires RootsPresent(db)
    ensures RootsPresent(DeleteExpired(db, doomed))
  {
    var after := DeleteExpired(db, doomed);
    forall id | id in after.promises ensures RootPresent(after, id) {
      assert RootPresent(db, id);
    }
  }

  lemma DeleteExpiredKeepsRows(db: Db, doomed: set<Id>, before: int)
    requires Inv(db) && forall id :: id in doomed ==> Doomed(db, id, before)
    ensures var after := DeleteExpired(db, doomed);
            RowsOk(after) && CallsHaveTasks(after) && TasksOk(after)
  {
    hide CountersExact, RootsPresent, WaitsOk, Doomed, PromiseRowOk, KeyOk;
  }

  lemma DeleteExpiredKeepsWaits(db: Db, doomed: set<Id>, before: int)
    requires Inv(db) && forall id :: id in doomed ==> Doomed(db, id, before)
    ensures WaitsOk(DeleteExpired(db, doomed))
  {
    hide CountersExact, RootsPresent, RowsOk, CallsHaveTasks, Doomed, TaskRowOk, TaskMatches;
  }

  lemma DeleteExpiredKeepsInv(db: Db, doomed: set<Id>, before: int)
    requires Inv(db) && forall id :: id in doomed ==> Doomed(db, id, before)
    ensures Inv(DeleteExpired(db, doomed))
  {
    hide CountersExact, RootsPresent, RowsOk, CallsHaveTasks, Doomed, TasksOk, WaitsOk, DeleteExpired;
    DeleteExpiredKeepsCounters(db, doomed, before);
    DeleteExpiredKeepsRoots(db, doomed);
    DeleteExpiredKeepsRows(db, doomed, before);
    DeleteExpiredKeepsWaits(db, doomed, before);
  }

  // ---------------------------------------------------------------- what the statements promise

  ghost predicate TasksHavePromises(db: Db) {
    forall t :: t in db.tasks ==> t in db.promises
  }

  lemma {:induction false} InsertCallsRows(db: Db, calls: seq<SubmitCall>)
    requires TasksHavePromises(db) && DistinctIds(calls)
    ensures var after := InsertCalls(db, calls);
            && TasksHavePromises(after) && after.waits == db.waits
            && (forall id :: id in db.tasks ==> id in after.tasks && after.tasks[id] == db.tasks[id])
            && (forall id :: id in after.promises && id !in db.promises ==>
                  exists i :: 0 <= i < |calls| && calls[i].id == id)
            && (forall i :: 0 <= i < |calls| && calls[i].id !in db.promises ==>
                  && calls[i].id in after.promises && after.promises[calls[i].id] == CallPromise(calls[i])
                  && calls[i].id in after.tasks && after.tasks[calls[i].id] == CallTask(calls[i]))
            && (forall id :: id in after.tasks && id !in db.tasks ==> id !in db.promises)
    decreases |calls|
  {
    hide CallPromise, CallTask;
    if calls != [] {
      var next := InsertCall(db, calls[0]);
      var rest := calls[1..];
      InsertCallsHas(next, rest);
      InsertCallsRows(next, rest);
      forall i | 0 < i < |calls| ensures rest[i - 1] == calls[i] {
      }
      forall i | 0 <= i < |rest| ensures rest[i] == calls[i + 1] {
      }
    }
  }

  /** A batch that raises nothing creates exactly one promise and one task for each id that was
      absent, returns the rows in request order, and changes no row that was there: no failure
      count and no wait counter is ever reset. */
  lemma SubmitCreatesOnlyTheAbsent(db: Db, calls: seq<SubmitCall>)
    requires Inv(db) && SubmitCalls(db, calls).rows.Ok?
    ensures var after := SubmitCalls(db, calls).db;
            var rows := SubmitCalls(db, calls).rows.value;
            && |rows| == |calls|
            && (forall i :: 0 <= i < |calls| ==>
                  && calls[i].id in after.promises && rows[i] == after.promises[calls[i].id]
                  && rows[i].key == CallFingerprint(calls[i]))
            && (forall id :: id in db.promises ==> id in after.promises && after.promises[id] == db.promises[id])
            && (forall id :: id in db.tasks ==> id in after.tasks && after.tasks[id] == db.tasks[id])
            && (forall i :: 0 <= i < |calls| && calls[i].id !in db.promises ==>
                  && after.promises[calls[i].id] == CallPromise(calls[i])
                  && calls[i].id in after.tasks && after.tasks[calls[i].id] == CallTask(calls[i]))
            && (forall id :: id in after.promises && id !in db.promises ==>
                  exists i :: 0 <= i < |calls| && calls[i].id == id)
            && after.waits == db.waits
  {
    hide CallPromise, CallTask, CountersExact, RowsOk, WaitsOk, CallsHaveTasks, TaskMatches, TaskRowOk;
    if calls != [] {
      NoDuplicate(calls, 0);
      InsertCallsHas(db, calls);
      InsertCallsRows(db, calls);
      NoConflict(InsertCalls(db, calls), calls);
    }
  }

  /** No duplicate is found exactly when the ids are distinct. */
  lemma {:induction false} NoDuplicate(calls: seq<SubmitCall>, k: nat)
    requires k <= |calls|
    ensures FirstDuplicate(calls, k).None? <==>
              forall i, j :: 0 <= i < j < |calls| && k <= j ==> calls[i].id != calls[j].id
    decreases |calls| - k
  {
    if k < |calls| {
      NoDuplicate(calls, k + 1);
    }
  }

  /** No conflict is found exactly when every stored fingerprint is the requested one. */
  lemma {:induction false} NoConflict(db: Db, calls: seq<SubmitCall>)
    requires forall i :: 0 <= i < |calls| ==> calls[i].id in db.promises
    ensures FirstConflict(db, calls).None? <==>
              forall i :: 0 <= i < |calls| ==> db.promises[calls[i].id].key == CallFingerprint(calls[i])
  {
    if calls != [] {
      NoConflict(db, calls[1..]);
      forall i | 0 < i < |calls| ensures calls[i] == calls[1..][i - 1] {
      }
      forall i | 0 <= i < |calls| - 1 ensures calls[1..][i] == calls[i + 1] {
      }
    }
  }

  lemma {:induction false} InsertPresent(db: Db, calls: seq<SubmitCall>)
    requires forall i :: 0 <= i < |calls| ==> calls[i].id in db.promises
    ensures InsertCalls(db, calls) == db
    decreases |calls|
  {
    if calls != [] {
      InsertPresent(db, calls[1..]);
    }
  }

  function SubmitTimes(db: Db, calls: seq<SubmitCall>, n: nat): Db {
    if n == 0 then db else SubmitCalls(SubmitTimes(db, calls, n - 1), calls).db
  }

  /** Submitting a matching batch again, any number of times, returns the same rows and leaves
      the same store as submitting it once. */
  lemma {:induction false} SubmitIsIdempotent(db: Db, calls: seq<SubmitCall>, n: nat)
    requires SubmitCalls(db, calls).rows.Ok? && n > 0
    ensures SubmitTimes(db, calls, n) == SubmitCalls(db, calls).db
    ensures SubmitCalls(SubmitTimes(db, calls, n), calls) == SubmitCalls(db, calls)
  {
    InsertCallsHas(db, calls);
    InsertPresent(InsertCalls(db, calls), calls);
    if n > 1 {
      SubmitIsIdempotent(db, calls, n - 1);
    } else {
      assert SubmitTimes(db, calls, 0) == db;
    }
  }

  /** A submission of one call that reuses an id for other work is an error and changes nothing;
      it is an error exactly when the stored fingerprint differs. */
  lemma ConflictingCallChangesNothing(db: Db, c: SubmitCall)
    requires Inv(db) && c.id in db.promises
    ensures SubmitCalls(db, [c]).db == db
    ensures SubmitCalls(db, [c]).rows ==
            if db.promises[c.id].key == CallFingerprint(c) then Ok([db.promises[c.id]])
            else Err(IdempotencyConflict(c.id))
  {
    hide CountersExact, RowsOk, WaitsOk, CallsHaveTasks, TasksOk;
    assert InsertCalls(db, [c]) == db by {
      InsertPresent(db, [c]);
    }
    NoDuplicate([c], 0);
    NoConflict(db, [c]);
    assert [c][0] == c;
    if db.promises[c.id].key == CallFingerprint(c) {
      assert SubmitCalls(db, [c]).rows.value == [db.promises[c.id]];
    }
  }

  lemma ConflictingTimerChangesNothing(db: Db, t: SubmitTimer)
    requires Inv(db) && t.id in db.promises
    ensures SubmitTimerRow(db, t).db == db
    ensures SubmitTimerRow(db, t).rows ==
            if db.promises[t.id].key == TimerFingerprint(t) then Ok([db.promises[t.id]])
            else Err(IdempotencyConflict(t.id))
  {
    hide CountersExact, RowsOk, WaitsOk, CallsHaveTasks, TasksOk;
  }

  /** Two requests for a call have one fingerprint exactly when they differ in nothing but their
      submission times and, below a root, the retention. */
  lemma FingerprintIgnoresTimes(c: SubmitCall, d: SubmitCall)
    ensures CallFingerprint(c) == CallFingerprint(d) <==>
              c == d.(availableAt := c.availableAt, expiresAt := c.expiresAt,
                      retentionMs := if c.root.Some? && d.root.Some? then c.retentionMs else d.retentionMs)
  {
    assert d.(availableAt := c.availableAt, expiresAt := c.expiresAt, retentionMs := c.retentionMs).root == d.root;
  }

  /** The last permitted failure rejects the promise and wakes its waiters exactly as a
      rejection settlement does; an earlier one changes nothing but the failure count and the
      moment of the next attempt. */
  lemma RetryRejectsAsSettle(db: Db, id: Id, error: Json, delayMs: int, now: int)
    requires Inv(db)
    ensures Retry(db, id, error, delayMs, now).Err? <==> Settle(db, id, Reject(error), now).Err?
    ensures Settleable(db, id) ==>
              var r := Retry(db, id, error, delayMs, now).value;
              && r.failures == db.tasks[id].failures + 1
              && (r.rejected <==> db.tasks[id].maxFailures <= r.failures)
              && (r.rejected ==>
                    r.failures == db.tasks[id].maxFailures && Ok(r.db) == Settle(db, id, Reject(error), now))
              && (!r.rejected ==>
                    && r.db.promises == db.promises && r.db.waits == db.waits
                    && r.db.tasks
                       == db.tasks[id := db.tasks[id].(failures := r.failures, availableAt := now + delayMs)])
  {
    hide CountersExact, RowsOk, WaitsOk, CallsHaveTasks, RootsPresent, SettleOne;
    if Settleable(db, id) {
      assert TaskRowOk(db.tasks[id]);
    }
  }

  /** A suspended task reaches zero exactly in the step that settles the last promise it awaits,
      and becomes available in that step; until then its row keeps its time. */
  lemma WakesWithTheLastAwaited(db: Db, settled: map<Id, Promise>, removed: set<Id>, now: int, w: Id)
    requires Inv(db) && Settles(db, settled, removed) && w in db.tasks && w !in removed && db.tasks[w].pendingWaits > 0
    ensures var after := SettleRows(db, settled, removed, now);
            && w in after.tasks
            && (after.tasks[w].pendingWaits == 0 <==> PendingAwaits(db, w) <= settled.Keys)
            && after.tasks[w].availableAt
               == (if PendingAwaits(db, w) <= settled.Keys then now else db.tasks[w].availableAt)
  {
    hide Settles, PendingAfter, PendingAwaits, SettledFor, RowsOk, TasksOk, WaitsOk, CallsHaveTasks, RootsPresent;
    WokenIsExact(db, settled, removed, now, w);
    PendingShrinks(db, settled, removed, w);
    SubsetSize(Freed(db, settled.Keys, w), PendingAwaits(db, w));
    var left := PendingAfter(db, settled, w);
    assert |left| == 0 <==> left == {};
    assert left == {} <==> PendingAwaits(db, w) <= settled.Keys by {
      if PendingAwaits(db, w) <= settled.Keys {
        PendingAreFreed(db, settled, w);
      }
    }
    FreedCount(db, settled.Keys, w);
  }

  lemma PendingAreFreed(db: Db, settled: map<Id, Promise>, w: Id)
    requires PendingAwaits(db, w) <= settled.Keys
    ensures PendingAwaits(db, w) <= Freed(db, settled.Keys, w)
  {
  }
}
