/** What each statement leaves in the tables, row by row, and exactly when it refuses. */
module StoreOutcomes {
  import opened Wrappers
  import opened Store
  import opened StoreLaws
  import opened StoreRuns

  /** The row of a task some of whose pending awaited promises settle: its counter goes down by their
      number, it becomes available when none is left, and every other column stays. */
  predicate Lowered(before: Task, row: Task, count: nat, now: int) {
    row == before.(pendingWaits := before.pendingWaits - count,
                   availableAt := if count > 0 && before.pendingWaits == count then now else before.availableAt)
  }

  /** A waiter's row after these promises have settled. */
  lemma CounterFalls(db: Db, settled: map<Id, Promise>, removed: set<Id>, now: int, w: Id)
    requires CountersExact(db) && Settles(db, settled, removed) && w in db.tasks && w !in removed
    ensures w in SettleRows(db, settled, removed, now).tasks
    ensures Lowered(db.tasks[w], SettleRows(db, settled, removed, now).tasks[w], SettledFor(db, settled.Keys, w), now)
  {
    hide Settles, PendingAfter, SettledFor;
    WokenIsExact(db, settled, removed, now, w);
  }

  /** The row of a promise settled by its task. */
  predicate SettledBy(before: Promise, row: Promise, outcome: Outcome, now: int) {
    && row.key == before.key && row.root == before.root && row.dueAt == before.dueAt
    && row.expiresAt == before.expiresAt && row.deleteAfter == before.deleteAfter && row.settledAt == Some(now)
    && match outcome
       case Complete(result) => row.state == Resolved && row.result == result && row.error.None?
       case Reject(error) => row.state == Rejected && row.result.None? && row.error == Some(error)
  }

  lemma SettleWrites(db: Db, id: Id, outcome: Outcome, now: int)
    requires Settleable(db, id)
    ensures Settle(db, id, outcome, now).Ok?
    ensures var after := Settle(db, id, outcome, now).value;
            && after.promises.Keys == db.promises.Keys && SettledBy(db.promises[id], after.promises[id], outcome, now)
            && (forall p :: p in db.promises && p != id ==> after.promises[p] == db.promises[p])
            && after.tasks.Keys == db.tasks.Keys - {id}
            && (forall e :: e in after.waits <==> e in db.waits && e.waiter != id)
            && (forall e :: e in after.waits ==> after.waits[e] == db.waits[e])
  {
    hide Woken, SettledFor;
  }

  /** Settling is refused exactly when the task or its pending promise is gone. Otherwise it writes
      the outcome into that one promise, removes that one task with the waits it holds, takes one
      off the counter of each task that awaits the promise, and changes nothing else. */
  lemma SettleOutcome(db: Db, id: Id, outcome: Outcome, now: int)
    requires Inv(db)
    ensures Settle(db, id, outcome, now).Err? <==>
              !(id in db.tasks && id in db.promises && db.promises[id].state == Pending)
    ensures Settle(db, id, outcome, now).Ok? ==>
              var after := Settle(db, id, outcome, now).value;
              && after.promises.Keys == db.promises.Keys && SettledBy(db.promises[id], after.promises[id], outcome, now)
              && (forall p :: p in db.promises && p != id ==> after.promises[p] == db.promises[p])
              && after.tasks.Keys == db.tasks.Keys - {id}
              && (forall e :: e in after.waits <==> e in db.waits && e.waiter != id)
              && (forall e :: e in after.waits ==> after.waits[e] == db.waits[e])
              && (forall w :: w in after.tasks ==>
                    Lowered(db.tasks[w], after.tasks[w], if Edge(w, id) in db.waits then 1 else 0, now))
  {
    hide CountersExact, RowsOk, TasksOk, WaitsOk, CallsHaveTasks, RootsPresent, Settles, SettleRows, SettledBy, Lowered;
    if Settleable(db, id) {
      SettleWrites(db, id, outcome, now);
      var after := Settle(db, id, outcome, now).value;
      forall w | w in after.tasks
        ensures Lowered(db.tasks[w], after.tasks[w], if Edge(w, id) in db.waits then 1 else 0, now)
      {
        OneSettled(db, id, w);
        match outcome
        case Complete(result) =>
          SettleOneSettles(db, id, Resolved, result, None, now);
          var settled := map[id := Terminal(db.promises[id], Resolved, result, None, now)];
          assert settled.Keys == {id};
          CounterFalls(db, settled, {id}, now, w);
        case Reject(error) =>
          SettleOneSettles(db, id, Rejected, None, Some(error), now);
          var settled := map[id := Terminal(db.promises[id], Rejected, None, Some(error), now)];
          assert settled.Keys == {id};
          CounterFalls(db, settled, {id}, now, w);
      }
    }
  }

  /** Suspending is refused when the task is gone, else when an awaited promise is missing, else when
      one is of another graph. Otherwise it adds exactly the waits on the awaited promises, sets
      the task's counter to how many of them are pending, makes it available now, and changes no
      other row. */
  lemma SuspendOutcome(db: Db, id: Id, awaited: seq<Id>, now: int)
    requires Inv(db)
    ensures Suspend(db, id, awaited, now) == Err(TaskNotFound(id)) <==> id !in db.tasks
    ensures (exists a :: Suspend(db, id, awaited, now) == Err(PromiseNotFound(a))) <==>
              id in db.tasks && exists a :: a in awaited && a !in db.promises
    ensures Suspend(db, id, awaited, now).Ok? <==>
              id in db.tasks && forall a :: a in awaited ==> a in db.promises && GraphOf(db, a) == GraphOf(db, id)
    ensures Suspend(db, id, awaited, now).Ok? ==>
              var after := Suspend(db, id, awaited, now).value;
              && after.promises == db.promises && after.tasks.Keys == db.tasks.Keys
              && (forall e :: e in after.waits <==> e in db.waits || (e.waiter == id && e.awaited in awaited))
              && (forall e :: e in db.waits ==> after.waits[e] == db.waits[e])
              && (forall w :: w in db.tasks && w != id ==> after.tasks[w] == db.tasks[w])
              && after.tasks[id]
                 == db.tasks[id].(pendingWaits := |set a | a in awaited && db.promises[a].state == Pending|,
                                                  availableAt := now)
  {
    hide CountersExact, RowsOk, WaitsOk, CallsHaveTasks, RootsPresent, TaskRowOk, TaskMatches;
    NothingMissing(db, awaited);
    if id in db.tasks && FirstMissing(db, awaited).None? {
      assert StillPending(db, awaited) == set a | a in awaited && db.promises[a].state == Pending;
      assert forall e :: e in NewEdges(id, awaited) <==> e.waiter == id && e.awaited in awaited;
    }
  }

  lemma DueWrites(db: Db, timers: set<Id>, timeouts: set<Id>, kept: set<Id>, now: int)
    requires DueBatch(db, timers, timeouts, kept, now)
    ensures var after := ProcessDue(db, timers, timeouts, kept, now);
            && after.promises.Keys == db.promises.Keys
            && (forall p :: p in timers ==>
                  after.promises[p]
                  == db.promises[p].(state := Resolved, result := Some(JSON_NULL), error := None,
                                     settledAt := Some(now)))
            && (forall p :: p in timeouts && p !in timers ==>
                  after.promises[p]
                  == db.promises[p].(state := TimedOut, result := None, error := Some(TIMEOUT_ERROR),
                                     settledAt := Some(now)))
            && (forall p :: p in db.promises && p !in timers && p !in timeouts ==> after.promises[p] == db.promises[p])
            && after.tasks.Keys == db.tasks.Keys - (timeouts - kept)
            && (forall e :: e in after.waits <==> e in db.waits && e.waiter !in timeouts - kept)
            && (forall e :: e in after.waits ==> after.waits[e] == db.waits[e])
  {
    hide Woken, SettledFor;
  }

  /** One maintenance batch resolves its due timers with null, times its expired calls out, removes
      their tasks with the waits those hold, takes off each remaining counter the number of its
      awaited promises that settled, and changes nothing else. */
  lemma DueOutcome(db: Db, timers: set<Id>, timeouts: set<Id>, kept: set<Id>, now: int)
    requires Inv(db) && DueBatch(db, timers, timeouts, kept, now)
    ensures timers !! timeouts
    ensures var after := ProcessDue(db, timers, timeouts, kept, now);
            && after.promises.Keys == db.promises.Keys
            && (forall p :: p in timers ==>
                  after.promises[p]
                  == db.promises[p].(state := Resolved, result := Some(JSON_NULL), error := None,
                                     settledAt := Some(now)))
            && (forall p :: p in timeouts ==>
                  after.promises[p]
                  == db.promises[p].(state := TimedOut, result := None, error := Some(TIMEOUT_ERROR),
                                     settledAt := Some(now)))
            && (forall p :: p in db.promises && p !in timers && p !in timeouts ==> after.promises[p] == db.promises[p])
            && after.tasks.Keys == db.tasks.Keys - (timeouts - kept)
            && (forall e :: e in after.waits <==> e in db.waits && e.waiter !in timeouts - kept)
            && (forall e :: e in after.waits ==> after.waits[e] == db.waits[e])
            && (forall w :: w in after.tasks ==>
                  Lowered(db.tasks[w], after.tasks[w], |set a | a in timers + timeouts && Edge(w, a) in db.waits|, now))
  {
    hide CountersExact, TasksOk, WaitsOk, CallsHaveTasks, RootsPresent, Settles, SettleRows, SettledFor, DueRows,
         Lowered;
    DueWrites(db, timers, timeouts, kept, now);
    TimersAreNotCalls(db, timers, timeouts, kept, now);
    DueBatchSettles(db, timers, timeouts, kept, now);
    DueKeys(db, timers, timeouts, now);
    forall w | w in ProcessDue(db, timers, timeouts, kept, now).tasks
      ensures Lowered(db.tasks[w], ProcessDue(db, timers, timeouts, kept, now).tasks[w],
                      |set a | a in timers + timeouts && Edge(w, a) in db.waits|, now)
    {
      CounterFalls(db, DueRows(db, timers, timeouts, now), timeouts - kept, now, w);
      FreedCount(db, timers + timeouts, w);
    }
  }

  lemma TimersAreNotCalls(db: Db, timers: set<Id>, timeouts: set<Id>, kept: set<Id>, now: int)
    requires RowsOk(db) && DueBatch(db, timers, timeouts, kept, now)
    ensures timers !! timeouts
  {
    hide KeyOk, SettledFor;
    forall id | id in timers ensures id !in timeouts {
      assert PromiseRowOk(id, db.promises[id]);
    }
  }
}
