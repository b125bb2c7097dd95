/** The three tables in place, and the statements as methods that change them row by row, each
    proved to leave exactly the store its specification describes. */
module Database {
  import opened Wrappers
  import opened Store
  import opened StoreLaws
  import opened IdOrder

  // ---------------------------------------------------------------- which task is claimed

  datatype FunctionVersion = FunctionVersion(func: string, version: int)

  /** A task that the claim statement may return. */
  predicate Ready(db: Db, topic: string, excluded: seq<FunctionVersion>, locked: set<Id>, now: int, id: Id) {
    && id in db.tasks && id in db.promises && id !in locked
    && db.tasks[id].topic == topic && FunctionVersion(db.tasks[id].func, db.tasks[id].version) !in excluded
    && db.tasks[id].pendingWaits == 0 && db.tasks[id].availableAt <= now
    && db.promises[id].state == Pending && db.promises[id].expiresAt.Some? && db.promises[id].expiresAt.value > now
  }

  /** Higher priority first, then available earlier, then the smaller id. */
  predicate Ahead(db: Db, a: Id, b: Id)
    requires a in db.tasks && b in db.tasks
  {
    var t, u := db.tasks[a], db.tasks[b];
    || t.priority > u.priority
    || (t.priority == u.priority && t.availableAt < u.availableAt)
    || (t.priority == u.priority && t.availableAt == u.availableAt && IdLess(a, b))
  }

  lemma AheadTransitive(db: Db, a: Id, b: Id, c: Id)
    requires a in db.tasks && b in db.tasks && c in db.tasks && Ahead(db, a, b) && Ahead(db, b, c)
    ensures Ahead(db, a, c)
  {
    if IdLess(a, b) && IdLess(b, c) {
      IdLessTransitive(a, b, c);
    }
  }

  lemma AheadTotal(db: Db, a: Id, b: Id)
    requires a in db.tasks && b in db.tasks
    ensures Ahead(db, a, b) || a == b || Ahead(db, b, a)
  {
    IdLessTotal(a, b);
  }

  lemma SizeGrows<T>(s: set<T>, x: T)
    requires x !in s
    ensures |s + {x}| == |s| + 1
  {
  }

  /** The waits of one waiter among some edges, for promises that settle. */
  function Changed(edges: set<Edge>, settled: set<Id>, w: Id): set<Id> {
    set a | a in settled && Edge(w, a) in edges
  }

  function ChangedCount(edges: set<Edge>, settled: set<Id>, w: Id): nat {
    |Changed(edges, settled, w)|
  }

  lemma NothingChanged(settled: set<Id>)
    ensures forall w :: ChangedCount({}, settled, w) == 0
  {
    forall w ensures ChangedCount({}, settled, w) == 0 {
      assert Changed({}, settled, w) == {};
    }
  }

  /** One more wait for a settling promise adds one to its waiter's count, and to no other. */
  lemma CountsGrow(edges: set<Edge>, settled: set<Id>, e: Edge)
    requires e !in edges
    ensures forall w :: ChangedCount(edges + {e}, settled, w)
                        == ChangedCount(edges, settled, w) + if e.waiter == w && e.awaited in settled then 1 else 0
  {
    forall w ensures ChangedCount(edges + {e}, settled, w)
        == ChangedCount(edges, settled, w) + if e.waiter == w && e.awaited in settled then 1 else 0
    {
      if e.waiter == w && e.awaited in settled {
        assert Changed(edges + {e}, settled, w) == Changed(edges, settled, w) + {e.awaited};
        SizeGrows(Changed(edges, settled, w), e.awaited);
      } else {
        assert Changed(edges + {e}, settled, w) == Changed(edges, settled, w);
      }
    }
  }

  lemma ChangedIsSettledFor(db: Db, settled: set<Id>, w: Id)
    ensures ChangedCount(db.waits.Keys, settled, w) == SettledFor(db, settled, w)
  {
    assert Changed(db.waits.Keys, settled, w) == Freed(db, settled, w);
    FreedCount(db, settled, w);
  }

  /** Some waits and one more for each awaited promise; a wait that is there stays as it is. */
  function WithWaits(waits: map<Edge, Id>, id: Id, awaited: seq<Id>, graph: Id): map<Edge, Id> {
    (map e | e in NewEdges(id, awaited) :: graph) + waits
  }

  lemma NoWaits(waits: map<Edge, Id>, id: Id, graph: Id)
    ensures WithWaits(waits, id, [], graph) == waits
  {
  }

  lemma OneMoreWait(waits: map<Edge, Id>, id: Id, awaited: seq<Id>, k: nat, graph: Id)
    requires k < |awaited|
    ensures var before := WithWaits(waits, id, awaited[..k], graph);
            WithWaits(waits, id, awaited[..k + 1], graph)
            == if Edge(id, awaited[k]) in before then before else before[Edge(id, awaited[k]) := graph]
  {
    assert awaited[..k + 1] == awaited[..k] + [awaited[k]];
    assert NewEdges(id, awaited[..k + 1]) == NewEdges(id, awaited[..k]) + {Edge(id, awaited[k])};
  }

  lemma NonePending(db: Db)
    ensures StillPending(db, []) == {}
  {
  }

  lemma OneMorePending(db: Db, awaited: seq<Id>, k: nat)
    requires k < |awaited| && forall i, j :: 0 <= i < j < |awaited| ==> awaited[i] != awaited[j]
    ensures |StillPending(db, awaited[..k + 1])|
            == |StillPending(db, awaited[..k])|
               + if awaited[k] in db.promises && db.promises[awaited[k]].state == Pending then 1 else 0
  {
    assert awaited[..k + 1] == awaited[..k] + [awaited[k]];
    if awaited[k] in db.promises && db.promises[awaited[k]].state == Pending {
      assert StillPending(db, awaited[..k + 1]) == StillPending(db, awaited[..k]) + {awaited[k]};
      SizeGrows(StillPending(db, awaited[..k]), awaited[k]);
    } else {
      assert StillPending(db, awaited[..k + 1]) == StillPending(db, awaited[..k]);
    }
  }

  class Tables {
    var promises: map<Id, Promise>
    var tasks: map<Id, Task>
    var waits: map<Edge, Id>

    ghost function Contents(): Db
      reads this
    {
      Db(promises, tasks, waits)
    }

    constructor ()
      ensures Contents() == EMPTY && Inv(Contents())
    {
      promises, tasks, waits := map[], map[], map[];
      new;
      EmptyInv();
    }

    /** The ready task that goes first, if any is ready. */
    method Claim(topic: string, excluded: seq<FunctionVersion>, locked: set<Id>, now: int) returns (best: Option<Id>)
      ensures best.None? ==> forall id :: !Ready(Contents(), topic, excluded, locked, now, id)
      ensures best.Some? ==> Ready(Contents(), topic, excluded, locked, now, best.value)
      ensures best.Some? ==> forall id :: Ready(Contents(), topic, excluded, locked, now, id) && id != best.value ==>
                                            Ahead(Contents(), best.value, id)
    {
      ghost var db := Contents();
      best := None;
      var rest := tasks.Keys;
      while rest != {}
        invariant rest <= tasks.Keys && Contents() == db
        invariant best.None? ==> forall id :: id !in rest ==> !Ready(db, topic, excluded, locked, now, id)
        invariant best.Some? ==> Ready(db, topic, excluded, locked, now, best.value)
        invariant best.Some? ==>
                    forall id :: id !in rest && Ready(db, topic, excluded, locked, now, id) && id != best.value ==>
                                                Ahead(db, best.value, id)
        decreases |rest|
      {
        var id :| id in rest;
        rest := rest - {id};
        if Ready(Db(promises, tasks, waits), topic, excluded, locked, now, id) {
          if best.None? || Ahead(Db(promises, tasks, waits), id, best.value) {
            if best.Some? {
              forall other | other !in rest && Ready(db, topic, excluded, locked, now, other) && other != id
                ensures Ahead(db, id, other)
              {
                if other != best.value {
                  AheadTransitive(db, id, best.value, other);
                }
              }
            }
            best := Some(id);
          } else if id != best.value {
            AheadTotal(db, id, best.value);
          }
        }
      }
    }

    // -------------------------------------------------------------- submission

    method InsertBatch(calls: seq<SubmitCall>)
      modifies this`promises, this`tasks
      ensures Contents() == InsertCalls(old(Contents()), calls)
    {
      var k := 0;
      while k < |calls|
        invariant k <= |calls| && InsertCalls(Contents(), calls[k..]) == InsertCalls(old(Contents()), calls)
      {
        assert calls[k..][1..] == calls[k + 1..];
        if calls[k].id !in promises {
          promises := promises[calls[k].id := CallPromise(calls[k])];
          tasks := tasks[calls[k].id := CallTask(calls[k])];
        }
        k := k + 1;
      }
    }

    /** Read the rows back in request order, stopping at the first that was stored for other work. */
    method ReadBack(calls: seq<SubmitCall>) returns (rows: Result<seq<Promise>, StoreError>)
      requires forall i :: 0 <= i < |calls| ==> calls[i].id in promises
      ensures var conflict := FirstConflict(Contents(), calls);
              if conflict.Some? then rows == Err(IdempotencyConflict(conflict.value))
              else rows.Ok? && |rows.value| == |calls|
                   && forall i :: 0 <= i < |calls| ==> rows.value[i] == promises[calls[i].id]
    {
      var found: seq<Promise> := [];
      var k := 0;
      while k < |calls|
        invariant k <= |calls| && |found| == k && forall i :: 0 <= i < k ==> found[i] == promises[calls[i].id]
        invariant FirstConflict(Contents(), calls[k..]) == FirstConflict(Contents(), calls)
      {
        assert calls[k..][1..] == calls[k + 1..];
        if promises[calls[k].id].key != CallFingerprint(calls[k]) {
          return Err(IdempotencyConflict(calls[k].id));
        }
        found := found + [promises[calls[k].id]];
        k := k + 1;
      }
      rows := Ok(found);
    }

    method SubmitCalls(calls: seq<SubmitCall>) returns (rows: Result<seq<Promise>, StoreError>)
      modifies this`promises, this`tasks
      ensures Submitted(Contents(), rows) == Store.SubmitCalls(old(Contents()), calls)
    {
      if calls == [] {
        return Ok([]);
      }
      var duplicate := FirstDuplicate(calls, 0);
      if duplicate.Some? {
        return Err(IdempotencyConflict(duplicate.value));
      }
      var before := (promises, tasks);
      InsertBatch(calls);
      if !RootsPresent(Db(promises, tasks, waits)) {
        promises, tasks := before.0, before.1;
        return Err(ForeignKeyViolation);
      }
      InsertCallsHas(old(Contents()), calls);
      rows := ReadBack(calls);
      if rows.Ok? {
        assert rows.value == Store.SubmitCalls(old(Contents()), calls).rows.value;
      }
    }

    method SubmitTimer(t: SubmitTimer) returns (rows: Result<seq<Promise>, StoreError>)
      modifies this`promises
      ensures Submitted(Contents(), rows) == SubmitTimerRow(old(Contents()), t)
    {
      var before := promises;
      if t.id !in promises {
        promises := promises[t.id := TimerPromise(t)];
      }
      if !RootsPresent(Db(promises, tasks, waits)) {
        promises := before;
        return Err(ForeignKeyViolation);
      }
      if promises[t.id].key != TimerFingerprint(t) {
        return Err(IdempotencyConflict(t.id));
      }
      rows := Ok([promises[t.id]]);
    }

    // -------------------------------------------------------------- settlement

    /** How many of the settling promises each waiter awaits. */
    method CountChanges(settled: set<Id>) returns (changes: map<Id, nat>)
      ensures forall w :: w in changes <==> SettledFor(Contents(), settled, w) > 0
      ensures forall w :: w in changes ==> changes[w] == SettledFor(Contents(), settled, w)
    {
      hide Changed, SettledFor;
      changes := map[];
      var rest := waits.Keys;
      ghost var done: set<Edge> := {};
      NothingChanged(settled);
      while rest != {}
        invariant done !! rest && done + rest == waits.Keys
        invariant forall w :: w in changes <==> ChangedCount(done, settled, w) > 0
        invariant forall w :: w in changes ==> changes[w] == ChangedCount(done, settled, w)
        decreases |rest|
      {
        var e :| e in rest;
        rest := rest - {e};
        CountsGrow(done, settled, e);
        if e.awaited in settled {
          changes := changes[e.waiter := (if e.waiter in changes then changes[e.waiter] else 0) + 1];
        }
        done := done + {e};
      }
      assert done == waits.Keys;
      forall w ensures ChangedCount(done, settled, w) == SettledFor(Contents(), settled, w) {
        ChangedIsSettledFor(Contents(), settled, w);
      }
    }

    /** Take the counts off the waiters' counters, none below zero, and wake those that reach it. */
    method WakeWaiters(changes: map<Id, nat>, now: int)
      modifies this`tasks
      ensures tasks.Keys == old(tasks.Keys)
      ensures forall w :: w in tasks ==> tasks[w] == Woken(old(tasks)[w], if w in changes then changes[w] else 0, now)
    {
      var rest := changes.Keys;
      while rest != {}
        invariant rest <= changes.Keys && tasks.Keys == old(tasks.Keys)
        invariant forall w :: w in tasks ==>
                    tasks[w] == if w in changes && w !in rest then Woken(old(tasks)[w], changes[w], now)
                                else old(tasks)[w]
        decreases |rest|
      {
        var w :| w in rest;
        rest := rest - {w};
        if w in tasks && tasks[w].pendingWaits > 0 && changes[w] > 0 {
          var left := tasks[w].pendingWaits - changes[w];
          tasks := tasks[w := tasks[w].(pendingWaits := if left > 0 then left else 0,
                                        availableAt := if left <= 0 then now else tasks[w].availableAt)];
        }
      }
    }

    /** Settle rows, remove tasks with their waits, and wake the waiters. */
    method SettleBatch(settled: map<Id, Promise>, removed: set<Id>, now: int)
      modifies this
      ensures Contents() == SettleRows(old(Contents()), settled, removed, now)
    {
      hide SettledFor, Woken;
      var changes := CountChanges(settled.Keys);
      promises := promises + settled;
      tasks := tasks - removed;
      waits := map e | e in waits && e.waiter !in removed :: waits[e];
      WakeWaiters(changes, now);
      assert tasks == SettleRows(old(Contents()), settled, removed, now).tasks;
    }

    method SettleTask(id: Id, outcome: Outcome, now: int) returns (error: Option<StoreError>)
      modifies this
      ensures match Settle(old(Contents()), id, outcome, now)
              case Ok(after) => error.None? && Contents() == after
              case Err(e) => error == Some(e) && Contents() == old(Contents())
    {
      if id !in tasks || id !in promises || promises[id].state != Pending {
        return Some(TaskNotFound(id));
      }
      var row := match outcome
                 case Complete(result) => Terminal(promises[id], Resolved, result, None, now)
                 case Reject(cause) => Terminal(promises[id], Rejected, None, Some(cause), now);
      SettleBatch(map[id := row], {id}, now);
      error := None;
    }

    method RetryTask(id: Id, cause: Json, delayMs: int, now: int) returns (reply: Result<(bool, int), StoreError>)
      modifies this
      ensures match Retry(old(Contents()), id, cause, delayMs, now)
              case Ok(retried) => reply == Ok((retried.rejected, retried.failures)) && Contents() == retried.db
              case Err(e) => reply == Err(e) && Contents() == old(Contents())
    {
      if id !in tasks || id !in promises || promises[id].state != Pending {
        return Err(TaskNotFound(id));
      }
      var failures := tasks[id].failures + 1;
      if failures < tasks[id].maxFailures {
        tasks := tasks[id := tasks[id].(failures := failures, availableAt := now + delayMs)];
        return Ok((false, failures));
      }
      SettleBatch(map[id := Terminal(promises[id], Rejected, None, Some(cause), now)], {id}, now);
      reply := Ok((true, failures));
    }

    // -------------------------------------------------------------- suspension

    /** The first awaited promise that is not there. */
    method FindMissing(awaited: seq<Id>) returns (missing: Option<Id>)
      ensures missing == FirstMissing(Contents(), awaited)
    {
      var k := 0;
      while k < |awaited|
        invariant k <= |awaited| && FirstMissing(Contents(), awaited[k..]) == FirstMissing(Contents(), awaited)
      {
        assert awaited[k..][1..] == awaited[k + 1..];
        if awaited[k] !in promises {
          return Some(awaited[k]);
        }
        k := k + 1;
      }
      missing := None;
    }

    /** How many of the awaited promises are pending. */
    method CountPending(awaited: seq<Id>) returns (count: nat)
      requires forall i, j :: 0 <= i < j < |awaited| ==> awaited[i] != awaited[j]
      ensures count == |StillPending(Contents(), awaited)|
    {
      hide StillPending;
      count := 0;
      var k := 0;
      NonePending(Contents());
      while k < |awaited|
        invariant k <= |awaited| && count == |StillPending(Contents(), awaited[..k])|
      {
        OneMorePending(Contents(), awaited, k);
        if awaited[k] in promises && promises[awaited[k]].state == Pending {
          count := count + 1;
        }
        k := k + 1;
      }
      assert awaited[..k] == awaited;
    }

    method InsertWaits(id: Id, awaited: seq<Id>, graph: Id)
      modifies this`waits
      ensures waits == WithWaits(old(waits), id, awaited, graph)
    {
      hide WithWaits;
      NoWaits(waits, id, graph);
      var k := 0;
      while k < |awaited|
        invariant k <= |awaited| && waits == WithWaits(old(waits), id, awaited[..k], graph)
      {
        OneMoreWait(old(waits), id, awaited, k, graph);
        if Edge(id, awaited[k]) !in waits {
          waits := waits[Edge(id, awaited[k]) := graph];
        }
        k := k + 1;
      }
      assert awaited[..k] == awaited;
    }

    method SuspendTask(id: Id, awaited: seq<Id>, now: int) returns (error: Option<StoreError>)
      requires ValidSuspend(id, awaited)
      modifies this`waits, this`tasks
      ensures match Suspend(old(Contents()), id, awaited, now)
              case Ok(after) => error.None? && Contents() == after
              case Err(e) => error == Some(e) && Contents() == old(Contents())
    {
      if id !in tasks || id !in promises {
        return Some(TaskNotFound(id));
      }
      var missing := FindMissing(awaited);
      if missing.Some? {
        return Some(PromiseNotFound(missing.value));
      }
      NothingMissing(Contents(), awaited);
      var graph := Graph(id, promises[id].root);
      if exists a :: a in awaited && a in promises && Graph(a, promises[a].root) != graph {
        return Some(CrossGraphWait(id));
      }
      var count := CountPending(awaited);
      InsertWaits(id, awaited, graph);
      tasks := tasks[id := tasks[id].(pendingWaits := count, availableAt := now)];
      error := None;
    }

    // -------------------------------------------------------------- maintenance

    method ProcessDue(timers: set<Id>, timeouts: set<Id>, kept: set<Id>, now: int)
      requires DueBatch(Contents(), timers, timeouts, kept, now)
      modifies this
      ensures Contents() == Store.ProcessDue(old(Contents()), timers, timeouts, kept, now)
    {
      var rows: map<Id, Promise> := map[];
      var rest := timers + timeouts;
      while rest != {}
        invariant rest <= timers + timeouts && Contents() == old(Contents())
        invariant rows.Keys == timers + timeouts - rest
        invariant forall id :: id in rows ==> rows[id] == DueRows(Contents(), timers, timeouts, now)[id]
        decreases |rest|
      {
        var id :| id in rest;
        rest := rest - {id};
        rows := rows[id := if id in timers then Terminal(promises[id], Resolved, Some(JSON_NULL), None, now)
                           else Terminal(promises[id], TimedOut, None, Some(TIMEOUT_ERROR), now)];
      }
      assert rows == DueRows(Contents(), timers, timeouts, now);
      SettleBatch(rows, timeouts - kept, now);
    }

    /** Delete one root; the deletion cascades to its graph's promises, their tasks and their waits. */
    method DeleteGraph(root: Id)
      modifies this
      ensures Contents() == WithoutGraph(old(Contents()), root)
    {
      var gone := set id | id in promises && Graph(id, promises[id].root) == root;
      assert gone == GraphMembers(Contents(), root);
      promises := promises - gone;
      tasks := tasks - gone;
      waits := map e | e in waits && e.waiter !in gone :: waits[e];
    }

    /** Delete roots one by one, each with the promises, tasks and waits of its graph. */
    method DeleteExpired(doomed: set<Id>)
      requires TasksHavePromises(Contents())
      modifies this
      ensures Contents() == Store.DeleteExpired(old(Contents()), doomed)
    {
      hide WithoutGraph, Store.DeleteExpired;
      var rest := doomed;
      ghost var db := Contents();
      assert doomed - rest == {};
      DeleteNothing(db);
      while rest != {}
        invariant rest <= doomed && Contents() == Store.DeleteExpired(db, doomed - rest)
        decreases |rest|
      {
        var root :| root in rest;
        DeleteOneMore(db, doomed - rest, root);
        assert doomed - (rest - {root}) == doomed - rest + {root};
        rest := rest - {root};
        DeleteGraph(root);
      }
      assert doomed - rest == doomed;
    }
  }

  function GraphMembers(db: Db, root: Id): set<Id> {
    set id | id in db.promises && GraphOf(db, id) == root
  }

  function WithoutGraph(db: Db, root: Id): Db {
    var gone := GraphMembers(db, root);
    Db(db.promises - gone, db.tasks - gone, map e | e in db.waits && e.waiter !in gone :: db.waits[e])
  }

  lemma DeleteNothing(db: Db)
    ensures Store.DeleteExpired(db, {}) == db
  {
    var after := Store.DeleteExpired(db, {});
    assert after.promises == db.promises && after.tasks == db.tasks && after.waits == db.waits;
  }

  lemma DeleteOneMore(db: Db, gone: set<Id>, root: Id)
    requires TasksHavePromises(db)
    ensures WithoutGraph(Store.DeleteExpired(db, gone), root) == Store.DeleteExpired(db, gone + {root})
  {
    var once, both := WithoutGraph(Store.DeleteExpired(db, gone), root), Store.DeleteExpired(db, gone + {root});
    assert once.promises == both.promises;
    assert once.tasks == both.tasks;
    assert once.waits == both.waits;
  }
}
