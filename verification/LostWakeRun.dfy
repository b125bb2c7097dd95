/** A concrete run of settling without the separate lock statement: the settlement's snapshot
    precedes its lock, a suspension commits in between, and its wake is lost. */
module LostWakeRun {
  import opened Wrappers
  import opened Store
  import opened StoreLaws
  import opened StoreRuns
  import opened IdOrder
  import opened ReadCommitted

  const PARENT := SubmitCall("w", "m.f", Json("{}"), "t", 1, 0, 0, 0, 1000, 1000000, 60000, 3, None)
  const CHILD := SubmitCall("a", "m.g", Json("{}"), "t", 1, 1, 0, 0, 1000, 1000000, 60000, 3, Some("w"))
  const VALUE := Complete(None)

  const ROWS := Db(map["w" := CallPromise(PARENT), "a" := CallPromise(CHILD)],
                   map["w" := CallTask(PARENT), "a" := CallTask(CHILD)], map[])

  const START := Concurrent(INITIAL, map[])
  const SUBMITTED := Concurrent(System(ROWS, map[]), map[])
  const ONE := Concurrent(System(ROWS, map["w" := NOTHING]), map["w" := Working])
  const TWO := Concurrent(System(ROWS, map["w" := NOTHING, "a" := NOTHING]), map["w" := Working, "a" := Working])
  const SNAPPED := TWO.(phases := map["w" := Working, "a" := Stale(VALUE, [])])
  const ASKING := TWO.(phases := map["w" := Awaiting(["a"], 0, map[]), "a" := Stale(VALUE, [])])
  const SEEN := TWO.(phases := map["w" := Awaiting(["a"], 1, map["a" := CallPromise(CHILD)]), "a" := Stale(VALUE, [])])

  const WAITING := Db(ROWS.promises,
                      map["w" := CallTask(PARENT).(pendingWaits := 1, availableAt := 5), "a" := CallTask(CHILD)],
                      map[Edge("w", "a") := "w"])

  const SUSPENDED := Concurrent(System(WAITING, map["a" := NOTHING]), map["a" := Stale(VALUE, [])])
  const LOCKED := Concurrent(System(WAITING, map["a" := NOTHING]), map["a" := Waking(VALUE, [], 0, map[])])

  const STEPS: seq<FineStep> :=
    [Atomic(Submit([PARENT, CHILD])), Atomic(Claim("w", 0)), Atomic(Claim("a", 0)), EarlySnapshot("a", VALUE, []),
     AskAwaited("w", ["a"]), LockAwaited("w"), CommitSuspend("w", 5), LateLock("a"), CommitSettle("a", 6)]

  lemma Submits()
    ensures FineEnabled(false, START, STEPS[0]) && FineDo(false, START, STEPS[0]) == SUBMITTED
  {
    var calls := [PARENT, CHILD];
    NoDuplicate(calls, 0);
    var first := InsertCall(EMPTY, PARENT);
    assert calls[1..] == [CHILD];
    assert InsertCalls(first, [CHILD]) == InsertCall(first, CHILD);
    assert InsertCalls(EMPTY, calls) == InsertCall(first, CHILD) == ROWS;
    assert RootPresent(ROWS, "w") && RootPresent(ROWS, "a");
    assert FirstConflict(ROWS, [CHILD]).None?;
    assert FirstConflict(ROWS, calls).None?;
    assert SubmitCalls(EMPTY, calls).db == ROWS;
  }

  lemma ClaimsParent()
    ensures FineEnabled(false, SUBMITTED, STEPS[1]) && FineDo(false, SUBMITTED, STEPS[1]) == ONE
  {
  }

  lemma ClaimsChild()
    ensures FineEnabled(false, ONE, STEPS[2]) && FineDo(false, ONE, STEPS[2]) == TWO
  {
    assert TaskFree(ONE, "a", "a");
  }

  lemma TakesTheSnapshotEarly()
    ensures FineEnabled(false, TWO, STEPS[3]) && FineDo(false, TWO, STEPS[3]) == SNAPPED
  {
    hide Do, Enabled, SettleWrites, SuspendWrites, View, ValidSuspend;
  }

  lemma AsksForTheChild()
    ensures FineEnabled(false, SNAPPED, STEPS[4]) && FineDo(false, SNAPPED, STEPS[4]) == ASKING
  {
    hide Do, Enabled, SettleWrites, SuspendWrites, View;
  }

  lemma NothingWritten(db: Db)
    ensures View(db, NOTHING) == db
  {
    assert View(db, NOTHING).promises == db.promises && View(db, NOTHING).tasks == db.tasks;
  }

  lemma LocksTheChild()
    ensures FineEnabled(false, ASKING, STEPS[5]) && FineDo(false, ASKING, STEPS[5]) == SEEN
  {
    hide Do, Enabled, SettleWrites, SuspendWrites, View, CallPromise, CallTask;
    NothingWritten(ROWS);
  }

  lemma SuspensionWritten()
    ensures SuspendWrites(ROWS, "w", ["a"], map["a" := CallPromise(CHILD)], 5) == WAITING
  {
    hide ValidCall;
    var seen := map["a" := CallPromise(CHILD)];
    assert (set a | a in seen && seen[a].state == Pending) == {"a"};
    assert NewEdges("w", ["a"]) == {Edge("w", "a")};
    assert SuspendWrites(ROWS, "w", ["a"], seen, 5).waits == WAITING.waits;
    assert SuspendWrites(ROWS, "w", ["a"], seen, 5).tasks == WAITING.tasks;
  }

  lemma Suspends()
    ensures FineEnabled(false, SEEN, STEPS[6]) && FineDo(false, SEEN, STEPS[6]) == SUSPENDED
  {
    hide SuspendWrites, View;
    NothingWritten(ROWS);
    SuspensionWritten();
    assert SEEN.sys.claims - {"w"} == SUSPENDED.sys.claims;
    assert SEEN.phases - {"w"} == SUSPENDED.phases;
  }

  lemma LocksTooLate()
    ensures FineEnabled(false, SUSPENDED, STEPS[7]) && FineDo(false, SUSPENDED, STEPS[7]) == LOCKED
  {
    hide Do, Enabled, SettleWrites, SuspendWrites, View;
  }

  lemma SettlesTheChild()
    ensures FineEnabled(false, LOCKED, STEPS[8])
    ensures var db := FineDo(false, LOCKED, STEPS[8]).sys.db;
            "w" in db.tasks && db.tasks["w"].pendingWaits == 1 && PendingAwaits(db, "w") == {}
  {
    NothingWritten(WAITING);
  }

  lemma Follows(c: Concurrent, steps: seq<FineStep>, next: Concurrent)
    requires steps != [] && FineEnabled(false, c, steps[0]) && FineDo(false, c, steps[0]) == next
    requires FineLegal(false, next, steps[1..])
    ensures FineLegal(false, c, steps) && FineReach(false, c, steps) == FineReach(false, next, steps[1..])
  {
    hide FineEnabled, FineDo;
  }

  lemma LastStep(c: Concurrent, step: FineStep)
    requires FineEnabled(false, c, step)
    ensures FineLegal(false, c, [step]) && FineReach(false, c, [step]) == FineDo(false, c, step)
  {
    hide FineEnabled, FineDo;
    var last := FineDo(false, c, step);
    assert [step][1..] == [];
    assert FineLegal(false, last, []) && FineReach(false, last, []) == last;
  }

  lemma SecondHalf()
    ensures FineLegal(false, SNAPPED, STEPS[4..])
    ensures var db := FineReach(false, SNAPPED, STEPS[4..]).sys.db;
            "w" in db.tasks && db.tasks["w"].pendingWaits == 1 && PendingAwaits(db, "w") == {}
  {
    hide FineEnabled, FineDo, FineLegal, FineReach;
    SettlesTheChild();
    assert STEPS[8..] == [STEPS[8]];
    LastStep(LOCKED, STEPS[8]);
    LocksTooLate();
    assert STEPS[7..][1..] == STEPS[8..];
    Follows(SUSPENDED, STEPS[7..], LOCKED);
    Suspends();
    assert STEPS[6..][1..] == STEPS[7..];
    Follows(SEEN, STEPS[6..], SUSPENDED);
    LocksTheChild();
    assert STEPS[5..][1..] == STEPS[6..];
    Follows(ASKING, STEPS[5..], SEEN);
    AsksForTheChild();
    assert STEPS[4..][1..] == STEPS[5..];
    Follows(SNAPPED, STEPS[4..], ASKING);
  }

  /** Folding the promise lock into the settling statement loses a wake: after this run the waiter
      counts one pending promise and awaits none, so nothing will ever wake it. */
  lemma WithoutTheLockStatementAWakeIsLost()
    ensures FineLegal(false, START, STEPS)
    ensures var db := FineReach(false, START, STEPS).sys.db;
            "w" in db.tasks && db.tasks["w"].pendingWaits == 1 && PendingAwaits(db, "w") == {}
  {
    hide FineEnabled, FineDo, FineLegal, FineReach;
    SecondHalf();
    TakesTheSnapshotEarly();
    assert STEPS[3..][1..] == STEPS[4..];
    Follows(TWO, STEPS[3..], SNAPPED);
    ClaimsChild();
    assert STEPS[2..][1..] == STEPS[3..];
    Follows(ONE, STEPS[2..], TWO);
    ClaimsParent();
    assert STEPS[1..][1..] == STEPS[2..];
    Follows(SUBMITTED, STEPS[1..], ONE);
    Submits();
    Follows(START, STEPS, SUBMITTED);
  }
}
