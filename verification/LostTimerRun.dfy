/** A concrete run in which a retry commits a sleep's timer without a wait: the next attempt
    submits the timer anew, due later, conflicts, and rejects a call that has a value. */
module LostTimerRun {
  import opened Wrappers
  import opened Store
  import opened StoreRuns
  import opened Programs
  import opened PromiseIds
  import opened Workflow
  import opened WorkflowLaws
  import opened LostTimer

  /** A function that sleeps for a second and returns. */
  function NapThenReturn(work: Work, history: History): Move {
    if |history| == 0 then Sleep(1000) else Done(Json("1"))
  }

  const NAPPER := SubmitCall("r", "m.nap", Json("{}"), "t", 1, 0, 0, 0, 1000, 1000000, 60000, 3, None)
  const CALL := CallPromise(NAPPER)
  const TASK := CallTask(NAPPER)
  const TIMER_ID := ChildId("r", 1, SLEEP)
  const TIMER := TimerPromise(SubmitTimer(TIMER_ID, 1000, 60000, Some("r")))
  const LOCAL_TIMEOUT := Json("{\"kind\": \"TimeoutError\"}")

  const SUBMITTED := World(System(Db(map["r" := CALL], map["r" := TASK], map[]), map[]), map[], map[])

  const CLAIMED := World(System(SUBMITTED.sys.db, map["r" := NOTHING]), map["r" := Attempt(map[], [], 0, Running)],
                         map[])

  const WRITTEN := Overlay(map[TIMER_ID := TIMER], map[])

  const SLEEPING := World(System(SUBMITTED.sys.db, map["r" := WRITTEN]),
                          map["r" := Attempt(map[TIMER_ID := TIMER], [], 1, Suspending([TIMER_ID]))], map[])

  const TIMED := World(SLEEPING.sys, map["r" := Attempt(map[TIMER_ID := TIMER], [], 1, Retrying(LOCAL_TIMEOUT))], map[])

  const LOST := Db(map["r" := CALL, TIMER_ID := TIMER], map["r" := TASK.(failures := 1, availableAt := 0)], map[])

  const REQUEUED := World(System(LOST, map[]), map[], map[])

  const AGAIN := World(System(LOST, map["r" := NOTHING]), map["r" := Attempt(map[], [], 0, Running)], map[])

  const CONFLICTED := World(System(LOST, map["r" := NOTHING]), map["r" := Attempt(map[], [], 1, Raising(REFUSAL))],
                            map[])

  const STEPS: seq<WorldStep> :=
    [Outside(Submit([NAPPER])), Begin("r", 0), Advance("r", 0, 60000, {}), Interrupt("r", Retrying(LOCAL_TIMEOUT)),
     WorldStep.Finish("r", 0), Begin("r", 5), Advance("r", 5, 60000, {}), WorldStep.Finish("r", 6)]

  lemma TimerIdIsNot()
    ensures TIMER_ID != "r"
  {
    ChildExtendsParent("r", 1, SLEEP);
  }

  lemma SubmitsTheCall()
    ensures WorldEnabled(NapThenReturn, START, STEPS[0]) && WorldDo(NapThenReturn, START, STEPS[0]) == SUBMITTED
  {
    assert FirstDuplicate([NAPPER], 0).None?;
    assert InsertCalls(EMPTY, [NAPPER]) == InsertCall(EMPTY, NAPPER);
    assert InsertCall(EMPTY, NAPPER) == SUBMITTED.sys.db;
    assert FirstConflict(SUBMITTED.sys.db, [NAPPER]).None?;
    assert SubmitCalls(EMPTY, [NAPPER]).db == SUBMITTED.sys.db;
    assert WorldDo(NapThenReturn, START, STEPS[0]).suspensions == map[];
  }

  lemma ClaimsTheCall()
    ensures WorldEnabled(NapThenReturn, SUBMITTED, STEPS[1]) && WorldDo(NapThenReturn, SUBMITTED, STEPS[1]) == CLAIMED
  {
    assert Preload(SUBMITTED.sys.db, "r") == map[];
    assert WorldDo(NapThenReturn, SUBMITTED, STEPS[1]).suspensions == map[];
  }

  /** The parent record and the view of the claim. */
  lemma NapParent(db: Db)
    requires "r" in db.promises && db.promises["r"] == CALL
    ensures IsCall(db, "r") && ParentOf(db, "r") == Parent("r", Work("m.nap", 1, Json("{}")), "r", 0)
    ensures View(db, NOTHING) == db
  {
    assert View(db, NOTHING).promises == db.promises && View(db, NOTHING).tasks == db.tasks;
  }

  lemma TimerRequest(now: int)
    ensures ChildTimer(Parent("r", Work("m.nap", 1, Json("{}")), "r", 0), 0, 1000, now, 60000)
            == SubmitTimer(TIMER_ID, now + 1000, 60000, Some("r"))
    ensures ValidTimer(SubmitTimer(TIMER_ID, now + 1000, 60000, Some("r")))
  {
    TimerIdIsNot();
    ChildExtendsParent("r", 1, SLEEP);
  }

  lemma TimerInserted()
    ensures SubmitTimerRow(SUBMITTED.sys.db, SubmitTimer(TIMER_ID, 1000, 60000, Some("r")))
            == Submitted(Db(map["r" := CALL, TIMER_ID := TIMER], map["r" := TASK], map[]), Ok([TIMER]))
  {
    TimerIdIsNot();
    var db := SUBMITTED.sys.db;
    var after := InsertTimer(db, SubmitTimer(TIMER_ID, 1000, 60000, Some("r")));
    assert after == Db(map["r" := CALL, TIMER_ID := TIMER], map["r" := TASK], map[]);
    assert RootPresent(after, "r") && RootPresent(after, TIMER_ID);
  }

  lemma SleepsFirst()
    ensures AdvanceAttempt(NapThenReturn, SUBMITTED.sys.db, Parent("r", Work("m.nap", 1, Json("{}")), "r", 0),
                           Attempt(map[], [], 0, Running), 0, 60000, {})
            == Advanced(Some(WriteTimer("r", SubmitTimer(TIMER_ID, 1000, 60000, Some("r")))),
                        Attempt(map[TIMER_ID := TIMER], [], 1, Suspending([TIMER_ID])))
  {
    hide SubmitTimerRow, ValidTimer, ChildTimer;
    TimerRequest(0);
    TimerInserted();
    assert TimerId("r", 0) == TIMER_ID;
  }

  lemma WritesTheTimer()
    ensures WorldEnabled(NapThenReturn, CLAIMED, STEPS[2]) && WorldDo(NapThenReturn, CLAIMED, STEPS[2]) == SLEEPING
  {
    hide AdvanceAttempt, SubmitTimerRow, ValidTimer;
    TimerIdIsNot();
    TimerRequest(0);
    NapParent(SUBMITTED.sys.db);
    SleepsFirst();
    TimerInserted();
    var timer := SubmitTimer(TIMER_ID, 1000, 60000, Some("r"));
    assert !Reserved(CLAIMED.sys, Some("r"), TIMER_ID);
    assert Delta(SUBMITTED.sys.db, SubmitTimerRow(SUBMITTED.sys.db, timer).db) == WRITTEN by {
      DeltaIsWritten();
    }
    assert Do(CLAIMED.sys, WriteTimer("r", timer)) == SLEEPING.sys;
    assert WorldDo(NapThenReturn, CLAIMED, STEPS[2]).suspensions == map[];
  }

  lemma DeltaIsWritten()
    ensures Delta(SUBMITTED.sys.db, Db(map["r" := CALL, TIMER_ID := TIMER], map["r" := TASK], map[])) == WRITTEN
  {
    TimerIdIsNot();
  }

  /** The local timeout strikes after the timer has been written and before the suspension. */
  lemma TimesOut()
    ensures WorldEnabled(NapThenReturn, SLEEPING, STEPS[3]) && WorldDo(NapThenReturn, SLEEPING, STEPS[3]) == TIMED
    ensures !KeepsTimers(TIMED, STEPS[4], "r")
  {
    assert WorldDo(NapThenReturn, SLEEPING, STEPS[3]).suspensions == map[];
    assert TIMER_ID in TIMED.sys.claims["r"].promises;
  }

  lemma RequeuesTheCall()
    ensures WorldEnabled(NapThenReturn, TIMED, STEPS[4]) && WorldDo(NapThenReturn, TIMED, STEPS[4]) == REQUEUED
  {
    hide AdvanceAttempt;
    TimerIdIsNot();
    NapParent(SUBMITTED.sys.db);
    var view := View(SUBMITTED.sys.db, WRITTEN);
    assert view.promises == map["r" := CALL, TIMER_ID := TIMER];
    assert view.tasks == map["r" := TASK];
    assert Settleable(view, "r") && TASK.failures + 1 < TASK.maxFailures;
    assert view.(tasks := view.tasks["r" := TASK.(failures := 1, availableAt := 0)]) == LOST;
    assert Retry(view, "r", LOCAL_TIMEOUT, 0, 0) == Ok(Retried(LOST, false, 1));
    assert Do(TIMED.sys, Commit("r", Failed(LOCAL_TIMEOUT, 0), 0)) == REQUEUED.sys;
    assert WorldDo(NapThenReturn, TIMED, STEPS[4]).suspensions == map[];
  }

  lemma ClaimsItAgain()
    ensures WorldEnabled(NapThenReturn, REQUEUED, STEPS[5]) && WorldDo(NapThenReturn, REQUEUED, STEPS[5]) == AGAIN
  {
    TimerIdIsNot();
    assert Preload(LOST, "r") == map[];
    assert WorldDo(NapThenReturn, REQUEUED, STEPS[5]).suspensions == map[];
  }

  lemma TimerConflictsAgain()
    ensures SubmitTimerRow(LOST, SubmitTimer(TIMER_ID, 1005, 60000, Some("r")))
            == Submitted(LOST, Err(IdempotencyConflict(TIMER_ID)))
  {
    TimerIdIsNot();
    assert RootPresent(LOST, "r") && RootPresent(LOST, TIMER_ID);
  }

  lemma SleepsAgain()
    ensures AdvanceAttempt(NapThenReturn, LOST, Parent("r", Work("m.nap", 1, Json("{}")), "r", 0),
                           Attempt(map[], [], 0, Running), 5, 60000, {})
            == Advanced(Some(WriteTimer("r", SubmitTimer(TIMER_ID, 1005, 60000, Some("r")))),
                        Attempt(map[], [], 1, Raising(REFUSAL)))
  {
    hide SubmitTimerRow, ValidTimer, ChildTimer;
    TimerRequest(5);
    TimerConflictsAgain();
    assert TimerId("r", 0) == TIMER_ID;
  }

  lemma Conflicts()
    ensures WorldEnabled(NapThenReturn, AGAIN, STEPS[6]) && WorldDo(NapThenReturn, AGAIN, STEPS[6]) == CONFLICTED
  {
    hide AdvanceAttempt, SubmitTimerRow, ValidTimer;
    TimerIdIsNot();
    TimerRequest(5);
    NapParent(LOST);
    SleepsAgain();
    TimerConflictsAgain();
    var timer := SubmitTimer(TIMER_ID, 1005, 60000, Some("r"));
    assert !Reserved(AGAIN.sys, Some("r"), TIMER_ID);
    assert Delta(LOST, LOST) == NOTHING;
    assert Do(AGAIN.sys, WriteTimer("r", timer)) == CONFLICTED.sys;
    assert WorldDo(NapThenReturn, AGAIN, STEPS[6]).suspensions == map[];
  }

  lemma RejectsTheCall()
    ensures WorldEnabled(NapThenReturn, CONFLICTED, STEPS[7])
    ensures var db := WorldDo(NapThenReturn, CONFLICTED, STEPS[7]).sys.db;
            "r" in db.promises && db.promises["r"].state == Rejected
  {
    hide AdvanceAttempt;
    TimerIdIsNot();
    NapParent(LOST);
    assert Settleable(LOST, "r");
    assert View(LOST, NOTHING) == LOST;
  }

  lemma HasAValue()
    ensures Evaluates(NapThenReturn, Work("m.nap", 1, Json("{}")), Json("1"))
  {
    assert NapThenReturn(Work("m.nap", 1, Json("{}")), []) == Sleep(1000);
    assert ValidHistory(NapThenReturn, Work("m.nap", 1, Json("{}")), [NAP]);
    ReturnsTheValue(NapThenReturn, Work("m.nap", 1, Json("{}")), [NAP], Json("1"));
  }

  lemma SecondAttempt()
    ensures WorldLegal(NapThenReturn, TIMED, STEPS[4..])
    ensures var db := WorldReach(NapThenReturn, TIMED, STEPS[4..]).sys.db;
            "r" in db.promises && db.promises["r"].state == Rejected
  {
    hide WorldEnabled, WorldDo, WorldLegal, WorldReach;
    RejectsTheCall();
    assert STEPS[7..] == [STEPS[7]];
    LastStep(NapThenReturn, CONFLICTED, STEPS[7]);
    Conflicts();
    assert STEPS[6..][1..] == STEPS[7..];
    Follows(NapThenReturn, AGAIN, STEPS[6..], CONFLICTED);
    ClaimsItAgain();
    assert STEPS[5..][1..] == STEPS[6..];
    Follows(NapThenReturn, REQUEUED, STEPS[5..], AGAIN);
    RequeuesTheCall();
    assert STEPS[4..][1..] == STEPS[5..];
    Follows(NapThenReturn, TIMED, STEPS[4..], REQUEUED);
  }

  /** The law that replay never conflicts fails when a retry commits a timer: this run is legal,
      with an ordinary root id and one failed attempt of three, and ends with the call rejected although
      plain evaluation gives it a value. */
  lemma ALostTimerRejectsTheCall()
    ensures WorldLegal(NapThenReturn, START, STEPS)
    ensures var db := WorldReach(NapThenReturn, START, STEPS).sys.db;
            "r" in db.promises && db.promises["r"].state == Rejected
    ensures Evaluates(NapThenReturn, Work("m.nap", 1, Json("{}")), Json("1"))
  {
    hide WorldEnabled, WorldDo, WorldLegal, WorldReach;
    HasAValue();
    SecondAttempt();
    TimesOut();
    assert STEPS[3..][1..] == STEPS[4..];
    Follows(NapThenReturn, SLEEPING, STEPS[3..], TIMED);
    WritesTheTimer();
    assert STEPS[2..][1..] == STEPS[3..];
    Follows(NapThenReturn, CLAIMED, STEPS[2..], SLEEPING);
    ClaimsTheCall();
    assert STEPS[1..][1..] == STEPS[2..];
    Follows(NapThenReturn, SUBMITTED, STEPS[1..], CLAIMED);
    SubmitsTheCall();
    Follows(NapThenReturn, START, STEPS, SUBMITTED);
  }
}
