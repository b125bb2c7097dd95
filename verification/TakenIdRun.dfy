/** A concrete run in which an outside submission takes a child's id: the task's own call conflicts,
    and a call that has a value is rejected. */
module TakenIdRun {
  import opened Wrappers
  import opened Store
  import opened StoreRuns
  import opened Programs
  import opened PromiseIds
  import opened Workflow
  import opened WorkflowLaws
  import opened Replay

  const CHILD := Call("m.g", 1, Json("{}"), "t", 1000, 1000000, 3)

  /** A function that makes one call and returns; every other function returns at once. */
  function CallOnce(work: Work, history: History): Move {
    if work.func == "m.f" && |history| == 0 then Gather([CHILD]) else Done(Json("1"))
  }

  const WORK := Work("m.f", 1, Json("{}"))
  const ROOT := SubmitCall("r", "m.f", Json("{}"), "t", 1, 0, 0, 0, 1000, 1000000, 60000, 3, None)
  const CHILD_ID := ChildId("r", 1, "m.g")
  const TAKER := SubmitCall(CHILD_ID, "m.h", Json("{}"), "t", 1, 0, 0, 0, 1000, 1000000, 60000, 3, None)
  const SENT := SubmitCall(CHILD_ID, "m.g", Json("{}"), "t", 1, 1, 0, 0, 1000, 1000000, 60000, 3, Some("r"))

  const TAKEN := Db(map["r" := CallPromise(ROOT), CHILD_ID := CallPromise(TAKER)],
                    map["r" := CallTask(ROOT), CHILD_ID := CallTask(TAKER)], map[])

  const SUBMITTED := World(System(TAKEN, map[]), map[], map[])
  const CLAIMED := World(System(TAKEN, map["r" := NOTHING]), map["r" := Attempt(map[], [], 0, Running)], map[])
  const CONFLICTED := World(CLAIMED.sys, map["r" := Attempt(map[], [], 1, Raising(REFUSAL))], map[])

  const STEPS: seq<WorldStep> :=
    [Outside(Submit([ROOT, TAKER])), Begin("r", 0), Advance("r", 0, 60000, {}), WorldStep.Finish("r", 0)]

  lemma ChildIdIsNot()
    ensures CHILD_ID != "r" && CHILD_ID != ""
  {
    ChildExtendsParent("r", 1, "m.g");
  }

  lemma TakenRoots()
    ensures RootsPresent(TAKEN)
  {
    ChildIdIsNot();
    assert RootPresent(TAKEN, "r") && RootPresent(TAKEN, CHILD_ID);
  }

  lemma InsertsBoth()
    ensures InsertCalls(EMPTY, [ROOT, TAKER]) == TAKEN
    ensures FirstDuplicate([ROOT, TAKER], 0).None? && FirstConflict(TAKEN, [ROOT, TAKER]).None?
  {
    hide ChildId;
    ChildIdIsNot();
    var batch := [ROOT, TAKER];
    assert batch[1..] == [TAKER] && [TAKER][1..] == [];
    assert InsertCalls(EMPTY, batch) == InsertCalls(InsertCall(EMPTY, ROOT), [TAKER])
                                     == InsertCalls(InsertCall(InsertCall(EMPTY, ROOT), TAKER), []);
    assert InsertCall(InsertCall(EMPTY, ROOT), TAKER) == TAKEN;
    assert FirstConflict(TAKEN, [TAKER]) == FirstConflict(TAKEN, []) == None;
    assert FirstDuplicate(batch, 2) == None && FirstDuplicate(batch, 1) == None;
  }

  lemma SubmitsBoth()
    ensures WorldEnabled(CallOnce, START, STEPS[0]) && WorldDo(CallOnce, START, STEPS[0]) == SUBMITTED
  {
    hide RootsPresent, ChildId, InsertCalls, FirstDuplicate, FirstConflict;
    ChildIdIsNot();
    TakenRoots();
    InsertsBoth();
    assert SubmitCalls(EMPTY, [ROOT, TAKER]).db == TAKEN;
    assert WorldDo(CallOnce, START, STEPS[0]).suspensions == map[];
  }

  lemma ClaimsTheCall()
    ensures WorldEnabled(CallOnce, SUBMITTED, STEPS[1]) && WorldDo(CallOnce, SUBMITTED, STEPS[1]) == CLAIMED
  {
    hide ChildId;
    ChildIdIsNot();
    assert Preload(TAKEN, "r") == map[];
    assert WorldDo(CallOnce, SUBMITTED, STEPS[1]).suspensions == map[];
  }

  lemma RootParent()
    ensures IsCall(TAKEN, "r") && ParentOf(TAKEN, "r") == Parent("r", WORK, "r", 0) && View(TAKEN, NOTHING) == TAKEN
  {
    hide ChildId;
    ChildIdIsNot();
    assert View(TAKEN, NOTHING).promises == TAKEN.promises && View(TAKEN, NOTHING).tasks == TAKEN.tasks;
  }

  lemma SendsTheCall()
    ensures var p, a := Parent("r", WORK, "r", 0), Attempt(map[], [], 0, Running);
            && !GroupRefused(p, a, [CHILD], 0, 60000) && FreshCalls(p, a, [CHILD], 0, 0, 60000, {}) == [SENT]
  {
    hide ChildId;
    ChildIdIsNot();
    var p, a := Parent("r", WORK, "r", 0), Attempt(map[], [], 0, Running);
    assert ChildCall(p, 0, 0, CHILD, 0, 60000) == SENT && ValidCall(SENT);
    assert !Refused(p, a, [CHILD], 0, 0, 60000);
    assert FreshCalls(p, a, [CHILD], 1, 0, 60000, {}) == [];
  }

  lemma TheCallConflicts()
    ensures SubmitCalls(TAKEN, [SENT]) == Submitted(TAKEN, Err(IdempotencyConflict(CHILD_ID)))
  {
    hide ChildId, RootsPresent;
    ChildIdIsNot();
    TakenRoots();
    assert FirstDuplicate([SENT], 0).None?;
    assert [SENT][1..] == [];
    assert InsertCalls(TAKEN, [SENT]) == TAKEN;
  }

  lemma Raises()
    ensures AdvanceAttempt(CallOnce, TAKEN, Parent("r", WORK, "r", 0), Attempt(map[], [], 0, Running), 0, 60000, {})
            == Advanced(Some(WriteCalls("r", [SENT])), Attempt(map[], [], 1, Raising(REFUSAL)))
  {
    hide SubmitCalls, FreshCalls, GroupRefused, ChildId;
    SendsTheCall();
    TheCallConflicts();
  }

  lemma NothingAdded(db: Db)
    ensures Delta(db, db) == NOTHING
  {
  }

  lemma MayWrite()
    ensures Enabled(CLAIMED.sys, WriteCalls("r", [SENT]))
  {
    hide ChildId;
    ChildIdIsNot();
  }

  lemma Conflicts()
    ensures WorldEnabled(CallOnce, CLAIMED, STEPS[2]) && WorldDo(CallOnce, CLAIMED, STEPS[2]) == CONFLICTED
  {
    hide AdvanceAttempt, SubmitCalls, ChildId, Enabled, Delta;
    RootParent();
    Raises();
    TheCallConflicts();
    MayWrite();
    NothingAdded(TAKEN);
    assert Do(CLAIMED.sys, WriteCalls("r", [SENT])) == CONFLICTED.sys;
    assert WorldDo(CallOnce, CLAIMED, STEPS[2]).suspensions == map[];
  }

  lemma RejectsTheCall()
    ensures WorldEnabled(CallOnce, CONFLICTED, STEPS[3])
    ensures var db := WorldDo(CallOnce, CONFLICTED, STEPS[3]).sys.db;
            "r" in db.promises && db.promises["r"].state == Rejected
  {
    hide AdvanceAttempt, ChildId;
    ChildIdIsNot();
    RootParent();
    assert Settleable(TAKEN, "r");
  }

  lemma HasAValue()
    ensures Evaluates(CallOnce, WORK, Json("1"))
  {
    var child := WorkOf(CHILD);
    ReturnsTheValue(CallOnce, child, [], Json("1"));
    assert CallOnce(WORK, []) == Gather([CHILD]);
    var history: History := [[Json("1")]];
    assert history[..0] == [];
    assert AllEvaluate(CallOnce, [CHILD], [Json("1")]);
    assert ValidHistory(CallOnce, WORK, history);
    ReturnsTheValue(CallOnce, WORK, history, Json("1"));
  }

  /** The law that replayed calls never conflict needs its condition: in this legal run an outside
      submission takes the id of a child of "r", and "r" is rejected although plain evaluation
      gives it a value. */
  lemma ATakenIdRejectsTheCall()
    ensures NamesOk(CallOnce) && !AllLeaveChildren(STEPS, "r") && WorldLegal(CallOnce, START, STEPS)
    ensures var db := WorldReach(CallOnce, START, STEPS).sys.db;
            "r" in db.promises && db.promises["r"].state == Rejected
    ensures Evaluates(CallOnce, WORK, Json("1"))
  {
    hide WorldEnabled, WorldDo, WorldLegal, WorldReach, ChildId, ChildOf;
    HasAValue();
    ChildIdIsChildOf("r", 1, "m.g");
    assert [ROOT, TAKER][1].id == CHILD_ID && !LeavesChildren(STEPS[0], "r");
    RejectsTheCall();
    assert STEPS[3..] == [STEPS[3]];
    LastStep(CallOnce, CONFLICTED, STEPS[3]);
    Conflicts();
    assert STEPS[2..][1..] == STEPS[3..];
    Follows(CallOnce, CLAIMED, STEPS[2..], CONFLICTED);
    ClaimsTheCall();
    assert STEPS[1..][1..] == STEPS[2..];
    Follows(CallOnce, SUBMITTED, STEPS[1..], CLAIMED);
    SubmitsBoth();
    Follows(CallOnce, START, STEPS, SUBMITTED);
  }
}
