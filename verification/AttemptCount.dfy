/** How often a task is run: its attempts that neither fail nor roll back are at most one more than
    the groups of its evaluation. */
module AttemptCount {
  import opened Wrappers
  import opened Store
  import opened StoreLaws
  import opened StoreRuns
  import opened StoreSafety
  import opened Programs
  import opened Workflow
  import opened WorkflowLaws
  import opened AttemptBound
  import opened Replay

  /** The step commits an attempt of this task that is not a failed one: a suspension, a return or
      a rejection. */
  predicate CleanEnd(w: World, step: WorldStep, id: Id) {
    step.Finish? && step.id == id && id in w.attempts && !w.attempts[id].status.Retrying?
  }

  /** The attempts of a task that a run commits without a failure, counted since its promise was
      last created. */
  function CleanAttempts(lib: Library, w: World, steps: seq<WorldStep>, id: Id, count: nat): nat
    requires WorldLegal(lib, w, steps)
    decreases |steps|
  {
    if steps == [] then count
    else
      var next := WorldDo(lib, w, steps[0]);
      CleanAttempts(lib, next, steps[1..], id,
                    if id !in next.sys.db.promises then 0 else count + if CleanEnd(w, steps[0], id) then 1 else 0)
  }

  /** A count is within the bound of every evaluation that ends. */
  ghost predicate Within(lib: Library, work: Work, count: nat, more: nat) {
    forall trace :: ValidHistory(lib, work, trace) && Ends(lib(work, trace)) ==> count <= |trace| + more
  }

  /** While its task is pending the count is the number of suspensions; afterwards it is at most one
      more than the groups. */
  ghost predicate CountOk(lib: Library, w: World, id: Id, count: nat) {
    if !IsCall(w.sys.db, id) then count == 0
    else if w.sys.db.promises[id].state == Pending then count == |SuspensionsOf(w, id)|
    else Within(lib, ParentOf(w.sys.db, id).work, count, 1)
  }

  lemma RecordWithin(lib: Library, w: World, id: Id)
    requires RecordsOk(lib, w) && IsCall(w.sys.db, id)
    ensures Within(lib, ParentOf(w.sys.db, id).work, |SuspensionsOf(w, id)|, 0)
  {
    hide RecordsOk, ValidHistory, Ends, ParentOf, IsCall, SuspensionsOf;
    forall trace | ValidHistory(lib, ParentOf(w.sys.db, id).work, trace)
           && Ends(lib(ParentOf(w.sys.db, id).work, trace))
      ensures |SuspensionsOf(w, id)| <= |trace|
    {
      RecordBound(lib, w, id, trace);
    }
  }

  lemma WithinMore(lib: Library, work: Work, count: nat, more: nat, count': nat, more': nat)
    requires Within(lib, work, count, more) && count' - more' <= count - more
    ensures Within(lib, work, count', more')
  {
    hide ValidHistory, Ends;
  }

  // ---------------------------------------------------------------- what a step leaves of a promise

  /** A call that was there and stays is the same call. */
  lemma CallStays(s: System, step: Step, id: Id)
    requires SysInv(s) && Enabled(s, step) && id in s.db.promises && id in Do(s, step).db.promises
    ensures Kept(s.db, Do(s, step).db, id)
  {
    hide SysInv, Enabled, Do, Kept;
    if step.Collect? {
      CollectedGoes(s, step.doomed, step.before, id);
    }
    StepKeeps(s, step, id);
  }

  lemma SameCall(db: Db, after: Db, id: Id)
    requires Kept(db, after, id)
    ensures IsCall(after, id) <==> IsCall(db, id)
    ensures IsCall(db, id) ==> ParentOf(after, id) == ParentOf(db, id)
    ensures db.promises[id].state != Pending ==> after.promises[id].state != Pending
  {
  }

  lemma WorldCallStays(lib: Library, w: World, step: WorldStep, id: Id)
    requires WorldInv(lib, w) && WorldEnabled(lib, w, step) && id in w.sys.db.promises
             && id in WorldDo(lib, w, step).sys.db.promises
    ensures Kept(w.sys.db, WorldDo(lib, w, step).sys.db, id)
  {
    hide SysInv, Correct, EdgesIssued, AttemptsOk, Do, Enabled, Moved, Report, Kept;
    var statement := Statement(lib, w, step);
    if statement.Some? {
      CallStays(w.sys, statement.value, id);
    } else {
      SameIsKept(w.sys.db, id);
    }
  }

  lemma SameIsKept(db: Db, id: Id)
    requires id in db.promises
    ensures Kept(db, db, id)
  {
  }

  /** What a step does to the record of a task that is still pending after it. */
  lemma RecordAfter(lib: Library, w: World, step: WorldStep, id: Id)
    requires WorldEnabled(lib, w, step) && id in WorldDo(lib, w, step).sys.db.tasks
    ensures SuspensionsOf(WorldDo(lib, w, step), id)
         == SuspensionsOf(w, id)
            + if CleanEnd(w, step, id) && w.attempts[id].status.Suspending? then [|w.attempts[id].history|] else []
  {
    hide Do, Enabled, Moved, Report;
  }

  /** A return or a rejection that is committed leaves no pending promise. */
  lemma CleanEndSettles(lib: Library, w: World, id: Id, now: int)
    requires WorldInv(lib, w) && WorldEnabled(lib, w, Workflow.Finish(id, now))
    requires w.attempts[id].status.Returning? || w.attempts[id].status.Raising?
    ensures IsCall(WorldDo(lib, w, Workflow.Finish(id, now)).sys.db, id) ==>
              WorldDo(lib, w, Workflow.Finish(id, now)).sys.db.promises[id].state != Pending
  {
    hide SysInv, Correct, EdgesIssued, AttemptsOk, Do, Enabled, IsCall;
    var step := Commit(id, Report(w.attempts[id].status), now);
    StepKeepsSysInv(w.sys, step);
    SettledTaskGoes(w.sys, id, step.finish.outcome, now);
    CalledIsPromise(Do(w.sys, step).db, id);
    InvOfSystem(Do(w.sys, step));
    if IsCall(Do(w.sys, step).db, id) && Do(w.sys, step).db.promises[id].state == Pending {
      PendingCallHasTask(Do(w.sys, step).db, id);
    }
  }

  lemma InvOfSystem(s: System)
    requires SysInv(s)
    ensures Inv(s.db)
  {
    hide Inv, ClaimsOk, OverlaysApart;
  }

  lemma AttemptIsPending(lib: Library, w: World, id: Id)
    requires WorldInv(lib, w) && id in w.attempts
    ensures id in w.sys.db.promises && w.sys.db.promises[id].state == Pending
  {
    hide SysInv, Correct, EdgesIssued, AttemptsOk;
    SameAttempts(lib, w);
    ClaimedHasRow(w.sys, id);
  }

  // ---------------------------------------------------------------- the count over runs

  /** The record of a task whose promise is not there is empty. */
  lemma NoRecord(lib: Library, w: World, id: Id)
    requires WorldInv(lib, w) && RecordsOk(lib, w) && id !in w.sys.db.promises
    ensures SuspensionsOf(w, id) == []
  {
    hide Correct, EdgesIssued, AttemptsOk, ClaimsOk, OverlaysApart, RecordOk, Inv;
    InvHasPromises(w.sys.db);
  }

  lemma PendingHasTask(lib: Library, w: World, id: Id)
    requires WorldInv(lib, w) && IsCall(w.sys.db, id) && w.sys.db.promises[id].state == Pending
    ensures id in w.sys.db.tasks
  {
    hide SysInv, Correct, EdgesIssued, AttemptsOk, IsCall;
    InvOfSystem(w.sys);
    PendingCallHasTask(w.sys.db, id);
  }

  lemma StepCount(lib: Library, w: World, step: WorldStep, id: Id, count: nat)
    requires WorldInv(lib, w) && BoundInv(lib, w) && CountOk(lib, w, id, count) && WorldEnabled(lib, w, step)
    requires WorldInv(lib, WorldDo(lib, w, step)) && id in WorldDo(lib, w, step).sys.db.promises
    ensures CountOk(lib, WorldDo(lib, w, step), id, count + if CleanEnd(w, step, id) then 1 else 0)
  {
    hide WorldInv, AttemptsProgress, RecordsOk, WorldEnabled, WorldDo, Within, IsCall, ParentOf, Kept;
    var next := WorldDo(lib, w, step);
    if CleanEnd(w, step, id) {
      AttemptIsPending(lib, w, id);
      AttemptIsCall(lib, w, id);
    }
    if id in w.sys.db.promises {
      WorldCallStays(lib, w, step, id);
      SameCall(w.sys.db, next.sys.db, id);
      if IsCall(w.sys.db, id) {
        CallCount(lib, w, step, id, count);
      }
    } else {
      CalledIsPromise(w.sys.db, id);
      NewCount(lib, w, step, id, count);
    }
  }

  lemma AttemptIsCall(lib: Library, w: World, id: Id)
    requires WorldInv(lib, w) && id in w.attempts
    ensures IsCall(w.sys.db, id)
  {
    hide SysInv, Correct, EdgesIssued, IsCall, AttemptOk, ParentOf, View;
  }

  lemma NewCount(lib: Library, w: World, step: WorldStep, id: Id, count: nat)
    requires WorldInv(lib, w) && BoundInv(lib, w) && WorldEnabled(lib, w, step) && count == 0
             && id !in w.sys.db.promises
    requires WorldInv(lib, WorldDo(lib, w, step)) && !CleanEnd(w, step, id)
    ensures CountOk(lib, WorldDo(lib, w, step), id, 0)
  {
    hide WorldInv, AttemptsProgress, RecordsOk, WorldEnabled, WorldDo, IsCall, ParentOf, ValidHistory, Ends;
    var next := WorldDo(lib, w, step);
    NoRecord(lib, w, id);
    CalledIsPromise(next.sys.db, id);
    if IsCall(next.sys.db, id) && next.sys.db.promises[id].state == Pending {
      PendingHasTask(lib, next, id);
      RecordAfter(lib, w, step, id);
    }
  }

  lemma CallCount(lib: Library, w: World, step: WorldStep, id: Id, count: nat)
    requires WorldInv(lib, w) && BoundInv(lib, w) && CountOk(lib, w, id, count) && WorldEnabled(lib, w, step)
    requires WorldInv(lib, WorldDo(lib, w, step)) && IsCall(w.sys.db, id)
             && Kept(w.sys.db, WorldDo(lib, w, step).sys.db, id)
    ensures CountOk(lib, WorldDo(lib, w, step), id, count + if CleanEnd(w, step, id) then 1 else 0)
  {
    hide WorldInv, AttemptsProgress, RecordsOk, WorldEnabled, WorldDo, Within, IsCall, ParentOf, Kept, SuspensionsOf;
    var next := WorldDo(lib, w, step);
    var work := ParentOf(w.sys.db, id).work;
    SameCall(w.sys.db, next.sys.db, id);
    CalledIsPromise(w.sys.db, id);
    CalledIsPromise(next.sys.db, id);
    if w.sys.db.promises[id].state == Pending {
      RecordWithin(lib, w, id);
      WithinMore(lib, work, count, 0, count + 1, 1);
      WithinMore(lib, work, count, 0, count, 1);
      if next.sys.db.promises[id].state == Pending {
        PendingHasTask(lib, next, id);
        RecordAfter(lib, w, step, id);
        if CleanEnd(w, step, id) {
          StillPendingSuspends(lib, w, step, id);
        }
      }
    } else if CleanEnd(w, step, id) {
      AttemptIsPending(lib, w, id);
    }
  }

  lemma StillPendingSuspends(lib: Library, w: World, step: WorldStep, id: Id)
    requires WorldInv(lib, w) && WorldEnabled(lib, w, step) && CleanEnd(w, step, id)
    requires IsCall(WorldDo(lib, w, step).sys.db, id) && WorldDo(lib, w, step).sys.db.promises[id].state == Pending
    ensures w.attempts[id].status.Suspending?
  {
    hide WorldInv, WorldDo, IsCall, Moved, Enabled;
    if w.attempts[id].status.Returning? || w.attempts[id].status.Raising? {
      CleanEndSettles(lib, w, id, step.now);
    }
  }

  lemma {:induction false} RunCount(lib: Library, w: World, steps: seq<WorldStep>, id: Id, count: nat)
    requires WorldInv(lib, w) && BoundInv(lib, w) && CountOk(lib, w, id, count) && WorldLegal(lib, w, steps)
    ensures WorldInv(lib, WorldReach(lib, w, steps)) && BoundInv(lib, WorldReach(lib, w, steps))
    ensures CountOk(lib, WorldReach(lib, w, steps), id, CleanAttempts(lib, w, steps, id, count))
    decreases |steps|
  {
    hide WorldInv, BoundInv, WorldEnabled, WorldDo, CleanEnd, CountOk;
    if steps != [] {
      var next := WorldDo(lib, w, steps[0]);
      WorldStepKeepsInv(lib, w, steps[0]);
      WorldStepKeepsBound(lib, w, steps[0]);
      if id in next.sys.db.promises {
        StepCount(lib, w, steps[0], id, count);
        RunCount(lib, next, steps[1..], id, count + if CleanEnd(w, steps[0], id) then 1 else 0);
      } else {
        GoneCount(lib, next, id);
        RunCount(lib, next, steps[1..], id, 0);
      }
    }
  }

  lemma GoneCount(lib: Library, w: World, id: Id)
    requires id !in w.sys.db.promises
    ensures CountOk(lib, w, id, 0)
  {
  }

  /** In every reachable state, the attempts of a call since its creation that were committed and
      were not failures are at most one more than the groups of its evaluation, when that ends. */
  lemma AttemptsAreBounded(lib: Library, steps: seq<WorldStep>, id: Id, trace: History)
    requires WorldLegal(lib, START, steps) && IsCall(WorldReach(lib, START, steps).sys.db, id)
    requires var work := ParentOf(WorldReach(lib, START, steps).sys.db, id).work;
             ValidHistory(lib, work, trace) && Ends(lib(work, trace))
    ensures CleanAttempts(lib, START, steps, id, 0) <= |trace| + 1
  {
    hide WorldInv, WorldLegal, WorldReach, AttemptsProgress, RecordsOk, ValidHistory, Ends, ParentOf, IsCall,
         CleanAttempts;
    StartInv(lib);
    StartBound(lib);
    GoneCount(lib, START, id);
    RunCount(lib, START, steps, id, 0);
    RecordWithin(lib, WorldReach(lib, START, steps), id);
  }
}
