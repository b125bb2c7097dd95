/** Safety of the store and its workers over every run: the invariant, exclusive ownership,
    settle-once, the retry budget, and the absence of stuck graphs. */
module StoreSafety {
  import opened Wrappers
  import opened Store
  import opened StoreLaws
  import opened StoreRuns

  // ---------------------------------------------------------------- writes inside a transaction

  lemma CallPromiseOk(c: SubmitCall)
    requires ValidCall(c) && c.root.Some?
    ensures PromiseRowOk(c.id, CallPromise(c)) && KeyOk(c.id, CallPromise(c))
    ensures TaskRowOk(CallTask(c)) && TaskMatches(CallPromise(c), CallTask(c))
    ensures CallPromise(c).state == Pending && CallPromise(c).root == c.root && CallPromise(c).expiresAt.Some?
    ensures CallTask(c).pendingWaits == 0 && CallTask(c).failures == 0
  {
  }

  lemma TimerPromiseOk(t: SubmitTimer)
    requires ValidTimer(t) && t.root.Some?
    ensures PromiseRowOk(t.id, TimerPromise(t)) && KeyOk(t.id, TimerPromise(t))
    ensures TimerPromise(t).state == Pending && TimerPromise(t).root == t.root && TimerPromise(t).expiresAt.None?
  {
  }

  /** The rows of a batch, seen from the committed store, are the transaction's earlier rows and
      the fresh calls. */
  lemma WriteKeepsOverlay(db: Db, id: Id, o: Overlay, calls: seq<SubmitCall>)
    requires Inv(db) && OverlayOk(db, id, o)
    requires forall i :: 0 <= i < |calls| ==> ValidCall(calls[i]) && calls[i].root == Some(GraphOf(db, id))
    ensures var after := SubmitCalls(View(db, o), calls).db;
            OverlayOk(db, id, Delta(db, after)) && View(db, Delta(db, after)) == after
  {
    hide CallPromise, CallTask, PromiseRowOk, KeyOk, TaskRowOk, TaskMatches, SubmitCalls, CountersExact, ValidCall,
         RowsOk, WaitsOk, CallsHaveTasks, RootsPresent;
    var view := View(db, o);
    var after := SubmitCalls(view, calls).db;
    ViewKeepsTasks(db, id, o);
    SubmitKeepsRows(view, calls);
    forall p | p in after.promises && p !in db.promises && p !in o.promises ensures FreshRowOk(db, id, after, p) {
      var i :| 0 <= i < |calls| && calls[i].id == p && after.promises[p] == CallPromise(calls[i])
               && p in after.tasks && after.tasks[p] == CallTask(calls[i]);
      CallPromiseOk(calls[i]);
    }
    OverlayGrows(db, id, o, after);
  }

  /** Reading an extension of the store through its delta gives the extension back. */
  lemma DeltaGivesBack(db: Db, after: Db)
    requires KeepsRows(db, after)
    ensures View(db, Delta(db, after)) == after
  {
    assert View(db, Delta(db, after)).promises == after.promises;
    assert View(db, Delta(db, after)).tasks == after.tasks;
  }

  lemma ViewKeepsRowsOf(db: Db, id: Id, o: Overlay, after: Db)
    requires TasksHavePromises(db) && OverlayOk(db, id, o) && KeepsRows(View(db, o), after)
    ensures KeepsRows(db, after)
    ensures forall p :: p in o.promises ==>
              p in Delta(db, after).promises && Delta(db, after).promises[p] == o.promises[p]
    ensures forall t :: t in o.tasks ==> t in Delta(db, after).tasks && Delta(db, after).tasks[t] == o.tasks[t]
  {
    hide PromiseRowOk, KeyOk, TaskRowOk, TaskMatches;
    forall p | p in db.promises ensures p in after.promises && after.promises[p] == db.promises[p] {
      assert View(db, o).promises[p] == db.promises[p];
    }
    forall t | t in db.tasks ensures t in after.tasks && after.tasks[t] == db.tasks[t] {
      assert View(db, o).tasks[t] == db.tasks[t];
    }
    forall t | t in o.tasks ensures t in after.tasks && after.tasks[t] == o.tasks[t] && t !in db.tasks {
      assert View(db, o).tasks[t] == o.tasks[t];
    }
    forall p | p in o.promises ensures p in after.promises && after.promises[p] == o.promises[p] {
      assert View(db, o).promises[p] == o.promises[p];
    }
  }

  ghost predicate FreshRowOk(db: Db, id: Id, after: Db, p: Id)
    requires id in db.promises && p in after.promises
  {
    && PromiseRowOk(p, after.promises[p]) && KeyOk(p, after.promises[p])
    && after.promises[p].state == Pending && after.promises[p].root == Some(GraphOf(db, id))
    && (after.promises[p].expiresAt.Some? <==> p in after.tasks)
    && (p in after.tasks ==>
          && TaskRowOk(after.tasks[p]) && TaskMatches(after.promises[p], after.tasks[p])
          && after.tasks[p].pendingWaits == 0 && after.tasks[p].failures == 0)
  }

  /** An overlay stays well formed when the rows added to it are. */
  lemma OverlayGrows(db: Db, id: Id, o: Overlay, after: Db)
    requires TasksHavePromises(db) && OverlayOk(db, id, o) && KeepsRows(View(db, o), after)
    requires forall t :: t in after.tasks && t !in View(db, o).tasks ==>
               t in after.promises && t !in View(db, o).promises
    requires forall p :: p in after.promises && p !in db.promises && p !in o.promises ==> FreshRowOk(db, id, after, p)
    ensures OverlayOk(db, id, Delta(db, after)) && View(db, Delta(db, after)) == after
  {
    hide PromiseRowOk, KeyOk, TaskRowOk, TaskMatches;
    ViewKeepsRowsOf(db, id, o, after);
    DeltaGivesBack(db, after);
    forall p | p in after.promises && p !in db.promises ensures FreshRowOk(db, id, after, p) {
      if p in o.promises {
        KeptRowOk(db, id, o, after, p);
      }
    }
    DeltaOk(db, id, o, after);
  }

  lemma KeptRowOk(db: Db, id: Id, o: Overlay, after: Db, p: Id)
    requires TasksHavePromises(db) && OverlayOk(db, id, o) && KeepsRows(View(db, o), after) && p in o.promises
    requires forall t :: t in after.tasks && t !in View(db, o).tasks ==> t !in View(db, o).promises
    ensures p in after.promises && FreshRowOk(db, id, after, p)
  {
    hide PromiseRowOk, KeyOk, TaskRowOk, TaskMatches;
    assert View(db, o).promises[p] == o.promises[p];
    if p in o.tasks {
      assert View(db, o).tasks[p] == o.tasks[p];
    } else {
      assert p !in View(db, o).tasks;
    }
  }

  lemma DeltaOk(db: Db, id: Id, o: Overlay, after: Db)
    requires TasksHavePromises(db) && id in db.promises && OverlayOk(db, id, o)
    requires forall t :: t in after.tasks && t !in View(db, o).tasks ==>
               t in after.promises && t !in View(db, o).promises
    requires forall t :: t in o.tasks ==> t in after.promises
    requires forall p :: p in after.promises && p !in db.promises ==> FreshRowOk(db, id, after, p)
    ensures OverlayOk(db, id, Delta(db, after))
  {
    hide PromiseRowOk, KeyOk, TaskRowOk, TaskMatches;
    var delta := Delta(db, after);
    forall t | t in delta.tasks ensures t in delta.promises && FreshRowOk(db, id, after, t) {
      assert t in View(db, o).tasks ==> t in o.tasks;
      assert t in o.tasks ==> t in o.promises;
      assert t !in View(db, o).promises ==> t !in db.promises;
    }
    forall p | p in delta.promises ensures p !in db.promises && FreshRowOk(db, id, after, p) {
    }
    forall p | p in delta.promises && p in after.tasks ensures p in delta.tasks {
    }
  }

  lemma WriteTimerKeepsOverlay(db: Db, id: Id, o: Overlay, t: SubmitTimer)
    requires Inv(db) && OverlayOk(db, id, o) && ValidTimer(t) && t.root == Some(GraphOf(db, id))
    ensures var after := SubmitTimerRow(View(db, o), t).db;
            OverlayOk(db, id, Delta(db, after)) && View(db, Delta(db, after)) == after
  {
    hide TimerPromise, PromiseRowOk, KeyOk, TaskRowOk, TaskMatches, SubmitTimerRow, CountersExact, ValidTimer,
         RowsOk, WaitsOk, CallsHaveTasks, RootsPresent;
    var view := View(db, o);
    var after := SubmitTimerRow(view, t).db;
    ViewKeepsTasks(db, id, o);
    SubmitTimerKeepsRows(view, t);
    if t.id !in view.promises {
      TimerPromiseOk(t);
    }
    OverlayGrows(db, id, o, after);
  }

  // ---------------------------------------------------------------- every step keeps the invariant

  /** Claims whose rows are untouched, and whose uncommitted ids stay free, survive. */
  lemma ClaimsSurvive(s: System, after: Db, left: map<Id, Overlay>)
    requires SysInv(s) && Inv(after)
    requires forall c :: c in left ==> c in s.claims && left[c] == s.claims[c] && Frozen(s.db, after, c)
    requires forall c, p :: c in left && p in left[c].promises ==> p !in after.promises
    ensures SysInv(System(after, left))
  {
    hide Inv, ClaimOk, OverlayOk, Frozen;
    forall c | c in left ensures ClaimOk(after, c) && OverlayOk(after, c, left[c]) {
      FrozenKeepsClaim(s.db, after, c, left[c]);
    }
  }

  /** A claim that has just written keeps the invariant when its new ids were free. */
  lemma OverlayChanges(s: System, id: Id, o: Overlay)
    requires SysInv(s) && id in s.claims && OverlayOk(s.db, id, o)
    requires forall p :: p in o.promises && p !in s.claims[id].promises ==> !Reserved(s, Some(id), p)
    ensures SysInv(s.(claims := s.claims[id := o]))
  {
    hide Inv, ClaimOk, OverlayOk;
  }

  lemma SubmitStep(s: System, calls: seq<SubmitCall>)
    requires SysInv(s) && Enabled(s, Submit(calls))
    ensures SysInv(Do(s, Submit(calls)))
    ensures forall c :: c in s.claims ==> Frozen(s.db, Do(s, Submit(calls)).db, c)
  {
    hide CallPromise, CallTask, SubmitCalls, ValidCall, CountersExact, RootsPresent, RowsOk, WaitsOk, CallsHaveTasks,
         OverlayOk, TaskRowOk, TaskMatches;
    var after := SubmitCalls(s.db, calls).db;
    SubmitCallsKeepsInv(s.db, calls);
    SubmitKeepsRows(s.db, calls);
    OverlayIdsFree(s);
    ClaimsSurvive(s, after, s.claims);
  }

  lemma OverlayIdsFree(s: System)
    requires ClaimsOk(s)
    ensures forall c, p :: c in s.claims && p in s.claims[c].promises ==> p !in s.db.promises
  {
  }

  lemma TimerStep(s: System, t: SubmitTimer)
    requires SysInv(s) && Enabled(s, Timer(t))
    ensures SysInv(Do(s, Timer(t)))
    ensures forall c :: c in s.claims ==> Frozen(s.db, Do(s, Timer(t)).db, c)
  {
    hide TimerPromise, SubmitTimerRow, ValidTimer, Inv, OverlayOk;
    var after := SubmitTimerRow(s.db, t).db;
    SubmitTimerKeepsInv(s.db, t);
    SubmitTimerKeepsRows(s.db, t);
    OverlayIdsFree(s);
    ClaimsSurvive(s, after, s.claims);
  }

  lemma ClaimStep(s: System, id: Id, now: int)
    requires SysInv(s) && Enabled(s, Claim(id, now))
    ensures SysInv(Do(s, Claim(id, now)))
  {
    hide Inv;
  }

  lemma WriteCallsStep(s: System, id: Id, calls: seq<SubmitCall>)
    requires SysInv(s) && Enabled(s, WriteCalls(id, calls))
    ensures SysInv(Do(s, WriteCalls(id, calls)))
  {
    hide Inv, OverlayOk, ClaimOk, OverlaysApart, CallPromise, CallTask, SubmitCalls, ValidCall;
    var o := s.claims[id];
    var view := View(s.db, o);
    ViewKeepsInv(s.db, id, o);
    InvHasPromises(view);
    WriteKeepsOverlay(s.db, id, o, calls);
    SubmitKeepsRows(view, calls);
    OverlayChanges(s, id, Delta(s.db, SubmitCalls(view, calls).db));
  }

  lemma InvHasPromises(db: Db)
    requires Inv(db)
    ensures TasksHavePromises(db)
  {
    hide CountersExact, RowsOk, WaitsOk, CallsHaveTasks, RootsPresent;
  }

  lemma WriteTimerStep(s: System, id: Id, t: SubmitTimer)
    requires SysInv(s) && Enabled(s, WriteTimer(id, t))
    ensures SysInv(Do(s, WriteTimer(id, t)))
  {
    hide Inv, OverlayOk, ClaimOk, OverlaysApart, TimerPromise, SubmitTimerRow, ValidTimer;
    var o := s.claims[id];
    WriteTimerKeepsOverlay(s.db, id, o, t);
    SubmitTimerKeepsRows(View(s.db, o), t);
    OverlayChanges(s, id, Delta(s.db, SubmitTimerRow(View(s.db, o), t).db));
  }

  lemma FinishKeepsInv(view: Db, id: Id, finish: Finish, now: int)
    requires Inv(view) && ClaimOk(view, id) && ValidFinish(id, finish) && Finishing(view, id, finish, now).Ok?
    ensures Inv(Finishing(view, id, finish, now).value)
  {
    hide Inv, ValidSuspend, Suspend, Settle, Retry;
    match finish
    case Settled(outcome) => SettleKeepsInv(view, id, outcome, now);
    case Failed(error, delayMs) => RetryKeepsInv(view, id, error, delayMs, now);
    case Suspended(awaited) => SuspendKeepsInv(view, id, awaited, now);
  }

  lemma CommitStep(s: System, id: Id, finish: Finish, now: int)
    requires SysInv(s) && Enabled(s, Commit(id, finish, now))
    ensures SysInv(Do(s, Commit(id, finish, now)))
    ensures forall c :: c in s.claims && c != id ==> Frozen(s.db, Do(s, Commit(id, finish, now)).db, c)
  {
    hide Inv, OverlayOk, ClaimOk, Finishing, ValidFinish;
    var o := s.claims[id];
    var view := View(s.db, o);
    var after := Finishing(view, id, finish, now).value;
    var left := s.claims - {id};
    ViewKeepsInv(s.db, id, o);
    ViewFreezes(s.db, id, o, id);
    FinishKeepsInv(view, id, finish, now);
    forall c | c in left ensures Frozen(s.db, after, c) && after.promises.Keys == view.promises.Keys {
      ViewFreezes(s.db, id, o, c);
      FinishFreezes(view, id, finish, now, c);
    }
    OverlayIdsFree(s);
    ClaimsSurvive(s, after, left);
  }

  lemma RollbackStep(s: System, id: Id)
    requires SysInv(s) && id in s.claims
    ensures SysInv(Do(s, Rollback(id)))
  {
    hide Inv, OverlayOk, ClaimOk;
  }

  lemma MaintainStep(s: System, timers: set<Id>, timeouts: set<Id>, kept: set<Id>, now: int)
    requires SysInv(s) && Enabled(s, Maintain(timers, timeouts, kept, now))
    ensures SysInv(Do(s, Maintain(timers, timeouts, kept, now)))
    ensures forall c :: c in s.claims ==> Frozen(s.db, Do(s, Maintain(timers, timeouts, kept, now)).db, c)
  {
    hide Inv, OverlayOk, ClaimOk, ProcessDue, DueBatch, Frozen;
    var after := ProcessDue(s.db, timers, timeouts, kept, now);
    ProcessDueKeepsInv(s.db, timers, timeouts, kept, now);
    forall c | c in s.claims ensures Frozen(s.db, after, c) && after.promises.Keys == s.db.promises.Keys {
      MaintainFreezes(s, timers, timeouts, kept, now, c);
    }
    OverlayIdsFree(s);
    ClaimsSurvive(s, after, s.claims);
  }

  lemma CollectStep(s: System, doomed: set<Id>, before: int)
    requires SysInv(s) && Enabled(s, Collect(doomed, before))
    ensures SysInv(Do(s, Collect(doomed, before)))
    ensures forall c :: c in s.claims ==> Frozen(s.db, Do(s, Collect(doomed, before)).db, c)
  {
    hide Inv, OverlayOk, ClaimOk, DeleteExpired, Doomed, Frozen;
    var after := DeleteExpired(s.db, doomed);
    DeleteExpiredKeepsInv(s.db, doomed, before);
    forall c | c in s.claims ensures Frozen(s.db, after, c) && after.promises.Keys <= s.db.promises.Keys {
      CollectFreezes(s.db, doomed, before, c);
    }
    OverlayIdsFree(s);
    ClaimsSurvive(s, after, s.claims);
  }

  lemma StepKeepsSysInv(s: System, step: Step)
    requires SysInv(s) && Enabled(s, step)
    ensures SysInv(Do(s, step))
  {
    hide SysInv, Enabled, Do;
    match step
    case Submit(calls) => SubmitStep(s, calls);
    case Timer(timer) => TimerStep(s, timer);
    case Claim(id, now) => ClaimStep(s, id, now);
    case WriteCalls(id, calls) => WriteCallsStep(s, id, calls);
    case WriteTimer(id, timer) => WriteTimerStep(s, id, timer);
    case Commit(id, finish, now) => CommitStep(s, id, finish, now);
    case Rollback(id) => RollbackIsEnabled(s, id); RollbackStep(s, id);
    case Maintain(timers, timeouts, kept, now) => MaintainStep(s, timers, timeouts, kept, now);
    case Collect(doomed, before) => CollectStep(s, doomed, before);
  }

  lemma RollbackIsEnabled(s: System, id: Id)
    ensures Enabled(s, Rollback(id)) <==> id in s.claims
  {
  }

  /** In every reachable state of the store and its workers the invariant holds: in particular
      every task's counter is exactly the number of its awaited promises that are pending, and a
      claimed task awaits nothing. */
  lemma {:induction false} RunKeepsSysInv(s: System, steps: seq<Step>)
    requires SysInv(s) && Legal(s, steps)
    ensures SysInv(Reach(s, steps))
    decreases |steps|
  {
    hide SysInv, Enabled, Do;
    if steps != [] {
      StepKeepsSysInv(s, steps[0]);
      RunKeepsSysInv(Do(s, steps[0]), steps[1..]);
    }
  }

  lemma InitialSysInv()
    ensures SysInv(INITIAL)
  {
    EmptyInv();
  }

  // ---------------------------------------------------------------- ownership

  /** While a task is claimed no step but its own commit changes its promise or its counter, and
      the claim ends exactly with its commit or its rollback. */
  lemma OwnedRowsAreFrozen(s: System, step: Step, c: Id)
    requires SysInv(s) && Enabled(s, step) && c in s.claims && !(step.Commit? && step.id == c)
    ensures Frozen(s.db, Do(s, step).db, c)
    ensures c in Do(s, step).claims <==> step != Rollback(c)
  {
    hide Inv, OverlayOk, Finishing;
    match step
    case Submit(calls) => SubmitStep(s, calls);
    case Timer(timer) => TimerStep(s, timer);
    case Commit(id, finish, now) => CommitStep(s, id, finish, now);
    case Maintain(timers, timeouts, kept, now) => MaintainStep(s, timers, timeouts, kept, now);
    case Collect(doomed, before) => CollectStep(s, doomed, before);
    case _ =>
  }

  /** A claim commits at most one outcome: committing ends the claim, and everything else a claim
      does, its rollback included, leaves the committed store as it was. */
  lemma OneOutcomePerClaim(s: System, step: Step, c: Id)
    requires Enabled(s, step) && c in s.claims
    ensures step.Commit? && step.id == c ==> c !in Do(s, step).claims && !Enabled(Do(s, step), step)
    ensures step.Rollback? || step.WriteCalls? || step.WriteTimer? || step.Claim? ==> Do(s, step).db == s.db
  {
    hide Finishing, SubmitCalls, SubmitTimerRow;
  }

  /** A claim ended by rollback as if it had never been: claiming, writing any calls and rolling
      back gives the system back. */
  lemma RollbackUndoes(s: System, id: Id, now: int, calls: seq<SubmitCall>)
    requires Enabled(s, Claim(id, now)) && Enabled(Do(s, Claim(id, now)), WriteCalls(id, calls))
    ensures Do(Do(Do(s, Claim(id, now)), WriteCalls(id, calls)), Rollback(id)) == s
  {
    hide SubmitCalls, Delta;
    var end := Do(Do(Do(s, Claim(id, now)), WriteCalls(id, calls)), Rollback(id));
    assert end.claims == s.claims;
  }

  // ---------------------------------------------------------------- settle once

  ghost predicate KeepsTerminal(db: Db, after: Db) {
    forall p :: p in db.promises && db.promises[p].state != Pending ==>
      p in after.promises && after.promises[p] == db.promises[p]
  }

  lemma SettleRowsKeepsTerminal(db: Db, settled: map<Id, Promise>, removed: set<Id>, now: int)
    requires Settles(db, settled, removed)
    ensures KeepsTerminal(db, SettleRows(db, settled, removed, now))
  {
    hide PromiseRowOk, Woken, SettledFor;
  }

  lemma SettleOneKeepsTerminal(db: Db, id: Id, state: PromiseState, result: Option<Json>, error: Option<Json>, now: int)
    requires Settleable(db, id)
    ensures KeepsTerminal(db, SettleOne(db, id, state, result, error, now))
  {
    hide Woken, SettledFor;
  }

  lemma FinishKeepsTerminal(view: Db, id: Id, finish: Finish, now: int)
    requires Finishing(view, id, finish, now).Ok?
    ensures KeepsTerminal(view, Finishing(view, id, finish, now).value)
  {
    hide SettleOne, StillPending, NewEdges;
    match finish
    case Settled(Complete(result)) => SettleOneKeepsTerminal(view, id, Resolved, result, None, now);
    case Settled(Reject(error)) => SettleOneKeepsTerminal(view, id, Rejected, None, Some(error), now);
    case Failed(error, delayMs) =>
      if view.tasks[id].failures + 1 >= view.tasks[id].maxFailures {
        SettleOneKeepsTerminal(view, id, Rejected, None, Some(error), now);
      }
    case Suspended(awaited) =>
  }

  lemma ViewKeepsTerminal(db: Db, id: Id, o: Overlay)
    requires OverlayOk(db, id, o)
    ensures forall p :: p in db.promises ==> p in View(db, o).promises && View(db, o).promises[p] == db.promises[p]
  {
    hide PromiseRowOk, KeyOk, TaskRowOk, TaskMatches;
  }

  lemma OtherStepKeepsTerminal(s: System, step: Step)
    requires SysInv(s) && Enabled(s, step) && !step.Collect?
    ensures KeepsTerminal(s.db, Do(s, step).db)
  {
    hide Inv, OverlayOk, ClaimOk, Finishing, SubmitCalls, SubmitTimerRow, Settles, SettleRows, DueRows, ValidFinish,
         OverlaysApart, ValidCall, ValidTimer;
    match step
    case Submit(calls) => InvHasPromises(s.db); SubmitKeepsRows(s.db, calls);
    case Timer(timer) => SubmitTimerKeepsRows(s.db, timer);
    case Commit(id, finish, now) =>
      ViewKeepsTerminal(s.db, id, s.claims[id]);
      FinishKeepsTerminal(View(s.db, s.claims[id]), id, finish, now);
    case Maintain(timers, timeouts, kept, now) =>
      DueBatchSettles(s.db, timers, timeouts, kept, now);
      SettleRowsKeepsTerminal(s.db, DueRows(s.db, timers, timeouts, now), timeouts - kept, now);
    case _ =>
  }

  /** The state, value, error and time of a settled promise never change: a step either keeps the
      row or deletes the promise's whole graph. */
  lemma TerminalIsFinal(s: System, step: Step, p: Id)
    requires SysInv(s) && Enabled(s, step) && p in s.db.promises && s.db.promises[p].state != Pending
    ensures var after := Do(s, step).db;
            if step.Collect? && GraphOf(s.db, p) in step.doomed
            then forall q :: q in s.db.promises && GraphOf(s.db, q) == GraphOf(s.db, p) ==> q !in after.promises
            else p in after.promises && after.promises[p] == s.db.promises[p]
  {
    hide Inv, OverlayOk, ClaimsOk, OverlaysApart, Finishing, SubmitCalls, SubmitTimerRow, ProcessDue, DeleteExpired,
         Doomed, ValidFinish, ValidCall, ValidTimer, DueBatch;
    if step.Collect? {
      DeleteExpiredTakesWholeGraphs(s.db, step.doomed, step.before);
    } else {
      OtherStepKeepsTerminal(s, step);
    }
  }

  ghost predicate Spares(steps: seq<Step>, graph: Id) {
    forall i :: 0 <= i < |steps| && steps[i].Collect? ==> graph !in steps[i].doomed
  }

  /** Over any run that does not collect its graph, a settled promise keeps its row. */
  lemma {:induction false} RunKeepsTerminal(s: System, steps: seq<Step>, p: Id)
    requires SysInv(s) && Legal(s, steps) && p in s.db.promises && s.db.promises[p].state != Pending
    requires Spares(steps, GraphOf(s.db, p))
    ensures p in Reach(s, steps).db.promises && Reach(s, steps).db.promises[p] == s.db.promises[p]
    decreases |steps|
  {
    hide SysInv, Enabled, Do;
    if steps != [] {
      TerminalIsFinal(s, steps[0], p);
      StepKeepsSysInv(s, steps[0]);
      assert Spares(steps[1..], GraphOf(s.db, p)) by {
        forall i | 0 <= i < |steps| - 1 ensures steps[1..][i] == steps[i + 1] {
        }
      }
      RunKeepsTerminal(Do(s, steps[0]), steps[1..], p);
    }
  }

  // ---------------------------------------------------------------- the retry budget

  /** A task row keeps its failures and its budget, and a new one starts at none. */
  ghost predicate KeepsFailures(db: Db, after: Db) {
    forall t :: t in after.tasks ==>
      if t in db.tasks
        then after.tasks[t].failures == db.tasks[t].failures && after.tasks[t].maxFailures == db.tasks[t].maxFailures
      else after.tasks[t].failures == 0
  }

  lemma SettleRowsKeepsFailures(db: Db, settled: map<Id, Promise>, removed: set<Id>, now: int)
    ensures KeepsFailures(db, SettleRows(db, settled, removed, now))
  {
    hide SettledFor;
  }

  lemma SubmitKeepsFailures(db: Db, calls: seq<SubmitCall>)
    requires TasksHavePromises(db)
    ensures KeepsFailures(db, SubmitCalls(db, calls).db)
  {
    hide SubmitCalls;
    SubmitKeepsRows(db, calls);
  }

  lemma FinishFailures(view: Db, id: Id, finish: Finish, now: int)
    requires Finishing(view, id, finish, now).Ok?
    ensures var after := Finishing(view, id, finish, now).value;
            && (finish.Failed? && id in after.tasks ==>
                  id in view.tasks && after.tasks[id].failures == view.tasks[id].failures + 1)
            && (forall t :: t in after.tasks && !(finish.Failed? && t == id) ==>
                  t in view.tasks && after.tasks[t].failures == view.tasks[t].failures)
  {
    hide StillPending, NewEdges, SettledFor;
  }

  lemma ViewFailures(db: Db, id: Id, o: Overlay)
    requires TasksHavePromises(db) && OverlayOk(db, id, o)
    ensures KeepsFailures(db, View(db, o))
  {
    hide PromiseRowOk, KeyOk, TaskRowOk, TaskMatches;
  }

  function FailuresIn(db: Db, id: Id): int {
    if id in db.tasks then db.tasks[id].failures else 0
  }

  predicate FailedAttempt(step: Step, id: Id) {
    step.Commit? && step.id == id && step.finish.Failed?
  }

  /** One step adds one failure to a task exactly when it commits a failed attempt of it that does
      not reject it: suspensions, rollbacks and everything else consume no attempt. */
  lemma StepFailures(s: System, step: Step, id: Id)
    requires SysInv(s) && Enabled(s, step) && id in Do(s, step).db.tasks
    ensures FailuresIn(Do(s, step).db, id) == FailuresIn(s.db, id) + (if FailedAttempt(step, id) then 1 else 0)
  {
    hide Inv, OverlayOk, ClaimOk, Finishing, SubmitCalls, SubmitTimerRow, SettleRows, DueRows, ValidFinish,
         OverlaysApart, ValidCall, ValidTimer, Doomed;
    InvHasPromises(s.db);
    match step
    case Submit(calls) => SubmitKeepsFailures(s.db, calls);
    case Timer(timer) => SubmitTimerKeepsRows(s.db, timer);
    case Commit(c, finish, now) =>
      ViewFailures(s.db, c, s.claims[c]);
      FinishFailures(View(s.db, s.claims[c]), c, finish, now);
    case Maintain(timers, timeouts, kept, now) =>
      SettleRowsKeepsFailures(s.db, DueRows(s.db, timers, timeouts, now), timeouts - kept, now);
    case Collect(doomed, before) =>
    case _ =>
  }

  /** The failed attempts of a task that a run commits without rejecting it, counted since its row
      was last created. */
  function FailedAttempts(s: System, steps: seq<Step>, id: Id, count: nat): nat
    requires Legal(s, steps)
    decreases |steps|
  {
    if steps == [] then count
    else
      var next := Do(s, steps[0]);
      FailedAttempts(next, steps[1..], id,
                     if id !in next.db.tasks then 0 else count + (if FailedAttempt(steps[0], id) then 1 else 0))
  }

  /** Over every run a task's failures are its committed attempts that failed without rejecting
      it, and they stay below its budget. */
  lemma {:induction false} RunFailures(s: System, steps: seq<Step>, id: Id, count: nat)
    requires SysInv(s) && Legal(s, steps) && FailuresIn(s.db, id) == count
    ensures FailuresIn(Reach(s, steps).db, id) == FailedAttempts(s, steps, id, count)
    ensures id in Reach(s, steps).db.tasks ==>
              FailedAttempts(s, steps, id, count) < Reach(s, steps).db.tasks[id].maxFailures
    decreases |steps|
  {
    hide SysInv, Enabled, Do;
    if steps == [] {
      BudgetLeft(s, id);
    } else {
      var next := Do(s, steps[0]);
      StepKeepsSysInv(s, steps[0]);
      if id in next.db.tasks {
        StepFailures(s, steps[0], id);
      }
      RunFailures(next, steps[1..], id,
                  if id !in next.db.tasks then 0 else count + (if FailedAttempt(steps[0], id) then 1 else 0));
    }
  }

  lemma BudgetLeft(s: System, id: Id)
    requires SysInv(s)
    ensures id in s.db.tasks ==> s.db.tasks[id].failures < s.db.tasks[id].maxFailures
  {
    hide ClaimsOk, OverlaysApart, CountersExact, RowsOk, WaitsOk, CallsHaveTasks, RootsPresent;
  }

  // ---------------------------------------------------------------- no stuck graph

  /** Tasks await only promises with longer ids, as a child's id is its parent's id extended. */
  ghost predicate Deepens(db: Db) {
    forall e :: e in db.waits ==> |e.waiter| < |e.awaited|
  }

  predicate AwaitsChildren(step: Step) {
    step.Commit? && step.finish.Suspended? ==> forall a :: a in step.finish.awaited ==> |step.id| < |a|
  }

  lemma StepDeepens(s: System, step: Step)
    requires Deepens(s.db) && Enabled(s, step) && AwaitsChildren(step)
    ensures Deepens(Do(s, step).db)
  {
    hide DueBatch, Doomed, StillPending, Woken, SettledFor, DueRows, ValidSuspend, ValidCall, ValidTimer, RootsPresent,
         FirstConflict, Claimable, InsertCalls;
    match step
    case Submit(calls) => SubmitWaits(s.db, calls);
    case Commit(id, finish, now) =>
      hide SettleRows;
      FinishWaits(View(s.db, s.claims[id]), id, finish, now);
    case _ =>
  }

  lemma SubmitWaits(db: Db, calls: seq<SubmitCall>)
    ensures SubmitCalls(db, calls).db.waits == db.waits
  {
    hide RootsPresent, FirstConflict;
    SubmittedStore(db, calls);
    InsertsWaits(db, calls);
  }

  lemma {:induction false} InsertsWaits(db: Db, calls: seq<SubmitCall>)
    ensures InsertCalls(db, calls).waits == db.waits
    decreases |calls|
  {
    if calls != [] {
      InsertsWaits(InsertCall(db, calls[0]), calls[1..]);
    }
  }

  lemma FinishWaits(view: Db, id: Id, finish: Finish, now: int)
    requires Finishing(view, id, finish, now).Ok?
    ensures forall e :: e in Finishing(view, id, finish, now).value.waits ==>
              e in view.waits || (finish.Suspended? && e.waiter == id && e.awaited in finish.awaited)
  {
    hide StillPending, Woken, SettledFor, ValidSuspend;
  }

  /** A promise that can make progress on its own: a timer, or a call whose task awaits nothing
      and so is claimed or claimable. */
  predicate Movable(db: Db, id: Id) {
    && id in db.promises && db.promises[id].state == Pending
    && (db.promises[id].dueAt.Some? || (id in db.tasks && db.tasks[id].pendingWaits == 0))
  }

  function Longer(db: Db, id: Id): set<Id> {
    set p | p in db.promises && |p| > |id|
  }

  lemma SomethingAwaited(db: Db, id: Id)
    requires Inv(db) && id in db.promises && db.promises[id].state == Pending && !Movable(db, id)
    ensures exists a :: a in PendingAwaits(db, id) && GraphOf(db, a) == GraphOf(db, id)
  {
    hide RootsPresent, TaskRowOk, TaskMatches, KeyOk;
    assert PromiseRowOk(id, db.promises[id]);
    assert id in db.tasks && TaskRowOk(db.tasks[id]);
    TaskRow(db, id);
    CounterOf(db, id);
    assert PendingAwaits(db, id) != {} by {
      PositiveSet(PendingAwaits(db, id), db.tasks[id].pendingWaits);
      CounterPositive(db, id);
    }
    var a :| a in PendingAwaits(db, id);
    assert Edge(id, a) in db.waits;
  }

  lemma CounterPositive(db: Db, id: Id)
    requires Inv(db) && id in db.tasks
    ensures db.tasks[id].pendingWaits >= 0
  {
    hide CountersExact, RowsOk, WaitsOk, CallsHaveTasks, RootsPresent;
  }

  lemma CounterOf(db: Db, id: Id)
    requires CountersExact(db) && id in db.tasks
    ensures db.tasks[id].pendingWaits == |PendingAwaits(db, id)|
  {
  }

  lemma PositiveSet(a: set<Id>, n: int)
    requires |a| == n
    ensures n == 0 <==> a == {}
  {
  }

  /** No graph gets stuck: below every pending promise there is, in the same graph, a pending timer
      or a pending call whose task awaits nothing. */
  lemma {:induction false} NothingIsStuck(db: Db, id: Id)
    requires Inv(db) && Deepens(db) && id in db.promises && db.promises[id].state == Pending
    ensures exists q :: Movable(db, q) && GraphOf(db, q) == GraphOf(db, id)
    decreases |Longer(db, id)|
  {
    hide Inv, Movable;
    if Movable(db, id) {
    } else {
      SomethingAwaited(db, id);
      var a :| a in PendingAwaits(db, id) && GraphOf(db, a) == GraphOf(db, id);
      assert Edge(id, a) in db.waits;
      SubsetSize(Longer(db, a), Longer(db, id) - {a});
      SubsetSize({a}, Longer(db, id));
      NothingIsStuck(db, a);
    }
  }

  predicate AllAwaitChildren(steps: seq<Step>) {
    forall i :: 0 <= i < |steps| ==> AwaitsChildren(steps[i])
  }

  /** In every run whose tasks await only their own children, no graph is ever stuck. */
  lemma {:induction false} RunIsNeverStuck(s: System, steps: seq<Step>, id: Id)
    requires SysInv(s) && Deepens(s.db) && Legal(s, steps) && AllAwaitChildren(steps)
    requires id in Reach(s, steps).db.promises && Reach(s, steps).db.promises[id].state == Pending
    ensures exists q :: Movable(Reach(s, steps).db, q)
              && GraphOf(Reach(s, steps).db, q) == GraphOf(Reach(s, steps).db, id)
    decreases |steps|
  {
    hide Inv, ClaimsOk, OverlaysApart, Enabled, Do, AwaitsChildren, Movable, Deepens;
    if steps == [] {
      NothingIsStuck(s.db, id);
    } else {
      StepKeepsSysInv(s, steps[0]);
      StepDeepens(s, steps[0]);
      forall i | 0 <= i < |steps| - 1 ensures steps[1..][i] == steps[i + 1] {
      }
      RunIsNeverStuck(Do(s, steps[0]), steps[1..], id);
    }
  }
}
