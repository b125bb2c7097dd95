/** A sleep's timer is found again by every later attempt, unless a retry committed the timer
    without a wait on it. Then replay submits it anew and conflicts, as `LostTimerStays` shows. */
module LostTimer {
  import opened Wrappers
  import opened Store
  import opened StoreLaws
  import opened StoreRuns
  import opened StoreSafety
  import opened Programs
  import opened PromiseIds
  import opened Workflow
  import opened Issuing
  import opened WorkflowLaws
  import opened AttemptBound
  import opened Replay

  // ---------------------------------------------------------------- the invariant

  /** A pending task's own timer is in the store. */
  ghost predicate OwnTimer(lib: Library, db: Db, c: Id, q: Id) {
    && c in db.tasks && IsCall(db, c) && db.promises[c].state == Pending
    && q in db.promises && db.promises[q].key.TimerKey? && IssuedBy(lib, ParentOf(db, c), q, db.promises[q].key)
  }

  /** Every timer of a task's own is awaited by it while it is pending. */
  ghost predicate TimersAwaited(lib: Library, db: Db, c: Id) {
    forall q :: OwnTimer(lib, db, c, q) ==> Edge(c, q) in db.waits
  }

  /** An attempt remembers everything its task awaits. */
  ghost predicate MemoCovers(db: Db, c: Id, memo: map<Id, Promise>) {
    forall e :: e in db.waits && e.waiter == c ==> e.awaited in memo
  }

  /** A timer an attempt has just written is what it suspends on, unless it was interrupted. */
  ghost predicate OverlayTimers(o: Overlay, a: Attempt) {
    forall q :: q in o.promises && o.promises[q].key.TimerKey? ==> MayHold(a.status, q)
  }

  predicate MayHold(status: Status, q: Id) {
    match status
    case Running => false
    case Suspending(awaited) => q in awaited
    case Returning(_) => false
    case _ => true
  }

  ghost predicate TimerInv(lib: Library, w: World, c: Id) {
    && TimersAwaited(lib, w.sys.db, c)
    && (c in w.attempts ==>
          && c in w.sys.claims && MemoCovers(w.sys.db, c, w.attempts[c].memo)
          && OverlayTimers(w.sys.claims[c], w.attempts[c]))
  }

  /** The step does not commit a retry of this task in whose transaction a timer was written. */
  predicate KeepsTimers(w: World, step: WorldStep, c: Id) {
    step.Finish? && step.id == c && c in w.attempts && c in w.sys.claims
    && w.attempts[c].status.Retrying? ==>
      forall q :: q in w.sys.claims[c].promises ==> !w.sys.claims[c].promises[q].key.TimerKey?
  }

  predicate RunKeepsTimers(lib: Library, w: World, steps: seq<WorldStep>, c: Id)
    requires WorldLegal(lib, w, steps)
    decreases |steps|
  {
    steps == [] || (KeepsTimers(w, steps[0], c) && RunKeepsTimers(lib, WorldDo(lib, w, steps[0]), steps[1..], c))
  }

  // ---------------------------------------------------------------- timers stay awaited

  /** A call that a step leaves pending was there, pending and with its row, if one of its children was. */
  lemma OwnerWasThere(lib: Library, s: System, step: Step, c: Id, q: Id)
    requires NamesOk(lib) && SysInv(s) && Enabled(s, step) && OwnsChildren(lib, s.db, c) && SysInv(Do(s, step))
    requires q in s.db.promises && OwnTimer(lib, Do(s, step).db, c, q)
    ensures OwnTimer(lib, s.db, c, q)
  {
    hide NamesOk, Inv, ClaimsOk, OverlaysApart, Enabled, Do, IssuedBy, ParentOf, Kept, ChildOf;
    var after := Do(s, step).db;
    IssuedIsChildOf(lib, ParentOf(after, c), q, after.promises[q].key);
    ParentId(after, c);
    assert IssuerOf(lib, s.db, c, q);
    CalledIsPromise(s.db, c);
    if step.Collect? {
      CollectedGoes(s, step.doomed, step.before, q);
      SameGraph(lib, s.db, c, q);
    }
    StepKeeps(s, step, c);
    StepKeeps(s, step, q);
    KeptOwner(s.db, after, c, q);
    PendingCallHasTask(s.db, c);
  }

  lemma KeptOwner(db: Db, after: Db, c: Id, q: Id)
    requires IsCall(db, c) && Kept(db, after, c) && Kept(db, after, q) && after.promises[c].state == Pending
    ensures IsCall(after, c) && ParentOf(after, c) == ParentOf(db, c) && db.promises[c].state == Pending
    ensures after.promises[q].key == db.promises[q].key
  {
  }

  lemma OldTimerStaysAwaited(lib: Library, s: System, step: Step, c: Id, q: Id)
    requires NamesOk(lib) && SysInv(s) && Enabled(s, step) && OwnsChildren(lib, s.db, c)
    requires SysInv(Do(s, step)) && TimersAwaited(lib, s.db, c)
    requires q in s.db.promises && OwnTimer(lib, Do(s, step).db, c, q)
    ensures Edge(c, q) in Do(s, step).db.waits
  {
    hide NamesOk, SysInv, Enabled, Do, OwnsChildren;
    OwnerWasThere(lib, s, step, c, q);
    OwnedTask(lib, s.db, c, q);
    OwnedTask(lib, Do(s, step).db, c, q);
    WaitsStay(s, step, c);
  }

  lemma OwnedTask(lib: Library, db: Db, c: Id, q: Id)
    requires OwnTimer(lib, db, c, q)
    ensures c in db.tasks && IsCall(db, c) && q in db.promises
  {
  }

  /** A timer that a commit adds was written by the committing claim, whose task issues it. */
  lemma NewTimerOwner(lib: Library, w: World, step: Step, c: Id, q: Id)
    requires NamesOk(lib) && WorldInv(lib, w) && OverlaysIssued(lib, w)
    requires Enabled(w.sys, step) && step.Commit? && step.id in w.sys.claims
    requires q !in w.sys.db.promises && OwnTimer(lib, Do(w.sys, step).db, c, q)
    ensures c == step.id && q in w.sys.claims[c].promises && w.sys.claims[c].promises[q].key.TimerKey?
  {
    hide NamesOk, SysInv, Correct, EdgesIssued, AttemptsOk, OverlaysIssued, Do, Enabled, IssuedBy, ParentOf, IsCall,
         ChildOf;
    var after := Do(w.sys, step).db;
    SameAttempts(lib, w);
    PromiseIsNew(w.sys, step, q);
    IssuedIsChildOf(lib, ParentOf(after, c), q, after.promises[q].key);
    ParentId(after, c);
    CommittedChild(lib, w, step, c, q);
    OverlayKey(w.sys, step, q);
  }

  /** A timer that a commit adds is awaited if its task stays. */
  lemma NewTimerIsAwaited(lib: Library, w: World, id: Id, now: int, q: Id)
    requires TimerInv(lib, w, id) && id in w.attempts && id in w.sys.claims && !w.attempts[id].status.Running?
    requires KeepsTimers(w, Workflow.Finish(id, now), id)
             && Enabled(w.sys, Commit(id, Report(w.attempts[id].status), now))
    requires q in w.sys.claims[id].promises && w.sys.claims[id].promises[q].key.TimerKey?
    requires id in Do(w.sys, Commit(id, Report(w.attempts[id].status), now)).db.tasks
    ensures Edge(id, q) in Do(w.sys, Commit(id, Report(w.attempts[id].status), now)).db.waits
  {
    hide TimersAwaited, Do, Enabled, MemoCovers;
    assert MayHold(w.attempts[id].status, q);
    match w.attempts[id].status
    case Suspending(awaited) => SuspendAddsEdge(w.sys, id, awaited, now, q);
    case Raising(error) => SettledTaskGoes(w.sys, id, Reject(error), now);
    case _ =>
  }

  lemma OverlayKey(s: System, step: Step, q: Id)
    requires Enabled(s, step) && step.Commit? && q in s.claims[step.id].promises && q in Do(s, step).db.promises
    ensures Do(s, step).db.promises[q].key == s.claims[step.id].promises[q].key
  {
    hide Finishing, ValidFinish, View;
    var view := View(s.db, s.claims[step.id]);
    OwnRow(s, step.id, q);
    FinishKeeps(view, step.id, step.finish, step.now, q);
  }

  lemma SuspendAddsEdge(s: System, id: Id, awaited: seq<Id>, now: int, q: Id)
    requires Enabled(s, Commit(id, Suspended(awaited), now)) && q in awaited
    ensures Edge(id, q) in Do(s, Commit(id, Suspended(awaited), now)).db.waits
  {
    hide View, ValidSuspend, StillPending;
    assert Edge(id, q) in NewEdges(id, awaited);
  }

  lemma StepTimers(lib: Library, w: World, step: Step, c: Id)
    requires NamesOk(lib) && WorldInv(lib, w) && ChildrenInv(lib, w, c) && TimersAwaited(lib, w.sys.db, c)
    requires Enabled(w.sys, step) && (step.Commit? ==> step.id != c && step.id in w.sys.claims)
    requires step.Submit? || step.Timer? ==> LeavesChildren(Outside(step), c)
    ensures TimersAwaited(lib, Do(w.sys, step).db, c)
  {
    hide NamesOk, SysInv, Correct, EdgesIssued, AttemptsOk, TimersAwaited, Do, OwnTimer, ValidCall, ValidTimer, Doomed,
         DueBatch, OverlaysIssued, OwnsChildren, ChildOf, Finishing, ValidFinish;
    var after := Do(w.sys, step).db;
    StepKeepsSysInv(w.sys, step);
    forall q | OwnTimer(lib, after, c, q) ensures Edge(c, q) in after.waits {
      OwnedTask(lib, after, c, q);
      if q in w.sys.db.promises {
        OldTimerStaysAwaited(lib, w.sys, step, c, q);
      } else if step.Commit? {
        NewTimerOwner(lib, w, step, c, q);
      } else {
        PromiseIsNew(w.sys, step, q);
        TimerIsChild(lib, after, c, q);
      }
    }
    AllAwaited(lib, after, c);
  }

  lemma AllAwaited(lib: Library, db: Db, c: Id)
    requires forall q :: OwnTimer(lib, db, c, q) ==> Edge(c, q) in db.waits
    ensures TimersAwaited(lib, db, c)
  {
    hide OwnTimer;
  }

  lemma TimerIsChild(lib: Library, db: Db, c: Id, q: Id)
    requires NamesOk(lib) && OwnTimer(lib, db, c, q)
    ensures ChildOf(c, q)
  {
    hide NamesOk, IssuedBy, ChildOf;
    IssuedIsChildOf(lib, ParentOf(db, c), q, db.promises[q].key);
  }

  lemma FinishTimers(lib: Library, w: World, id: Id, now: int)
    requires NamesOk(lib) && WorldInv(lib, w) && ChildrenInv(lib, w, id) && TimerInv(lib, w, id)
    requires id in w.attempts && id in w.sys.claims && !w.attempts[id].status.Running?
    requires KeepsTimers(w, Workflow.Finish(id, now), id)
             && Enabled(w.sys, Commit(id, Report(w.attempts[id].status), now))
    ensures TimersAwaited(lib, Do(w.sys, Commit(id, Report(w.attempts[id].status), now)).db, id)
  {
    hide NamesOk, SysInv, Correct, EdgesIssued, AttemptsOk, TimersAwaited, Do, OwnTimer, Enabled, OverlaysIssued,
         OwnsChildren, MemoCovers, OverlayTimers, Report, KeepsTimers;
    var step := Commit(id, Report(w.attempts[id].status), now);
    var after := Do(w.sys, step).db;
    StepKeepsSysInv(w.sys, step);
    forall q | OwnTimer(lib, after, id, q) ensures Edge(id, q) in after.waits {
      OwnedTask(lib, after, id, q);
      if q in w.sys.db.promises {
        OldTimerStaysAwaited(lib, w.sys, step, id, q);
      } else {
        NewTimerOwner(lib, w, step, id, q);
        NewTimerIsAwaited(lib, w, id, now, q);
      }
    }
    AllAwaited(lib, after, id);
  }

  // ---------------------------------------------------------------- attempts remember what they await

  /** No other step adds a wait to a claimed task. */
  lemma NoNewWaits(s: System, step: Step, c: Id)
    requires SysInv(s) && Enabled(s, step) && c in s.claims && !(step.Commit? && step.id == c)
    ensures forall e :: e in Do(s, step).db.waits && e.waiter == c ==> e in s.db.waits
  {
    hide SysInv, Finishing, ValidFinish, SubmitCalls, SubmitTimerRow, ProcessDue, DeleteExpired, View, DueBatch, Doomed,
         ValidCall, ValidTimer;
    if step.Commit? {
      FinishWaits(View(s.db, s.claims[step.id]), step.id, step.finish, step.now);
      ViewWaits(s, step.id);
    } else {
      OldWaits(s, step);
    }
  }

  lemma MemoStillCovers(s: System, step: Step, c: Id, memo: map<Id, Promise>)
    requires SysInv(s) && Enabled(s, step) && c in s.claims && !(step.Commit? && step.id == c)
             && MemoCovers(s.db, c, memo)
    ensures MemoCovers(Do(s, step).db, c, memo)
  {
    hide SysInv, Enabled, Do;
    NoNewWaits(s, step, c);
  }

  lemma {:induction false} RememberGrows(memo: map<Id, Promise>, ids: seq<Id>, rows: seq<Promise>)
    requires |ids| == |rows|
    ensures memo.Keys <= Remember(memo, ids, rows).Keys
    decreases |ids|
  {
    if ids != [] {
      RememberGrows(memo[ids[0] := rows[0]], ids[1..], rows[1..]);
    }
  }

  lemma MemoGrows(lib: Library, view: Db, p: Parent, a: Attempt, now: int, retentionMs: int, flushed: set<nat>)
    ensures a.memo.Keys <= AdvanceAttempt(lib, view, p, a, now, retentionMs, flushed).attempt.memo.Keys
  {
    hide SubmitCalls, SubmitTimerRow, FreshCalls, GroupRefused, AllThere, ValidTimer, PendingIds;
    match lib(p.work, a.history)
    case Gather(calls) =>
      var submitted := SubmitCalls(view, FreshCalls(p, a, calls, 0, now, retentionMs, flushed));
      if AllThere(p, a, submitted.db, calls) {
        RememberGrows(a.memo, GroupIds(p, a, calls), GroupRows(p, a, submitted.db, calls));
      }
    case _ =>
  }

  /** The timers in a transaction after its attempt has moved: none, or the one it suspends on. */
  lemma GatherWritesNoTimer(lib: Library, view: Db, p: Parent, a: Attempt, calls: seq<Call>, now: int, retentionMs: int,
                            flushed: set<nat>, q: Id)
    requires Inv(view)
    requires var after := SubmitCalls(view, FreshCalls(p, a, calls, 0, now, retentionMs, flushed)).db;
             q in after.promises && q !in view.promises
    ensures SubmitCalls(view, FreshCalls(p, a, calls, 0, now, retentionMs, flushed)).db.promises[q].key.CallKey?
  {
    hide Inv, SubmitCalls, FreshCalls;
    InvHasPromises(view);
    SubmitKeepsRows(view, FreshCalls(p, a, calls, 0, now, retentionMs, flushed));
  }

  lemma SleepSuspendsOnNewTimer(view: Db, p: Parent, a: Attempt, delayMs: int, now: int, retentionMs: int, q: Id)
    requires delayMs > 0 && AdvanceSleep(view, p, a, delayMs, now, retentionMs).step.Some?
    requires var after := SubmitTimerRow(view, ChildTimer(p, a.callIndex, delayMs, now, retentionMs)).db;
             q in after.promises && q !in view.promises
    ensures AdvanceSleep(view, p, a, delayMs, now, retentionMs).attempt.status == Suspending([q])
  {
    hide RootsPresent, TimerId, ValidTimer;
  }

  /** Every timer an attempt's statement adds is what the attempt then suspends on. */
  lemma AdvanceTimers(lib: Library, view: Db, p: Parent, a: Attempt, now: int, retentionMs: int, flushed: set<nat>,
                      q: Id)
    requires Inv(view) && q !in view.promises
    ensures var moved := AdvanceAttempt(lib, view, p, a, now, retentionMs, flushed);
            match moved.step
            case None => true
            case Some(WriteCalls(id, calls)) =>
              var after := SubmitCalls(view, calls).db; q in after.promises ==> after.promises[q].key.CallKey?
            case Some(WriteTimer(id, timer)) =>
              var after := SubmitTimerRow(view, timer).db;
              q in after.promises ==> moved.attempt.status == Suspending([q])
            case Some(_) => false
  {
    hide Inv, SubmitCalls, SubmitTimerRow, FreshCalls, AfterGroup, AfterTimer, AllThere, GroupRefused, ChildTimer,
         ValidTimer, TimerId;
    match lib(p.work, a.history)
    case Gather(calls) =>
      if q in SubmitCalls(view, FreshCalls(p, a, calls, 0, now, retentionMs, flushed)).db.promises {
        GatherWritesNoTimer(lib, view, p, a, calls, now, retentionMs, flushed, q);
      }
    case Sleep(delayMs) =>
      if delayMs > 0 && AdvanceSleep(view, p, a, delayMs, now, retentionMs).step.Some?
         && q in SubmitTimerRow(view, ChildTimer(p, a.callIndex, delayMs, now, retentionMs)).db.promises {
        SleepSuspendsOnNewTimer(view, p, a, delayMs, now, retentionMs, q);
      }
    case _ =>
  }

  /** What is in a transaction after its statement: its earlier rows, and rows its view did not have. */
  lemma OwnOverlay(lib: Library, w: World, step: Step, id: Id, q: Id)
    requires WorldInv(lib, w) && Enabled(w.sys, step) && id in w.sys.claims
    requires (step.WriteCalls? || step.WriteTimer?) && step.id == id
    requires id in Do(w.sys, step).claims && q in Do(w.sys, step).claims[id].promises
    ensures q in View(w.sys.db, Do(w.sys, step).claims[id]).promises
    ensures View(w.sys.db, Do(w.sys, step).claims[id]).promises[q] == Do(w.sys, step).claims[id].promises[q]
    ensures q in Inside(w, id).promises ==>
              q in w.sys.claims[id].promises && Do(w.sys, step).claims[id].promises[q] == w.sys.claims[id].promises[q]
  {
    hide Inv, Correct, EdgesIssued, AttemptsOk, OverlaysApart, ClaimOk, SubmitCalls, SubmitTimerRow, ValidCall,
         ValidTimer, PromiseRowOk, TaskRowOk, TaskMatches, KeyOk, CallPromise, CallTask, TimerPromise;
    var o := w.sys.claims[id];
    var view := View(w.sys.db, o);
    assert OverlayOk(w.sys.db, id, o);
    ViewRows(w.sys, id);
    InvHasPromises(view);
    if step.WriteCalls? {
      SubmitKeepsRows(view, step.calls);
    } else {
      SubmitTimerKeepsRows(view, step.timer);
    }
  }

  lemma AdvanceOverlay(lib: Library, w: World, id: Id, now: int, retentionMs: int, flushed: set<nat>, step: Step)
    requires WorldInv(lib, w) && id in w.attempts && id in w.sys.claims && IsCall(w.sys.db, id)
             && w.attempts[id].status == Running
    requires OverlayTimers(w.sys.claims[id], w.attempts[id])
             && Moved(lib, w, id, now, retentionMs, flushed).step == Some(step)
    requires (step.WriteCalls? || step.WriteTimer?) && step.id == id && Enabled(w.sys, step)
             && id in Do(w.sys, step).claims
    ensures OverlayTimers(Do(w.sys, step).claims[id], Moved(lib, w, id, now, retentionMs, flushed).attempt)
  {
    hide WorldInv, IsCall, Do, Enabled, View, Inv, SubmitCalls, SubmitTimerRow, AdvanceAttempt, ParentOf;
    var view := Inside(w, id);
    var o := Do(w.sys, step).claims[id];
    var moved := Moved(lib, w, id, now, retentionMs, flushed);
    SameAttempts(lib, w);
    ViewRows(w.sys, id);
    OwnView(w.sys, step, id);
    forall q | q in o.promises && o.promises[q].key.TimerKey? ensures moved.attempt.status == Suspending([q]) {
      OwnOverlay(lib, w, step, id, q);
      assert q !in view.promises;
      AdvanceTimers(lib, view, ParentOf(w.sys.db, id), w.attempts[id], now, retentionMs, flushed, q);
    }
  }

  // ---------------------------------------------------------------- every step of the world

  /** A statement that is not this task's own commit keeps its attempt's memory. */
  lemma StatementTimers(lib: Library, w: World, step: Step, c: Id)
    requires WorldInv(lib, w) && TimerInv(lib, w, c) && Enabled(w.sys, step) && c in w.attempts
    requires !(step.Commit? && step.id == c)
    ensures MemoCovers(Do(w.sys, step).db, c, w.attempts[c].memo)
  {
    hide SysInv, Correct, EdgesIssued, AttemptsOk, TimersAwaited, Enabled, Do, MemoCovers, OverlayTimers;
    MemoStillCovers(w.sys, step, c, w.attempts[c].memo);
  }

  /** A statement of others, or from outside, keeps this task's timers found. */
  lemma OthersTimers(lib: Library, w: World, step: Step, c: Id, next: World)
    requires NamesOk(lib) && WorldInv(lib, w) && ChildrenInv(lib, w, c) && TimerInv(lib, w, c)
    requires Enabled(w.sys, step) && next.sys == Do(w.sys, step)
             && (step.Commit? ==> step.id != c && step.id in w.sys.claims)
    requires step.Submit? || step.Timer? ==> LeavesChildren(Outside(step), c)
    requires c in next.attempts ==>
               c in w.attempts && next.attempts[c] == w.attempts[c] && c in next.sys.claims
               && next.sys.claims[c] == w.sys.claims[c]
    ensures TimerInv(lib, next, c)
  {
    hide NamesOk, WorldInv, Do, Enabled, ChildrenInv, MemoCovers, OverlayTimers, TimersAwaited, LeavesChildren;
    StepTimers(lib, w, step, c);
    if c in next.attempts {
      StatementTimers(lib, w, step, c);
    }
  }

  lemma PreloadCovers(db: Db, id: Id)
    requires WaitsOk(db)
    ensures MemoCovers(db, id, Preload(db, id))
  {
  }

  lemma BeginTimers(lib: Library, w: World, id: Id, now: int)
    requires WorldInv(lib, w) && TimerInv(lib, w, id) && WorldEnabled(lib, w, Begin(id, now))
    ensures TimerInv(lib, WorldDo(lib, w, Begin(id, now)), id)
  {
    hide Inv, ClaimsOk, OverlaysApart, Correct, EdgesIssued, AttemptsOk, Do, Enabled, MemoCovers, TimersAwaited;
    OtherClaims(w.sys, Claim(id, now));
    NotClaimed(w.sys, id, now);
    InvRows(w.sys.db);
    PreloadCovers(w.sys.db, id);
  }

  lemma MoreCovers(db: Db, c: Id, memo: map<Id, Promise>, more: map<Id, Promise>)
    requires MemoCovers(db, c, memo) && memo.Keys <= more.Keys
    ensures MemoCovers(db, c, more)
  {
  }

  lemma StillTimers(lib: Library, view: Db, p: Parent, a: Attempt, now: int, retentionMs: int, flushed: set<nat>,
                    o: Overlay)
    requires OverlayTimers(o, a) && a.status == Running
    ensures OverlayTimers(o, AdvanceAttempt(lib, view, p, a, now, retentionMs, flushed).attempt)
  {
    hide AdvanceAttempt;
  }

  lemma AdvanceKeepsTimers(lib: Library, w: World, id: Id, now: int, retentionMs: int, flushed: set<nat>)
    requires WorldInv(lib, w) && TimerInv(lib, w, id) && WorldEnabled(lib, w, Advance(id, now, retentionMs, flushed))
    ensures TimerInv(lib, WorldDo(lib, w, Advance(id, now, retentionMs, flushed)), id)
  {
    hide WorldInv, Do, Enabled, MemoCovers, TimersAwaited, OverlayTimers, IsCall, ParentOf, View, AdvanceAttempt;
    var moved := Moved(lib, w, id, now, retentionMs, flushed);
    MemoGrows(lib, Inside(w, id), ParentOf(w.sys.db, id), w.attempts[id], now, retentionMs, flushed);
    MoreCovers(w.sys.db, id, w.attempts[id].memo, moved.attempt.memo);
    if moved.step.Some? {
      var step := moved.step.value;
      AdvancedOkStep(lib, w, id, now, retentionMs, flushed);
      OtherClaims(w.sys, step);
      WriteKeepsDb(w.sys, step);
      AdvanceOverlay(lib, w, id, now, retentionMs, flushed, step);
    } else {
      StillTimers(lib, Inside(w, id), ParentOf(w.sys.db, id), w.attempts[id], now, retentionMs, flushed,
                  w.sys.claims[id]);
    }
  }

  lemma InterruptTimers(lib: Library, w: World, id: Id, status: Status, c: Id)
    requires TimerInv(lib, w, c) && WorldEnabled(lib, w, Interrupt(id, status))
    ensures TimerInv(lib, WorldDo(lib, w, Interrupt(id, status)), c)
  {
    hide TimersAwaited, MemoCovers;
  }

  /** A step that does not move or end this task's attempt. */
  lemma OtherStepTimers(lib: Library, w: World, step: WorldStep, c: Id)
    requires NamesOk(lib) && WorldInv(lib, w) && ChildrenInv(lib, w, c) && TimerInv(lib, w, c)
    requires WorldEnabled(lib, w, step) && LeavesChildren(step, c) && !step.Interrupt?
    requires step.Outside? || step.id != c
    ensures TimerInv(lib, WorldDo(lib, w, step), c)
  {
    hide NamesOk, WorldInv, ChildrenInv, TimerInv, Do, Enabled, Moved, Report, LeavesChildren, IsCall, Preload;
    var statement := Statement(lib, w, step);
    var next := WorldDo(lib, w, step);
    SameAttempts(lib, w);
    if statement.Some? {
      OtherClaims(w.sys, statement.value);
      if step.Advance? {
        AdvancedOkStep(lib, w, step.id, step.now, step.retentionMs, step.flushed);
      }
      OthersTimers(lib, w, statement.value, c, next);
    } else {
      SameTimers(lib, w, c, next);
    }
  }

  lemma SameTimers(lib: Library, w: World, c: Id, next: World)
    requires TimerInv(lib, w, c) && next.sys == w.sys
             && (c in next.attempts ==> c in w.attempts && next.attempts[c] == w.attempts[c])
    ensures TimerInv(lib, next, c)
  {
    hide TimersAwaited, MemoCovers, OverlayTimers;
  }

  lemma WorldStepKeepsTimerInv(lib: Library, w: World, step: WorldStep, c: Id)
    requires NamesOk(lib) && WorldInv(lib, w) && ChildrenInv(lib, w, c) && TimerInv(lib, w, c)
    requires WorldEnabled(lib, w, step) && LeavesChildren(step, c) && KeepsTimers(w, step, c)
    ensures TimerInv(lib, WorldDo(lib, w, step), c)
  {
    hide NamesOk, WorldInv, ChildrenInv, TimerInv, Do, Enabled, Moved, Report, KeepsTimers;
    if step.Interrupt? {
      InterruptTimers(lib, w, step.id, step.status, c);
    } else if step.Outside? || step.id != c {
      OtherStepTimers(lib, w, step, c);
    } else {
      match step
      case Begin(id, now) => BeginTimers(lib, w, id, now);
      case Advance(id, now, retentionMs, flushed) => AdvanceKeepsTimers(lib, w, id, now, retentionMs, flushed);
      case Finish(id, now) =>
        FinishTimers(lib, w, id, now);
        EndedTimers(lib, WorldDo(lib, w, step), c);
      case Abandon(id) =>
        RollbackTimers(lib, w, id);
        EndedTimers(lib, WorldDo(lib, w, step), c);
    }
  }

  lemma EndedTimers(lib: Library, next: World, c: Id)
    requires c !in next.attempts && TimersAwaited(lib, next.sys.db, c)
    ensures TimerInv(lib, next, c)
  {
  }

  lemma RollbackTimers(lib: Library, w: World, id: Id)
    requires TimerInv(lib, w, id) && Enabled(w.sys, Rollback(id))
    ensures TimersAwaited(lib, Do(w.sys, Rollback(id)).db, id)
  {
    hide MemoCovers, OverlayTimers, TimersAwaited;
  }

  lemma {:induction false} RunKeepsTimerInv(lib: Library, w: World, steps: seq<WorldStep>, c: Id)
    requires NamesOk(lib) && WorldInv(lib, w) && ChildrenInv(lib, w, c) && TimerInv(lib, w, c)
    requires WorldLegal(lib, w, steps) && AllLeaveChildren(steps, c) && RunKeepsTimers(lib, w, steps, c)
    ensures var last := WorldReach(lib, w, steps);
            WorldInv(lib, last) && ChildrenInv(lib, last, c) && TimerInv(lib, last, c)
    decreases |steps|
  {
    hide NamesOk, WorldInv, ChildrenInv, TimerInv, WorldEnabled, WorldDo, LeavesChildren, KeepsTimers;
    if steps != [] {
      WorldStepKeepsInv(lib, w, steps[0]);
      WorldStepKeepsChildren(lib, w, steps[0], c);
      WorldStepKeepsTimerInv(lib, w, steps[0], c);
      forall i | 0 <= i < |steps| - 1 ensures steps[1..][i] == steps[i + 1] {
      }
      RunKeepsTimerInv(lib, WorldDo(lib, w, steps[0]), steps[1..], c);
    }
  }

  lemma StartTimers(lib: Library, c: Id)
    ensures TimerInv(lib, START, c)
  {
  }

  // ---------------------------------------------------------------- when a sleep conflicts

  /** A sleep that its attempt does not remember conflicts exactly when its id is in the store for
      anything but this very timer at this very moment. */
  lemma SleepConflictsIff(lib: Library, w: World, id: Id, delayMs: int, now: int, retentionMs: int)
    requires WorldInv(lib, w) && id in w.attempts && IsCall(w.sys.db, id) && id in w.sys.claims
    ensures var p, a, view := ParentOf(w.sys.db, id), w.attempts[id], Inside(w, id);
            var q := TimerId(p.id, a.callIndex);
            SubmitTimerRow(view, ChildTimer(p, a.callIndex, delayMs, now, retentionMs)).rows.Err? <==>
              q in view.promises && view.promises[q].key != TimerKey(q, now + delayMs, None, Some(p.graph))
  {
    hide WorldInv, IsCall, View, TimerId, SubmitTimerRow, InsertTimer, ParentOf, ChildTimer, TimerFingerprint,
         RootsPresent;
    var p, a, view := ParentOf(w.sys.db, id), w.attempts[id], Inside(w, id);
    ChildTimerInserts(lib, w, id, a.callIndex, delayMs, now, retentionMs);
    TimerConflicts(view, ChildTimer(p, a.callIndex, delayMs, now, retentionMs));
    SameTimer(p, a.callIndex, delayMs, now, retentionMs);
  }

  /** When no outside submission has taken a child's id of the task, what is in the store under a
      sleep's id is its timer, so the sleep conflicts exactly when that is due at another time. */
  lemma SleepConflictsWhenDueElse(lib: Library, w: World, id: Id, delayMs: int, now: int, retentionMs: int)
    requires NamesOk(lib) && WorldInv(lib, w) && ChildrenInv(lib, w, id)
    requires id in w.attempts && w.attempts[id].status == Running && IsCall(w.sys.db, id) && id in w.sys.claims
    requires lib(ParentOf(w.sys.db, id).work, w.attempts[id].history) == Sleep(delayMs) && delayMs > 0
    ensures var p, a, view := ParentOf(w.sys.db, id), w.attempts[id], Inside(w, id);
            var q := TimerId(p.id, a.callIndex);
            SubmitTimerRow(view, ChildTimer(p, a.callIndex, delayMs, now, retentionMs)).rows.Err? <==>
              q in view.promises && view.promises[q].key.TimerKey? && view.promises[q].key.dueAt != now + delayMs
  {
    hide NamesOk, WorldInv, ChildrenInv, IsCall, View, TimerId, SubmitTimerRow, ParentOf, ChildTimer, IssuedBy;
    SleepConflictsIff(lib, w, id, delayMs, now, retentionMs);
    SleepKey(lib, w, id, delayMs);
  }

  lemma SameTimer(p: Parent, base: nat, delayMs: int, now: int, retentionMs: int)
    ensures TimerFingerprint(ChildTimer(p, base, delayMs, now, retentionMs))
            == TimerKey(TimerId(p.id, base), now + delayMs, None, Some(p.graph))
    ensures ChildTimer(p, base, delayMs, now, retentionMs).id == TimerId(p.id, base)
  {
  }

  lemma ChildTimerInserts(lib: Library, w: World, id: Id, base: nat, delayMs: int, now: int, retentionMs: int)
    requires WorldInv(lib, w) && id in w.sys.claims && IsCall(w.sys.db, id)
    ensures RootsPresent(InsertTimer(Inside(w, id),
                                     ChildTimer(ParentOf(w.sys.db, id), base, delayMs, now, retentionMs)))
  {
    hide SysInv, Correct, EdgesIssued, AttemptsOk, IsCall, View, TimerId, Inv, InsertTimer, RootsPresent, ParentOf;
    ViewRows(w.sys, id);
    GraphIsRoot(w.sys, id);
    ParentGraph(w.sys.db, id);
    InsertTimerRoots(Inside(w, id), ChildTimer(ParentOf(w.sys.db, id), base, delayMs, now, retentionMs));
  }

  lemma ParentGraph(db: Db, id: Id)
    requires IsCall(db, id)
    ensures id in db.promises && ParentOf(db, id).graph == GraphOf(db, id)
  {
  }

  lemma TimerConflicts(view: Db, t: SubmitTimer)
    requires RootsPresent(InsertTimer(view, t))
    ensures SubmitTimerRow(view, t).rows.Err? <==>
              t.id in view.promises && view.promises[t.id].key != TimerFingerprint(t)
  {
    hide RootsPresent;
  }

  /** What is in the store under a sleep's id is that sleep's timer, whenever due. */
  lemma SleepKey(lib: Library, w: World, id: Id, delayMs: int)
    requires NamesOk(lib) && WorldInv(lib, w) && ChildrenInv(lib, w, id)
    requires id in w.attempts && w.attempts[id].status == Running && IsCall(w.sys.db, id) && id in w.sys.claims
    requires lib(ParentOf(w.sys.db, id).work, w.attempts[id].history) == Sleep(delayMs) && delayMs > 0
    ensures var p := ParentOf(w.sys.db, id);
            var q := TimerId(p.id, w.attempts[id].callIndex);
            q in Inside(w, id).promises ==>
              var key := Inside(w, id).promises[q].key;
              IssuedBy(lib, p, q, key) && key.TimerKey? && key == TimerKey(q, key.dueAt, None, Some(p.graph))
  {
    hide NamesOk, SysInv, Correct, EdgesIssued, AttemptsOk, ChildrenInv, IsCall, IssuedBy, Issued, ValidHistory, View,
         TimerId, ParentOf, MemoOk;
    var p, a, view := ParentOf(w.sys.db, id), w.attempts[id], Inside(w, id);
    var q := TimerId(p.id, a.callIndex);
    StatusHolds(lib, w, id);
    if q in view.promises {
      IssuesTimer(lib, p, a.history, delayMs, TimerKey(q, 0, None, Some(p.graph)));
      OwnChild(lib, w, id, q, TimerKey(q, 0, None, Some(p.graph)));
      IssuedTimerMatches(lib, p, a.history, q, view.promises[q].key);
    }
  }

  lemma InsertTimerRoots(view: Db, t: SubmitTimer)
    requires Inv(view) && t.root.Some? && t.root.value in view.promises && view.promises[t.root.value].root.None?
    ensures RootsPresent(InsertTimer(view, t))
  {
    hide CountersExact, RowsOk, TasksOk, WaitsOk, CallsHaveTasks;
    var after := InsertTimer(view, t);
    forall q | q in after.promises ensures RootPresent(after, q) {
      assert q in view.promises ==> RootPresent(view, q);
    }
  }

  /** In every run in which no outside submission takes a child's id of the task and none of its
      retries is committed over a timer written in the same transaction, every sleep of the task is
      replayed from memory or submitted for the first time: it never conflicts. */
  lemma SleepNeverConflicts(lib: Library, steps: seq<WorldStep>, id: Id, delayMs: int, now: int, retentionMs: int)
    requires NamesOk(lib) && WorldLegal(lib, START, steps)
    requires AllLeaveChildren(steps, id) && RunKeepsTimers(lib, START, steps, id)
    requires var w := WorldReach(lib, START, steps);
             && id in w.attempts && w.attempts[id].status == Running && IsCall(w.sys.db, id) && id in w.sys.claims
             && lib(ParentOf(w.sys.db, id).work, w.attempts[id].history) == Sleep(delayMs) && delayMs > 0
    ensures var w := WorldReach(lib, START, steps);
            var p, a, view := ParentOf(w.sys.db, id), w.attempts[id], Inside(w, id);
            var q := TimerId(p.id, a.callIndex);
            && (q in view.promises ==> q in a.memo)
            && (q in a.memo || SubmitTimerRow(view, ChildTimer(p, a.callIndex, delayMs, now, retentionMs)).rows.Ok?)
  {
    hide NamesOk, WorldLegal, WorldReach, WorldInv, ChildrenInv, TimerInv, AllLeaveChildren, RunKeepsTimers, IsCall,
         ParentOf, SubmitTimerRow, ChildTimer, TimerId, View;
    StartInv(lib);
    StartChildren(lib, id);
    StartTimers(lib, id);
    RunKeepsTimerInv(lib, START, steps, id);
    var w := WorldReach(lib, START, steps);
    TimerIsRemembered(lib, w, id, delayMs);
    SleepConflictsWhenDueElse(lib, w, id, delayMs, now, retentionMs);
  }

  lemma TimerIsRemembered(lib: Library, w: World, id: Id, delayMs: int)
    requires NamesOk(lib) && WorldInv(lib, w) && ChildrenInv(lib, w, id) && TimerInv(lib, w, id)
    requires id in w.attempts && w.attempts[id].status == Running && IsCall(w.sys.db, id) && id in w.sys.claims
    requires lib(ParentOf(w.sys.db, id).work, w.attempts[id].history) == Sleep(delayMs) && delayMs > 0
    ensures var q := TimerId(ParentOf(w.sys.db, id).id, w.attempts[id].callIndex);
            q in Inside(w, id).promises ==> q in w.attempts[id].memo
  {
    hide NamesOk, SysInv, Correct, EdgesIssued, AttemptsOk, ChildrenInv, IsCall, IssuedBy, Issued, ValidHistory, View,
         TimerId, ParentOf, MemoOk;
    var p, a, view := ParentOf(w.sys.db, id), w.attempts[id], Inside(w, id);
    var q := TimerId(p.id, a.callIndex);
    ParentId(w.sys.db, id);
    if q in view.promises {
      SleepKey(lib, w, id, delayMs);
      FromDbOrOverlay(w.sys, id, q);
      ClaimedHasRow(w.sys, id);
      if q in w.sys.db.promises {
        assert OwnTimer(lib, w.sys.db, id, q);
        assert Edge(id, q) in w.sys.db.waits;
      }
    }
  }

  lemma FromDbOrOverlay(s: System, id: Id, q: Id)
    requires SysInv(s) && id in s.claims && q in View(s.db, s.claims[id]).promises
    ensures q in s.db.promises ==> View(s.db, s.claims[id]).promises[q] == s.db.promises[q]
    ensures q !in s.db.promises ==>
              q in s.claims[id].promises && View(s.db, s.claims[id]).promises[q] == s.claims[id].promises[q]
  {
    hide Inv, OverlaysApart;
    CommittedView(s, id);
  }
}
