/** Once a retry has committed a sleep's timer without a wait, the timer stays lost while its task is
    pending, and every attempt that reaches the sleep at another moment conflicts. */
module LostTimerStays {
  import opened Wrappers
  import opened Store
  import opened StoreLaws
  import opened StoreRuns
  import opened StoreSafety
  import opened Programs
  import opened PromiseIds
  import opened Workflow
  import opened Issuing
  import opened WorkflowLaws
  import opened AttemptBound
  import opened Replay
  import opened LostTimer

  /** A pending task's own timer is in the store and the task has no wait on it. */
  ghost predicate Lost(lib: Library, db: Db, c: Id, q: Id) {
    OwnTimer(lib, db, c, q) && Edge(c, q) !in db.waits
  }

  // ---------------------------------------------------------------- how a timer is lost

  /** Committing a retry that leaves its task pending loses every timer written in the transaction. */
  lemma RetryLosesTimer(lib: Library, w: World, c: Id, now: int, q: Id)
    requires NamesOk(lib) && WorldInv(lib, w) && ChildrenInv(lib, w, c) && c in w.attempts
             && w.attempts[c].status.Retrying?
    requires c in w.sys.claims && q in w.sys.claims[c].promises && w.sys.claims[c].promises[q].key.TimerKey?
    requires Enabled(w.sys, Commit(c, Report(w.attempts[c].status), now))
    requires c in Do(w.sys, Commit(c, Report(w.attempts[c].status), now)).db.tasks
    ensures Lost(lib, Do(w.sys, Commit(c, Report(w.attempts[c].status), now)).db, c, q)
  {
    hide NamesOk, SysInv, Correct, EdgesIssued, AttemptsOk, OwnsChildren, OverlaysIssued, Do, Enabled, IssuedBy,
         ParentOf, IsCall;
    var step := Commit(c, Report(w.attempts[c].status), now);
    var after := Do(w.sys, step).db;
    SameAttempts(lib, w);
    RetryKeepsPromises(w.sys, c, w.attempts[c].status.error, now, q);
    CommittedRow(lib, w, step, q);
    OverlayKey(w.sys, step, q);
  }

  /** A retry that leaves its task in place writes the transaction's rows and no wait. */
  lemma RetryKeepsPromises(s: System, c: Id, error: Json, now: int, q: Id)
    requires SysInv(s) && c in s.claims && q in s.claims[c].promises && Enabled(s, Commit(c, Failed(error, 0), now))
    requires c in Do(s, Commit(c, Failed(error, 0), now)).db.tasks
    ensures var after := Do(s, Commit(c, Failed(error, 0), now)).db;
            q in after.promises && c in after.promises && after.promises[c].state == Pending
            && Edge(c, q) !in after.waits
  {
    hide Inv, OverlaysApart, View, SettleOne;
    var view := View(s.db, s.claims[c]);
    ClaimedHasRow(s, c);
    CommittedView(s, c);
    OwnRow(s, c, q);
    ViewWaits(s, c);
    OverlayIsFresh(s, c, q);
    SettledOneGoes(view, c, Rejected, None, Some(error), now);
  }

  lemma SettledOneGoes(db: Db, c: Id, state: PromiseState, result: Option<Json>, error: Option<Json>, now: int)
    requires c in db.promises
    ensures c !in SettleOne(db, c, state, result, error, now).tasks
  {
    hide Woken, SettledFor;
  }

  /** Nobody awaits a row that only an open transaction has. */
  lemma OverlayIsFresh(s: System, c: Id, q: Id)
    requires SysInv(s) && c in s.claims && q in s.claims[c].promises
    ensures q !in s.db.promises && Edge(c, q) !in s.db.waits
  {
    hide CountersExact, RowsOk, TasksOk, CallsHaveTasks, RootsPresent, OverlaysApart, PromiseRowOk, KeyOk, TaskRowOk,
         TaskMatches;
    assert OverlayOk(s.db, c, s.claims[c]);
  }

  // ---------------------------------------------------------------- a lost timer stays lost

  /** The step leaves the task pending and does not suspend it on the timer. */
  predicate LeavesLost(lib: Library, w: World, step: WorldStep, c: Id, q: Id)
    requires WorldEnabled(lib, w, step)
  {
    var after := WorldDo(lib, w, step).sys.db;
    && c in after.tasks && c in after.promises && after.promises[c].state == Pending
    && !(step.Finish? && step.id == c && w.attempts[c].status.Suspending? && q in w.attempts[c].status.awaited)
  }

  lemma WaitsOnlyBySuspending(s: System, step: Step, c: Id, q: Id)
    requires SysInv(s) && Enabled(s, step) && Edge(c, q) !in s.db.waits
    requires !(step.Commit? && step.id == c && step.finish.Suspended? && q in step.finish.awaited)
    ensures Edge(c, q) !in Do(s, step).db.waits
  {
    hide SysInv, Finishing, ValidFinish, SubmitCalls, SubmitTimerRow, ProcessDue, DeleteExpired, View, DueBatch, Doomed,
         ValidCall, ValidTimer;
    if step.Commit? {
      FinishWaits(View(s.db, s.claims[step.id]), step.id, step.finish, step.now);
      ViewWaits(s, step.id);
    } else {
      OldWaits(s, step);
    }
  }

  lemma StatementLeavesLost(lib: Library, s: System, step: Step, c: Id, q: Id)
    requires SysInv(s) && Enabled(s, step) && Lost(lib, s.db, c, q)
    requires c in Do(s, step).db.tasks && c in Do(s, step).db.promises && Do(s, step).db.promises[c].state == Pending
    requires !(step.Commit? && step.id == c && step.finish.Suspended? && q in step.finish.awaited)
    ensures Lost(lib, Do(s, step).db, c, q) && Do(s, step).db.promises[q].key == s.db.promises[q].key
  {
    hide Inv, ClaimsOk, OverlaysApart, Enabled, Do, IssuedBy, ParentOf, Kept;
    OwnedTask(lib, s.db, c, q);
    WaitsStay(s, step, c);
    SameGraph(lib, s.db, c, q);
    StepKeeps(s, step, c);
    StepKeeps(s, step, q);
    KeptOwner(s.db, Do(s, step).db, c, q);
    WaitsOnlyBySuspending(s, step, c, q);
    KeptIn(s.db, Do(s, step).db, q);
  }

  lemma KeptIn(db: Db, after: Db, q: Id)
    requires Kept(db, after, q)
    ensures q in after.promises
  {
  }

  lemma StepLeavesLost(lib: Library, w: World, step: WorldStep, c: Id, q: Id)
    requires WorldInv(lib, w) && WorldEnabled(lib, w, step) && Lost(lib, w.sys.db, c, q)
             && LeavesLost(lib, w, step, c, q)
    ensures Lost(lib, WorldDo(lib, w, step).sys.db, c, q)
    ensures WorldDo(lib, w, step).sys.db.promises[q].key == w.sys.db.promises[q].key
  {
    hide SysInv, Correct, EdgesIssued, AttemptsOk, Do, Enabled, Lost, Moved;
    LostIsThere(lib, w.sys.db, c, q);
    var statement := Statement(lib, w, step);
    if statement.Some? {
      if step.Advance? {
        AdvancedOkStep(lib, w, step.id, step.now, step.retentionMs, step.flushed);
      }
      StatementLeavesLost(lib, w.sys, statement.value, c, q);
    }
  }

  lemma LostIsThere(lib: Library, db: Db, c: Id, q: Id)
    requires Lost(lib, db, c, q)
    ensures c in db.tasks && IsCall(db, c) && q in db.promises && Edge(c, q) !in db.waits
  {
  }

  predicate RunLeavesLost(lib: Library, w: World, steps: seq<WorldStep>, c: Id, q: Id)
    requires WorldLegal(lib, w, steps)
    decreases |steps|
  {
    steps == []
    || (LeavesLost(lib, w, steps[0], c, q) && RunLeavesLost(lib, WorldDo(lib, w, steps[0]), steps[1..], c, q))
  }

  /** A lost timer stays lost, and due when it was, for as long as its task is pending and is not
      suspended on it. */
  lemma {:induction false} LostTimerStaysLost(lib: Library, w: World, steps: seq<WorldStep>, c: Id, q: Id)
    requires WorldInv(lib, w) && WorldLegal(lib, w, steps) && Lost(lib, w.sys.db, c, q)
             && RunLeavesLost(lib, w, steps, c, q)
    ensures var after := WorldReach(lib, w, steps).sys.db;
            Lost(lib, after, c, q) && q in w.sys.db.promises && after.promises[q].key == w.sys.db.promises[q].key
    decreases |steps|
  {
    hide WorldInv, WorldEnabled, WorldDo, LeavesLost, Lost;
    LostIsThere(lib, w.sys.db, c, q);
    if steps != [] {
      WorldStepKeepsInv(lib, w, steps[0]);
      StepLeavesLost(lib, w, steps[0], c, q);
      LostTimerStaysLost(lib, WorldDo(lib, w, steps[0]), steps[1..], c, q);
    }
  }

  // ---------------------------------------------------------------- where a memo comes from

  ghost predicate IssuedBefore(lib: Library, p: Parent, n: nat, id: Id) {
    exists g, key :: IssuesAt(lib, p, g, id, key) && |g| < n
  }

  /** A running attempt remembers only what its task awaits and what its passed groups issued. */
  ghost predicate MemoOrigin(lib: Library, db: Db, p: Parent, a: Attempt) {
    a.status.Running? ==>
      forall id :: id in a.memo ==> Edge(p.id, id) in db.waits || IssuedBefore(lib, p, |a.history|, id)
  }

  ghost predicate OriginInv(lib: Library, w: World, c: Id) {
    c in w.attempts ==>
      c in w.sys.claims && IsCall(w.sys.db, c) && MemoOrigin(lib, w.sys.db, ParentOf(w.sys.db, c), w.attempts[c])
  }

  lemma {:induction false} RememberedIds(memo: map<Id, Promise>, ids: seq<Id>, rows: seq<Promise>)
    requires |ids| == |rows|
    ensures forall id :: id in Remember(memo, ids, rows) ==> id in memo || id in ids
    decreases |ids|
  {
    if ids != [] {
      RememberedIds(memo[ids[0] := rows[0]], ids[1..], rows[1..]);
    }
  }

  lemma GroupIssues(lib: Library, p: Parent, a: Attempt, calls: seq<Call>, id: Id, n: nat)
    requires ValidHistory(lib, p.work, a.history) && a.callIndex == Issued(lib, p.work, a.history)
    requires lib(p.work, a.history) == Gather(calls) && id in GroupIds(p, a, calls) && |a.history| < n
    ensures IssuedBefore(lib, p, n, id)
  {
    hide ValidHistory, Issued, ChildKey, CallId;
    var k :| 0 <= k < |calls| && GroupIds(p, a, calls)[k] == id;
    assert CallAt(lib, p, a.history, calls, k, id, ChildKey(p, a.callIndex, k, calls[k]));
    assert IssuesAt(lib, p, a.history, id, ChildKey(p, a.callIndex, k, calls[k]));
  }

  lemma TimerIssues(lib: Library, p: Parent, a: Attempt, delayMs: int, n: nat)
    requires ValidHistory(lib, p.work, a.history) && a.callIndex == Issued(lib, p.work, a.history)
    requires lib(p.work, a.history) == Sleep(delayMs) && delayMs > 0 && |a.history| < n
    ensures IssuedBefore(lib, p, n, TimerId(p.id, a.callIndex))
  {
    hide ValidHistory, Issued, TimerId;
    var id := TimerId(p.id, a.callIndex);
    assert IssuesAt(lib, p, a.history, id, TimerKey(id, 0, None, Some(p.graph)));
  }

  lemma LaterToo(lib: Library, p: Parent, n: nat, m: nat, id: Id)
    requires IssuedBefore(lib, p, n, id) && n <= m
    ensures IssuedBefore(lib, p, m, id)
  {
    hide IssuesAt;
    var g, key :| IssuesAt(lib, p, g, id, key) && |g| < n;
    assert IssuesAt(lib, p, g, id, key) && |g| < m;
  }

  /** Moving on keeps the origins of what is remembered. */
  lemma MemoOriginAdvances(lib: Library, db: Db, view: Db, p: Parent, a: Attempt, now: int, retentionMs: int,
                           flushed: set<nat>)
    requires StatusOk(lib, view, p, a) && a.status == Running && MemoOrigin(lib, db, p, a)
    ensures MemoOrigin(lib, db, p, AdvanceAttempt(lib, view, p, a, now, retentionMs, flushed).attempt)
  {
    hide ValidHistory, Issued, IssuesAt, IssuedBefore, SubmitCalls, SubmitTimerRow, FreshCalls, GroupRefused, AllThere,
         ValidTimer, PendingIds, Remember, TimerId, GroupIds, GroupRows, ChildTimer;
    var next := AdvanceAttempt(lib, view, p, a, now, retentionMs, flushed).attempt;
    if next.status.Running? {
      forall id | id in next.memo ensures Edge(p.id, id) in db.waits || IssuedBefore(lib, p, |next.history|, id) {
        MemoIds(lib, view, p, a, now, retentionMs, flushed, id);
        if id in a.memo {
          if Edge(p.id, id) !in db.waits {
            LaterToo(lib, p, |a.history|, |next.history|, id);
          }
        } else {
          match lib(p.work, a.history)
          case Gather(calls) => GroupIssues(lib, p, a, calls, id, |next.history|);
          case Sleep(delayMs) => TimerIssues(lib, p, a, delayMs, |next.history|);
        }
      }
    }
  }

  lemma MemoIds(lib: Library, view: Db, p: Parent, a: Attempt, now: int, retentionMs: int, flushed: set<nat>, id: Id)
    requires a.status == Running && AdvanceAttempt(lib, view, p, a, now, retentionMs, flushed).attempt.status.Running?
    ensures var next := AdvanceAttempt(lib, view, p, a, now, retentionMs, flushed).attempt;
            && |next.history| == |a.history| + 1
            && (id in next.memo && id !in a.memo ==>
                  match lib(p.work, a.history)
                  case Gather(calls) => id in GroupIds(p, a, calls)
                  case Sleep(delayMs) => delayMs > 0 && id == TimerId(p.id, a.callIndex)
                  case _ => false)
  {
    hide SubmitCalls, SubmitTimerRow, FreshCalls, GroupRefused, AllThere, ValidTimer, PendingIds, Remember, TimerId,
         ChildTimer, CallId;
    match lib(p.work, a.history)
    case Gather(calls) =>
      var submitted := SubmitCalls(view, FreshCalls(p, a, calls, 0, now, retentionMs, flushed));
      if AllThere(p, a, submitted.db, calls) {
        RememberedIds(a.memo, GroupIds(p, a, calls), GroupRows(p, a, submitted.db, calls));
      }
    case _ =>
  }

  lemma OriginSteady(lib: Library, s: System, step: Step, c: Id, a: Attempt)
    requires SysInv(s) && Enabled(s, step) && c in s.claims && c in Do(s, step).claims
    requires IsCall(s.db, c) && MemoOrigin(lib, s.db, ParentOf(s.db, c), a)
    ensures IsCall(Do(s, step).db, c) && MemoOrigin(lib, Do(s, step).db, ParentOf(Do(s, step).db, c), a)
  {
    hide SysInv, Enabled, Do, IssuedBefore, Kept;
    StepKeepsSysInv(s, step);
    ClaimedHasRow(s, c);
    ClaimedHasRow(Do(s, step), c);
    WaitsStay(s, step, c);
    StepKeeps(s, step, c);
    ParentStays(s.db, Do(s, step).db, c);
    ParentId(s.db, c);
  }

  lemma OtherStepOrigin(lib: Library, w: World, step: WorldStep, c: Id)
    requires WorldInv(lib, w) && OriginInv(lib, w, c) && WorldEnabled(lib, w, step)
    requires step.Outside? || step.id != c
    ensures OriginInv(lib, WorldDo(lib, w, step), c)
  {
    hide SysInv, Correct, EdgesIssued, AttemptsOk, Do, Enabled, MemoOrigin, ParentOf, IsCall, Moved, Report;
    var statement := Statement(lib, w, step);
    SameAttempts(lib, w);
    if statement.Some? {
      OtherClaims(w.sys, statement.value);
      if step.Advance? {
        AdvancedOkStep(lib, w, step.id, step.now, step.retentionMs, step.flushed);
      }
      if c in w.attempts && c in Do(w.sys, statement.value).claims {
        OriginSteady(lib, w.sys, statement.value, c, w.attempts[c]);
      }
    }
  }

  lemma BeginOrigin(lib: Library, w: World, c: Id, now: int)
    requires WorldInv(lib, w) && WorldEnabled(lib, w, Begin(c, now))
    ensures OriginInv(lib, WorldDo(lib, w, Begin(c, now)), c)
  {
    hide SysInv, Correct, EdgesIssued, AttemptsOk, Do, Enabled, IsCall, IssuedBefore;
    OtherClaims(w.sys, Claim(c, now));
    NotClaimed(w.sys, c, now);
    BeginsCall(lib, w, c, now);
    ParentId(w.sys.db, c);
  }

  lemma AdvanceOrigin(lib: Library, w: World, c: Id, now: int, retentionMs: int, flushed: set<nat>)
    requires WorldInv(lib, w) && OriginInv(lib, w, c) && WorldEnabled(lib, w, Advance(c, now, retentionMs, flushed))
    ensures OriginInv(lib, WorldDo(lib, w, Advance(c, now, retentionMs, flushed)), c)
  {
    hide SysInv, Correct, EdgesIssued, AttemptsOk, Do, Enabled, MemoOrigin, ParentOf, IsCall, StatusOk, AdvanceAttempt,
         View;
    StatusHolds(lib, w, c);
    MemoOriginAdvances(lib, w.sys.db, Inside(w, c), ParentOf(w.sys.db, c), w.attempts[c], now, retentionMs, flushed);
    var moved := Moved(lib, w, c, now, retentionMs, flushed);
    if moved.step.Some? {
      AdvancedOkStep(lib, w, c, now, retentionMs, flushed);
      OtherClaims(w.sys, moved.step.value);
      WriteKeepsDb(w.sys, moved.step.value);
    }
  }

  lemma WorldStepKeepsOrigin(lib: Library, w: World, step: WorldStep, c: Id)
    requires WorldInv(lib, w) && OriginInv(lib, w, c) && WorldEnabled(lib, w, step)
    ensures OriginInv(lib, WorldDo(lib, w, step), c)
  {
    hide WorldInv, Do, Enabled, Moved, Report, IsCall, ParentOf, IssuedBefore;
    if step.Outside? || step.id != c {
      OtherStepOrigin(lib, w, step, c);
    } else {
      match step
      case Begin(id, now) => BeginOrigin(lib, w, id, now);
      case Advance(id, now, retentionMs, flushed) => AdvanceOrigin(lib, w, id, now, retentionMs, flushed);
      case _ =>
    }
  }

  lemma {:induction false} RunKeepsOrigin(lib: Library, w: World, steps: seq<WorldStep>, c: Id)
    requires WorldInv(lib, w) && OriginInv(lib, w, c) && WorldLegal(lib, w, steps)
    ensures WorldInv(lib, WorldReach(lib, w, steps)) && OriginInv(lib, WorldReach(lib, w, steps), c)
    decreases |steps|
  {
    hide WorldInv, OriginInv, WorldEnabled, WorldDo;
    if steps != [] {
      WorldStepKeepsInv(lib, w, steps[0]);
      WorldStepKeepsOrigin(lib, w, steps[0], c);
      RunKeepsOrigin(lib, WorldDo(lib, w, steps[0]), steps[1..], c);
    }
  }

  // ---------------------------------------------------------------- a lost timer conflicts

  /** A running attempt that reaches the sleep of a lost timer does not remember it. */
  lemma LostIsForgotten(lib: Library, w: World, c: Id, delayMs: int)
    requires WorldInv(lib, w) && OriginInv(lib, w, c)
    requires c in w.attempts && w.attempts[c].status == Running && IsCall(w.sys.db, c) && c in w.sys.claims
    requires lib(ParentOf(w.sys.db, c).work, w.attempts[c].history) == Sleep(delayMs) && delayMs > 0
    requires Lost(lib, w.sys.db, c, TimerId(c, w.attempts[c].callIndex))
    ensures TimerId(c, w.attempts[c].callIndex) !in w.attempts[c].memo
  {
    hide SysInv, Correct, EdgesIssued, AttemptsOk, IsCall, ParentOf, IssuesAt, Issued, ValidHistory, View, TimerId,
         MemoOk, OwnTimer;
    var p, a := ParentOf(w.sys.db, c), w.attempts[c];
    var q := TimerId(c, a.callIndex);
    StatusHolds(lib, w, c);
    ParentId(w.sys.db, c);
    if q in a.memo {
      var g, key :| IssuesAt(lib, p, g, q, key) && |g| < |a.history|;
      SleepIssues(lib, p, a.history, delayMs);
      OneGroupPerChild(lib, p, g, a.history, q, key, TimerKey(q, 0, None, Some(p.graph)));
    }
  }

  lemma SleepIssues(lib: Library, p: Parent, history: History, delayMs: int)
    requires ValidHistory(lib, p.work, history) && lib(p.work, history) == Sleep(delayMs) && delayMs > 0
    ensures var q := TimerId(p.id, Issued(lib, p.work, history));
            IssuesAt(lib, p, history, q, TimerKey(q, 0, None, Some(p.graph)))
  {
    hide ValidHistory, Issued, TimerId;
  }

  /** In every reachable state an attempt that reaches the sleep of a lost timer raises an
      idempotency conflict, unless it does so at the very moment that makes the timer due again
      when it was. */
  lemma LostTimerConflicts(lib: Library, steps: seq<WorldStep>, c: Id, delayMs: int, now: int, retentionMs: int,
                           flushed: set<nat>)
    requires WorldLegal(lib, START, steps)
    requires var w := WorldReach(lib, START, steps);
             && c in w.attempts && w.attempts[c].status == Running && IsCall(w.sys.db, c) && c in w.sys.claims
             && lib(ParentOf(w.sys.db, c).work, w.attempts[c].history) == Sleep(delayMs) && delayMs > 0
             && Lost(lib, w.sys.db, c, TimerId(c, w.attempts[c].callIndex))
             && w.sys.db.promises[TimerId(c, w.attempts[c].callIndex)].key.dueAt != now + delayMs
    ensures var w := WorldReach(lib, START, steps);
            Moved(lib, w, c, now, retentionMs, flushed).attempt.status == Raising(REFUSAL)
  {
    hide WorldLegal, WorldReach, WorldInv, OriginInv, IsCall, ParentOf, View, TimerId, Lost, SubmitTimerRow, ValidTimer;
    StartInv(lib);
    StartOrigin(lib, c);
    RunKeepsOrigin(lib, START, steps, c);
    var w := WorldReach(lib, START, steps);
    LostIsForgotten(lib, w, c, delayMs);
    LostInside(lib, w, c, TimerId(c, w.attempts[c].callIndex));
    SleepConflictsIff(lib, w, c, delayMs, now, retentionMs);
    ParentId(w.sys.db, c);
  }

  lemma StartOrigin(lib: Library, c: Id)
    ensures OriginInv(lib, START, c)
  {
  }

  lemma LostInside(lib: Library, w: World, c: Id, q: Id)
    requires WorldInv(lib, w) && c in w.sys.claims && Lost(lib, w.sys.db, c, q)
    ensures q in w.sys.db.promises && q in Inside(w, c).promises && Inside(w, c).promises[q] == w.sys.db.promises[q]
    ensures w.sys.db.promises[q].key.TimerKey?
  {
    hide SysInv, Correct, EdgesIssued, AttemptsOk, IssuedBy, View;
    CommittedView(w.sys, c);
  }
}
