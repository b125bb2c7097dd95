/** Replay is stable: attempts of one task issue the same requests, and a replayed call never
    meets an idempotency conflict. */
module Replay {
  import opened Wrappers
  import opened Store
  import opened StoreLaws
  import opened StoreRuns
  import opened StoreSafety
  import opened Programs
  import opened PromiseIds
  import opened Workflow
  import opened Issuing
  import opened WorkflowLaws
  import opened AttemptBound

  // ---------------------------------------------------------------- the sequence of requests

  /** A request for a child; a timer's fingerprint depends on the clock and is left open. */
  datatype Request = Request(child: Id, key: Option<Fingerprint>)

  function GroupRequests(p: Parent, base: nat, move: Move): seq<Request> {
    match move
    case Gather(calls) =>
      seq(|calls|, k requires 0 <= k < |calls| =>
        Request(CallId(p.id, base, k, calls[k]), Some(ChildKey(p, base, k, calls[k]))))
    case Sleep(delayMs) => if delayMs > 0 then [Request(TimerId(p.id, base), None)] else []
    case _ => []
  }

  /** The requests issued by the groups of a history, in order. */
  function Requests(lib: Library, p: Parent, history: History): seq<Request> {
    if history == [] then []
    else
      var past := history[..|history| - 1];
      Requests(lib, p, past) + GroupRequests(p, Issued(lib, p.work, past), lib(p.work, past))
  }

  lemma {:induction false} RequestsPrefix(lib: Library, p: Parent, history: History, k: nat)
    requires k <= |history|
    ensures Requests(lib, p, history[..k]) <= Requests(lib, p, history)
  {
    if k < |history| {
      RequestsPrefix(lib, p, history[..|history| - 1], k);
      assert history[..|history| - 1][..k] == history[..k];
    } else {
      assert history[..k] == history;
    }
  }

  /** The requests an attempt has made: those of the groups it has passed, and of the group it
      suspends on. */
  function Made(lib: Library, p: Parent, a: Attempt): seq<Request> {
    if a.status.Suspending?
      then Requests(lib, p, a.history) + GroupRequests(p, Issued(lib, p.work, a.history), lib(p.work, a.history))
    else Requests(lib, p, a.history)
  }

  predicate PrefixOrBack<T(==)>(a: seq<T>, b: seq<T>) {
    a <= b || b <= a
  }

  /** Passing a group makes all of its requests. */
  lemma MadeByThen(lib: Library, p: Parent, a: Attempt, longer: History)
    requires a.history < longer
    ensures Made(lib, p, a) <= Requests(lib, p, longer)
  {
    var n := |a.history|;
    assert longer[..n + 1][..n] == a.history;
    RequestsPrefix(lib, p, longer, n + 1);
    RequestsPrefix(lib, p, longer[..n + 1], n);
  }

  lemma MadeAgree(lib: Library, p: Parent, a: Attempt, b: Attempt)
    requires a.history <= b.history
    ensures PrefixOrBack(Made(lib, p, a), Made(lib, p, b))
  {
    if a.history < b.history {
      MadeByThen(lib, p, a, b.history);
      assert Requests(lib, p, b.history) <= Made(lib, p, b);
    } else {
      assert a.history == b.history;
    }
  }

  /** Two attempts of one task, in any two states of any runs and however they have ended, have made
      the same requests with the same ids and fingerprints, in the same order, as far as both have
      come. */
  lemma AttemptsRepeat(lib: Library, steps: seq<WorldStep>, others: seq<WorldStep>, id: Id)
    requires WorldLegal(lib, START, steps) && WorldLegal(lib, START, others)
    requires var w, v := WorldReach(lib, START, steps), WorldReach(lib, START, others);
             && id in w.attempts && id in v.attempts
             && IsCall(w.sys.db, id) && IsCall(v.sys.db, id) && ParentOf(w.sys.db, id) == ParentOf(v.sys.db, id)
    ensures var w, v := WorldReach(lib, START, steps), WorldReach(lib, START, others);
            var p, a, b := ParentOf(w.sys.db, id), w.attempts[id], v.attempts[id];
            && PrefixOrBack(a.history, b.history)
            && PrefixOrBack(Made(lib, p, a), Made(lib, p, b))
  {
    hide SysInv, Correct, EdgesIssued, WorldLegal, WorldReach, ValidHistory, ParentOf, Made, IsCall, MemoOk, View,
         Awaitable;
    StartInv(lib);
    RunKeepsWorldInv(lib, START, steps);
    RunKeepsWorldInv(lib, START, others);
    var w, v := WorldReach(lib, START, steps), WorldReach(lib, START, others);
    var p, a, b := ParentOf(w.sys.db, id), w.attempts[id], v.attempts[id];
    StatusHolds(lib, w, id);
    StatusHolds(lib, v, id);
    if |a.history| <= |b.history| {
      HistoriesAgree(lib, p.work, a.history, b.history);
      MadeAgree(lib, p, a, b);
    } else {
      HistoriesAgree(lib, p.work, b.history, a.history);
      MadeAgree(lib, p, b, a);
    }
  }

  // ---------------------------------------------------------------- who may own an id

  /** Function names hold no colon, as module and qualified names do not. */
  ghost predicate NamesOk(lib: Library) {
    forall work, history, k :: lib(work, history).Gather? && 0 <= k < |lib(work, history).calls| ==>
      NoColon(lib(work, history).calls[k].func)
  }

  /** An outside submission takes no id that is a child's of this task; any other id is allowed. */
  predicate LeavesChildren(step: WorldStep, id: Id) {
    match step
    case Outside(Submit(calls)) => forall i :: 0 <= i < |calls| ==> !ChildOf(id, calls[i].id)
    case Outside(Timer(timer)) => !ChildOf(id, timer.id)
    case _ => true
  }

  predicate AllLeaveChildren(steps: seq<WorldStep>, id: Id) {
    forall i :: 0 <= i < |steps| ==> LeavesChildren(steps[i], id)
  }

  ghost predicate IssuerOf(lib: Library, db: Db, c: Id, q: Id)
    requires q in db.promises
  {
    IsCall(db, c) && IssuedBy(lib, ParentOf(db, c), q, db.promises[q].key)
  }

  /** Every promise under a child's id of this task is issued by it, and the task is still there. */
  ghost predicate OwnsChildren(lib: Library, db: Db, c: Id) {
    forall q :: q in db.promises && ChildOf(c, q) ==> IssuerOf(lib, db, c, q)
  }

  ghost predicate OverlayIssued(lib: Library, db: Db, c: Id, o: Overlay) {
    IsCall(db, c) && forall q :: q in o.promises ==> IssuedBy(lib, ParentOf(db, c), q, o.promises[q].key)
  }

  ghost predicate OverlaysIssued(lib: Library, w: World) {
    forall c :: c in w.sys.claims ==> OverlayIssued(lib, w.sys.db, c, w.sys.claims[c])
  }

  ghost predicate ChildrenInv(lib: Library, w: World, c: Id) {
    OwnsChildren(lib, w.sys.db, c) && OverlaysIssued(lib, w)
  }

  lemma IssuedFunc(lib: Library, p: Parent, child: Id, key: Fingerprint) returns (i: nat, func: string)
    requires NamesOk(lib) && IssuedBy(lib, p, child, key)
    ensures child == ChildId(p.id, i, func) && NoColon(func)
  {
    hide ValidHistory, Issued, ChildKey, IssuesAt;
    var g :| IssuesAt(lib, p, g, child, key);
    i, func := IssuedIndex(lib, p, g, child, key);
    IssuesValid(lib, p, g, child, key);
  }

  /** What a task issues is a child of it, and of no other task. */
  lemma IssuedIsChildOf(lib: Library, p: Parent, child: Id, key: Fingerprint)
    requires NamesOk(lib) && IssuedBy(lib, p, child, key)
    ensures ChildOf(p.id, child)
  {
    hide NamesOk, IssuedBy, ChildOf;
    var i, func := IssuedFunc(lib, p, child, key);
    ChildIdIsChildOf(p.id, i, func);
  }

  // ---------------------------------------------------------------- ownership is kept

  lemma IssuerKept(lib: Library, db: Db, after: Db, c: Id, q: Id)
    requires q in db.promises && IssuerOf(lib, db, c, q) && Kept(db, after, c) && Kept(db, after, q)
    ensures IssuerOf(lib, after, c, q)
  {
    hide IssuedBy;
    ParentStays(db, after, c);
  }

  /** A promise that stays keeps its issuer: both are of one graph. */
  lemma StepKeepsIssuer(lib: Library, s: System, step: Step, c: Id, q: Id)
    requires SysInv(s) && Enabled(s, step) && q in s.db.promises && q in Do(s, step).db.promises
             && IssuerOf(lib, s.db, c, q)
    ensures IssuerOf(lib, Do(s, step).db, c, q)
  {
    hide Inv, ClaimsOk, OverlaysApart, Enabled, Do, IssuedBy, ParentOf, IsCall, Kept;
    CalledIsPromise(s.db, c);
    SameGraph(lib, s.db, c, q);
    if step.Collect? {
      CollectedGoes(s, step.doomed, step.before, q);
    }
    StepKeeps(s, step, c);
    StepKeeps(s, step, q);
    IssuerKept(lib, s.db, Do(s, step).db, c, q);
  }

  lemma SameGraph(lib: Library, db: Db, c: Id, q: Id)
    requires Inv(db) && q in db.promises && c in db.promises && IssuerOf(lib, db, c, q)
    ensures GraphOf(db, c) == GraphOf(db, q)
  {
    hide Inv, IssuedBy;
    InvRows(db);
    RowsMatch(db);
    IssuedIsChild(lib, ParentOf(db, c), q, db.promises[q].key);
  }

  lemma CollectedGoes(s: System, doomed: set<Id>, before: int, q: Id)
    requires SysInv(s) && Enabled(s, Collect(doomed, before)) && q in s.db.promises
             && q in Do(s, Collect(doomed, before)).db.promises
    ensures GraphOf(s.db, q) !in doomed
  {
    hide Inv, ClaimsOk, OverlaysApart, Doomed;
  }

  lemma OverlayIssuedKept(lib: Library, db: Db, after: Db, c: Id, o: Overlay)
    requires OverlayIssued(lib, db, c, o) && Kept(db, after, c)
    ensures OverlayIssued(lib, after, c, o)
  {
    hide IssuedBy;
    ParentStays(db, after, c);
  }

  lemma OthersIssued(lib: Library, w: World, step: Step, c: Id)
    requires WorldInv(lib, w) && OverlaysIssued(lib, w) && Enabled(w.sys, step) && c in w.sys.claims
    ensures OverlayIssued(lib, Do(w.sys, step).db, c, w.sys.claims[c])
  {
    hide SysInv, Correct, EdgesIssued, AttemptsOk, Enabled, Do, IssuedBy, ParentOf, Kept, IsCall;
    if step.Collect? {
      ClaimedGraphStays(w.sys, step.doomed, step.before, c);
    }
    ClaimedHasRow(w.sys, c);
    StepKeeps(w.sys, step, c);
    OverlayIssuedKept(lib, w.sys.db, Do(w.sys, step).db, c, w.sys.claims[c]);
  }

  /** A promise that a step adds was submitted from outside or written by the claim that commits. */
  lemma PromiseIsNew(s: System, step: Step, q: Id)
    requires SysInv(s) && Enabled(s, step) && q !in s.db.promises && q in Do(s, step).db.promises
    ensures match step
            case Submit(calls) => exists i :: 0 <= i < |calls| && calls[i].id == q
            case Timer(timer) => timer.id == q
            case Commit(id, _, _) => q in s.claims[id].promises
            case _ => false
  {
    hide Inv, ClaimsOk, OverlaysApart, SubmitCalls, SubmitTimerRow, SettleRows, DueRows, ValidCall, ValidTimer, Doomed,
         Finishing, ValidFinish;
    match step
    case Submit(calls) => InvHasPromises(s.db); SubmitKeepsRows(s.db, calls);
    case Timer(timer) => SubmitTimerKeepsRows(s.db, timer);
    case Commit(id, finish, now) => FinishKeys(View(s.db, s.claims[id]), id, finish, now);
    case Maintain(timers, timeouts, kept, now) =>
      DueBatchSettles(s.db, timers, timeouts, kept, now);
      SettleRowsKeys(s.db, DueRows(s.db, timers, timeouts, now), timeouts - kept, now);
    case _ =>
  }

  lemma FinishKeys(view: Db, id: Id, finish: StoreRuns.Finish, now: int)
    requires Finishing(view, id, finish, now).Ok?
    ensures Finishing(view, id, finish, now).value.promises.Keys == view.promises.Keys
  {
    hide Woken, SettledFor, StillPending, NewEdges;
  }

  /** What a committing claim wrote is issued by it still. */
  lemma CommittedRow(lib: Library, w: World, step: Step, q: Id)
    requires WorldInv(lib, w) && OverlaysIssued(lib, w) && Enabled(w.sys, step) && step.Commit?
             && step.id in w.sys.claims
    requires q in w.sys.claims[step.id].promises && q in Do(w.sys, step).db.promises
    ensures IssuerOf(lib, Do(w.sys, step).db, step.id, q)
  {
    hide SysInv, Correct, EdgesIssued, AttemptsOk, Finishing, ValidFinish, IssuedBy, View, ParentOf, IsCall, Kept;
    var id := step.id;
    var view := View(w.sys.db, w.sys.claims[id]);
    ClaimedHasRow(w.sys, id);
    CommittedView(w.sys, id);
    SameParent(w.sys.db, view, id);
    OwnRow(w.sys, id, q);
    FinishKeeps(view, id, step.finish, step.now, id);
    FinishKeeps(view, id, step.finish, step.now, q);
    assert IssuerOf(lib, view, id, q);
    IssuerKept(lib, view, Do(w.sys, step).db, id, q);
  }

  lemma OwnRow(s: System, id: Id, q: Id)
    requires id in s.claims && q in s.claims[id].promises
    ensures q in View(s.db, s.claims[id]).promises && View(s.db, s.claims[id]).promises[q] == s.claims[id].promises[q]
  {
  }

  /** What a claim commits under a child's id of a task, that task's own claim commits. */
  lemma CommittedChild(lib: Library, w: World, step: Step, c: Id, q: Id)
    requires NamesOk(lib) && WorldInv(lib, w) && OverlaysIssued(lib, w) && Enabled(w.sys, step) && step.Commit?
    requires step.id in w.sys.claims && q in w.sys.claims[step.id].promises && q in Do(w.sys, step).db.promises
             && ChildOf(c, q)
    ensures c == step.id && IssuerOf(lib, Do(w.sys, step).db, c, q)
  {
    hide NamesOk, WorldInv, OverlaysIssued, Enabled, Do, IssuedBy, ParentOf, IsCall, ChildOf;
    CommittedRow(lib, w, step, q);
    var after := Do(w.sys, step).db;
    IssuedIsChildOf(lib, ParentOf(after, step.id), q, after.promises[q].key);
    ParentId(after, step.id);
    OneParent(c, step.id, q);
  }

  lemma StepOwns(lib: Library, w: World, step: Step, c: Id)
    requires NamesOk(lib) && WorldInv(lib, w) && ChildrenInv(lib, w, c) && Enabled(w.sys, step)
    requires step.Submit? || step.Timer? ==> LeavesChildren(Outside(step), c)
    ensures OwnsChildren(lib, Do(w.sys, step).db, c)
  {
    hide NamesOk, SysInv, Correct, EdgesIssued, AttemptsOk, Do, IssuerOf, Finishing, ValidFinish, ValidCall, ValidTimer,
         Doomed, DueBatch, OverlaysIssued, ChildOf;
    var after := Do(w.sys, step).db;
    forall q | q in after.promises && ChildOf(c, q) ensures IssuerOf(lib, after, c, q) {
      if q in w.sys.db.promises {
        StepKeepsIssuer(lib, w.sys, step, c, q);
      } else {
        PromiseIsNew(w.sys, step, q);
        if step.Commit? {
          CommittedChild(lib, w, step, c, q);
        }
      }
    }
  }

  // ---------------------------------------------------------------- an attempt writes only what it issues

  lemma WrittenCalls(lib: Library, view: Db, p: Parent, a: Attempt, calls: seq<Call>, now: int, retentionMs: int,
                     flushed: set<nat>, q: Id)
    requires Inv(view) && a.status == Running && StatusOk(lib, view, p, a) && lib(p.work, a.history) == Gather(calls)
    requires var sent := FreshCalls(p, a, calls, 0, now, retentionMs, flushed);
             q in SubmitCalls(view, sent).db.promises && q !in view.promises
    ensures var sent := FreshCalls(p, a, calls, 0, now, retentionMs, flushed);
            IssuedBy(lib, p, q, SubmitCalls(view, sent).db.promises[q].key)
  {
    hide Inv, SubmitCalls, FreshCalls, ValidHistory, Issued, IssuedBy, ChildKey, CallFingerprint, CallId, CallTask,
         Refused;
    var sent := FreshCalls(p, a, calls, 0, now, retentionMs, flushed);
    var after := SubmitCalls(view, sent).db;
    InvHasPromises(view);
    SubmitKeepsRows(view, sent);
    var i :| 0 <= i < |sent| && sent[i].id == q && after.promises[q] == CallPromise(sent[i]);
    FreshOnly(p, a, calls, 0, now, retentionMs, flushed);
    assert sent[i] in sent;
    var k :| 0 <= k < |calls| && sent[i] == ChildCall(p, a.callIndex, k, calls[k], now, retentionMs);
    ChildKeyOf(p, a.callIndex, k, calls[k], now, retentionMs);
    IssuesCall(lib, p, a.history, calls, k);
  }

  lemma WrittenTimer(lib: Library, view: Db, p: Parent, a: Attempt, delayMs: int, now: int, retentionMs: int, q: Id)
    requires a.status == Running && StatusOk(lib, view, p, a) && lib(p.work, a.history) == Sleep(delayMs) && delayMs > 0
    requires q in SubmitTimerRow(view, ChildTimer(p, a.callIndex, delayMs, now, retentionMs)).db.promises
             && q !in view.promises
    ensures IssuedBy(lib, p, q,
                     SubmitTimerRow(view, ChildTimer(p, a.callIndex, delayMs, now, retentionMs)).db.promises[q].key)
  {
    hide SubmitTimerRow, ValidHistory, Issued, IssuedBy, TimerId;
    var timer := ChildTimer(p, a.callIndex, delayMs, now, retentionMs);
    SubmitTimerKeepsRows(view, timer);
    IssuesTimer(lib, p, a.history, delayMs, TimerFingerprint(timer));
  }

  /** A row that appears with an attempt's statement is issued by its task. */
  lemma WrittenIsIssued(lib: Library, view: Db, p: Parent, a: Attempt, now: int, retentionMs: int, flushed: set<nat>,
                        q: Id)
    requires Inv(view) && a.status == Running && StatusOk(lib, view, p, a) && q !in view.promises
    ensures match AdvanceAttempt(lib, view, p, a, now, retentionMs, flushed).step
            case None => true
            case Some(WriteCalls(id, calls)) =>
              var after := SubmitCalls(view, calls).db;
              q in after.promises ==> IssuedBy(lib, p, q, after.promises[q].key)
            case Some(WriteTimer(id, timer)) =>
              var after := SubmitTimerRow(view, timer).db;
              q in after.promises ==> IssuedBy(lib, p, q, after.promises[q].key)
            case Some(_) => false
  {
    hide Inv, SubmitCalls, SubmitTimerRow, StatusOk, IssuedBy, FreshCalls, AfterGroup, AfterTimer, AllThere,
         GroupRefused, ChildTimer, ValidTimer, TimerId;
    match lib(p.work, a.history)
    case Gather(calls) =>
      if q in SubmitCalls(view, FreshCalls(p, a, calls, 0, now, retentionMs, flushed)).db.promises {
        WrittenCalls(lib, view, p, a, calls, now, retentionMs, flushed, q);
      }
    case Sleep(delayMs) =>
      if delayMs > 0 && q in SubmitTimerRow(view, ChildTimer(p, a.callIndex, delayMs, now, retentionMs)).db.promises {
        WrittenTimer(lib, view, p, a, delayMs, now, retentionMs, q);
      }
    case _ =>
  }

  /** Whatever an advancing attempt's statement leaves in its transaction is issued by its task. */
  lemma AdvanceWrites(lib: Library, w: World, id: Id, now: int, retentionMs: int, flushed: set<nat>, step: Step, q: Id)
    requires WorldInv(lib, w) && OverlaysIssued(lib, w) && id in w.attempts && id in w.sys.claims
             && IsCall(w.sys.db, id)
    requires w.attempts[id].status == Running && Moved(lib, w, id, now, retentionMs, flushed).step == Some(step)
    requires (step.WriteCalls? || step.WriteTimer?) && step.id == id && Enabled(w.sys, step)
    requires id in Do(w.sys, step).claims && q in Do(w.sys, step).claims[id].promises
    ensures IssuedBy(lib, ParentOf(w.sys.db, id), q, Do(w.sys, step).claims[id].promises[q].key)
  {
    hide SysInv, Correct, EdgesIssued, AttemptsOk, IsCall, Do, Enabled, View, Inv, SubmitCalls, SubmitTimerRow,
         StatusOk, IssuedBy, AdvanceAttempt, ParentOf, OverlaysIssued;
    var view := Inside(w, id);
    ViewRows(w.sys, id);
    StatusHolds(lib, w, id);
    OwnView(w.sys, step, id);
    OwnRows(lib, w, step, id, q);
    if q !in view.promises {
      WrittenIsIssued(lib, view, ParentOf(w.sys.db, id), w.attempts[id], now, retentionMs, flushed, q);
    }
  }

  lemma OverlayRowIssued(lib: Library, w: World, id: Id, q: Id)
    requires OverlaysIssued(lib, w) && id in w.sys.claims && q in w.sys.claims[id].promises
    ensures IsCall(w.sys.db, id) && IssuedBy(lib, ParentOf(w.sys.db, id), q, w.sys.claims[id].promises[q].key)
  {
    hide IssuedBy, ParentOf, IsCall;
    assert OverlayIssued(lib, w.sys.db, id, w.sys.claims[id]);
  }

  /** The rows a claim has written, after one more statement of its own. */
  lemma OwnRows(lib: Library, w: World, step: Step, id: Id, q: Id)
    requires WorldInv(lib, w) && OverlaysIssued(lib, w) && Enabled(w.sys, step) && id in w.sys.claims
    requires (step.WriteCalls? || step.WriteTimer?) && step.id == id
    requires id in Do(w.sys, step).claims && q in Do(w.sys, step).claims[id].promises
    ensures q in View(w.sys.db, Do(w.sys, step).claims[id]).promises
    ensures View(w.sys.db, Do(w.sys, step).claims[id]).promises[q] == Do(w.sys, step).claims[id].promises[q]
    ensures IsCall(w.sys.db, id)
    ensures q in Inside(w, id).promises ==>
              IssuedBy(lib, ParentOf(w.sys.db, id), q, Do(w.sys, step).claims[id].promises[q].key)
  {
    hide Inv, Correct, EdgesIssued, AttemptsOk, OverlaysApart, ClaimOk, SubmitCalls, SubmitTimerRow, IssuedBy,
         ValidCall, ValidTimer, PromiseRowOk, TaskRowOk, TaskMatches, KeyOk, ParentOf, IsCall, CallPromise, CallTask,
         TimerPromise;
    var o := w.sys.claims[id];
    var view := View(w.sys.db, o);
    assert OverlayOk(w.sys.db, id, o) && OverlayIssued(lib, w.sys.db, id, o);
    ViewRows(w.sys, id);
    InvHasPromises(view);
    if step.WriteCalls? {
      SubmitKeepsRows(view, step.calls);
    } else {
      SubmitTimerKeepsRows(view, step.timer);
    }
  }

  // ---------------------------------------------------------------- every step of the world

  lemma OutsideChildren(lib: Library, w: World, step: Step, child: Id)
    requires NamesOk(lib) && WorldInv(lib, w) && ChildrenInv(lib, w, child)
    requires WorldEnabled(lib, w, Outside(step)) && LeavesChildren(Outside(step), child)
    ensures ChildrenInv(lib, WorldDo(lib, w, Outside(step)), child)
  {
    hide SysInv, Correct, EdgesIssued, AttemptsOk, Do, Enabled, OverlayIssued, OwnsChildren;
    StepOwns(lib, w, step, child);
    OtherClaims(w.sys, step);
    forall c | c in w.sys.claims ensures OverlayIssued(lib, Do(w.sys, step).db, c, w.sys.claims[c]) {
      OthersIssued(lib, w, step, c);
    }
  }

  lemma EndChildren(lib: Library, w: World, step: Step, child: Id)
    requires NamesOk(lib) && WorldInv(lib, w) && ChildrenInv(lib, w, child)
    requires Enabled(w.sys, step) && (step.Commit? || step.Rollback?)
    ensures OwnsChildren(lib, Do(w.sys, step).db, child)
    ensures forall c :: c in Do(w.sys, step).claims ==>
              OverlayIssued(lib, Do(w.sys, step).db, c, Do(w.sys, step).claims[c])
  {
    hide SysInv, Correct, EdgesIssued, AttemptsOk, Do, Enabled, OverlayIssued, OwnsChildren;
    StepOwns(lib, w, step, child);
    OtherClaims(w.sys, step);
    forall c | c in Do(w.sys, step).claims ensures OverlayIssued(lib, Do(w.sys, step).db, c, w.sys.claims[c]) {
      OthersIssued(lib, w, step, c);
    }
  }

  lemma BeginChildren(lib: Library, w: World, id: Id, now: int, child: Id)
    requires NamesOk(lib) && WorldInv(lib, w) && ChildrenInv(lib, w, child) && WorldEnabled(lib, w, Begin(id, now))
    ensures ChildrenInv(lib, WorldDo(lib, w, Begin(id, now)), child)
  {
    hide SysInv, Correct, EdgesIssued, AttemptsOk, Do, Enabled, OwnsChildren, IssuedBy, ParentOf, IsCall;
    var step := Claim(id, now);
    StepOwns(lib, w, step, child);
    OtherClaims(w.sys, step);
    NotClaimed(w.sys, id, now);
    BeginsCall(lib, w, id, now);
  }

  lemma AdvanceChildren(lib: Library, w: World, id: Id, now: int, retentionMs: int, flushed: set<nat>, child: Id)
    requires WorldInv(lib, w) && ChildrenInv(lib, w, child)
             && WorldEnabled(lib, w, Advance(id, now, retentionMs, flushed))
    ensures ChildrenInv(lib, WorldDo(lib, w, Advance(id, now, retentionMs, flushed)), child)
  {
    hide SysInv, Correct, EdgesIssued, AttemptsOk, Do, Enabled, OwnsChildren, IssuedBy, ParentOf, IsCall,
         AdvanceAttempt, View;
    var next := WorldDo(lib, w, Advance(id, now, retentionMs, flushed));
    var moved := Moved(lib, w, id, now, retentionMs, flushed);
    if moved.step.Some? {
      var step := moved.step.value;
      AdvancedOkStep(lib, w, id, now, retentionMs, flushed);
      OtherClaims(w.sys, step);
      WriteKeepsDb(w.sys, step);
      assert OverlayIssued(lib, w.sys.db, id, w.sys.claims[id]);
      forall q | q in next.sys.claims[id].promises
        ensures IssuedBy(lib, ParentOf(w.sys.db, id), q, next.sys.claims[id].promises[q].key)
      {
        AdvanceWrites(lib, w, id, now, retentionMs, flushed, step, q);
      }
    }
  }

  lemma WriteKeepsDb(s: System, step: Step)
    requires Enabled(s, step) && (step.WriteCalls? || step.WriteTimer?)
    ensures Do(s, step).db == s.db
  {
    hide Delta, SubmitCalls, SubmitTimerRow;
  }

  lemma WorldStepKeepsChildren(lib: Library, w: World, step: WorldStep, child: Id)
    requires NamesOk(lib) && WorldInv(lib, w) && ChildrenInv(lib, w, child)
    requires WorldEnabled(lib, w, step) && LeavesChildren(step, child)
    ensures ChildrenInv(lib, WorldDo(lib, w, step), child)
  {
    hide NamesOk, WorldInv, OwnsChildren, OverlayIssued, Do, Enabled, Moved, Report;
    match step
    case Outside(outside) => OutsideChildren(lib, w, outside, child);
    case Begin(id, now) => BeginChildren(lib, w, id, now, child);
    case Advance(id, now, retentionMs, flushed) => AdvanceChildren(lib, w, id, now, retentionMs, flushed, child);
    case Interrupt(id, status) =>
    case Finish(id, now) => EndChildren(lib, w, Commit(id, Report(w.attempts[id].status), now), child);
    case Abandon(id) => EndChildren(lib, w, Rollback(id), child);
  }

  lemma {:induction false} RunKeepsChildren(lib: Library, w: World, steps: seq<WorldStep>, child: Id)
    requires NamesOk(lib) && WorldInv(lib, w) && ChildrenInv(lib, w, child)
    requires WorldLegal(lib, w, steps) && AllLeaveChildren(steps, child)
    ensures WorldInv(lib, WorldReach(lib, w, steps)) && ChildrenInv(lib, WorldReach(lib, w, steps), child)
    decreases |steps|
  {
    hide NamesOk, WorldInv, ChildrenInv, WorldEnabled, WorldDo, LeavesChildren;
    if steps != [] {
      WorldStepKeepsInv(lib, w, steps[0]);
      WorldStepKeepsChildren(lib, w, steps[0], child);
      forall i | 0 <= i < |steps| - 1 ensures steps[1..][i] == steps[i + 1] {
      }
      RunKeepsChildren(lib, WorldDo(lib, w, steps[0]), steps[1..], child);
    }
  }

  // ---------------------------------------------------------------- no conflict

  /** What a claim sees under an id it issues was submitted by its own task. */
  lemma OwnChild(lib: Library, w: World, id: Id, q: Id, key: Fingerprint)
    requires NamesOk(lib) && WorldInv(lib, w) && ChildrenInv(lib, w, id) && id in w.sys.claims && IsCall(w.sys.db, id)
    requires q in Inside(w, id).promises && IssuedBy(lib, ParentOf(w.sys.db, id), q, key)
    ensures IssuedBy(lib, ParentOf(w.sys.db, id), q, Inside(w, id).promises[q].key)
  {
    hide NamesOk, SysInv, Correct, EdgesIssued, AttemptsOk, OverlaysIssued, IssuedBy, IsCall, ChildOf, ParentOf;
    IssuedIsChildOf(lib, ParentOf(w.sys.db, id), q, key);
    ParentId(w.sys.db, id);
    CommittedView(w.sys, id);
    if q !in w.sys.db.promises {
      OverlayRowIssued(lib, w, id, q);
    }
  }

  lemma {:induction false} FreshDistinct(p: Parent, a: Attempt, calls: seq<Call>, from: nat, now: int, retentionMs: int,
                                         flushed: set<nat>)
    requires from <= |calls|
    ensures DistinctIds(FreshCalls(p, a, calls, from, now, retentionMs, flushed))
    decreases |calls| - from
  {
    hide Refused, GroupRefused, CallId;
    if from < |calls| {
      FreshDistinct(p, a, calls, from + 1, now, retentionMs, flushed);
      FreshOnly(p, a, calls, from + 1, now, retentionMs, flushed);
      var rest := FreshCalls(p, a, calls, from + 1, now, retentionMs, flushed);
      forall i | 0 <= i < |rest| ensures rest[i].id != CallId(p.id, a.callIndex, from, calls[from]) {
        assert rest[i] in rest;
        var k :| from + 1 <= k < |calls| && rest[i] == ChildCall(p, a.callIndex, k, calls[k], now, retentionMs);
        assert rest[i].id == CallId(p.id, a.callIndex, k, calls[k]);
        if rest[i].id == CallId(p.id, a.callIndex, from, calls[from]) {
          GroupIdsDistinct(p.id, a.callIndex, calls, from, k);
        }
      }
    }
  }

  lemma {:induction false} InsertsKeepRoots(db: Db, calls: seq<SubmitCall>, graph: Id)
    requires RootsPresent(db) && graph in db.promises && db.promises[graph].root.None?
    requires forall i :: 0 <= i < |calls| ==> calls[i].root == Some(graph)
    ensures RootsPresent(InsertCalls(db, calls))
    decreases |calls|
  {
    hide CallTask;
    if calls != [] {
      var next := InsertCall(db, calls[0]);
      forall q | q in next.promises ensures RootPresent(next, q) {
        assert q in db.promises ==> RootPresent(db, q);
      }
      forall i | 0 <= i < |calls| - 1 ensures calls[1..][i] == calls[i + 1] {
      }
      InsertsKeepRoots(next, calls[1..], graph);
    }
  }

  /** The store has other work under an id of the batch. */
  predicate TakenByOther(view: Db, calls: seq<SubmitCall>) {
    exists i :: 0 <= i < |calls| && calls[i].id in view.promises
                && view.promises[calls[i].id].key != CallFingerprint(calls[i])
  }

  /** A batch of distinct ids in one graph raises exactly when other work is stored under one of them. */
  lemma BatchConflictsIff(view: Db, calls: seq<SubmitCall>, graph: Id)
    requires Inv(view) && DistinctIds(calls) && graph in view.promises && view.promises[graph].root.None?
    requires forall i :: 0 <= i < |calls| ==> calls[i].root == Some(graph)
    ensures SubmitCalls(view, calls).rows.Err? <==> TakenByOther(view, calls)
  {
    hide CallTask, CountersExact, RowsOk, WaitsOk, CallsHaveTasks, CallFingerprint, TasksOk, RootsPresent, CallPromise;
    NoDuplicate(calls, 0);
    InsertCallsHas(view, calls);
    InsertsKeepRoots(view, calls, graph);
    InvHasPromises(view);
    var after := InsertCalls(view, calls);
    if i :| 0 <= i < |calls| && calls[i].id in view.promises
            && view.promises[calls[i].id].key != CallFingerprint(calls[i]) {
      InsertsKeepRow(view, calls, calls[i].id);
      ConflictFound(after, calls, i);
    } else {
      forall i | 0 <= i < |calls| ensures after.promises[calls[i].id].key == CallFingerprint(calls[i]) {
        BatchRow(view, calls, i);
      }
      NoConflict(after, calls);
    }
  }

  /** The batch's own row, or the row that was there. */
  lemma BatchRow(view: Db, calls: seq<SubmitCall>, i: nat)
    requires TasksHavePromises(view) && DistinctIds(calls) && i < |calls|
    ensures calls[i].id in InsertCalls(view, calls).promises
    ensures InsertCalls(view, calls).promises[calls[i].id].key
            == if calls[i].id in view.promises then view.promises[calls[i].id].key else CallFingerprint(calls[i])
  {
    hide CallTask, CallFingerprint;
    InsertCallsHas(view, calls);
    if calls[i].id in view.promises {
      InsertsKeepRow(view, calls, calls[i].id);
    } else {
      InsertedRow(view, calls, calls[i].id);
      var after := InsertCalls(view, calls);
      var j :| 0 <= j < |calls| && calls[j].id == calls[i].id && after.promises[calls[i].id] == CallPromise(calls[j]);
      assert j == i;
    }
  }

  lemma {:induction false} InsertsKeepRow(db: Db, calls: seq<SubmitCall>, id: Id)
    requires id in db.promises
    ensures id in InsertCalls(db, calls).promises && InsertCalls(db, calls).promises[id] == db.promises[id]
    decreases |calls|
  {
    hide CallTask, CallPromise;
    if calls != [] {
      InsertsKeepRow(InsertCall(db, calls[0]), calls[1..], id);
    }
  }

  lemma {:induction false} ConflictFound(db: Db, calls: seq<SubmitCall>, i: nat)
    requires forall k :: 0 <= k < |calls| ==> calls[k].id in db.promises
    requires i < |calls| && db.promises[calls[i].id].key != CallFingerprint(calls[i])
    ensures FirstConflict(db, calls).Some?
    decreases |calls|
  {
    hide CallFingerprint;
    if i > 0 {
      ConflictFound(db, calls[1..], i - 1);
    }
  }

  lemma GraphIsRoot(s: System, id: Id)
    requires SysInv(s) && id in s.claims
    ensures id in s.db.promises
    ensures var view := View(s.db, s.claims[id]);
            GraphOf(s.db, id) in view.promises && view.promises[GraphOf(s.db, id)].root.None?
  {
    hide RowsOk, TasksOk, WaitsOk, CallsHaveTasks, CountersExact, OverlaysApart, OverlayOk;
    CommittedView(s, id);
    assert ClaimOk(s.db, id);
    assert RootPresent(s.db, id);
  }

  /** A replayed call never conflicts. In every state reachable by a run in which no outside
      submission takes an id that is a child's of this very task, an attempt of the task that
      gathers calls finds, under every id it issues, nothing or the very work it asks for: its batch
      raises nothing, whatever the clock and whichever of its requests the memo already answers. */
  lemma ReplayNeverConflicts(lib: Library, steps: seq<WorldStep>, id: Id, calls: seq<Call>, now: int, retentionMs: int,
                             flushed: set<nat>)
    requires NamesOk(lib) && WorldLegal(lib, START, steps) && AllLeaveChildren(steps, id)
    requires var w := WorldReach(lib, START, steps);
             && id in w.attempts && w.attempts[id].status == Running && IsCall(w.sys.db, id) && id in w.sys.claims
             && lib(ParentOf(w.sys.db, id).work, w.attempts[id].history) == Gather(calls)
    ensures var w := WorldReach(lib, START, steps);
            SubmitCalls(Inside(w, id),
                        FreshCalls(ParentOf(w.sys.db, id), w.attempts[id], calls, 0, now, retentionMs,
                                   flushed)).rows.Ok?
  {
    hide NamesOk, WorldLegal, WorldReach, WorldInv, ChildrenInv, AllLeaveChildren, IsCall, ParentOf, SubmitCalls;
    StartInv(lib);
    StartChildren(lib, id);
    RunKeepsChildren(lib, START, steps, id);
    GatherNeverConflicts(lib, WorldReach(lib, START, steps), id, calls, now, retentionMs, flushed);
  }

  lemma StartChildren(lib: Library, id: Id)
    ensures ChildrenInv(lib, START, id)
  {
  }

  /** In any reachable state an attempt's batch raises exactly when, under an id it sends, the claim
      sees other work than the call it sends. */
  lemma GatherConflictsIff(lib: Library, w: World, id: Id, calls: seq<Call>, now: int, retentionMs: int,
                           flushed: set<nat>)
    requires WorldInv(lib, w) && id in w.attempts && IsCall(w.sys.db, id) && id in w.sys.claims
    ensures var sent := FreshCalls(ParentOf(w.sys.db, id), w.attempts[id], calls, 0, now, retentionMs, flushed);
            SubmitCalls(Inside(w, id), sent).rows.Err? <==> TakenByOther(Inside(w, id), sent)
  {
    hide SysInv, Correct, EdgesIssued, AttemptsOk, IsCall, SubmitCalls, FreshCalls, View, CallFingerprint, CallId, Inv,
         TakenByOther, Refused;
    var p := ParentOf(w.sys.db, id);
    var a := w.attempts[id];
    var sent := FreshCalls(p, a, calls, 0, now, retentionMs, flushed);
    ViewRows(w.sys, id);
    GraphIsRoot(w.sys, id);
    FreshDistinct(p, a, calls, 0, now, retentionMs, flushed);
    FreshOnly(p, a, calls, 0, now, retentionMs, flushed);
    forall i | 0 <= i < |sent| ensures sent[i].root == Some(p.graph) {
      assert sent[i] in sent;
    }
    BatchConflictsIff(Inside(w, id), sent, p.graph);
  }

  lemma GatherNeverConflicts(lib: Library, w: World, id: Id, calls: seq<Call>, now: int, retentionMs: int,
                             flushed: set<nat>)
    requires NamesOk(lib) && WorldInv(lib, w) && ChildrenInv(lib, w, id)
    requires id in w.attempts && w.attempts[id].status == Running && IsCall(w.sys.db, id) && id in w.sys.claims
    requires lib(ParentOf(w.sys.db, id).work, w.attempts[id].history) == Gather(calls)
    ensures SubmitCalls(Inside(w, id),
                        FreshCalls(ParentOf(w.sys.db, id), w.attempts[id], calls, 0, now, retentionMs,
                                   flushed)).rows.Ok?
  {
    hide NamesOk, SysInv, Correct, EdgesIssued, AttemptsOk, ChildrenInv, IsCall, SubmitCalls, FreshCalls, IssuedBy,
         Issued, ValidHistory, View, CallFingerprint, CallId, ChildKey, Inv;
    var p := ParentOf(w.sys.db, id);
    var a := w.attempts[id];
    var sent := FreshCalls(p, a, calls, 0, now, retentionMs, flushed);
    StatusHolds(lib, w, id);
    FreshOnly(p, a, calls, 0, now, retentionMs, flushed);
    forall i | 0 <= i < |sent|
      ensures sent[i].id in Inside(w, id).promises ==>
                Inside(w, id).promises[sent[i].id].key == CallFingerprint(sent[i])
    {
      assert sent[i] in sent;
      var k :| 0 <= k < |calls| && sent[i] == ChildCall(p, a.callIndex, k, calls[k], now, retentionMs);
      if sent[i].id in Inside(w, id).promises {
        ChildKeyOf(p, a.callIndex, k, calls[k], now, retentionMs);
        IssuesCall(lib, p, a.history, calls, k);
        OwnChild(lib, w, id, sent[i].id, ChildKey(p, a.callIndex, k, calls[k]));
        IssuedCallMatches(lib, p, a.history, calls, k, sent[i].id, Inside(w, id).promises[sent[i].id].key);
      }
    }
    GatherConflictsIff(lib, w, id, calls, now, retentionMs, flushed);
  }
}
