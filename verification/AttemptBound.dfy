/** Every resumed attempt gets past the group its predecessor suspended on, so suspensions are no
    more than the groups of the function's evaluation. */
module AttemptBound {
  import opened Wrappers
  import opened Store
  import opened StoreLaws
  import opened StoreRuns
  import opened StoreSafety
  import opened Programs
  import opened PromiseIds
  import opened Workflow
  import opened Issuing
  import opened WorkflowLaws

  // ---------------------------------------------------------------- the invariant

  /** A child is in the store, in its task's graph, and terminal. */
  predicate TerminalIn(db: Db, p: Parent, child: Id) {
    child in db.promises && db.promises[child].root == Some(p.graph) && db.promises[child].state != Pending
  }

  /** A child is in the store, in its task's graph, and is terminal or awaited by its task. */
  predicate Accounted(db: Db, p: Parent, child: Id) {
    && child in db.promises && db.promises[child].root == Some(p.graph)
    && (db.promises[child].state != Pending || Edge(p.id, child) in db.waits)
  }

  /** All children of the groups up to the one numbered `last` are accounted for. */
  ghost predicate AccountedUpTo(lib: Library, db: Db, p: Parent, last: nat) {
    forall g, child, key :: IssuesAt(lib, p, g, child, key) && |g| <= last ==> Accounted(db, p, child)
  }

  /** All children of the groups before the one numbered `next` are terminal. */
  ghost predicate TerminalBefore(lib: Library, view: Db, p: Parent, next: nat) {
    forall g, child, key :: IssuesAt(lib, p, g, child, key) && |g| < next ==> TerminalIn(view, p, child)
  }

  /** The evaluation has a group with this number. */
  ghost predicate HasGroup(lib: Library, work: Work, n: nat) {
    exists g :: |g| == n && ValidHistory(lib, work, g) && Width(lib(work, g)) > 0
  }

  ghost predicate Increasing(s: seq<nat>) {
    forall i, j :: 0 <= i < j < |s| ==> s[i] < s[j]
  }

  /** What a task's committed suspensions say of the store. */
  ghost predicate RecordOk(lib: Library, db: Db, c: Id, record: seq<nat>) {
    record != [] ==>
      && IsCall(db, c) && Increasing(record)
      && (forall i :: 0 <= i < |record| ==> HasGroup(lib, ParentOf(db, c).work, record[i]))
      && AccountedUpTo(lib, db, ParentOf(db, c), record[|record| - 1])
  }

  ghost predicate RecordsOk(lib: Library, w: World) {
    forall c :: c in w.suspensions ==> c in w.sys.db.tasks && RecordOk(lib, w.sys.db, c, w.suspensions[c])
  }

  ghost predicate AllTerminal(memo: map<Id, Promise>) {
    forall id :: id in memo ==> memo[id].state != Pending
  }

  /** How far an attempt has got, given the record of its predecessors. */
  ghost predicate ProgressOk(lib: Library, view: Db, p: Parent, a: Attempt, record: seq<nat>) {
    match a.status
    case Running => AllTerminal(a.memo) && TerminalBefore(lib, view, p, |a.history|)
    case Suspending(awaited) =>
      && (record != [] ==> record[|record| - 1] < |a.history|)
      && HasGroup(lib, p.work, |a.history|)
      && forall g, child, key :: IssuesAt(lib, p, g, child, key) && |g| <= |a.history| ==>
           TerminalIn(view, p, child) || child in awaited
    case _ => true
  }

  ghost predicate AttemptsProgress(lib: Library, w: World) {
    forall c :: c in w.attempts ==>
      && c in w.sys.claims && IsCall(w.sys.db, c)
      && ProgressOk(lib, Inside(w, c), ParentOf(w.sys.db, c), w.attempts[c], SuspensionsOf(w, c))
  }

  ghost predicate BoundInv(lib: Library, w: World) {
    RecordsOk(lib, w) && AttemptsProgress(lib, w)
  }

  // ---------------------------------------------------------------- one attempt moves

  /** Nothing a claimed task awaits is pending. */
  lemma ClaimedAwaitsNothing(s: System, p: Parent, child: Id)
    requires SysInv(s) && p.id in s.claims && Accounted(s.db, p, child)
    ensures TerminalIn(s.db, p, child)
  {
    hide RowsOk, TasksOk, WaitsOk, CallsHaveTasks, RootsPresent, OverlaysApart, OverlayOk;
    assert ClaimOk(s.db, p.id);
    CounterOf(s.db, p.id);
    assert PendingAwaits(s.db, p.id) == {};
    assert child !in PendingAwaits(s.db, p.id);
  }

  /** In a claim's view the children its predecessors left are terminal. */
  lemma RecordIsTerminal(lib: Library, w: World, c: Id)
    requires WorldInv(lib, w) && RecordsOk(lib, w) && c in w.sys.claims && SuspensionsOf(w, c) != []
    ensures IsCall(w.sys.db, c)
    ensures TerminalBefore(lib, Inside(w, c), ParentOf(w.sys.db, c), SuspensionsOf(w, c)[|SuspensionsOf(w, c)| - 1] + 1)
  {
    hide SysInv, Correct, EdgesIssued, AttemptsOk, IssuesAt, Accounted, TerminalIn, HasGroup, ParentOf, View;
    var record := SuspensionsOf(w, c);
    var p := ParentOf(w.sys.db, c);
    assert RecordOk(lib, w.sys.db, c, record);
    forall g, child, key | IssuesAt(lib, p, g, child, key) && |g| <= record[|record| - 1]
      ensures TerminalIn(Inside(w, c), p, child)
    {
      ParentId(w.sys.db, c);
      ClaimedAwaitsNothing(w.sys, p, child);
      SeenInside(w.sys, c, p, child);
    }
  }

  lemma ParentId(db: Db, c: Id)
    requires IsCall(db, c)
    ensures ParentOf(db, c).id == c
  {
  }

  lemma SeenInside(s: System, c: Id, p: Parent, child: Id)
    requires SysInv(s) && c in s.claims && TerminalIn(s.db, p, child)
    ensures TerminalIn(View(s.db, s.claims[c]), p, child)
  {
    hide SysInv, View;
    CommittedView(s, c);
  }

  /** Terminal rows stay terminal when rows are added. */
  lemma TerminalStays(lib: Library, view: Db, after: Db, p: Parent, next: nat)
    requires TerminalBefore(lib, view, p, next) && KeepsRows(view, after)
    ensures TerminalBefore(lib, after, p, next)
  {
    hide IssuesAt;
  }

  /** The children of the group at a history are exactly its calls. */
  lemma ChildrenOfGroup(lib: Library, p: Parent, history: History, g: History, child: Id, key: Fingerprint)
    requires ValidHistory(lib, p.work, history) && IssuesAt(lib, p, g, child, key) && |g| == |history|
    ensures g == history
  {
    hide IssuesAt;
    IssuesValid(lib, p, g, child, key);
    HistoriesAgree(lib, p.work, g, history);
  }

  lemma IssuesValid(lib: Library, p: Parent, g: History, child: Id, key: Fingerprint)
    requires IssuesAt(lib, p, g, child, key)
    ensures ValidHistory(lib, p.work, g) && Width(lib(p.work, g)) > 0
  {
    hide ValidHistory, Issued, ChildKey;
    match lib(p.work, g)
    case Gather(calls) => var k :| CallAt(lib, p, g, calls, k, child, key);
    case _ =>
  }

  /** Rows carry the root they were submitted with. */
  ghost predicate KeysMatch(db: Db) {
    forall q :: q in db.promises ==> db.promises[q].key.root == db.promises[q].root
  }

  lemma RowsMatch(db: Db)
    requires RowsOk(db)
    ensures KeysMatch(db)
  {
    hide PromiseRowOk;
    forall q | q in db.promises ensures db.promises[q].key.root == db.promises[q].root {
      assert KeyOk(q, db.promises[q]);
    }
  }

  lemma SubmitMatch(db: Db, calls: seq<SubmitCall>)
    requires RowsOk(db) && TasksHavePromises(db)
    ensures KeysMatch(SubmitCalls(db, calls).db)
  {
    hide SubmitCalls, CallTask, RowsOk;
    RowsMatch(db);
    SubmitKeepsRows(db, calls);
  }

  lemma TimerMatch(db: Db, t: SubmitTimer)
    requires RowsOk(db)
    ensures KeysMatch(SubmitTimerRow(db, t).db)
  {
    hide SubmitTimerRow, RowsOk;
    RowsMatch(db);
    SubmitTimerKeepsRows(db, t);
  }

  lemma RememberedRoot(lib: Library, view: Db, p: Parent, id: Id, row: Promise)
    requires KeysMatch(view) && Remembered(lib, view, p, id, row)
    ensures view.promises[id].root == Some(p.graph)
  {
    hide IssuedBy;
    IssuedIsChild(lib, p, id, row.key);
  }

  lemma RememberAll(memo: map<Id, Promise>, ids: seq<Id>, rows: seq<Promise>)
    requires |ids| == |rows| && AllTerminal(memo) && forall k :: 0 <= k < |rows| ==> rows[k].state != Pending
    ensures AllTerminal(Remember(memo, ids, rows))
    decreases |ids|
  {
    if ids != [] {
      RememberAll(memo[ids[0] := rows[0]], ids[1..], rows[1..]);
    }
  }

  /** Every child of the current group is one of the group's ids. */
  lemma GroupChild(lib: Library, p: Parent, history: History, calls: seq<Call>, child: Id, key: Fingerprint)
    returns (k: nat)
    requires IssuesAt(lib, p, history, child, key) && lib(p.work, history) == Gather(calls)
    ensures k < |calls| && child == CallId(p.id, Issued(lib, p.work, history), k, calls[k])
  {
    hide ValidHistory, Issued, ChildKey, CallId;
    k :| CallAt(lib, p, history, calls, k, child, key);
  }

  /** After a group's rows have come back, the attempt's progress is recorded truly. */
  lemma AfterGroupProgress(lib: Library, view: Db, p: Parent, a: Attempt, calls: seq<Call>, ids: seq<Id>,
                           rows: seq<Promise>, record: seq<nat>)
    requires ValidHistory(lib, p.work, a.history) && a.callIndex == Issued(lib, p.work, a.history)
    requires a.status == Running && lib(p.work, a.history) == Gather(calls)
             && GroupOk(lib, view, p, a.callIndex, calls, ids, rows)
    requires AllTerminal(a.memo) && TerminalBefore(lib, view, p, |a.history|) && KeysMatch(view)
    requires record != [] && |a.history| <= record[|record| - 1] ==>
               forall k :: 0 <= k < |rows| ==> rows[k].state != Pending
    ensures ProgressOk(lib, view, p, AfterGroup(a, ids, rows), record)
  {
    hide ValidHistory, Issued, ChildKey, CallId, IssuesAt, IssuedBy, HasGroup, AllTerminal;
    var next := AfterGroup(a, ids, rows);
    PendingIdsAreGroupIds(ids, rows);
    forall g, child, key | IssuesAt(lib, p, g, child, key) && |g| == |a.history|
      ensures TerminalIn(view, p, child) || child in PendingIds(ids, rows)
    {
      ChildrenOfGroup(lib, p, a.history, g, child, key);
      var k := GroupChild(lib, p, a.history, calls, child, key);
      assert Remembered(lib, view, p, ids[k], rows[k]);
      RememberedRoot(lib, view, p, ids[k], rows[k]);
    }
    if PendingIds(ids, rows) != [] {
      var first := PendingIds(ids, rows)[0];
      assert first in PendingIds(ids, rows);
      var k :| 0 <= k < |ids| && ids[k] == first && rows[k].state == Pending;
      assert rows[k].state == Pending;
      WidthHere(lib, p.work, a.history);
      assert forall g, child, key :: IssuesAt(lib, p, g, child, key) && |g| < |a.history| ==>
               TerminalIn(view, p, child);
    } else {
      RememberAll(a.memo, ids, rows);
    }
  }

  lemma WidthHere(lib: Library, work: Work, history: History)
    requires ValidHistory(lib, work, history) && Width(lib(work, history)) > 0
    ensures HasGroup(lib, work, |history|)
  {
  }

  /** A group at or before the last suspension finds every child terminal. */
  lemma ReplayedRows(lib: Library, view: Db, p: Parent, a: Attempt, calls: seq<Call>, k: nat, now: int,
                     retentionMs: int, flushed: set<nat>)
    requires Inv(view) && AttemptOk(lib, view, p, a) && a.status == Running && lib(p.work, a.history) == Gather(calls)
             && k < |calls|
    requires AllTerminal(a.memo) && TerminalBefore(lib, view, p, |a.history| + 1)
    ensures var after := SubmitCalls(view, FreshCalls(p, a, calls, 0, now, retentionMs, flushed)).db;
            var id := CallId(p.id, a.callIndex, k, calls[k]);
            (id in a.memo || id in after.promises) && RowOf(a, after, id).state != Pending
  {
    hide Inv, SubmitCalls, FreshCalls, IssuedBy, Issued, ValidHistory, MemoOk, ChildKey, CallId, CallPromise, CallTask;
    var sent := FreshCalls(p, a, calls, 0, now, retentionMs, flushed);
    InvHasPromises(view);
    SubmitKeepsRows(view, sent);
    var id := CallId(p.id, a.callIndex, k, calls[k]);
    assert CallAt(lib, p, a.history, calls, k, id, ChildKey(p, a.callIndex, k, calls[k]));
    assert IssuesAt(lib, p, a.history, id, ChildKey(p, a.callIndex, k, calls[k]));
    assert TerminalIn(view, p, id);
  }

  lemma GatherProgress(lib: Library, view: Db, p: Parent, a: Attempt, calls: seq<Call>, now: int, retentionMs: int,
                       flushed: set<nat>, record: seq<nat>)
    requires Inv(view) && AttemptOk(lib, view, p, a) && a.status == Running && lib(p.work, a.history) == Gather(calls)
    requires ProgressOk(lib, view, p, a, record)
    requires record != [] ==> TerminalBefore(lib, view, p, record[|record| - 1] + 1)
    ensures var sent := FreshCalls(p, a, calls, 0, now, retentionMs, flushed);
            ProgressOk(lib, SubmitCalls(view, sent).db, p,
                       AdvanceGather(view, p, a, calls, now, retentionMs, flushed).attempt, record)
  {
    hide Inv, ChildKey, CallFingerprint, GroupRefused, FreshCalls, Issued, ValidHistory, IssuedBy, SubmitCalls,
         AfterGroup, CallId, Remembered, MemoOk, AllTerminal, IssuesAt, HasGroup, TerminalIn, CallPromise, CallTask,
         TerminalBefore, RowsOk, KeysMatch;
    var sent := FreshCalls(p, a, calls, 0, now, retentionMs, flushed);
    var after := SubmitCalls(view, sent).db;
    InvHasPromises(view);
    SubmitKeepsRows(view, sent);
    InvRows(view);
    SubmitMatch(view, sent);
    TerminalStays(lib, view, after, p, |a.history|);
    if !GroupRefused(p, a, calls, now, retentionMs) && SubmitCalls(view, sent).rows.Ok? {
      forall k | 0 <= k < |calls|
        ensures var id := CallId(p.id, a.callIndex, k, calls[k]);
                && (id in a.memo || id in after.promises)
                && RowOf(a, after, id).key == ChildKey(p, a.callIndex, k, calls[k])
                && Remembered(lib, after, p, id, RowOf(a, after, id))
                && (record != [] && |a.history| <= record[|record| - 1] ==> RowOf(a, after, id).state != Pending)
      {
        GroupRow(lib, view, p, a, calls, k, now, retentionMs, flushed);
        if record != [] && |a.history| <= record[|record| - 1] {
          TerminalEarlier(lib, view, p, |a.history| + 1, record[|record| - 1] + 1);
          ReplayedRows(lib, view, p, a, calls, k, now, retentionMs, flushed);
        }
      }
      AfterGroupProgress(lib, after, p, a, calls, GroupIds(p, a, calls), GroupRows(p, a, after, calls), record);
    }
  }

  lemma TerminalEarlier(lib: Library, view: Db, p: Parent, n: nat, m: nat)
    requires TerminalBefore(lib, view, p, m) && n <= m
    ensures TerminalBefore(lib, view, p, n)
  {
    hide IssuesAt, TerminalIn;
  }

  // ---------------------------------------------------------------- one attempt sleeps

  lemma AfterTimerProgress(lib: Library, view: Db, p: Parent, a: Attempt, delayMs: int, id: Id, row: Promise,
                           record: seq<nat>)
    requires ValidHistory(lib, p.work, a.history) && a.callIndex == Issued(lib, p.work, a.history)
    requires a.status == Running && lib(p.work, a.history) == Sleep(delayMs) && delayMs > 0
             && id == TimerId(p.id, a.callIndex)
    requires AllTerminal(a.memo) && TerminalBefore(lib, view, p, |a.history|) && Remembered(lib, view, p, id, row)
    requires KeysMatch(view)
    requires record != [] && |a.history| <= record[|record| - 1] ==> row.state != Pending
    ensures ProgressOk(lib, view, p, AfterTimer(a, id, row), record)
  {
    hide ValidHistory, Issued, IssuedBy, HasGroup, TimerId, IssuesAt;
    WidthHere(lib, p.work, a.history);
    forall g, child, key | IssuesAt(lib, p, g, child, key) && |g| == |a.history| ensures child == id {
      ChildrenOfGroup(lib, p, a.history, g, child, key);
      SleepChild(lib, p, a.history, child, key);
    }
    RememberedRoot(lib, view, p, id, row);
  }

  lemma SleepChild(lib: Library, p: Parent, history: History, child: Id, key: Fingerprint)
    requires IssuesAt(lib, p, history, child, key) && lib(p.work, history).Sleep?
    ensures child == TimerId(p.id, Issued(lib, p.work, history))
  {
    hide ValidHistory, Issued;
  }

  /** A zero sleep issues nothing. */
  lemma NoNap(lib: Library, view: Db, p: Parent, history: History)
    requires ValidHistory(lib, p.work, history) && Width(lib(p.work, history)) == 0
             && TerminalBefore(lib, view, p, |history|)
    ensures TerminalBefore(lib, view, p, |history| + 1)
  {
    hide ValidHistory, Issued, IssuesAt, TerminalIn;
    forall g, child, key | IssuesAt(lib, p, g, child, key) && |g| < |history| + 1 ensures TerminalIn(view, p, child) {
      if |g| == |history| {
        ChildrenOfGroup(lib, p, history, g, child, key);
        IssuesValid(lib, p, g, child, key);
      }
    }
  }

  lemma TimerIsTerminal(lib: Library, view: Db, p: Parent, history: History, delayMs: int)
    requires ValidHistory(lib, p.work, history) && lib(p.work, history) == Sleep(delayMs) && delayMs > 0
    requires TerminalBefore(lib, view, p, |history| + 1)
    ensures TerminalIn(view, p, TimerId(p.id, Issued(lib, p.work, history)))
  {
    hide ValidHistory, Issued, TerminalIn, TimerId;
    var id := TimerId(p.id, Issued(lib, p.work, history));
    assert IssuesAt(lib, p, history, id, TimerKey(id, 0, None, Some(p.graph)));
  }

  lemma SleepProgress(lib: Library, view: Db, p: Parent, a: Attempt, delayMs: int, now: int, retentionMs: int,
                      record: seq<nat>)
    requires RowsOk(view) && AttemptOk(lib, view, p, a) && a.status == Running
             && lib(p.work, a.history) == Sleep(delayMs)
    requires ProgressOk(lib, view, p, a, record)
    requires record != [] ==> TerminalBefore(lib, view, p, record[|record| - 1] + 1)
    ensures var moved := AdvanceSleep(view, p, a, delayMs, now, retentionMs);
            && (moved.step.None? ==> ProgressOk(lib, view, p, moved.attempt, record))
            && (moved.step.Some? ==>
                  ProgressOk(lib, SubmitTimerRow(view, ChildTimer(p, a.callIndex, delayMs, now, retentionMs)).db, p,
                             moved.attempt, record))
  {
    hide ValidHistory, Issued, IssuedBy, SubmitTimerRow, AfterTimer, TimerPromise, ValidTimer, Remembered,
         TerminalBefore, HasGroup, IssuesAt, AllTerminal, RowsOk, KeysMatch;
    if delayMs <= 0 {
      NoNap(lib, view, p, a.history);
    } else {
      var id := TimerId(p.id, a.callIndex);
      var timer := ChildTimer(p, a.callIndex, delayMs, now, retentionMs);
      if record != [] && |a.history| <= record[|record| - 1] {
        TerminalEarlier(lib, view, p, |a.history| + 1, record[|record| - 1] + 1);
        TimerIsTerminal(lib, view, p, a.history, delayMs);
      }
      RowsMatch(view);
      TimerMatch(view, timer);
      if id in a.memo {
        MemoRow(lib, view, p, a, id);
        AfterTimerProgress(lib, view, p, a, delayMs, id, a.memo[id], record);
      } else {
        var submitted := SubmitTimerRow(view, timer);
        SubmitTimerKeepsRows(view, timer);
        TerminalStays(lib, view, submitted.db, p, |a.history|);
        if submitted.rows.Ok? {
          SubmittedTimer(view, timer);
          IssuesTimer(lib, p, a.history, delayMs, TimerFingerprint(timer));
          RememberRow(lib, submitted.db, p, id);
          AfterTimerProgress(lib, submitted.db, p, a, delayMs, id, submitted.db.promises[id], record);
        }
      }
    }
  }

  lemma MemoRow(lib: Library, view: Db, p: Parent, a: Attempt, id: Id)
    requires MemoOk(lib, view, p, a.memo) && AllTerminal(a.memo) && id in a.memo
    ensures Remembered(lib, view, p, id, a.memo[id]) && a.memo[id].state != Pending
  {
    hide Remembered;
  }

  /** Advancing records the attempt's progress truly in the view its statement leaves it. */
  lemma AdvancedProgress(lib: Library, view: Db, p: Parent, a: Attempt, now: int, retentionMs: int, flushed: set<nat>,
                         record: seq<nat>)
    requires Inv(view) && AttemptOk(lib, view, p, a) && a.status == Running && ProgressOk(lib, view, p, a, record)
    requires record != [] ==> TerminalBefore(lib, view, p, record[|record| - 1] + 1)
    ensures var moved := AdvanceAttempt(lib, view, p, a, now, retentionMs, flushed);
            match moved.step
            case None => ProgressOk(lib, view, p, moved.attempt, record)
            case Some(WriteCalls(id, calls)) => ProgressOk(lib, SubmitCalls(view, calls).db, p, moved.attempt, record)
            case Some(WriteTimer(id, timer)) =>
              ProgressOk(lib, SubmitTimerRow(view, timer).db, p, moved.attempt, record)
            case Some(_) => false
  {
    hide Inv, AttemptOk, SubmitCalls, SubmitTimerRow, FreshCalls, GroupRefused, AfterGroup, AfterTimer, ValidTimer,
         ChildTimer, AllThere, TerminalBefore, HasGroup, AllTerminal, IssuesAt, TerminalIn;
    InvRows(view);
    match lib(p.work, a.history)
    case Done(value) =>
    case Raise(error) =>
    case Sleep(delayMs) => SleepProgress(lib, view, p, a, delayMs, now, retentionMs, record);
    case Gather(calls) =>
      GatherProgress(lib, view, p, a, calls, now, retentionMs, flushed, record);
      SubmitNothing(view);
  }

  // ---------------------------------------------------------------- what other steps leave

  /** A task that stays keeps its waits, and its graph is not collected. */
  lemma WaitsStay(s: System, step: Step, c: Id)
    requires SysInv(s) && Enabled(s, step) && c in s.db.tasks && c in Do(s, step).db.tasks
    ensures forall e :: e in s.db.waits && e.waiter == c ==> e in Do(s, step).db.waits
    ensures c in s.db.promises && (step.Collect? ==> GraphOf(s.db, c) !in step.doomed)
  {
    hide RowsOk, CountersExact, RootsPresent, CallsHaveTasks, OverlaysApart, SubmitCalls, Woken, SettledFor, Doomed,
         DueRows, ValidCall, ValidTimer, Finishing, ClaimsOk;
    TaskRow(s.db, c);
    match step
    case Submit(calls) => SubmitWaits(s.db, calls);
    case Commit(id, finish, now) => CommitWaits(View(s.db, s.claims[id]), id, finish, now, c);
    case _ =>
  }

  lemma CommitWaits(view: Db, id: Id, finish: StoreRuns.Finish, now: int, c: Id)
    requires Finishing(view, id, finish, now).Ok? && c in Finishing(view, id, finish, now).value.tasks
    ensures forall e :: e in view.waits && e.waiter == c ==> e in Finishing(view, id, finish, now).value.waits
  {
    hide Woken, SettledFor, StillPending, NewEdges;
  }

  lemma RecordSteady(lib: Library, db: Db, after: Db, c: Id, record: seq<nat>)
    requires RecordOk(lib, db, c, record) && c in db.promises && Kept(db, after, c)
             && KeptFor(db, after, GraphOf(db, c))
    requires forall e :: e in db.waits && e.waiter == c ==> e in after.waits
    ensures RecordOk(lib, after, c, record)
  {
    hide IssuesAt, HasGroup, Increasing;
    if record != [] {
      ParentStays(db, after, c);
      var p := ParentOf(db, c);
      var last := record[|record| - 1];
      forall g, child, key | IssuesAt(lib, p, g, child, key) && |g| <= last ensures Accounted(after, p, child) {
        assert Accounted(db, p, child);
        assert GraphOf(db, child) == p.graph;
        assert Kept(db, after, child);
      }
    }
  }

  /** A step keeps the record of every task that stays. */
  lemma StepKeepsRecord(lib: Library, s: System, step: Step, c: Id, record: seq<nat>)
    requires SysInv(s) && Enabled(s, step) && c in s.db.tasks && c in Do(s, step).db.tasks
             && RecordOk(lib, s.db, c, record)
    ensures RecordOk(lib, Do(s, step).db, c, record)
  {
    hide SysInv, Enabled, Do, RecordOk, Kept;
    WaitsStay(s, step, c);
    StepKeeps(s, step, c);
    forall q | q in s.db.promises && GraphOf(s.db, q) == GraphOf(s.db, c) ensures Kept(s.db, Do(s, step).db, q) {
      StepKeeps(s, step, q);
    }
    RecordSteady(lib, s.db, Do(s, step).db, c, record);
  }

  lemma ProgressSteady(lib: Library, view: Db, after: Db, p: Parent, a: Attempt, record: seq<nat>)
    requires ProgressOk(lib, view, p, a, record) && KeptFor(view, after, p.graph)
    ensures ProgressOk(lib, after, p, a, record)
  {
    hide IssuesAt, HasGroup;
    forall child | TerminalIn(view, p, child) ensures TerminalIn(after, p, child) {
      assert GraphOf(view, child) == p.graph;
      assert Kept(view, after, child);
    }
  }

  lemma OthersProgress(lib: Library, w: World, step: Step, c: Id)
    requires WorldInv(lib, w) && AttemptsProgress(lib, w) && Enabled(w.sys, step) && c in w.attempts
    requires c in Do(w.sys, step).claims && Do(w.sys, step).claims[c] == w.sys.claims[c]
    ensures IsCall(Do(w.sys, step).db, c)
    ensures ProgressOk(lib, View(Do(w.sys, step).db, Do(w.sys, step).claims[c]), ParentOf(Do(w.sys, step).db, c),
                       w.attempts[c], SuspensionsOf(w, c))
  {
    hide SysInv, Correct, EdgesIssued, AttemptsOk, Enabled, Do, ProgressOk, View, KeptFor, SuspensionsOf;
    var after := Do(w.sys, step);
    StepKeepsSysInv(w.sys, step);
    if step.Collect? {
      ClaimedGraphStays(w.sys, step.doomed, step.before, c);
    }
    CalledIsPromise(w.sys.db, c);
    StepKeeps(w.sys, step, c);
    ParentStays(w.sys.db, after.db, c);
    ViewKept(w.sys, step, c, after);
    ProgressSteady(lib, Inside(w, c), View(after.db, after.claims[c]), ParentOf(w.sys.db, c), w.attempts[c],
                   SuspensionsOf(w, c));
  }

  lemma PendingCallHasTask(db: Db, c: Id)
    requires Inv(db) && IsCall(db, c) && db.promises[c].state == Pending
    ensures c in db.tasks
  {
    hide CountersExact, TasksOk, WaitsOk, RootsPresent, PromiseRowOk;
    assert KeyOk(c, db.promises[c]);
  }

  lemma SettledTaskGoes(s: System, id: Id, outcome: Outcome, now: int)
    requires Enabled(s, Commit(id, Settled(outcome), now))
    ensures id !in Do(s, Commit(id, Settled(outcome), now)).db.tasks
  {
    hide View, Woken, SettledFor;
  }

  // ---------------------------------------------------------------- every step of the world

  /** A statement that records no suspension keeps the records. */
  lemma RecordsStay(lib: Library, w: World, step: Step, next: World)
    requires WorldInv(lib, w) && RecordsOk(lib, w) && Enabled(w.sys, step) && next.sys == Do(w.sys, step)
    requires next.suspensions == map id | id in w.suspensions && id in next.sys.db.tasks :: w.suspensions[id]
    ensures RecordsOk(lib, next)
  {
    hide SysInv, Correct, EdgesIssued, AttemptsOk, Enabled, Do, RecordOk;
    forall c | c in next.suspensions
      ensures c in next.sys.db.tasks && RecordOk(lib, next.sys.db, c, next.suspensions[c])
    {
      StepKeepsRecord(lib, w.sys, step, c, w.suspensions[c]);
    }
  }

  /** A claimed task has its row, so its record is kept. */
  lemma ClaimedHasRow(s: System, c: Id)
    requires SysInv(s) && c in s.claims
    ensures c in s.db.tasks && c in s.db.promises && s.db.promises[c].state == Pending
  {
    hide Inv, OverlaysApart, OverlayOk;
    assert ClaimOk(s.db, c);
  }

  lemma OutsideProgress(lib: Library, w: World, step: Step)
    requires WorldInv(lib, w) && BoundInv(lib, w) && WorldEnabled(lib, w, Outside(step))
    ensures BoundInv(lib, WorldDo(lib, w, Outside(step)))
  {
    hide SysInv, Correct, EdgesIssued, AttemptsOk, Enabled, Do, ProgressOk, RecordsOk, View, ParentOf, IsCall;
    var next := WorldDo(lib, w, Outside(step));
    RecordsStay(lib, w, step, next);
    OtherClaims(w.sys, step);
    StepKeepsSysInv(w.sys, step);
    SameAttempts(lib, w);
    forall c | c in w.attempts
      ensures c in next.sys.claims && IsCall(next.sys.db, c) && SuspensionsOf(next, c) == SuspensionsOf(w, c)
      ensures ProgressOk(lib, Inside(next, c), ParentOf(next.sys.db, c), w.attempts[c], SuspensionsOf(w, c))
    {
      ClaimedHasRow(next.sys, c);
      OthersProgress(lib, w, step, c);
    }
  }

  lemma SameAttempts(lib: Library, w: World)
    requires WorldInv(lib, w)
    ensures SysInv(w.sys) && w.attempts.Keys == w.sys.claims.Keys
  {
    hide SysInv, Correct, EdgesIssued;
  }

  /** A step that ends a claim keeps the bound for the others. */
  lemma EndProgress(lib: Library, w: World, step: Step, id: Id, next: World)
    requires WorldInv(lib, w) && BoundInv(lib, w) && Enabled(w.sys, step) && next.sys == Do(w.sys, step)
    requires (step.Commit? || step.Rollback?) && step.id == id && next.attempts == w.attempts - {id}
    requires forall c :: c in next.sys.db.tasks && c != id ==> SuspensionsOf(next, c) == SuspensionsOf(w, c)
    ensures AttemptsProgress(lib, next)
  {
    hide SysInv, Correct, EdgesIssued, AttemptsOk, Enabled, Do, ProgressOk, RecordsOk, View, ParentOf, IsCall,
         SuspensionsOf;
    OtherClaims(w.sys, step);
    StepKeepsSysInv(w.sys, step);
    SameAttempts(lib, w);
    forall c | c in next.attempts
      ensures c in next.sys.claims && IsCall(next.sys.db, c)
      ensures ProgressOk(lib, Inside(next, c), ParentOf(next.sys.db, c), w.attempts[c], SuspensionsOf(next, c))
    {
      ClaimedHasRow(next.sys, c);
      OthersProgress(lib, w, step, c);
    }
  }

  lemma AbandonProgress(lib: Library, w: World, id: Id)
    requires WorldInv(lib, w) && BoundInv(lib, w) && WorldEnabled(lib, w, Abandon(id))
    ensures BoundInv(lib, WorldDo(lib, w, Abandon(id)))
  {
    hide SysInv, Correct, EdgesIssued, AttemptsOk, Enabled, Do, RecordsOk, AttemptsProgress;
    var next := WorldDo(lib, w, Abandon(id));
    RecordsStay(lib, w, Rollback(id), next);
    EndProgress(lib, w, Rollback(id), id, next);
  }

  lemma InterruptProgress(lib: Library, w: World, id: Id, status: Status)
    requires BoundInv(lib, w) && WorldEnabled(lib, w, Interrupt(id, status)) && WorldInv(lib, w)
    ensures BoundInv(lib, WorldDo(lib, w, Interrupt(id, status)))
  {
    hide SysInv, Correct, EdgesIssued, AttemptsOk, View, ParentOf, IsCall, RecordOk, AllTerminal, TerminalBefore,
         HasGroup, IssuesAt;
    var next := WorldDo(lib, w, Interrupt(id, status));
    assert next.suspensions == w.suspensions by {
      assert RecordsOk(lib, w);
    }
    assert forall c :: SuspensionsOf(next, c) == SuspensionsOf(w, c);
  }

  lemma PreloadIsTerminal(s: System, id: Id, now: int)
    requires SysInv(s) && Enabled(s, Claim(id, now))
    ensures AllTerminal(Preload(s.db, id))
  {
    hide RowsOk, TasksOk, WaitsOk, CallsHaveTasks, RootsPresent, OverlaysApart, ClaimsOk;
    CounterOf(s.db, id);
    assert PendingAwaits(s.db, id) == {};
    var memo := Preload(s.db, id);
    forall a | a in memo ensures memo[a].state != Pending {
      assert a !in PendingAwaits(s.db, id);
    }
  }

  lemma BeginProgress(lib: Library, w: World, id: Id, now: int)
    requires WorldInv(lib, w) && BoundInv(lib, w) && WorldEnabled(lib, w, Begin(id, now))
    ensures BoundInv(lib, WorldDo(lib, w, Begin(id, now)))
  {
    hide SysInv, Correct, EdgesIssued, AttemptsOk, Enabled, Do, View, ParentOf, RecordsOk, AllTerminal, Preload,
         ProgressOk;
    var step := Claim(id, now);
    var next := WorldDo(lib, w, Begin(id, now));
    RecordsStay(lib, w, step, next);
    OtherClaims(w.sys, step);
    StepKeepsSysInv(w.sys, step);
    SameAttempts(lib, w);
    NotClaimed(w.sys, id, now);
    forall c | c in w.attempts
      ensures c in next.sys.claims && IsCall(next.sys.db, c) && SuspensionsOf(next, c) == SuspensionsOf(w, c)
      ensures ProgressOk(lib, Inside(next, c), ParentOf(next.sys.db, c), w.attempts[c], SuspensionsOf(w, c))
    {
      ClaimedHasRow(next.sys, c);
      OthersProgress(lib, w, step, c);
    }
    PreloadIsTerminal(w.sys, id, now);
    BeginsCall(lib, w, id, now);
    FirstProgress(lib, Inside(next, id), ParentOf(next.sys.db, id), next.attempts[id], SuspensionsOf(next, id));
  }

  lemma NotClaimed(s: System, id: Id, now: int)
    requires Enabled(s, Claim(id, now))
    ensures id !in s.claims && Do(s, Claim(id, now)).db == s.db
  {
  }

  lemma FirstProgress(lib: Library, view: Db, p: Parent, a: Attempt, record: seq<nat>)
    requires a.status == Running && a.history == [] && AllTerminal(a.memo)
    ensures ProgressOk(lib, view, p, a, record)
  {
    hide IssuesAt;
  }

  lemma AdvanceProgress(lib: Library, w: World, id: Id, now: int, retentionMs: int, flushed: set<nat>)
    requires WorldInv(lib, w) && BoundInv(lib, w) && WorldEnabled(lib, w, Advance(id, now, retentionMs, flushed))
    ensures BoundInv(lib, WorldDo(lib, w, Advance(id, now, retentionMs, flushed)))
  {
    hide SysInv, Correct, EdgesIssued, AttemptsOk, IsCall, Do, Enabled, AdvanceAttempt, View, Inv, SubmitCalls,
         SubmitTimerRow, Sound, ProgressOk, AttemptOk, RecordsOk, TerminalBefore;
    var view := Inside(w, id);
    var p := ParentOf(w.sys.db, id);
    var record := SuspensionsOf(w, id);
    ViewRows(w.sys, id);
    OwnAttempt(lib, w, id);
    if record != [] {
      RecordIsTerminal(lib, w, id);
    }
    AdvancedProgress(lib, view, p, w.attempts[id], now, retentionMs, flushed, record);
    AdvancedOkStep(lib, w, id, now, retentionMs, flushed);
    var moved := Moved(lib, w, id, now, retentionMs, flushed);
    var next := WorldDo(lib, w, Advance(id, now, retentionMs, flushed));
    SameAttempts(lib, w);
    if moved.step.Some? {
      var step := moved.step.value;
      RecordsStay(lib, w, step, next);
      OtherClaims(w.sys, step);
      StepKeepsSysInv(w.sys, step);
      OwnView(w.sys, step, id);
      OthersAdvance(lib, w, step, id, next);
      ClaimedHasRow(next.sys, id);
    } else {
      SameRecords(lib, w, next);
    }
  }

  /** A write inside one claim keeps the bound for the others. */
  lemma OthersAdvance(lib: Library, w: World, step: Step, id: Id, next: World)
    requires WorldInv(lib, w) && BoundInv(lib, w) && Enabled(w.sys, step) && next.sys == Do(w.sys, step)
    requires (step.WriteCalls? || step.WriteTimer?) && step.id == id
    requires next.suspensions == map c | c in w.suspensions && c in next.sys.db.tasks :: w.suspensions[c]
    ensures forall c :: c in w.attempts && c != id ==>
              && c in next.sys.claims && IsCall(next.sys.db, c) && SuspensionsOf(next, c) == SuspensionsOf(w, c)
              && ProgressOk(lib, Inside(next, c), ParentOf(next.sys.db, c), w.attempts[c], SuspensionsOf(w, c))
  {
    hide SysInv, Correct, EdgesIssued, AttemptsOk, Enabled, Do, ProgressOk, RecordsOk, View, ParentOf, IsCall;
    OtherClaims(w.sys, step);
    StepKeepsSysInv(w.sys, step);
    SameAttempts(lib, w);
    forall c | c in w.attempts && c != id
      ensures c in next.sys.claims && IsCall(next.sys.db, c) && SuspensionsOf(next, c) == SuspensionsOf(w, c)
      ensures ProgressOk(lib, Inside(next, c), ParentOf(next.sys.db, c), w.attempts[c], SuspensionsOf(w, c))
    {
      ClaimedHasRow(next.sys, c);
      OthersProgress(lib, w, step, c);
    }
  }

  lemma SameRecords(lib: Library, w: World, next: World)
    requires RecordsOk(lib, w) && next.sys == w.sys
    requires next.suspensions == map id | id in w.suspensions && id in next.sys.db.tasks :: w.suspensions[id]
    ensures next.suspensions == w.suspensions && RecordsOk(lib, next)
  {
    hide RecordOk;
  }

  lemma OwnAttempt(lib: Library, w: World, id: Id)
    requires WorldInv(lib, w) && AttemptsProgress(lib, w) && id in w.attempts
    ensures id in w.sys.claims && IsCall(w.sys.db, id) && Correct(lib, Inside(w, id))
    ensures AttemptOk(lib, Inside(w, id), ParentOf(w.sys.db, id), w.attempts[id])
    ensures ProgressOk(lib, Inside(w, id), ParentOf(w.sys.db, id), w.attempts[id], SuspensionsOf(w, id))
  {
    hide SysInv, Correct, EdgesIssued, AttemptOk, ProgressOk, View, ParentOf, IsCall;
    ViewCorrect(lib, w.sys, id);
  }

  lemma AdvancedOkStep(lib: Library, w: World, id: Id, now: int, retentionMs: int, flushed: set<nat>)
    requires WorldInv(lib, w) && WorldEnabled(lib, w, Advance(id, now, retentionMs, flushed))
    ensures var moved := Moved(lib, w, id, now, retentionMs, flushed);
            moved.step.Some? ==>
              (moved.step.value.WriteCalls? || moved.step.value.WriteTimer?) && moved.step.value.id == id
  {
    hide SysInv, Correct, EdgesIssued, View, SubmitCalls, SubmitTimerRow, FreshCalls, GroupRefused, AfterGroup,
         AfterTimer, ValidTimer, ChildTimer, AllThere, Enabled;
  }

  /** A committed suspension adds its group to the record. */
  lemma SuspensionRecorded(lib: Library, view: Db, id: Id, p: Parent, a: Attempt, now: int, record: seq<nat>)
    requires Inv(view) && IsCall(view, id) && p == ParentOf(view, id) && a.status.Suspending?
             && AttemptOk(lib, view, p, a)
    requires ProgressOk(lib, view, p, a, record)
    requires Suspend(view, id, a.status.awaited, now).Ok?
    requires record != [] ==> Increasing(record) && forall i :: 0 <= i < |record| ==> HasGroup(lib, p.work, record[i])
    ensures RecordOk(lib, Suspend(view, id, a.status.awaited, now).value, id, record + [|a.history|])
  {
    hide Inv, IssuesAt, HasGroup, IssuedBy, StillPending, MemoOk, Evaluates, ValidHistory;
    var after := Suspend(view, id, a.status.awaited, now).value;
    var longer := record + [|a.history|];
    assert IsCall(after, id) && ParentOf(after, id) == p;
    InvRows(view);
    RowsMatch(view);
    forall g, child, key | IssuesAt(lib, p, g, child, key) && |g| <= |a.history| ensures Accounted(after, p, child) {
      if child in a.status.awaited {
        assert Awaitable(lib, view, p, child);
        IssuedIsChild(lib, p, child, view.promises[child].key);
        assert Edge(id, child) in NewEdges(id, a.status.awaited);
      } else {
        assert TerminalIn(view, p, child);
      }
    }
    forall i | 0 <= i < |longer| ensures HasGroup(lib, p.work, longer[i]) {
      if i < |record| {
        assert HasGroup(lib, p.work, record[i]);
      }
    }
    if record != [] {
      forall i, j | 0 <= i < j < |longer| ensures longer[i] < longer[j] {
        if j == |record| && i < |record| - 1 {
          assert record[i] < record[|record| - 1];
        }
      }
    }
  }

  lemma FinishProgress(lib: Library, w: World, id: Id, now: int)
    requires WorldInv(lib, w) && BoundInv(lib, w) && WorldEnabled(lib, w, Workflow.Finish(id, now))
    ensures BoundInv(lib, WorldDo(lib, w, Workflow.Finish(id, now)))
  {
    hide SysInv, Correct, EdgesIssued, AttemptsOk, Enabled, Do, RecordOk, AttemptsProgress;
    var step := Commit(id, Report(w.attempts[id].status), now);
    var next := WorldDo(lib, w, Workflow.Finish(id, now));
    assert forall c :: c in next.sys.db.tasks && c != id ==> SuspensionsOf(next, c) == SuspensionsOf(w, c);
    EndProgress(lib, w, step, id, next);
    forall c | c in next.suspensions
      ensures c in next.sys.db.tasks && RecordOk(lib, next.sys.db, c, next.suspensions[c])
    {
      if c == id && w.attempts[id].status.Suspending? {
        FinishKeepsRecord(lib, w, id, now, w.attempts[id].status);
      } else {
        StepKeepsRecord(lib, w.sys, step, c, w.suspensions[c]);
      }
    }
  }

  lemma RecordParts(lib: Library, w: World, id: Id)
    requires RecordsOk(lib, w) && IsCall(w.sys.db, id) && SuspensionsOf(w, id) != []
    ensures var record := SuspensionsOf(w, id);
            Increasing(record)
            && forall i :: 0 <= i < |record| ==> HasGroup(lib, ParentOf(w.sys.db, id).work, record[i])
  {
    hide HasGroup, Increasing, AccountedUpTo, ParentOf, IsCall;
    assert RecordOk(lib, w.sys.db, id, w.suspensions[id]);
  }

  lemma CommitIsSuspend(s: System, id: Id, awaited: seq<Id>, now: int)
    requires Enabled(s, Commit(id, Suspended(awaited), now))
    ensures Suspend(View(s.db, s.claims[id]), id, awaited, now).Ok?
    ensures Do(s, Commit(id, Suspended(awaited), now)).db == Suspend(View(s.db, s.claims[id]), id, awaited, now).value
  {
    hide Suspend, View, ValidSuspend;
  }

  /** A suspension committed from a claim adds its group to the task's record. */
  lemma FinishRecorded(lib: Library, w: World, id: Id, now: int, after: Db)
    requires SysInv(w.sys) && id in w.sys.claims && IsCall(w.sys.db, id) && id in w.attempts
             && w.attempts[id].status.Suspending?
    requires AttemptOk(lib, Inside(w, id), ParentOf(w.sys.db, id), w.attempts[id])
    requires ProgressOk(lib, Inside(w, id), ParentOf(w.sys.db, id), w.attempts[id], SuspensionsOf(w, id))
    requires SuspensionsOf(w, id) != [] ==>
               && Increasing(SuspensionsOf(w, id))
               && forall i :: 0 <= i < |SuspensionsOf(w, id)| ==>
                    HasGroup(lib, ParentOf(w.sys.db, id).work, SuspensionsOf(w, id)[i])
    requires Suspend(Inside(w, id), id, w.attempts[id].status.awaited, now) == Ok(after)
    ensures RecordOk(lib, after, id, SuspensionsOf(w, id) + [|w.attempts[id].history|])
  {
    hide SysInv, View, ParentOf, AttemptOk, ProgressOk, Inv, HasGroup, Increasing, Suspend, SuspensionsOf, RecordOk,
         IsCall;
    var view := Inside(w, id);
    ViewRows(w.sys, id);
    CalledIsPromise(w.sys.db, id);
    CommittedView(w.sys, id);
    SameParent(w.sys.db, view, id);
    SuspensionRecorded(lib, view, id, ParentOf(w.sys.db, id), w.attempts[id], now, SuspensionsOf(w, id));
  }

  /** The record of the task a finishing step leaves. */
  lemma FinishKeepsRecord(lib: Library, w: World, id: Id, now: int, status: Status)
    requires WorldInv(lib, w) && BoundInv(lib, w) && id in w.attempts && w.attempts[id].status == status
             && status.Suspending?
    requires Enabled(w.sys, Commit(id, Suspended(status.awaited), now))
    ensures RecordOk(lib, Do(w.sys, Commit(id, Suspended(status.awaited), now)).db, id,
                     SuspensionsOf(w, id) + [|w.attempts[id].history|])
  {
    hide SysInv, Correct, EdgesIssued, AttemptsOk, View, ParentOf, AttemptOk, ProgressOk, Inv, HasGroup, Increasing,
         Suspend, Enabled, Do, RecordsOk, AttemptsProgress, SuspensionsOf, RecordOk, IsCall;
    OwnAttempt(lib, w, id);
    CommitIsSuspend(w.sys, id, status.awaited, now);
    if SuspensionsOf(w, id) != [] {
      RecordParts(lib, w, id);
    }
    FinishRecorded(lib, w, id, now, Do(w.sys, Commit(id, Suspended(status.awaited), now)).db);
  }

  lemma WorldStepKeepsBound(lib: Library, w: World, step: WorldStep)
    requires WorldInv(lib, w) && BoundInv(lib, w) && WorldEnabled(lib, w, step)
    ensures BoundInv(lib, WorldDo(lib, w, step))
  {
    hide WorldInv, BoundInv, WorldEnabled, WorldDo;
    match step
    case Outside(outside) => OutsideProgress(lib, w, outside);
    case Begin(id, now) => BeginProgress(lib, w, id, now);
    case Advance(id, now, retentionMs, flushed) => AdvanceProgress(lib, w, id, now, retentionMs, flushed);
    case Interrupt(id, status) => InterruptProgress(lib, w, id, status);
    case Finish(id, now) => FinishProgress(lib, w, id, now);
    case Abandon(id) => AbandonProgress(lib, w, id);
  }

  lemma {:induction false} RunKeepsBound(lib: Library, w: World, steps: seq<WorldStep>)
    requires WorldInv(lib, w) && BoundInv(lib, w) && WorldLegal(lib, w, steps)
    ensures WorldInv(lib, WorldReach(lib, w, steps)) && BoundInv(lib, WorldReach(lib, w, steps))
    decreases |steps|
  {
    hide WorldInv, BoundInv, WorldEnabled, WorldDo;
    if steps != [] {
      WorldStepKeepsInv(lib, w, steps[0]);
      WorldStepKeepsBound(lib, w, steps[0]);
      RunKeepsBound(lib, WorldDo(lib, w, steps[0]), steps[1..]);
    }
  }

  // ---------------------------------------------------------------- the bound

  lemma {:induction false} IncreasingBounded(s: seq<nat>, n: nat)
    requires Increasing(s) && forall i :: 0 <= i < |s| ==> s[i] < n
    ensures |s| <= n
  {
    if s != [] {
      var last := |s| - 1;
      forall i | 0 <= i < last ensures s[..last][i] < s[last] {
      }
      IncreasingBounded(s[..last], s[last]);
    }
  }

  /** The function returns or raises. */
  predicate Ends(move: Move) {
    move.Done? || move.Raise?
  }

  /** Nothing comes after the end of the evaluation. */
  lemma EndIsEnd(lib: Library, work: Work, trace: History, g: History)
    requires ValidHistory(lib, work, trace) && Ends(lib(work, trace))
    requires ValidHistory(lib, work, g) && |trace| <= |g|
    ensures g == trace
  {
    hide ValidHistory, AllEvaluate;
    HistoriesAgree(lib, work, trace, g);
    if |trace| < |g| {
      PassedIsNotEnd(lib, work, g, |trace|);
    }
  }

  /** A group of the evaluation comes before its end. */
  lemma GroupBeforeEnd(lib: Library, work: Work, trace: History, n: nat)
    requires ValidHistory(lib, work, trace) && Ends(lib(work, trace)) && HasGroup(lib, work, n)
    ensures n < |trace|
  {
    hide ValidHistory;
    var g :| |g| == n && ValidHistory(lib, work, g) && Width(lib(work, g)) > 0;
    if |trace| <= |g| {
      EndIsEnd(lib, work, trace, g);
    }
  }

  lemma PassedIsNotEnd(lib: Library, work: Work, g: History, k: nat)
    requires ValidHistory(lib, work, g) && k < |g|
    ensures !Ends(lib(work, g[..k]))
  {
    assert Passes(lib, lib(work, g[..k]), g[k]);
  }

  /** A task's suspensions are no more than the groups of an evaluation that ends. */
  lemma RecordBound(lib: Library, w: World, id: Id, trace: History)
    requires RecordsOk(lib, w) && IsCall(w.sys.db, id)
    requires ValidHistory(lib, ParentOf(w.sys.db, id).work, trace) && Ends(lib(ParentOf(w.sys.db, id).work, trace))
    ensures |SuspensionsOf(w, id)| <= |trace|
  {
    hide ValidHistory, HasGroup, ParentOf, IsCall, RecordsOk, Ends;
    var record := SuspensionsOf(w, id);
    if record != [] {
      RecordParts(lib, w, id);
      forall i | 0 <= i < |record| ensures record[i] < |trace| {
        GroupBeforeEnd(lib, ParentOf(w.sys.db, id).work, trace, record[i]);
      }
      IncreasingBounded(record, |trace|);
    }
  }

  lemma StartBound(lib: Library)
    ensures BoundInv(lib, START)
  {
  }

  /** In every reachable state the suspensions a task has committed were at strictly later and
      later groups of its evaluation: no attempt suspends again at a group already passed. When the
      evaluation ends, by returning or by raising, they are at most as many as its groups. */
  lemma SuspensionsAreBounded(lib: Library, steps: seq<WorldStep>, id: Id, trace: History)
    requires WorldLegal(lib, START, steps) && SuspensionsOf(WorldReach(lib, START, steps), id) != []
    ensures var w := WorldReach(lib, START, steps);
            && id in w.sys.db.tasks && IsCall(w.sys.db, id) && Increasing(SuspensionsOf(w, id))
            && (ValidHistory(lib, ParentOf(w.sys.db, id).work, trace)
                && Ends(lib(ParentOf(w.sys.db, id).work, trace)) ==>
                  |SuspensionsOf(w, id)| <= |trace|)
  {
    hide WorldInv, WorldLegal, WorldReach, ValidHistory, AttemptsProgress, HasGroup, ParentOf, IsCall, Ends;
    StartInv(lib);
    StartBound(lib);
    RunKeepsBound(lib, START, steps);
    var w := WorldReach(lib, START, steps);
    assert RecordOk(lib, w.sys.db, id, w.suspensions[id]);
    RecordParts(lib, w, id);
    var work := ParentOf(w.sys.db, id).work;
    if ValidHistory(lib, work, trace) && Ends(lib(work, trace)) {
      RecordBound(lib, w, id, trace);
    }
  }

  // ---------------------------------------------------------------- no stuck workflow

  /** In every reachable state of the whole system, below every pending promise there is, in its
      graph, a pending timer or a pending call whose task awaits nothing. */
  lemma WorkflowsAreNeverStuck(lib: Library, steps: seq<WorldStep>, id: Id)
    requires WorldLegal(lib, START, steps)
    requires id in WorldReach(lib, START, steps).sys.db.promises
             && WorldReach(lib, START, steps).sys.db.promises[id].state == Pending
    ensures var db := WorldReach(lib, START, steps).sys.db;
            exists q :: Movable(db, q) && GraphOf(db, q) == GraphOf(db, id)
  {
    hide Inv, ClaimsOk, OverlaysApart, Correct, AttemptsOk, WorldLegal, WorldReach, Movable, IssuedBy, ParentOf, IsCall;
    StartInv(lib);
    RunKeepsWorldInv(lib, START, steps);
    var db := WorldReach(lib, START, steps).sys.db;
    forall e | e in db.waits ensures |e.waiter| < |e.awaited| {
      ParentId(db, e.waiter);
      IssuedIsChild(lib, ParentOf(db, e.waiter), e.awaited, db.promises[e.awaited].key);
    }
    NothingIsStuck(db, id);
  }
}
