/** No wake is lost and no row lock deadlocks: the fine-grained commits are the atomic ones. */
module ReadCommittedLaws {
  import opened Wrappers
  import opened Store
  import opened StoreLaws
  import opened StoreRuns
  import opened StoreSafety
  import opened WorkflowLaws
  import opened AttemptBound
  import opened Replay
  import opened IdOrder
  import opened ReadCommitted

  // ---------------------------------------------------------------- the invariant

  /** Between its snapshot and its commit a settler knows every waiter, and the rows it has locked
      are still as it read them. */
  ghost predicate WakingOk(db: Db, d: Id, waiters: seq<Id>, next: nat, read: map<Id, Task>) {
    && next <= |waiters| && SortedIds(waiters) && d in db.promises
    && (forall w :: w in db.tasks && Edge(w, d) in db.waits ==> w in waiters)
    && (forall i :: 0 <= i < next && waiters[i] in db.tasks ==> waiters[i] in read)
    && (forall w :: w in read ==> w in waiters[..next] && w in db.tasks && db.tasks[w] == read[w])
    && (forall w :: w in waiters ==>
          w in db.promises && GraphOf(db, w) == GraphOf(db, d) && (w in db.tasks ==> Edge(w, d) in db.waits))
  }

  /** A suspender's view still shows the states it read under its locks. */
  ghost predicate AwaitingOk(view: Db, d: Id, awaited: seq<Id>, next: nat, seen: map<Id, Promise>) {
    && ValidSuspend(d, awaited) && SortedIds(awaited) && next <= |awaited|
    && forall a :: a in seen ==> a in awaited[..next] && a in view.promises && view.promises[a] == seen[a]
  }

  ghost predicate PhaseOk(db: Db, view: Db, d: Id, phase: Phase) {
    match phase
    case Stale(_, _) => false
    case Waking(_, waiters, next, read) => WakingOk(db, d, waiters, next, read)
    case Awaiting(awaited, next, seen) => AwaitingOk(view, d, awaited, next, seen)
    case _ => true
  }

  ghost predicate PhasesOk(c: Concurrent) {
    && c.phases.Keys == c.sys.claims.Keys
    && forall d :: d in c.phases ==> PhaseOk(c.sys.db, InsideClaim(c, d), d, c.phases[d])
  }

  /** No row lock is held twice. */
  ghost predicate LocksApart(c: Concurrent) {
    && (forall d, e, p ::
          d in c.phases && e in c.phases && HoldsPromise(d, c.phases[d], p) && HoldsPromise(e, c.phases[e], p) ==>
            d == e)
    && (forall d, e, w ::
          d in c.phases && e in c.phases && HoldsTask(d, c.phases[d], w) && HoldsTask(e, c.phases[e], w) ==> d == e)
  }

  ghost predicate FineInv(c: Concurrent) {
    SysInv(c.sys) && PhasesOk(c) && LocksApart(c)
  }

  // ---------------------------------------------------------------- commits refine the atomic store

  /** A settler that has locked all waiters has read the row of every task that awaits it. */
  lemma WaitersAreRead(db: Db, d: Id, waiters: seq<Id>, read: map<Id, Task>)
    requires WakingOk(db, d, waiters, |waiters|, read)
    ensures forall w :: w in db.tasks && Edge(w, d) in db.waits ==> w in read
    ensures forall w :: w in read ==> w in db.tasks && db.tasks[w] == read[w] && Edge(w, d) in db.waits
  {
    forall w | w in db.tasks && Edge(w, d) in db.waits ensures w in read {
      var i :| 0 <= i < |waiters| && waiters[i] == w;
      assert waiters[i] in read;
    }
    assert waiters[..|waiters|] == waiters;
  }

  lemma WokenTask(c: Concurrent, id: Id, now: int, w: Id)
    requires FineInv(c) && id in c.phases && id in c.sys.claims && c.phases[id].Waking?
             && c.phases[id].next == |c.phases[id].waiters|
    requires w in InsideClaim(c, id).tasks && w != id
    ensures var view := InsideClaim(c, id);
            (if w in c.phases[id].read then Woken(c.phases[id].read[w], 1, now) else view.tasks[w])
            == Woken(view.tasks[w], SettledFor(view, {id}, w), now)
  {
    hide Inv, OverlaysApart, ClaimsOk, LocksApart, SettledFor, WakingOk, View;
    var phase := c.phases[id];
    var view := InsideClaim(c, id);
    assert PhaseOk(c.sys.db, view, id, phase);
    OneSettled(view, id, w);
    ViewTasks(c.sys, id);
    WaitersAreRead(c.sys.db, id, phase.waiters, phase.read);
    if Edge(w, id) in c.sys.db.waits {
      WaiterHasTask(c.sys.db, w, id);
    }
  }

  lemma WaiterHasTask(db: Db, w: Id, a: Id)
    requires Inv(db) && Edge(w, a) in db.waits
    ensures w in db.tasks && w in db.promises && a in db.promises && GraphOf(db, w) == GraphOf(db, a)
  {
    hide CountersExact, RowsOk, TasksOk, CallsHaveTasks, RootsPresent;
  }

  lemma ViewTasks(s: System, id: Id)
    requires SysInv(s) && id in s.claims
    ensures View(s.db, s.claims[id]).waits == s.db.waits
    ensures forall w :: w in s.db.tasks ==>
              w in View(s.db, s.claims[id]).tasks && View(s.db, s.claims[id]).tasks[w] == s.db.tasks[w]
  {
    hide CountersExact, RowsOk, WaitsOk, CallsHaveTasks, RootsPresent, OverlaysApart, PromiseRowOk, KeyOk, TaskRowOk,
         TaskMatches, ClaimOk;
    assert OverlayOk(s.db, id, s.claims[id]);
  }

  /** Committing a settlement from what the transaction read under its locks is the atomic
      settlement of the latest store. */
  lemma SettleRefines(c: Concurrent, id: Id, now: int)
    requires id in c.phases && c.phases[id].Waking?
    requires FineInv(c) && FineEnabled(true, c, CommitSettle(id, now))
    ensures Enabled(c.sys, Commit(id, Settled(c.phases[id].outcome), now))
    ensures FineDo(true, c, CommitSettle(id, now)).sys == Do(c.sys, Commit(id, Settled(c.phases[id].outcome), now))
  {
    hide SysInv, PhasesOk, LocksApart, View, Woken, SettledFor;
    var phase := c.phases[id];
    var view := InsideClaim(c, id);
    var atomic := Settle(view, id, phase.outcome, now).value;
    var fine := SettleWrites(view, id, phase.outcome, phase.read, now);
    assert fine.promises == atomic.promises;
    assert fine.waits == atomic.waits;
    assert fine.tasks.Keys == atomic.tasks.Keys;
    forall w | w in fine.tasks ensures fine.tasks[w] == atomic.tasks[w] {
      WokenTask(c, id, now, w);
      assert map[id := fine.promises[id]].Keys == {id};
    }
    assert fine.tasks == atomic.tasks;
  }

  /** What a suspender has seen is what its view shows, for every promise it awaits. */
  lemma SeenIsCurrent(view: Db, id: Id, awaited: seq<Id>, seen: map<Id, Promise>)
    requires AwaitingOk(view, id, awaited, |awaited|, seen) && id in view.promises
             && SeenTogether(view, id, awaited, seen)
    ensures forall a :: a in awaited ==> a in view.promises && GraphOf(view, a) == GraphOf(view, id)
    ensures (set a | a in seen && seen[a].state == Pending) == StillPending(view, awaited)
  {
    assert awaited[..|awaited|] == awaited;
    assert forall a :: a in awaited <==> a in seen;
  }

  lemma SuspendWritesTruly(view: Db, id: Id, awaited: seq<Id>, seen: map<Id, Promise>, now: int)
    requires AwaitingOk(view, id, awaited, |awaited|, seen) && id in view.promises && id in view.tasks
    requires SeenTogether(view, id, awaited, seen)
    ensures Suspend(view, id, awaited, now) == Ok(SuspendWrites(view, id, awaited, seen, now))
  {
    hide AwaitingOk, NewEdges, StillPending, SeenTogether, GraphOf;
    SeenIsCurrent(view, id, awaited, seen);
    NothingMissing(view, awaited);
  }

  lemma AtomicSuspend(s: System, id: Id, awaited: seq<Id>, now: int, after: Db)
    requires id in s.claims && ValidSuspend(id, awaited)
             && Suspend(View(s.db, s.claims[id]), id, awaited, now) == Ok(after)
    ensures Enabled(s, Commit(id, Suspended(awaited), now))
    ensures Do(s, Commit(id, Suspended(awaited), now)) == System(after, s.claims - {id})
  {
    hide Suspend, ValidSuspend, View;
  }

  lemma FineSuspend(c: Concurrent, id: Id, now: int)
    requires FineEnabled(true, c, CommitSuspend(id, now))
    ensures FineDo(true, c, CommitSuspend(id, now)).sys
            == System(SuspendWrites(InsideClaim(c, id), id, c.phases[id].awaited, c.phases[id].seen, now),
                      c.sys.claims - {id})
  {
    hide SuspendWrites, SeenTogether, View;
  }

  /** Committing a suspension from the states read under its locks is the atomic suspension of the
      latest store. */
  lemma SuspendRefines(c: Concurrent, id: Id, now: int)
    requires id in c.phases && c.phases[id].Awaiting?
    requires FineInv(c) && FineEnabled(true, c, CommitSuspend(id, now))
    ensures Enabled(c.sys, Commit(id, Suspended(c.phases[id].awaited), now))
    ensures FineDo(true, c, CommitSuspend(id, now)).sys == Do(c.sys, Commit(id, Suspended(c.phases[id].awaited), now))
  {
    hide SysInv, LocksApart, View, SuspendWrites, Suspend, SortedIds, SeenTogether, FineDo, Enabled, Do;
    var phase := c.phases[id];
    assert PhaseOk(c.sys.db, InsideClaim(c, id), id, phase);
    FineSuspend(c, id, now);
    SuspendWritesTruly(InsideClaim(c, id), id, phase.awaited, phase.seen, now);
    AtomicSuspend(c.sys, id, phase.awaited, now, SuspendWrites(InsideClaim(c, id), id, phase.awaited, phase.seen, now));
  }

  // ---------------------------------------------------------------- what other commits leave a phase

  /** A task row that appears is a new promise's. */
  lemma NewTask(s: System, step: Step, t: Id)
    requires SysInv(s) && Enabled(s, step) && t in Do(s, step).db.tasks && t !in s.db.tasks
    ensures t !in s.db.promises
  {
    hide CountersExact, WaitsOk, CallsHaveTasks, RootsPresent, RowsOk, OverlaysApart, SubmitCalls, SettledFor, Woken,
         StillPending, NewEdges, DueRows, ValidCall, ValidTimer, Doomed, Finishing, ClaimOk, PromiseRowOk, KeyOk,
         TaskRowOk, TaskMatches, ValidFinish;
    match step
    case Submit(calls) => InvHasPromises(s.db); SubmitKeepsRows(s.db, calls);
    case Commit(id, finish, now) =>
      FinishTasks(View(s.db, s.claims[id]), id, finish, now, t);
      assert OverlayOk(s.db, id, s.claims[id]);
    case _ =>
  }

  lemma FinishTasks(view: Db, id: Id, finish: StoreRuns.Finish, now: int, t: Id)
    requires Finishing(view, id, finish, now).Ok? && t in Finishing(view, id, finish, now).value.tasks
    ensures t in view.tasks
  {
    hide Woken, SettledFor, StillPending, NewEdges;
  }

  ghost predicate NoNewWaiter(db: Db, after: Db, d: Id) {
    forall w :: w in after.tasks && Edge(w, d) in after.waits ==> Edge(w, d) in db.waits
  }

  lemma WakingSteady(s: System, step: Step, d: Id, phase: Phase)
    requires SysInv(s) && Enabled(s, step) && SysInv(Do(s, step)) && d in s.claims && d in Do(s, step).claims
    requires phase.Waking? && WakingOk(s.db, d, phase.waiters, phase.next, phase.read)
    requires SparesLocked(s.db, Do(s, step).db, d, phase) && NoNewWaiter(s.db, Do(s, step).db, d)
    ensures WakingOk(Do(s, step).db, d, phase.waiters, phase.next, phase.read)
  {
    hide SysInv, Enabled, Do, SortedIds;
    var after := Do(s, step).db;
    GraphStays(s, step, d);
    forall w | w in after.tasks && Edge(w, d) in after.waits ensures w in phase.waiters {
      WaiterThere(s, w, d);
    }
    forall w | w in phase.waiters
      ensures w in after.promises && GraphOf(after, w) == GraphOf(after, d)
      ensures w in after.tasks ==> w in s.db.tasks && Edge(w, d) in after.waits
    {
      WaiterStays(s, step, d, w);
    }
    forall w | w in phase.read ensures w in after.tasks && after.tasks[w] == phase.read[w] {
      assert HoldsTask(d, phase, w);
    }
  }

  lemma WaiterThere(s: System, w: Id, d: Id)
    requires SysInv(s) && Edge(w, d) in s.db.waits
    ensures w in s.db.tasks
  {
    hide ClaimsOk, OverlaysApart, Inv;
    WaiterHasTask(s.db, w, d);
  }

  /** A claimed task's promise and graph stay. */
  lemma GraphStays(s: System, step: Step, d: Id)
    requires SysInv(s) && Enabled(s, step) && d in s.claims
    ensures d in s.db.promises && d in Do(s, step).db.promises && GraphOf(Do(s, step).db, d) == GraphOf(s.db, d)
    ensures step.Collect? ==> GraphOf(s.db, d) !in step.doomed
  {
    hide Inv, OverlaysApart, Enabled, Do, OverlayOk;
    assert ClaimOk(s.db, d);
    if step.Collect? {
      ClaimedGraphStays(s, step.doomed, step.before, d);
    }
    StepKeeps(s, step, d);
  }

  lemma WaiterStays(s: System, step: Step, d: Id, w: Id)
    requires SysInv(s) && Enabled(s, step) && d in s.claims
    requires d in s.db.promises && w in s.db.promises && GraphOf(s.db, w) == GraphOf(s.db, d)
    requires w in s.db.tasks ==> Edge(w, d) in s.db.waits
    ensures d in Do(s, step).db.promises && w in Do(s, step).db.promises
    ensures GraphOf(Do(s, step).db, w) == GraphOf(Do(s, step).db, d)
    ensures w in Do(s, step).db.tasks ==> w in s.db.tasks && Edge(w, d) in Do(s, step).db.waits
  {
    hide SysInv, Enabled, Do;
    GraphStays(s, step, d);
    StepKeeps(s, step, w);
    if w in Do(s, step).db.tasks {
      if w !in s.db.tasks {
        NewTask(s, step, w);
      } else {
        WaitsStay(s, step, w);
      }
    }
  }

  lemma AwaitingSteady(s: System, step: Step, d: Id, phase: Phase)
    requires SysInv(s) && Enabled(s, step) && SysInv(Do(s, step))
    requires d in s.claims && d in Do(s, step).claims && Do(s, step).claims[d] == s.claims[d]
    requires phase.Awaiting? && AwaitingOk(View(s.db, s.claims[d]), d, phase.awaited, phase.next, phase.seen)
    requires SparesLocked(s.db, Do(s, step).db, d, phase)
    ensures AwaitingOk(View(Do(s, step).db, s.claims[d]), d, phase.awaited, phase.next, phase.seen)
  {
    hide SysInv, Enabled, Do, SortedIds, ValidSuspend, View;
    var after := Do(s, step);
    forall a | a in phase.seen
      ensures a in View(after.db, s.claims[d]).promises && View(after.db, s.claims[d]).promises[a] == phase.seen[a]
    {
      assert HoldsPromise(d, phase, a);
      SeenStays(s, after, d, a);
    }
  }

  lemma SeenStays(s: System, after: System, d: Id, a: Id)
    requires SysInv(s) && SysInv(after) && d in s.claims && d in after.claims && after.claims[d] == s.claims[d]
    requires a in View(s.db, s.claims[d]).promises
    requires a in s.db.promises ==> a in after.db.promises && after.db.promises[a] == s.db.promises[a]
    ensures a in View(after.db, after.claims[d]).promises
    ensures View(after.db, after.claims[d]).promises[a] == View(s.db, s.claims[d]).promises[a]
  {
    hide Inv, OverlaysApart;
    FromView(s, d, a);
    FromView(after, d, a);
  }

  lemma FromView(s: System, d: Id, a: Id)
    requires SysInv(s) && d in s.claims
    ensures a in s.db.promises ==>
              a in View(s.db, s.claims[d]).promises && View(s.db, s.claims[d]).promises[a] == s.db.promises[a]
    ensures a in s.claims[d].promises ==>
              a in View(s.db, s.claims[d]).promises && View(s.db, s.claims[d]).promises[a] == s.claims[d].promises[a]
    ensures a in View(s.db, s.claims[d]).promises ==> a in s.db.promises || a in s.claims[d].promises
  {
    hide Inv, OverlaysApart;
    CommittedView(s, d);
  }

  lemma PhaseSteady(s: System, step: Step, d: Id, phase: Phase)
    requires SysInv(s) && Enabled(s, step) && d in s.claims && d in Do(s, step).claims
             && Do(s, step).claims[d] == s.claims[d]
    requires PhaseOk(s.db, View(s.db, s.claims[d]), d, phase) && SparesLocked(s.db, Do(s, step).db, d, phase)
    requires phase.Waking? ==> NoNewWaiter(s.db, Do(s, step).db, d)
    ensures PhaseOk(Do(s, step).db, View(Do(s, step).db, Do(s, step).claims[d]), d, phase)
  {
    hide SysInv, Enabled, Do, SparesLocked, NoNewWaiter, WakingOk, AwaitingOk, View;
    StepKeepsSysInv(s, step);
    match phase
    case Waking(_, _, _, _) => WakingSteady(s, step, d, phase);
    case Awaiting(_, _, _) => AwaitingSteady(s, step, d, phase);
    case _ =>
  }

  // ---------------------------------------------------------------- commits spare what others have locked

  /** A settlement changes only rows its transaction has locked. */
  lemma SettleSpares(c: Concurrent, id: Id, now: int, d: Id)
    requires id in c.phases && c.phases[id].Waking? && d in c.phases && d != id
    requires FineInv(c) && FineEnabled(true, c, CommitSettle(id, now))
    ensures SparesLocked(c.sys.db, FineDo(true, c, CommitSettle(id, now)).sys.db, d, c.phases[d])
    ensures NoNewWaiter(c.sys.db, FineDo(true, c, CommitSettle(id, now)).sys.db, d)
  {
    hide SysInv, PhasesOk, Woken, View, Settleable;
    var after := FineDo(true, c, CommitSettle(id, now)).sys.db;
    var phase := c.phases[id];
    SettleKept(c, id, now);
    forall p | p in c.sys.db.promises && HoldsPromise(d, c.phases[d], p)
      ensures p in after.promises && after.promises[p] == c.sys.db.promises[p]
    {
      assert HoldsPromise(id, c.phases[id], id);
    }
    forall w | w in c.sys.db.tasks && HoldsTask(d, c.phases[d], w)
      ensures w in after.tasks && after.tasks[w] == c.sys.db.tasks[w]
    {
      assert HoldsTask(id, phase, id);
      assert w in phase.read ==> HoldsTask(id, phase, w);
    }
  }

  lemma SettleKept(c: Concurrent, id: Id, now: int)
    requires id in c.phases && c.phases[id].Waking?
    requires FineInv(c) && FineEnabled(true, c, CommitSettle(id, now))
    ensures var after := FineDo(true, c, CommitSettle(id, now)).sys.db;
            && (forall p :: p in c.sys.db.promises && p != id ==>
                  p in after.promises && after.promises[p] == c.sys.db.promises[p])
            && (forall w :: w in c.sys.db.tasks && w != id && w !in c.phases[id].read ==>
                  w in after.tasks && after.tasks[w] == c.sys.db.tasks[w])
            && (forall e :: e in after.waits ==> e in c.sys.db.waits)
  {
    hide SysInv, PhasesOk, LocksApart, Woken, View, Settleable;
    CommittedView(c.sys, id);
    ViewTasks(c.sys, id);
  }

  /** A suspension changes only its own task's row, and awaits only promises it has locked. */
  lemma SuspendSpares(c: Concurrent, id: Id, now: int, d: Id)
    requires id in c.phases && c.phases[id].Awaiting? && d in c.phases && d != id
    requires FineInv(c) && FineEnabled(true, c, CommitSuspend(id, now))
    ensures SparesLocked(c.sys.db, FineDo(true, c, CommitSuspend(id, now)).sys.db, d, c.phases[d])
    ensures c.phases[d].Waking? ==> NoNewWaiter(c.sys.db, FineDo(true, c, CommitSuspend(id, now)).sys.db, d)
  {
    hide SysInv, PhasesOk, View;
    var after := FineDo(true, c, CommitSuspend(id, now)).sys.db;
    var phase := c.phases[id];
    SuspendKept(c, id, now);
    forall w | w in c.sys.db.tasks && HoldsTask(d, c.phases[d], w)
      ensures w in after.tasks && after.tasks[w] == c.sys.db.tasks[w]
    {
      assert HoldsTask(id, c.phases[id], id);
    }
    if c.phases[d].Waking? {
      forall w | w in after.tasks && Edge(w, d) in after.waits ensures Edge(w, d) in c.sys.db.waits {
        assert HoldsPromise(d, c.phases[d], d);
        assert d in phase.seen ==> HoldsPromise(id, phase, d);
      }
    }
  }

  lemma SuspendKept(c: Concurrent, id: Id, now: int)
    requires id in c.phases && c.phases[id].Awaiting?
    requires FineInv(c) && FineEnabled(true, c, CommitSuspend(id, now))
    ensures var after := FineDo(true, c, CommitSuspend(id, now)).sys.db;
            && (forall p :: p in c.sys.db.promises ==> p in after.promises && after.promises[p] == c.sys.db.promises[p])
            && (forall w :: w in c.sys.db.tasks && w != id ==> w in after.tasks && after.tasks[w] == c.sys.db.tasks[w])
            && (forall e :: e in after.waits ==> e in c.sys.db.waits || e.awaited in c.phases[id].seen)
  {
    hide SysInv, PhasesOk, LocksApart, View;
    CommittedView(c.sys, id);
    ViewTasks(c.sys, id);
  }

  // ---------------------------------------------------------------- every fine step keeps the invariant

  /** Ending a claim by a commit keeps every other phase. */
  lemma CommitKeepsPhases(c: Concurrent, id: Id, step: Step, next: Concurrent)
    requires FineInv(c) && id in c.phases && step.Commit? && step.id == id && Enabled(c.sys, step)
    requires next.sys == Do(c.sys, step) && next.phases == c.phases - {id}
    requires forall d :: d in c.phases && d != id ==>
               && SparesLocked(c.sys.db, next.sys.db, d, c.phases[d])
               && (c.phases[d].Waking? ==> NoNewWaiter(c.sys.db, next.sys.db, d))
    ensures FineInv(next)
  {
    hide SysInv, Enabled, Do, SparesLocked, NoNewWaiter, PhaseOk, View;
    StepKeepsSysInv(c.sys, step);
    OtherClaims(c.sys, step);
    forall d | d in next.phases ensures PhaseOk(next.sys.db, InsideClaim(next, d), d, next.phases[d]) {
      PhaseSteady(c.sys, step, d, c.phases[d]);
    }
    FewerLocks(c, next);
  }

  /** Phases that hold no more locks than before stay apart. */
  lemma FewerLocks(c: Concurrent, next: Concurrent)
    requires LocksApart(c)
    requires forall d :: d in next.phases ==>
               && d in c.phases
               && (forall p :: HoldsPromise(d, next.phases[d], p) ==> HoldsPromise(d, c.phases[d], p))
               && (forall w :: HoldsTask(d, next.phases[d], w) ==> HoldsTask(d, c.phases[d], w))
    ensures LocksApart(next)
  {
    hide HoldsPromise, HoldsTask;
  }

  lemma SettleCommits(c: Concurrent, id: Id, now: int)
    requires id in c.phases && c.phases[id].Waking?
    requires FineInv(c) && FineEnabled(true, c, CommitSettle(id, now))
    ensures FineInv(FineDo(true, c, CommitSettle(id, now)))
  {
    hide FineInv, SparesLocked, NoNewWaiter, Enabled, Do, SettleWrites, Settleable;
    SettleRefines(c, id, now);
    forall d | d in c.phases && d != id
      ensures SparesLocked(c.sys.db, FineDo(true, c, CommitSettle(id, now)).sys.db, d, c.phases[d])
      ensures NoNewWaiter(c.sys.db, FineDo(true, c, CommitSettle(id, now)).sys.db, d)
    {
      SettleSpares(c, id, now, d);
    }
    CommitKeepsPhases(c, id, Commit(id, Settled(c.phases[id].outcome), now), FineDo(true, c, CommitSettle(id, now)));
  }

  lemma SuspendCommits(c: Concurrent, id: Id, now: int)
    requires id in c.phases && c.phases[id].Awaiting?
    requires FineInv(c) && FineEnabled(true, c, CommitSuspend(id, now))
    ensures FineInv(FineDo(true, c, CommitSuspend(id, now)))
  {
    hide FineInv, SparesLocked, NoNewWaiter, Enabled, Do, SuspendWrites, SeenTogether;
    SuspendRefines(c, id, now);
    forall d | d in c.phases && d != id
      ensures SparesLocked(c.sys.db, FineDo(true, c, CommitSuspend(id, now)).sys.db, d, c.phases[d])
      ensures c.phases[d].Waking? ==> NoNewWaiter(c.sys.db, FineDo(true, c, CommitSuspend(id, now)).sys.db, d)
    {
      SuspendSpares(c, id, now, d);
    }
    CommitKeepsPhases(c, id, Commit(id, Suspended(c.phases[id].awaited), now), FineDo(true, c, CommitSuspend(id, now)));
  }

  /** An atomic step adds no waiter. */
  lemma AtomicAddsNoWaiter(c: Concurrent, step: Step, d: Id)
    requires SysInv(c.sys) && Enabled(c.sys, step) && (step.Commit? ==> step.finish.Failed?)
    ensures NoNewWaiter(c.sys.db, Do(c.sys, step).db, d)
  {
    hide SysInv, Finishing, ValidFinish, SubmitCalls, SubmitTimerRow, ProcessDue, DeleteExpired, View, DueBatch, Doomed,
         ValidCall, ValidTimer;
    if step.Commit? {
      FinishWaits(View(c.sys.db, c.sys.claims[step.id]), step.id, step.finish, step.now);
      ViewWaits(c.sys, step.id);
    } else {
      OldWaits(c.sys, step);
    }
  }

  lemma AtomicKeepsPhase(c: Concurrent, step: Step, d: Id)
    requires FineInv(c) && FineEnabled(true, c, Atomic(step)) && d in c.phases && d in Do(c.sys, step).claims
    ensures PhaseOk(Do(c.sys, step).db, View(Do(c.sys, step).db, Do(c.sys, step).claims[d]), d, c.phases[d])
  {
    hide SysInv, Enabled, Do, SparesLocked, NoNewWaiter, WakingOk, AwaitingOk, View, LocksApart;
    OtherClaims(c.sys, step);
    assert PhaseOk(c.sys.db, InsideClaim(c, d), d, c.phases[d]);
    if !c.phases[d].Working? {
      AtomicAddsNoWaiter(c, step, d);
      StillClaimed(c, step, d);
      PhaseSteady(c.sys, step, d, c.phases[d]);
    }
  }

  /** An atomic step leaves a claim that is not at rest its overlay. */
  lemma StillClaimed(c: Concurrent, step: Step, d: Id)
    requires PhasesOk(c) && Enabled(c.sys, step) && IsAtomic(c, step) && d in c.phases && d in Do(c.sys, step).claims
             && !c.phases[d].Working?
    ensures Do(c.sys, step).claims[d] == c.sys.claims[d] && Actor(step) != Some(d)
  {
    hide Do, Enabled, PhaseOk;
    OtherClaims(c.sys, step);
    NewClaimIsFree(c.sys, step);
  }

  lemma NewClaimIsFree(s: System, step: Step)
    requires Enabled(s, step)
    ensures step.Claim? ==> step.id !in s.claims
  {
    hide Finishing, ValidFinish, ValidCall, ValidTimer, DueBatch, Doomed, Claimable;
  }

  lemma AtomicKeepsInv(c: Concurrent, step: Step)
    requires FineInv(c) && FineEnabled(true, c, Atomic(step))
    ensures FineInv(FineDo(true, c, Atomic(step)))
  {
    hide SysInv, Enabled, Do, SparesLocked, PhaseOk, View, LocksApart;
    var next := FineDo(true, c, Atomic(step));
    StepKeepsSysInv(c.sys, step);
    OtherClaims(c.sys, step);
    NewClaimIsFree(c.sys, step);
    forall d | d in next.phases ensures PhaseOk(next.sys.db, InsideClaim(next, d), d, next.phases[d]) {
      if d in c.phases {
        AtomicKeepsPhase(c, step, d);
      } else {
        FreshPhase(next.sys.db, InsideClaim(next, d), d);
      }
    }
    AtomicKeepsLocks(c, step);
  }

  lemma FreshPhase(db: Db, view: Db, d: Id)
    ensures PhaseOk(db, view, d, Working)
  {
  }

  lemma AtomicKeepsLocks(c: Concurrent, step: Step)
    requires LocksApart(c) && c.phases.Keys == c.sys.claims.Keys && FineEnabled(true, c, Atomic(step))
    ensures LocksApart(FineDo(true, c, Atomic(step)))
  {
    hide Enabled, Do, SparesLocked, LocksApart, TaskFree;
    OtherClaims(c.sys, step);
    var id := if step.Claim? then step.id else "";
    OneMoreClaim(c, FineDo(true, c, Atomic(step)).phases, id);
    SamePhasesApart(FineDo(true, c, Atomic(step)).sys, c.sys, FineDo(true, c, Atomic(step)).phases);
  }

  /** A new claim of a task whose row nobody has locked shares no lock. */
  lemma OneMoreClaim(c: Concurrent, phases: map<Id, Phase>, id: Id)
    requires LocksApart(c)
    requires forall d :: d in phases ==>
               if d in c.phases then phases[d] == c.phases[d] else phases[d] == Working && d == id && TaskFree(c, d, d)
    ensures LocksApart(Concurrent(c.sys, phases))
  {
    var next := Concurrent(c.sys, phases);
    forall d, e, w | d in phases && e in phases && HoldsTask(d, phases[d], w) && HoldsTask(e, phases[e], w)
      ensures d == e
    {
    }
  }

  lemma SamePhasesApart(sys: System, other: System, phases: map<Id, Phase>)
    requires LocksApart(Concurrent(other, phases))
    ensures LocksApart(Concurrent(sys, phases))
  {
  }

  /** A step of one transaction that changes its phase alone. */
  lemma PhaseChanges(c: Concurrent, id: Id, phase: Phase)
    requires FineInv(c) && id in c.phases && PhaseOk(c.sys.db, InsideClaim(c, id), id, phase)
    requires forall p :: HoldsPromise(id, phase, p) && !HoldsPromise(id, c.phases[id], p) ==> PromiseFree(c, id, p)
    requires forall w :: HoldsTask(id, phase, w) && !HoldsTask(id, c.phases[id], w) ==> TaskFree(c, id, w)
    ensures FineInv(c.(phases := c.phases[id := phase]))
  {
    hide SysInv, PhaseOk, HoldsPromise, HoldsTask, View;
  }

  lemma SnapshotStep(c: Concurrent, id: Id, waiters: seq<Id>)
    requires FineInv(c) && FineEnabled(true, c, TakeSnapshot(id, waiters))
    ensures FineInv(FineDo(true, c, TakeSnapshot(id, waiters)))
  {
    hide SysInv, PhaseOk, View, SortedIds, PromiseFree, TaskFree, LocksApart;
    var phase := Waking(c.phases[id].outcome, waiters, 0, map[]);
    ClaimedHasRow(c.sys, id);
    SnapshotOk(c.sys, id, waiters);
    assert PhaseOk(c.sys.db, InsideClaim(c, id), id, phase) by {
      WakingPhase(c.sys.db, InsideClaim(c, id), id, phase);
    }
    PhaseChanges(c, id, phase);
  }

  lemma WakingPhase(db: Db, view: Db, id: Id, phase: Phase)
    requires phase.Waking?
    ensures PhaseOk(db, view, id, phase) <==> WakingOk(db, id, phase.waiters, phase.next, phase.read)
  {
  }

  lemma SnapshotOk(s: System, id: Id, waiters: seq<Id>)
    requires SysInv(s) && id in s.db.promises && WaitersOf(s.db, id, waiters)
    ensures WakingOk(s.db, id, waiters, 0, map[])
  {
    hide Inv, ClaimsOk, OverlaysApart, SortedIds;
    forall w | w in waiters ensures w in s.db.promises && GraphOf(s.db, w) == GraphOf(s.db, id) {
      WaiterHasTask(s.db, w, id);
    }
  }

  lemma LockWaiterStep(c: Concurrent, id: Id)
    requires id in c.phases && c.phases[id].Waking?
    requires FineInv(c) && FineEnabled(true, c, LockWaiter(id))
    ensures FineInv(FineDo(true, c, LockWaiter(id)))
  {
    hide SysInv, PhaseOk, View, SortedIds, PromiseFree, TaskFree, LocksApart, WakingOk;
    var phase := c.phases[id];
    var w := phase.waiters[phase.next];
    var read := if w in c.sys.db.tasks then phase.read[w := c.sys.db.tasks[w]] else phase.read;
    assert PhaseOk(c.sys.db, InsideClaim(c, id), id, phase);
    WakingPhase(c.sys.db, InsideClaim(c, id), id, phase);
    OneMoreRead(c.sys.db, id, phase.waiters, phase.next, phase.read);
    WakingPhase(c.sys.db, InsideClaim(c, id), id, phase.(next := phase.next + 1, read := read));
    PhaseChanges(c, id, phase.(next := phase.next + 1, read := read));
  }

  lemma OneMoreRead(db: Db, id: Id, waiters: seq<Id>, next: nat, read: map<Id, Task>)
    requires WakingOk(db, id, waiters, next, read) && next < |waiters|
    ensures WakingOk(db, id, waiters, next + 1,
                     if waiters[next] in db.tasks then read[waiters[next] := db.tasks[waiters[next]]] else read)
  {
    hide SortedIds;
    assert waiters[..next + 1] == waiters[..next] + [waiters[next]];
  }

  lemma LockAwaitedStep(c: Concurrent, id: Id)
    requires id in c.phases && c.phases[id].Awaiting?
    requires FineInv(c) && FineEnabled(true, c, LockAwaited(id))
    ensures FineInv(FineDo(true, c, LockAwaited(id)))
  {
    hide SysInv, PhaseOk, View, SortedIds, PromiseFree, TaskFree, LocksApart, AwaitingOk;
    var phase := c.phases[id];
    var a := phase.awaited[phase.next];
    var view := InsideClaim(c, id);
    var seen := if a in view.promises then phase.seen[a := view.promises[a]] else phase.seen;
    assert PhaseOk(c.sys.db, view, id, phase);
    AwaitingPhase(c.sys.db, view, id, phase);
    OneMoreSeen(view, id, phase.awaited, phase.next, phase.seen);
    AwaitingPhase(c.sys.db, view, id, phase.(next := phase.next + 1, seen := seen));
    PhaseChanges(c, id, phase.(next := phase.next + 1, seen := seen));
  }

  lemma AwaitingPhase(db: Db, view: Db, id: Id, phase: Phase)
    requires phase.Awaiting?
    ensures PhaseOk(db, view, id, phase) <==> AwaitingOk(view, id, phase.awaited, phase.next, phase.seen)
  {
  }

  lemma OneMoreSeen(view: Db, id: Id, awaited: seq<Id>, next: nat, seen: map<Id, Promise>)
    requires AwaitingOk(view, id, awaited, next, seen) && next < |awaited|
    ensures AwaitingOk(view, id, awaited, next + 1,
                       if awaited[next] in view.promises then seen[awaited[next] := view.promises[awaited[next]]]
                       else seen)
  {
    hide SortedIds, ValidSuspend;
    assert awaited[..next + 1] == awaited[..next] + [awaited[next]];
  }

  lemma FineStepKeepsInv(c: Concurrent, step: FineStep)
    requires FineInv(c) && FineEnabled(true, c, step)
    ensures FineInv(FineDo(true, c, step))
  {
    hide SysInv, SparesLocked, View, LocksApart, SortedIds, WakingOk, TaskFree, Enabled, Do, IsAtomic, SettleWrites,
         SuspendWrites, SeenTogether, Settleable, WaitersOf;
    match step
    case Atomic(step) => AtomicKeepsInv(c, step);
    case AskLock(id, outcome) => PhaseChanges(c, id, AskPromise(outcome));
    case TakeLock(id) => PhaseChanges(c, id, HoldPromise(c.phases[id].outcome));
    case TakeSnapshot(id, waiters) => SnapshotStep(c, id, waiters);
    case LockWaiter(id) => LockWaiterStep(c, id);
    case CommitSettle(id, now) => SettleCommits(c, id, now);
    case AskAwaited(id, awaited) => PhaseChanges(c, id, Awaiting(awaited, 0, map[]));
    case LockAwaited(id) => LockAwaitedStep(c, id);
    case CommitSuspend(id, now) => SuspendCommits(c, id, now);
    case EarlySnapshot(_, _, _) =>
    case LateLock(_) =>
  }

  lemma {:induction false} FineRunKeepsInv(c: Concurrent, steps: seq<FineStep>)
    requires FineInv(c) && FineLegal(true, c, steps)
    ensures FineInv(FineReach(true, c, steps))
    decreases |steps|
  {
    hide FineInv, FineEnabled, FineDo;
    if steps != [] {
      FineStepKeepsInv(c, steps[0]);
      FineRunKeepsInv(FineDo(true, c, steps[0]), steps[1..]);
    }
  }

  // ---------------------------------------------------------------- no lost wake

  const QUIET := Concurrent(INITIAL, map[])

  lemma QuietInv()
    ensures FineInv(QUIET)
  {
    InitialSysInv();
  }

  /** No wake is lost. In every interleaving of snapshots, row locks, commits and rollbacks every
      committed task's counter is the number of its committed awaited promises that are pending. */
  lemma NoWakeIsLost(steps: seq<FineStep>, w: Id)
    requires FineLegal(true, QUIET, steps) && w in FineReach(true, QUIET, steps).sys.db.tasks
    ensures var db := FineReach(true, QUIET, steps).sys.db;
            db.tasks[w].pendingWaits == |PendingAwaits(db, w)|
  {
    hide FineLegal, FineReach, PhasesOk, LocksApart, ClaimsOk, OverlaysApart, PendingAwaits;
    QuietInv();
    FineRunKeepsInv(QUIET, steps);
    CounterOf(FineReach(true, QUIET, steps).sys.db, w);
  }

  /** The claimed tasks are left out of the waiters: a settler never needs the row lock of a
      claimed task, because a claimed task awaits nothing pending. */
  lemma SettlersNeedNoClaimedTask(c: Concurrent, id: Id, d: Id)
    requires FineInv(c) && id in c.phases && d in c.phases && c.phases[id].Waking?
    ensures d !in c.phases[id].waiters || d !in c.sys.db.tasks
  {
    hide RowsOk, TasksOk, WaitsOk, CallsHaveTasks, RootsPresent, OverlaysApart, OverlayOk, LocksApart, SortedIds;
    assert PhaseOk(c.sys.db, InsideClaim(c, id), id, c.phases[id]);
    assert ClaimOk(c.sys.db, d) && ClaimOk(c.sys.db, id);
    CounterOf(c.sys.db, d);
    assert PendingAwaits(c.sys.db, d) == {};
    assert id !in PendingAwaits(c.sys.db, d);
  }

  // ---------------------------------------------------------------- no deadlock

  /** The row a transaction is waiting to lock. */
  datatype Want = WantPromise(p: Id) | WantTask(w: Id) | WantNothing

  function Wanted(c: Concurrent, id: Id): Want
    requires id in c.phases
  {
    match c.phases[id]
    case AskPromise(_) => WantPromise(id)
    case Waking(_, waiters, next, _) =>
      if next < |waiters| && waiters[next] in c.sys.db.tasks then WantTask(waiters[next]) else WantNothing
    case Awaiting(awaited, next, _) => if next < |awaited| then WantPromise(awaited[next]) else WantNothing
    case _ => WantNothing
  }

  predicate Holds(c: Concurrent, id: Id, want: Want)
    requires id in c.phases
  {
    match want
    case WantPromise(p) => HoldsPromise(id, c.phases[id], p)
    case WantTask(w) => HoldsTask(id, c.phases[id], w)
    case WantNothing => false
  }

  /** One transaction waits for a row another has locked. */
  predicate WaitsFor(c: Concurrent, id: Id, other: Id) {
    id in c.phases && other in c.phases && id != other && Holds(c, other, Wanted(c, id))
  }

  /** Settlers that wait for their promise come first, then suspenders, then settlers that wake. */
  function Class(phase: Phase): nat {
    match phase
    case AskPromise(_) => 2
    case Awaiting(_, _, _) => 1
    case _ => 0
  }

  function WantedId(want: Want): Id {
    match want
    case WantPromise(p) => p
    case WantTask(w) => w
    case WantNothing => ""
  }

  /** Waiting goes down in class, or up in the order in which rows are locked. */
  predicate Before(c: Concurrent, id: Id, other: Id)
    requires id in c.phases && other in c.phases
  {
    || Class(c.phases[id]) > Class(c.phases[other])
    || (Class(c.phases[id]) == Class(c.phases[other])
        && (Wanted(c, other) == WantNothing || IdLess(WantedId(Wanted(c, id)), WantedId(Wanted(c, other)))))
  }

  lemma {:induction false} SortedPrefix(ids: seq<Id>, k: nat, a: Id)
    requires SortedIds(ids) && k < |ids| && a in ids[..k]
    ensures IdLess(a, ids[k])
  {
    var i :| 0 <= i < k && ids[..k][i] == a;
    assert ids[i] == a;
  }

  /** Every wait respects the order. */
  lemma WaitingIsOrdered(c: Concurrent, id: Id, other: Id)
    requires FineInv(c) && WaitsFor(c, id, other)
    ensures Before(c, id, other) && Wanted(c, id) != WantNothing
  {
    hide SysInv, LocksApart, View, SortedIds, IdLess, ValidSuspend;
    assert PhaseOk(c.sys.db, InsideClaim(c, id), id, c.phases[id]);
    assert PhaseOk(c.sys.db, InsideClaim(c, other), other, c.phases[other]);
    match c.phases[id]
    case Waking(_, waiters, next, _) =>
      var w := waiters[next];
      SettlersNeedNoClaimedTask(c, id, other);
      HeldIsBefore(c, other, Wanted(c, id));
    case Awaiting(_, _, _) =>
      HeldIsBefore(c, other, Wanted(c, id));
    case _ =>
  }

  /** A row a transaction has locked comes before the next one it wants of the same kind. */
  lemma HeldIsBefore(c: Concurrent, other: Id, want: Want)
    requires FineInv(c) && other in c.phases && Holds(c, other, want)
    requires want.WantTask? ==> want.w != other
    ensures want.WantTask? ==> Class(c.phases[other]) == 0
    ensures want.WantPromise? ==> Class(c.phases[other]) <= 1
    ensures (want.WantTask? && Wanted(c, other).WantTask?) || (want.WantPromise? && c.phases[other].Awaiting?) ==>
              Wanted(c, other) == WantNothing || IdLess(WantedId(want), WantedId(Wanted(c, other)))
  {
    hide SysInv, LocksApart, View, IdLess, ValidSuspend, SortedIds;
    assert PhaseOk(c.sys.db, InsideClaim(c, other), other, c.phases[other]);
    match c.phases[other]
    case Waking(_, waiters, next, read) =>
      if want.WantTask? && next < |waiters| {
        SortedPrefix(waiters, next, want.w);
      }
    case Awaiting(awaited, next, seen) =>
      if want.WantPromise? && next < |awaited| {
        SortedPrefix(awaited, next, want.p);
      }
    case _ =>
  }

  /** A chain of transactions each waiting for the next. */
  predicate WaitChain(c: Concurrent, chain: seq<Id>) {
    forall i :: 0 <= i < |chain| - 1 ==> WaitsFor(c, chain[i], chain[i + 1])
  }

  lemma BeforeTransitive(c: Concurrent, a: Id, b: Id, d: Id)
    requires a in c.phases && b in c.phases && d in c.phases && Before(c, a, b) && Before(c, b, d)
             && Wanted(c, b) != WantNothing
    ensures Before(c, a, d)
  {
    hide IdLess;
    if Wanted(c, d) != WantNothing && Class(c.phases[a]) == Class(c.phases[d]) {
      IdLessTransitive(WantedId(Wanted(c, a)), WantedId(Wanted(c, b)), WantedId(Wanted(c, d)));
    }
  }

  lemma {:induction false} ChainIsOrdered(c: Concurrent, chain: seq<Id>)
    requires FineInv(c) && WaitChain(c, chain) && |chain| >= 2
    ensures chain[0] in c.phases && chain[|chain| - 1] in c.phases && Before(c, chain[0], chain[|chain| - 1])
    decreases |chain|
  {
    hide FineInv, Before, WaitsFor;
    var last := |chain| - 1;
    InPhases(c, chain[0], chain[1]);
    InPhases(c, chain[last - 1], chain[last]);
    WaitingIsOrdered(c, chain[last - 1], chain[last]);
    if |chain| > 2 {
      ChainIsOrdered(c, chain[..last]);
      BeforeTransitive(c, chain[0], chain[last - 1], chain[last]);
    }
  }

  lemma InPhases(c: Concurrent, a: Id, b: Id)
    requires WaitsFor(c, a, b)
    ensures a in c.phases && b in c.phases
  {
  }

  /** The explicit row locks never deadlock: no transaction of any reachable state waits, through
      any chain of others, for itself. */
  lemma NoDeadlock(steps: seq<FineStep>, chain: seq<Id>)
    requires FineLegal(true, QUIET, steps) && |chain| >= 2 && WaitChain(FineReach(true, QUIET, steps), chain)
    ensures chain[0] != chain[|chain| - 1]
  {
    hide FineLegal, FineReach, FineInv, WaitsFor, IdLess;
    QuietInv();
    FineRunKeepsInv(QUIET, steps);
    var c := FineReach(true, QUIET, steps);
    ChainIsOrdered(c, chain);
    WaitingIsOrdered(c, chain[0], chain[1]);
    IdLessIrreflexive(WantedId(Wanted(c, chain[0])));
  }

  function Later(c: Concurrent, id: Id): set<Id>
    requires id in c.phases
  {
    set d | d in c.phases && Before(c, id, d)
  }

  /** Whenever a transaction waits, some transaction does not: the machine can always move on. */
  lemma {:induction false} SomeoneCanProceed(c: Concurrent, id: Id)
    requires FineInv(c) && id in c.phases
    ensures exists d :: d in c.phases && forall e :: !WaitsFor(c, d, e)
    decreases |Later(c, id)|
  {
    hide FineInv, WaitsFor, Before;
    if other :| WaitsFor(c, id, other) {
      InPhases(c, id, other);
      WaitingIsOrdered(c, id, other);
      if next :| WaitsFor(c, other, next) {
        InPhases(c, other, next);
        WaitingIsOrdered(c, other, next);
        forall d | d in Later(c, other) ensures d in Later(c, id) {
          BeforeTransitive(c, id, other, d);
        }
        NotBeforeItself(c, other);
        assert other in Later(c, id) && other !in Later(c, other);
        SubsetSize(Later(c, other), Later(c, id) - {other});
        SubsetSize({other}, Later(c, id));
        SomeoneCanProceed(c, other);
      }
    }
  }

  lemma NotBeforeItself(c: Concurrent, id: Id)
    requires id in c.phases && Wanted(c, id) != WantNothing
    ensures !Before(c, id, id)
  {
    IdLessIrreflexive(WantedId(Wanted(c, id)));
  }
}
