/** Settling against suspending at READ COMMITTED: statements read snapshots, row locks are taken
    one at a time, a row locked after a wait is re-read at its latest version, and transactions
    commit or roll back. */
module ReadCommitted {
  import opened Wrappers
  import opened Store
  import opened StoreRuns
  import opened IdOrder

  /** Where a claim transaction stands between its statements and its row locks. */
  datatype Phase =
    | Working
    | Stale(outcome: Outcome, waiters: seq<Id>)
    | AskPromise(outcome: Outcome)
    | HoldPromise(outcome: Outcome)
    | Waking(outcome: Outcome, waiters: seq<Id>, next: nat, read: map<Id, Task>)
    | Awaiting(awaited: seq<Id>, next: nat, seen: map<Id, Promise>)

  /** The store with its claims, and the phase of each. */
  datatype Concurrent = Concurrent(sys: System, phases: map<Id, Phase>)

  datatype FineStep =
    | Atomic(step: Step)
    | AskLock(id: Id, outcome: Outcome)
    | TakeLock(id: Id)
    | TakeSnapshot(id: Id, waiters: seq<Id>)
    | LockWaiter(id: Id)
    | CommitSettle(id: Id, now: int)
    | AskAwaited(id: Id, awaited: seq<Id>)
    | LockAwaited(id: Id)
    | CommitSuspend(id: Id, now: int)
    | EarlySnapshot(id: Id, outcome: Outcome, waiters: seq<Id>)
    | LateLock(id: Id)

  // ---------------------------------------------------------------- row locks

  predicate HoldsPromise(id: Id, phase: Phase, p: Id) {
    match phase
    case HoldPromise(_) => p == id
    case Waking(_, _, _, _) => p == id
    case Awaiting(_, _, seen) => p in seen
    case _ => false
  }

  /** A claim holds the lock of its own task row throughout. */
  predicate HoldsTask(id: Id, phase: Phase, w: Id) {
    w == id || (phase.Waking? && w in phase.read)
  }

  predicate PromiseFree(c: Concurrent, id: Id, p: Id) {
    forall d :: d in c.phases && d != id ==> !HoldsPromise(d, c.phases[d], p)
  }

  predicate TaskFree(c: Concurrent, id: Id, w: Id) {
    forall d :: d in c.phases && d != id ==> !HoldsTask(d, c.phases[d], w)
  }

  /** A step that is atomic here changes no row another transaction has locked. */
  predicate SparesLocked(db: Db, after: Db, d: Id, phase: Phase) {
    && (forall p :: p in db.promises && HoldsPromise(d, phase, p) ==>
          p in after.promises && after.promises[p] == db.promises[p])
    && (forall w :: w in db.tasks && HoldsTask(d, phase, w) ==> w in after.tasks && after.tasks[w] == db.tasks[w])
  }

  /** Everything but settling and suspending is one atomic step here. */
  predicate IsAtomic(c: Concurrent, step: Step) {
    match step
    case Claim(id, _) => TaskFree(c, id, id)
    case WriteCalls(id, _) => id in c.phases && c.phases[id].Working?
    case WriteTimer(id, _) => id in c.phases && c.phases[id].Working?
    case Commit(id, finish, _) => id in c.phases && c.phases[id].Working? && finish.Failed?
    case _ => true
  }

  function Actor(step: Step): Option<Id> {
    match step
    case Commit(id, _, _) => Some(id)
    case Rollback(id) => Some(id)
    case _ => None
  }

  /** The waiters a snapshot shows, in the order their rows are locked. */
  predicate WaitersOf(db: Db, id: Id, waiters: seq<Id>) {
    && SortedIds(waiters)
    && (forall w :: w in waiters ==> w in db.tasks && Edge(w, id) in db.waits)
    && (forall w :: w in db.tasks && Edge(w, id) in db.waits ==> w in waiters)
  }

  function InsideClaim(c: Concurrent, id: Id): Db
    requires id in c.sys.claims
  {
    View(c.sys.db, c.sys.claims[id])
  }

  /** What SETTLE writes: the promise, the removed task, and the waiter rows as they were read when
      their locks were taken. */
  function SettleWrites(view: Db, id: Id, outcome: Outcome, read: map<Id, Task>, now: int): Db
    requires id in view.promises
  {
    var settled := match outcome
                   case Complete(result) => Terminal(view.promises[id], Resolved, result, None, now)
                   case Reject(error) => Terminal(view.promises[id], Rejected, None, Some(error), now);
    Db(view.promises[id := settled],
       map w | w in view.tasks && w != id :: if w in read then Woken(read[w], 1, now) else view.tasks[w],
       map e | e in view.waits && e.waiter != id :: view.waits[e])
  }

  predicate SeenTogether(view: Db, id: Id, awaited: seq<Id>, seen: map<Id, Promise>)
    requires id in view.promises
  {
    forall a :: a in awaited ==> a in seen && Graph(a, seen[a].root) == GraphOf(view, id)
  }

  /** What SUSPEND writes: the waits, and the counter from the states read under the locks. */
  function SuspendWrites(view: Db, id: Id, awaited: seq<Id>, seen: map<Id, Promise>, now: int): Db
    requires id in view.promises && id in view.tasks
  {
    var pending := set a | a in seen && seen[a].state == Pending;
    view.(waits := (map e | e in NewEdges(id, awaited) :: GraphOf(view, id)) + view.waits,
          tasks := view.tasks[id := view.tasks[id].(pendingWaits := |pending|, availableAt := now)])
  }

  // ---------------------------------------------------------------- the machine

  /** `separate` says whether the promise is locked by its own statement before SETTLE takes its
      snapshot, as the store does, or by SETTLE itself. */
  predicate FineEnabled(separate: bool, c: Concurrent, step: FineStep) {
    match step
    case Atomic(step) =>
      && Enabled(c.sys, step) && IsAtomic(c, step)
      && forall d :: d in c.phases && Actor(step) != Some(d) ==>
           SparesLocked(c.sys.db, Do(c.sys, step).db, d, c.phases[d])
    case AskLock(id, outcome) => separate && id in c.phases && c.phases[id].Working?
    case TakeLock(id) => id in c.phases && c.phases[id].AskPromise? && PromiseFree(c, id, id)
    case TakeSnapshot(id, waiters) => id in c.phases && c.phases[id].HoldPromise? && WaitersOf(c.sys.db, id, waiters)
    case LockWaiter(id) =>
      && id in c.phases && c.phases[id].Waking? && c.phases[id].next < |c.phases[id].waiters|
      && var w := c.phases[id].waiters[c.phases[id].next]; w in c.sys.db.tasks ==> TaskFree(c, id, w)
    case CommitSettle(id, now) =>
      && id in c.phases && id in c.sys.claims && c.phases[id].Waking? && c.phases[id].next == |c.phases[id].waiters|
      && Settleable(InsideClaim(c, id), id)
    case AskAwaited(id, awaited) =>
      id in c.phases && c.phases[id].Working? && ValidSuspend(id, awaited) && SortedIds(awaited)
    case LockAwaited(id) =>
      && id in c.phases && id in c.sys.claims && c.phases[id].Awaiting? && c.phases[id].next < |c.phases[id].awaited|
      && var a := c.phases[id].awaited[c.phases[id].next]; a in InsideClaim(c, id).promises ==> PromiseFree(c, id, a)
    case CommitSuspend(id, now) =>
      && id in c.phases && id in c.sys.claims && c.phases[id].Awaiting? && c.phases[id].next == |c.phases[id].awaited|
      && id in InsideClaim(c, id).promises && id in InsideClaim(c, id).tasks
      && SeenTogether(InsideClaim(c, id), id, c.phases[id].awaited, c.phases[id].seen)
    case EarlySnapshot(id, outcome, waiters) =>
      !separate && id in c.phases && c.phases[id].Working? && WaitersOf(c.sys.db, id, waiters)
    case LateLock(id) => !separate && id in c.phases && c.phases[id].Stale? && PromiseFree(c, id, id)
  }

  function FineDo(separate: bool, c: Concurrent, step: FineStep): Concurrent
    requires FineEnabled(separate, c, step)
  {
    match step
    case Atomic(step) =>
      var sys := Do(c.sys, step);
      Concurrent(sys, map d | d in sys.claims :: if d in c.phases then c.phases[d] else Working)
    case AskLock(id, outcome) => c.(phases := c.phases[id := AskPromise(outcome)])
    case TakeLock(id) => c.(phases := c.phases[id := HoldPromise(c.phases[id].outcome)])
    case TakeSnapshot(id, waiters) => c.(phases := c.phases[id := Waking(c.phases[id].outcome, waiters, 0, map[])])
    case LockWaiter(id) =>
      var phase := c.phases[id];
      var w := phase.waiters[phase.next];
      var read := if w in c.sys.db.tasks then phase.read[w := c.sys.db.tasks[w]] else phase.read;
      c.(phases := c.phases[id := phase.(next := phase.next + 1, read := read)])
    case CommitSettle(id, now) =>
      var after := SettleWrites(InsideClaim(c, id), id, c.phases[id].outcome, c.phases[id].read, now);
      Concurrent(System(after, c.sys.claims - {id}), c.phases - {id})
    case AskAwaited(id, awaited) => c.(phases := c.phases[id := Awaiting(awaited, 0, map[])])
    case LockAwaited(id) =>
      var phase := c.phases[id];
      var a := phase.awaited[phase.next];
      var view := InsideClaim(c, id);
      var seen := if a in view.promises then phase.seen[a := view.promises[a]] else phase.seen;
      c.(phases := c.phases[id := phase.(next := phase.next + 1, seen := seen)])
    case CommitSuspend(id, now) =>
      var after := SuspendWrites(InsideClaim(c, id), id, c.phases[id].awaited, c.phases[id].seen, now);
      Concurrent(System(after, c.sys.claims - {id}), c.phases - {id})
    case EarlySnapshot(id, outcome, waiters) => c.(phases := c.phases[id := Stale(outcome, waiters)])
    case LateLock(id) => c.(phases := c.phases[id := Waking(c.phases[id].outcome, c.phases[id].waiters, 0, map[])])
  }

  predicate FineLegal(separate: bool, c: Concurrent, steps: seq<FineStep>)
    decreases |steps|
  {
    steps == []
    || (FineEnabled(separate, c, steps[0]) && FineLegal(separate, FineDo(separate, c, steps[0]), steps[1..]))
  }

  function FineReach(separate: bool, c: Concurrent, steps: seq<FineStep>): Concurrent
    requires FineLegal(separate, c, steps)
    decreases |steps|
  {
    if steps == [] then c else FineReach(separate, FineDo(separate, c, steps[0]), steps[1..])
  }
}
