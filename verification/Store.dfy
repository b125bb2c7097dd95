/** The durable store: promises, tasks and waits, and the SQL statements that change them, each
    as one atomic change of the three tables. */
module Store {
  import opened Wrappers

  type Id = string

  /** A JSON document, opaque but comparable. */
  datatype Json = Json(text: string)

  const JSON_NULL := Json("null")
  const TIMEOUT_ERROR := Json("{\"type\": \"PromiseTimeout\"}")

  datatype PromiseState = Pending | Resolved | Rejected | TimedOut

  datatype SubmitCall = SubmitCall(
    id: Id, func: string, input: Json, topic: string, version: int, depth: int, priority: int,
    availableAt: int, executionTimeoutMs: int, expiresAt: int, retentionMs: int, maxFailures: int,
    root: Option<Id>)

  datatype SubmitTimer = SubmitTimer(id: Id, dueAt: int, retentionMs: int, root: Option<Id>)

  /** What identifies submitted work: the request without its submission times, and without the
      retention that only a root uses. A timer keeps the moment it is due. */
  datatype Fingerprint =
    | CallKey(id: Id, func: string, input: Json, topic: string, version: int, depth: int, priority: int,
              executionTimeoutMs: int, retentionMs: Option<int>, maxFailures: int, root: Option<Id>)
    | TimerKey(id: Id, dueAt: int, retentionMs: Option<int>, root: Option<Id>)

  datatype Promise = Promise(
    key: Fingerprint, state: PromiseState, root: Option<Id>, result: Option<Json>, error: Option<Json>,
    dueAt: Option<int>, expiresAt: Option<int>, deleteAfter: Option<int>, settledAt: Option<int>)

  datatype Task = Task(
    func: string, version: int, topic: string, input: Json, depth: int, pendingWaits: int, priority: int,
    availableAt: int, failures: int, maxFailures: int, executionTimeoutMs: int)

  datatype Edge = Edge(waiter: Id, awaited: Id)

  /** The three tables. A wait row holds the graph both of its ends belong to. */
  datatype Db = Db(promises: map<Id, Promise>, tasks: map<Id, Task>, waits: map<Edge, Id>)

  datatype StoreError =
    | IdempotencyConflict(id: Id)
    | PromiseNotFound(id: Id)
    | TaskNotFound(id: Id)
    | CrossGraphWait(id: Id)
    | ForeignKeyViolation

  const EMPTY := Db(map[], map[], map[])

  function Graph(id: Id, root: Option<Id>): Id {
    if root.Some? then root.value else id
  }

  function GraphOf(db: Db, id: Id): Id
    requires id in db.promises
  {
    Graph(id, db.promises[id].root)
  }

  // ---------------------------------------------------------------- submission

  /** What the request models validate before any statement runs. */
  predicate ValidCall(c: SubmitCall) {
    && c.id != "" && c.root != Some(c.id) && c.func != "" && c.topic != ""
    && 0 < c.version && 0 <= c.depth <= 256 && 60000 <= c.retentionMs
    && 1 <= c.maxFailures <= 100 && 1 <= c.executionTimeoutMs <= 86400000
  }

  predicate ValidTimer(t: SubmitTimer) {
    t.id != "" && t.root != Some(t.id) && 60000 <= t.retentionMs
  }

  function CallFingerprint(c: SubmitCall): Fingerprint {
    CallKey(c.id, c.func, c.input, c.topic, c.version, c.depth, c.priority, c.executionTimeoutMs,
            if c.root.Some? then None else Some(c.retentionMs), c.maxFailures, c.root)
  }

  function TimerFingerprint(t: SubmitTimer): Fingerprint {
    TimerKey(t.id, t.dueAt, if t.root.Some? then None else Some(t.retentionMs), t.root)
  }

  function NewPromise(key: Fingerprint, root: Option<Id>, due: Option<int>, expires: Option<int>, kept: int): Promise {
    Promise(key, Pending, root, None, None, due, expires, if root.Some? then None else Some(kept), None)
  }

  function CallPromise(c: SubmitCall): Promise {
    NewPromise(CallFingerprint(c), c.root, None, Some(c.expiresAt), c.expiresAt + c.retentionMs)
  }

  function CallTask(c: SubmitCall): Task {
    Task(c.func, c.version, c.topic, c.input, c.depth, 0, c.priority, c.availableAt, 0, c.maxFailures,
         c.executionTimeoutMs)
  }

  function TimerPromise(t: SubmitTimer): Promise {
    NewPromise(TimerFingerprint(t), t.root, Some(t.dueAt), None, t.dueAt + t.retentionMs)
  }

  /** Insert the promise and its task unless the id is taken. */
  function InsertCall(db: Db, c: SubmitCall): Db {
    if c.id in db.promises then db
    else db.(promises := db.promises[c.id := CallPromise(c)], tasks := db.tasks[c.id := CallTask(c)])
  }

  function InsertCalls(db: Db, calls: seq<SubmitCall>): Db
    decreases |calls|
  {
    if calls == [] then db else InsertCalls(InsertCall(db, calls[0]), calls[1..])
  }

  function InsertTimer(db: Db, t: SubmitTimer): Db {
    if t.id in db.promises then db else db.(promises := db.promises[t.id := TimerPromise(t)])
  }

  /** A promise's root, if it names one, is present and is itself a root. */
  predicate RootPresent(db: Db, id: Id)
    requires id in db.promises
  {
    var root := db.promises[id].root;
    root.Some? ==> root.value in db.promises && db.promises[root.value].root.None?
  }

  predicate RootsPresent(db: Db) {
    forall id :: id in db.promises ==> RootPresent(db, id)
  }

  predicate DistinctIds(calls: seq<SubmitCall>) {
    forall i, j :: 0 <= i < j < |calls| ==> calls[i].id != calls[j].id
  }

  /** The first call whose stored row carries another fingerprint. */
  function FirstConflict(db: Db, calls: seq<SubmitCall>): Option<Id>
    requires forall i :: 0 <= i < |calls| ==> calls[i].id in db.promises
  {
    if calls == [] then None
    else if db.promises[calls[0].id].key != CallFingerprint(calls[0]) then Some(calls[0].id)
    else FirstConflict(db, calls[1..])
  }

  datatype Submitted = Submitted(db: Db, rows: Result<seq<Promise>, StoreError>)

  /** The first id that repeats an earlier one. */
  function FirstDuplicate(calls: seq<SubmitCall>, i: nat): Option<Id>
    requires i <= |calls|
    decreases |calls| - i
  {
    if i == |calls| then None
    else if exists j :: 0 <= j < i && calls[j].id == calls[i].id then Some(calls[i].id)
    else FirstDuplicate(calls, i + 1)
  }

  lemma {:induction false} InsertCallsHas(db: Db, calls: seq<SubmitCall>)
    ensures forall id :: id in db.promises ==>
              id in InsertCalls(db, calls).promises && InsertCalls(db, calls).promises[id] == db.promises[id]
    ensures forall i :: 0 <= i < |calls| ==> calls[i].id in InsertCalls(db, calls).promises
    decreases |calls|
  {
    if calls != [] {
      InsertCallsHas(InsertCall(db, calls[0]), calls[1..]);
      forall i | 0 <= i < |calls| ensures calls[i].id in InsertCalls(db, calls).promises {
        if i > 0 {
          assert calls[1..][i - 1] == calls[i];
        }
      }
    }
  }

  /** Submit a batch: rows come back in request order; a reused id with other work is an error,
      reported after the statement has inserted whatever was absent. */
  function SubmitCalls(db: Db, calls: seq<SubmitCall>): Submitted {
    if calls == [] then Submitted(db, Ok([]))
    else if FirstDuplicate(calls, 0).Some? then Submitted(db, Err(IdempotencyConflict(FirstDuplicate(calls, 0).value)))
    else
      var after := InsertCalls(db, calls);
      InsertCallsHas(db, calls);
      if !RootsPresent(after) then Submitted(db, Err(ForeignKeyViolation))
      else if FirstConflict(after, calls).Some? then
        Submitted(after, Err(IdempotencyConflict(FirstConflict(after, calls).value)))
      else Submitted(after, Ok(seq(|calls|, i requires 0 <= i < |calls| => after.promises[calls[i].id])))
  }

  function SubmitTimerRow(db: Db, t: SubmitTimer): Submitted {
    var after := InsertTimer(db, t);
    if !RootsPresent(after) then Submitted(db, Err(ForeignKeyViolation))
    else if after.promises[t.id].key != TimerFingerprint(t) then Submitted(after, Err(IdempotencyConflict(t.id)))
    else Submitted(after, Ok([after.promises[t.id]]))
  }

  // ---------------------------------------------------------------- settlement

  function PendingAwaits(db: Db, waiter: Id): set<Id> {
    set a | a in db.promises && Edge(waiter, a) in db.waits && db.promises[a].state == Pending
  }

  /** How many of the promises being settled a waiter awaits. */
  function SettledFor(db: Db, settled: set<Id>, waiter: Id): nat {
    |set a | a in settled && Edge(waiter, a) in db.waits|
  }

  /** A waiter's row once `count` of its awaited promises have settled. */
  function Woken(t: Task, count: nat, now: int): Task {
    if count == 0 || t.pendingWaits <= 0 then t
    else t.(pendingWaits := if t.pendingWaits - count > 0 then t.pendingWaits - count else 0,
            availableAt := if t.pendingWaits <= count then now else t.availableAt)
  }

  /** Settle promises, remove tasks with their waits, and wake the waiters of what settled. */
  function SettleRows(db: Db, settled: map<Id, Promise>, removed: set<Id>, now: int): Db {
    Db(db.promises + settled,
       map w | w in db.tasks && w !in removed :: Woken(db.tasks[w], SettledFor(db, settled.Keys, w), now),
       map e | e in db.waits && e.waiter !in removed :: db.waits[e])
  }

  function Terminal(p: Promise, state: PromiseState, result: Option<Json>, error: Option<Json>, now: int): Promise {
    p.(state := state, result := result, error := error, settledAt := Some(now))
  }

  predicate Settleable(db: Db, id: Id) {
    id in db.tasks && id in db.promises && db.promises[id].state == Pending
  }

  function SettleOne(db: Db, id: Id, state: PromiseState, result: Option<Json>, error: Option<Json>, now: int): Db
    requires id in db.promises
  {
    SettleRows(db, map[id := Terminal(db.promises[id], state, result, error, now)], {id}, now)
  }

  datatype Outcome = Complete(result: Option<Json>) | Reject(error: Json)

  function Settle(db: Db, id: Id, outcome: Outcome, now: int): Result<Db, StoreError> {
    if !Settleable(db, id) then Err(TaskNotFound(id))
    else match outcome
      case Complete(result) => Ok(SettleOne(db, id, Resolved, result, None, now))
      case Reject(error) => Ok(SettleOne(db, id, Rejected, None, Some(error), now))
  }

  datatype Retried = Retried(db: Db, rejected: bool, failures: int)

  /** Count the failure; requeue the task, or reject its promise when its budget is spent. */
  function Retry(db: Db, id: Id, error: Json, delayMs: int, now: int): Result<Retried, StoreError> {
    if !Settleable(db, id) then Err(TaskNotFound(id))
    else
      var t := db.tasks[id];
      var failures := t.failures + 1;
      if failures < t.maxFailures then
        Ok(Retried(db.(tasks := db.tasks[id := t.(failures := failures, availableAt := now + delayMs)]), false,
                   failures))
      else
        Ok(Retried(SettleOne(db, id, Rejected, None, Some(error), now), true, failures))
  }

  // ---------------------------------------------------------------- suspension

  function FirstMissing(db: Db, ids: seq<Id>): Option<Id> {
    if ids == [] then None
    else if ids[0] !in db.promises then Some(ids[0])
    else FirstMissing(db, ids[1..])
  }

  function StillPending(db: Db, ids: seq<Id>): set<Id> {
    set a | a in ids && a in db.promises && db.promises[a].state == Pending
  }

  function NewEdges(waiter: Id, ids: seq<Id>): set<Edge> {
    set a | a in ids :: Edge(waiter, a)
  }

  function Suspend(db: Db, id: Id, awaited: seq<Id>, now: int): Result<Db, StoreError> {
    if id !in db.tasks || id !in db.promises then Err(TaskNotFound(id))
    else if FirstMissing(db, awaited).Some? then Err(PromiseNotFound(FirstMissing(db, awaited).value))
    else if exists a :: a in awaited && a in db.promises && GraphOf(db, a) != GraphOf(db, id) then
      Err(CrossGraphWait(id))
    else
      var graph := GraphOf(db, id);
      Ok(db.(waits := (map e | e in NewEdges(id, awaited) :: graph) + db.waits,
             tasks := db.tasks[id := db.tasks[id].(pendingWaits := |StillPending(db, awaited)|, availableAt := now)]))
  }

  /** What the suspend model validates: at least one awaited id, none twice, never the task itself. */
  predicate ValidSuspend(id: Id, awaited: seq<Id>) {
    && awaited != [] && id !in awaited
    && forall i, j :: 0 <= i < j < |awaited| ==> awaited[i] != awaited[j]
  }

  // ---------------------------------------------------------------- maintenance

  predicate TimerDue(db: Db, id: Id, now: int) {
    id in db.promises && db.promises[id].state == Pending && db.promises[id].dueAt.Some?
    && db.promises[id].dueAt.value <= now
  }

  predicate CallExpired(db: Db, id: Id, now: int) {
    && id in db.promises && id in db.tasks && db.promises[id].state == Pending
    && db.promises[id].expiresAt.Some? && db.promises[id].expiresAt.value <= now
  }

  function DueRows(db: Db, timers: set<Id>, timeouts: set<Id>, now: int): map<Id, Promise>
    requires forall id :: id in timers || id in timeouts ==> id in db.promises
  {
    map id | id in timers + timeouts ::
      if id in timers then Terminal(db.promises[id], Resolved, Some(JSON_NULL), None, now)
      else Terminal(db.promises[id], TimedOut, None, Some(TIMEOUT_ERROR), now)
  }

  /** One maintenance batch may settle any due timers and any expired calls that no worker has
      claimed. When a call times out together with a promise it awaits, its task row is both
      deleted and updated by the same statement, and only one of the two takes effect: `kept`
      holds the rows that survive. */
  predicate DueBatch(db: Db, timers: set<Id>, timeouts: set<Id>, kept: set<Id>, now: int) {
    && (forall id :: id in timers ==> TimerDue(db, id, now))
    && (forall id :: id in timeouts ==> CallExpired(db, id, now))
    && (forall id :: id in kept ==>
          id in timeouts && db.tasks[id].pendingWaits > 0 && SettledFor(db, timers + timeouts, id) > 0)
  }

  function ProcessDue(db: Db, timers: set<Id>, timeouts: set<Id>, kept: set<Id>, now: int): Db
    requires DueBatch(db, timers, timeouts, kept, now)
  {
    SettleRows(db, DueRows(db, timers, timeouts, now), timeouts - kept, now)
  }

  /** A root past its retention whose graph has nothing pending. */
  predicate Doomed(db: Db, id: Id, before: int) {
    && id in db.promises && db.promises[id].root.None? && db.promises[id].state != Pending
    && db.promises[id].deleteAfter.Some? && db.promises[id].deleteAfter.value <= before
    && forall child :: child in db.promises && db.promises[child].root == Some(id) ==>
         db.promises[child].state != Pending
  }

  /** Deleting a root cascades to every promise of its graph, to their tasks, and to the waits
      those tasks hold. */
  function DeleteExpired(db: Db, doomed: set<Id>): Db {
    Db(map id | id in db.promises && GraphOf(db, id) !in doomed :: db.promises[id],
       map id | id in db.tasks && !(id in db.promises && GraphOf(db, id) in doomed) :: db.tasks[id],
       map e | e in db.waits && !(e.waiter in db.promises && GraphOf(db, e.waiter) in doomed) :: db.waits[e])
  }

  // ---------------------------------------------------------------- the invariant

  /** The row checks of the schema. */
  predicate PromiseRowOk(id: Id, p: Promise) {
    && id != "" && p.root != Some(id)
    && (p.dueAt.Some? != p.expiresAt.Some?)
    && (match p.state
        case Pending => p.settledAt.None? && p.result.None? && p.error.None?
        case Resolved => p.settledAt.Some? && p.error.None?
        case _ => p.settledAt.Some? && p.result.None? && p.error.Some?)
    && (if p.root.Some? then p.deleteAfter.None?
        else p.deleteAfter.Some?
             && p.deleteAfter.value > (if p.expiresAt.Some? then p.expiresAt.value else p.dueAt.value))
  }

  predicate TaskRowOk(t: Task) {
    && t.func != "" && t.topic != "" && 0 < t.version && 0 <= t.depth <= 256 && 0 <= t.pendingWaits
    && 0 <= t.failures < t.maxFailures <= 100 && 1 <= t.executionTimeoutMs <= 86400000
  }

  /** The stored fingerprint says what kind of promise the row is. */
  predicate KeyOk(id: Id, p: Promise) {
    && p.key.id == id && p.key.root == p.root
    && (p.key.CallKey? <==> p.expiresAt.Some?)
  }

  /** The task row carries the work its promise was submitted for. */
  predicate TaskMatches(p: Promise, t: Task) {
    && p.key.CallKey?
    && t.func == p.key.func && t.version == p.key.version && t.input == p.key.input
    && t.depth == p.key.depth && t.maxFailures == p.key.maxFailures
  }

  ghost predicate RowsOk(db: Db) {
    forall id :: id in db.promises ==> PromiseRowOk(id, db.promises[id]) && KeyOk(id, db.promises[id])
  }

  /** Every pending call has a task row. */
  ghost predicate CallsHaveTasks(db: Db) {
    forall id :: id in db.promises && db.promises[id].expiresAt.Some? && db.promises[id].state == Pending ==>
      id in db.tasks
  }

  ghost predicate TasksOk(db: Db) {
    forall t :: t in db.tasks ==> t in db.promises && TaskRowOk(db.tasks[t]) && TaskMatches(db.promises[t], db.tasks[t])
  }

  ghost predicate WaitsOk(db: Db) {
    forall e :: e in db.waits ==>
      && e.waiter in db.tasks && e.waiter in db.promises && e.awaited in db.promises && e.waiter != e.awaited
      && GraphOf(db, e.waiter) == db.waits[e] == GraphOf(db, e.awaited)
  }

  /** Every task's counter is the number of its awaited promises that are pending. */
  ghost predicate CountersExact(db: Db) {
    forall t :: t in db.tasks ==> db.tasks[t].pendingWaits == |PendingAwaits(db, t)|
  }

  ghost predicate Inv(db: Db) {
    && RootsPresent(db) && RowsOk(db) && CallsHaveTasks(db) && TasksOk(db) && WaitsOk(db) && CountersExact(db)
  }
}
