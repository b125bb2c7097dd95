/** Durable execution: attempts that replay a deterministic function over the store, suspend on
    pending children, and add up to one plain evaluation. */
module Workflow {
  import opened Wrappers
  import opened Store
  import opened StoreRuns
  import opened Programs
  import opened PromiseIds

  const MAX_CHILD_PROMISES := 1024
  const MAX_PROMISE_DEPTH := 256
  const SLEEP := "durable.sleep"

  /** Any error the durable layer raises in the function. */
  const REFUSAL := Json("{\"kind\": \"error\"}")

  /** What an attempt knows of the task it runs. */
  datatype Parent = Parent(id: Id, work: Work, graph: Id, depth: int)

  datatype Status =
    | Running
    | Suspending(awaited: seq<Id>)
    | Returning(value: Json)
    | Raising(error: Json)
    | Retrying(error: Json)

  /** One attempt: the promises it knows, the results it has passed, how many ids it has issued. */
  datatype Attempt = Attempt(memo: map<Id, Promise>, history: History, callIndex: nat, status: Status)

  /** The store with its claims, the attempts running in them, and, as a record of the past, the
      groups at which each task has committed a suspension. */
  datatype World = World(sys: System, attempts: map<Id, Attempt>, suspensions: map<Id, seq<nat>>)

  const START := World(INITIAL, map[], map[])

  /** An interruption is anything that ends an attempt from outside its program: a local timeout, a
      retryable error or any other one raised around an await, or a result that is refused. */
  datatype WorldStep =
    | Outside(step: Step)
    | Begin(id: Id, now: int)
    | Advance(id: Id, now: int, retentionMs: int, flushed: set<nat>)
    | Interrupt(id: Id, status: Status)
    | Finish(id: Id, now: int)
    | Abandon(id: Id)

  predicate IsCall(db: Db, id: Id) {
    id in db.promises && db.promises[id].key.CallKey?
  }

  function ParentOf(db: Db, id: Id): Parent
    requires IsCall(db, id)
  {
    var key := db.promises[id].key;
    Parent(id, Work(key.func, key.version, key.input), GraphOf(db, id), key.depth)
  }

  /** The result a promise holds: a stored null reads as JSON null. */
  function ValueOf(p: Promise): Json {
    if p.result.Some? then p.result.value else JSON_NULL
  }

  // ---------------------------------------------------------------- child ids and requests

  function Width(move: Move): nat {
    match move
    case Gather(calls) => |calls|
    case Sleep(delayMs) => if delayMs > 0 then 1 else 0
    case _ => 0
  }

  /** How many ids the groups of a history have issued. */
  function Issued(lib: Library, work: Work, history: History): nat {
    if history == [] then 0
    else
      var past := history[..|history| - 1];
      Issued(lib, work, past) + Width(lib(work, past))
  }

  function CallId(parent: Id, base: nat, k: nat, call: Call): Id {
    ChildId(parent, base + k + 1, call.func)
  }

  function TimerId(parent: Id, base: nat): Id {
    ChildId(parent, base + 1, SLEEP)
  }

  function ChildCall(p: Parent, base: nat, k: nat, call: Call, now: int, retentionMs: int): SubmitCall {
    SubmitCall(CallId(p.id, base, k, call), call.func, call.input, call.topic, call.version, p.depth + 1, 0,
               now, call.executionTimeoutMs, now + call.durationMs, retentionMs, call.maxFailures, Some(p.graph))
  }

  function ChildKey(p: Parent, base: nat, k: nat, call: Call): Fingerprint {
    CallFingerprint(ChildCall(p, base, k, call, 0, 0))
  }

  function ChildTimer(p: Parent, base: nat, delayMs: int, now: int, retentionMs: int): SubmitTimer {
    SubmitTimer(TimerId(p.id, base), now + delayMs, retentionMs, Some(p.graph))
  }

  // ---------------------------------------------------------------- one group of an attempt

  function Preload(db: Db, id: Id): map<Id, Promise> {
    map a | a in db.promises && Edge(id, a) in db.waits :: db.promises[a]
  }

  /** The child at this position cannot be created: past a limit, or not a valid request. */
  predicate Refused(p: Parent, a: Attempt, calls: seq<Call>, k: nat, now: int, retentionMs: int)
    requires k < |calls|
  {
    || p.depth + 1 > MAX_PROMISE_DEPTH
    || a.callIndex + k + 1 > MAX_CHILD_PROMISES
    || (CallId(p.id, a.callIndex, k, calls[k]) !in a.memo
        && !ValidCall(ChildCall(p, a.callIndex, k, calls[k], now, retentionMs)))
  }

  predicate GroupRefused(p: Parent, a: Attempt, calls: seq<Call>, now: int, retentionMs: int) {
    exists k :: 0 <= k < |calls| && Refused(p, a, calls, k, now, retentionMs)
  }

  /** The requests of a group, from a position on, that the memo does not answer. A group with a
      refused child raises, and those of its other requests that were already under way may or may
      not be sent: `flushed` says which. */
  function FreshCalls(p: Parent, a: Attempt, calls: seq<Call>, k: nat, now: int, retentionMs: int,
                      flushed: set<nat>): seq<SubmitCall>
    requires k <= |calls|
    decreases |calls| - k
  {
    if k == |calls| then []
    else
      var rest := FreshCalls(p, a, calls, k + 1, now, retentionMs, flushed);
      if CallId(p.id, a.callIndex, k, calls[k]) in a.memo then rest
      else if GroupRefused(p, a, calls, now, retentionMs)
              && (k !in flushed || Refused(p, a, calls, k, now, retentionMs)) then
        rest
      else [ChildCall(p, a.callIndex, k, calls[k], now, retentionMs)] + rest
  }

  /** The row of a promise the attempt asked for. */
  function RowOf(a: Attempt, db: Db, id: Id): Promise
    requires id in a.memo || id in db.promises
  {
    if id in a.memo then a.memo[id] else db.promises[id]
  }

  predicate AllThere(p: Parent, a: Attempt, db: Db, calls: seq<Call>) {
    forall k :: 0 <= k < |calls| ==>
      CallId(p.id, a.callIndex, k, calls[k]) in a.memo || CallId(p.id, a.callIndex, k, calls[k]) in db.promises
  }

  function GroupRows(p: Parent, a: Attempt, db: Db, calls: seq<Call>): seq<Promise>
    requires AllThere(p, a, db, calls)
  {
    seq(|calls|, k requires 0 <= k < |calls| => RowOf(a, db, CallId(p.id, a.callIndex, k, calls[k])))
  }

  function GroupIds(p: Parent, a: Attempt, calls: seq<Call>): seq<Id> {
    seq(|calls|, k requires 0 <= k < |calls| => CallId(p.id, a.callIndex, k, calls[k]))
  }

  /** The ids whose rows are pending, in order. */
  function PendingIds(ids: seq<Id>, rows: seq<Promise>): seq<Id>
    requires |ids| == |rows|
  {
    if ids == [] then []
    else (if rows[0].state == Pending then [ids[0]] else []) + PendingIds(ids[1..], rows[1..])
  }

  function Values(rows: seq<Promise>): seq<Json> {
    seq(|rows|, k requires 0 <= k < |rows| => ValueOf(rows[k]))
  }

  function Remember(memo: map<Id, Promise>, ids: seq<Id>, rows: seq<Promise>): map<Id, Promise>
    requires |ids| == |rows|
    decreases |ids|
  {
    if ids == [] then memo else Remember(memo[ids[0] := rows[0]], ids[1..], rows[1..])
  }

  /** What the attempt does with the rows of a group: suspend on the pending ones, pass when all
      have resolved, raise when a result is read that is not there. */
  function AfterGroup(a: Attempt, ids: seq<Id>, rows: seq<Promise>): Attempt
    requires |ids| == |rows|
  {
    var known := a.(memo := Remember(a.memo, ids, rows), callIndex := a.callIndex + |ids|);
    var pending := PendingIds(ids, rows);
    if pending != [] then known.(status := Suspending(pending))
    else if forall k :: 0 <= k < |rows| ==> rows[k].state == Resolved then known.(history := a.history + [Values(rows)])
    else known.(status := Raising(REFUSAL))
  }

  datatype Advanced = Advanced(step: Option<Step>, attempt: Attempt)

  /** What a group that raises before its rows are read leaves: the depth is checked before any id
      is issued, and past it every call of the group takes its number. */
  function RefusedGroup(p: Parent, a: Attempt, calls: seq<Call>): Attempt {
    var issued := if p.depth + 1 > MAX_PROMISE_DEPTH then 0 else |calls|;
    a.(callIndex := a.callIndex + issued, status := Raising(REFUSAL))
  }

  /** What a sleep that raises before its row is read leaves: its number is taken. */
  function RefusedSleep(a: Attempt): Attempt {
    a.(callIndex := a.callIndex + 1, status := Raising(REFUSAL))
  }

  function AdvanceGather(db: Db, p: Parent, a: Attempt, calls: seq<Call>, now: int, retentionMs: int,
                         flushed: set<nat>): Advanced
  {
    var sent := FreshCalls(p, a, calls, 0, now, retentionMs, flushed);
    var submitted := SubmitCalls(db, sent);
    var step := if sent == [] then None else Some(WriteCalls(p.id, sent));
    if GroupRefused(p, a, calls, now, retentionMs) || submitted.rows.Err? || !AllThere(p, a, submitted.db, calls) then
      Advanced(step, RefusedGroup(p, a, calls))
    else
      Advanced(step, AfterGroup(a, GroupIds(p, a, calls), GroupRows(p, a, submitted.db, calls)))
  }

  function AdvanceSleep(db: Db, p: Parent, a: Attempt, delayMs: int, now: int, retentionMs: int): Advanced {
    if delayMs <= 0 then Advanced(None, a.(history := a.history + [NAP]))
    else if a.callIndex + 1 > MAX_CHILD_PROMISES then Advanced(None, RefusedSleep(a))
    else
      var id := TimerId(p.id, a.callIndex);
      if id in a.memo then Advanced(None, AfterTimer(a, id, a.memo[id]))
      else
        var timer := ChildTimer(p, a.callIndex, delayMs, now, retentionMs);
        var submitted := SubmitTimerRow(db, timer);
        if !ValidTimer(timer) then Advanced(None, RefusedSleep(a))
        else if submitted.rows.Err? || id !in submitted.db.promises then
          Advanced(Some(WriteTimer(p.id, timer)), RefusedSleep(a))
        else
          Advanced(Some(WriteTimer(p.id, timer)), AfterTimer(a, id, submitted.db.promises[id]))
  }

  /** A sleep has no value: it suspends on a pending timer and passes a resolved one. */
  function AfterTimer(a: Attempt, id: Id, row: Promise): Attempt {
    var known := a.(memo := a.memo[id := row], callIndex := a.callIndex + 1);
    match row.state
    case Pending => known.(status := Suspending([id]))
    case Resolved => known.(history := a.history + [NAP])
    case _ => known.(status := Raising(REFUSAL))
  }

  /** One move of the function, seen from inside its transaction. */
  function AdvanceAttempt(lib: Library, db: Db, p: Parent, a: Attempt, now: int, retentionMs: int,
                          flushed: set<nat>): Advanced
  {
    match lib(p.work, a.history)
    case Done(value) => Advanced(None, a.(status := Returning(value)))
    case Raise(error) => Advanced(None, a.(status := Raising(error)))
    case Sleep(delayMs) => AdvanceSleep(db, p, a, delayMs, now, retentionMs)
    case Gather(calls) => AdvanceGather(db, p, a, calls, now, retentionMs, flushed)
  }

  // ---------------------------------------------------------------- the world

  /** The outcome a finished attempt reports: a null result is stored as no value. */
  function Report(status: Status): StoreRuns.Finish
    requires !status.Running?
  {
    match status
    case Suspending(awaited) => Suspended(awaited)
    case Returning(value) => Settled(Complete(if value == JSON_NULL then None else Some(value)))
    case Raising(error) => Settled(Reject(error))
    case Retrying(error) => Failed(error, 0)
  }

  function Inside(w: World, id: Id): Db
    requires id in w.sys.claims
  {
    View(w.sys.db, w.sys.claims[id])
  }

  function Moved(lib: Library, w: World, id: Id, now: int, retentionMs: int, flushed: set<nat>): Advanced
    requires id in w.attempts && id in w.sys.claims && IsCall(w.sys.db, id)
  {
    AdvanceAttempt(lib, Inside(w, id), ParentOf(w.sys.db, id), w.attempts[id], now, retentionMs, flushed)
  }

  /** The statement a step sends to the store, if any. */
  function Statement(lib: Library, w: World, step: WorldStep): Option<Step>
    requires (step.Advance? || step.Finish?) ==>
               step.id in w.attempts && step.id in w.sys.claims && IsCall(w.sys.db, step.id)
    requires step.Finish? ==> !w.attempts[step.id].status.Running?
  {
    match step
    case Outside(outside) => Some(outside)
    case Begin(id, now) => Some(Claim(id, now))
    case Advance(id, now, retentionMs, flushed) => Moved(lib, w, id, now, retentionMs, flushed).step
    case Interrupt(_, _) => None
    case Finish(id, now) => Some(Commit(id, Report(w.attempts[id].status), now))
    case Abandon(id) => Some(Rollback(id))
  }

  /** Submissions, maintenance and collection come from outside the attempts. */
  predicate FromOutside(step: Step) {
    step.Submit? || step.Timer? || step.Maintain? || step.Collect?
  }

  predicate WorldEnabled(lib: Library, w: World, step: WorldStep) {
    && (match step
        case Outside(outside) => FromOutside(outside)
        case Begin(id, now) => true
        case Advance(id, now, retentionMs, flushed) =>
          && id in w.attempts && id in w.sys.claims && IsCall(w.sys.db, id)
          && w.attempts[id].status.Running?
        case Interrupt(id, status) =>
          && id in w.attempts && !w.attempts[id].status.Raising? && !w.attempts[id].status.Retrying?
          && (status.Raising? || status.Retrying?)
        case Finish(id, now) =>
          && id in w.attempts && id in w.sys.claims && IsCall(w.sys.db, id)
          && !w.attempts[id].status.Running?
        case Abandon(id) => id in w.attempts)
    && (var statement := Statement(lib, w, step); statement.Some? ==> Enabled(w.sys, statement.value))
  }

  function SuspensionsOf(w: World, id: Id): seq<nat> {
    if id in w.suspensions then w.suspensions[id] else []
  }

  function WorldDo(lib: Library, w: World, step: WorldStep): World
    requires WorldEnabled(lib, w, step)
  {
    var statement := Statement(lib, w, step);
    var sys := if statement.Some? then Do(w.sys, statement.value) else w.sys;
    var attempts :=
      match step
      case Outside(_) => w.attempts
      case Begin(id, _) => w.attempts[id := Attempt(Preload(w.sys.db, id), [], 0, Running)]
      case Advance(id, now, retentionMs, flushed) =>
        w.attempts[id := Moved(lib, w, id, now, retentionMs, flushed).attempt]
      case Interrupt(id, status) => w.attempts[id := w.attempts[id].(status := status)]
      case Finish(id, _) => w.attempts - {id}
      case Abandon(id) => w.attempts - {id};
    var suspensions :=
      if step.Finish? && w.attempts[step.id].status.Suspending?
      then w.suspensions[step.id := SuspensionsOf(w, step.id) + [|w.attempts[step.id].history|]]
      else w.suspensions;
    World(sys, attempts, map id | id in suspensions && id in sys.db.tasks :: suspensions[id])
  }

  predicate WorldLegal(lib: Library, w: World, steps: seq<WorldStep>)
    decreases |steps|
  {
    steps == [] || (WorldEnabled(lib, w, steps[0]) && WorldLegal(lib, WorldDo(lib, w, steps[0]), steps[1..]))
  }

  function WorldReach(lib: Library, w: World, steps: seq<WorldStep>): World
    requires WorldLegal(lib, w, steps)
    decreases |steps|
  {
    if steps == [] then w else WorldReach(lib, WorldDo(lib, w, steps[0]), steps[1..])
  }
}
