/** The supervisor reducer: ordered events in, side-effect requests out.

    `Core` is the reducer's state as a value and `Reduce` its specification; the class
    `ReaperCore` updates the same fields step by step, as reaper/control.py does, and each
    of its methods is proved to compute the specification. */
module Reducer {
  import opened Wrappers

  datatype SkeletonState = Starting | Idle | Running | Stopping | Dead

  datatype SkeletonID = SkeletonID(fd: int, gen: int)

  datatype EventKind =
    | Start | Recover | Spawned | SpawnFailed | Ready | Submit | WorkResult
    | Eof | SendFailed | Close | Deadline

  datatype EffectKind =
    | Spawn | SendRun | SendStop | CloseDeath | Resolve | Fail
    | Drop | CloseControl | Reap | Kill

  datatype FailureReason = WorkerError | WorkerDied | Closed

  datatype ControlEvent = ControlEvent(
    kind: EventKind,
    identity: Option<SkeletonID> := None,
    gen: Option<int> := None,
    job: Option<string> := None,
    ok: bool := true)

  datatype ControlEffect = ControlEffect(
    kind: EffectKind,
    identity: Option<SkeletonID> := None,
    gen: Option<int> := None,
    job: Option<string> := None,
    reason: Option<FailureReason> := None)

  datatype ControlSlot = ControlSlot(identity: SkeletonID, state: SkeletonState, job: Option<string>)

  /** One key and its value in the slot table, which keeps insertion order. */
  datatype Entry = Entry(fd: int, slot: ControlSlot)

  datatype Core = Core(
    target: int,
    closing: bool,
    slots: seq<Entry>,
    pending: set<int>,
    queue: seq<string>,
    nextGen: int)

  function Initial(target: int): Core {
    Core(target, false, [], {}, [], 0)
  }

  /** A job counts as present when it is neither absent nor the empty string. */
  predicate Truthy(job: Option<string>) {
    job.Some? && job.value != ""
  }

  // ---------------------------------------------------------------- the slot table

  function KeyIndex(slots: seq<Entry>, fd: int): (i: nat)
    ensures i <= |slots|
    ensures i < |slots| ==> slots[i].fd == fd
    ensures forall k :: 0 <= k < i ==> slots[k].fd != fd
  {
    if slots == [] then 0
    else if slots[0].fd == fd then 0
    else 1 + KeyIndex(slots[1..], fd)
  }

  predicate HasKey(slots: seq<Entry>, fd: int) {
    exists i :: 0 <= i < |slots| && slots[i].fd == fd
  }

  function Put(slots: seq<Entry>, fd: int, slot: ControlSlot): seq<Entry> {
    var i := KeyIndex(slots, fd);
    if i < |slots| then slots[i := Entry(fd, slot)] else slots + [Entry(fd, slot)]
  }

  function Remove(slots: seq<Entry>, fd: int): seq<Entry> {
    var i := KeyIndex(slots, fd);
    if i < |slots| then slots[..i] + slots[i + 1..] else slots
  }

  function Find(slots: seq<Entry>, identity: Option<SkeletonID>): (found: Option<ControlSlot>)
    ensures found.Some? ==> identity == Some(found.value.identity)
  {
    if identity.None? then None
    else
      var i := KeyIndex(slots, identity.value.fd);
      if i == |slots| || slots[i].slot.identity != identity.value then None
      else Some(slots[i].slot)
  }

  function RunningJobs(slots: seq<Entry>): seq<string> {
    if slots == [] then []
    else (if Truthy(slots[0].slot.job) then [slots[0].slot.job.value] else []) + RunningJobs(slots[1..])
  }

  // ---------------------------------------------------------------- transitions as functions

  function Discard(identity: SkeletonID): seq<ControlEffect> {
    [ControlEffect(Drop, identity := Some(identity)),
     ControlEffect(CloseControl, identity := Some(identity)),
     ControlEffect(CloseDeath, identity := Some(identity)),
     ControlEffect(Reap, identity := Some(identity))]
  }

  function Missing(c: Core): nat {
    var total := |c.slots| + |c.pending|;
    if !c.closing && total < c.target then c.target - total else 0
  }

  function Numbers(above: int, n: nat): (r: set<int>)
    ensures forall g :: g in r <==> above < g <= above + n
  {
    if n == 0 then {} else Numbers(above, n - 1) + {above + n}
  }

  function Spawns(above: int, n: nat): seq<ControlEffect> {
    if n == 0 then [] else Spawns(above, n - 1) + [ControlEffect(Spawn, gen := Some(above + n))]
  }

  /** Ask for as many processes as the target lacks, numbering them upwards. */
  function Fill(c: Core): (Core, seq<ControlEffect>) {
    var n := Missing(c);
    (c.(pending := c.pending + Numbers(c.nextGen, n), nextGen := c.nextGen + n),
     Spawns(c.nextGen, n))
  }

  function OnSpawned(c: Core, e: ControlEvent): (Core, seq<ControlEffect>) {
    if e.gen.None? || e.identity.None? then (c, [])
    else if e.gen.value !in c.pending then (c, Discard(e.identity.value))
    else
      var c1 := c.(pending := c.pending - {e.gen.value});
      if c1.closing then (c1, Discard(e.identity.value))
      else
        var id := e.identity.value;
        Fill(c1.(slots := Put(c1.slots, id.fd, ControlSlot(id, Starting, None))))
  }

  function OnSpawnFailed(c: Core, e: ControlEvent): (Core, seq<ControlEffect>) {
    if e.gen.Some? && e.gen.value in c.pending then (c.(pending := c.pending - {e.gen.value}), [])
    else (c, [])
  }

  function OnReady(c: Core, e: ControlEvent): (Core, seq<ControlEffect>) {
    var found := Find(c.slots, e.identity);
    if found.None? || found.value.state != Starting then (c, [])
    else (c.(slots := Put(c.slots, found.value.identity.fd, found.value.(state := Idle))), [])
  }

  predicate Accepts(c: Core, job: Option<string>) {
    !c.closing && job.Some? && job.value !in c.queue && job.value !in RunningJobs(c.slots)
  }

  function OnSubmit(c: Core, e: ControlEvent): (Core, seq<ControlEffect>) {
    if Accepts(c, e.job) then (c.(queue := c.queue + [e.job.value]), []) else (c, [])
  }

  function OnResult(c: Core, e: ControlEvent): (Core, seq<ControlEffect>) {
    var found := Find(c.slots, e.identity);
    if found.None? || found.value.state != Running then (c, [])
    else if found.value.job != e.job || e.job.None? then (c, [])
    else
      (c.(slots := Put(c.slots, found.value.identity.fd, found.value.(state := Idle, job := None))),
       [if e.ok then ControlEffect(Resolve, job := e.job)
        else ControlEffect(Fail, job := e.job, reason := Some(WorkerError))])
  }

  function OnLost(c: Core, e: ControlEvent): (Core, seq<ControlEffect>) {
    var found := Find(c.slots, e.identity);
    if found.None? then (c, [])
    else
      var slot := found.value;
      (c.(slots := Remove(c.slots, slot.identity.fd)),
       Discard(slot.identity) +
       (if Truthy(slot.job) then [ControlEffect(Fail, job := slot.job, reason := Some(WorkerDied))] else []))
  }

  /** What closing does to one slot: fail its job, then ask its process to stop. */
  function StopEffects(slot: ControlSlot): seq<ControlEffect> {
    (if Truthy(slot.job) then [ControlEffect(Fail, job := slot.job, reason := Some(Closed))] else []) +
    [ControlEffect(SendStop, identity := Some(slot.identity))]
  }

  function StopAll(slots: seq<Entry>): seq<ControlEffect> {
    if slots == [] then [] else StopEffects(slots[0].slot) + StopAll(slots[1..])
  }

  function Stopped(slots: seq<Entry>): (r: seq<Entry>)
    ensures |r| == |slots|
  {
    seq(|slots|, i requires 0 <= i < |slots| =>
      Entry(slots[i].fd, slots[i].slot.(state := Stopping, job := None)))
  }

  function FailQueue(queue: seq<string>): seq<ControlEffect> {
    seq(|queue|, i requires 0 <= i < |queue| =>
      ControlEffect(Fail, job := Some(queue[i]), reason := Some(Closed)))
  }

  function OnClose(c: Core): (Core, seq<ControlEffect>) {
    if c.closing then (c, [])
    else
      (c.(closing := true, queue := [], pending := {}, slots := Stopped(c.slots)),
       FailQueue(c.queue) + StopAll(c.slots))
  }

  function OnDeadline(c: Core): (Core, seq<ControlEffect>) {
    (c,
     if !c.closing then []
     else seq(|c.slots|, i requires 0 <= i < |c.slots| =>
       ControlEffect(Kill, identity := Some(c.slots[i].slot.identity))))
  }

  datatype Dispatched = Dispatched(slots: seq<Entry>, queue: seq<string>, effects: seq<ControlEffect>)

  /** Hand queued jobs, oldest first, to idle slots in table order. */
  function Dispatch(slots: seq<Entry>, queue: seq<string>): Dispatched {
    if slots == [] || queue == [] then Dispatched(slots, queue, [])
    else if slots[0].slot.state != Idle then
      After([slots[0]], [], Dispatch(slots[1..], queue))
    else
      var slot := slots[0].slot;
      After(
        [Entry(slots[0].fd, slot.(state := Running, job := Some(queue[0])))],
        [ControlEffect(SendRun, identity := Some(slot.identity), job := Some(queue[0]))],
        Dispatch(slots[1..], queue[1..]))
  }

  function Transition(c: Core, e: ControlEvent): (Core, seq<ControlEffect>) {
    match e.kind
    case Start => Fill(c)
    case Recover => Fill(c)
    case Spawned => OnSpawned(c, e)
    case SpawnFailed => OnSpawnFailed(c, e)
    case Ready => OnReady(c, e)
    case Submit => OnSubmit(c, e)
    case WorkResult => OnResult(c, e)
    case Eof => OnLost(c, e)
    case SendFailed => OnLost(c, e)
    case Close => OnClose(c)
    case Deadline => OnDeadline(c)
  }

  /** Every event is followed by a dispatch of the queue. */
  function Reduce(c: Core, e: ControlEvent): (Core, seq<ControlEffect>) {
    var (c1, effects) := Transition(c, e);
    var d := Dispatch(c1.slots, c1.queue);
    (c1.(slots := d.slots, queue := d.queue), effects + d.effects)
  }

  // ---------------------------------------------------------------- the invariant

  ghost predicate DistinctKeys(slots: seq<Entry>) {
    forall i, j :: 0 <= i < j < |slots| ==> slots[i].fd != slots[j].fd
  }

  ghost predicate DistinctGens(slots: seq<Entry>) {
    forall i, j :: 0 <= i < j < |slots| ==> slots[i].slot.identity.gen != slots[j].slot.identity.gen
  }

  /** What the table says of one entry, by itself. */
  ghost predicate EntryOk(c: Core, entry: Entry) {
    && entry.fd == entry.slot.identity.fd
    && 1 <= entry.slot.identity.gen <= c.nextGen
    && entry.slot.identity.gen !in c.pending
    && (entry.slot.state == Running <==> Truthy(entry.slot.job))
    && (entry.slot.job.Some? ==> Truthy(entry.slot.job))
    && (if c.closing then entry.slot.state == Stopping
        else entry.slot.state == Starting || entry.slot.state == Idle || entry.slot.state == Running)
  }

  ghost function RunningCount(slots: seq<Entry>, job: string): nat {
    if slots == [] then 0
    else (if slots[0].slot.job == Some(job) then 1 else 0) + RunningCount(slots[1..], job)
  }

  /** How many answers the reducer still owes for a job: one for every copy queued or running. */
  ghost function Held(c: Core, job: string): nat {
    multiset(c.queue)[job] + RunningCount(c.slots, job)
  }

  ghost predicate NoJobTwice(c: Core) {
    forall j :: Held(c, j) <= 1
  }

  ghost predicate WorkConserving(c: Core) {
    c.queue == [] || forall i :: 0 <= i < |c.slots| ==> c.slots[i].slot.state != Idle
  }

  ghost predicate Coherent(c: Core) {
    && 0 < c.target
    && 0 <= c.nextGen
    && |c.slots| + |c.pending| <= c.target
    && DistinctKeys(c.slots)
    && DistinctGens(c.slots)
    && (forall i :: 0 <= i < |c.slots| ==> EntryOk(c, c.slots[i]))
    && (forall g :: g in c.pending ==> 1 <= g <= c.nextGen)
    && (forall j :: j in c.queue ==> j != "")
    && NoJobTwice(c)
    && (c.closing ==> c.pending == {} && c.queue == [])
  }

  ghost predicate Inv(c: Core) {
    Coherent(c) && WorkConserving(c)
  }

  /** What the pool promises of the events it feeds in: jobs have non-empty ids, a spawned
      identity carries the generation it answers, no live slot has that generation, and its
      descriptor is not the key of a live slot, whose socket is still open. */
  ghost predicate WellFormed(c: Core, e: ControlEvent) {
    && (e.kind == Submit && e.job.Some? ==> e.job.value != "")
    && (e.kind == Spawned && e.identity.Some? && e.gen.Some? ==>
          && e.identity.value.gen == e.gen.value
          && !HasKey(c.slots, e.identity.value.fd)
          && forall i :: 0 <= i < |c.slots| ==> c.slots[i].slot.identity.gen != e.gen.value)
  }

  // ---------------------------------------------------------------- the reducer in place

  class ReaperCore {
    const target: int
    var closing: bool
    var slots: seq<Entry>
    var pending: set<int>
    var queue: seq<string>
    var nextGen: int

    ghost function Contents(): Core
      reads this
    {
      Core(target, closing, slots, pending, queue, nextGen)
    }

    constructor (target: int)
      requires 0 < target
      ensures Contents() == Initial(target)
    {
      this.target := target;
      closing, slots, pending, queue, nextGen := false, [], {}, [], 0;
    }

    method Apply(event: ControlEvent) returns (effects: seq<ControlEffect>)
      requires Coherent(Contents()) && WellFormed(Contents(), event)
      modifies this
      ensures (Contents(), effects) == Reduce(old(Contents()), event)
    {
      match event.kind {
        case Start => effects := FillMissing();
        case Recover => effects := FillMissing();
        case Spawned => effects := HandleSpawned(event);
        case SpawnFailed => effects := HandleSpawnFailed(event);
        case Ready => effects := HandleReady(event);
        case Submit => effects := HandleSubmit(event);
        case WorkResult => effects := HandleResult(event);
        case Eof => effects := HandleLost(event);
        case SendFailed => effects := HandleLost(event);
        case Close => effects := HandleClose();
        case Deadline => effects := HandleDeadline();
      }
      TransitionKeepsKeys(old(Contents()), event);
      var sent := DispatchQueue();
      effects := effects + sent;
    }

    method HandleSpawned(event: ControlEvent) returns (effects: seq<ControlEffect>)
      modifies this
      ensures (Contents(), effects) == OnSpawned(old(Contents()), event)
    {
      if event.gen.None? || event.identity.None? {
        return [];
      }
      if event.gen.value !in pending {
        return Discard(event.identity.value);
      }
      pending := pending - {event.gen.value};
      if closing {
        return Discard(event.identity.value);
      }
      var id := event.identity.value;
      slots := Put(slots, id.fd, ControlSlot(id, Starting, None));
      effects := FillMissing();
    }

    method HandleSpawnFailed(event: ControlEvent) returns (effects: seq<ControlEffect>)
      modifies this
      ensures (Contents(), effects) == OnSpawnFailed(old(Contents()), event)
    {
      if event.gen.Some? && event.gen.value in pending {
        pending := pending - {event.gen.value};
      }
      effects := [];
    }

    method HandleReady(event: ControlEvent) returns (effects: seq<ControlEffect>)
      modifies this
      ensures (Contents(), effects) == OnReady(old(Contents()), event)
    {
      var slot := Find(slots, event.identity);
      if slot.None? || slot.value.state != Starting {
        return [];
      }
      slots := Put(slots, slot.value.identity.fd, slot.value.(state := Idle));
      effects := [];
    }

    method HandleSubmit(event: ControlEvent) returns (effects: seq<ControlEffect>)
      modifies this
      ensures (Contents(), effects) == OnSubmit(old(Contents()), event)
    {
      effects := [];
      if closing || event.job.None? {
        return;
      }
      if event.job.value !in queue && event.job.value !in RunningJobs(slots) {
        queue := queue + [event.job.value];
      }
    }

    method HandleResult(event: ControlEvent) returns (effects: seq<ControlEffect>)
      modifies this
      ensures (Contents(), effects) == OnResult(old(Contents()), event)
    {
      var slot := Find(slots, event.identity);
      if slot.None? || slot.value.state != Running {
        return [];
      }
      if slot.value.job != event.job || event.job.None? {
        return [];
      }
      slots := Put(slots, slot.value.identity.fd, slot.value.(state := Idle, job := None));
      if event.ok {
        return [ControlEffect(Resolve, job := event.job)];
      }
      effects := [ControlEffect(Fail, job := event.job, reason := Some(WorkerError))];
    }

    method HandleLost(event: ControlEvent) returns (effects: seq<ControlEffect>)
      modifies this
      ensures (Contents(), effects) == OnLost(old(Contents()), event)
    {
      var slot := Find(slots, event.identity);
      if slot.None? {
        return [];
      }
      slots := Remove(slots, slot.value.identity.fd);
      effects := Discard(slot.value.identity);
      if Truthy(slot.value.job) {
        effects := effects + [ControlEffect(Fail, job := slot.value.job, reason := Some(WorkerDied))];
      }
      assert effects == OnLost(old(Contents()), event).1;
    }

    method HandleClose() returns (effects: seq<ControlEffect>)
      requires DistinctKeys(slots)
      modifies this
      ensures (Contents(), effects) == OnClose(old(Contents()))
    {
      if closing {
        return [];
      }
      closing := true;
      effects := [];
      for k := 0 to |queue|
        invariant effects == FailQueue(queue)[..k]
      {
        effects := effects + [ControlEffect(Fail, job := Some(queue[k]), reason := Some(Closed))];
      }
      assert effects == FailQueue(old(queue));
      queue := [];
      pending := {};
      var stops := StopSlots();
      effects := effects + stops;
    }

    method StopSlots() returns (effects: seq<ControlEffect>)
      requires DistinctKeys(slots)
      modifies `slots
      ensures slots == Stopped(old(slots)) && effects == StopAll(old(slots))
    {
      effects := [];
      var items := slots;
      for i := 0 to |items|
        invariant |slots| == |items| && DistinctKeys(slots)
        invariant forall k :: 0 <= k < |items| ==>
          slots[k] == if k < i then Stopped(items)[k] else items[k]
        invariant effects + StopAll(items[i..]) == StopAll(items)
      {
        var slot := items[i].slot;
        StopOne(items, i, effects);
        PutAt(slots, i, slot.(state := Stopping, job := None));
        slots := Put(slots, items[i].fd, slot.(state := Stopping, job := None));
        if Truthy(slot.job) {
          effects := effects + [ControlEffect(Fail, job := slot.job, reason := Some(Closed))];
        }
        effects := effects + [ControlEffect(SendStop, identity := Some(slot.identity))];
      }
    }

    method HandleDeadline() returns (effects: seq<ControlEffect>)
      ensures (Contents(), effects) == OnDeadline(old(Contents()))
    {
      if !closing {
        return [];
      }
      effects := [];
      for i := 0 to |slots|
        invariant effects == OnDeadline(Contents()).1[..i]
      {
        effects := effects + [ControlEffect(Kill, identity := Some(slots[i].slot.identity))];
      }
      assert effects == OnDeadline(Contents()).1;
    }

    method FillMissing() returns (effects: seq<ControlEffect>)
      modifies `pending, `nextGen
      ensures (Contents(), effects) == Fill(old(Contents()))
    {
      effects := [];
      var total := |slots| + |pending|;
      ghost var c := Contents();
      ghost var k: nat := 0;
      while !closing && total < target
        invariant k <= Missing(c) && total == |c.slots| + |c.pending| + k
        invariant nextGen == c.nextGen + k
        invariant pending == c.pending + Numbers(c.nextGen, k)
        invariant effects == Spawns(c.nextGen, k)
        decreases target - total
      {
        nextGen := nextGen + 1;
        pending := pending + {nextGen};
        effects := effects + [ControlEffect(Spawn, gen := Some(nextGen))];
        total := total + 1;
        k := k + 1;
      }
      assert k == Missing(c);
    }

    method DispatchQueue() returns (effects: seq<ControlEffect>)
      requires DistinctKeys(slots)
      modifies `slots, `queue
      ensures Dispatched(slots, queue, effects) == Dispatch(old(slots), old(queue))
    {
      hide Dispatch, Partly, Put;
      effects := [];
      var items := slots;
      ghost var goal := Dispatch(slots, queue);
      DispatchStart(slots, queue);
      for i := 0 to |items|
        invariant |slots| == |items| && DistinctKeys(slots)
        invariant forall k :: i <= k < |items| ==> slots[k] == items[k]
        invariant goal == Partly(slots, i, queue, effects)
      {
        if queue == [] {
          DispatchEnd(slots, i, queue, effects);
          return;
        }
        var slot := items[i].slot;
        if slot.state != Idle {
          DispatchSkip(slots, i, queue, effects);
          continue;
        }
        DispatchSend(slots, i, queue, effects);
        var job := queue[0];
        queue := queue[1..];
        PutAt(slots, i, slot.(state := Running, job := Some(job)));
        slots := Put(slots, items[i].fd, slot.(state := Running, job := Some(job)));
        effects := effects + [ControlEffect(SendRun, identity := Some(slot.identity), job := Some(job))];
      }
      DispatchEnd(slots, |items|, queue, effects);
    }
  }

  lemma PutAt(slots: seq<Entry>, i: nat, slot: ControlSlot)
    requires i < |slots| && DistinctKeys(slots)
    ensures Put(slots, slots[i].fd, slot) == slots[i := Entry(slots[i].fd, slot)]
    ensures DistinctKeys(Put(slots, slots[i].fd, slot))
  {
    KeyIndexIs(slots, i);
  }

  /** A dispatch of which a part is already done. */
  function After(done: seq<Entry>, sent: seq<ControlEffect>, rest: Dispatched): Dispatched {
    Dispatched(done + rest.slots, rest.queue, sent + rest.effects)
  }

  /** The dispatch that results when the first `i` slots have been looked at. */
  function Partly(slots: seq<Entry>, i: nat, queue: seq<string>, sent: seq<ControlEffect>): Dispatched
    requires i <= |slots|
  {
    After(slots[..i], sent, Dispatch(slots[i..], queue))
  }

  lemma DispatchStart(slots: seq<Entry>, queue: seq<string>)
    ensures Partly(slots, 0, queue, []) == Dispatch(slots, queue)
  {
    hide Dispatch;
    assert slots[0..] == slots;
  }

  lemma DispatchEnd(slots: seq<Entry>, i: nat, queue: seq<string>, sent: seq<ControlEffect>)
    requires i <= |slots| && (queue == [] || i == |slots|)
    ensures Partly(slots, i, queue, sent) == Dispatched(slots, queue, sent)
  {
    assert slots[..i] + slots[i..] == slots;
  }

  lemma DispatchSkip(slots: seq<Entry>, i: nat, queue: seq<string>, sent: seq<ControlEffect>)
    requires i < |slots| && queue != [] && slots[i].slot.state != Idle
    ensures Partly(slots, i, queue, sent) == Partly(slots, i + 1, queue, sent)
  {
    assert slots[i..][1..] == slots[i + 1..];
    var rest := Dispatch(slots[i + 1..], queue);
    assert slots[..i] + ([slots[i]] + rest.slots) == slots[..i + 1] + rest.slots;
  }

  lemma DispatchSend(slots: seq<Entry>, i: nat, queue: seq<string>, sent: seq<ControlEffect>)
    requires i < |slots| && queue != [] && slots[i].slot.state == Idle
    ensures var slot := slots[i].slot;
            var after := slots[i := Entry(slots[i].fd, slot.(state := Running, job := Some(queue[0])))];
            var run := ControlEffect(SendRun, identity := Some(slot.identity), job := Some(queue[0]));
            Partly(slots, i, queue, sent) == Partly(after, i + 1, queue[1..], sent + [run])
  {
    assert slots[i..][1..] == slots[i + 1..];
    var slot := slots[i].slot;
    var entry := Entry(slots[i].fd, slot.(state := Running, job := Some(queue[0])));
    var run := ControlEffect(SendRun, identity := Some(slot.identity), job := Some(queue[0]));
    var after := slots[i := entry];
    var rest := Dispatch(slots[i + 1..], queue[1..]);
    assert after[i + 1..] == slots[i + 1..];
    assert slots[..i] + ([entry] + rest.slots) == after[..i + 1] + rest.slots;
    assert sent + ([run] + rest.effects) == (sent + [run]) + rest.effects;
  }

  lemma StopOne(items: seq<Entry>, i: nat, done: seq<ControlEffect>)
    requires i < |items|
    ensures var stop := [ControlEffect(SendStop, identity := Some(items[i].slot.identity))];
            var fail := [ControlEffect(Fail, job := items[i].slot.job, reason := Some(Closed))];
            done + StopAll(items[i..])
            == (if Truthy(items[i].slot.job) then done + fail + stop else done + stop) + StopAll(items[i + 1..])
  {
    assert items[i..][1..] == items[i + 1..];
  }

  lemma KeyIndexIs(slots: seq<Entry>, i: nat)
    requires i < |slots| && DistinctKeys(slots)
    ensures KeyIndex(slots, slots[i].fd) == i
  {
  }

  lemma PutKeepsKeys(slots: seq<Entry>, fd: int, slot: ControlSlot)
    requires DistinctKeys(slots)
    ensures DistinctKeys(Put(slots, fd, slot))
  {
  }

  lemma RemoveKeepsKeys(slots: seq<Entry>, fd: int)
    requires DistinctKeys(slots)
    ensures DistinctKeys(Remove(slots, fd))
  {
  }

  lemma TransitionKeepsKeys(c: Core, e: ControlEvent)
    requires DistinctKeys(c.slots)
    ensures DistinctKeys(Transition(c, e).0.slots)
  {
    hide Put, Remove;
    var found := Find(c.slots, e.identity);
    if found.Some? {
      var slot := found.value;
      PutKeepsKeys(c.slots, slot.identity.fd, slot.(state := Idle));
      PutKeepsKeys(c.slots, slot.identity.fd, slot.(state := Idle, job := None));
      RemoveKeepsKeys(c.slots, slot.identity.fd);
    }
    if e.identity.Some? {
      PutKeepsKeys(c.slots, e.identity.value.fd, ControlSlot(e.identity.value, Starting, None));
    }
    hide Find, DistinctKeys;
    if e.kind == Close {
      assert DistinctKeys(Stopped(c.slots)) by { StoppedKeepsKeys(c.slots); }
    }
  }

  lemma StoppedKeepsKeys(slots: seq<Entry>)
    requires DistinctKeys(slots)
    ensures DistinctKeys(Stopped(slots))
  {
  }
}
