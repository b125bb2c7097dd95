/** What the reducer's effects mean: which event ends a job and how, where work is sent, and which
    processes are asked to stop or are killed. */
module CoreEffects {
  import opened Wrappers
  import opened Reducer
  import opened CoreLaws
  import opened CoreRuns

  /** The live slot of an identity, in a state. */
  ghost predicate InState(slots: seq<Entry>, id: Option<SkeletonID>, state: SkeletonState, job: Option<string>) {
    exists k :: 0 <= k < |slots| && Some(slots[k].slot.identity) == id && slots[k].slot.state == state
      && slots[k].slot.job == job
  }

  /** An effect that ends a job says truly why. */
  ghost predicate EndsRightly(c: Core, e: ControlEvent, f: ControlEffect) {
    match f.kind
    case Resolve => e.kind == WorkResult && e.ok && f.job == e.job && InState(c.slots, e.identity, Running, f.job)
    case Fail =>
      (match f.reason
       case Some(WorkerError) => e.kind == WorkResult && !e.ok && f.job == e.job
                                 && InState(c.slots, e.identity, Running, f.job)
       case Some(WorkerDied) =>
         && (e.kind == Eof || e.kind == SendFailed)
         && exists k :: 0 <= k < |c.slots| && Some(c.slots[k].slot.identity) == e.identity
              && c.slots[k].slot.job == f.job
       case Some(Closed) =>
         && e.kind == Close && !c.closing && f.job.Some?
         && (f.job.value in c.queue || exists k :: 0 <= k < |c.slots| && c.slots[k].slot.job == f.job)
       case None => false)
    case _ => true
  }

  lemma FoundIsThere(c: Core, id: Option<SkeletonID>)
    requires Find(c.slots, id).Some?
    ensures exists k :: 0 <= k < |c.slots| && c.slots[k].slot == Find(c.slots, id).value
              && Some(c.slots[k].slot.identity) == id
  {
    var k := KeyIndex(c.slots, id.value.fd);
    assert c.slots[k].slot == Find(c.slots, id).value;
  }

  lemma {:induction false} StopsEndRightly(slots: seq<Entry>)
    ensures forall x :: 0 <= x < |StopAll(slots)| ==>
              var f := StopAll(slots)[x];
              || f.kind == SendStop
              || (f.kind == Fail && f.reason == Some(Closed) && f.job.Some?
                  && exists k :: 0 <= k < |slots| && slots[k].slot.job == f.job)
  {
    if slots != [] {
      StopsEndRightly(slots[1..]);
      var first := StopEffects(slots[0].slot);
      forall x | 0 <= x < |StopAll(slots)|
        ensures var f := StopAll(slots)[x];
                || f.kind == SendStop
                || (f.kind == Fail && f.reason == Some(Closed) && f.job.Some?
                    && exists k :: 0 <= k < |slots| && slots[k].slot.job == f.job)
      {
        if x < |first| {
          assert StopAll(slots)[x] == first[x];
        } else {
          var f := StopAll(slots[1..])[x - |first|];
          assert StopAll(slots)[x] == f;
          if f.kind != SendStop {
            var k :| 0 <= k < |slots| - 1 && slots[1..][k].slot.job == f.job;
            assert slots[k + 1].slot.job == f.job;
          }
        }
      }
    }
  }

  /** A job is resolved only by an accepting result of the worker that runs it, and failed only by a
      refusing one, by that worker's death, or by closing while it is queued or running; the
      reason given is the true one. With the conservation of jobs, each job therefore ends once
      and as its worker said. */
  lemma EffectsEndRightly(c: Core, e: ControlEvent)
    ensures forall x :: 0 <= x < |Transition(c, e).1| ==> EndsRightly(c, e, Transition(c, e).1[x])
  {
    hide KeyIndex, Put, Remove, Missing, Spawns, StopAll;
    if Find(c.slots, e.identity).Some? {
      FoundIsThere(c, e.identity);
    }
    StopsEndRightly(c.slots);
    SpawnsSpawn(c.nextGen, Missing(c));
    SpawnedEndsNothing(c, e);
  }

  lemma SpawnedEndsNothing(c: Core, e: ControlEvent)
    ensures forall x :: 0 <= x < |OnSpawned(c, e).1| ==>
              OnSpawned(c, e).1[x].kind != Resolve && OnSpawned(c, e).1[x].kind != Fail
  {
    if e.gen.Some? && e.identity.Some? && e.gen.value in c.pending {
      var id := e.identity.value;
      FillOnlySpawns(c.(pending := c.pending - {e.gen.value},
                        slots := Put(c.slots, id.fd, ControlSlot(id, Starting, None))));
    }
  }

  lemma ReduceEndsRightly(c: Core, e: ControlEvent)
    ensures forall x :: 0 <= x < |Reduce(c, e).1| ==> EndsRightly(c, e, Reduce(c, e).1[x])
  {
    hide Transition, Dispatch;
    var (c1, first) := Transition(c, e);
    EffectsEndRightly(c, e);
    DispatchFifo(c1.slots, c1.queue);
  }

  // ---------------------------------------------------------------- where work is sent

  /** One step of the dispatch: the first slot takes the first job or is passed over. */
  lemma DispatchStep(slots: seq<Entry>, queue: seq<string>)
    requires slots != [] && queue != []
    ensures var idle := slots[0].slot.state == Idle;
            var rest := Dispatch(slots[1..], if idle then queue[1..] else queue);
            var run := Entry(slots[0].fd, slots[0].slot.(state := Running, job := Some(queue[0])));
            var send := ControlEffect(SendRun, identity := Some(slots[0].slot.identity), job := Some(queue[0]));
            && Dispatch(slots, queue).slots == [if idle then run else slots[0]] + rest.slots
            && Dispatch(slots, queue).effects == (if idle then [send] else []) + rest.effects
  {
  }

  lemma StateInPart(first: seq<Entry>, rest: seq<Entry>, id: Option<SkeletonID>, state: SkeletonState,
                    job: Option<string>)
    ensures InState(rest, id, state, job) ==> InState(first + rest, id, state, job)
    ensures InState(first, id, state, job) ==> InState(first + rest, id, state, job)
  {
    if k :| 0 <= k < |rest|
            && Some(rest[k].slot.identity) == id && rest[k].slot.state == state && rest[k].slot.job == job {
      assert (first + rest)[|first| + k] == rest[k];
    }
    if k :| 0 <= k < |first|
            && Some(first[k].slot.identity) == id && first[k].slot.state == state && first[k].slot.job == job {
      assert (first + rest)[k] == first[k];
    }
  }

  /** A slot that the dispatch is told to use runs the job it is sent. */
  lemma {:induction false} DispatchRuns(slots: seq<Entry>, queue: seq<string>, x: nat)
    requires x < |Dispatch(slots, queue).effects|
    ensures var f := Dispatch(slots, queue).effects[x];
            f.job.Some? && InState(Dispatch(slots, queue).slots, f.identity, Running, f.job)
    decreases |slots|
  {
    hide Dispatch, InState;
    if slots == [] || queue == [] {
      DispatchesNothing(slots, queue);
    } else {
      DispatchStep(slots, queue);
      var idle := slots[0].slot.state == Idle;
      var rest := Dispatch(slots[1..], if idle then queue[1..] else queue);
      var run := Entry(slots[0].fd, slots[0].slot.(state := Running, job := Some(queue[0])));
      if idle && x == 0 {
        StateIsOwn(run);
        StateInPart([run], rest.slots, Some(run.slot.identity), Running, run.slot.job);
      } else {
        var y := if idle then x - 1 else x;
        DispatchRuns(slots[1..], if idle then queue[1..] else queue, y);
        StateInPart([if idle then run else slots[0]], rest.slots, rest.effects[y].identity, Running,
                    rest.effects[y].job);
      }
    }
  }

  lemma DispatchesNothing(slots: seq<Entry>, queue: seq<string>)
    requires slots == [] || queue == []
    ensures Dispatch(slots, queue).effects == [] && Dispatch(slots, queue).slots == slots
  {
  }

  lemma StateIsOwn(entry: Entry)
    ensures InState([entry], Some(entry.slot.identity), entry.slot.state, entry.slot.job)
  {
    assert [entry][0] == entry;
  }

  ghost predicate Sent(effects: seq<ControlEffect>, id: SkeletonID, job: Option<string>) {
    exists x :: 0 <= x < |effects| && effects[x].kind == SendRun && effects[x].identity == Some(id)
      && effects[x].job == job
  }

  /** A slot that the dispatch changes is sent the job it now runs. */
  lemma {:induction false} DispatchTells(slots: seq<Entry>, queue: seq<string>, k: nat)
    requires k < |Dispatch(slots, queue).slots| && k < |slots| && Dispatch(slots, queue).slots[k] != slots[k]
    ensures Sent(Dispatch(slots, queue).effects, slots[k].slot.identity, Dispatch(slots, queue).slots[k].slot.job)
    decreases |slots|
  {
    hide Dispatch;
    if slots == [] || queue == [] {
      DispatchesNothing(slots, queue);
    } else {
      DispatchStep(slots, queue);
      var idle := slots[0].slot.state == Idle;
      var rest := Dispatch(slots[1..], if idle then queue[1..] else queue);
      var effects := Dispatch(slots, queue).effects;
      if k > 0 {
        DispatchTells(slots[1..], if idle then queue[1..] else queue, k - 1);
        var x :| 0 <= x < |rest.effects| && rest.effects[x].kind == SendRun
                 && rest.effects[x].identity == Some(slots[k].slot.identity)
                 && rest.effects[x].job == rest.slots[k - 1].slot.job;
        assert effects[if idle then x + 1 else x] == rest.effects[x];
      } else {
        assert effects[0].kind == SendRun;
      }
    }
  }

  /** Every SEND_RUN goes to a slot that from then on runs that very job. */
  lemma SentJobsRun(c: Core, e: ControlEvent)
    ensures var (c', effects) := Reduce(c, e);
            forall x :: 0 <= x < |effects| && effects[x].kind == SendRun ==>
              effects[x].job.Some? && InState(c'.slots, effects[x].identity, Running, effects[x].job)
  {
    hide Transition, Dispatch, InState;
    var (c1, first) := Transition(c, e);
    TransitionSends(c, e);
    var d := Dispatch(c1.slots, c1.queue);
    forall x | 0 <= x < |Reduce(c, e).1| && Reduce(c, e).1[x].kind == SendRun
      ensures Reduce(c, e).1[x].job.Some?
              && InState(Reduce(c, e).0.slots, Reduce(c, e).1[x].identity, Running, Reduce(c, e).1[x].job)
    {
      assert x >= |first| && Reduce(c, e).1[x] == d.effects[x - |first|];
      DispatchRuns(c1.slots, c1.queue, x - |first|);
    }
  }

  /** Every running slot of one table is a slot of the other. */
  ghost predicate StartsNothing(slots: seq<Entry>, after: seq<Entry>) {
    forall x :: x in after && x.slot.state == Running ==> x in slots
  }

  lemma PutMembers(slots: seq<Entry>, fd: int, slot: ControlSlot)
    ensures forall x :: x in Put(slots, fd, slot) ==> x in slots || x.slot == slot
  {
  }

  lemma RemoveMembers(slots: seq<Entry>, fd: int)
    ensures forall x :: x in Remove(slots, fd) ==> x in slots
  {
  }

  lemma SpawnedStartsNothing(c: Core, e: ControlEvent)
    ensures StartsNothing(c.slots, OnSpawned(c, e).0.slots)
  {
    hide Put, Missing, Numbers, Spawns, Discard;
    if e.identity.Some? {
      PutMembers(c.slots, e.identity.value.fd, ControlSlot(e.identity.value, Starting, None));
    }
  }

  lemma FoundStartsNothing(c: Core, e: ControlEvent)
    ensures StartsNothing(c.slots, OnReady(c, e).0.slots)
    ensures StartsNothing(c.slots, OnResult(c, e).0.slots)
    ensures StartsNothing(c.slots, OnLost(c, e).0.slots)
  {
    hide Put, Remove, Find, Discard;
    var found := Find(c.slots, e.identity);
    if found.Some? {
      var slot := found.value;
      PutMembers(c.slots, slot.identity.fd, slot.(state := Idle));
      PutMembers(c.slots, slot.identity.fd, slot.(state := Idle, job := None));
      RemoveMembers(c.slots, slot.identity.fd);
    }
  }

  lemma CloseStartsNothing(c: Core)
    ensures StartsNothing(c.slots, OnClose(c).0.slots)
  {
    hide StopAll, FailQueue;
  }

  /** No transition starts work by itself. */
  lemma TransitionStartsNothing(c: Core, e: ControlEvent, k: nat)
    requires k < |Transition(c, e).0.slots| && Transition(c, e).0.slots[k].slot.state == Running
    ensures var slot := Transition(c, e).0.slots[k].slot; InState(c.slots, Some(slot.identity), Running, slot.job)
  {
    hide OnSpawned, OnReady, OnResult, OnLost, OnClose, Missing, Numbers, Spawns;
    SpawnedStartsNothing(c, e);
    FoundStartsNothing(c, e);
    CloseStartsNothing(c);
    var entry := Transition(c, e).0.slots[k];
    assert entry in c.slots;
  }

  /** A slot runs a job after an event only if it ran it before or is sent it by this event. */
  lemma RunningMeansSent(c: Core, e: ControlEvent, k: nat)
    requires Coherent(c) && k < |Reduce(c, e).0.slots| && Reduce(c, e).0.slots[k].slot.state == Running
    ensures var slot := Reduce(c, e).0.slots[k].slot;
            InState(c.slots, Some(slot.identity), Running, slot.job) || Sent(Reduce(c, e).1, slot.identity, slot.job)
  {
    hide Transition, Dispatch, InState, Coherent;
    var (c1, first) := Transition(c, e);
    var d := Dispatch(c1.slots, c1.queue);
    DispatchEntries(c1.slots, c1.queue);
    assert DispatchedEntry(c1.slots[k], d.slots[k], c1.queue);
    if d.slots[k] == c1.slots[k] {
      TransitionStartsNothing(c, e, k);
    } else {
      DispatchTells(c1.slots, c1.queue, k);
      var id, job := c1.slots[k].slot.identity, d.slots[k].slot.job;
      var x :| 0 <= x < |d.effects| && d.effects[x].kind == SendRun && d.effects[x].identity == Some(id)
               && d.effects[x].job == job;
      assert Reduce(c, e).1[|first| + x] == d.effects[x];
      assert d.slots[k].slot.identity == id;
    }
  }

  // ---------------------------------------------------------------- stopping

  function AskedToStop(f: ControlEffect): Option<SkeletonID> {
    if f.kind == SendStop then f.identity else None
  }

  function Identities(slots: seq<Entry>): seq<SkeletonID> {
    seq(|slots|, i requires 0 <= i < |slots| => slots[i].slot.identity)
  }

  lemma {:induction false} StopsOf(slots: seq<Entry>)
    ensures Collect(StopAll(slots), AskedToStop) == Identities(slots)
  {
    if slots != [] {
      StopsOf(slots[1..]);
      CollectConcat(StopEffects(slots[0].slot), StopAll(slots[1..]), AskedToStop);
      StopsItself(slots[0].slot);
    }
  }

  lemma StopsItself(slot: ControlSlot)
    ensures Collect(StopEffects(slot), AskedToStop) == [slot.identity]
  {
    var stop := ControlEffect(SendStop, identity := Some(slot.identity));
    CollectOne(stop, AskedToStop);
    if Truthy(slot.job) {
      var fail := ControlEffect(Fail, job := slot.job, reason := Some(Closed));
      CollectOne(fail, AskedToStop);
      CollectConcat([fail], [stop], AskedToStop);
    } else {
      assert StopEffects(slot) == [stop];
    }
  }

  /** The first CLOSE asks every live process to stop, once each in table order, and leaves every
      slot stopping without a job; a later one does nothing. */
  lemma CloseStopsAll(c: Core, e: ControlEvent)
    requires e.kind == Close
    ensures Coherent(c) && c.closing ==> Reduce(c, e) == (c, [])
    ensures !c.closing ==>
              var (c', effects) := Reduce(c, e);
              && Collect(effects, AskedToStop) == Identities(c.slots)
              && |c'.slots| == |c.slots|
              && forall k :: 0 <= k < |c.slots| ==>
                   && c'.slots[k].slot.identity == c.slots[k].slot.identity
                   && c'.slots[k].slot.state == Stopping && c'.slots[k].slot.job.None?
  {
    hide EntryOk, NoJobTwice;
    DispatchesNothing(Transition(c, e).0.slots, []);
    if !c.closing {
      assert Reduce(c, e).1 == FailQueue(c.queue) + StopAll(c.slots);
      CollectNothing(FailQueue(c.queue), AskedToStop);
      CollectConcat(FailQueue(c.queue), StopAll(c.slots), AskedToStop);
      StopsOf(c.slots);
    }
  }

  // ---------------------------------------------------------------- killing

  function Killed(f: ControlEffect): Option<SkeletonID> {
    if f.kind == Kill then f.identity else None
  }

  function Kills(slots: seq<Entry>): seq<ControlEffect> {
    seq(|slots|, i requires 0 <= i < |slots| => ControlEffect(Kill, identity := Some(slots[i].slot.identity)))
  }

  lemma {:induction false} KillsOf(slots: seq<Entry>)
    ensures Collect(Kills(slots), Killed) == Identities(slots)
  {
    if slots != [] {
      KillsOf(slots[1..]);
      var first := ControlEffect(Kill, identity := Some(slots[0].slot.identity));
      assert Kills(slots) == [first] + Kills(slots[1..]);
      CollectConcat([first], Kills(slots[1..]), Killed);
      CollectOne(first, Killed);
    }
  }

  /** A process is killed only at the deadline of a closing pool, and then every live one is, once
      each in table order. */
  lemma OnlyTheDeadlineKills(c: Core, e: ControlEvent)
    ensures Collect(Reduce(c, e).1, Killed) == if e.kind == Deadline && c.closing then Identities(c.slots) else []
    ensures forall f :: f in Reduce(c, e).1 && f.kind == Kill ==> f.identity.Some?
  {
    var (c1, first) := Transition(c, e);
    var d := Dispatch(c1.slots, c1.queue);
    DispatchFifo(c1.slots, c1.queue);
    hide Transition, Dispatch;
    CollectNothing(d.effects, Killed);
    CollectConcat(first, d.effects, Killed);
    TransitionKills(c, e);
  }

  lemma TransitionKills(c: Core, e: ControlEvent)
    ensures Collect(Transition(c, e).1, Killed) == if e.kind == Deadline && c.closing then Identities(c.slots) else []
    ensures forall f :: f in Transition(c, e).1 && f.kind == Kill ==> f.identity.Some?
  {
    hide OnSpawned, OnReady, OnResult, OnLost, OnClose, OnSubmit, OnSpawnFailed, Fill;
    if e.kind == Deadline && c.closing {
      assert Transition(c, e).1 == Kills(c.slots);
      KillsOf(c.slots);
    } else {
      NothingKilled(c, e);
      CollectNothing(Transition(c, e).1, Killed);
    }
  }

  lemma NothingKilled(c: Core, e: ControlEvent)
    requires e.kind != Deadline || !c.closing
    ensures forall x :: 0 <= x < |Transition(c, e).1| ==> Transition(c, e).1[x].kind != Kill
  {
    hide KeyIndex, Put, Remove, Missing, Spawns, StopAll, Find;
    StopsEndRightly(c.slots);
    SpawnsSpawn(c.nextGen, Missing(c));
    SpawnedKillsNothing(c, e);
  }

  lemma SpawnedKillsNothing(c: Core, e: ControlEvent)
    ensures forall x :: 0 <= x < |OnSpawned(c, e).1| ==> OnSpawned(c, e).1[x].kind != Kill
  {
    if e.gen.Some? && e.identity.Some? && e.gen.value in c.pending {
      var id := e.identity.value;
      FillOnlySpawns(c.(pending := c.pending - {e.gen.value},
                        slots := Put(c.slots, id.fd, ControlSlot(id, Starting, None))));
    }
  }
}
