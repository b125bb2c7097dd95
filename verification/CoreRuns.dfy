/** Whole runs of the reducer: any sequence of well-formed events, from any state that keeps
    the invariant. */
module CoreRuns {
  import opened Wrappers
  import opened Reducer
  import opened CoreLaws

  function Final(c: Core, events: seq<ControlEvent>): Core
    decreases |events|
  {
    if events == [] then c else Final(Reduce(c, events[0]).0, events[1..])
  }

  function Trace(c: Core, events: seq<ControlEvent>): seq<ControlEffect>
    decreases |events|
  {
    if events == [] then []
    else Reduce(c, events[0]).1 + Trace(Reduce(c, events[0]).0, events[1..])
  }

  /** The jobs the reducer took on, in order of submission. */
  function Accepted(c: Core, events: seq<ControlEvent>): seq<string>
    decreases |events|
  {
    if events == [] then []
    else AcceptedBy(c, events[0]) + Accepted(Reduce(c, events[0]).0, events[1..])
  }

  ghost predicate WellFormedRun(c: Core, events: seq<ControlEvent>)
    decreases |events|
  {
    events == [] || (WellFormed(c, events[0]) && WellFormedRun(Reduce(c, events[0]).0, events[1..]))
  }

  lemma InitialInv(target: int)
    requires 0 < target
    ensures Inv(Initial(target))
  {
    var c := Initial(target);
    forall j ensures Held(c, j) <= 1 {
      NothingRunning(c.slots, j);
    }
  }

  lemma {:induction false} RunKeepsInv(c: Core, events: seq<ControlEvent>)
    requires Inv(c) && WellFormedRun(c, events)
    ensures Inv(Final(c, events)) && Asserted(Final(c, events))
    decreases |events|
  {
    if events == [] {
      InvImpliesAsserted(c);
    } else {
      ReduceKeepsInv(c, events[0]);
      RunKeepsInv(Reduce(c, events[0]).0, events[1..]);
    }
  }

  // ---------------------------------------------------------------- jobs

  /** For every job id and every run: accepted submissions equal answers given plus answers
      still owed, so no job is lost and none is answered twice. */
  lemma {:induction false} RunConservesJob(c: Core, events: seq<ControlEvent>, job: string)
    requires Inv(c) && WellFormedRun(c, events) && job != ""
    ensures Held(c, job) + multiset(Accepted(c, events))[job]
         == Held(Final(c, events), job) + FinishedCount(Trace(c, events), job)
    ensures Held(Final(c, events), job) <= 1
    decreases |events|
  {
    if events == [] {
      assert Held(c, job) <= 1;
    } else {
      var (c', effects) := Reduce(c, events[0]);
      ReduceKeepsInv(c, events[0]);
      ReduceConservesJob(c, events[0], job);
      RunConservesJob(c', events[1..], job);
      CollectConcat(effects, Trace(c', events[1..]), FinishedJob);
    }
  }

  lemma TransitionSends(c: Core, e: ControlEvent)
    ensures forall i :: 0 <= i < |Transition(c, e).1| ==> Transition(c, e).1[i].kind != SendRun
    ensures e.kind != Close ==>
              forall i :: 0 <= i < |Transition(c, e).1| ==> Transition(c, e).1[i].reason != Some(Closed)
  {
    if e.kind == Start || e.kind == Recover {
      SpawnsSpawn(c.nextGen, Missing(c));
    } else if e.kind == Spawned && e.gen.Some? && e.identity.Some? && e.gen.value in c.pending {
      var id := e.identity.value;
      var c1 := c.(pending := c.pending - {e.gen.value}, slots := Put(c.slots, id.fd, ControlSlot(id, Starting, None)));
      SpawnsSpawn(c1.nextGen, Missing(c1));
    } else if e.kind == Close {
      StopAllKinds(c.slots);
    }
  }

  lemma {:induction false} StopAllKinds(slots: seq<Entry>)
    ensures forall i :: 0 <= i < |StopAll(slots)| ==>
              StopAll(slots)[i].kind == Fail || StopAll(slots)[i].kind == SendStop
  {
    if slots != [] {
      StopAllKinds(slots[1..]);
    }
  }

  lemma CloseFifo(c: Core)
    ensures var (c1, effects) := OnClose(c);
            if !c.closing
              then c1.closing && c1.queue == [] && Collect(effects, ClosedJob) == c.queue + RunningJobs(c.slots)
            else c1 == c && Collect(effects, ClosedJob) == []
  {
    if !c.closing {
      FailQueueJobs(c.queue);
      StopAllJobs(c.slots);
      CollectConcat(FailQueue(c.queue), StopAll(c.slots), ClosedJob);
    }
  }

  lemma OthersKeepQueue(c: Core, e: ControlEvent)
    requires e.kind != Close
    ensures Transition(c, e).0.closing == c.closing && c.queue + AcceptedBy(c, e) == Transition(c, e).0.queue
  {
    hide Put, KeyIndex, Find, Remove, Discard, Spawns;
  }

  lemma TransitionFifo(c: Core, e: ControlEvent)
    ensures var (c1, effects) := Transition(c, e);
            && Collect(effects, SentJob) == []
            && if e.kind == Close && !c.closing then
                 c1.closing && c1.queue == [] && Collect(effects, ClosedJob) == c.queue + RunningJobs(c.slots)
               else
                 c1.closing == c.closing && c.queue + AcceptedBy(c, e) == c1.queue && Collect(effects, ClosedJob) == []
  {
    hide Collect, OnReady, OnResult, OnLost, OnClose, OnSpawned, OnSpawnFailed, OnSubmit, OnDeadline, Fill;
    var effects := Transition(c, e).1;
    TransitionSends(c, e);
    CollectNothing(effects, SentJob);
    if e.kind == Close {
      CloseFifo(c);
    } else {
      OthersKeepQueue(c, e);
      CollectNothing(effects, ClosedJob);
    }
  }

  /** One event, in order: the queue and the accepted job are the jobs sent, then the queue;
      closing instead fails the whole queue, oldest first, and then the running jobs. */
  lemma ReduceFifo(c: Core, e: ControlEvent)
    ensures var (c', effects) := Reduce(c, e);
            if e.kind == Close && !c.closing then
              && c'.closing && c'.queue == [] && Collect(effects, SentJob) == []
              && Collect(effects, ClosedJob) == c.queue + RunningJobs(c.slots)
            else
              && c'.closing == c.closing
              && c.queue + AcceptedBy(c, e) == Collect(effects, SentJob) + c'.queue
              && Collect(effects, ClosedJob) == []
  {
    var (c1, effects) := Transition(c, e);
    var d := Dispatch(c1.slots, c1.queue);
    TransitionFifo(c, e);
    DispatchFifo(c1.slots, c1.queue);
    CollectConcat(effects, d.effects, SentJob);
    CollectConcat(effects, d.effects, ClosedJob);
    CollectNothing(d.effects, ClosedJob);
    hide Transition, Dispatch, AcceptedBy;
  }

  lemma ClosingAcceptsNothing(c: Core, e: ControlEvent)
    ensures c.closing || e.kind == Close ==> AcceptedBy(c, e) == []
  {
  }

  /** A stretch of a run in order: while it stays open, the jobs sent followed by the queue are
      the jobs it had; if it ends closed, the jobs sent are the front of them and the rest were
      failed, in the same order, by the closing. */
  ghost predicate InOrder(jobs: seq<string>, sent: seq<string>, queue: seq<string>, closing: bool, dropped: seq<string>)
  {
    if closing then sent <= jobs && jobs[|sent|..] <= dropped else jobs == sent + queue
  }

  lemma InOrderAfterSending(jobs: seq<string>, first: seq<string>, middle: seq<string>, accepted: seq<string>,
                            sent: seq<string>, queue: seq<string>, closing: bool, dropped: seq<string>)
    requires jobs == first + middle
    requires InOrder(middle + accepted, sent, queue, closing, dropped)
    ensures InOrder(jobs + accepted, first + sent, queue, closing, dropped)
  {
    assert jobs + accepted == first + (middle + accepted);
    if closing {
      assert (first + (middle + accepted))[|first + sent|..] == (middle + accepted)[|sent|..];
    }
  }

  /** Once closing, no run ever accepts or sends another job, or asks for another process. */
  lemma {:induction false} ClosedRunIsQuiet(c: Core, events: seq<ControlEvent>)
    requires Inv(c) && WellFormedRun(c, events) && c.closing
    ensures var f, trace := Final(c, events), Trace(c, events);
            && f.closing && f.nextGen == c.nextGen && Accepted(c, events) == []
            && Collect(trace, SentJob) == [] && Collect(trace, SpawnGen) == []
    decreases |events|
  {
    hide Reduce, WellFormed, AcceptedBy;
    if events != [] {
      var (c', effects) := Reduce(c, events[0]);
      ReduceKeepsInv(c, events[0]);
      ReduceFifo(c, events[0]);
      ReduceSpawns(c, events[0]);
      ClosingAcceptsNothing(c, events[0]);
      ClosedRunIsQuiet(c', events[1..]);
      hide Inv;
      CollectConcat(effects, Trace(c', events[1..]), SentJob);
      CollectConcat(effects, Trace(c', events[1..]), SpawnGen);
    }
  }

  lemma RunSplit(c: Core, events: seq<ControlEvent>)
    requires events != []
    ensures var (c', effects) := Reduce(c, events[0]);
            && Final(c, events) == Final(c', events[1..])
            && Trace(c, events) == effects + Trace(c', events[1..])
            && Accepted(c, events) == AcceptedBy(c, events[0]) + Accepted(c', events[1..])
  {
    hide Reduce, AcceptedBy;
  }

  ghost predicate FifoRun(c: Core, events: seq<ControlEvent>) {
    var f, trace := Final(c, events), Trace(c, events);
    InOrder(c.queue + Accepted(c, events), Collect(trace, SentJob), f.queue, f.closing, Collect(trace, ClosedJob))
  }

  lemma FifoAfterClose(c: Core, events: seq<ControlEvent>)
    requires Inv(c) && WellFormedRun(c, events) && events != [] && events[0].kind == Close && !c.closing
    ensures FifoRun(c, events)
  {
    var (c', effects) := Reduce(c, events[0]);
    ReduceKeepsInv(c, events[0]);
    ReduceFifo(c, events[0]);
    ClosingAcceptsNothing(c, events[0]);
    ClosedRunIsQuiet(c', events[1..]);
    RunSplit(c, events);
    hide Reduce, Inv, WellFormed, AcceptedBy, Final, Trace, Accepted, WellFormedRun, Collect;
    var rest := Trace(c', events[1..]);
    CollectConcat(effects, rest, SentJob);
    CollectConcat(effects, rest, ClosedJob);
    assert c.queue + Accepted(c, events) == c.queue;
    assert Collect(effects + rest, SentJob) == [];
  }

  lemma FifoAfterEvent(c: Core, events: seq<ControlEvent>)
    requires events != [] && (events[0].kind != Close || c.closing)
    requires FifoRun(Reduce(c, events[0]).0, events[1..])
    ensures FifoRun(c, events)
  {
    hide Reduce, AcceptedBy, Final, Trace, Accepted, Collect, InOrder;
    var (c', effects) := Reduce(c, events[0]);
    ReduceFifo(c, events[0]);
    RunSplit(c, events);
    var f, rest, later := Final(c, events), Trace(c', events[1..]), Accepted(c', events[1..]);
    CollectConcat(effects, rest, SentJob);
    CollectConcat(effects, rest, ClosedJob);
    InOrderAfterSending(c.queue + AcceptedBy(c, events[0]), Collect(effects, SentJob), c'.queue, later,
                        Collect(rest, SentJob), f.queue, f.closing, Collect(rest, ClosedJob));
    assert c.queue + Accepted(c, events) == c.queue + AcceptedBy(c, events[0]) + later;
    assert Collect(effects + rest, ClosedJob) == Collect(rest, ClosedJob);
  }

  /** First in, first out, over every run. */
  lemma {:induction false} RunFifo(c: Core, events: seq<ControlEvent>)
    requires Inv(c) && WellFormedRun(c, events)
    ensures var f, trace := Final(c, events), Trace(c, events);
            InOrder(c.queue + Accepted(c, events), Collect(trace, SentJob), f.queue, f.closing,
                    Collect(trace, ClosedJob))
    decreases |events|
  {
    if events == [] {
      ClosedQueue(c);
    } else if events[0].kind == Close && !c.closing {
      FifoAfterClose(c, events);
    } else {
      hide Inv, Reduce, InOrder;
      ReduceKeepsInv(c, events[0]);
      RunFifo(Reduce(c, events[0]).0, events[1..]);
      FifoAfterEvent(c, events);
    }
  }

  lemma ClosedQueue(c: Core)
    requires Inv(c)
    ensures c.closing ==> c.queue == []
  {
  }

  // ---------------------------------------------------------------- processes

  function Counting(above: int, n: nat): seq<int> {
    seq(n, i => above + 1 + i)
  }

  lemma {:induction false} SpawnsGens(above: int, n: nat)
    ensures Collect(Spawns(above, n), SpawnGen) == Counting(above, n)
  {
    if n > 0 {
      SpawnsGens(above, n - 1);
      var last := ControlEffect(Spawn, gen := Some(above + n));
      CollectConcat(Spawns(above, n - 1), [last], SpawnGen);
      CollectOne(last, SpawnGen);
    } else {
      assert Counting(above, 0) == [];
    }
  }

  lemma OtherTransitionsSpawnNothing(c: Core, e: ControlEvent)
    requires e.kind != Start && e.kind != Recover && e.kind != Spawned
    ensures Transition(c, e).0.nextGen == c.nextGen
    ensures forall i :: 0 <= i < |Transition(c, e).1| ==> Transition(c, e).1[i].kind != Spawn
  {
    StopAllKinds(c.slots);
  }

  /** These effects ask for the processes with the next numbers, in order. */
  ghost predicate SpawnsNext(c: Core, c1: Core, effects: seq<ControlEffect>) {
    && c.nextGen <= c1.nextGen
    && Collect(effects, SpawnGen) == Counting(c.nextGen, c1.nextGen - c.nextGen)
    && (c.closing ==> c1.nextGen == c.nextGen)
  }

  lemma FillSpawnsNext(c: Core)
    requires 0 <= c.nextGen
    ensures SpawnsNext(c, Fill(c).0, Fill(c).1)
  {
    SpawnsGens(c.nextGen, Missing(c));
  }

  lemma QuietSpawnsNext(c: Core, c1: Core, effects: seq<ControlEffect>)
    requires c1.nextGen == c.nextGen && forall i :: 0 <= i < |effects| ==> effects[i].kind != Spawn
    ensures SpawnsNext(c, c1, effects)
  {
    CollectNothing(effects, SpawnGen);
    assert Counting(c.nextGen, 0) == [];
  }

  lemma SpawnedSpawnsNext(c: Core, e: ControlEvent)
    requires Coherent(c)
    ensures SpawnsNext(c, OnSpawned(c, e).0, OnSpawned(c, e).1)
  {
    hide SpawnsNext, Coherent, Missing;
    CoherentNumbers(c);
    if e.gen.Some? && e.identity.Some? && e.gen.value in c.pending {
      var id := e.identity.value;
      var c2 := c.(pending := c.pending - {e.gen.value}, slots := Put(c.slots, id.fd, ControlSlot(id, Starting, None)));
      FillSpawnsNext(c2);
      SameNumbers(c, c2, Fill(c2).0, Fill(c2).1);
    } else {
      QuietSpawnsNext(c, OnSpawned(c, e).0, OnSpawned(c, e).1);
    }
  }

  lemma CoherentNumbers(c: Core)
    requires Coherent(c)
    ensures 0 <= c.nextGen && (c.closing ==> c.pending == {})
  {
  }

  lemma SameNumbers(c: Core, c2: Core, c1: Core, effects: seq<ControlEffect>)
    requires SpawnsNext(c2, c1, effects) && c2.nextGen == c.nextGen && c2.closing == c.closing
    ensures SpawnsNext(c, c1, effects)
  {
  }

  lemma TransitionSpawns(c: Core, e: ControlEvent)
    requires Coherent(c)
    ensures SpawnsNext(c, Transition(c, e).0, Transition(c, e).1)
  {
    hide SpawnsNext, Coherent, OnSpawned, Fill, OnClose, OnResult, OnLost, OnSubmit, OnReady, OnDeadline, OnSpawnFailed;
    if e.kind == Start || e.kind == Recover {
      CoherentNumbers(c);
      FillSpawnsNext(c);
    } else if e.kind == Spawned {
      SpawnedSpawnsNext(c, e);
    } else {
      OtherTransitionsSpawnNothing(c, e);
      QuietSpawnsNext(c, Transition(c, e).0, Transition(c, e).1);
    }
  }

  /** One event asks for the next generations in order, and for none once the pool is closing. */
  lemma ReduceSpawns(c: Core, e: ControlEvent)
    requires Coherent(c)
    ensures var (c', effects) := Reduce(c, e);
            && c.nextGen <= c'.nextGen
            && Collect(effects, SpawnGen) == Counting(c.nextGen, c'.nextGen - c.nextGen)
            && (c.closing ==> c'.nextGen == c.nextGen)
  {
    var (c1, first) := Transition(c, e);
    var d := Dispatch(c1.slots, c1.queue);
    TransitionSpawns(c, e);
    DispatchFifo(c1.slots, c1.queue);
    CollectNothing(d.effects, SpawnGen);
    CollectConcat(first, d.effects, SpawnGen);
    hide Transition, Dispatch;
    assert Collect(first + d.effects, SpawnGen) == Collect(first, SpawnGen);
  }

  /** Over every run the generations asked for are numbered upwards without gap or repeat, and
      the live and starting processes never exceed the target. */
  lemma {:induction false} RunSpawns(c: Core, events: seq<ControlEvent>)
    requires Inv(c) && WellFormedRun(c, events)
    ensures var f := Final(c, events);
            && c.nextGen <= f.nextGen
            && Collect(Trace(c, events), SpawnGen) == Counting(c.nextGen, f.nextGen - c.nextGen)
            && |f.slots| + |f.pending| <= f.target
    decreases |events|
  {
    hide Reduce, WellFormed;
    if events == [] {
      assert Counting(c.nextGen, 0) == [];
    } else {
      var (c', effects) := Reduce(c, events[0]);
      ReduceKeepsInv(c, events[0]);
      ReduceSpawns(c, events[0]);
      RunSpawns(c', events[1..]);
      CollectConcat(effects, Trace(c', events[1..]), SpawnGen);
    }
  }

  /** Starting or recovering an open pool restores the target exactly. */
  lemma FillReachesTarget(c: Core, e: ControlEvent)
    requires Inv(c) && !c.closing && (e.kind == Start || e.kind == Recover)
    ensures var f := Reduce(c, e).0; |f.slots| + |f.pending| == f.target
  {
    FillKeepsCoherent(c);
    DispatchEntries(Fill(c).0.slots, Fill(c).0.queue);
  }

  ghost function TornCount(effects: seq<ControlEffect>, kind: EffectKind, id: SkeletonID): nat {
    multiset(Collect(effects, Torn(kind)))[id]
  }

  predicate Teardown(kind: EffectKind) {
    kind == Drop || kind == CloseControl || kind == CloseDeath || kind == Reap
  }

  /** Whether the event delivers a process with this identity. */
  ghost function Arrives(e: ControlEvent, id: SkeletonID): nat {
    if e.kind == Spawned && e.gen.Some? && e.identity == Some(id) then 1 else 0
  }

  ghost function Arrivals(events: seq<ControlEvent>, id: SkeletonID): nat {
    if events == [] then 0 else Arrives(events[0], id) + Arrivals(events[1..], id)
  }

  lemma NoTeardown(effects: seq<ControlEffect>, kind: EffectKind, id: SkeletonID)
    requires forall i :: 0 <= i < |effects| ==> effects[i].kind != kind
    ensures TornCount(effects, kind, id) == 0
  {
    CollectNothing(effects, Torn(kind));
  }

  function Picked<T>(e: ControlEffect, pick: ControlEffect -> Option<T>): seq<T> {
    if pick(e).Some? then [pick(e).value] else []
  }

  lemma DiscardCollects<T>(id: SkeletonID, pick: ControlEffect -> Option<T>)
    ensures var d := Discard(id);
            Collect(d, pick) == Picked(d[0], pick) + (Picked(d[1], pick) + (Picked(d[2], pick) + Picked(d[3], pick)))
  {
    var d := Discard(id);
    assert d == [d[0]] + ([d[1]] + ([d[2]] + [d[3]]));
    CollectOne(d[0], pick);
    CollectOne(d[1], pick);
    CollectOne(d[2], pick);
    CollectOne(d[3], pick);
    CollectConcat([d[2]], [d[3]], pick);
    CollectConcat([d[1]], [d[2]] + [d[3]], pick);
    CollectConcat([d[0]], [d[1]] + ([d[2]] + [d[3]]), pick);
    hide Collect;
  }

  lemma DiscardPicks(id: SkeletonID, kind: EffectKind)
    requires Teardown(kind)
    ensures Collect(Discard(id), Torn(kind)) == [id]
  {
    hide Collect;
    DiscardCollects(id, Torn(kind));
  }

  lemma DiscardTears(id: SkeletonID, tail: seq<ControlEffect>, kind: EffectKind, other: SkeletonID)
    requires Teardown(kind) && forall i :: 0 <= i < |tail| ==> tail[i].kind != kind
    ensures TornCount(Discard(id) + tail, kind, other) == if other == id then 1 else 0
  {
    hide Collect, Discard;
    DiscardPicks(id, kind);
    CollectNothing(tail, Torn(kind));
    CollectConcat(Discard(id), tail, Torn(kind));
    assert Collect(Discard(id) + tail, Torn(kind)) == [id];
  }

  ghost predicate Accounts(c: Core, arrived: nat, after: (Core, seq<ControlEffect>), kind: EffectKind, id: SkeletonID) {
    IdentityCount(c.slots, id) + arrived == IdentityCount(after.0.slots, id) + TornCount(after.1, kind, id)
  }

  lemma FillAccounts(c: Core, kind: EffectKind, id: SkeletonID)
    requires Teardown(kind)
    ensures Accounts(c, 0, Fill(c), kind, id)
  {
    FillOnlySpawns(c);
    NoTeardown(Fill(c).1, kind, id);
  }

  lemma SpawnedAccounts(c: Core, e: ControlEvent, kind: EffectKind, id: SkeletonID)
    requires Coherent(c) && WellFormed(c, e) && e.kind == Spawned && Teardown(kind)
    ensures Accounts(c, Arrives(e, id), OnSpawned(c, e), kind, id)
  {
    hide Fill;
    if e.gen.None? || e.identity.None? {
      NoTeardown([], kind, id);
      return;
    }
    var born := e.identity.value;
    DiscardTears(born, [], kind, id);
    assert Discard(born) + [] == Discard(born);
    if e.gen.value in c.pending {
      var entry := Entry(born.fd, ControlSlot(born, Starting, None));
      PutFacts(c.slots, born.fd, entry.slot);
      CountConcat(c.slots, [entry], "", id);
      FillKeepsSlots(c.(pending := c.pending - {born.gen}, slots := c.slots + [entry]));
      FillAccounts(c.(pending := c.pending - {born.gen}, slots := c.slots + [entry]), kind, id);
    }
  }

  lemma FillKeepsSlots(c: Core)
    ensures Fill(c).0.slots == c.slots && Fill(c).0.closing == c.closing
  {
  }

  lemma LostAccounts(c: Core, e: ControlEvent, kind: EffectKind, id: SkeletonID)
    requires Coherent(c) && (e.kind == Eof || e.kind == SendFailed) && Teardown(kind)
    ensures Accounts(c, 0, OnLost(c, e), kind, id)
  {
    var found := Find(c.slots, e.identity);
    if found.Some? {
      var i := KeyIndex(c.slots, e.identity.value.fd);
      assert EntryOk(c, c.slots[i]);
      RemoveEntry(c.slots, i, "", id);
      var effects := OnLost(c, e).1;
      assert effects == Discard(found.value.identity) + effects[4..];
      DiscardTears(found.value.identity, effects[4..], kind, id);
    } else {
      NoTeardown([], kind, id);
    }
  }

  lemma SlotAccounts(c: Core, e: ControlEvent, kind: EffectKind, id: SkeletonID)
    requires Coherent(c) && (e.kind == Ready || e.kind == WorkResult) && Teardown(kind)
    ensures Accounts(c, 0, Transition(c, e), kind, id)
  {
    NoTeardown(Transition(c, e).1, kind, id);
    var found := Find(c.slots, e.identity);
    if found.Some? && Transition(c, e).0 != c {
      var i := KeyIndex(c.slots, e.identity.value.fd);
      assert EntryOk(c, c.slots[i]);
      ReplaceEntry(c.slots, i, Transition(c, e).0.slots[i], "", id);
    }
  }

  lemma CloseAccounts(c: Core, kind: EffectKind, id: SkeletonID)
    requires Teardown(kind)
    ensures Accounts(c, 0, OnClose(c), kind, id)
  {
    StopAllKinds(c.slots);
    NoTeardown(OnClose(c).1, kind, id);
    if !c.closing {
      SameIdentityCount(c.slots, Stopped(c.slots), id);
    }
  }

  lemma QuietAccounts(c: Core, e: ControlEvent, kind: EffectKind, id: SkeletonID)
    requires Teardown(kind) && (e.kind == SpawnFailed || e.kind == Submit || e.kind == Deadline)
    ensures Accounts(c, 0, Transition(c, e), kind, id)
  {
    hide Fill, OnSpawned, OnReady, OnResult, OnLost, OnClose;
    NoTeardown(Transition(c, e).1, kind, id);
  }

  lemma TransitionAccounts(c: Core, e: ControlEvent, kind: EffectKind, id: SkeletonID)
    requires Coherent(c) && WellFormed(c, e) && Teardown(kind)
    ensures Accounts(c, Arrives(e, id), Transition(c, e), kind, id)
  {
    hide Accounts, Coherent, WellFormed, Fill, OnSpawned, OnClose;
    match e.kind
    case Start => FillAccounts(c, kind, id);
    case Recover => FillAccounts(c, kind, id);
    case Spawned => SpawnedAccounts(c, e, kind, id);
    case SpawnFailed => QuietAccounts(c, e, kind, id);
    case Ready => SlotAccounts(c, e, kind, id);
    case Submit => QuietAccounts(c, e, kind, id);
    case WorkResult => SlotAccounts(c, e, kind, id);
    case Eof => LostAccounts(c, e, kind, id);
    case SendFailed => LostAccounts(c, e, kind, id);
    case Close => CloseAccounts(c, kind, id);
    case Deadline => QuietAccounts(c, e, kind, id);
  }

  /** For every identity and every run: each delivery of a process is matched by its live slot
      or by exactly one of each of the four teardown effects. */
  lemma {:induction false} RunConservesProcess(c: Core, events: seq<ControlEvent>, kind: EffectKind, id: SkeletonID)
    requires Inv(c) && WellFormedRun(c, events) && Teardown(kind)
    ensures IdentityCount(c.slots, id) + Arrivals(events, id)
         == IdentityCount(Final(c, events).slots, id) + TornCount(Trace(c, events), kind, id)
    decreases |events|
  {
    if events == [] {
      NoTeardown([], kind, id);
    } else {
      var e := events[0];
      var (c', effects) := Reduce(c, e);
      var (c1, first) := Transition(c, e);
      var d := Dispatch(c1.slots, c1.queue);
      TransitionAccounts(c, e, kind, id);
      DispatchEntries(c1.slots, c1.queue);
      SameIdentityCount(c1.slots, d.slots, id);
      DispatchFifo(c1.slots, c1.queue);
      NoTeardown(d.effects, kind, id);
      CollectConcat(first, d.effects, Torn(kind));
      ReduceKeepsInv(c, e);
      RunConservesProcess(c', events[1..], kind, id);
      CollectConcat(effects, Trace(c', events[1..]), Torn(kind));
    }
  }
}
