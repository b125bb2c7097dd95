/** Laws of the reducer: its asserted facts are an inductive invariant, stale events change
    nothing, and over every run jobs, process generations and teardowns are conserved. */
module CoreLaws {
  import opened Wrappers
  import opened Reducer

  // ---------------------------------------------------------------- what effects mention

  /** The values `pick` finds in a list of effects, in order. */
  function Collect<T>(effects: seq<ControlEffect>, pick: ControlEffect -> Option<T>): seq<T> {
    if effects == [] then []
    else
      var first := pick(effects[0]);
      (if first.Some? then [first.value] else []) + Collect(effects[1..], pick)
  }

  lemma {:induction false} CollectConcat<T>(a: seq<ControlEffect>, b: seq<ControlEffect>,
                                            pick: ControlEffect -> Option<T>)
    ensures Collect(a + b, pick) == Collect(a, pick) + Collect(b, pick)
  {
    if a == [] {
      assert a + b == b;
    } else {
      var all := a + b;
      assert all[0] == a[0] && all[1..] == a[1..] + b;
      CollectConcat(a[1..], b, pick);
      var first := if pick(a[0]).Some? then [pick(a[0]).value] else [];
      assert Collect(all, pick) == first + (Collect(a[1..], pick) + Collect(b, pick));
    }
  }

  lemma {:induction false} CollectNothing<T>(effects: seq<ControlEffect>, pick: ControlEffect -> Option<T>)
    requires forall i :: 0 <= i < |effects| ==> pick(effects[i]).None?
    ensures Collect(effects, pick) == []
  {
    if effects != [] {
      CollectNothing(effects[1..], pick);
    }
  }

  lemma CollectOne<T>(e: ControlEffect, pick: ControlEffect -> Option<T>)
    ensures Collect([e], pick) == if pick(e).Some? then [pick(e).value] else []
  {
    assert [e][1..] == [];
  }

  function SentJob(e: ControlEffect): Option<string> {
    if e.kind == SendRun then e.job else None
  }

  function FinishedJob(e: ControlEffect): Option<string> {
    if e.kind == Resolve || e.kind == Fail then e.job else None
  }

  function ClosedJob(e: ControlEffect): Option<string> {
    if e.kind == Fail && e.reason == Some(Closed) then e.job else None
  }

  function SpawnGen(e: ControlEffect): Option<int> {
    if e.kind == Spawn then e.gen else None
  }

  function Torn(kind: EffectKind): ControlEffect -> Option<SkeletonID> {
    (e: ControlEffect) => if e.kind == kind then e.identity else None
  }

  const TEARDOWN := {Drop, CloseControl, CloseDeath, Reap}

  // ---------------------------------------------------------------- the slot table

  ghost function IdentityCount(slots: seq<Entry>, id: SkeletonID): nat {
    if slots == [] then 0
    else (if slots[0].slot.identity == id then 1 else 0) + IdentityCount(slots[1..], id)
  }

  ghost function Has(slot: ControlSlot, job: string): nat {
    if slot.job == Some(job) then 1 else 0
  }

  ghost function Is(slot: ControlSlot, id: SkeletonID): nat {
    if slot.identity == id then 1 else 0
  }

  lemma {:induction false} CountConcat(a: seq<Entry>, b: seq<Entry>, job: string, id: SkeletonID)
    ensures RunningCount(a + b, job) == RunningCount(a, job) + RunningCount(b, job)
    ensures IdentityCount(a + b, id) == IdentityCount(a, id) + IdentityCount(b, id)
  {
    if a == [] {
      assert a + b == b;
    } else {
      assert (a + b)[0] == a[0] && (a + b)[1..] == a[1..] + b;
      CountConcat(a[1..], b, job, id);
    }
  }

  /** Replacing entry `i` swaps one job and one identity for another. */
  lemma ReplaceEntry(slots: seq<Entry>, i: nat, entry: Entry, job: string, id: SkeletonID)
    requires i < |slots|
    ensures RunningCount(slots[i := entry], job)
            == RunningCount(slots, job) - Has(slots[i].slot, job) + Has(entry.slot, job)
    ensures IdentityCount(slots[i := entry], id)
            == IdentityCount(slots, id) - Is(slots[i].slot, id) + Is(entry.slot, id)
  {
    var a, b := slots[..i], slots[i + 1..];
    assert slots == a + ([slots[i]] + b) && slots[i := entry] == a + ([entry] + b);
    CountConcat(a, [slots[i]] + b, job, id);
    CountConcat(a, [entry] + b, job, id);
  }

  lemma RemoveEntry(slots: seq<Entry>, i: nat, job: string, id: SkeletonID)
    requires i < |slots|
    ensures RunningCount(slots[..i] + slots[i + 1..], job) == RunningCount(slots, job) - Has(slots[i].slot, job)
    ensures IdentityCount(slots[..i] + slots[i + 1..], id) == IdentityCount(slots, id) - Is(slots[i].slot, id)
  {
    var a, b := slots[..i], slots[i + 1..];
    assert slots == a + ([slots[i]] + b);
    CountConcat(a, b, job, id);
    CountConcat(a, [slots[i]] + b, job, id);
  }

  lemma {:induction false} RunningJobCounts(slots: seq<Entry>, job: string)
    requires job != ""
    ensures job in RunningJobs(slots) <==> RunningCount(slots, job) > 0
  {
    if slots != [] {
      RunningJobCounts(slots[1..], job);
    }
  }

  lemma {:induction false} NothingRunning(slots: seq<Entry>, job: string)
    requires forall i :: 0 <= i < |slots| ==> slots[i].slot.job.None?
    ensures RunningCount(slots, job) == 0
  {
    if slots != [] {
      NothingRunning(slots[1..], job);
    }
  }

  lemma {:induction false} SameIdentityCount(a: seq<Entry>, b: seq<Entry>, id: SkeletonID)
    requires SameIdentities(a, b)
    ensures IdentityCount(a, id) == IdentityCount(b, id)
  {
    if a != [] {
      SameIdentityCount(a[1..], b[1..], id);
    }
  }

  // ---------------------------------------------------------------- dispatch

  ghost predicate SameIdentities(a: seq<Entry>, b: seq<Entry>) {
    && |a| == |b|
    && forall i :: 0 <= i < |a| ==> a[i].fd == b[i].fd && a[i].slot.identity == b[i].slot.identity
  }

  /** An entry is untouched by a dispatch, or it was idle and now runs a queued job. */
  ghost predicate DispatchedEntry(before: Entry, after: Entry, queue: seq<string>) {
    || after == before
    || (&& before.slot.state == Idle && after.slot.state == Running
        && after.slot.job.Some? && after.slot.job.value in queue)
  }

  /** Entries keep their place and identity, and change only from idle to running a queued job. */
  lemma {:induction false} DispatchEntries(slots: seq<Entry>, queue: seq<string>)
    ensures var d := Dispatch(slots, queue);
            && SameIdentities(slots, d.slots)
            && forall i :: 0 <= i < |slots| ==> DispatchedEntry(slots[i], d.slots[i], queue)
  {
    if slots == [] || queue == [] {
    } else {
      var rest := if slots[0].slot.state != Idle then queue else queue[1..];
      DispatchEntries(slots[1..], rest);
      var d := Dispatch(slots, queue);
      assert d.slots[1..] == Dispatch(slots[1..], rest).slots;
      forall i | 0 < i < |slots| ensures DispatchedEntry(slots[i], d.slots[i], queue) {
        assert DispatchedEntry(slots[1..][i - 1], d.slots[1..][i - 1], rest);
      }
    }
  }

  /** The jobs sent are the front of the queue, in order, and nothing else is asked for. */
  lemma {:induction false} DispatchFifo(slots: seq<Entry>, queue: seq<string>)
    ensures var d := Dispatch(slots, queue);
            && queue == Collect(d.effects, SentJob) + d.queue
            && forall i :: 0 <= i < |d.effects| ==> d.effects[i].kind == SendRun
  {
    if slots == [] || queue == [] {
      assert Collect<string>([], SentJob) + queue == queue;
    } else if slots[0].slot.state != Idle {
      DispatchFifo(slots[1..], queue);
      assert Dispatch(slots, queue).effects == Dispatch(slots[1..], queue).effects;
    } else {
      DispatchFifo(slots[1..], queue[1..]);
      var d := Dispatch(slots, queue);
      assert d.effects[1..] == Dispatch(slots[1..], queue[1..]).effects;
      assert queue == [queue[0]] + queue[1..];
    }
  }

  lemma {:induction false} DispatchWorks(slots: seq<Entry>, queue: seq<string>)
    ensures var d := Dispatch(slots, queue);
            d.queue == [] || forall i :: 0 <= i < |d.slots| ==> d.slots[i].slot.state != Idle
  {
    if slots == [] || queue == [] {
    } else {
      var rest := if slots[0].slot.state != Idle then queue else queue[1..];
      DispatchWorks(slots[1..], rest);
      var d := Dispatch(slots, queue);
      assert d.slots[1..] == Dispatch(slots[1..], rest).slots;
    }
  }

  /** A dispatch moves jobs from the queue to slots: none is lost and none is duplicated. */
  lemma {:induction false} DispatchHeld(slots: seq<Entry>, queue: seq<string>, job: string)
    requires forall i :: 0 <= i < |slots| && slots[i].slot.state == Idle ==> slots[i].slot.job.None?
    ensures var d := Dispatch(slots, queue);
            multiset(queue)[job] + RunningCount(slots, job) == multiset(d.queue)[job] + RunningCount(d.slots, job)
  {
    if slots == [] || queue == [] {
    } else if slots[0].slot.state != Idle {
      DispatchHeld(slots[1..], queue, job);
      assert Dispatch(slots, queue).slots[1..] == Dispatch(slots[1..], queue).slots;
    } else {
      DispatchHeld(slots[1..], queue[1..], job);
      assert Dispatch(slots, queue).slots[1..] == Dispatch(slots[1..], queue[1..]).slots;
      assert queue == [queue[0]] + queue[1..];
    }
  }

  // ---------------------------------------------------------------- the invariant is inductive

  lemma PutFacts(slots: seq<Entry>, fd: int, slot: ControlSlot)
    ensures var i := KeyIndex(slots, fd);
            i < |slots| ==> Put(slots, fd, slot) == slots[i := Entry(fd, slot)]
    ensures !HasKey(slots, fd) ==> Put(slots, fd, slot) == slots + [Entry(fd, slot)]
  {
  }

  lemma NumbersSize(above: int, n: nat)
    ensures |Numbers(above, n)| == n
  {
    if n > 0 {
      assert above + n !in Numbers(above, n - 1);
    }
  }

  /** Filling restores the target exactly while the reducer is open. */
  lemma FillKeepsCoherent(c: Core)
    requires Coherent(c)
    ensures Coherent(Fill(c).0)
    ensures !c.closing ==> |Fill(c).0.slots| + |Fill(c).0.pending| == c.target
  {
    var n := Missing(c);
    NumbersSize(c.nextGen, n);
    assert c.pending !! Numbers(c.nextGen, n);
    assert |c.pending + Numbers(c.nextGen, n)| == |c.pending| + n;
    assert forall j :: Held(Fill(c).0, j) == Held(c, j);
  }

  lemma SlotChangeKeepsCoherent(c: Core, i: nat, slot: ControlSlot)
    requires Coherent(c) && i < |c.slots|
    requires slot.identity == c.slots[i].slot.identity
    requires EntryOk(c, Entry(c.slots[i].fd, slot))
    requires slot.job == None || slot.job == c.slots[i].slot.job
    ensures Coherent(c.(slots := c.slots[i := Entry(c.slots[i].fd, slot)]))
  {
    var entry := Entry(c.slots[i].fd, slot);
    var c' := c.(slots := c.slots[i := entry]);
    forall j ensures Held(c', j) <= 1 {
      ReplaceEntry(c.slots, i, entry, j, slot.identity);
      assert Held(c, j) <= 1;
    }
    forall k | 0 <= k < |c'.slots| ensures EntryOk(c', c'.slots[k]) {
      assert EntryOk(c, c.slots[k]);
    }
  }

  lemma ArrivalKeepsCoherent(c: Core, id: SkeletonID)
    requires Coherent(c) && !c.closing && id.gen in c.pending && !HasKey(c.slots, id.fd)
    requires forall i :: 0 <= i < |c.slots| ==> c.slots[i].slot.identity.gen != id.gen
    ensures Coherent(c.(pending := c.pending - {id.gen},
                        slots := c.slots + [Entry(id.fd, ControlSlot(id, Starting, None))]))
  {
    var entry := Entry(id.fd, ControlSlot(id, Starting, None));
    var c' := c.(pending := c.pending - {id.gen}, slots := c.slots + [entry]);
    forall j ensures Held(c', j) <= 1 {
      CountConcat(c.slots, [entry], j, id);
      assert Held(c, j) <= 1;
    }
    assert |c'.pending| == |c.pending| - 1;
    forall k | 0 <= k < |c'.slots| ensures EntryOk(c', c'.slots[k]) {
      if k < |c.slots| {
        assert EntryOk(c, c.slots[k]);
      }
    }
  }

  lemma SpawnedKeepsCoherent(c: Core, e: ControlEvent)
    requires Coherent(c) && WellFormed(c, e) && e.kind == Spawned
    ensures Coherent(OnSpawned(c, e).0)
  {
    if e.gen.Some? && e.identity.Some? && e.gen.value in c.pending {
      var id := e.identity.value;
      PutFacts(c.slots, id.fd, ControlSlot(id, Starting, None));
      ArrivalKeepsCoherent(c, id);
      FillKeepsCoherent(c.(pending := c.pending - {id.gen},
                           slots := c.slots + [Entry(id.fd, ControlSlot(id, Starting, None))]));
    }
  }

  lemma SubmitKeepsCoherent(c: Core, e: ControlEvent)
    requires Coherent(c) && WellFormed(c, e) && e.kind == Submit
    ensures Coherent(OnSubmit(c, e).0)
  {
    var c' := OnSubmit(c, e).0;
    if Accepts(c, e.job) {
      RunningJobCounts(c.slots, e.job.value);
      assert forall k :: 0 <= k < |c.slots| ==> EntryOk(c, c.slots[k]);
      forall j ensures Held(c', j) <= 1 {
        assert Held(c, j) <= 1;
        assert Held(c', j) == Held(c, j) + if j == e.job.value then 1 else 0;
      }
    }
  }

  /** The entry an end-of-file or a failed send finds, and the state it leaves. */
  lemma LostEntry(c: Core, e: ControlEvent)
    requires Coherent(c) && Find(c.slots, e.identity).Some?
    ensures var i := KeyIndex(c.slots, e.identity.value.fd);
            && i < |c.slots| && OnLost(c, e).0 == c.(slots := c.slots[..i] + c.slots[i + 1..])
  {
    hide NoJobTwice, Discard, DistinctGens;
    assert EntryOk(c, c.slots[KeyIndex(c.slots, e.identity.value.fd)]);
  }

  lemma WithoutEntryIsCoherent(c: Core, i: nat)
    requires Coherent(c) && i < |c.slots|
    ensures Coherent(c.(slots := c.slots[..i] + c.slots[i + 1..]))
  {
    var c' := c.(slots := c.slots[..i] + c.slots[i + 1..]);
    forall j ensures Held(c', j) <= 1 {
      RemoveEntry(c.slots, i, j, c.slots[i].slot.identity);
      assert Held(c, j) <= 1;
    }
    forall k | 0 <= k < |c'.slots|
      ensures c'.slots[k] == c.slots[if k < i then k else k + 1] && EntryOk(c', c'.slots[k])
    {
      assert EntryOk(c, c.slots[if k < i then k else k + 1]);
    }
  }

  lemma LostKeepsCoherent(c: Core, e: ControlEvent)
    requires Coherent(c) && (e.kind == Eof || e.kind == SendFailed)
    ensures Coherent(OnLost(c, e).0)
  {
    hide Coherent, Discard, KeyIndex, Find, Remove;
    if Find(c.slots, e.identity).Some? {
      LostEntry(c, e);
      WithoutEntryIsCoherent(c, KeyIndex(c.slots, e.identity.value.fd));
    }
  }

  lemma CloseKeepsCoherent(c: Core)
    requires Coherent(c)
    ensures Coherent(OnClose(c).0)
  {
    var c' := OnClose(c).0;
    if !c.closing {
      forall j ensures Held(c', j) <= 1 {
        NothingRunning(c'.slots, j);
      }
      forall k | 0 <= k < |c'.slots| ensures EntryOk(c', c'.slots[k]) {
        assert EntryOk(c, c.slots[k]);
      }
    }
  }

  lemma SpawnFailedKeepsCoherent(c: Core, e: ControlEvent)
    requires Coherent(c)
    ensures Coherent(OnSpawnFailed(c, e).0)
  {
    var c' := OnSpawnFailed(c, e).0;
    assert forall j :: Held(c', j) == Held(c, j);
    forall k | 0 <= k < |c.slots| ensures EntryOk(c', c.slots[k]) {
      assert EntryOk(c, c.slots[k]);
    }
  }

  lemma ReadyKeepsCoherent(c: Core, e: ControlEvent)
    requires Coherent(c)
    ensures Coherent(OnReady(c, e).0)
  {
    var found := Find(c.slots, e.identity);
    if found.Some? && found.value.state == Starting {
      assert EntryOk(c, c.slots[KeyIndex(c.slots, e.identity.value.fd)]);
      SlotChangeKeepsCoherent(c, KeyIndex(c.slots, e.identity.value.fd), found.value.(state := Idle));
    }
  }

  lemma ResultKeepsCoherent(c: Core, e: ControlEvent)
    requires Coherent(c)
    ensures Coherent(OnResult(c, e).0)
  {
    var found := Find(c.slots, e.identity);
    if found.Some? && found.value.state == Running {
      assert EntryOk(c, c.slots[KeyIndex(c.slots, e.identity.value.fd)]);
      SlotChangeKeepsCoherent(c, KeyIndex(c.slots, e.identity.value.fd), found.value.(state := Idle, job := None));
    }
  }

  lemma TransitionKeepsCoherent(c: Core, e: ControlEvent)
    requires Coherent(c) && WellFormed(c, e)
    ensures Coherent(Transition(c, e).0)
  {
    hide Coherent, Fill, OnSpawned, OnSpawnFailed, OnReady, OnSubmit, OnResult, OnLost, OnClose;
    match e.kind
    case Start => FillKeepsCoherent(c);
    case Recover => FillKeepsCoherent(c);
    case Spawned => SpawnedKeepsCoherent(c, e);
    case SpawnFailed => SpawnFailedKeepsCoherent(c, e);
    case Ready => ReadyKeepsCoherent(c, e);
    case Submit => SubmitKeepsCoherent(c, e);
    case WorkResult => ResultKeepsCoherent(c, e);
    case Eof => LostKeepsCoherent(c, e);
    case SendFailed => LostKeepsCoherent(c, e);
    case Close => CloseKeepsCoherent(c);
    case Deadline =>
  }

  lemma DispatchKeepsCoherent(c: Core)
    requires Coherent(c)
    ensures var d := Dispatch(c.slots, c.queue);
            Inv(c.(slots := d.slots, queue := d.queue))
  {
    var d := Dispatch(c.slots, c.queue);
    var c' := c.(slots := d.slots, queue := d.queue);
    assert forall i :: 0 <= i < |c.slots| ==> EntryOk(c, c.slots[i]);
    DispatchEntries(c.slots, c.queue);
    DispatchFifo(c.slots, c.queue);
    DispatchWorks(c.slots, c.queue);
    forall j ensures Held(c', j) <= 1 {
      DispatchHeld(c.slots, c.queue, j);
      assert Held(c, j) <= 1;
    }
    forall k | 0 <= k < |c'.slots| ensures EntryOk(c', c'.slots[k]) {
      assert EntryOk(c, c.slots[k]) && DispatchedEntry(c.slots[k], d.slots[k], c.queue);
    }
    forall j | j in d.queue ensures j != "" {
      assert j in Collect(d.effects, SentJob) + d.queue;
    }
  }

  /** Every well-formed event keeps the invariant, so every fact the source asserts after an
      event holds after every run. */
  lemma ReduceKeepsInv(c: Core, e: ControlEvent)
    requires Inv(c) && WellFormed(c, e)
    ensures Inv(Reduce(c, e).0)
  {
    TransitionKeepsCoherent(c, e);
    DispatchKeepsCoherent(Transition(c, e).0);
  }

  // ---------------------------------------------------------------- the facts asserted at run time

  function Gens(slots: seq<Entry>): set<int> {
    set i | 0 <= i < |slots| :: slots[i].slot.identity.gen
  }

  /** The six assertions of the source, as they are written there. */
  ghost predicate Asserted(c: Core) {
    && |c.slots| + |c.pending| <= c.target
    && (forall i :: 0 <= i < |c.slots| ==> c.slots[i].fd == c.slots[i].slot.identity.fd)
    && (forall i :: 0 <= i < |c.slots| ==> Truthy(c.slots[i].slot.job) == (c.slots[i].slot.state == Running))
    && (var jobs := c.queue + RunningJobs(c.slots); |jobs| == |set j | j in jobs|)
    && (var gens := c.pending + Gens(c.slots);
        |gens| == |c.pending| + |c.slots| && forall g :: g in gens ==> c.nextGen >= g)
    && (!c.closing || c.pending == {})
  }

  lemma {:induction false} SetOfDistinct<T>(s: seq<T>)
    requires forall x :: multiset(s)[x] <= 1
    ensures |set x | x in s| == |s|
  {
    if s != [] {
      assert s == [s[0]] + s[1..];
      forall x ensures multiset(s[1..])[x] <= 1 {
        assert multiset(s)[x] <= 1;
      }
      SetOfDistinct(s[1..]);
      assert multiset(s)[s[0]] <= 1;
      assert (set x | x in s) == {s[0]} + (set x | x in s[1..]);
    }
  }

  lemma {:induction false} RunningJobsCount(slots: seq<Entry>, job: string)
    ensures multiset(RunningJobs(slots))[job] == if job == "" then 0 else RunningCount(slots, job)
  {
    if slots != [] {
      RunningJobsCount(slots[1..], job);
    }
  }

  lemma {:induction false} GensSize(slots: seq<Entry>)
    requires DistinctGens(slots)
    ensures |Gens(slots)| == |slots|
  {
    if slots != [] {
      GensSize(slots[1..]);
      var g := slots[0].slot.identity.gen;
      assert forall i :: 0 < i < |slots| ==> slots[i] == slots[1..][i - 1];
      forall x ensures x in Gens(slots) <==> x in {g} + Gens(slots[1..]) {
        if x in Gens(slots[1..]) {
          var i :| 0 <= i < |slots[1..]| && slots[1..][i].slot.identity.gen == x;
          assert slots[i + 1].slot.identity.gen == x;
        }
      }
      assert Gens(slots) == {g} + Gens(slots[1..]);
    }
  }

  lemma InvImpliesAsserted(c: Core)
    requires Inv(c)
    ensures Asserted(c)
  {
    assert forall i :: 0 <= i < |c.slots| ==> EntryOk(c, c.slots[i]);
    var jobs := c.queue + RunningJobs(c.slots);
    forall j ensures multiset(jobs)[j] <= 1 {
      RunningJobsCount(c.slots, j);
      assert Held(c, j) <= 1;
    }
    SetOfDistinct(jobs);
    GensSize(c.slots);
    assert c.pending !! Gens(c.slots);
  }

  // ---------------------------------------------------------------- stale events

  lemma {:induction false} DispatchNothing(slots: seq<Entry>, queue: seq<string>)
    requires queue == [] || forall i :: 0 <= i < |slots| ==> slots[i].slot.state != Idle
    ensures Dispatch(slots, queue) == Dispatched(slots, queue, [])
  {
    if slots != [] && queue != [] {
      DispatchNothing(slots[1..], queue);
    }
  }

  /** The message still speaks for the live slot it names, in the state it expects. */
  predicate Speaks(c: Core, e: ControlEvent) {
    var found := Find(c.slots, e.identity);
    && found.Some?
    && match e.kind
       case Ready => found.value.state == Starting
       case WorkResult => found.value.state == Running && found.value.job == e.job
       case _ => true
  }

  lemma SpeakingReadyChanges(c: Core, e: ControlEvent)
    requires Inv(c) && e.kind == Ready && Speaks(c, e)
    ensures Reduce(c, e).0 != c
  {
    var i := KeyIndex(c.slots, e.identity.value.fd);
    var c1 := OnReady(c, e).0;
    DispatchEntries(c1.slots, c1.queue);
    assert DispatchedEntry(c1.slots[i], Reduce(c, e).0.slots[i], c1.queue);
    assert c.slots[i].slot.state == Starting && c1.slots[i].slot.state == Idle;
  }

  lemma SpeakingOthersAct(c: Core, e: ControlEvent)
    requires Inv(c) && (e.kind == WorkResult || e.kind == Eof || e.kind == SendFailed) && Speaks(c, e)
    ensures |Reduce(c, e).1| > 0
  {
    assert EntryOk(c, c.slots[KeyIndex(c.slots, e.identity.value.fd)]);
    assert |Transition(c, e).1| > 0;
    hide Transition, Dispatch;
  }

  lemma StaleMessageDoesNothing(c: Core, e: ControlEvent)
    requires Inv(c) && (e.kind == Ready || e.kind == WorkResult || e.kind == Eof || e.kind == SendFailed)
    requires !Speaks(c, e)
    ensures Reduce(c, e) == (c, [])
  {
    DispatchNothing(c.slots, c.queue);
    hide Dispatch;
    assert Transition(c, e) == (c, []);
    assert c.(slots := c.slots, queue := c.queue) == c;
    var nothing: seq<ControlEffect> := [];
    assert nothing + nothing == [];
  }

  /** Although every event is followed by a dispatch, a slot message is an exact no-op if and
      only if it does not speak for a live slot; an old generation on a reused descriptor never does. */
  lemma StaleMessageIsNoOp(c: Core, e: ControlEvent)
    requires Inv(c) && (e.kind == Ready || e.kind == WorkResult || e.kind == Eof || e.kind == SendFailed)
    ensures Reduce(c, e) == (c, []) <==> !Speaks(c, e)
    ensures Speaks(c, e) ==> exists i :: 0 <= i < |c.slots| && Some(c.slots[i].slot.identity) == e.identity
  {
    if !Speaks(c, e) {
      StaleMessageDoesNothing(c, e);
    } else {
      if e.kind == Ready {
        SpeakingReadyChanges(c, e);
      } else {
        SpeakingOthersAct(c, e);
      }
      assert Some(c.slots[KeyIndex(c.slots, e.identity.value.fd)].slot.identity) == e.identity;
    }
  }

  // ---------------------------------------------------------------- conservation of jobs, one event

  function AcceptedBy(c: Core, e: ControlEvent): seq<string> {
    if e.kind == Submit && Accepts(c, e.job) then [e.job.value] else []
  }

  ghost function FinishedCount(effects: seq<ControlEffect>, job: string): nat {
    multiset(Collect(effects, FinishedJob))[job]
  }

  lemma {:induction false} FailQueueJobs(queue: seq<string>)
    ensures Collect(FailQueue(queue), FinishedJob) == queue
    ensures Collect(FailQueue(queue), ClosedJob) == queue
  {
    if queue != [] {
      FailQueueJobs(queue[1..]);
      assert FailQueue(queue)[1..] == FailQueue(queue[1..]);
    }
  }

  lemma {:induction false} StopAllJobs(slots: seq<Entry>)
    ensures Collect(StopAll(slots), FinishedJob) == RunningJobs(slots)
    ensures Collect(StopAll(slots), ClosedJob) == RunningJobs(slots)
  {
    if slots != [] {
      StopAllJobs(slots[1..]);
      CollectConcat(StopEffects(slots[0].slot), StopAll(slots[1..]), FinishedJob);
      CollectConcat(StopEffects(slots[0].slot), StopAll(slots[1..]), ClosedJob);
    }
  }

  lemma {:induction false} SpawnsSpawn(above: int, n: nat)
    ensures |Spawns(above, n)| == n
    ensures forall i :: 0 <= i < n ==> Spawns(above, n)[i] == ControlEffect(Spawn, gen := Some(above + 1 + i))
  {
    if n > 0 {
      SpawnsSpawn(above, n - 1);
      forall i | 0 <= i < n ensures Spawns(above, n)[i] == ControlEffect(Spawn, gen := Some(above + 1 + i)) {
        if i < n - 1 {
          assert Spawns(above, n)[i] == Spawns(above, n - 1)[i];
        }
      }
    }
  }

  ghost predicate Conserves(c: Core, accepted: seq<string>, after: (Core, seq<ControlEffect>), job: string) {
    Held(c, job) + multiset(accepted)[job] == Held(after.0, job) + FinishedCount(after.1, job)
  }

  lemma FillOnlySpawns(c: Core)
    ensures forall i :: 0 <= i < |Fill(c).1| ==> Fill(c).1[i].kind == Spawn
  {
    SpawnsSpawn(c.nextGen, Missing(c));
  }

  lemma FillConservesJob(c: Core, job: string)
    ensures Conserves(c, [], Fill(c), job)
  {
    FillOnlySpawns(c);
    CollectNothing(Fill(c).1, FinishedJob);
  }

  /** A spawned process that is still wanted takes a new entry, and the pool is filled up. */
  lemma SpawnedFills(c: Core, e: ControlEvent)
    requires Coherent(c) && WellFormed(c, e) && e.kind == Spawned && e.gen.Some? && e.identity.Some?
             && e.gen.value in c.pending
    ensures var id := e.identity.value;
            var entry := Entry(id.fd, ControlSlot(id, Starting, None));
            OnSpawned(c, e) == Fill(c.(pending := c.pending - {e.gen.value}, slots := c.slots + [entry]))
  {
    hide Fill, Discard, NoJobTwice, EntryOk, DistinctGens;
    PutFacts(c.slots, e.identity.value.fd, ControlSlot(e.identity.value, Starting, None));
  }

  lemma StartingHoldsNothing(slots: seq<Entry>, id: SkeletonID, job: string)
    ensures RunningCount(slots + [Entry(id.fd, ControlSlot(id, Starting, None))], job) == RunningCount(slots, job)
  {
    CountConcat(slots, [Entry(id.fd, ControlSlot(id, Starting, None))], job, id);
  }

  lemma DiscardConservesJob(c: Core, c': Core, id: SkeletonID, job: string)
    requires c'.slots == c.slots && c'.queue == c.queue
    ensures Conserves(c, [], (c', Discard(id)), job)
  {
    CollectNothing(Discard(id), FinishedJob);
  }

  lemma SpawnedConservesJob(c: Core, e: ControlEvent, job: string)
    requires Coherent(c) && WellFormed(c, e) && e.kind == Spawned
    ensures Conserves(c, [], OnSpawned(c, e), job)
  {
    hide Coherent, Fill, Put, Discard, RunningCount, FinishedCount, KeyIndex;
    if e.gen.None? || e.identity.None? {
      QuietEnds(c, job);
    } else if e.gen.value in c.pending {
      var id := e.identity.value;
      var c2 := c.(pending := c.pending - {e.gen.value},
                   slots := c.slots + [Entry(id.fd, ControlSlot(id, Starting, None))]);
      SpawnedFills(c, e);
      StartingHoldsNothing(c.slots, id, job);
      FillConservesJob(c2, job);
    } else {
      DiscardConservesJob(c, c, e.identity.value, job);
    }
  }

  lemma QuietEnds(c: Core, job: string)
    ensures Conserves(c, [], (c, []), job)
  {
    CollectNothing([], FinishedJob);
  }

  lemma DiscardFinishesNothing(id: SkeletonID)
    ensures Collect(Discard(id), FinishedJob) == []
  {
    CollectNothing(Discard(id), FinishedJob);
  }

  lemma LostEffects(slot: ControlSlot, tail: seq<ControlEffect>, job: string)
    requires slot.job.Some? ==> Truthy(slot.job)
    requires tail == if Truthy(slot.job) then [ControlEffect(Fail, job := slot.job, reason := Some(WorkerDied))] else []
    ensures FinishedCount(Discard(slot.identity) + tail, job) == Has(slot, job)
  {
    DiscardFinishesNothing(slot.identity);
    CollectConcat(Discard(slot.identity), tail, FinishedJob);
    if Truthy(slot.job) {
      CollectOne(tail[0], FinishedJob);
      assert Collect(Discard(slot.identity) + tail, FinishedJob) == [slot.job.value];
    }
  }

  lemma LostConservesJob(c: Core, e: ControlEvent, job: string)
    requires Coherent(c) && (e.kind == Eof || e.kind == SendFailed)
    ensures Conserves(c, [], OnLost(c, e), job)
  {
    var found := Find(c.slots, e.identity);
    if found.Some? {
      var i := KeyIndex(c.slots, e.identity.value.fd);
      assert EntryOk(c, c.slots[i]);
      RemoveEntry(c.slots, i, job, found.value.identity);
      LostEffects(found.value, OnLost(c, e).1[4..], job);
      assert Discard(found.value.identity) + OnLost(c, e).1[4..] == OnLost(c, e).1;
    }
  }

  lemma ReadyConservesJob(c: Core, e: ControlEvent, job: string)
    ensures Conserves(c, [], OnReady(c, e), job)
  {
    var found := Find(c.slots, e.identity);
    if found.Some? && found.value.state == Starting {
      var i := KeyIndex(c.slots, e.identity.value.fd);
      var entry := Entry(found.value.identity.fd, found.value.(state := Idle));
      PutFacts(c.slots, found.value.identity.fd, entry.slot);
      hide Put, KeyIndex, Find;
      ReplaceEntry(c.slots, i, entry, job, found.value.identity);
    }
  }

  lemma ResultConservesJob(c: Core, e: ControlEvent, job: string)
    ensures Conserves(c, [], OnResult(c, e), job)
  {
    hide RunningCount, IdentityCount, Collect;
    CollectNothing([], FinishedJob);
    var found := Find(c.slots, e.identity);
    if found.Some? && found.value.state == Running && found.value.job == e.job && e.job.Some? {
      var i := KeyIndex(c.slots, e.identity.value.fd);
      var entry := Entry(found.value.identity.fd, found.value.(state := Idle, job := None));
      PutFacts(c.slots, found.value.identity.fd, entry.slot);
      ReplaceEntry(c.slots, i, entry, job, found.value.identity);
      CollectOne(OnResult(c, e).1[0], FinishedJob);
      assert OnResult(c, e).1 == [OnResult(c, e).1[0]];
    }
  }

  lemma CloseConservesJob(c: Core, job: string)
    requires Coherent(c) && job != ""
    ensures Conserves(c, [], OnClose(c), job)
  {
    if !c.closing {
      NothingRunning(Stopped(c.slots), job);
      FailQueueJobs(c.queue);
      StopAllJobs(c.slots);
      RunningJobsCount(c.slots, job);
      CollectConcat(FailQueue(c.queue), StopAll(c.slots), FinishedJob);
    }
  }

  lemma QuietConservesJob(c: Core, e: ControlEvent, job: string)
    requires e.kind == SpawnFailed || e.kind == Submit || e.kind == Deadline
    ensures Conserves(c, AcceptedBy(c, e), Transition(c, e), job)
  {
    hide OnReady, OnResult, OnLost, OnClose, OnSpawned, Fill, Collect, RunningCount;
    CollectNothing(Transition(c, e).1, FinishedJob);
  }

  lemma TransitionConservesJob(c: Core, e: ControlEvent, job: string)
    requires Coherent(c) && WellFormed(c, e) && job != ""
    ensures Conserves(c, AcceptedBy(c, e), Transition(c, e), job)
  {
    hide Conserves, Coherent, WellFormed, Fill, OnSpawned, OnClose, OnResult, OnReady, OnLost;
    match e.kind
    case Start => FillConservesJob(c, job);
    case Recover => FillConservesJob(c, job);
    case Spawned => SpawnedConservesJob(c, e, job);
    case SpawnFailed => QuietConservesJob(c, e, job);
    case Ready => ReadyConservesJob(c, e, job);
    case Submit => QuietConservesJob(c, e, job);
    case WorkResult => ResultConservesJob(c, e, job);
    case Eof => LostConservesJob(c, e, job);
    case SendFailed => LostConservesJob(c, e, job);
    case Close => CloseConservesJob(c, job);
    case Deadline => QuietConservesJob(c, e, job);
  }

  /** One event: the answers owed before plus the jobs accepted are the answers owed after
      plus the jobs resolved or failed. */
  lemma ReduceConservesJob(c: Core, e: ControlEvent, job: string)
    requires Inv(c) && WellFormed(c, e) && job != ""
    ensures var (c', effects) := Reduce(c, e);
            Held(c, job) + multiset(AcceptedBy(c, e))[job] == Held(c', job) + FinishedCount(effects, job)
  {
    var (c1, effects) := Transition(c, e);
    TransitionConservesJob(c, e, job);
    TransitionKeepsCoherent(c, e);
    assert forall i :: 0 <= i < |c1.slots| ==> EntryOk(c1, c1.slots[i]);
    DispatchHeld(c1.slots, c1.queue, job);
    DispatchFifo(c1.slots, c1.queue);
    var d := Dispatch(c1.slots, c1.queue);
    CollectNothing(d.effects, FinishedJob);
    CollectConcat(effects, d.effects, FinishedJob);
  }
}
