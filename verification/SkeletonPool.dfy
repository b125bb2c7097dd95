/** The effect driver beside the reducer: several lists of effects run at once and interleave
    wherever one of them awaits, while the kernel hands out descriptors again once they are closed.

    A process is named by its descriptor and generation. The pool's table is keyed by descriptor
    alone; a process dropped from it stays in `retired` until it is reaped. */
module SkeletonPoolModel {
  import opened Wrappers
  import opened Reducer
  import opened CoreLaws
  import opened CoreRuns

  /** The parent's hold on one process: its control socket, its death pipe, its exit status. */
  datatype Device = Device(controlOpen: bool, deathOpen: bool, reaped: bool)

  /** Where one list stands: about to start its first effect; past the table lookup of that
      effect and awaiting; or awaiting after the kernel delivered the process it asked for. */
  datatype Stage = Waiting | Looked(found: bool) | Born(identity: SkeletonID)

  datatype Drive = Drive(pending: seq<ControlEffect>, stage: Stage)

  datatype Pool = Pool(
    core: Core,
    slots: map<int, SkeletonID>,
    retired: set<SkeletonID>,
    devices: map<SkeletonID, Device>,
    drives: seq<Drive>)

  function InitialPool(target: int): Pool {
    Pool(Initial(target), map[], {}, map[], [])
  }

  /** The slot an effect acts on: the table's if it is that very process, else a retired one. */
  function SlotFor(p: Pool, identity: Option<SkeletonID>): (found: bool) {
    identity.Some? &&
    ((identity.value.fd in p.slots && p.slots[identity.value.fd] == identity.value) || identity.value in p.retired)
  }

  function DropSlot(p: Pool, id: SkeletonID): Pool {
    p.(slots := if id.fd in p.slots && p.slots[id.fd] == id then p.slots - {id.fd} else p.slots,
       retired := p.retired + {id})
  }

  /** What an effect does to the process it found, once its awaits are over. */
  function Act(p: Pool, e: ControlEffect): Pool {
    if e.identity.None? || e.identity.value !in p.devices then p
    else
      var id := e.identity.value;
      var d := p.devices[id];
      match e.kind
      case Drop => DropSlot(p, id)
      case CloseControl => p.(devices := p.devices[id := d.(controlOpen := false)])
      case CloseDeath => p.(devices := p.devices[id := d.(deathOpen := false)])
      case Reap => p.(devices := p.devices[id := d.(reaped := true)], retired := p.retired - {id})
      case _ => p
  }

  // ---------------------------------------------------------------- steps

  datatype Step =
    | External(event: ControlEvent)
    | KernelSpawns(list: nat, fd: int)
    | SpawnFails(list: nat)
    | Announce(list: nat)
    | Look(list: nat)
    | Finish(list: nat)
    | Pass(list: nat)

  /** Effects that look a slot up and then await before they act. */
  predicate Awaits(kind: EffectKind) {
    Teardown(kind) || kind == Kill
  }

  predicate Busy(p: Pool, k: nat) {
    k < |p.drives| && p.drives[k].pending != []
  }

  function Head(p: Pool, k: nat): ControlEffect
    requires Busy(p, k)
  {
    p.drives[k].pending[0]
  }

  function SpawnedEvent(id: SkeletonID): ControlEvent {
    ControlEvent(Spawned, identity := Some(id), gen := Some(id.gen))
  }

  predicate Enabled(p: Pool, s: Step) {
    match s
    case External(e) =>
      e.kind != Spawned && e.kind != SpawnFailed && (e.kind == Submit && e.job.Some? ==> e.job.value != "")
    case KernelSpawns(k, fd) =>
      && Busy(p, k) && p.drives[k].stage == Waiting && Head(p, k).kind == Spawn && Head(p, k).gen.Some?
      && forall i :: i in p.devices && i.fd == fd ==> !p.devices[i].controlOpen
    case SpawnFails(k) =>
      Busy(p, k) && p.drives[k].stage == Waiting && Head(p, k).kind == Spawn && Head(p, k).gen.Some?
    case Announce(k) => Busy(p, k) && p.drives[k].stage.Born?
    case Look(k) => Busy(p, k) && p.drives[k].stage == Waiting && Awaits(Head(p, k).kind)
    case Finish(k) => Busy(p, k) && p.drives[k].stage.Looked?
    case Pass(k) => Busy(p, k) && p.drives[k].stage == Waiting && Head(p, k).kind != Spawn && !Awaits(Head(p, k).kind)
  }

  function Advance(p: Pool, k: nat, more: seq<ControlEffect>): Pool
    requires Busy(p, k)
  {
    p.(drives := p.drives[k := Drive(p.drives[k].pending[1..] + more, Waiting)])
  }

  function Next(p: Pool, s: Step): Pool
    requires Enabled(p, s)
  {
    match s
    case External(e) =>
      var (core, effects) := Reduce(p.core, e);
      p.(core := core, drives := p.drives + [Drive(effects, Waiting)])
    case KernelSpawns(k, fd) =>
      var id := SkeletonID(fd, Head(p, k).gen.value);
      p.(slots := p.slots[fd := id],
         devices := p.devices[id := Device(true, true, false)],
         drives := p.drives[k := p.drives[k].(stage := Born(id))])
    case SpawnFails(k) =>
      var (core, effects) := Reduce(p.core, ControlEvent(SpawnFailed, gen := Head(p, k).gen));
      Advance(p, k, effects).(core := core)
    case Announce(k) =>
      var (core, effects) := Reduce(p.core, SpawnedEvent(p.drives[k].stage.identity));
      Advance(p, k, effects).(core := core)
    case Look(k) =>
      p.(drives := p.drives[k := p.drives[k].(stage := Looked(SlotFor(p, Head(p, k).identity)))])
    case Finish(k) =>
      Advance(if p.drives[k].stage.found then Act(p, Head(p, k)) else p, k, [])
    case Pass(k) => Advance(p, k, [])
  }

  // ---------------------------------------------------------------- the invariant

  function TearOf(id: SkeletonID): ControlEffect -> Option<EffectKind> {
    (e: ControlEffect) => if Teardown(e.kind) && e.identity == Some(id) then Some(e.kind) else None
  }

  const TEARS := [Drop, CloseControl, CloseDeath, Reap]

  /** The teardown effects still to run for one process, in one list. */
  function Tears(d: Drive, id: SkeletonID): seq<EffectKind> {
    Collect(d.pending, TearOf(id))
  }

  /** The generations a list has still to ask the kernel for. */
  function Unborn(d: Drive): seq<int> {
    Collect(if d.stage.Born? && d.pending != [] then d.pending[1..] else d.pending, SpawnGen)
  }

  function Left(drives: seq<Drive>, id: SkeletonID): nat {
    if drives == [] then 0 else |Tears(drives[0], id)| + Left(drives[1..], id)
  }

  ghost function Asked(drives: seq<Drive>, gen: int): nat {
    if drives == [] then 0 else multiset(Unborn(drives[0]))[gen] + Asked(drives[1..], gen)
  }

  ghost predicate Live(c: Core, id: SkeletonID) {
    exists k :: 0 <= k < |c.slots| && c.slots[k].slot.identity == id
  }

  ghost predicate Newborn(drives: seq<Drive>, id: SkeletonID) {
    exists k :: 0 <= k < |drives| && drives[k].stage == Born(id)
  }

  /** The tables and the process agree that `n` of the four teardown effects are outstanding. */
  ghost predicate At(p: Pool, id: SkeletonID, n: nat) {
    && id in p.devices
    && ((id.fd in p.slots && p.slots[id.fd] == id) <==> n >= 4)
    && (id in p.retired <==> 1 <= n <= 3)
    && p.devices[id] == Device(n >= 3, n >= 2, n == 0)
  }

  ghost predicate ProcessOk(p: Pool, id: SkeletonID) {
    var n := Left(p.drives, id);
    && n <= 4
    && 1 <= id.gen <= p.core.nextGen
    && Asked(p.drives, id.gen) == 0
    && !(Live(p.core, id) && Newborn(p.drives, id))
    && (forall k :: 0 <= k < |p.drives| ==> Tears(p.drives[k], id) == [] || Tears(p.drives[k], id) == TEARS[4 - n..])
    && if Live(p.core, id) || Newborn(p.drives, id) then n == 0 && At(p, id, 4) else At(p, id, n)
  }

  ghost predicate EffectOk(p: Pool, e: ControlEffect) {
    && (Teardown(e.kind) ==> e.identity.Some? && e.identity.value in p.devices)
    && (e.kind == Spawn ==> e.gen.Some?)
  }

  ghost predicate DriveOk(p: Pool, d: Drive) {
    && (forall x :: 0 <= x < |d.pending| ==> EffectOk(p, d.pending[x]))
    && (d.stage != Waiting ==> d.pending != [])
    && (d.stage.Born? ==> d.pending[0].kind == Spawn && d.stage.identity in p.devices)
    && (d.stage.Looked? ==> Awaits(d.pending[0].kind) && (Teardown(d.pending[0].kind) ==> d.stage.found))
  }

  ghost predicate TablesOk(p: Pool) {
    && (forall fd :: fd in p.slots ==> p.slots[fd].fd == fd && p.slots[fd] in p.devices)
    && p.retired <= p.devices.Keys
    && (forall i, j :: i in p.devices && j in p.devices && i.gen == j.gen ==> i == j)
  }

  ghost predicate DrivesOk(p: Pool) {
    && (forall k :: 0 <= k < |p.drives| ==> DriveOk(p, p.drives[k]))
    && (forall k, m :: 0 <= k < m < |p.drives| && p.drives[k].stage.Born? && p.drives[m].stage.Born? ==>
          p.drives[k].stage.identity != p.drives[m].stage.identity)
  }

  ghost predicate AsksOk(p: Pool) {
    && (forall g :: Asked(p.drives, g) <= 1)
    && (forall g :: Asked(p.drives, g) > 0 ==> 1 <= g <= p.core.nextGen)
    && (forall g :: g in p.core.pending ==>
          Asked(p.drives, g) > 0 || exists i :: Newborn(p.drives, i) && i.gen == g)
  }

  ghost predicate PoolInv(p: Pool) {
    && Inv(p.core)
    && TablesOk(p)
    && DrivesOk(p)
    && AsksOk(p)
    && (forall i :: i in p.devices ==> ProcessOk(p, i))
    && (forall i :: Live(p.core, i) ==> i in p.devices)
  }

  // ---------------------------------------------------------------- sums over lists

  lemma {:induction false} Replace(drives: seq<Drive>, k: nat, d: Drive, id: SkeletonID, gen: int)
    requires k < |drives|
    ensures Left(drives[k := d], id) == Left(drives, id) - |Tears(drives[k], id)| + |Tears(d, id)|
    ensures Asked(drives[k := d], gen)
            == Asked(drives, gen) - multiset(Unborn(drives[k]))[gen] + multiset(Unborn(d))[gen]
  {
    if k == 0 {
      assert drives[0 := d][1..] == drives[1..];
    } else {
      assert drives[k := d][1..] == drives[1..][k - 1 := d];
      Replace(drives[1..], k - 1, d, id, gen);
    }
  }

  lemma {:induction false} Append(drives: seq<Drive>, d: Drive, id: SkeletonID, gen: int)
    ensures Left(drives + [d], id) == Left(drives, id) + |Tears(d, id)|
    ensures Asked(drives + [d], gen) == Asked(drives, gen) + multiset(Unborn(d))[gen]
  {
    if drives == [] {
      assert (drives + [d])[1..] == [];
    } else {
      assert (drives + [d])[1..] == drives[1..] + [d];
      Append(drives[1..], d, id, gen);
    }
  }

  lemma {:induction false} PartOfSum(drives: seq<Drive>, k: nat, id: SkeletonID, gen: int)
    requires k < |drives|
    ensures |Tears(drives[k], id)| <= Left(drives, id)
    ensures multiset(Unborn(drives[k]))[gen] <= Asked(drives, gen)
  {
    if k > 0 {
      PartOfSum(drives[1..], k - 1, id, gen);
    }
  }

  /** Popping the first effect and adding more at the end. */
  lemma TearsAdvance(pending: seq<ControlEffect>, more: seq<ControlEffect>, id: SkeletonID)
    requires pending != []
    ensures var first := if Teardown(pending[0].kind) && pending[0].identity == Some(id) then [pending[0].kind] else [];
            Collect(pending, TearOf(id)) == first + Collect(pending[1..], TearOf(id))
    ensures Collect(pending[1..] + more, TearOf(id)) == Collect(pending[1..], TearOf(id)) + Collect(more, TearOf(id))
  {
    CollectConcat(pending[1..], more, TearOf(id));
  }

  // ---------------------------------------------------------------- what the reducer may add

  lemma NoTears(effects: seq<ControlEffect>, id: SkeletonID)
    requires forall x :: 0 <= x < |effects| ==> !Teardown(effects[x].kind)
    ensures Collect(effects, TearOf(id)) == []
  {
    CollectNothing(effects, TearOf(id));
  }

  lemma DiscardTearsAll(id: SkeletonID, tail: seq<ControlEffect>, other: SkeletonID)
    requires forall x :: 0 <= x < |tail| ==> !Teardown(tail[x].kind)
    ensures Collect(Discard(id) + tail, TearOf(other)) == if other == id then TEARS else []
  {
    hide Collect;
    var d, pick := Discard(id), TearOf(other);
    DiscardCollects(id, pick);
    NoTears(tail, other);
    CollectConcat(d, tail, pick);
    assert Picked(d[0], pick) == if id == other then [Drop] else [];
    assert Picked(d[1], pick) == if id == other then [CloseControl] else [];
    assert Picked(d[2], pick) == if id == other then [CloseDeath] else [];
    assert Picked(d[3], pick) == if id == other then [Reap] else [];
    hide Picked, Discard;
  }

  /** The process an event makes the reducer give up, if any. */
  function TornBy(c: Core, e: ControlEvent): Option<SkeletonID> {
    match e.kind
    case Eof => if Find(c.slots, e.identity).Some? then e.identity else None
    case SendFailed => if Find(c.slots, e.identity).Some? then e.identity else None
    case Spawned =>
      if e.gen.Some? && e.identity.Some? && (e.gen.value !in c.pending || c.closing) then e.identity else None
    case _ => None
  }

  /** The process an event makes the reducer take in, if any. */
  function TakenBy(c: Core, e: ControlEvent): Option<SkeletonID> {
    if e.kind == Spawned && e.gen.Some? && e.identity.Some? && e.gen.value in c.pending && !c.closing
    then e.identity else None
  }

  /** An event adds, for the one process it gives up, the four teardown effects in order, and
      no teardown effect for any other process. */
  lemma ReduceTears(c: Core, e: ControlEvent, id: SkeletonID)
    ensures Collect(Reduce(c, e).1, TearOf(id)) == if TornBy(c, e) == Some(id) then TEARS else []
    ensures forall x :: 0 <= x < |Reduce(c, e).1| ==>
              var f := Reduce(c, e).1[x];
              && (Teardown(f.kind) ==> f.identity.Some? && TornBy(c, e) == f.identity)
              && (f.kind == Spawn ==> f.gen.Some?)
  {
    var (c1, first) := Transition(c, e);
    var d := Dispatch(c1.slots, c1.queue);
    DispatchFifo(c1.slots, c1.queue);
    NoTears(d.effects, id);
    CollectConcat(first, d.effects, TearOf(id));
    TransitionTears(c, e, id);
    hide Transition, Dispatch, TornBy, Collect;
    forall x | 0 <= x < |first + d.effects|
      ensures var f := (first + d.effects)[x];
              && (Teardown(f.kind) ==> f.identity.Some? && TornBy(c, e) == f.identity)
              && (f.kind == Spawn ==> f.gen.Some?)
    {
      if x >= |first| {
        assert (first + d.effects)[x] == d.effects[x - |first|];
      }
    }
  }

  ghost predicate OnlyTears(effects: seq<ControlEffect>, torn: Option<SkeletonID>) {
    forall x :: 0 <= x < |effects| ==>
      && (Teardown(effects[x].kind) ==> effects[x].identity.Some? && torn == effects[x].identity)
      && (effects[x].kind == Spawn ==> effects[x].gen.Some?)
  }

  lemma FillTears(c: Core, id: SkeletonID)
    ensures Collect(Fill(c).1, TearOf(id)) == [] && OnlyTears(Fill(c).1, None)
  {
    SpawnsSpawn(c.nextGen, Missing(c));
    NoTears(Fill(c).1, id);
  }

  lemma SpawnedTears(c: Core, e: ControlEvent, id: SkeletonID)
    requires e.kind == Spawned
    ensures Collect(OnSpawned(c, e).1, TearOf(id)) == if TornBy(c, e) == Some(id) then TEARS else []
    ensures OnlyTears(OnSpawned(c, e).1, TornBy(c, e))
  {
    if e.gen.Some? && e.identity.Some? {
      var born := e.identity.value;
      DiscardTearsAll(born, [], id);
      assert Discard(born) + [] == Discard(born);
      assert OnlyTears(Discard(born), Some(born));
      hide Collect, Fill, Discard, OnlyTears;
      FillTears(c.(pending := c.pending - {e.gen.value},
                   slots := Put(c.slots, born.fd, ControlSlot(born, Starting, None))), id);
    } else {
      assert OnSpawned(c, e).1 == [];
    }
  }

  lemma LostTears(c: Core, e: ControlEvent, id: SkeletonID)
    requires e.kind == Eof || e.kind == SendFailed
    ensures Collect(OnLost(c, e).1, TearOf(id)) == if TornBy(c, e) == Some(id) then TEARS else []
    ensures OnlyTears(OnLost(c, e).1, TornBy(c, e))
  {
    var found := Find(c.slots, e.identity);
    if found.Some? {
      var effects := OnLost(c, e).1;
      assert effects == Discard(found.value.identity) + effects[4..];
      DiscardTearsAll(found.value.identity, effects[4..], id);
    }
  }

  lemma QuietTears(c: Core, e: ControlEvent, id: SkeletonID)
    requires e.kind != Start && e.kind != Recover && e.kind != Spawned && e.kind != Eof && e.kind != SendFailed
    ensures Collect(Transition(c, e).1, TearOf(id)) == [] && OnlyTears(Transition(c, e).1, None)
  {
    StopAllKinds(c.slots);
    assert forall x :: 0 <= x < |Transition(c, e).1| ==>
             !Teardown(Transition(c, e).1[x].kind) && Transition(c, e).1[x].kind != Spawn;
    NoTears(Transition(c, e).1, id);
  }

  lemma TransitionTears(c: Core, e: ControlEvent, id: SkeletonID)
    ensures Collect(Transition(c, e).1, TearOf(id)) == if TornBy(c, e) == Some(id) then TEARS else []
    ensures OnlyTears(Transition(c, e).1, TornBy(c, e))
  {
    hide Fill, OnSpawned, OnLost, Collect;
    if e.kind == Start || e.kind == Recover {
      FillTears(c, id);
    } else if e.kind == Spawned {
      SpawnedTears(c, e, id);
    } else if e.kind == Eof || e.kind == SendFailed {
      LostTears(c, e, id);
    } else {
      QuietTears(c, e, id);
    }
  }

  lemma LiveSame(c: Core, d: Core, id: SkeletonID)
    requires SameIdentities(c.slots, d.slots)
    ensures Live(c, id) <==> Live(d, id)
  {
  }

  /** An event's whole effect on which processes the reducer holds. */
  lemma TransitionLive(c: Core, e: ControlEvent, id: SkeletonID)
    requires Coherent(c) && WellFormed(c, e)
    ensures Live(Transition(c, e).0, id) <==>
              (Live(c, id) && TornBy(c, e) != Some(id)) || TakenBy(c, e) == Some(id)
  {
    var c' := Transition(c, e).0;
    var found := Find(c.slots, e.identity);
    if e.kind == Spawned {
      SpawnedLive(c, e, id);
    } else if e.kind == Eof || e.kind == SendFailed {
      LostLive(c, e, id);
    } else {
      if found.Some? {
        assert EntryOk(c, c.slots[KeyIndex(c.slots, e.identity.value.fd)]);
      }
      assert SameIdentities(c.slots, c'.slots);
      LiveSame(c, c', id);
    }
  }

  lemma SpawnedLive(c: Core, e: ControlEvent, id: SkeletonID)
    requires Coherent(c) && WellFormed(c, e) && e.kind == Spawned
    ensures Live(OnSpawned(c, e).0, id) <==>
              (Live(c, id) && TornBy(c, e) != Some(id)) || TakenBy(c, e) == Some(id)
  {
    var c' := OnSpawned(c, e).0;
    if e.gen.Some? && e.identity.Some? {
      var born := e.identity.value;
      if e.gen.value in c.pending {
        var entry := Entry(born.fd, ControlSlot(born, Starting, None));
        PutFacts(c.slots, born.fd, entry.slot);
        FillKeepsSlots(c.(pending := c.pending - {born.gen}, slots := c.slots + [entry]));
        assert c'.slots == c.slots + [entry];
        assert c'.slots[|c.slots|].slot.identity == born;
        if Live(c, id) {
          var k :| 0 <= k < |c.slots| && c.slots[k].slot.identity == id;
          assert c'.slots[k] == c.slots[k];
        }
      } else {
        assert !Live(c, born);
      }
    }
  }

  ghost predicate HasIdentity(slots: seq<Entry>, id: SkeletonID) {
    exists k :: 0 <= k < |slots| && slots[k].slot.identity == id
  }

  /** Removing one entry removes its identity and no other. */
  lemma RemovedIdentity(slots: seq<Entry>, i: nat, id: SkeletonID)
    requires i < |slots| && DistinctGens(slots)
    ensures HasIdentity(slots[..i] + slots[i + 1..], id) <==> (HasIdentity(slots, id) && id != slots[i].slot.identity)
  {
    var left := slots[..i] + slots[i + 1..];
    if HasIdentity(slots, id) && id != slots[i].slot.identity {
      var k :| 0 <= k < |slots| && slots[k].slot.identity == id;
      assert left[if k < i then k else k - 1] == slots[k];
    }
    if HasIdentity(left, id) {
      var k :| 0 <= k < |left| && left[k].slot.identity == id;
      assert left[k] == slots[if k < i then k else k + 1];
    }
  }

  /** The slot an end-of-file or a failed send finds, and the slots it leaves. */
  lemma LostSlots(c: Core, e: ControlEvent)
    requires Coherent(c) && Find(c.slots, e.identity).Some?
    ensures var i := KeyIndex(c.slots, e.identity.value.fd);
            && i < |c.slots| && c.slots[i].slot == Find(c.slots, e.identity).value
            && OnLost(c, e).0.slots == c.slots[..i] + c.slots[i + 1..]
  {
    hide NoJobTwice, Discard;
    assert EntryOk(c, c.slots[KeyIndex(c.slots, e.identity.value.fd)]);
  }

  lemma LostLive(c: Core, e: ControlEvent, id: SkeletonID)
    requires Coherent(c) && (e.kind == Eof || e.kind == SendFailed)
    ensures Live(OnLost(c, e).0, id) <==> (Live(c, id) && TornBy(c, e) != Some(id))
  {
    hide NoJobTwice, Discard, EntryOk, KeyIndex, Find, Remove;
    assert Live(c, id) == HasIdentity(c.slots, id);
    assert Live(OnLost(c, e).0, id) == HasIdentity(OnLost(c, e).0.slots, id);
    if Find(c.slots, e.identity).Some? {
      LostSlots(c, e);
      RemovedIdentity(c.slots, KeyIndex(c.slots, e.identity.value.fd), id);
    }
  }

  lemma ReduceLive(c: Core, e: ControlEvent, id: SkeletonID)
    requires Coherent(c) && WellFormed(c, e)
    ensures Live(Reduce(c, e).0, id) <==>
              (Live(c, id) && TornBy(c, e) != Some(id)) || TakenBy(c, e) == Some(id)
  {
    var c1 := Transition(c, e).0;
    TransitionLive(c, e, id);
    hide Transition, TornBy, TakenBy;
    DispatchEntries(c1.slots, c1.queue);
    LiveSame(c1, Reduce(c, e).0, id);
  }
}
