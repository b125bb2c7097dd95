/** Every step of the interleaved driver keeps the pool in agreement with the reducer. */
module SkeletonPoolLaws {
  import opened Wrappers
  import opened Reducer
  import opened CoreLaws
  import opened CoreRuns
  import opened SkeletonPoolModel

  lemma {:induction false} NoEffectsFor(p: Pool, effects: seq<ControlEffect>, id: SkeletonID)
    requires id !in p.devices
    requires forall x :: 0 <= x < |effects| ==> EffectOk(p, effects[x])
    ensures Collect(effects, TearOf(id)) == []
  {
    if effects != [] {
      assert EffectOk(p, effects[0]);
      NoEffectsFor(p, effects[1..], id);
    }
  }

  lemma {:induction false} NothingLeft(p: Pool, drives: seq<Drive>, id: SkeletonID)
    requires id !in p.devices && forall k :: 0 <= k < |drives| ==> DriveOk(p, drives[k])
    ensures Left(drives, id) == 0
    ensures forall k :: 0 <= k < |drives| ==> Tears(drives[k], id) == []
  {
    if drives != [] {
      assert DriveOk(p, drives[0]);
      NoEffectsFor(p, drives[0].pending, id);
      NothingLeft(p, drives[1..], id);
    }
  }

  lemma {:induction false} CountingCount(above: int, n: nat, g: int)
    ensures multiset(Counting(above, n))[g] == if above < g <= above + n then 1 else 0
  {
    if n > 0 {
      CountingCount(above, n - 1, g);
      assert Counting(above, n) == Counting(above, n - 1) + [above + n];
    } else {
      assert Counting(above, 0) == [];
    }
  }

  /** An event adds to the awaited spawns only generations it asks for, and drops the one it answers. */
  lemma ReducePending(c: Core, e: ControlEvent)
    ensures var c' := Reduce(c, e).0;
            && (forall g :: g in c'.pending ==> g in c.pending || c.nextGen < g <= c'.nextGen)
            && ((e.kind == SpawnFailed || (e.kind == Spawned && e.identity.Some?)) && e.gen.Some?
                && e.gen.value <= c.nextGen
                ==> e.gen.value !in c'.pending)
  {
    hide Put, Dispatch;
  }

  /** All that one event does, as the pool sees it: which process is given up or taken in, the
      teardown effects for it, the generations asked for, and the spawns still awaited. */
  ghost predicate CoreMoves(c: Core, c': Core, effects: seq<ControlEffect>, torn: Option<SkeletonID>,
                            taken: Option<SkeletonID>)
  {
    && Inv(c') && c.nextGen <= c'.nextGen
    && (forall i :: Live(c', i) <==> (Live(c, i) && torn != Some(i)) || taken == Some(i))
    && (forall i :: Collect(effects, TearOf(i)) == if torn == Some(i) then TEARS else [])
    && OnlyTears(effects, torn)
    && (forall g :: multiset(Collect(effects, SpawnGen))[g] == if c.nextGen < g <= c'.nextGen then 1 else 0)
    && (forall g :: g in c'.pending ==> g in c.pending || c.nextGen < g <= c'.nextGen)
  }

  lemma ReduceMoves(c: Core, e: ControlEvent)
    requires Inv(c) && WellFormed(c, e)
    ensures CoreMoves(c, Reduce(c, e).0, Reduce(c, e).1, TornBy(c, e), TakenBy(c, e))
  {
    hide Reduce, TornBy, TakenBy, Inv, WellFormed, Collect;
    var (c', effects) := Reduce(c, e);
    ReduceKeepsInv(c, e);
    assert Coherent(c) by { InvCoherent(c); }
    ReduceSpawns(c, e);
    ReducePending(c, e);
    forall i ensures Live(c', i) <==> (Live(c, i) && TornBy(c, e) != Some(i)) || TakenBy(c, e) == Some(i) {
      ReduceLive(c, e, i);
    }
    forall i ensures Collect(effects, TearOf(i)) == if TornBy(c, e) == Some(i) then TEARS else [] {
      ReduceTears(c, e, i);
    }
    assert OnlyTears(effects, TornBy(c, e)) by {
      ReduceTears(c, e, SkeletonID(0, 0));
    }
    forall g ensures multiset(Collect(effects, SpawnGen))[g] == if c.nextGen < g <= c'.nextGen then 1 else 0 {
      CountingCount(c.nextGen, c'.nextGen - c.nextGen, g);
    }
  }

  lemma InvCoherent(c: Core)
    requires Inv(c)
    ensures Coherent(c)
  {
  }

  lemma DriveStaysOk(p: Pool, q: Pool, d: Drive)
    requires DriveOk(p, d) && p.devices.Keys <= q.devices.Keys
    ensures DriveOk(q, d)
  {
    forall x | 0 <= x < |d.pending| ensures EffectOk(q, d.pending[x]) {
      assert EffectOk(p, d.pending[x]);
    }
  }

  /** `ProcessOk` of one process, by the parts a step may change. */
  lemma ProcessStaysOk(p: Pool, q: Pool, id: SkeletonID)
    requires ProcessOk(p, id) && p.core.nextGen <= q.core.nextGen
    requires Left(q.drives, id) == Left(p.drives, id) && Asked(q.drives, id.gen) == 0
    requires Live(q.core, id) == Live(p.core, id) && Newborn(q.drives, id) == Newborn(p.drives, id)
    requires id in p.devices && id in q.devices && q.devices[id] == p.devices[id]
    requires (id in p.retired) == (id in q.retired)
    requires (id.fd in p.slots && p.slots[id.fd] == id) == (id.fd in q.slots && q.slots[id.fd] == id)
    requires forall k :: 0 <= k < |q.drives| ==>
               Tears(q.drives[k], id) == [] || (k < |p.drives| && Tears(q.drives[k], id) == Tears(p.drives[k], id))
    ensures ProcessOk(q, id)
  {
    hide Live, Newborn, Left, Asked, Tears;
  }

  /** A process just given up: its four teardown effects now stand in one list. */
  lemma ProcessTorn(p: Pool, q: Pool, id: SkeletonID)
    requires ProcessOk(p, id) && p.core.nextGen <= q.core.nextGen
    requires Live(p.core, id) || Newborn(p.drives, id)
    requires Left(q.drives, id) == Left(p.drives, id) + 4 && Asked(q.drives, id.gen) == 0
    requires !Live(q.core, id) && !Newborn(q.drives, id)
    requires q.devices == p.devices && q.retired == p.retired && q.slots == p.slots
    requires forall k :: 0 <= k < |q.drives| ==>
               Tears(q.drives[k], id) == TEARS || (k < |p.drives| && Tears(q.drives[k], id) == Tears(p.drives[k], id))
    ensures ProcessOk(q, id)
  {
    hide Live, Newborn, Asked;
    forall k | 0 <= k < |q.drives| ensures Tears(q.drives[k], id) == [] || Tears(q.drives[k], id) == TEARS[4 - 4..] {
      if k < |p.drives| {
        PartOfSum(p.drives, k, id, 0);
      }
    }
  }

  // ---------------------------------------------------------------- an outside event

  lemma NewbornAppend(drives: seq<Drive>, d: Drive, id: SkeletonID)
    requires !d.stage.Born?
    ensures Newborn(drives + [d], id) <==> Newborn(drives, id)
  {
    if Newborn(drives, id) {
      var k :| 0 <= k < |drives| && drives[k].stage == Born(id);
      assert (drives + [d])[k].stage == Born(id);
    }
  }

  /** A fresh list of effects, by its contribution for one process. */
  lemma NewDriveCounts(p: Pool, c': Core, effects: seq<ControlEffect>, torn: Option<SkeletonID>, id: SkeletonID)
    requires ProcessOk(p, id) && CoreMoves(p.core, c', effects, torn, None)
    ensures var d := Drive(effects, Waiting);
            && Tears(d, id) == (if torn == Some(id) then TEARS else [])
            && Left(p.drives + [d], id) == Left(p.drives, id) + (if torn == Some(id) then 4 else 0)
            && Asked(p.drives + [d], id.gen) == 0
            && Newborn(p.drives + [d], id) == Newborn(p.drives, id)
            && Live(c', id) == (Live(p.core, id) && torn != Some(id))
            && (Live(p.core, id) ==> !Newborn(p.drives, id))
            && p.core.nextGen <= c'.nextGen
  {
    var d := Drive(effects, Waiting);
    Append(p.drives, d, id, id.gen);
    NewbornAppend(p.drives, d, id);
  }

  lemma ExternalProcess(p: Pool, c': Core, effects: seq<ControlEffect>, torn: Option<SkeletonID>, id: SkeletonID)
    requires ProcessOk(p, id) && CoreMoves(p.core, c', effects, torn, None)
    requires (torn.Some? ==> Live(p.core, torn.value)) && id in p.devices
    ensures ProcessOk(p.(core := c', drives := p.drives + [Drive(effects, Waiting)]), id)
  {
    hide CoreMoves, Left, Asked, Newborn, Live, Tears, ProcessOk;
    NewDriveCounts(p, c', effects, torn, id);
    var q := p.(core := c', drives := p.drives + [Drive(effects, Waiting)]);
    if torn == Some(id) {
      ProcessTorn(p, q, id);
    } else {
      ProcessStaysOk(p, q, id);
    }
  }

  lemma NewDriveOk(p: Pool, effects: seq<ControlEffect>, torn: Option<SkeletonID>)
    requires OnlyTears(effects, torn) && (torn.Some? ==> torn.value in p.devices)
    ensures DriveOk(p, Drive(effects, Waiting))
  {
  }

  lemma ExternalAsked(p: Pool, c': Core, effects: seq<ControlEffect>, torn: Option<SkeletonID>, g: int)
    requires CoreMoves(p.core, c', effects, torn, None)
    ensures Asked(p.drives + [Drive(effects, Waiting)], g)
            == Asked(p.drives, g) + if p.core.nextGen < g <= c'.nextGen then 1 else 0
  {
    hide Inv, OnlyTears;
    Append(p.drives, Drive(effects, Waiting), SkeletonID(0, 0), g);
  }

  lemma ExternalAsks(p: Pool, c': Core, effects: seq<ControlEffect>, torn: Option<SkeletonID>)
    requires Inv(p.core) && AsksOk(p) && CoreMoves(p.core, c', effects, torn, None)
    ensures AsksOk(p.(core := c', drives := p.drives + [Drive(effects, Waiting)]))
  {
    hide Asked, Newborn, OnlyTears, Tears, Left, Unborn;
    var d := Drive(effects, Waiting);
    var q := p.(core := c', drives := p.drives + [d]);
    forall g ensures Asked(q.drives, g) == Asked(p.drives, g) + if p.core.nextGen < g <= c'.nextGen then 1 else 0 {
      ExternalAsked(p, c', effects, torn, g);
    }
    forall g | g in c'.pending && Asked(q.drives, g) == 0 ensures exists i :: Newborn(q.drives, i) && i.gen == g {
      assert Asked(p.drives, g) == 0 && g in p.core.pending;
      var i :| Newborn(p.drives, i) && i.gen == g;
      NewbornAppend(p.drives, d, i);
    }
  }

  lemma ExternalDrives(p: Pool, c': Core, d: Drive)
    requires DrivesOk(p) && DriveOk(p, d) && !d.stage.Born?
    ensures DrivesOk(p.(core := c', drives := p.drives + [d]))
  {
    var q := p.(core := c', drives := p.drives + [d]);
    forall k | 0 <= k < |q.drives| ensures DriveOk(q, q.drives[k]) {
      DriveStaysOk(p, q, q.drives[k]);
    }
    hide DriveOk;
  }

  lemma ExternalMoves(p: Pool, c': Core, effects: seq<ControlEffect>, torn: Option<SkeletonID>)
    requires PoolInv(p) && CoreMoves(p.core, c', effects, torn, None)
    requires torn.Some? ==> Live(p.core, torn.value)
    ensures PoolInv(p.(core := c', drives := p.drives + [Drive(effects, Waiting)]))
  {
    hide DrivesOk, AsksOk, ProcessOk, Live, DriveOk;
    var d := Drive(effects, Waiting);
    var q := p.(core := c', drives := p.drives + [d]);
    ExternalAsks(p, c', effects, torn);
    NewDriveOk(p, effects, torn);
    ExternalDrives(p, c', d);
    forall i | i in q.devices ensures ProcessOk(q, i) {
      ExternalProcess(p, c', effects, torn, i);
    }
  }

  lemma OutsideEvent(c: Core, e: ControlEvent)
    requires e.kind != Spawned
    ensures TakenBy(c, e).None? && (TornBy(c, e).Some? ==> Live(c, TornBy(c, e).value))
  {
    if TornBy(c, e).Some? {
      assert c.slots[KeyIndex(c.slots, e.identity.value.fd)].slot.identity == e.identity.value;
    }
  }

  lemma ExternalKeepsInv(p: Pool, e: ControlEvent)
    requires PoolInv(p) && Enabled(p, External(e))
    ensures PoolInv(Next(p, External(e)))
  {
    hide Reduce, TornBy, TakenBy, CoreMoves, Live;
    ReduceMoves(p.core, e);
    OutsideEvent(p.core, e);
    ExternalMoves(p, Reduce(p.core, e).0, Reduce(p.core, e).1, TornBy(p.core, e));
  }

  // ---------------------------------------------------------------- a step that only looks or passes

  lemma NewbornReplace(drives: seq<Drive>, k: nat, d: Drive, id: SkeletonID)
    requires k < |drives| && (drives[k].stage == Born(id) <==> d.stage == Born(id))
    ensures Newborn(drives[k := d], id) <==> Newborn(drives, id)
  {
    if Newborn(drives, id) {
      var m :| 0 <= m < |drives| && drives[m].stage == Born(id);
      assert drives[k := d][m].stage == Born(id);
    }
    if Newborn(drives[k := d], id) {
      var m :| 0 <= m < |drives| && drives[k := d][m].stage == Born(id);
      assert drives[m].stage == Born(id);
    }
  }

  lemma ReplaceDrives(p: Pool, q: Pool, k: nat, d: Drive)
    requires DrivesOk(p) && k < |p.drives| && q.drives == p.drives[k := d] && p.devices.Keys <= q.devices.Keys
    requires DriveOk(q, d)
    requires d.stage.Born? ==> forall m :: 0 <= m < |p.drives| && m != k ==> p.drives[m].stage != d.stage
    ensures DrivesOk(q)
  {
    forall m | 0 <= m < |q.drives| ensures DriveOk(q, q.drives[m]) {
      if m != k {
        DriveStaysOk(p, q, p.drives[m]);
      }
    }
  }

  /** A list may change its stage or lose an effect that neither spawns nor tears down. */
  lemma QuietList(p: Pool, k: nat, d: Drive)
    requires PoolInv(p) && k < |p.drives| && !p.drives[k].stage.Born? && !d.stage.Born? && DriveOk(p, d)
    requires forall i :: Tears(d, i) == Tears(p.drives[k], i)
    requires Unborn(d) == Unborn(p.drives[k])
    ensures PoolInv(p.(drives := p.drives[k := d]))
  {
    hide Live, Newborn, Tears, Unborn, Inv, DriveOk, DrivesOk, ProcessOk, Left, Asked;
    var q := p.(drives := p.drives[k := d]);
    forall i ensures Left(q.drives, i) == Left(p.drives, i) && Asked(q.drives, i.gen) == Asked(p.drives, i.gen) {
      Replace(p.drives, k, d, i, i.gen);
    }
    forall i ensures Newborn(q.drives, i) == Newborn(p.drives, i) {
      NewbornReplace(p.drives, k, d, i);
    }
    QuietAsks(p, k, d);
    DriveStaysOk(p, q, d);
    ReplaceDrives(p, q, k, d);
    forall i | i in q.devices ensures ProcessOk(q, i) {
      AskedNone(p, i);
      ProcessStaysOk(p, q, i);
    }
  }

  lemma AskedNone(p: Pool, id: SkeletonID)
    requires ProcessOk(p, id)
    ensures Asked(p.drives, id.gen) == 0
  {
  }

  lemma QuietAsks(p: Pool, k: nat, d: Drive)
    requires AsksOk(p) && k < |p.drives| && !p.drives[k].stage.Born? && !d.stage.Born?
    requires Unborn(d) == Unborn(p.drives[k])
    ensures AsksOk(p.(drives := p.drives[k := d]))
  {
    hide Newborn, Unborn, Asked;
    var q := p.(drives := p.drives[k := d]);
    forall g ensures Asked(q.drives, g) == Asked(p.drives, g) {
      Replace(p.drives, k, d, SkeletonID(0, 0), g);
    }
    forall i ensures Newborn(q.drives, i) == Newborn(p.drives, i) {
      NewbornReplace(p.drives, k, d, i);
    }
  }

  /** Dropping a first effect that is no teardown and no spawn changes no account. */
  lemma PopQuiet(d: Drive)
    requires d.pending != [] && !d.stage.Born? && !Teardown(d.pending[0].kind) && d.pending[0].kind != Spawn
    ensures var e := Drive(d.pending[1..] + [], Waiting);
            (forall i :: Tears(e, i) == Tears(d, i)) && Unborn(e) == Unborn(d)
  {
    assert d.pending[1..] + [] == d.pending[1..];
    forall i ensures Collect(d.pending[1..], TearOf(i)) == Collect(d.pending, TearOf(i)) {
      TearsAdvance(d.pending, [], i);
    }
  }

  lemma PopOk(p: Pool, d: Drive, more: seq<ControlEffect>)
    requires DriveOk(p, d) && d.pending != []
    requires forall x :: 0 <= x < |more| ==> EffectOk(p, more[x])
    ensures DriveOk(p, Drive(d.pending[1..] + more, Waiting))
  {
    var rest := d.pending[1..] + more;
    forall x | 0 <= x < |rest| ensures EffectOk(p, rest[x]) {
      if x < |d.pending| - 1 {
        assert rest[x] == d.pending[x + 1];
      } else {
        assert rest[x] == more[x - (|d.pending| - 1)];
      }
    }
  }

  lemma DrivesAt(p: Pool, k: nat)
    requires DrivesOk(p) && k < |p.drives|
    ensures DriveOk(p, p.drives[k])
  {
  }

  lemma PopKeepsInv(p: Pool, k: nat)
    requires PoolInv(p) && Busy(p, k) && !p.drives[k].stage.Born?
    requires !Teardown(Head(p, k).kind) && Head(p, k).kind != Spawn
    ensures PoolInv(Advance(p, k, []))
  {
    hide Tears, Unborn, ProcessOk, AsksOk, Inv, DrivesOk, DriveOk, Live, TablesOk;
    PopQuiet(p.drives[k]);
    DrivesAt(p, k);
    PopOk(p, p.drives[k], []);
    QuietList(p, k, Drive(p.drives[k].pending[1..] + [], Waiting));
  }

  // ---------------------------------------------------------------- looking a slot up

  /** The lookup of a teardown effect always finds the process, in the table or retired. */
  lemma LookFinds(p: Pool, k: nat)
    requires PoolInv(p) && Busy(p, k) && Teardown(Head(p, k).kind)
    ensures Head(p, k).identity.Some? && Head(p, k).identity.value in p.devices
    ensures SlotFor(p, Head(p, k).identity)
    ensures var id := Head(p, k).identity.value;
            var n := Left(p.drives, id);
            && 1 <= n <= 4 && At(p, id, n) && !Live(p.core, id) && !Newborn(p.drives, id)
            && Tears(p.drives[k], id) == TEARS[4 - n..] && Head(p, k).kind == TEARS[4 - n]
  {
    hide Live, Newborn, Asked, Inv, AsksOk;
    DrivesAt(p, k);
    var e := Head(p, k);
    assert EffectOk(p, e);
    var id := e.identity.value;
    assert ProcessOk(p, id);
    TearsAdvance(p.drives[k].pending, [], id);
    PartOfSum(p.drives, k, id, 0);
  }

  lemma LookKeepsInv(p: Pool, k: nat)
    requires PoolInv(p) && Enabled(p, Look(k))
    ensures PoolInv(Next(p, Look(k)))
  {
    hide Tears, ProcessOk, AsksOk, Inv, DrivesOk, Live, TablesOk, Left, At, Newborn;
    DrivesAt(p, k);
    if Teardown(Head(p, k).kind) {
      LookFinds(p, k);
    }
    var d := p.drives[k].(stage := Looked(SlotFor(p, Head(p, k).identity)));
    SameTears(p.drives[k], d);
    QuietList(p, k, d);
  }

  lemma SameTears(d: Drive, e: Drive)
    requires d.pending == e.pending
    ensures forall i :: Tears(e, i) == Tears(d, i)
  {
  }

  // ---------------------------------------------------------------- a teardown effect acts

  lemma ActMoves(p: Pool, e: ControlEffect, n: nat)
    requires TablesOk(p) && e.identity.Some? && At(p, e.identity.value, n) && 1 <= n <= 4
    requires e.kind == TEARS[4 - n]
    ensures var q := Act(p, e);
            && q.core == p.core && q.drives == p.drives && q.devices.Keys == p.devices.Keys
            && At(q, e.identity.value, n - 1) && TablesOk(q)
  {
  }

  /** An effect for one process leaves every other process, and every table entry of another
      process, as it was; in particular a newer process on the same descriptor. */
  lemma ActTouchesOnlyItsOwn(p: Pool, e: ControlEffect, other: SkeletonID)
    requires e.identity != Some(other)
    ensures var q := Act(p, e);
            && (other in q.devices <==> other in p.devices)
            && (other in p.devices ==> q.devices[other] == p.devices[other])
            && (other in q.retired <==> other in p.retired)
            && ((other.fd in q.slots && q.slots[other.fd] == other) <==>
                  (other.fd in p.slots && p.slots[other.fd] == other))
  {
  }

  lemma FinishCounts(p: Pool, k: nat, id: SkeletonID)
    requires Busy(p, k) && Teardown(Head(p, k).kind) && !p.drives[k].stage.Born?
    ensures var d := Drive(p.drives[k].pending[1..] + [], Waiting);
            && Unborn(d) == Unborn(p.drives[k])
            && (Head(p, k).identity != Some(id) ==> Tears(d, id) == Tears(p.drives[k], id))
            && (Head(p, k).identity == Some(id) ==> Tears(p.drives[k], id) == [Head(p, k).kind] + Tears(d, id))
            && Left(p.drives[k := d], id) == Left(p.drives, id) - (if Head(p, k).identity == Some(id) then 1 else 0)
            && Asked(p.drives[k := d], id.gen) == Asked(p.drives, id.gen)
            && Newborn(p.drives[k := d], id) == Newborn(p.drives, id)
  {
    hide Newborn;
    var pending := p.drives[k].pending;
    assert pending[1..] + [] == pending[1..];
    TearsAdvance(pending, [], id);
    Replace(p.drives, k, Drive(pending[1..] + [], Waiting), id, id.gen);
    NewbornReplace(p.drives, k, Drive(pending[1..] + [], Waiting), id);
  }

  lemma ActKeeps(p: Pool, e: ControlEffect)
    ensures Act(p, e).core == p.core && Act(p, e).drives == p.drives && Act(p, e).devices.Keys == p.devices.Keys
  {
  }

  lemma FinishTears(p: Pool, k: nat, d: Drive, id: SkeletonID, n: nat)
    requires k < |p.drives| && 1 <= n <= 4 && Left(p.drives[k := d], id) == n - 1
    requires Tears(p.drives[k], id) == TEARS[4 - n..] && Tears(p.drives[k], id) == [TEARS[4 - n]] + Tears(d, id)
    requires forall m :: 0 <= m < |p.drives| ==>
               Tears(p.drives[m], id) == [] || Tears(p.drives[m], id) == TEARS[4 - n..]
    ensures var after := p.drives[k := d];
            forall m :: 0 <= m < |after| ==> Tears(after[m], id) == [] || Tears(after[m], id) == TEARS[4 - (n - 1)..]
  {
    hide Left, Tears;
    var after := p.drives[k := d];
    assert TEARS[4 - n..] == [TEARS[4 - n]] + TEARS[4 - (n - 1)..];
    forall m | 0 <= m < |after| ensures Tears(after[m], id) == [] || Tears(after[m], id) == TEARS[4 - (n - 1)..] {
      if m != k {
        PartOfSum(after, m, id, 0);
      }
    }
  }

  lemma FinishOwn(p: Pool, k: nat)
    requires PoolInv(p) && Busy(p, k) && Teardown(Head(p, k).kind) && p.drives[k].stage.Looked?
    requires Act(p, Head(p, k)).drives == p.drives
    ensures Head(p, k).identity.Some? && ProcessOk(Advance(Act(p, Head(p, k)), k, []), Head(p, k).identity.value)
  {
    hide Live, Newborn, Left, Asked, Tears, Inv, AsksOk, DrivesOk, Act, TablesOk;
    LookFinds(p, k);
    var id := Head(p, k).identity.value;
    var n := Left(p.drives, id);
    ActKeeps(p, Head(p, k));
    ActMoves(p, Head(p, k), n);
    FinishCounts(p, k, id);
    assert ProcessOk(p, id);
    FinishTears(p, k, Drive(p.drives[k].pending[1..] + [], Waiting), id, n);
  }

  lemma FinishOther(p: Pool, k: nat, id: SkeletonID)
    requires Busy(p, k) && Teardown(Head(p, k).kind) && p.drives[k].stage.Looked?
    requires ProcessOk(p, id) && id in p.devices && Head(p, k).identity != Some(id)
    requires Act(p, Head(p, k)).core == p.core && Act(p, Head(p, k)).drives == p.drives
    ensures ProcessOk(Advance(Act(p, Head(p, k)), k, []), id)
  {
    hide Live, Newborn, Left, Asked, Tears, ProcessOk, Act;
    var q := Advance(Act(p, Head(p, k)), k, []);
    FinishCounts(p, k, id);
    AskedNone(p, id);
    ActTouchesOnlyItsOwn(p, Head(p, k), id);
    ProcessStaysOk(p, q, id);
  }

  lemma FinishAsks(p: Pool, q: Pool, k: nat, d: Drive)
    requires AsksOk(p) && k < |p.drives| && q.drives == p.drives[k := d] && q.core == p.core
    requires !p.drives[k].stage.Born? && !d.stage.Born? && Unborn(d) == Unborn(p.drives[k])
    ensures AsksOk(q)
  {
    hide Newborn, Unborn, Asked;
    QuietAsks(p, k, d);
  }

  lemma FinishTeardown(p: Pool, k: nat)
    requires PoolInv(p) && Enabled(p, Finish(k)) && Teardown(Head(p, k).kind)
    ensures PoolInv(Next(p, Finish(k)))
  {
    hide Live, Newborn, Left, Asked, Tears, ProcessOk, Act, Inv, AsksOk, DrivesOk, DriveOk, TablesOk, Unborn, At;
    var e := Head(p, k);
    LookFinds(p, k);
    FinishFound(p, k);
    ActKeeps(p, e);
    ActMoves(p, e, Left(p.drives, e.identity.value));
    var q := Advance(Act(p, e), k, []);
    var d := Drive(p.drives[k].pending[1..] + [], Waiting);
    FinishCounts(p, k, e.identity.value);
    FinishAsks(p, q, k, d);
    DrivesAt(p, k);
    PopOk(p, p.drives[k], []);
    DriveStaysOk(p, q, d);
    ReplaceDrives(p, q, k, d);
    FinishOwn(p, k);
    forall i | i in q.devices ensures ProcessOk(q, i) {
      if e.identity != Some(i) {
        FinishOther(p, k, i);
      }
    }
    SameTables(Act(p, e), q);
  }

  lemma SameTables(p: Pool, q: Pool)
    requires TablesOk(p) && q.slots == p.slots && q.retired == p.retired && q.devices == p.devices
    ensures TablesOk(q)
  {
  }

  lemma FinishFound(p: Pool, k: nat)
    requires DrivesOk(p) && Enabled(p, Finish(k)) && Teardown(Head(p, k).kind)
    ensures p.drives[k].stage.found
  {
    DrivesAt(p, k);
  }

  lemma FinishKeepsInv(p: Pool, k: nat)
    requires PoolInv(p) && Enabled(p, Finish(k))
    ensures PoolInv(Next(p, Finish(k)))
  {
    hide PoolInv;
    if Teardown(Head(p, k).kind) {
      FinishTeardown(p, k);
    } else {
      FinishKill(p, k);
    }
  }

  lemma FinishKill(p: Pool, k: nat)
    requires PoolInv(p) && Enabled(p, Finish(k)) && !Teardown(Head(p, k).kind)
    ensures PoolInv(Next(p, Finish(k)))
  {
    hide Live, ProcessOk, Inv, AsksOk, TablesOk;
    DrivesAt(p, k);
    assert Head(p, k).kind == Kill;
    assert Act(p, Head(p, k)) == p;
    PopKeepsInv(p, k);
  }

  // ---------------------------------------------------------------- the kernel delivers a process

  lemma FreshIdentity(p: Pool, k: nat, fd: int)
    requires PoolInv(p) && Enabled(p, KernelSpawns(k, fd))
    ensures var id := SkeletonID(fd, Head(p, k).gen.value);
            && id !in p.devices && fd !in p.slots && id !in p.retired
            && !Live(p.core, id) && Left(p.drives, id) == 0
            && (forall i :: i in p.devices ==> i.gen != id.gen)
            && (forall m :: 0 <= m < |p.drives| ==> Tears(p.drives[m], id) == [] && p.drives[m].stage != Born(id))
            && 1 <= id.gen <= p.core.nextGen && Asked(p.drives, id.gen) == 1
  {
    hide Live, Inv;
    var g := Head(p, k).gen.value;
    var id := SkeletonID(fd, g);
    PartOfSum(p.drives, k, id, g);
    assert Unborn(p.drives[k])[0] == g;
    assert Asked(p.drives, g) == 1;
    forall i | i in p.devices ensures i.gen != g {
      assert ProcessOk(p, i);
    }
    NoOpenSlot(p, k, fd);
    NothingLeft(p, p.drives, id);
    forall m | 0 <= m < |p.drives| ensures p.drives[m].stage != Born(id) {
      assert DriveOk(p, p.drives[m]);
    }
  }

  /** A descriptor in the table belongs to an open control socket, so the kernel cannot give it out. */
  lemma NoOpenSlot(p: Pool, k: nat, fd: int)
    requires PoolInv(p) && Enabled(p, KernelSpawns(k, fd))
    ensures fd !in p.slots
  {
    hide Live, Inv, AsksOk, DrivesOk, Left, Newborn, Asked;
    assert fd in p.slots ==> ProcessOk(p, p.slots[fd]);
  }

  lemma BornCounts(p: Pool, k: nat, fd: int, id: SkeletonID)
    requires Busy(p, k) && p.drives[k].stage == Waiting && Head(p, k).kind == Spawn && Head(p, k).gen.Some?
    ensures var d := p.drives[k].(stage := Born(SkeletonID(fd, Head(p, k).gen.value)));
            && Tears(d, id) == Tears(p.drives[k], id)
            && Left(p.drives[k := d], id) == Left(p.drives, id)
            && Asked(p.drives[k := d], id.gen)
               == Asked(p.drives, id.gen) - (if id.gen == Head(p, k).gen.value then 1 else 0)
  {
    var d := p.drives[k].(stage := Born(SkeletonID(fd, Head(p, k).gen.value)));
    Replace(p.drives, k, d, id, id.gen);
    assert Unborn(p.drives[k]) == [Head(p, k).gen.value] + Unborn(d);
  }

  lemma NewbornStage(drives: seq<Drive>, k: nat, d: Drive, id: SkeletonID)
    requires k < |drives| && !drives[k].stage.Born? && d.stage.Born?
    ensures Newborn(drives[k := d], id) <==> Newborn(drives, id) || d.stage.identity == id
  {
    if Newborn(drives, id) {
      var m :| 0 <= m < |drives| && drives[m].stage == Born(id);
      assert drives[k := d][m].stage == Born(id);
    }
    assert drives[k := d][k] == d;
    if Newborn(drives[k := d], id) {
      var m :| 0 <= m < |drives| && drives[k := d][m].stage == Born(id);
      assert m != k ==> drives[m].stage == Born(id);
    }
  }

  lemma SpawnOldProcess(p: Pool, k: nat, fd: int, id: SkeletonID)
    requires PoolInv(p) && Enabled(p, KernelSpawns(k, fd)) && id in p.devices
    ensures ProcessOk(Next(p, KernelSpawns(k, fd)), id)
  {
    hide Live, Newborn, Left, Asked, Tears, ProcessOk, Inv, AsksOk, DrivesOk, TablesOk;
    var q := Next(p, KernelSpawns(k, fd));
    FreshIdentity(p, k, fd);
    BornCounts(p, k, fd, id);
    NewbornStage(p.drives, k, q.drives[k], id);
    AskedNone(p, id);
    ProcessStaysOk(p, q, id);
  }

  lemma SpawnNewProcess(p: Pool, k: nat, fd: int)
    requires PoolInv(p) && Enabled(p, KernelSpawns(k, fd))
    ensures ProcessOk(Next(p, KernelSpawns(k, fd)), SkeletonID(fd, Head(p, k).gen.value))
  {
    hide Live, Newborn, Left, Asked, Tears, Inv, AsksOk, DrivesOk, TablesOk;
    var q := Next(p, KernelSpawns(k, fd));
    var id := SkeletonID(fd, Head(p, k).gen.value);
    FreshIdentity(p, k, fd);
    BornCounts(p, k, fd, id);
    NewbornStage(p.drives, k, q.drives[k], id);
  }

  lemma SpawnAsked(p: Pool, k: nat, fd: int)
    requires PoolInv(p) && Enabled(p, KernelSpawns(k, fd))
    ensures var q := Next(p, KernelSpawns(k, fd));
            && (forall g :: Asked(q.drives, g) == Asked(p.drives, g) - if g == Head(p, k).gen.value then 1 else 0)
            && (forall i :: Newborn(q.drives, i) <==> Newborn(p.drives, i) || i == SkeletonID(fd, Head(p, k).gen.value))
  {
    hide Live, Left, ProcessOk, Inv, DrivesOk, TablesOk, AsksOk, Asked, Newborn, PoolInv;
    var q := Next(p, KernelSpawns(k, fd));
    forall g ensures Asked(q.drives, g) == Asked(p.drives, g) - if g == Head(p, k).gen.value then 1 else 0 {
      BornCounts(p, k, fd, SkeletonID(fd, g));
    }
    forall i ensures Newborn(q.drives, i) <==> Newborn(p.drives, i) || i == SkeletonID(fd, Head(p, k).gen.value) {
      NewbornStage(p.drives, k, q.drives[k], i);
    }
  }

  lemma SpawnAsks(p: Pool, k: nat, fd: int)
    requires PoolInv(p) && Enabled(p, KernelSpawns(k, fd))
    ensures AsksOk(Next(p, KernelSpawns(k, fd)))
  {
    hide Live, Left, ProcessOk, Inv, DrivesOk, TablesOk, Asked, Newborn;
    var q := Next(p, KernelSpawns(k, fd));
    var gen := Head(p, k).gen.value;
    SpawnAsked(p, k, fd);
    FreshIdentity(p, k, fd);
    assert Newborn(q.drives, SkeletonID(fd, gen)) && SkeletonID(fd, gen).gen == gen;
    forall g | g in q.core.pending && Asked(q.drives, g) == 0 ensures exists i :: Newborn(q.drives, i) && i.gen == g {
      if g != gen {
        assert Asked(p.drives, g) == 0;
        var i :| Newborn(p.drives, i) && i.gen == g;
        assert Newborn(q.drives, i);
      }
    }
  }

  lemma SpawnTables(p: Pool, k: nat, fd: int)
    requires PoolInv(p) && Enabled(p, KernelSpawns(k, fd))
    ensures TablesOk(Next(p, KernelSpawns(k, fd)))
  {
    hide Live, ProcessOk, Inv, DrivesOk, AsksOk, Newborn, Asked, Left, Tears;
    FreshIdentity(p, k, fd);
  }

  lemma SpawnKeepsInv(p: Pool, k: nat, fd: int)
    requires PoolInv(p) && Enabled(p, KernelSpawns(k, fd))
    ensures PoolInv(Next(p, KernelSpawns(k, fd)))
  {
    hide Live, ProcessOk, Inv, DrivesOk, AsksOk, TablesOk, Newborn, Asked, Left, Tears;
    var q := Next(p, KernelSpawns(k, fd));
    FreshIdentity(p, k, fd);
    SpawnAsks(p, k, fd);
    SpawnTables(p, k, fd);
    DrivesAt(p, k);
    DriveStaysOk(p, q, p.drives[k]);
    ReplaceDrives(p, q, k, q.drives[k]);
    forall i | i in q.devices ensures ProcessOk(q, i) {
      if i in p.devices {
        SpawnOldProcess(p, k, fd, i);
      } else {
        SpawnNewProcess(p, k, fd);
      }
    }
  }

  // ---------------------------------------------------------------- the driver reports a spawn

  /** The list after its spawn has been answered with `effects`. */
  function Reply(d: Drive, effects: seq<ControlEffect>): Drive
    requires d.pending != []
  {
    Drive(d.pending[1..] + effects, Waiting)
  }

  /** The generation whose request a list still carries when it is answered. */
  ghost function Carried(d: Drive, g: int): nat {
    if d.pending != [] && !d.stage.Born? && d.pending[0].gen == Some(g) then 1 else 0
  }

  lemma ReplyUnborn(d: Drive, effects: seq<ControlEffect>, g: int)
    requires d.pending != [] && d.pending[0].kind == Spawn && d.pending[0].gen.Some?
    ensures multiset(Unborn(Reply(d, effects)))[g]
         == multiset(Unborn(d))[g] - Carried(d, g) + multiset(Collect(effects, SpawnGen))[g]
  {
    CollectConcat(d.pending[1..], effects, SpawnGen);
    assert Collect(d.pending, SpawnGen) == [d.pending[0].gen.value] + Collect(d.pending[1..], SpawnGen);
  }

  lemma ReplyCounts(p: Pool, k: nat, c': Core, effects: seq<ControlEffect>, torn: Option<SkeletonID>,
                    taken: Option<SkeletonID>, id: SkeletonID)
    requires Busy(p, k) && Head(p, k).kind == Spawn && Head(p, k).gen.Some?
    requires CoreMoves(p.core, c', effects, torn, taken)
    ensures var d := Reply(p.drives[k], effects);
            && Tears(d, id) == Tears(p.drives[k], id) + (if torn == Some(id) then TEARS else [])
            && Left(p.drives[k := d], id) == Left(p.drives, id) + (if torn == Some(id) then 4 else 0)
            && Asked(p.drives[k := d], id.gen) == Asked(p.drives, id.gen) - Carried(p.drives[k], id.gen)
                 + (if p.core.nextGen < id.gen <= c'.nextGen then 1 else 0)
            && Live(c', id) == ((Live(p.core, id) && torn != Some(id)) || taken == Some(id))
            && p.core.nextGen <= c'.nextGen
  {
    hide Live, Collect, Left, Asked;
    var d := Reply(p.drives[k], effects);
    ReplyTears(p.drives[k], effects, id);
    ReplyUnborn(p.drives[k], effects, id.gen);
    Replace(p.drives, k, d, id, id.gen);
  }

  lemma ReplyTears(d: Drive, effects: seq<ControlEffect>, id: SkeletonID)
    requires d.pending != [] && d.pending[0].kind == Spawn
    ensures Tears(Reply(d, effects), id) == Tears(d, id) + Collect(effects, TearOf(id))
  {
    TearsAdvance(d.pending, effects, id);
  }

  lemma NewbornAnswered(p: Pool, k: nat, d: Drive, id: SkeletonID)
    requires DrivesOk(p) && k < |p.drives| && !d.stage.Born?
    ensures Newborn(p.drives[k := d], id) <==> Newborn(p.drives, id) && p.drives[k].stage != Born(id)
  {
    var after := p.drives[k := d];
    if Newborn(after, id) {
      var m :| 0 <= m < |after| && after[m].stage == Born(id);
      assert p.drives[m].stage == Born(id) && m != k;
    }
    if Newborn(p.drives, id) && p.drives[k].stage != Born(id) {
      var m :| 0 <= m < |p.drives| && p.drives[m].stage == Born(id);
      assert after[m].stage == Born(id);
    }
  }

  lemma ReplyDriveOk(p: Pool, k: nat, effects: seq<ControlEffect>, torn: Option<SkeletonID>)
    requires DrivesOk(p) && Busy(p, k) && OnlyTears(effects, torn) && (torn.Some? ==> torn.value in p.devices)
    ensures DriveOk(p, Reply(p.drives[k], effects))
  {
    hide DriveOk, DrivesOk;
    DrivesAt(p, k);
    forall x | 0 <= x < |effects| ensures EffectOk(p, effects[x]) {
    }
    PopOk(p, p.drives[k], effects);
  }

  lemma ReplyDrives(p: Pool, q: Pool, k: nat, effects: seq<ControlEffect>, torn: Option<SkeletonID>)
    requires DrivesOk(p) && Busy(p, k) && OnlyTears(effects, torn) && (torn.Some? ==> torn.value in p.devices)
    requires q.drives == p.drives[k := Reply(p.drives[k], effects)] && q.devices == p.devices
    ensures DrivesOk(q)
  {
    hide DriveOk, DrivesOk, OnlyTears;
    ReplyDriveOk(p, k, effects, torn);
    DriveStaysOk(p, q, Reply(p.drives[k], effects));
    ReplaceDrives(p, q, k, Reply(p.drives[k], effects));
  }

  /** A newborn the reducer takes in becomes live, its table entry and sockets untouched. */
  lemma ProcessTaken(p: Pool, q: Pool, id: SkeletonID)
    requires ProcessOk(p, id) && p.core.nextGen <= q.core.nextGen && Newborn(p.drives, id)
    requires Left(q.drives, id) == Left(p.drives, id) && Asked(q.drives, id.gen) == 0
    requires Live(q.core, id) && !Newborn(q.drives, id)
    requires q.devices == p.devices && q.retired == p.retired && q.slots == p.slots
    requires forall k :: 0 <= k < |q.drives| ==> k < |p.drives| && Tears(q.drives[k], id) == Tears(p.drives[k], id)
    ensures ProcessOk(q, id)
  {
    hide Live, Newborn, Left, Asked, Tears;
  }

  lemma NewbornFacts(p: Pool, id: SkeletonID)
    requires ProcessOk(p, id) && Newborn(p.drives, id)
    ensures !Live(p.core, id) && At(p, id, 4) && Left(p.drives, id) == 0 && Asked(p.drives, id.gen) == 0
    ensures forall k :: 0 <= k < |p.drives| ==> Tears(p.drives[k], id) == []
  {
  }

  lemma GenBound(p: Pool, id: SkeletonID)
    requires ProcessOk(p, id)
    ensures 1 <= id.gen <= p.core.nextGen
  {
  }

  /** The lists and the reducer after list `k` has its spawn answered; the tables do not move. */
  function Answered(p: Pool, k: nat, c': Core, effects: seq<ControlEffect>): Pool
    requires Busy(p, k)
  {
    p.(core := c', drives := p.drives[k := Reply(p.drives[k], effects)])
  }

  lemma AnsweredProcess(p: Pool, k: nat, c': Core, effects: seq<ControlEffect>, torn: Option<SkeletonID>,
                        taken: Option<SkeletonID>, id: SkeletonID)
    requires Busy(p, k) && Head(p, k).kind == Spawn && Head(p, k).gen.Some?
    requires DrivesOk(p) && ProcessOk(p, id) && id in p.devices
    requires CoreMoves(p.core, c', effects, torn, taken)
    requires if p.drives[k].stage == Born(id) then (torn == Some(id)) != (taken == Some(id))
             else torn != Some(id) && taken != Some(id)
    ensures ProcessOk(Answered(p, k, c', effects), id)
  {
    hide Live, Newborn, Left, Asked, Tears, ProcessOk, CoreMoves, DrivesOk;
    var q := Answered(p, k, c', effects);
    ReplyCounts(p, k, c', effects, torn, taken, id);
    NewbornAnswered(p, k, Reply(p.drives[k], effects), id);
    AskedNone(p, id);
    GenBound(p, id);
    if p.drives[k].stage == Born(id) {
      NewbornAt(p.drives, k, id);
      NewbornFacts(p, id);
      if torn == Some(id) {
        ProcessTorn(p, q, id);
      } else {
        ProcessTaken(p, q, id);
      }
    } else {
      ProcessStaysOk(p, q, id);
    }
  }

  lemma NewbornAt(drives: seq<Drive>, k: nat, id: SkeletonID)
    requires k < |drives| && drives[k].stage == Born(id)
    ensures Newborn(drives, id)
  {
  }

  lemma AnsweredAsks(p: Pool, k: nat, c': Core, effects: seq<ControlEffect>, torn: Option<SkeletonID>,
                     taken: Option<SkeletonID>)
    requires Busy(p, k) && Head(p, k).kind == Spawn && Head(p, k).gen.Some?
    requires Inv(p.core) && DrivesOk(p) && AsksOk(p) && CoreMoves(p.core, c', effects, torn, taken)
    requires (if p.drives[k].stage.Born? then p.drives[k].stage.identity.gen else Head(p, k).gen.value) !in c'.pending
    ensures AsksOk(Answered(p, k, c', effects))
  {
    hide Live, Newborn, Left, Asked, Tears, DrivesOk;
    var q := Answered(p, k, c', effects);
    forall g ensures Asked(q.drives, g) == Asked(p.drives, g) - Carried(p.drives[k], g)
                       + (if p.core.nextGen < g <= c'.nextGen then 1 else 0) {
      ReplyCounts(p, k, c', effects, torn, taken, SkeletonID(0, g));
    }
    forall g | g in c'.pending && Asked(q.drives, g) == 0 ensures exists i :: Newborn(q.drives, i) && i.gen == g {
      assert g in p.core.pending && Asked(p.drives, g) == 0;
      var i :| Newborn(p.drives, i) && i.gen == g;
      NewbornAnswered(p, k, Reply(p.drives[k], effects), i);
    }
  }

  lemma AnsweredKeepsInv(p: Pool, k: nat, c': Core, effects: seq<ControlEffect>, torn: Option<SkeletonID>,
                         taken: Option<SkeletonID>)
    requires PoolInv(p) && Busy(p, k) && Head(p, k).kind == Spawn && Head(p, k).gen.Some?
    requires CoreMoves(p.core, c', effects, torn, taken)
    requires (if p.drives[k].stage.Born? then p.drives[k].stage.identity.gen else Head(p, k).gen.value) !in c'.pending
    requires forall i :: if p.drives[k].stage == Born(i) then (torn == Some(i)) != (taken == Some(i))
                         else torn != Some(i) && taken != Some(i)
    requires p.drives[k].stage.Born? ==> p.drives[k].stage.identity in p.devices
    ensures PoolInv(Answered(p, k, c', effects))
  {
    hide Newborn, Left, Asked, Tears, ProcessOk, DrivesOk, AsksOk, DriveOk, OnlyTears, Live, Inv;
    var q := Answered(p, k, c', effects);
    AnsweredAsks(p, k, c', effects, torn, taken);
    ReplyDrives(p, q, k, effects, torn);
    SameTables(p, q);
    forall i | i in q.devices ensures ProcessOk(q, i) {
      AnsweredProcess(p, k, c', effects, torn, taken, i);
    }
  }

  lemma AnnouncedWellFormed(p: Pool, k: nat)
    requires PoolInv(p) && Enabled(p, Announce(k))
    ensures WellFormed(p.core, SpawnedEvent(p.drives[k].stage.identity))
    ensures Head(p, k).kind == Spawn && Head(p, k).gen.Some? && p.drives[k].stage.identity in p.devices
    ensures p.drives[k].stage.identity.gen <= p.core.nextGen
  {
    hide Left, Asked, Tears, AsksOk;
    DrivesAt(p, k);
    assert EffectOk(p, Head(p, k));
    var id := p.drives[k].stage.identity;
    assert ProcessOk(p, id) && Newborn(p.drives, id);
    forall m | 0 <= m < |p.core.slots|
      ensures p.core.slots[m].slot.identity.gen != id.gen && p.core.slots[m].fd != id.fd
    {
      var live := p.core.slots[m].slot.identity;
      assert Live(p.core, live);
      assert ProcessOk(p, live);
      assert EntryOk(p.core, p.core.slots[m]);
    }
  }

  lemma AnnounceKeepsInv(p: Pool, k: nat)
    requires PoolInv(p) && Enabled(p, Announce(k))
    ensures PoolInv(Next(p, Announce(k)))
  {
    hide PoolInv, Reduce, CoreMoves, WellFormed, Inv;
    var id := p.drives[k].stage.identity;
    var e := SpawnedEvent(id);
    PoolCore(p);
    AnnouncedWellFormed(p, k);
    ReduceMoves(p.core, e);
    ReducePending(p.core, e);
    AnsweredKeepsInv(p, k, Reduce(p.core, e).0, Reduce(p.core, e).1, TornBy(p.core, e), TakenBy(p.core, e));
  }

  lemma PoolCore(p: Pool)
    requires PoolInv(p)
    ensures Inv(p.core) && DrivesOk(p) && AsksOk(p) && TablesOk(p)
  {
  }

  lemma SpawnFailsKeepsInv(p: Pool, k: nat)
    requires PoolInv(p) && Enabled(p, SpawnFails(k))
    ensures PoolInv(Next(p, SpawnFails(k)))
  {
    hide PoolInv, Reduce, CoreMoves, Inv, DrivesOk, AsksOk;
    var e := ControlEvent(SpawnFailed, gen := Head(p, k).gen);
    PoolCore(p);
    HeadAsked(p, k);
    ReduceMoves(p.core, e);
    ReducePending(p.core, e);
    AnsweredKeepsInv(p, k, Reduce(p.core, e).0, Reduce(p.core, e).1, None, None);
  }

  lemma HeadAsked(p: Pool, k: nat)
    requires AsksOk(p) && Enabled(p, SpawnFails(k))
    ensures Head(p, k).gen.value <= p.core.nextGen
  {
    var g := Head(p, k).gen.value;
    PartOfSum(p.drives, k, SkeletonID(0, 0), g);
    assert Unborn(p.drives[k])[0] == g;
  }

  // ---------------------------------------------------------------- whole runs

  lemma InitialPoolInv(target: int)
    requires 0 < target
    ensures PoolInv(InitialPool(target))
  {
    InitialInv(target);
  }

  /** Every step of the interleaved driver keeps the invariant. */
  lemma NextKeepsInv(p: Pool, s: Step)
    requires PoolInv(p) && Enabled(p, s)
    ensures PoolInv(Next(p, s))
  {
    hide PoolInv, Next;
    match s
    case External(e) => ExternalKeepsInv(p, e);
    case KernelSpawns(k, fd) => SpawnKeepsInv(p, k, fd);
    case SpawnFails(k) => SpawnFailsKeepsInv(p, k);
    case Announce(k) => AnnounceKeepsInv(p, k);
    case Look(k) => LookKeepsInv(p, k);
    case Finish(k) => FinishKeepsInv(p, k);
    case Pass(k) => PassKeepsInv(p, k);
  }

  lemma PassKeepsInv(p: Pool, k: nat)
    requires PoolInv(p) && Enabled(p, Pass(k))
    ensures PoolInv(Next(p, Pass(k)))
  {
    hide PoolInv;
    PopKeepsInv(p, k);
  }

  ghost predicate Runs(p: Pool, steps: seq<Step>)
    decreases |steps|
  {
    steps == [] || (Enabled(p, steps[0]) && Runs(Next(p, steps[0]), steps[1..]))
  }

  function AfterSteps(p: Pool, steps: seq<Step>): Pool
    requires Runs(p, steps)
    decreases |steps|
  {
    if steps == [] then p else AfterSteps(Next(p, steps[0]), steps[1..])
  }

  lemma {:induction false} RunKeepsPoolInv(p: Pool, steps: seq<Step>)
    requires PoolInv(p) && Runs(p, steps)
    ensures PoolInv(AfterSteps(p, steps))
    decreases |steps|
  {
    hide PoolInv, Next;
    if steps != [] {
      NextKeepsInv(p, steps[0]);
      RunKeepsPoolInv(Next(p, steps[0]), steps[1..]);
    }
  }

  /** Whatever the interleaving and however descriptors are reused, a process the reducer holds
      is in the pool's table under its descriptor with its socket and pipe open, unreaped, and
      no list holds a teardown effect for it. */
  lemma LiveIsNeverTornDown(target: int, steps: seq<Step>, id: SkeletonID)
    requires 0 < target && Runs(InitialPool(target), steps) && Live(AfterSteps(InitialPool(target), steps).core, id)
    ensures var p := AfterSteps(InitialPool(target), steps);
            && id.fd in p.slots && p.slots[id.fd] == id && id !in p.retired
            && id in p.devices && p.devices[id] == Device(true, true, false)
            && forall k :: 0 <= k < |p.drives| ==> Tears(p.drives[k], id) == []
  {
    hide Live, Left, Newborn, Asked, Tears;
    InitialPoolInv(target);
    RunKeepsPoolInv(InitialPool(target), steps);
    assert ProcessOk(AfterSteps(InitialPool(target), steps), id);
  }

  ghost predicate Drained(p: Pool) {
    forall k :: 0 <= k < |p.drives| ==> p.drives[k].pending == []
  }

  lemma {:induction false} DrainedSums(drives: seq<Drive>, id: SkeletonID, g: int)
    requires forall k :: 0 <= k < |drives| ==> drives[k].pending == []
    ensures Left(drives, id) == 0 && Asked(drives, g) == 0
  {
    if drives != [] {
      DrainedSums(drives[1..], id, g);
    }
  }

  lemma DrainedNewborn(p: Pool, id: SkeletonID)
    requires DrivesOk(p) && Drained(p)
    ensures !Newborn(p.drives, id)
  {
    forall k | 0 <= k < |p.drives| ensures p.drives[k].stage != Born(id) {
      assert DriveOk(p, p.drives[k]);
    }
  }

  /** Once every list has run out, the table holds exactly the reducer's processes, nothing is
      retired, no spawn is awaited, and every process that is not held has been closed on both
      sides and reaped. */
  lemma DrainedPoolAgrees(target: int, steps: seq<Step>)
    requires 0 < target && Runs(InitialPool(target), steps) && Drained(AfterSteps(InitialPool(target), steps))
    ensures var p := AfterSteps(InitialPool(target), steps);
            && (forall id: SkeletonID :: (id.fd in p.slots && p.slots[id.fd] == id) <==> Live(p.core, id))
            && p.retired == {} && p.core.pending == {}
            && (forall id :: id in p.devices && !Live(p.core, id) ==> p.devices[id] == Device(false, false, true))
  {
    hide Live, Newborn, Asked, Tears, Inv, Left;
    var p := AfterSteps(InitialPool(target), steps);
    InitialPoolInv(target);
    RunKeepsPoolInv(InitialPool(target), steps);
    forall id ensures Left(p.drives, id) == 0 && !Newborn(p.drives, id) {
      DrainedSums(p.drives, id, 0);
      DrainedNewborn(p, id);
    }
    forall id | id in p.devices ensures At(p, id, if Live(p.core, id) then 4 else 0) {
      assert ProcessOk(p, id);
    }
    forall g ensures g !in p.core.pending {
      DrainedSums(p.drives, SkeletonID(0, 0), g);
    }
  }
}
