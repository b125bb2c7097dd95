/** The driver in place: a pool object that owns its reducer and its tables, whose methods are
    the stretches of `drive` between two awaits, each proved to be one step of the model. */
module SkeletonPoolDriver {
  import opened Wrappers
  import opened Reducer
  import opened SkeletonPoolModel
  import opened SkeletonPoolLaws

  class SkeletonPool {
    const core: ReaperCore
    var slots: map<int, SkeletonID>
    var retired: set<SkeletonID>
    var devices: map<SkeletonID, Device>
    var drives: seq<Drive>

    ghost function Contents(): Pool
      reads this, core
    {
      Pool(core.Contents(), slots, retired, devices, drives)
    }

    constructor (target: int)
      requires 0 < target
      ensures fresh(core) && Contents() == InitialPool(target) && PoolInv(Contents())
    {
      core := new ReaperCore(target);
      slots, retired, devices, drives := map[], {}, map[], [];
      new;
      InitialPoolInv(target);
    }

    method Feed(event: ControlEvent)
      requires PoolInv(Contents()) && Enabled(Contents(), External(event))
      modifies this`drives, core
      ensures Contents() == Next(old(Contents()), External(event)) && PoolInv(Contents())
    {
      ExternalKeepsInv(Contents(), event);
      var effects := core.Apply(event);
      drives := drives + [Drive(effects, Waiting)];
    }

    /** The kernel delivered the process asked for by the first effect of list `k`. */
    method ReceiveProcess(k: nat, fd: int)
      requires PoolInv(Contents()) && Enabled(Contents(), KernelSpawns(k, fd))
      modifies this
      ensures Contents() == Next(old(Contents()), KernelSpawns(k, fd)) && PoolInv(Contents())
    {
      hide PoolInv;
      SpawnKeepsInv(Contents(), k, fd);
      var identity := SkeletonID(fd, drives[k].pending[0].gen.value);
      devices := devices[identity := Device(true, true, false)];
      slots := slots[identity.fd := identity];
      drives := drives[k := drives[k].(stage := Born(identity))];
    }

    method ReportProcess(k: nat)
      requires PoolInv(Contents()) && Enabled(Contents(), Announce(k))
      modifies this`drives, core
      ensures Contents() == Next(old(Contents()), Announce(k)) && PoolInv(Contents())
    {
      hide PoolInv, Reduce, Coherent;
      CoherentCore(Contents());
      AnnounceKeepsInv(Contents(), k);
      AnnouncedWellFormed(Contents(), k);
      var pending := drives[k].pending[1..];
      var effects := core.Apply(SpawnedEvent(drives[k].stage.identity));
      drives := drives[k := Drive(pending + effects, Waiting)];
    }

    method ReportFailure(k: nat)
      requires PoolInv(Contents()) && Enabled(Contents(), SpawnFails(k))
      modifies this`drives, core
      ensures Contents() == Next(old(Contents()), SpawnFails(k)) && PoolInv(Contents())
    {
      hide PoolInv, Reduce, Coherent;
      CoherentCore(Contents());
      SpawnFailsKeepsInv(Contents(), k);
      var pending := drives[k].pending[1..];
      var effects := core.Apply(ControlEvent(SpawnFailed, gen := drives[k].pending[0].gen));
      drives := drives[k := Drive(pending + effects, Waiting)];
    }

    method DropIdentity(id: SkeletonID)
      modifies this`slots, this`retired
      ensures Contents() == DropSlot(old(Contents()), id)
    {
      if id.fd in slots && slots[id.fd] == id {
        slots := slots - {id.fd};
      }
      retired := retired + {id};
    }

    method ActOn(effect: ControlEffect)
      requires effect.identity.Some? && effect.identity.value in devices
      modifies this`slots, this`retired, this`devices
      ensures Contents() == Act(old(Contents()), effect)
    {
      var id := effect.identity.value;
      match effect.kind {
        case Drop => DropIdentity(id);
        case CloseControl => devices := devices[id := devices[id].(controlOpen := false)];
        case CloseDeath => devices := devices[id := devices[id].(deathOpen := false)];
        case Reap =>
          devices := devices[id := devices[id].(reaped := true)];
          retired := retired - {id};
        case _ =>
      }
    }

    method RunEffect(k: nat)
      requires Busy(Contents(), k)
      modifies this`slots, this`retired, this`devices, this`drives
      ensures Contents() == OneEffect(old(Contents()), k)
    {
      var effect := drives[k].pending[0];
      if Awaits(effect.kind) && effect.identity.Some?
         && ((effect.identity.value.fd in slots && slots[effect.identity.value.fd] == effect.identity.value)
             || effect.identity.value in retired) {
        if effect.identity.value in devices {
          ActOn(effect);
        }
      }
      drives := drives[k := Drive(drives[k].pending[1..] + [], Waiting)];
    }

    /** Run a list that asks for no process to its end, with no other list in between: look each
        slot up, act on it, and go on to the next effect. */
    method RunList(k: nat)
      requires PoolInv(Contents()) && k < |drives| && drives[k].stage == Waiting
      requires NoSpawns(drives[k].pending)
      modifies this`slots, this`retired, this`devices, this`drives
      ensures Contents() == RunAlone(old(Contents()), k) && PoolInv(Contents())
      ensures k < |drives| && drives[k].pending == []
    {
      hide PoolInv, OneEffect;
      while drives[k].pending != []
        invariant k < |drives| && drives[k].stage == Waiting && PoolInv(Contents()) && NoSpawns(drives[k].pending)
        invariant RunAlone(Contents(), k) == RunAlone(old(Contents()), k)
        decreases |drives[k].pending|
      {
        OneEffectKeepsInv(Contents(), k);
        OneEffectList(Contents(), k);
        RunEffect(k);
      }
    }
  }

  lemma CoherentCore(p: Pool)
    requires PoolInv(p)
    ensures Coherent(p.core)
  {
  }

  predicate NoSpawns(effects: seq<ControlEffect>) {
    forall x :: 0 <= x < |effects| ==> effects[x].kind != Spawn
  }

  lemma OneEffectList(p: Pool, k: nat)
    requires Busy(p, k)
    ensures var q := OneEffect(p, k);
            && |q.drives| == |p.drives| && q.drives[k].stage == Waiting
            && |q.drives[k].pending| < |p.drives[k].pending|
            && (NoSpawns(p.drives[k].pending) ==> NoSpawns(q.drives[k].pending))
  {
  }

  /** The steps one list takes for its first effect, when nothing else runs in between. */
  function EffectSteps(p: Pool, k: nat): seq<Step>
    requires Busy(p, k)
  {
    if Awaits(Head(p, k).kind) then [Look(k), Finish(k)] else [Pass(k)]
  }

  /** The pool after the first effect of list `k` has run undisturbed. */
  function OneEffect(p: Pool, k: nat): Pool
    requires Busy(p, k)
  {
    var acts := Awaits(Head(p, k).kind) && SlotFor(p, Head(p, k).identity);
    var q := if acts then Act(p, Head(p, k)) else p;
    q.(drives := p.drives[k := Drive(p.drives[k].pending[1..] + [], Waiting)])
  }

  function RunAlone(p: Pool, k: nat): Pool
    requires k < |p.drives|
    decreases |p.drives[k].pending|
  {
    if p.drives[k].pending == [] then p else RunAlone(OneEffect(p, k), k)
  }

  lemma OneStep(p: Pool, step: Step)
    requires Enabled(p, step)
    ensures Runs(p, [step]) && AfterSteps(p, [step]) == Next(p, step)
  {
    hide Next, Enabled;
    var q := Next(p, step);
    assert [step][1..] == [];
    assert Runs(q, []) && AfterSteps(q, []) == q;
  }

  lemma TwoSteps(p: Pool, first: Step, second: Step)
    requires Enabled(p, first) && Enabled(Next(p, first), second)
    ensures Runs(p, [first, second]) && AfterSteps(p, [first, second]) == Next(Next(p, first), second)
  {
    hide Next, Enabled;
    assert [first, second][1..] == [second];
    OneStep(Next(p, first), second);
  }

  lemma LookThenFinish(p: Pool, k: nat)
    requires Busy(p, k) && p.drives[k].stage == Waiting && Awaits(Head(p, k).kind)
    ensures Enabled(p, Look(k)) && Enabled(Next(p, Look(k)), Finish(k))
    ensures Next(Next(p, Look(k)), Finish(k)) == OneEffect(p, k)
  {
    var q := Next(p, Look(k));
    var d := q.drives[k];
    ActKeeps(q, Head(p, k));
    assert q.drives[k].pending == p.drives[k].pending;
    assert p.drives[k := d][k := Drive(d.pending[1..] + [], Waiting)]
           == p.drives[k := Drive(d.pending[1..] + [], Waiting)];
  }

  lemma OneEffectIsSteps(p: Pool, k: nat)
    requires Busy(p, k) && p.drives[k].stage == Waiting && Head(p, k).kind != Spawn
    ensures var steps := EffectSteps(p, k); Runs(p, steps) && AfterSteps(p, steps) == OneEffect(p, k)
  {
    hide Runs, AfterSteps;
    if Awaits(Head(p, k).kind) {
      LookThenFinish(p, k);
      TwoSteps(p, Look(k), Finish(k));
    } else {
      OneStep(p, Pass(k));
    }
  }

  lemma OneEffectKeepsInv(p: Pool, k: nat)
    requires PoolInv(p) && Busy(p, k) && p.drives[k].stage == Waiting && Head(p, k).kind != Spawn
    ensures PoolInv(OneEffect(p, k))
  {
    hide PoolInv;
    OneEffectIsSteps(p, k);
    RunKeepsPoolInv(p, EffectSteps(p, k));
  }
}
