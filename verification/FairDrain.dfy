/** Fair replies drain the reducer: when every starting slot is answered with READY and every
    running slot with its result, round after round, the pool becomes idle within a bound. */
module FairDrain {
  import opened Wrappers
  import opened Reducer
  import opened CoreLaws

  /** The reply a fair peer gives to the slot it saw; `verdict` says whether the job went well. */
  function Answer(c: Core, slot: ControlSlot, verdict: string -> bool): Core {
    match slot.state
    case Starting => Reduce(c, ControlEvent(Ready, identity := Some(slot.identity))).0
    case Running =>
      if slot.job.None? then c
      else
        Reduce(c, ControlEvent(WorkResult, identity := Some(slot.identity), job := slot.job,
                               ok := verdict(slot.job.value))).0
    case _ => c
  }

  /** Answer the slots seen at the start of a round, in table order. */
  function Round(c: Core, seen: seq<Entry>, verdict: string -> bool): Core
    decreases |seen|
  {
    if seen == [] then c else Round(Answer(c, seen[0].slot, verdict), seen[1..], verdict)
  }

  function Rounds(c: Core, n: nat, verdict: string -> bool): Core
    decreases n
  {
    if n == 0 then c else Rounds(Round(c, c.slots, verdict), n - 1, verdict)
  }

  ghost predicate Drained(c: Core) {
    c.queue == [] && forall i :: 0 <= i < |c.slots| ==> c.slots[i].slot.state == Idle
  }

  function Weight(slots: seq<Entry>): nat {
    if slots == [] then 0
    else (if slots[0].slot.state == Starting then 2 else if slots[0].slot.state == Running then 1 else 0)
         + Weight(slots[1..])
  }

  function Measure(c: Core): nat {
    |c.queue| + Weight(c.slots)
  }

  lemma {:induction false} WeightReplace(slots: seq<Entry>, i: nat, entry: Entry)
    requires i < |slots|
    ensures Weight(slots[i := entry]) == Weight(slots) - Weight([slots[i]]) + Weight([entry])
  {
    if i == 0 {
      assert slots[0 := entry][1..] == slots[1..];
    } else {
      assert slots[i := entry][1..] == slots[1..][i - 1 := entry];
      WeightReplace(slots[1..], i - 1, entry);
    }
  }

  lemma {:induction false} WeightBound(slots: seq<Entry>)
    ensures Weight(slots) <= 2 * |slots|
  {
    if slots != [] {
      WeightBound(slots[1..]);
    }
  }

  /** A job moves from the queue to a slot without changing the work left. */
  lemma {:induction false} DispatchWeight(slots: seq<Entry>, queue: seq<string>)
    ensures var d := Dispatch(slots, queue); |d.queue| + Weight(d.slots) == |queue| + Weight(slots)
  {
    if slots == [] || queue == [] {
    } else {
      var rest := if slots[0].slot.state != Idle then queue else queue[1..];
      DispatchWeight(slots[1..], rest);
      assert Dispatch(slots, queue).slots[1..] == Dispatch(slots[1..], rest).slots;
    }
  }

  /** What a reply leaves alone: the mode, the target, the pending spawns and who lives where. */
  ghost predicate SamePool(c: Core, d: Core) {
    && d.closing == c.closing && d.target == c.target && d.pending == c.pending
    && SameIdentities(c.slots, d.slots)
  }

  ghost predicate Open(c: Core) {
    Inv(c) && !c.closing && c.pending == {}
  }

  lemma SettleSlot(c: Core, i: nat, slot: ControlSlot)
    requires Inv(c) && i < |c.slots|
    requires slot.identity == c.slots[i].slot.identity && slot.state == Idle
    ensures var c1 := c.(slots := c.slots[i := Entry(c.slots[i].fd, slot)]);
            var d := Dispatch(c1.slots, c1.queue);
            var c2 := c1.(slots := d.slots, queue := d.queue);
            SamePool(c, c2) && Measure(c2) == Measure(c) - Weight([c.slots[i]])
  {
    var entry := Entry(c.slots[i].fd, slot);
    var slots := c.slots[i := entry];
    WeightReplace(c.slots, i, entry);
    DispatchWeight(slots, c.queue);
    DispatchEntries(slots, c.queue);
    hide Dispatch, Weight, Inv;
    assert Weight([entry]) == 0 by { WeightOne(entry); }
  }

  lemma WeightOne(entry: Entry)
    ensures Weight([entry]) == if entry.slot.state == Starting then 2 else if entry.slot.state == Running then 1 else 0
  {
    assert [entry][1..] == [];
  }

  /** A reply to a slot as it now stands lessens the work left; any other reply is a no-op. */
  lemma AnswerStep(c: Core, slot: ControlSlot, verdict: string -> bool)
    requires Open(c)
    ensures var c' := Answer(c, slot, verdict);
            && Open(c') && SamePool(c, c') && Measure(c') <= Measure(c)
            && (Find(c.slots, Some(slot.identity)) == Some(slot) && (slot.state == Starting || slot.state == Running)
                ==> Measure(c') < Measure(c))
  {
    var found := Find(c.slots, Some(slot.identity));
    var i := KeyIndex(c.slots, slot.identity.fd);
    if found.Some? {
      assert EntryOk(c, c.slots[i]);
      WeightOne(c.slots[i]);
    }
    if slot.state == Starting {
      var e := ControlEvent(Ready, identity := Some(slot.identity));
      ReduceKeepsInv(c, e);
      if Speaks(c, e) {
        SettleSlot(c, i, found.value.(state := Idle));
      } else {
        StaleMessageIsNoOp(c, e);
      }
    } else if slot.state == Running && slot.job.Some? {
      var e := ControlEvent(WorkResult, identity := Some(slot.identity), job := slot.job,
                            ok := verdict(slot.job.value));
      ReduceKeepsInv(c, e);
      if Speaks(c, e) {
        SettleSlot(c, i, found.value.(state := Idle, job := None));
      } else {
        StaleMessageIsNoOp(c, e);
      }
    }
  }

  lemma {:induction false} RoundNeverAdds(c: Core, seen: seq<Entry>, verdict: string -> bool)
    requires Open(c)
    ensures var c' := Round(c, seen, verdict); Open(c') && SamePool(c, c') && Measure(c') <= Measure(c)
    decreases |seen|
  {
    if seen != [] {
      AnswerStep(c, seen[0].slot, verdict);
      RoundNeverAdds(Answer(c, seen[0].slot, verdict), seen[1..], verdict);
    }
  }

  /** A round that sees a slot still at work, as it stands, lessens the work left. */
  lemma {:induction false} RoundProgress(c: Core, seen: seq<Entry>, verdict: string -> bool, i: nat)
    requires Open(c) && i < |seen|
    requires forall k :: 0 <= k < i ==> seen[k].slot.state == Idle
    requires seen[i].slot.state == Starting || seen[i].slot.state == Running
    requires Find(c.slots, Some(seen[i].slot.identity)) == Some(seen[i].slot)
    ensures Measure(Round(c, seen, verdict)) < Measure(c)
    decreases |seen|
  {
    AnswerStep(c, seen[0].slot, verdict);
    if i == 0 {
      RoundNeverAdds(Answer(c, seen[0].slot, verdict), seen[1..], verdict);
    } else {
      RoundProgress(c, seen[1..], verdict, i - 1);
    }
  }

  lemma {:induction false} FirstBusy(slots: seq<Entry>) returns (i: nat)
    requires exists k :: 0 <= k < |slots| && slots[k].slot.state != Idle
    ensures i < |slots| && slots[i].slot.state != Idle
    ensures forall k :: 0 <= k < i ==> slots[k].slot.state == Idle
  {
    if slots[0].slot.state != Idle {
      i := 0;
    } else {
      var k :| 0 <= k < |slots| && slots[k].slot.state != Idle;
      assert slots[1..][k - 1] == slots[k];
      i := FirstBusy(slots[1..]);
      i := i + 1;
    }
  }

  lemma RoundShrinks(c: Core, verdict: string -> bool)
    requires Open(c) && c.slots != [] && !Drained(c)
    ensures var c' := Round(c, c.slots, verdict); Open(c') && SamePool(c, c') && Measure(c') < Measure(c)
  {
    RoundNeverAdds(c, c.slots, verdict);
    assert c.slots[0].slot.state != Idle || c.queue == [];
    var i := FirstBusy(c.slots);
    assert EntryOk(c, c.slots[i]);
    KeyIndexIs(c.slots, i);
    assert Find(c.slots, Some(c.slots[i].slot.identity)) == Some(c.slots[i].slot);
    RoundProgress(c, c.slots, verdict, i);
  }

  lemma {:induction false} IdleRound(c: Core, seen: seq<Entry>, verdict: string -> bool)
    requires forall k :: 0 <= k < |seen| ==> seen[k].slot.state == Idle
    ensures Round(c, seen, verdict) == c
    decreases |seen|
  {
    if seen != [] {
      IdleRound(c, seen[1..], verdict);
    }
  }

  lemma {:induction false} DrainsByMeasure(c: Core, n: nat, verdict: string -> bool)
    requires Open(c) && c.slots != [] && Measure(c) <= n
    ensures var f := Rounds(c, n, verdict); Open(f) && SamePool(c, f) && Drained(f)
    decreases n
  {
    if Drained(c) {
      if n > 0 {
        IdleRound(c, c.slots, verdict);
        DrainsByMeasure(c, n - 1, verdict) by { assert Measure(c) == 0 by { DrainedMeasure(c); } }
      }
    } else {
      RoundShrinks(c, verdict);
      DrainsByMeasure(Round(c, c.slots, verdict), n - 1, verdict);
    }
  }

  lemma {:induction false} IdleWeight(slots: seq<Entry>)
    requires forall k :: 0 <= k < |slots| ==> slots[k].slot.state == Idle
    ensures Weight(slots) == 0
  {
    if slots != [] {
      IdleWeight(slots[1..]);
    }
  }

  lemma DrainedMeasure(c: Core)
    requires Drained(c)
    ensures Measure(c) == 0
  {
    IdleWeight(c.slots);
  }

  /** From every open state with a live slot and no spawn outstanding, at most
      |queue| + |slots| + target fair rounds leave every slot idle and the queue empty, with the
      same processes alive; whatever the verdicts on the jobs. */
  lemma FairDrainBound(c: Core, verdict: string -> bool)
    requires Inv(c) && !c.closing && c.pending == {} && c.slots != []
    ensures var f := Rounds(c, |c.queue| + |c.slots| + c.target, verdict);
            Inv(f) && Drained(f) && SameIdentities(c.slots, f.slots)
  {
    WeightBound(c.slots);
    DrainsByMeasure(c, |c.queue| + |c.slots| + c.target, verdict);
  }
}
