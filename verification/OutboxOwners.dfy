/** Where the rows in `sending` are, over every run with any number of workers, crashes anywhere and
    a requeue at every boot: each is held by a worker, or was dropped by a crash that no requeue has
    repaired yet. */
module OutboxOwners {
  import opened DeliveryRuns
  import opened OutboxLifecycle

  /** Rows whose worker crashed since the last requeue. */
  ghost function Dropped(trace: seq<Event>): set<nat> {
    if trace == [] then {}
    else
      var before := Dropped(trace[..|trace| - 1]);
      match trace[|trace| - 1]
      case Crash(_, lostRows, _) => before + set id | id in lostRows
      case Requeued(_) => {}
      case _ => before
  }

  /** A `sending` row is held or dropped; a row that no requeue has taken from a live worker is so
      exactly then, and never both. */
  ghost predicate OwnerOk(s: World, id: nat) {
    && (id in s.t.outbox && s.t.outbox[id].status.Sending? ==> Owned(s, id) || id in Dropped(s.trace))
    && (Undisturbed(s, id) ==>
          && !(Owned(s, id) && id in Dropped(s.trace))
          && (Owned(s, id) || id in Dropped(s.trace) ==> id in s.t.outbox && s.t.outbox[id].status.Sending?))
  }

  ghost predicate Owners(s: World) {
    Inv(s) && forall id :: OwnerOk(s, id)
  }

  lemma DroppedStep(trace: seq<Event>, e: Event)
    ensures Dropped(trace + [e]) ==
            match e
            case Crash(_, lostRows, _) => Dropped(trace) + (set id | id in lostRows)
            case Requeued(_) => {}
            case _ => Dropped(trace)
  {
    assert (trace + [e])[..|trace|] == trace;
  }

  lemma StepDrops(s: World, step: Step, id: nat)
    requires Enabled(s, step)
    ensures id in Dropped(Apply(s, step).trace) <==>
            !step.RequeueStale? && (id in Dropped(s.trace) || (step.CrashOf? && Owns(s, step.w, id)))
  {
    Traced(s, step);
    if EventOf(s, step).Some? {
      DroppedStep(s.trace, EventOf(s, step).value);
    }
  }

  lemma OwnedSame(s: World, step: Step, w: nat, id: nat)
    requires Enabled(s, step)
    requires !(step.Queue? || step.Append? || step.RequeueStale?) ==> w == step.w
    requires Owns(s, w, id) <==> Owns(Apply(s, step), w, id)
    ensures Owned(s, id) <==> Owned(Apply(s, step), id)
  {
    var s' := Apply(s, step);
    if Owned(s, id) {
      var v :| Owns(s, v, id);
      if v != w {
        OthersStay(s, step, v);
      }
      assert Owns(s', v, id);
    }
    if Owned(s', id) {
      var v :| Owns(s', v, id);
      if v != w {
        OthersStay(s, step, v);
      }
      assert Owns(s, v, id);
    }
  }

  lemma OutsideKeepsOwner(s: World, step: Step, id: nat)
    requires Owners(s) && Enabled(s, step)
    requires step.Queue? || step.Append? || step.RequeueStale?
    ensures OwnerOk(Apply(s, step), id)
  {
    assert OwnerOk(s, id);
    StepDrops(s, step, id);
    StepTakes(s, step);
    OthersStay(s, step, 0);
    OwnedSame(s, step, 0, id);
    if id in s.t.outbox {
      RowWritten(s, step, id);
    } else if id in Apply(s, step).t.outbox {
      RowAdded(s, step, id);
    }
    if step.RequeueStale? && Owned(s, id) {
      var v :| Owns(s, v, id);
      assert id in HeldRows(s);
    }
  }

  /** The worker that moves held the row: it keeps it, drops it, or writes it. */
  lemma HolderKeepsOwner(s: World, step: Step, id: nat)
    requires Owners(s) && Enabled(s, step)
    requires !step.Queue? && !step.Append? && !step.RequeueStale? && Owns(s, step.w, id)
    ensures OwnerOk(Apply(s, step), id)
  {
    var s' := Apply(s, step);
    assert OwnerOk(s, id);
    StepDrops(s, step, id);
    StepTakes(s, step);
    MoverOwns(s, step, id);
    if WritesHead(s, step, id) {
      HeadWritten(s, step, id);
    } else {
      RowWritten(s, step, id);
    }
    if Undisturbed(s, id) && Owned(s', id) {
      var v :| Owns(s', v, id);
      OwnsBefore(s, step, v, id);
    }
  }

  lemma OtherKeepsOwner(s: World, step: Step, id: nat)
    requires Owners(s) && Enabled(s, step)
    requires !step.Queue? && !step.Append? && !step.RequeueStale? && !Owns(s, step.w, id)
    ensures OwnerOk(Apply(s, step), id)
  {
    assert OwnerOk(s, id);
    StepDrops(s, step, id);
    StepTakes(s, step);
    MoverOwns(s, step, id);
    if !(step.StartDrain? && id in step.ids) {
      OwnedSame(s, step, step.w, id);
    }
    if id in s.t.outbox {
      RowWritten(s, step, id);
    } else if id in Apply(s, step).t.outbox {
      RowAdded(s, step, id);
    }
  }

  lemma StepKeepsOwners(s: World, step: Step)
    requires Owners(s) && Enabled(s, step)
    ensures Owners(Apply(s, step))
  {
    StepKeepsInv(s, step);
    forall id
      ensures OwnerOk(Apply(s, step), id)
    {
      if step.Queue? || step.Append? || step.RequeueStale? {
        OutsideKeepsOwner(s, step, id);
      } else if Owns(s, step.w, id) {
        HolderKeepsOwner(s, step, id);
      } else {
        OtherKeepsOwner(s, step, id);
      }
    }
  }

  lemma {:induction false} RunKeepsOwners(s: World, steps: seq<Step>)
    requires Owners(s) && ValidRun(s, steps)
    ensures Owners(Exec(s, steps))
    decreases |steps|
  {
    if steps != [] {
      StepKeepsOwners(s, steps[0]);
      RunKeepsOwners(Apply(s, steps[0]), steps[1..]);
    }
  }

  /** A `sending` row is held by a worker, or a crash dropped it and no requeue has happened since. As
      long as no requeue has taken the row from a live worker it is `sending` exactly then, not both
      held and dropped, and held by one worker at most. */
  lemma SendingIsAccountedFor(steps: seq<Step>, id: nat)
    requires ValidRun(EMPTY, steps)
    ensures var s := Exec(EMPTY, steps);
      var sending, dropped := id in s.t.outbox && s.t.outbox[id].status.Sending?, id in Dropped(s.trace);
      && (sending ==> Owned(s, id) || dropped)
      && (Undisturbed(s, id) ==>
            && (Owned(s, id) || dropped ==> sending)
            && !(Owned(s, id) && dropped)
            && (forall v, w :: Owns(s, v, id) && Owns(s, w, id) ==> v == w))
  {
    EmptyInv();
    assert forall i :: !Owned(EMPTY, i);
    RunKeepsOwners(EMPTY, steps);
    assert OwnerOk(Exec(EMPTY, steps), id);
  }
}
