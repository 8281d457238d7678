/** The life of an outbox row over every run, with any number of workers, crashes anywhere and a
    requeue at every boot. Provider calls are accounted for on every row. A row has one owner, fits its
    status and is final once sent or failed as long as no requeue has taken it from a live worker;
    after that it may not, as a concrete run shows. */
module OutboxLifecycle {
  import opened Common
  import opened DeliveryPolicy
  import opened DeliveryTables
  import opened DeliveryRuns

  ghost function CallsOf(trace: seq<Event>, id: nat): nat {
    if trace == [] then 0
    else
      var e := trace[|trace| - 1];
      CallsOf(trace[..|trace| - 1], id) + (if e.ProviderCall? && e.row == id then 1 else 0)
  }

  ghost function LostOf(trace: seq<Event>, id: nat): nat {
    if trace == [] then 0
    else
      var e := trace[|trace| - 1];
      LostOf(trace[..|trace| - 1], id) + (if e.Crash? && e.lostCall == Some(id) then 1 else 0)
  }

  ghost function Crashes(trace: seq<Event>): nat {
    if trace == [] then 0
    else Crashes(trace[..|trace| - 1]) + (if trace[|trace| - 1].Crash? then 1 else 0)
  }

  ghost predicate Terminal(row: OutboxRow) {
    row.status.Sent? || row.status.Failed?
  }

  ghost predicate RowOk(row: OutboxRow) {
    match row.status
    case Sent => 1 <= row.attempts <= 5 && row.sentAt.Some?
    case Failed => row.attempts == 5
    case _ => row.attempts <= 4
  }

  /** No requeue has taken the row from a live worker. */
  ghost predicate Undisturbed(s: World, id: nat) {
    id !in Taken(s.trace)
  }

  /** A provider call for the row has been made but not yet written to it, by a worker that lives. */
  ghost predicate CallInFlight(s: World, w: nat, id: nat) {
    var k := WorkerOf(s, w);
    k.Draining? && k.queue != [] && k.queue[0] == id && !k.stage.Ready?
  }

  ghost function Flyers(s: World, id: nat): set<nat> {
    set w | w in s.workers && CallInFlight(s, w, id)
  }

  // ------------------------------------------------------------------ invariant

  ghost predicate Queues(s: World) {
    && (forall id :: id in s.t.outbox ==> id < s.t.nextId)
    && (forall w, id :: Owns(s, w, id) ==> id in s.t.outbox)
    && (forall w :: WorkerOf(s, w).Draining? ==> Distinct(WorkerOf(s, w).queue))
  }

  /** A held row is `sending`, with the attempts its owner has seen. */
  ghost predicate HeldOk(s: World, w: nat, id: nat)
    requires Owns(s, w, id)
  {
    id in s.t.outbox && s.t.outbox[id].status.Sending? && Seen(WorkerOf(s, w), id) == s.t.outbox[id].attempts
  }

  ghost predicate Claims(s: World) {
    && Queues(s)
    && (forall w, id :: Owns(s, w, id) && Undisturbed(s, id) ==> HeldOk(s, w, id))
    && (forall v, w, id :: Owns(s, v, id) && Owns(s, w, id) && Undisturbed(s, id) ==> v == w)
  }

  /** Every provider call is accounted for exactly once: as an attempt, as a call lost to a crash,
      or as one in flight. */
  ghost predicate Account(s: World, id: nat) {
    if id in s.t.outbox then CallsOf(s.trace, id) == s.t.outbox[id].attempts + LostOf(s.trace, id) + |Flyers(s, id)|
    else id >= s.t.nextId ==> CallsOf(s.trace, id) == 0 && LostOf(s.trace, id) == 0
  }

  ghost predicate Rows(s: World) {
    && (forall id :: Account(s, id))
    && (forall id :: id in s.t.outbox && Undisturbed(s, id) ==> RowOk(s.t.outbox[id]))
  }

  ghost predicate Inv(s: World) {
    Claims(s) && Rows(s)
  }

  // ------------------------------------------------------- what a step changes

  lemma TakenStep(trace: seq<Event>, e: Event)
    ensures Taken(trace + [e]) == Taken(trace) + (if e.Requeued? then e.taken else {})
  {
    assert (trace + [e])[..|trace|] == trace;
  }

  lemma StepTakes(s: World, step: Step)
    requires Enabled(s, step)
    ensures Taken(Apply(s, step).trace) == Taken(s.trace) + (if step.RequeueStale? then HeldRows(s) else {})
  {
    Traced(s, step);
    if EventOf(s, step).Some? {
      TakenStep(s.trace, EventOf(s, step).value);
    }
  }

  /** The step writes a result or a deferral to the row its worker has at hand. */
  ghost predicate WritesHead(s: World, step: Step, id: nat) {
    (step.HoldOpen? || step.HoldRate? || step.Finish?) && AtHead(s, step.w) && Head(s, step.w) == id
  }

  /** A row changes by being claimed, by a worker's result, or by a requeue. */
  lemma RowWritten(s: World, step: Step, id: nat)
    requires Enabled(s, step) && id in s.t.outbox && id < s.t.nextId
    ensures id in Apply(s, step).t.outbox
    ensures !WritesHead(s, step, id) ==>
              Apply(s, step).t.outbox[id] ==
              if step.StartDrain? && id in step.ids then s.t.outbox[id].(status := Sending)
              else if step.RequeueStale? then RequeuedRow(s.t.outbox[id])
              else s.t.outbox[id]
  {
  }

  lemma HeadWritten(s: World, step: Step, id: nat)
    requires Enabled(s, step) && WritesHead(s, step, id)
    ensures id in Apply(s, step).t.outbox
    ensures Apply(s, step).t.outbox[id] ==
            if step.Finish? then
              Answered(s.t.outbox[id], Seen(WorkerOf(s, step.w), id), WorkerOf(s, step.w).ts, WorkerOf(s, step.w).stage.ok, step.random)
            else s.t.outbox[id].(status := Deferred,
                                 nextRetryAt := if step.HoldOpen? then step.until else WorkerOf(s, step.w).ts + RATE_DEFERRAL)
  {
  }

  lemma RowAdded(s: World, step: Step, id: nat)
    requires Enabled(s, step) && id !in s.t.outbox && id in Apply(s, step).t.outbox
    ensures id == s.t.nextId && Apply(s, step).t.nextId == id + 1
    ensures Apply(s, step).t.outbox[id].status.Pending? && Apply(s, step).t.outbox[id].attempts == 0
  {
  }

  lemma IdsGrow(s: World, step: Step)
    requires Enabled(s, step)
    ensures s.t.nextId <= Apply(s, step).t.nextId
  {
  }

  /** What the moving worker holds afterwards. */
  lemma MoverOwns(s: World, step: Step, id: nat)
    requires Queues(s) && Enabled(s, step)
    requires !step.Queue? && !step.Append? && !step.RequeueStale?
    ensures Owns(Apply(s, step), step.w, id) <==>
            if step.StartDrain? then id in step.ids
            else Owns(s, step.w, id) && !step.CrashOf? && !WritesHead(s, step, id)
  {
    var k := WorkerOf(s, step.w);
    if k.Draining? && k.queue != [] {
      assert k.queue == [k.queue[0]] + k.queue[1..];
    }
  }

  /** Nobody comes to hold a row except by claiming it. */
  lemma OwnsBefore(s: World, step: Step, v: nat, id: nat)
    requires Queues(s) && Enabled(s, step) && Owns(Apply(s, step), v, id)
    ensures if step.StartDrain? && v == step.w then id in step.ids
            else Owns(s, v, id) && (WritesHead(s, step, id) ==> v != step.w)
  {
    if step.Queue? || step.Append? || step.RequeueStale? || v != step.w {
      OthersStay(s, step, v);
    } else {
      MoverOwns(s, step, id);
    }
  }

  /** A worker's reading of the attempts stays what it was. */
  lemma SeenStays(s: World, step: Step, v: nat)
    requires Enabled(s, step) && WorkerOf(Apply(s, step), v).Draining?
    ensures WorkerOf(Apply(s, step), v).seen ==
            if step.StartDrain? && v == step.w then Attempts(s.t.outbox) else WorkerOf(s, v).seen
    ensures !(step.StartDrain? && v == step.w) ==> WorkerOf(s, v).Draining?
  {
    if step.Queue? || step.Append? || step.RequeueStale? || v != step.w {
      OthersStay(s, step, v);
    }
  }

  // ------------------------------------------------------- preservation: claims

  lemma StepKeepsDistinct(s: World, step: Step, v: nat)
    requires Queues(s) && Enabled(s, step) && WorkerOf(Apply(s, step), v).Draining?
    ensures Distinct(WorkerOf(Apply(s, step), v).queue)
  {
    if step.Queue? || step.Append? || step.RequeueStale? || v != step.w {
      OthersStay(s, step, v);
    }
  }

  lemma StepKeepsQueues(s: World, step: Step)
    requires Queues(s) && Enabled(s, step)
    ensures Queues(Apply(s, step))
  {
    var s' := Apply(s, step);
    IdsGrow(s, step);
    forall id | id in s'.t.outbox
      ensures id < s'.t.nextId
    {
      if id !in s.t.outbox {
        RowAdded(s, step, id);
      }
    }
    forall w, id | Owns(s', w, id)
      ensures id in s'.t.outbox
    {
      OwnsBefore(s, step, w, id);
      RowWritten(s, step, id);
    }
    forall w | WorkerOf(s', w).Draining?
      ensures Distinct(WorkerOf(s', w).queue)
    {
      StepKeepsDistinct(s, step, w);
    }
  }

  /** A row held before and after was not touched in between. */
  lemma StepKeepsHeld(s: World, step: Step, v: nat, id: nat)
    requires Claims(s) && Enabled(s, step) && Owns(Apply(s, step), v, id) && Undisturbed(Apply(s, step), id)
    ensures HeldOk(Apply(s, step), v, id)
  {
    OwnsBefore(s, step, v, id);
    SeenStays(s, step, v);
    StepTakes(s, step);
    RowWritten(s, step, id);
    if !(step.StartDrain? && v == step.w) {
      assert HeldOk(s, v, id);
      assert step.RequeueStale? ==> id in HeldRows(s);
      if WritesHead(s, step, id) {
        assert Owns(s, step.w, id);
      }
    }
  }

  lemma StepKeepsSoleOwner(s: World, step: Step, u: nat, v: nat, id: nat)
    requires Claims(s) && Enabled(s, step) && Undisturbed(Apply(s, step), id)
    requires Owns(Apply(s, step), u, id) && Owns(Apply(s, step), v, id)
    ensures u == v
  {
    OwnsBefore(s, step, u, id);
    OwnsBefore(s, step, v, id);
    StepTakes(s, step);
    assert Owns(s, u, id) ==> HeldOk(s, u, id);
    assert Owns(s, v, id) ==> HeldOk(s, v, id);
  }

  lemma StepKeepsClaims(s: World, step: Step)
    requires Claims(s) && Enabled(s, step)
    ensures Claims(Apply(s, step))
  {
    var s' := Apply(s, step);
    StepKeepsQueues(s, step);
    forall w, id | Owns(s', w, id) && Undisturbed(s', id)
      ensures HeldOk(s', w, id)
    {
      StepKeepsHeld(s, step, w, id);
    }
    forall v, w, id | Owns(s', v, id) && Owns(s', w, id) && Undisturbed(s', id)
      ensures v == w
    {
      StepKeepsSoleOwner(s, step, v, w, id);
    }
  }

  // --------------------------------------------------------- preservation: rows

  lemma TraceStep(trace: seq<Event>, e: Event, id: nat)
    ensures CallsOf(trace + [e], id) == CallsOf(trace, id) + (if e.ProviderCall? && e.row == id then 1 else 0)
    ensures LostOf(trace + [e], id) == LostOf(trace, id) + (if e.Crash? && e.lostCall == Some(id) then 1 else 0)
  {
    assert (trace + [e])[..|trace|] == trace;
  }

  ghost predicate Sends(s: World, step: Step, id: nat) {
    step.Send? && AtHead(s, step.w) && Head(s, step.w) == id
  }

  ghost predicate Drops(s: World, step: Step, id: nat) {
    step.CrashOf? && CallInFlight(s, step.w, id)
  }

  lemma StepCalls(s: World, step: Step, id: nat)
    requires Enabled(s, step)
    ensures CallsOf(Apply(s, step).trace, id) == CallsOf(s.trace, id) + (if Sends(s, step, id) then 1 else 0)
    ensures LostOf(Apply(s, step).trace, id) == LostOf(s.trace, id) + (if Drops(s, step, id) then 1 else 0)
  {
    Traced(s, step);
    if EventOf(s, step).Some? {
      TraceStep(s.trace, EventOf(s, step).value, id);
    }
  }

  lemma MoverFlies(s: World, step: Step, id: nat)
    requires Enabled(s, step) && !step.Queue? && !step.Append? && !step.RequeueStale?
    ensures CallInFlight(Apply(s, step), step.w, id) <==>
            Sends(s, step, id) || (CallInFlight(s, step.w, id) && !step.CrashOf? && !step.Finish?)
  {
  }

  lemma StepFlies(s: World, step: Step, id: nat)
    requires Enabled(s, step)
    ensures |Flyers(Apply(s, step), id)| + (if (WritesHead(s, step, id) && step.Finish?) || Drops(s, step, id) then 1 else 0)
         == |Flyers(s, id)| + (if Sends(s, step, id) then 1 else 0)
  {
    var s' := Apply(s, step);
    if step.Queue? || step.Append? || step.RequeueStale? {
      forall v
        ensures v in Flyers(s', id) <==> v in Flyers(s, id)
      {
        OthersStay(s, step, v);
      }
      assert Flyers(s', id) == Flyers(s, id);
    } else {
      forall v | v != step.w
        ensures v in Flyers(s', id) <==> v in Flyers(s, id)
      {
        OthersStay(s, step, v);
      }
      MoverFlies(s, step, id);
      MoverCounts(Flyers(s, id), Flyers(s', id), step.w);
    }
  }

  lemma MoverCounts(a: set<nat>, b: set<nat>, w: nat)
    requires forall v :: v != w ==> (v in b <==> v in a)
    ensures |b| + (if w in a then 1 else 0) == |a| + (if w in b then 1 else 0)
  {
    assert a - {w} == b - {w};
    assert a == if w in a then (a - {w}) + {w} else a - {w};
    assert b == if w in b then (b - {w}) + {w} else b - {w};
  }

  /** Only a result counts as an attempt; a deferral does not. */
  lemma StepAttempts(s: World, step: Step, id: nat)
    requires Enabled(s, step) && id in s.t.outbox && id < s.t.nextId
    ensures id in Apply(s, step).t.outbox
    ensures Apply(s, step).t.outbox[id].attempts ==
            s.t.outbox[id].attempts + (if WritesHead(s, step, id) && step.Finish? then 1 else 0)
  {
    if WritesHead(s, step, id) {
      HeadWritten(s, step, id);
    } else {
      RowWritten(s, step, id);
    }
  }

  /** A row that does not exist is in nobody's hands. */
  lemma NobodyFlies(s: World, id: nat)
    requires Queues(s) && id !in s.t.outbox
    ensures Flyers(s, id) == {}
  {
    forall w | w in Flyers(s, id)
      ensures false
    {
      assert Owns(s, w, id);
    }
  }

  lemma StepKeepsAccount(s: World, step: Step, id: nat)
    requires Queues(s) && Account(s, id) && Enabled(s, step)
    ensures Account(Apply(s, step), id)
  {
    StepCalls(s, step, id);
    StepFlies(s, step, id);
    IdsGrow(s, step);
    if id in s.t.outbox {
      StepAttempts(s, step, id);
    } else {
      NobodyFlies(s, id);
      if id in Apply(s, step).t.outbox {
        RowAdded(s, step, id);
      }
    }
  }

  lemma StepKeepsRowOk(s: World, step: Step, id: nat)
    requires Inv(s) && Enabled(s, step)
    requires id in Apply(s, step).t.outbox && Undisturbed(Apply(s, step), id)
    ensures RowOk(Apply(s, step).t.outbox[id])
  {
    StepTakes(s, step);
    if id !in s.t.outbox {
      RowAdded(s, step, id);
    } else {
      assert RowOk(s.t.outbox[id]);
      if WritesHead(s, step, id) {
        assert Owns(s, step.w, id) && HeldOk(s, step.w, id);
        HeadWritten(s, step, id);
      } else {
        RowWritten(s, step, id);
      }
    }
  }

  lemma StepKeepsInv(s: World, step: Step)
    requires Inv(s) && Enabled(s, step)
    ensures Inv(Apply(s, step))
  {
    var s' := Apply(s, step);
    StepKeepsClaims(s, step);
    forall id
      ensures Account(s', id)
    {
      StepKeepsAccount(s, step, id);
    }
    forall id | id in s'.t.outbox && Undisturbed(s', id)
      ensures RowOk(s'.t.outbox[id])
    {
      StepKeepsRowOk(s, step, id);
    }
  }

  lemma {:induction false} RunKeepsInv(s: World, steps: seq<Step>)
    requires Inv(s) && ValidRun(s, steps)
    ensures Inv(Exec(s, steps))
    decreases |steps|
  {
    if steps != [] {
      StepKeepsInv(s, steps[0]);
      RunKeepsInv(Apply(s, steps[0]), steps[1..]);
    }
  }

  lemma EmptyInv()
    ensures Inv(EMPTY)
  {
    assert forall w :: WorkerOf(EMPTY, w).Idle?;
  }

  lemma {:induction false} LostAtMostCrashes(trace: seq<Event>, id: nat)
    ensures LostOf(trace, id) <= Crashes(trace)
  {
    if trace != [] {
      LostAtMostCrashes(trace[..|trace| - 1], id);
    }
  }

  lemma OneFlyer(s: World, id: nat)
    requires Claims(s) && Undisturbed(s, id)
    ensures |Flyers(s, id)| <= 1
  {
    if w :| w in Flyers(s, id) {
      forall v | v in Flyers(s, id)
        ensures v == w
      {
        assert Owns(s, v, id) && Owns(s, w, id);
      }
      assert Flyers(s, id) == {w};
    }
  }

  // --------------------------------------------------------------- main results

  /** Over every run: every attempt of a row is a provider call (so deferrals consume none), and its
      provider calls exceed its attempts by no more than the crashes and the calls in flight. As long
      as no requeue has taken the row from a live worker, its attempts fit its status (unfinished at
      most 4, failed exactly 5), it is `sending` while held, and one worker at most holds it. */
  lemma Lifecycle(steps: seq<Step>, id: nat)
    requires ValidRun(EMPTY, steps)
    requires id in Exec(EMPTY, steps).t.outbox
    ensures var s := Exec(EMPTY, steps); var row := s.t.outbox[id];
      && row.attempts <= CallsOf(s.trace, id) <= row.attempts + Crashes(s.trace) + |Flyers(s, id)|
      && (Undisturbed(s, id) ==>
            && RowOk(row) && |Flyers(s, id)| <= 1
            && (forall v, w :: Owns(s, v, id) && Owns(s, w, id) ==> v == w && row.status.Sending?))
  {
    EmptyInv();
    RunKeepsInv(EMPTY, steps);
    var s := Exec(EMPTY, steps);
    assert Account(s, id);
    LostAtMostCrashes(s.trace, id);
    if Undisturbed(s, id) {
      OneFlyer(s, id);
      forall v, w | Owns(s, v, id) && Owns(s, w, id)
        ensures v == w && s.t.outbox[id].status.Sending?
      {
        assert HeldOk(s, v, id);
      }
    }
  }

  lemma TerminalStep(s: World, step: Step, id: nat)
    requires Queues(s) && Enabled(s, step)
    requires id in s.t.outbox && Terminal(s.t.outbox[id]) && !Owned(s, id)
    ensures id in Apply(s, step).t.outbox && Apply(s, step).t.outbox[id] == s.t.outbox[id]
    ensures !Owned(Apply(s, step), id)
  {
    RowWritten(s, step, id);
    if WritesHead(s, step, id) {
      assert Owns(s, step.w, id);
    }
    if Owned(Apply(s, step), id) {
      var v :| Owns(Apply(s, step), v, id);
      OwnsBefore(s, step, v, id);
    }
  }

  /** `sent` and `failed` are final for a row that nobody holds: no later step of any worker, crash or
      requeue changes it. */
  lemma {:induction false} FinalUnlessHeld(s: World, steps: seq<Step>, id: nat)
    requires Queues(s) && ValidRun(s, steps)
    requires id in s.t.outbox && Terminal(s.t.outbox[id]) && !Owned(s, id)
    ensures id in Exec(s, steps).t.outbox && Exec(s, steps).t.outbox[id] == s.t.outbox[id]
    decreases |steps|
  {
    if steps != [] {
      TerminalStep(s, steps[0], id);
      StepKeepsQueues(s, steps[0]);
      FinalUnlessHeld(Apply(s, steps[0]), steps[1..], id);
    }
  }

  /** In particular for a row that no requeue has taken from a live worker so far. */
  lemma TerminalForever(s: World, steps: seq<Step>, id: nat)
    requires Inv(s) && ValidRun(s, steps)
    requires id in s.t.outbox && Terminal(s.t.outbox[id]) && Undisturbed(s, id)
    ensures id in Exec(s, steps).t.outbox && Exec(s, steps).t.outbox[id] == s.t.outbox[id]
  {
    assert forall w :: Owns(s, w, id) ==> HeldOk(s, w, id);
    FinalUnlessHeld(s, steps, id);
  }

  lemma Before(s: World, step: Step, rest: seq<Step>) returns (steps: seq<Step>)
    requires Enabled(s, step) && ValidRun(Apply(s, step), rest)
    ensures ValidRun(s, steps) && Exec(s, steps) == Exec(Apply(s, step), rest)
  {
    steps := [step] + rest;
    assert steps[1..] == rest;
  }

  /** What a worker can do next with the row it has at hand. */
  ghost function NextStep(s: World, w: nat): Step {
    match WorkerOf(s, w)
    case Draining(_, _, _, Ready, _) => HoldOpen(w, ZERO_TIME)
    case Draining(_, _, _, Called(_), _) => Note(w, Breaker(0, None))
    case _ => Finish(w, 0)
  }

  /** And only then: a terminal row that a worker still holds can be changed by that worker. */
  lemma {:induction false} HeldCanChange(s: World, w: nat, id: nat) returns (steps: seq<Step>)
    requires Queues(s) && Owns(s, w, id) && Terminal(s.t.outbox[id])
    ensures ValidRun(s, steps)
    ensures id in Exec(s, steps).t.outbox && Exec(s, steps).t.outbox[id] != s.t.outbox[id]
    decreases |WorkerOf(s, w).queue|, if WorkerOf(s, w).stage.Called? then 1 else 0
  {
    var step, head := NextStep(s, w), WorkerOf(s, w).queue[0];
    assert Owns(s, w, head);
    var s' := Apply(s, step);
    if WritesHead(s, step, id) {
      HeadWritten(s, step, id);
      steps := Before(s, step, []);
    } else {
      RowWritten(s, step, id);
      StepKeepsQueues(s, step);
      MoverOwns(s, step, id);
      var rest := HeldCanChange(s', w, id);
      steps := Before(s, step, rest);
    }
  }

  /** Such a row is reachable: instance 0 claims a row and calls the provider; instance 1 boots,
      requeues the row, claims it and calls the provider again; instance 0 writes `sent`. Two calls
      were made, instance 1 still holds the row, and what it does next can reopen it. */
  lemma RequeueReopens(pol: Policy) returns (steps: seq<Step>, more: seq<Step>)
    ensures ValidRun(EMPTY, steps) && ValidRun(Exec(EMPTY, steps), more)
    ensures var s := Exec(EMPTY, steps);
      && 0 in s.t.outbox && s.t.outbox[0].status.Sent? && CallsOf(s.trace, 0) >= 2 && Owns(s, 1, 0)
      && 0 in Exec(s, more).t.outbox && Exec(s, more).t.outbox[0] != s.t.outbox[0]
  {
    var first, s1 := TakenFromZero(pol);
    var second, s2 := ClaimedTwice(s1, pol);
    Then(EMPTY, first, second);
    steps := first + second;
    EmptyInv();
    RunKeepsInv(EMPTY, steps);
    assert Account(s2, 0) && 1 in Flyers(s2, 0);
    more := HeldCanChange(s2, 1, 0);
  }

  /** A world with one outbox row and the given workers. */
  ghost predicate Scene(s: World, row: OutboxRow, workers: map<nat, Worker>) {
    s.t.outbox == map[0 := row] && s.workers == workers
  }

  lemma SceneDrain(s: World, row: OutboxRow, workers: map<nat, Worker>, w: nat, pol: Policy) returns (s': World)
    requires Scene(s, row, workers) && w !in workers && Due(row, 1)
    ensures Enabled(s, StartDrain(w, 1, pol, [0])) && s' == Apply(s, StartDrain(w, 1, pol, [0]))
    ensures Scene(s', row.(status := Sending), workers[w := Draining(1, pol, [0], Ready, map[0 := row.attempts])])
  {
    s' := Apply(s, StartDrain(w, 1, pol, [0]));
    assert Attempts(s.t.outbox) == map[0 := row.attempts];
    assert s'.t.outbox == map[0 := row.(status := Sending)];
  }

  lemma SceneSend(s: World, row: OutboxRow, workers: map<nat, Worker>, w: nat, ok: bool) returns (s': World)
    requires Scene(s, row, workers) && w in workers
    requires workers[w].Draining? && workers[w].queue == [0] && workers[w].stage == Ready
    ensures Enabled(s, Send(w, ok)) && s' == Apply(s, Send(w, ok))
    ensures Scene(s', row, workers[w := workers[w].(stage := Called(ok))])
  {
    s' := Apply(s, Send(w, ok));
  }

  lemma SceneRequeue(s: World, row: OutboxRow, workers: map<nat, Worker>) returns (s': World)
    requires Scene(s, row, workers)
    ensures s' == Apply(s, RequeueStale) && Scene(s', RequeuedRow(row), workers)
  {
    s' := Apply(s, RequeueStale);
  }

  lemma SceneFinish(s: World, row: OutboxRow, workers: map<nat, Worker>, w: nat) returns (s1: World, s': World)
    requires Scene(s, row, workers) && w in workers
    requires workers[w].Draining? && workers[w].queue == [0] && workers[w].stage == Called(true)
    ensures Enabled(s, Note(w, Breaker(0, None))) && s1 == Apply(s, Note(w, Breaker(0, None)))
    ensures Enabled(s1, Finish(w, 0)) && s' == Apply(s1, Finish(w, 0))
    ensures s'.t.outbox.Keys == {0} && s'.t.outbox[0].status.Sent? && s'.t.outbox[0].attempts == row.attempts + 1
    ensures forall v :: v != w ==> WorkerOf(s', v) == WorkerOf(s, v)
  {
    s1 := Apply(s, Note(w, Breaker(0, None)));
    s' := Apply(s1, Finish(w, 0));
  }

  lemma TakenFromZero(pol: Policy) returns (steps: seq<Step>, s': World)
    ensures ValidRun(EMPTY, steps) && Exec(EMPTY, steps) == s'
    ensures Scene(s', NEW_ROW, map[0 := Draining(1, pol, [0], Called(true), map[0 := 0])])
  {
    var queue := Queue(NEW_ROW.origin, Email, 1);
    var s1 := Apply(EMPTY, queue);
    assert Scene(s1, NEW_ROW, map[]);
    var s2 := SceneDrain(s1, NEW_ROW, map[], 0, pol);
    var s3 := SceneSend(s2, NEW_ROW.(status := Sending), s2.workers, 0, true);
    s' := SceneRequeue(s3, NEW_ROW.(status := Sending), s3.workers);
    steps := Before(s3, RequeueStale, []);
    steps := Before(s2, Send(0, true), steps);
    steps := Before(s1, StartDrain(0, 1, pol, [0]), steps);
    steps := Before(EMPTY, queue, steps);
  }

  const NEW_ROW: OutboxRow := OutboxRow(Incident("disk", Critical), Email, Pending, 0, 1, None)

  lemma ClaimedTwice(s: World, pol: Policy) returns (steps: seq<Step>, s': World)
    requires Scene(s, NEW_ROW, map[0 := Draining(1, pol, [0], Called(true), map[0 := 0])])
    ensures ValidRun(s, steps) && Exec(s, steps) == s'
    ensures s'.t.outbox.Keys == {0} && s'.t.outbox[0].status.Sent? && s'.t.outbox[0].attempts == 1
    ensures Owns(s', 1, 0) && CallInFlight(s', 1, 0)
  {
    var s1 := SceneDrain(s, NEW_ROW, s.workers, 1, pol);
    var s2 := SceneSend(s1, NEW_ROW.(status := Sending), s1.workers, 1, false);
    var s3, s4 := SceneFinish(s2, NEW_ROW.(status := Sending), s2.workers, 0);
    s' := s4;
    assert WorkerOf(s', 1) == WorkerOf(s2, 1);
    steps := Before(s3, Finish(0, 0), []);
    steps := Before(s2, Note(0, Breaker(0, None)), steps);
    steps := Before(s1, Send(1, false), steps);
    steps := Before(s, StartDrain(1, 1, pol, [0]), steps);
  }

  lemma {:induction false} Then(s: World, a: seq<Step>, b: seq<Step>)
    requires ValidRun(s, a) && ValidRun(Exec(s, a), b)
    ensures ValidRun(s, a + b) && Exec(s, a + b) == Exec(Exec(s, a), b)
    decreases |a|
  {
    if a == [] {
      assert a + b == b;
    } else {
      Then(Apply(s, a[0]), a[1..], b);
      assert (a + b)[1..] == a[1..] + b;
    }
  }
}
