/** The hourly rate budget over every run of a single worker whose clock never runs backwards. */
module RateLimit {
  import opened Common
  import opened DeliveryPolicy
  import opened DeliveryTables
  import opened DeliveryRuns

  /** Rows of the channel sent in the hour that ends at `at`. */
  ghost function SentInHour(t: Tables, ch: Channel, at: Time): set<nat> {
    set id | id in t.outbox && SentWithin(t.outbox[id], ch, at - HOUR) && t.outbox[id].sentAt.value <= at
  }

  /** The hourly budget of a channel. */
  function PerHour(pol: Policy, ch: Channel): int {
    match ch
    case Email => pol.emailPerHour
    case Telegram => pol.telegramPerHour
  }

  /** Every policy a drain of the run loads grants the channel at most `bound`. */
  ghost predicate Grants(steps: seq<Step>, ch: Channel, bound: int) {
    forall i :: 0 <= i < |steps| && steps[i].StartDrain? ==> PerHour(steps[i].pol, ch) <= bound
  }

  ghost predicate Inv(s: World, ch: Channel, bound: int) {
    && (forall at :: |SentInHour(s.t, ch, at)| <= bound)
    && (forall id :: id in s.t.outbox ==> id < s.t.nextId)
    && (forall id :: id in s.t.outbox && s.t.outbox[id].sentAt.Some? ==> s.t.outbox[id].sentAt.value <= s.clock)
    && WorkerInv(s, ch, bound)
  }

  ghost predicate WorkerInv(s: World, ch: Channel, bound: int) {
    var k := WorkerOf(s, 0);
    k.Draining? ==>
      && k.pol.BudgetFor(ch) <= bound
      && k.ts <= s.clock
      && (forall id :: id in k.queue ==> id in s.t.outbox)
      && (forall id :: id in s.t.outbox && s.t.outbox[id].sentAt.Some? ==> s.t.outbox[id].sentAt.value <= k.ts)
      && RoomLeft(s, ch, bound)
  }

  /** While a provider call is being accounted for, the trailing hour has room for it. */
  ghost predicate RoomLeft(s: World, ch: Channel, bound: int) {
    var k := WorkerOf(s, 0);
    AtHead(s, 0) && !k.stage.Ready? && HeadRow(s, 0).channel == ch ==> |RecentlySent(s.t, ch, k.ts)| < bound
  }

  /** Steps that send nothing leave the sent rows of every hour as they are, or drop some. */
  lemma NothingSent(s: World, step: Step, ch: Channel, bound: int, at: Time)
    requires Inv(s, ch, bound) && Enabled(s, step) && !(step.Finish? && WorkerOf(s, step.w).stage.ok)
    ensures SentInHour(Apply(s, step).t, ch, at) <= SentInHour(s.t, ch, at)
    ensures RecentlySent(Apply(s, step).t, ch, at) <= RecentlySent(s.t, ch, at)
  {
  }

  /** The send itself: the hours that contain it held fewer than the budget before. */
  lemma OneSent(s: World, step: Step, ch: Channel, bound: int, at: Time)
    requires Inv(s, ch, bound) && Enabled(s, step) && SoleStep(s, step)
    requires step.Finish? && WorkerOf(s, 0).stage.ok
    ensures |SentInHour(Apply(s, step).t, ch, at)| <= bound
  {
    var s', id, k := Apply(s, step), Head(s, 0), WorkerOf(s, 0);
    var after, before := SentInHour(s'.t, ch, at), SentInHour(s.t, ch, at);
    if id in after && HeadRow(s, 0).channel == ch {
      var recent := RecentlySent(s.t, ch, k.ts);
      assert after - {id} <= recent;
      SubsetCard(after - {id}, recent);
    } else {
      assert after <= before;
      SubsetCard(after, before);
    }
  }

  lemma StepKeepsHours(s: World, step: Step, ch: Channel, bound: int, at: Time)
    requires Inv(s, ch, bound) && Enabled(s, step) && SoleStep(s, step)
    ensures |SentInHour(Apply(s, step).t, ch, at)| <= bound
  {
    if step.Finish? && WorkerOf(s, 0).stage.ok {
      OneSent(s, step, ch, bound, at);
    } else {
      NothingSent(s, step, ch, bound, at);
      SubsetCard(SentInHour(Apply(s, step).t, ch, at), SentInHour(s.t, ch, at));
    }
  }

  /** A sent stamp is an old one, or the time of the drain that sent the row. */
  lemma StampAfter(s: World, step: Step, id: nat)
    requires Enabled(s, step) && id in Apply(s, step).t.outbox && Apply(s, step).t.outbox[id].sentAt.Some?
    ensures (id in s.t.outbox && s.t.outbox[id].sentAt == Apply(s, step).t.outbox[id].sentAt)
         || (step.Finish? && Apply(s, step).t.outbox[id].sentAt == Some(WorkerOf(s, step.w).ts))
  {
  }

  lemma IdAfter(s: World, step: Step, id: nat)
    requires Enabled(s, step) && id in Apply(s, step).t.outbox
    ensures id in s.t.outbox || id == s.t.nextId
    ensures s.t.nextId <= Apply(s, step).t.nextId && (id !in s.t.outbox ==> id < Apply(s, step).t.nextId)
  {
  }

  lemma ClockAfter(s: World, step: Step)
    requires Enabled(s, step) && SoleStep(s, step)
    ensures s.clock <= Apply(s, step).clock
  {
  }

  lemma StepKeepsStamps(s: World, step: Step, ch: Channel, bound: int)
    requires Inv(s, ch, bound) && Enabled(s, step) && SoleStep(s, step)
    ensures var s' := Apply(s, step);
      && s.clock <= s'.clock
      && (forall id :: id in s'.t.outbox ==> id < s'.t.nextId)
      && (forall id :: id in s'.t.outbox && s'.t.outbox[id].sentAt.Some? ==> s'.t.outbox[id].sentAt.value <= s'.clock)
  {
    var s' := Apply(s, step);
    ClockAfter(s, step);
    forall id | id in s'.t.outbox
      ensures id < s'.t.nextId
    {
      IdAfter(s, step, id);
    }
    forall id | id in s'.t.outbox && s'.t.outbox[id].sentAt.Some?
      ensures s'.t.outbox[id].sentAt.value <= s'.clock
    {
      StampAfter(s, step, id);
    }
  }

  /** The budget was checked just before the call, and only this worker sends. */
  lemma StepKeepsRoom(s: World, step: Step, ch: Channel, bound: int)
    requires Inv(s, ch, bound) && Enabled(s, step) && SoleStep(s, step)
    requires WorkerOf(Apply(s, step), 0).Draining?
    ensures RoomLeft(Apply(s, step), ch, bound)
  {
    var s' := Apply(s, step);
    var k := WorkerOf(s', 0);
    if AtHead(s', 0) && !k.stage.Ready? && HeadRow(s', 0).channel == ch {
      InFlightBefore(s, step);
      assert |RecentlySent(s.t, ch, k.ts)| < bound;
      NothingSent(s, step, ch, bound, k.ts);
      SubsetCard(RecentlySent(s'.t, ch, k.ts), RecentlySent(s.t, ch, k.ts));
    }
  }

  /** A call that is in flight after a step was so before, or the step is the call. */
  lemma InFlightBefore(s: World, step: Step)
    requires Enabled(s, step) && SoleStep(s, step)
    requires forall id :: id in s.t.outbox ==> id < s.t.nextId
    requires WorkerOf(Apply(s, step), 0).Draining? && AtHead(Apply(s, step), 0) && !WorkerOf(Apply(s, step), 0).stage.Ready?
    ensures var s' := Apply(s, step);
            && !step.Finish? && WorkerOf(s, 0).Draining?
            && WorkerOf(s', 0) == WorkerOf(s, 0).(stage := WorkerOf(s', 0).stage)
            && (WorkerOf(s, 0).queue[0] in s.t.outbox ==> HeadRow(s', 0).channel == s.t.outbox[WorkerOf(s, 0).queue[0]].channel)
            && (step.Send? || !WorkerOf(s, 0).stage.Ready?)
  {
  }

  lemma StepKeepsWorker(s: World, step: Step, ch: Channel, bound: int)
    requires Inv(s, ch, bound) && Enabled(s, step) && SoleStep(s, step)
    requires step.StartDrain? ==> step.pol.BudgetFor(ch) <= bound
    ensures WorkerInv(Apply(s, step), ch, bound)
  {
    if WorkerOf(Apply(s, step), 0).Draining? {
      StepKeepsRoom(s, step, ch, bound);
    }
  }

  lemma StepKeepsInv(s: World, step: Step, ch: Channel, bound: int)
    requires Inv(s, ch, bound) && Enabled(s, step) && SoleStep(s, step)
    requires step.StartDrain? ==> step.pol.BudgetFor(ch) <= bound
    ensures Inv(Apply(s, step), ch, bound)
  {
    forall at
      ensures |SentInHour(Apply(s, step).t, ch, at)| <= bound
    {
      StepKeepsHours(s, step, ch, bound, at);
    }
    StepKeepsStamps(s, step, ch, bound);
    StepKeepsWorker(s, step, ch, bound);
  }

  lemma {:induction false} RunKeepsInv(s: World, steps: seq<Step>, ch: Channel, bound: int)
    requires Inv(s, ch, bound) && ValidRun(s, steps) && SoleRun(s, steps) && Grants(steps, ch, bound)
    ensures Inv(Exec(s, steps), ch, bound)
    decreases |steps|
  {
    if steps != [] {
      StepKeepsInv(s, steps[0], ch, bound);
      assert Grants(steps[1..], ch, bound);
      RunKeepsInv(Apply(s, steps[0]), steps[1..], ch, bound);
    }
  }

  /** The channel's rows with status `sent` and `after` < `sent_at` <= `upto`. */
  function SentBetween(outbox: map<nat, OutboxRow>, ch: Channel, after: Time, upto: Time): set<nat> {
    set id | id in outbox && outbox[id].channel == ch && outbox[id].status == Sent
             && outbox[id].sentAt.Some? && after < outbox[id].sentAt.value <= upto
  }

  lemma HourColumns(s: World, ch: Channel, at: Time)
    ensures SentInHour(s.t, ch, at) == SentBetween(s.t.outbox, ch, at - 3_600_000_000, at)
  {
  }

  /** Sliding-window limit: in every run of one worker, every hour-long window, wherever it ends, holds at
      most `bound` rows sent on the channel. */
  lemma SlidingWindow(steps: seq<Step>, ch: Channel, bound: nat, at: Time)
    requires ValidRun(EMPTY, steps) && SoleRun(EMPTY, steps)
    requires Grants(steps, ch, bound)
    ensures |SentBetween(Exec(EMPTY, steps).t.outbox, ch, at - 3_600_000_000, at)| <= bound
  {
    assert forall u :: SentInHour(EMPTY.t, ch, u) == {};
    RunKeepsInv(EMPTY, steps, ch, bound);
    HourColumns(Exec(EMPTY, steps), ch, at);
  }

  /** The largest budget a drain of the run loads. */
  ghost function Largest(steps: seq<Step>, ch: Channel): nat {
    if steps == [] then 0
    else
      var step, others := steps[|steps| - 1], Largest(steps[..|steps| - 1], ch);
      if step.StartDrain? && PerHour(step.pol, ch) > others then PerHour(step.pol, ch) else others
  }

  lemma {:induction false} LargestGrants(steps: seq<Step>, ch: Channel)
    ensures Grants(steps, ch, Largest(steps, ch))
  {
    if steps != [] {
      var init := steps[..|steps| - 1];
      LargestGrants(init, ch);
      forall i | 0 <= i < |steps| && steps[i].StartDrain?
        ensures PerHour(steps[i].pol, ch) <= Largest(steps, ch)
      {
        assert i < |init| ==> steps[i] == init[i];
      }
    }
  }

  /** The budget is used, not just kept: a row is put off for the rate only when its channel has had its
      whole hourly budget sent in the hour that ends with the drain. */
  lemma PutOffOnlyWhenFull(steps: seq<Step>)
    requires ValidRun(EMPTY, steps) && SoleRun(EMPTY, steps)
    requires Enabled(Exec(EMPTY, steps), HoldRate(0)) && SoleStep(Exec(EMPTY, steps), HoldRate(0))
    ensures var s := Exec(EMPTY, steps);
            var k, ch := WorkerOf(s, 0), HeadRow(s, 0).channel;
            |SentBetween(s.t.outbox, ch, k.ts - 3_600_000_000, k.ts)| >= PerHour(k.pol, ch)
  {
    var s := Exec(EMPTY, steps);
    var ch := HeadRow(s, 0).channel;
    assert forall u :: SentInHour(EMPTY.t, ch, u) == {};
    LargestGrants(steps, ch);
    RunKeepsInv(EMPTY, steps, ch, Largest(steps, ch));
    FullMeans(s, ch, Largest(steps, ch));
  }

  lemma FullMeans(s: World, ch: Channel, bound: int)
    requires Inv(s, ch, bound) && WorkerOf(s, 0).Draining?
    requires OverBudget(s.t, WorkerOf(s, 0).pol, ch, WorkerOf(s, 0).ts)
    ensures var k := WorkerOf(s, 0);
            |SentBetween(s.t.outbox, ch, k.ts - 3_600_000_000, k.ts)| >= PerHour(k.pol, ch)
  {
    var k := WorkerOf(s, 0);
    assert RecentlySent(s.t, ch, k.ts) == SentBetween(s.t.outbox, ch, k.ts - 3_600_000_000, k.ts);
  }
}
