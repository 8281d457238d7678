/** What digests keep, over every run of any number of workers, with any clock readings and
    crashes anywhere: every digested or throttled event is counted in exactly one batch unless its
    batch had been flushed. With one worker and a clock that never runs backwards nothing is late. */
module DigestConservation {
  import opened Common
  import opened DeliveryPolicy
  import opened DeliveryTables
  import opened DeliveryRuns

  // ----------------------------------------------------- summing batch counts

  ghost function Weight(b: map<BatchKey, Batch>, k: BatchKey, ch: Channel): nat
    requires k in b
  {
    if k.digest.channel == ch then b[k].count else 0
  }

  ghost function TotalOver(keys: set<BatchKey>, b: map<BatchKey, Batch>, ch: Channel): nat
    requires keys <= b.Keys
  {
    if keys == {} then 0
    else
      var k :| k in keys;
      Weight(b, k, ch) + TotalOver(keys - {k}, b, ch)
  }

  /** The events counted in the channel's batches. */
  ghost function Total(b: map<BatchKey, Batch>, ch: Channel): nat {
    TotalOver(b.Keys, b, ch)
  }

  lemma {:induction false} TotalPick(keys: set<BatchKey>, b: map<BatchKey, Batch>, ch: Channel, k: BatchKey)
    requires keys <= b.Keys && k in keys
    ensures TotalOver(keys, b, ch) == Weight(b, k, ch) + TotalOver(keys - {k}, b, ch)
    decreases |keys|
  {
    var p :| p in keys && TotalOver(keys, b, ch) == Weight(b, p, ch) + TotalOver(keys - {p}, b, ch);
    if p != k {
      TotalPick(keys - {p}, b, ch, k);
      TotalPick(keys - {k}, b, ch, p);
      assert keys - {p} - {k} == keys - {k} - {p};
    }
  }

  lemma {:induction false} TotalSame(keys: set<BatchKey>, b: map<BatchKey, Batch>, c: map<BatchKey, Batch>, ch: Channel)
    requires keys <= b.Keys && keys <= c.Keys
    requires forall k :: k in keys ==> b[k].count == c[k].count
    ensures TotalOver(keys, b, ch) == TotalOver(keys, c, ch)
    decreases |keys|
  {
    if keys != {} {
      var k :| k in keys;
      TotalPick(keys, b, ch, k);
      TotalPick(keys, c, ch, k);
      TotalSame(keys - {k}, b, c, ch);
    }
  }

  /** An upsert counts the event exactly when the batch it lands in has not been flushed. */
  lemma UpsertCounts(b: map<BatchKey, Batch>, k: BatchKey, ch: Channel)
    ensures Total(Upsert(b, k), ch) ==
            Total(b, ch) + (if k.digest.channel == ch && !Closed(b, k) then 1 else 0)
  {
    var c := Upsert(b, k);
    if k !in b {
      TotalPick(c.Keys, c, ch, k);
      assert c.Keys - {k} == b.Keys;
      TotalSame(b.Keys, b, c, ch);
    } else if !b[k].flushed {
      TotalPick(b.Keys, b, ch, k);
      TotalPick(c.Keys, c, ch, k);
      assert c.Keys == b.Keys;
      TotalSame(b.Keys - {k}, b, c, ch);
    }
  }

  /** Digested and throttled events of the channel. */
  ghost function CountedOn(trace: seq<Event>, ch: Channel): nat {
    if trace == [] then 0
    else
      var e := trace[|trace| - 1];
      CountedOn(trace[..|trace| - 1], ch) + (if e.Counted? && e.channel == ch then 1 else 0)
  }

  /** Those that met a flushed batch. */
  ghost function LateOn(trace: seq<Event>, ch: Channel): nat {
    if trace == [] then 0
    else LateOn(trace[..|trace| - 1], ch) + (if trace[|trace| - 1] == Counted(ch, true) then 1 else 0)
  }

  lemma CountStep(trace: seq<Event>, e: Event, ch: Channel)
    ensures CountedOn(trace + [e], ch) == CountedOn(trace, ch) + (if e.Counted? && e.channel == ch then 1 else 0)
    ensures LateOn(trace + [e], ch) == LateOn(trace, ch) + (if e == Counted(ch, true) then 1 else 0)
  {
    assert (trace + [e])[..|trace|] == trace;
  }

  // ------------------------------------------------------------ events over runs

  /** The batch that an Append or a throttled send goes to. */
  ghost function Target(s: World, step: Step): BatchKey
    requires Enabled(s, step) && (step.Append? || step.HoldRate?)
  {
    if step.Append? then RuleBatch(step.group, step.channel, step.intervalMin, step.ts)
    else OverflowBatch(HeadRow(s, step.w).channel, WorkerOf(s, step.w).ts)
  }

  lemma LandsInTarget(s: World, step: Step)
    requires Enabled(s, step) && (step.Append? || step.HoldRate?)
    ensures var k := Target(s, step);
            && Apply(s, step).t.batches == Upsert(s.t.batches, k)
            && Apply(s, step).trace == s.trace + [Counted(k.digest.channel, Closed(s.t.batches, k))]
  {
  }

  lemma StepKeepsCount(s: World, step: Step, ch: Channel)
    requires Enabled(s, step)
    requires Total(s.t.batches, ch) + LateOn(s.trace, ch) == CountedOn(s.trace, ch)
    ensures var s' := Apply(s, step); Total(s'.t.batches, ch) + LateOn(s'.trace, ch) == CountedOn(s'.trace, ch)
  {
    var s' := Apply(s, step);
    if step.Append? || step.HoldRate? {
      var k := Target(s, step);
      LandsInTarget(s, step);
      UpsertCounts(s.t.batches, k, ch);
      CountStep(s.trace, Counted(k.digest.channel, Closed(s.t.batches, k)), ch);
    } else {
      assert s'.t.batches.Keys == s.t.batches.Keys;
      TotalSame(s.t.batches.Keys, s.t.batches, s'.t.batches, ch);
      if |s'.trace| > |s.trace| {
        CountStep(s.trace, s'.trace[|s.trace|], ch);
      }
    }
  }

  lemma {:induction false} RunKeepsCount(s: World, steps: seq<Step>, ch: Channel)
    requires ValidRun(s, steps)
    requires Total(s.t.batches, ch) + LateOn(s.trace, ch) == CountedOn(s.trace, ch)
    ensures var s' := Exec(s, steps); Total(s'.t.batches, ch) + LateOn(s'.trace, ch) == CountedOn(s'.trace, ch)
    decreases |steps|
  {
    if steps != [] {
      StepKeepsCount(s, steps[0], ch);
      RunKeepsCount(Apply(s, steps[0]), steps[1..], ch);
    }
  }

  lemma {:induction false} NoneLate(trace: seq<Event>, ch: Channel)
    ensures LateOn(trace, ch) == 0 <==> Counted(ch, true) !in trace
  {
    if trace != [] {
      NoneLate(trace[..|trace| - 1], ch);
      assert trace == trace[..|trace| - 1] + [trace[|trace| - 1]];
    }
  }

  /** In every run, per channel, the batch counts and the late events add up to the digested events
      plus the overflow records: the counts are conserved exactly when no event met a flushed batch. */
  lemma CountsAreConserved(steps: seq<Step>, ch: Channel)
    requires ValidRun(EMPTY, steps)
    ensures var s := Exec(EMPTY, steps);
            && Total(s.t.batches, ch) + LateOn(s.trace, ch) == CountedOn(s.trace, ch)
            && (Total(s.t.batches, ch) == CountedOn(s.trace, ch) <==> Counted(ch, true) !in s.trace)
  {
    RunKeepsCount(EMPTY, steps, ch);
    NoneLate(Exec(EMPTY, steps).trace, ch);
  }

  // ---------------------------------------------- one worker, an ordered clock

  /** No batch whose window ends later than `at` has been flushed. */
  ghost predicate ClosedBefore(s: World, at: Time) {
    forall k :: k in s.t.batches && s.t.batches[k].flushed ==> k.windowEnd <= at
  }

  ghost predicate InTime(s: World) {
    && ClosedBefore(s, s.clock)
    && (WorkerOf(s, 0).Draining? ==> ClosedBefore(s, WorkerOf(s, 0).ts))
    && (forall ch :: Counted(ch, true) !in s.trace)
  }

  /** The window of an event ends after it, and flushed windows end before it. */
  lemma LandsInOpenBatch(s: World, step: Step)
    requires InTime(s) && Enabled(s, step) && SoleStep(s, step) && (step.Append? || step.HoldRate?)
    ensures !Closed(s.t.batches, Target(s, step))
  {
  }

  lemma StepKeepsInTime(s: World, step: Step)
    requires InTime(s) && Enabled(s, step) && SoleStep(s, step)
    ensures InTime(Apply(s, step))
  {
    if step.Append? || step.HoldRate? {
      LandsInOpenBatch(s, step);
      LandsInTarget(s, step);
    }
  }

  lemma {:induction false} RunKeepsInTime(s: World, steps: seq<Step>)
    requires InTime(s) && ValidRun(s, steps) && SoleRun(s, steps)
    ensures InTime(Exec(s, steps))
    decreases |steps|
  {
    if steps != [] {
      StepKeepsInTime(s, steps[0]);
      RunKeepsInTime(Apply(s, steps[0]), steps[1..]);
    }
  }

  /** With one worker and a clock that never runs backwards no event is ever late. */
  lemma OrderedClockConserves(steps: seq<Step>, ch: Channel)
    requires ValidRun(EMPTY, steps) && SoleRun(EMPTY, steps)
    ensures Total(Exec(EMPTY, steps).t.batches, ch) == CountedOn(Exec(EMPTY, steps).trace, ch)
  {
    RunKeepsInTime(EMPTY, steps);
    CountsAreConserved(steps, ch);
  }

  /** The clock assumption is needed. A dispatch that read its clock before a flush but appends
      after it finds the batch closed, and its event is counted nowhere. */
  lemma LateAppendIsLost() returns (steps: seq<Step>)
    ensures ValidRun(EMPTY, steps)
    ensures Counted(Email, true) in Exec(EMPTY, steps).trace
    ensures Total(Exec(EMPTY, steps).t.batches, Email) < CountedOn(Exec(EMPTY, steps).trace, Email)
  {
    var first, flush, k := LATE_APPEND, LATE_FLUSH, LATE_BATCH;
    assert k.windowEnd == MINUTE;
    var s1 := Apply(EMPTY, first);
    assert s1.t.batches == map[k := Batch(1, false)];
    var s2 := Apply(s1, flush);
    assert Closed(s2.t.batches, k);
    steps := Before(s2, first, []);
    assert Exec(s2, steps).trace == s2.trace + [Counted(Email, true)];
    steps := Before(s1, flush, steps);
    steps := Before(EMPTY, first, steps);
    CountsAreConserved(steps, Email);
  }

  const LATE_APPEND := Append("rule:1", Email, 1, 1)

  const LATE_BATCH := RuleBatch("rule:1", Email, 1, 1)

  const LATE_FLUSH := StartFlush(0, MINUTE, [LATE_BATCH])

  lemma Before(s: World, step: Step, rest: seq<Step>) returns (steps: seq<Step>)
    requires Enabled(s, step) && ValidRun(Apply(s, step), rest)
    ensures ValidRun(s, steps) && Exec(s, steps) == Exec(Apply(s, step), rest)
  {
    steps := [step] + rest;
    assert steps[1..] == rest;
  }
}
