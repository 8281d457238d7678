/** The per-channel circuit breaker over every run of a single worker. */
module CircuitBreaker {
  import opened Common
  import opened DeliveryPolicy
  import opened DeliveryTables
  import opened DeliveryRuns

  /** The results recorded for a channel, oldest first. */
  ghost function ResultsOn(trace: seq<Event>, ch: Channel): seq<Event> {
    if trace == [] then []
    else
      var e := trace[|trace| - 1];
      var before := ResultsOn(trace[..|trace| - 1], ch);
      if e.Result? && e.channel == ch then before + [e] else before
  }

  /** Length of the unbroken run of failures at the end. */
  ghost function TrailingFailures(results: seq<Event>): nat {
    if results == [] then 0
    else
      var e := results[|results| - 1];
      if e.Result? && !e.ok then 1 + TrailingFailures(results[..|results| - 1]) else 0
  }

  /** The earliest instant at which the channel may be called after these results. */
  ghost function ClosedUntil(results: seq<Event>): Option<Time> {
    if TrailingFailures(results) >= CIRCUIT_THRESHOLD && results[|results| - 1].Result?
    then Some(results[|results| - 1].ts + CIRCUIT_OPEN_FOR)
    else None
  }

  /** The stored breaker is a summary of the recorded results. */
  ghost predicate Summarises(s: World, ch: Channel) {
    var results := ResultsOn(s.trace, ch);
    BreakerOf(s.t, ch) == Breaker(TrailingFailures(results), ClosedUntil(results))
  }

  /** Provider call number i respects the breaker as recorded before it. */
  ghost predicate CallAllowed(trace: seq<Event>, i: nat)
    requires i < |trace| && trace[i].ProviderCall?
  {
    var closed := ClosedUntil(ResultsOn(trace[..i], trace[i].channel));
    closed.Some? ==> trace[i].ts >= closed.value
  }

  ghost predicate Inv(s: World) {
    && (forall ch :: Summarises(s, ch))
    && (forall i :: 0 <= i < |s.trace| && s.trace[i].ProviderCall? ==> CallAllowed(s.trace, i))
    && (forall i :: 0 <= i < |s.trace| && s.trace[i].Result? ==> s.trace[i].ts > ZERO_TIME)
    && (WorkerOf(s, 0).Draining? ==> WorkerOf(s, 0).ts > ZERO_TIME)
  }

  lemma ResultsStep(trace: seq<Event>, e: Event, ch: Channel)
    ensures ResultsOn(trace + [e], ch) ==
            if e.Result? && e.channel == ch then ResultsOn(trace, ch) + [e] else ResultsOn(trace, ch)
  {
    assert (trace + [e])[..|trace|] == trace;
  }

  lemma TrailingStep(results: seq<Event>, e: Event)
    requires e.Result?
    ensures TrailingFailures(results + [e]) == if e.ok then 0 else TrailingFailures(results) + 1
  {
    assert (results + [e])[..|results|] == results;
  }

  lemma {:induction false} ResultsPositive(trace: seq<Event>, ch: Channel)
    requires forall i :: 0 <= i < |trace| && trace[i].Result? ==> trace[i].ts > ZERO_TIME
    ensures forall e :: e in ResultsOn(trace, ch) ==> e.Result? && e.ts > ZERO_TIME
  {
    if trace != [] {
      ResultsPositive(trace[..|trace| - 1], ch);
    }
  }

  /** Recording a result updates the breaker of its channel accordingly. */
  lemma NoteKeepsSummary(s: World, step: Step, ch: Channel)
    requires Inv(s) && step.Note? && Enabled(s, step) && SoleStep(s, step)
    ensures Summarises(Apply(s, step), ch)
  {
    var k := WorkerOf(s, step.w);
    var e := Result(HeadRow(s, step.w).channel, k.ts, k.stage.ok);
    assert Summarises(s, ch);
    ResultsStep(s.trace, e, ch);
    if e.channel == ch {
      TrailingStep(ResultsOn(s.trace, ch), e);
    }
  }

  /** No other statement touches a breaker or records a result. */
  lemma OnlyNoteRecords(s: World, step: Step)
    requires Enabled(s, step) && !step.Note?
    ensures Apply(s, step).t.breakers == s.t.breakers
    ensures var trace := Apply(s, step).trace;
            trace == s.trace || (|trace| == |s.trace| + 1 && trace == s.trace + [trace[|s.trace|]] && !trace[|s.trace|].Result?)
  {
  }

  lemma OtherKeepsSummary(s: World, step: Step, ch: Channel)
    requires Summarises(s, ch) && Enabled(s, step) && !step.Note?
    ensures Summarises(Apply(s, step), ch)
  {
    var trace := Apply(s, step).trace;
    OnlyNoteRecords(s, step);
    if trace != s.trace {
      ResultsStep(s.trace, trace[|s.trace|], ch);
    }
  }

  lemma StepKeepsSummary(s: World, step: Step, ch: Channel)
    requires Inv(s) && Enabled(s, step) && SoleStep(s, step)
    ensures Summarises(Apply(s, step), ch)
  {
    if step.Note? {
      NoteKeepsSummary(s, step, ch);
    } else {
      OtherKeepsSummary(s, step, ch);
    }
  }

  lemma StepKeepsAllowed(s: World, step: Step, i: nat)
    requires Inv(s) && Enabled(s, step) && SoleStep(s, step)
    requires i < |Apply(s, step).trace| && Apply(s, step).trace[i].ProviderCall?
    ensures CallAllowed(Apply(s, step).trace, i)
  {
    var s' := Apply(s, step);
    assert s'.trace[..i] == s.trace[..i];
    if i < |s.trace| {
      assert CallAllowed(s.trace, i);
    } else {
      var ch := s'.trace[i].channel;
      assert s.trace[..i] == s.trace;
      assert Summarises(s, ch);
      ResultsPositive(s.trace, ch);
    }
  }

  lemma StepKeepsInv(s: World, step: Step)
    requires Inv(s) && Enabled(s, step) && SoleStep(s, step)
    ensures Inv(Apply(s, step))
  {
    var s' := Apply(s, step);
    forall ch
      ensures Summarises(s', ch)
    {
      StepKeepsSummary(s, step, ch);
    }
    forall i: nat | i < |s'.trace| && s'.trace[i].ProviderCall?
      ensures CallAllowed(s'.trace, i)
    {
      StepKeepsAllowed(s, step, i);
    }
  }

  lemma {:induction false} RunKeepsInv(s: World, steps: seq<Step>)
    requires Inv(s) && ValidRun(s, steps) && SoleRun(s, steps)
    ensures Inv(Exec(s, steps))
    decreases |steps|
  {
    if steps != [] {
      StepKeepsInv(s, steps[0]);
      RunKeepsInv(Apply(s, steps[0]), steps[1..]);
    }
  }

  lemma EmptyInv()
    ensures Inv(EMPTY)
  {
  }

  lemma SummaryMeans(s: World, ch: Channel)
    requires Inv(s)
    ensures var results := ResultsOn(s.trace, ch);
      && BreakerOf(s.t, ch).failures == TrailingFailures(results)
      && (BreakerOf(s.t, ch).openedUntil.Some? <==> TrailingFailures(results) >= 5)
      && (TrailingFailures(results) >= 5 ==>
            && results != [] && results[|results| - 1].Result?
            && BreakerOf(s.t, ch).openedUntil == Some(results[|results| - 1].ts + 5 * MINUTE))
  {
    assert Summarises(s, ch);
    ResultsPositive(s.trace, ch);
  }

  /** In every run of one worker, `consecutive_failures` is the trailing run of failed results of
      the channel, `opened_until` is set exactly when that run is at least 5 (to five minutes after
      its last failure), and the provider is never called on the channel before that instant. */
  lemma BreakerHolds(steps: seq<Step>, ch: Channel)
    requires ValidRun(EMPTY, steps) && SoleRun(EMPTY, steps)
    ensures var s := Exec(EMPTY, steps);
      var results := ResultsOn(s.trace, ch);
      && BreakerOf(s.t, ch).failures == TrailingFailures(results)
      && (BreakerOf(s.t, ch).openedUntil.Some? <==> TrailingFailures(results) >= 5)
      && (TrailingFailures(results) >= 5 ==>
            && results != [] && results[|results| - 1].Result?
            && BreakerOf(s.t, ch).openedUntil == Some(results[|results| - 1].ts + 5 * MINUTE))
      && (forall i :: 0 <= i < |s.trace| && s.trace[i].ProviderCall? ==> CallAllowed(s.trace, i))
  {
    EmptyInv();
    RunKeepsInv(EMPTY, steps);
    var s := Exec(EMPTY, steps);
    SummaryMeans(s, ch);
  }

  /** And the breaker is no stricter than that: a row is put off for it only while the channel's results
      end in at least five failures, the last less than five minutes before the drain, and only until
      those five minutes are over. */
  lemma PutOffOnlyWhileOpen(steps: seq<Step>, until: Time)
    requires ValidRun(EMPTY, steps) && SoleRun(EMPTY, steps)
    requires Enabled(Exec(EMPTY, steps), HoldOpen(0, until)) && SoleStep(Exec(EMPTY, steps), HoldOpen(0, until))
    ensures var s := Exec(EMPTY, steps);
      var results := ResultsOn(s.trace, HeadRow(s, 0).channel);
      && TrailingFailures(results) >= 5 && results != [] && results[|results| - 1].Result?
      && until == results[|results| - 1].ts + 300_000_000
      && WorkerOf(s, 0).ts < until
  {
    EmptyInv();
    RunKeepsInv(EMPTY, steps);
    SummaryMeans(Exec(EMPTY, steps), HeadRow(Exec(EMPTY, steps), 0).channel);
  }
}
