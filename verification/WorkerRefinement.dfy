/** The engine's methods are runs of the worker state machine, so every run theorem speaks about
    them: a drain, a flush or the rows a claim publishes, as the engine computes them, are each a
    sequence of single-worker steps. */
module WorkerRefinement {
  import opened Common
  import opened DeliveryPolicy
  import opened Incidents
  import opened DeliveryTables
  import opened DeliveryRuns

  /** `steps` is a single-worker run from s to s'. */
  ghost predicate Runs(s: World, steps: seq<Step>, s': World) {
    ValidRun(s, steps) && SoleRun(s, steps) && Exec(s, steps) == s'
  }

  lemma {:induction false} RunThen(s: World, a: seq<Step>, m: World, b: seq<Step>, s': World)
    requires Runs(s, a, m) && Runs(m, b, s')
    ensures Runs(s, a + b, s')
    decreases |a|
  {
    if a == [] {
      assert a + b == b;
    } else {
      RunThen(Apply(s, a[0]), a[1..], m, b, s');
      assert (a + b)[1..] == a[1..] + b;
    }
  }

  lemma RunOne(s: World, step: Step)
    requires Enabled(s, step) && SoleStep(s, step)
    ensures Runs(s, [step], Apply(s, step))
  {
    assert [step][1..] == [];
  }

  /** The world with worker 0 draining the given queue over the given tables; nobody else has
      touched its rows since it claimed them. */
  ghost predicate DrainingAt(s: World, t: Tables, ts: Time, pol: Policy, queue: seq<nat>) {
    var k := WorkerOf(s, 0);
    && s.t == t && Distinct(queue)
    && k.Draining? && k.ts == ts && k.pol == pol && k.queue == queue && k.stage == Ready
    && forall id :: id in queue ==> id in t.outbox && Seen(k, id) == t.outbox[id].attempts
  }

  /** Handling a row leaves the others alone. */
  lemma SentOneFrame(t: Tables, id: nat, pol: Policy, ts: Time, ok: bool, random: nat, other: nat)
    requires id in t.outbox && other in t.outbox && other != id
    ensures other in SentOne(t, id, pol, ts, ok, random).outbox
    ensures SentOne(t, id, pol, ts, ok, random).outbox[other] == t.outbox[other]
  {
  }

  /** One claimed row, as the engine handles it, is one or three machine steps. */
  lemma RowIsRun(s: World, t: Tables, ts: Time, pol: Policy, queue: seq<nat>, ok: bool, random: nat)
    returns (steps: seq<Step>, s': World)
    requires DrainingAt(s, t, ts, pol, queue) && queue != []
    ensures Runs(s, steps, s')
    ensures DrainingAt(s', SentOne(t, queue[0], pol, ts, ok, random), ts, pol, queue[1..])
  {
    steps, s' := HeadIsRun(s, t, ts, pol, queue, ok, random);
    forall id | id in queue[1..]
      ensures id in s'.t.outbox && Seen(WorkerOf(s', 0), id) == s'.t.outbox[id].attempts
    {
      SentOneFrame(t, queue[0], pol, ts, ok, random, id);
    }
  }

  lemma HeadIsRun(s: World, t: Tables, ts: Time, pol: Policy, queue: seq<nat>, ok: bool, random: nat)
    returns (steps: seq<Step>, s': World)
    requires DrainingAt(s, t, ts, pol, queue) && queue != []
    ensures Runs(s, steps, s')
    ensures s'.t == SentOne(t, queue[0], pol, ts, ok, random)
    ensures WorkerOf(s', 0) == WorkerOf(s, 0).(queue := queue[1..])
  {
    var ch := t.outbox[queue[0]].channel;
    var until := OpenUntil(t, ch, ts);
    if until.Some? {
      steps := [HoldOpen(0, until.value)];
      s' := Apply(s, steps[0]);
      RunOne(s, steps[0]);
    } else if OverBudget(t, pol, ch, ts) {
      steps := [HoldRate(0)];
      s' := Apply(s, steps[0]);
      RunOne(s, steps[0]);
    } else {
      steps, s' := CallIsRun(s, t, ts, pol, queue, ok, random);
    }
  }

  lemma CallIsRun(s: World, t: Tables, ts: Time, pol: Policy, queue: seq<nat>, ok: bool, random: nat)
    returns (steps: seq<Step>, s': World)
    requires DrainingAt(s, t, ts, pol, queue) && queue != []
    requires OpenUntil(t, t.outbox[queue[0]].channel, ts).None? && !OverBudget(t, pol, t.outbox[queue[0]].channel, ts)
    ensures Runs(s, steps, s')
    ensures s'.t == SentOne(t, queue[0], pol, ts, ok, random)
    ensures WorkerOf(s', 0) == WorkerOf(s, 0).(queue := queue[1..])
  {
    var send := Send(0, ok);
    var s1 := Apply(s, send);
    var note := Note(0, NextBreaker(BreakerOf(t, t.outbox[queue[0]].channel), ts, ok));
    var s2 := Apply(s1, note);
    s' := Apply(s2, Finish(0, random));
    RunOne(s, send);
    RunOne(s1, note);
    RunOne(s2, Finish(0, random));
    RunThen(s, [send], s1, [note], s2);
    RunThen(s, [send] + [note], s2, [Finish(0, random)], s');
    steps := [send] + [note] + [Finish(0, random)];
  }

  lemma {:induction false} QueueIsRun(s: World, t: Tables, ids: seq<nat>, n: nat, pol: Policy, ts: Time, env: Outside)
    returns (steps: seq<Step>, s': World)
    requires DrainingAt(s, t, ts, pol, ids) && n <= |ids|
    ensures Runs(s, steps, s')
    ensures DrainingAt(s', Drained(t, ids[..n], pol, ts, env), ts, pol, ids[n..])
  {
    if n == 0 {
      steps, s' := [], s;
    } else {
      var a, m := QueueIsRun(s, t, ids, n - 1, pol, ts, env);
      var id := ids[n - 1];
      var done := Drained(t, ids[..n - 1], pol, ts, env);
      var b, last := RowIsRun(m, done, ts, pol, ids[n - 1..], env.answer(id), env.draw(id));
      RunThen(s, a, m, b, last);
      assert ids[..n][..n - 1] == ids[..n - 1];
      steps, s' := a + b, last;
    }
  }

  /** A drain of the engine is a run of the machine: claim, rows in order, done. */
  lemma DrainIsRun(s: World, ids: seq<nat>, pol: Policy, ts: Time, env: Outside)
    returns (steps: seq<Step>, s': World)
    requires WorkerOf(s, 0).Idle? && ts > ZERO_TIME && ts >= s.clock
    requires Distinct(ids) && forall id :: id in ids ==> id in s.t.outbox && Due(s.t.outbox[id], ts)
    ensures Runs(s, steps, s')
    ensures s'.t == Drained(MarkSending(s.t, ids), ids, pol, ts, env) && WorkerOf(s', 0).Idle?
  {
    var start := StartDrain(0, ts, pol, ids);
    var s1 := Apply(s, start);
    RunOne(s, start);
    var mid, s2 := QueueIsRun(s1, s1.t, ids, |ids|, pol, ts, env);
    assert ids[..|ids|] == ids;
    s' := Apply(s2, EndDrain(0));
    RunOne(s2, EndDrain(0));
    RunThen(s, [start], s1, mid, s2);
    RunThen(s, [start] + mid, s2, [EndDrain(0)], s');
    steps := [start] + mid + [EndDrain(0)];
  }

  lemma {:induction false} SummariesAreRun(s: World, t: Tables, keys: seq<BatchKey>, n: nat, counts: map<BatchKey, nat>, ts: Time)
    returns (steps: seq<Step>, s': World)
    requires s.t == t && WorkerOf(s, 0) == Flushing(ts, keys, counts) && n <= |keys|
    requires forall k :: k in keys ==> k in counts
    ensures Runs(s, steps, s')
    ensures s'.t == Summarised(t, keys[..n], counts, ts) && WorkerOf(s', 0) == Flushing(ts, keys[n..], counts)
  {
    if n == 0 {
      steps, s' := [], s;
    } else {
      var a, m := SummariesAreRun(s, t, keys, n - 1, counts, ts);
      assert keys[n - 1..][0] == keys[n - 1];
      s' := Apply(m, PutSummary(0));
      RunOne(m, PutSummary(0));
      RunThen(s, a, m, [PutSummary(0)], s');
      assert keys[..n][..n - 1] == keys[..n - 1];
      assert keys[n - 1..][1..] == keys[n..];
      steps := a + [PutSummary(0)];
    }
  }

  /** A flush of the engine is a run of the machine: close, summaries in order, done. */
  lemma FlushIsRun(s: World, keys: seq<BatchKey>, ts: Time)
    returns (steps: seq<Step>, s': World)
    requires WorkerOf(s, 0).Idle? && ts > ZERO_TIME && ts >= s.clock
    requires Distinct(keys) && forall k :: k in keys ==> k in s.t.batches && DueBatch(s.t.batches, k, ts)
    ensures Runs(s, steps, s')
    ensures s'.t == Flushed(s.t, keys, ts) && WorkerOf(s', 0).Idle?
  {
    var start := StartFlush(0, ts, keys);
    var s1 := Apply(s, start);
    RunOne(s, start);
    var mid, s2 := SummariesAreRun(s1, s1.t, keys, |keys|, Counts(s.t.batches), ts);
    assert keys[..|keys|] == keys;
    s' := Apply(s2, EndFlush(0));
    RunOne(s2, EndFlush(0));
    RunThen(s, [start], s1, mid, s2);
    RunThen(s, [start] + mid, s2, [EndFlush(0)], s');
    steps := [start] + mid + [EndFlush(0)];
  }

  /** What a claim publishes is a run of the machine: one outbox insert or digest append per channel. */
  lemma {:induction false} PublishIsRun(s: World, req: Input, ts: Time)
    returns (steps: seq<Step>, s': World)
    requires ts > ZERO_TIME && ts >= s.clock
    ensures Runs(s, steps, s')
    ensures s'.t == Published(s.t, req, ts) && s'.workers == s.workers && s'.clock <= ts
    decreases |req.channels|
  {
    if req.channels == [] {
      steps, s' := [], s;
    } else {
      var last := |req.channels| - 1;
      var a, m := PublishIsRun(s, req.(channels := req.channels[..last]), ts);
      var channel := req.channels[last];
      var step := if GoesToDigest(req) then Append(req.digestGroup, channel, req.digestIntervalMin, ts)
                  else Queue(Incident(req.key, req.severity), channel, ts);
      RunOne(m, step);
      s' := Apply(m, step);
      RunThen(s, a, m, [step], s');
      steps := a + [step];
    }
  }
}
