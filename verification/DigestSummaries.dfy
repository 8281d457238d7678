/** Every closed digest batch is reported once: over every run of any number of workers, with any
    clock readings and crashes anywhere, a batch has at most one summary row, and exactly one once
    its flush is over, unless a crash swallowed it. */
module DigestSummaries {
  import opened Common
  import opened DeliveryTables
  import opened DeliveryRuns

  /** The summary rows of a batch. */
  ghost function SummariesOf(t: Tables, k: BatchKey): set<nat> {
    set id | id in t.outbox && t.outbox[id].origin.Summary? && t.outbox[id].origin.batch == k
  }

  /** Summaries of the batch that crashes swallowed. */
  ghost function LostOf(trace: seq<Event>, k: BatchKey): nat {
    if trace == [] then 0
    else
      var e := trace[|trace| - 1];
      LostOf(trace[..|trace| - 1], k) + (if e.Crash? && k in e.lostSummaries then 1 else 0)
  }

  /** Worker w has closed the batch and has yet to write its summary. */
  ghost predicate Owes(s: World, w: nat, k: BatchKey) {
    WorkerOf(s, w).Flushing? && k in WorkerOf(s, w).todo
  }

  ghost predicate Owed(s: World, k: BatchKey) {
    exists w :: Owes(s, w, k)
  }

  /** A closed batch has one summary: written, owed by a worker, or lost; an open one has none. */
  ghost predicate OneSummary(s: World, k: BatchKey) {
    |SummariesOf(s.t, k)| + (if Owed(s, k) then 1 else 0) + LostOf(s.trace, k)
    == if Closed(s.t.batches, k) then 1 else 0
  }

  /** Flushing workers owe distinct batches, none twice, with the counts those closed with. */
  ghost predicate Flushes(s: World) {
    && (forall w :: WorkerOf(s, w).Flushing? ==> Distinct(WorkerOf(s, w).todo))
    && (forall v, w, k :: Owes(s, v, k) && Owes(s, w, k) ==> v == w)
    && (forall w, k :: Owes(s, w, k) ==> OwesFinalCount(s, w, k))
  }

  ghost predicate OwesFinalCount(s: World, w: nat, k: BatchKey)
    requires Owes(s, w, k)
  {
    && Closed(s.t.batches, k)
    && k in WorkerOf(s, w).counts && WorkerOf(s, w).counts[k] == s.t.batches[k].count
  }

  ghost predicate Rows(s: World) {
    forall id :: id in s.t.outbox ==>
      && id < s.t.nextId
      && (s.t.outbox[id].origin.Summary? ==> ReportsFinalCount(s.t, s.t.outbox[id].origin.batch, s.t.outbox[id].origin.count))
      && (s.t.outbox[id].origin.Summary? ==> s.t.outbox[id].channel == s.t.outbox[id].origin.batch.digest.channel)
  }

  ghost predicate ReportsFinalCount(t: Tables, k: BatchKey, count: nat) {
    Closed(t.batches, k) && count == t.batches[k].count
  }

  ghost predicate Inv(s: World) {
    Flushes(s) && Rows(s) && forall k :: OneSummary(s, k)
  }

  // --------------------------------------------------------------- preservation

  /** A closed batch stays closed with its count. */
  lemma ClosedForGood(s: World, step: Step, k: BatchKey)
    requires Enabled(s, step) && Closed(s.t.batches, k)
    ensures Closed(Apply(s, step).t.batches, k) && Apply(s, step).t.batches[k] == s.t.batches[k]
  {
  }

  /** Only a flush closes a batch. */
  lemma ClosedBy(s: World, step: Step, k: BatchKey)
    requires Enabled(s, step) && !step.StartFlush?
    ensures Closed(Apply(s, step).t.batches, k) <==> Closed(s.t.batches, k)
  {
  }

  /** A worker owes after a step what it owed before, except what a flush has just closed. */
  lemma OwesBefore(s: World, step: Step, v: nat, k: BatchKey)
    requires Enabled(s, step) && Owes(Apply(s, step), v, k)
    ensures if step.StartFlush? && v == step.w then DueBatch(s.t.batches, k, step.ts)
            else Owes(s, v, k) && WorkerOf(Apply(s, step), v).counts == WorkerOf(s, v).counts
  {
    if step.Queue? || step.Append? || step.RequeueStale? || v != step.w {
      OthersStay(s, step, v);
    }
  }

  lemma StepKeepsFinalCount(s: World, step: Step, v: nat, k: BatchKey)
    requires Flushes(s) && Enabled(s, step) && Owes(Apply(s, step), v, k)
    ensures OwesFinalCount(Apply(s, step), v, k)
  {
    OwesBefore(s, step, v, k);
    if !(step.StartFlush? && v == step.w) {
      assert OwesFinalCount(s, v, k);
      ClosedForGood(s, step, k);
    }
  }

  lemma StepKeepsDistinct(s: World, step: Step, v: nat)
    requires Flushes(s) && Enabled(s, step) && WorkerOf(Apply(s, step), v).Flushing?
    ensures Distinct(WorkerOf(Apply(s, step), v).todo)
  {
    if step.Queue? || step.Append? || step.RequeueStale? || v != step.w {
      OthersStay(s, step, v);
    }
  }

  lemma StepKeepsFlushes(s: World, step: Step)
    requires Flushes(s) && Enabled(s, step)
    ensures Flushes(Apply(s, step))
  {
    var s' := Apply(s, step);
    forall v | WorkerOf(s', v).Flushing?
      ensures Distinct(WorkerOf(s', v).todo)
    {
      StepKeepsDistinct(s, step, v);
    }
    forall v, k | Owes(s', v, k)
      ensures OwesFinalCount(s', v, k)
    {
      StepKeepsFinalCount(s, step, v, k);
    }
    forall v, w, k | Owes(s', v, k) && Owes(s', w, k)
      ensures v == w
    {
      OwesBefore(s, step, v, k);
      OwesBefore(s, step, w, k);
      assert Owes(s, v, k) ==> OwesFinalCount(s, v, k);
      assert Owes(s, w, k) ==> OwesFinalCount(s, w, k);
    }
  }

  lemma StepKeepsRow(s: World, step: Step, id: nat)
    requires Rows(s) && Flushes(s) && Enabled(s, step) && id in Apply(s, step).t.outbox
    ensures id < Apply(s, step).t.nextId
    ensures Apply(s, step).t.outbox[id].origin ==
            if id in s.t.outbox then s.t.outbox[id].origin
            else if step.PutSummary? then
              Summary(WorkerOf(s, step.w).todo[0], WorkerOf(s, step.w).counts[WorkerOf(s, step.w).todo[0]])
            else step.origin
    ensures id !in s.t.outbox ==> (step.PutSummary? || step.Queue?) && id == s.t.nextId
    ensures Apply(s, step).t.outbox[id].channel ==
            if id in s.t.outbox then s.t.outbox[id].channel
            else if step.PutSummary? then WorkerOf(s, step.w).todo[0].digest.channel
            else step.channel
  {
  }

  lemma StepKeepsRows(s: World, step: Step)
    requires Rows(s) && Flushes(s) && Enabled(s, step)
    ensures Rows(Apply(s, step))
  {
    var s' := Apply(s, step);
    forall id | id in s'.t.outbox
      ensures id < s'.t.nextId
      ensures s'.t.outbox[id].origin.Summary? ==>
                ReportsFinalCount(s'.t, s'.t.outbox[id].origin.batch, s'.t.outbox[id].origin.count)
      ensures s'.t.outbox[id].origin.Summary? ==> s'.t.outbox[id].channel == s'.t.outbox[id].origin.batch.digest.channel
    {
      StepKeepsRow(s, step, id);
      if s'.t.outbox[id].origin.Summary? {
        var k := s'.t.outbox[id].origin.batch;
        assert id !in s.t.outbox ==> Owes(s, step.w, k) && OwesFinalCount(s, step.w, k);
        ClosedForGood(s, step, k);
      }
    }
  }

  lemma LostStep(trace: seq<Event>, e: Event, k: BatchKey)
    ensures LostOf(trace + [e], k) == LostOf(trace, k) + (if e.Crash? && k in e.lostSummaries then 1 else 0)
  {
    assert (trace + [e])[..|trace|] == trace;
  }

  /** Losses change only by a crash of a worker that owes the summary. */
  lemma StepLoses(s: World, step: Step, k: BatchKey)
    requires Enabled(s, step)
    ensures LostOf(Apply(s, step).trace, k) ==
            LostOf(s.trace, k) + (if step.CrashOf? && Owes(s, step.w, k) then 1 else 0)
  {
    Traced(s, step);
    if EventOf(s, step).Some? {
      LostStep(s.trace, EventOf(s, step).value, k);
    }
  }

  /** The worker writes the summary of batch k next. */
  ghost predicate Writes(s: World, step: Step, k: BatchKey) {
    step.PutSummary? && WorkerOf(s, step.w).Flushing? && WorkerOf(s, step.w).todo != [] && WorkerOf(s, step.w).todo[0] == k
  }

  lemma SummaryAfter(s: World, step: Step, k: BatchKey, id: nat)
    requires Rows(s) && Flushes(s) && Enabled(s, step)
    ensures id in SummariesOf(Apply(s, step).t, k) <==>
            id in SummariesOf(s.t, k) || (Writes(s, step, k) && id == s.t.nextId)
  {
    if id in Apply(s, step).t.outbox {
      StepKeepsRow(s, step, id);
    }
    RowsRemain(s, step, id);
  }

  lemma StepWrites(s: World, step: Step, k: BatchKey)
    requires Rows(s) && Flushes(s) && Enabled(s, step)
    ensures |SummariesOf(Apply(s, step).t, k)| == |SummariesOf(s.t, k)| + (if Writes(s, step, k) then 1 else 0)
  {
    var before, after := SummariesOf(s.t, k), SummariesOf(Apply(s, step).t, k);
    forall id
      ensures id in after <==> id in before || (Writes(s, step, k) && id == s.t.nextId)
    {
      SummaryAfter(s, step, k, id);
    }
    OneMore(before, after, Writes(s, step, k), s.t.nextId);
  }

  lemma OneMore(before: set<nat>, after: set<nat>, written: bool, id: nat)
    requires id !in before && forall i :: i in after <==> i in before || (written && i == id)
    ensures |after| == |before| + (if written then 1 else 0)
  {
    assert after == before + (if written then {id} else {});
  }

  lemma RowsRemain(s: World, step: Step, id: nat)
    requires Enabled(s, step)
    ensures id in s.t.outbox ==> id in Apply(s, step).t.outbox
    ensures step.PutSummary? ==> s.t.nextId in Apply(s, step).t.outbox
  {
  }

  /** Who owes batch k is decided by the worker that moved, when it owes k before or after. */
  lemma OwedBy(s: World, step: Step, k: BatchKey)
    requires Flushes(s) && Enabled(s, step)
    requires step.StartFlush? || step.PutSummary? || step.CrashOf? || step.EndFlush?
    requires Owes(s, step.w, k)
    ensures Owed(s, k)
    ensures Owed(Apply(s, step), k) <==> Owes(Apply(s, step), step.w, k)
  {
    var s' := Apply(s, step);
    forall v | Owes(s', v, k)
      ensures v == step.w
    {
      OwesBefore(s, step, v, k);
    }
  }

  /** When the worker that moved owes k neither before nor after, nothing changes. */
  lemma OwedSame(s: World, step: Step, w: nat, k: BatchKey)
    requires Enabled(s, step)
    requires !(step.Queue? || step.Append? || step.RequeueStale?) ==> w == step.w
    requires Owes(s, w, k) <==> Owes(Apply(s, step), w, k)
    ensures Owed(s, k) <==> Owed(Apply(s, step), k)
  {
    var s' := Apply(s, step);
    if Owed(s, k) {
      var v :| Owes(s, v, k);
      if v != w {
        OthersStay(s, step, v);
      }
      assert Owes(s', v, k);
    }
    if Owed(s', k) {
      var v :| Owes(s', v, k);
      if v != w {
        OthersStay(s, step, v);
      }
      assert Owes(s, v, k);
    }
  }

  /** The batches a flush closes had no summary and were owed by nobody. */
  lemma FlushKeepsSummary(s: World, step: Step, k: BatchKey)
    requires Inv(s) && step.StartFlush? && Enabled(s, step)
    ensures OneSummary(Apply(s, step), k)
  {
    var s' := Apply(s, step);
    assert OneSummary(s, k);
    StepWrites(s, step, k);
    StepLoses(s, step, k);
    if k in step.keys {
      assert Owes(s', step.w, k);
    } else {
      OwedSame(s, step, step.w, k);
    }
  }

  lemma StepKeepsSummary(s: World, step: Step, k: BatchKey)
    requires Inv(s) && Enabled(s, step) && !step.StartFlush?
    ensures OneSummary(Apply(s, step), k)
  {
    assert OneSummary(s, k);
    StepWrites(s, step, k);
    StepLoses(s, step, k);
    ClosedBy(s, step, k);
    if step.Queue? || step.Append? || step.RequeueStale? {
      OthersStay(s, step, 0);
      OwedSame(s, step, 0, k);
    } else if (step.PutSummary? || step.CrashOf?) && Owes(s, step.w, k) {
      OwedBy(s, step, k);
      PopOwes(s, step, k);
    } else {
      OwedSame(s, step, step.w, k);
    }
  }

  lemma PopOwes(s: World, step: Step, k: BatchKey)
    requires Flushes(s) && Enabled(s, step) && (step.PutSummary? || step.CrashOf?) && Owes(s, step.w, k)
    ensures Owes(Apply(s, step), step.w, k) <==> step.PutSummary? && !Writes(s, step, k)
  {
    if step.PutSummary? {
      var todo := WorkerOf(s, step.w).todo;
      assert WorkerOf(Apply(s, step), step.w).todo == todo[1..];
      assert todo == [todo[0]] + todo[1..];
    }
  }

  lemma StepKeepsInv(s: World, step: Step)
    requires Inv(s) && Enabled(s, step)
    ensures Inv(Apply(s, step))
  {
    StepKeepsFlushes(s, step);
    StepKeepsRows(s, step);
    forall k
      ensures OneSummary(Apply(s, step), k)
    {
      if step.StartFlush? {
        FlushKeepsSummary(s, step, k);
      } else {
        StepKeepsSummary(s, step, k);
      }
    }
  }

  lemma {:induction false} RunKeepsInv(s: World, steps: seq<Step>)
    requires Inv(s) && ValidRun(s, steps)
    ensures Inv(Exec(s, steps))
    decreases |steps|
  {
    if steps != [] {
      StepKeepsInv(s, steps[0]);
      RunKeepsInv(Apply(s, steps[0]), steps[1..]);
    }
  }

  lemma EmptyInv()
    ensures Inv(EMPTY)
  {
    forall k
      ensures OneSummary(EMPTY, k)
    {
      assert SummariesOf(EMPTY.t, k) == {};
    }
  }

  /** A batch has at most one summary row, which reports its final count on its channel; a flushed batch has
      exactly one when no worker still owes it and no crash swallowed it. */
  lemma OneSummaryPerBatch(steps: seq<Step>, k: BatchKey)
    requires ValidRun(EMPTY, steps)
    ensures var s := Exec(EMPTY, steps);
      var summaries := SummariesOf(s.t, k);
      && |summaries| <= 1
      && (forall id :: id in summaries ==>
            && Closed(s.t.batches, k) && s.t.outbox[id].origin == Summary(k, s.t.batches[k].count)
            && s.t.outbox[id].channel == k.digest.channel)
      && (|summaries| == 1 <==> Closed(s.t.batches, k) && !Owed(s, k) && LostOf(s.trace, k) == 0)
  {
    EmptyInv();
    RunKeepsInv(EMPTY, steps);
    assert OneSummary(Exec(EMPTY, steps), k);
  }
}
