/** The outbox worker as a state machine over database statements: any number of worker
    processes, each claiming rows, calling the provider and writing results one statement at
    a time, with crashes at any point. Every boot of an instance requeues all rows in `sending`,
    whether or not other instances hold them. `trace` records what an outside observer would see. */
module DeliveryRuns {
  import opened Common
  import opened DeliveryPolicy
  import opened DeliveryTables

  /** Where a worker is with the row at the head of its queue. */
  datatype Stage =
    | Ready              // nothing done for this row yet
    | Called(ok: bool)   // the provider has answered
    | Noted(ok: bool)    // and the breaker statement has run

  datatype Worker =
    | Idle
    | Draining(ts: Time, pol: Policy, queue: seq<nat>, stage: Stage, seen: map<nat, nat>)  // seen: attempts read at the claim
    | Flushing(ts: Time, todo: seq<BatchKey>, counts: map<BatchKey, nat>)

  datatype Event =
    | ProviderCall(row: nat, channel: Channel, ts: Time)
    | Result(channel: Channel, ts: Time, ok: bool)
    | Counted(channel: Channel, late: bool)   // a digested or overflow event; late: its batch was already flushed
    | Crash(lostCall: Option<nat>, lostRows: seq<nat>, lostSummaries: seq<BatchKey>)
    | Requeued(taken: set<nat>)               // taken: rows that live workers were holding

  datatype World = World(t: Tables, workers: map<nat, Worker>, clock: Time, trace: seq<Event>)

  datatype Step =
    | Queue(origin: Origin, channel: Channel, ts: Time)
    | Append(group: string, channel: Channel, intervalMin: int, ts: Time)
    | StartDrain(w: nat, ts: Time, pol: Policy, ids: seq<nat>)
    | HoldOpen(w: nat, until: Time)
    | HoldRate(w: nat)
    | Send(w: nat, ok: bool)
    | Note(w: nat, breaker: Breaker)
    | Finish(w: nat, random: nat)
    | EndDrain(w: nat)
    | StartFlush(w: nat, ts: Time, keys: seq<BatchKey>)
    | PutSummary(w: nat)
    | EndFlush(w: nat)
    | CrashOf(w: nat)
    | RequeueStale

  ghost function WorkerOf(s: World, w: nat): Worker {
    if w in s.workers then s.workers[w] else Idle
  }

  ghost predicate AtHead(s: World, w: nat) {
    var k := WorkerOf(s, w);
    k.Draining? && k.queue != [] && k.queue[0] in s.t.outbox
  }

  ghost function Head(s: World, w: nat): nat
    requires AtHead(s, w)
  {
    WorkerOf(s, w).queue[0]
  }

  ghost function HeadRow(s: World, w: nat): OutboxRow
    requires AtHead(s, w)
  {
    s.t.outbox[Head(s, w)]
  }

  ghost function Attempts(outbox: map<nat, OutboxRow>): map<nat, nat> {
    map id | id in outbox :: outbox[id].attempts
  }

  ghost function Seen(k: Worker, id: nat): nat
    requires k.Draining?
  {
    if id in k.seen then k.seen[id] else 0
  }

  /** Worker w holds the claim on row id. */
  ghost predicate Owns(s: World, w: nat, id: nat) {
    WorkerOf(s, w).Draining? && id in WorkerOf(s, w).queue
  }

  ghost predicate Owned(s: World, id: nat) {
    exists w :: Owns(s, w, id)
  }

  ghost function HeldRows(s: World): set<nat> {
    set id | id in s.t.outbox && Owned(s, id)
  }

  /** Rows that a requeue has ever taken from a live worker. */
  ghost function Taken(trace: seq<Event>): set<nat> {
    if trace == [] then {}
    else
      var e := trace[|trace| - 1];
      Taken(trace[..|trace| - 1]) + (if e.Requeued? then e.taken else {})
  }

  /** The steps the statements allow. The breaker and rate checks are not repeated here: with
      several workers they may be out of date by the time their result is acted on. */
  ghost predicate Enabled(s: World, step: Step) {
    match step
    case Queue(origin, _, ts) => origin.Incident? && ts > ZERO_TIME
    case Append(_, _, _, ts) => ts > ZERO_TIME
    case StartDrain(w, ts, _, ids) =>
      && WorkerOf(s, w).Idle? && ts > ZERO_TIME && Distinct(ids)
      && forall id :: id in ids ==> id in s.t.outbox && Due(s.t.outbox[id], ts)
    case HoldOpen(w, _) => AtHead(s, w) && WorkerOf(s, w).stage.Ready?
    case HoldRate(w) => AtHead(s, w) && WorkerOf(s, w).stage.Ready?
    case Send(w, _) => AtHead(s, w) && WorkerOf(s, w).stage.Ready?
    case Note(w, _) => AtHead(s, w) && WorkerOf(s, w).stage.Called?
    case Finish(w, _) => AtHead(s, w) && WorkerOf(s, w).stage.Noted?
    case EndDrain(w) => WorkerOf(s, w).Draining? && WorkerOf(s, w).queue == []
    case StartFlush(w, ts, keys) =>
      && WorkerOf(s, w).Idle? && ts > ZERO_TIME && Distinct(keys)
      && forall k :: k in keys ==> k in s.t.batches && DueBatch(s.t.batches, k, ts)
    case PutSummary(w) =>
      var k := WorkerOf(s, w);
      k.Flushing? && k.todo != [] && k.todo[0] in k.counts
    case EndFlush(w) => WorkerOf(s, w).Flushing? && WorkerOf(s, w).todo == []
    case CrashOf(w) => !WorkerOf(s, w).Idle?
    case RequeueStale => true
  }

  /** The checks were made against the current tables, as they are when one worker runs alone. */
  ghost predicate UpToDate(s: World, step: Step)
    requires Enabled(s, step)
  {
    match step
    case HoldOpen(w, until) =>
      OpenUntil(s.t, HeadRow(s, w).channel, WorkerOf(s, w).ts) == Some(until)
    case HoldRate(w) =>
      var k, ch := WorkerOf(s, w), HeadRow(s, w).channel;
      OpenUntil(s.t, ch, k.ts).None? && OverBudget(s.t, k.pol, ch, k.ts)
    case Send(w, _) =>
      var k, ch := WorkerOf(s, w), HeadRow(s, w).channel;
      OpenUntil(s.t, ch, k.ts).None? && !OverBudget(s.t, k.pol, ch, k.ts)
    case Note(w, b) =>
      var k, ch := WorkerOf(s, w), HeadRow(s, w).channel;
      b == NextBreaker(BreakerOf(s.t, ch), k.ts, k.stage.ok)
    case _ => true
  }

  ghost function Put(s: World, w: nat, k: Worker, t: Tables): World {
    s.(workers := s.workers[w := k], t := t)
  }

  /** Done with the head row: the worker turns to the next one. */
  ghost function Popped(k: Worker): Worker
    requires k.Draining? && k.queue != []
  {
    k.(queue := k.queue[1..], stage := Ready)
  }

  /** What a step does to the tables, the workers and the clock. */
  ghost function Moved(s: World, step: Step): World
    requires Enabled(s, step)
  {
    match step
    case Queue(origin, channel, ts) => s.(t := InsertRow(s.t, origin, channel, ts), clock := ts)
    case Append(group, channel, intervalMin, ts) =>
      s.(t := s.t.(batches := Upsert(s.t.batches, RuleBatch(group, channel, intervalMin, ts))), clock := ts)
    case StartDrain(w, ts, pol, ids) =>
      Put(s, w, Draining(ts, pol, ids, Ready, Attempts(s.t.outbox)), MarkSending(s.t, ids)).(clock := ts)
    case HoldOpen(w, until) => Put(s, w, Popped(WorkerOf(s, w)), Defer(s.t, Head(s, w), until))
    case HoldRate(w) => Put(s, w, Popped(WorkerOf(s, w)), Throttle(s.t, Head(s, w), WorkerOf(s, w).ts))
    case Send(w, ok) => Put(s, w, WorkerOf(s, w).(stage := Called(ok)), s.t)
    case Note(w, breaker) =>
      var k := WorkerOf(s, w);
      Put(s, w, k.(stage := Noted(k.stage.ok)), s.t.(breakers := s.t.breakers[HeadRow(s, w).channel := breaker]))
    case Finish(w, random) =>
      var k := WorkerOf(s, w);
      Put(s, w, Popped(k), Resolve(s.t, Head(s, w), Seen(k, Head(s, w)), k.ts, k.stage.ok, random))
    case EndDrain(w) => Put(s, w, Idle, s.t)
    case StartFlush(w, ts, keys) => Put(s, w, Flushing(ts, keys, Counts(s.t.batches)), MarkFlushed(s.t, keys)).(clock := ts)
    case PutSummary(w) =>
      var k := WorkerOf(s, w);
      Put(s, w, k.(todo := k.todo[1..]), InsertSummary(s.t, k.todo[0], k.counts[k.todo[0]], k.ts))
    case EndFlush(w) => Put(s, w, Idle, s.t)
    case CrashOf(w) => Put(s, w, Idle, s.t)
    case RequeueStale => s.(t := Requeue(s.t))
  }

  ghost function Apply(s: World, step: Step): World
    requires Enabled(s, step)
  {
    var e := EventOf(s, step);
    if e.Some? then Moved(s, step).(trace := s.trace + [e.value]) else Moved(s, step)
  }

  ghost predicate Closed(batches: map<BatchKey, Batch>, k: BatchKey) {
    k in batches && batches[k].flushed
  }

  /** What a crash leaves unaccounted for: a provider call whose result was not written to the
      row, claimed rows nobody owns any more, and the summaries of batches already closed. */
  ghost function CrashEvent(k: Worker): Event {
    match k
    case Idle => Crash(None, [], [])
    case Draining(_, _, queue, stage, _) => Crash(if stage.Ready? || queue == [] then None else Some(queue[0]), queue, [])
    case Flushing(_, todo, _) => Crash(None, [], todo)
  }

  /** What a step adds to the trace. */
  ghost function EventOf(s: World, step: Step): Option<Event>
    requires Enabled(s, step)
  {
    match step
    case Append(group, channel, intervalMin, ts) =>
      Some(Counted(channel, Closed(s.t.batches, RuleBatch(group, channel, intervalMin, ts))))
    case HoldRate(w) =>
      var ch := HeadRow(s, w).channel;
      Some(Counted(ch, Closed(s.t.batches, OverflowBatch(ch, WorkerOf(s, w).ts))))
    case Send(w, _) => Some(ProviderCall(Head(s, w), HeadRow(s, w).channel, WorkerOf(s, w).ts))
    case Note(w, _) => Some(Result(HeadRow(s, w).channel, WorkerOf(s, w).ts, WorkerOf(s, w).stage.ok))
    case CrashOf(w) => Some(CrashEvent(WorkerOf(s, w)))
    case RequeueStale => Some(Requeued(HeldRows(s)))
    case _ => None
  }

  lemma Traced(s: World, step: Step)
    requires Enabled(s, step)
    ensures Apply(s, step).trace == if EventOf(s, step).Some? then s.trace + [EventOf(s, step).value] else s.trace
  {
  }

  ghost predicate ValidRun(s: World, steps: seq<Step>)
    decreases |steps|
  {
    steps == [] || (Enabled(s, steps[0]) && ValidRun(Apply(s, steps[0]), steps[1..]))
  }

  ghost function Exec(s: World, steps: seq<Step>): World
    requires ValidRun(s, steps)
    decreases |steps|
  {
    if steps == [] then s else Exec(Apply(s, steps[0]), steps[1..])
  }

  /** A step moves one worker at most. */
  lemma OthersStay(s: World, step: Step, v: nat)
    requires Enabled(s, step)
    requires step.Queue? || step.Append? || step.RequeueStale? || v != step.w
    ensures WorkerOf(Apply(s, step), v) == WorkerOf(s, v)
  {
  }

  /** One worker (number 0), so its checks are current, and a clock that never runs backwards. */
  ghost predicate SoleStep(s: World, step: Step)
    requires Enabled(s, step)
  {
    && UpToDate(s, step)
    && (match step
        case Queue(_, _, ts) => ts >= s.clock
        case Append(_, _, _, ts) => ts >= s.clock
        case StartDrain(w, ts, _, _) => w == 0 && ts >= s.clock
        case StartFlush(w, ts, _) => w == 0 && ts >= s.clock
        case RequeueStale => true
        case _ => step.w == 0)
  }

  ghost predicate SoleRun(s: World, steps: seq<Step>)
    requires ValidRun(s, steps)
    decreases |steps|
  {
    steps == [] || (SoleStep(s, steps[0]) && SoleRun(Apply(s, steps[0]), steps[1..]))
  }

  const EMPTY := World(Tables(map[], map[], 0, map[], map[]), map[], ZERO_TIME, [])
}
