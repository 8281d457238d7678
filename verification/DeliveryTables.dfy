/** The delivery tables as values, and what each statement group of the dispatcher and the
    worker does to them. The engine's methods are proved to compute exactly these functions;
    the run theorems are proved about them. */
module DeliveryTables {
  import opened Common
  import opened DeliveryPolicy
  import opened Incidents

  const MAX_ATTEMPTS: nat := 5
  const BASE_RETRY_DELAY: int := 30 * SECOND
  const MAX_RETRY_DELAY: int := 30 * MINUTE
  const CIRCUIT_THRESHOLD: nat := 5
  const CIRCUIT_OPEN_FOR: int := 5 * MINUTE
  const CLAIM_BATCH_SIZE: nat := 25
  const RATE_DEFERRAL: int := 15 * MINUTE
  const OVERFLOW_WINDOW: int := 15 * MINUTE

  datatype Status = Pending | Sending | Sent | Failed | Deferred

  datatype DigestKey = RuleDigest(group: string, channel: Channel) | Overflow(channel: Channel)

  /** Primary identity of a digest batch: unique (digest_key, window_end). */
  datatype BatchKey = BatchKey(digest: DigestKey, windowEnd: Time)

  datatype Batch = Batch(count: nat, flushed: bool)

  /** What an outbox row reports: one incident, or the summary of one digest batch. */
  datatype Origin = Incident(key: string, severity: Severity) | Summary(batch: BatchKey, count: nat)

  datatype OutboxRow = OutboxRow(
    origin: Origin,
    channel: Channel,
    status: Status,
    attempts: nat,
    nextRetryAt: Time,
    sentAt: Option<Time>)

  datatype Breaker = Breaker(failures: nat, openedUntil: Option<Time>)

  datatype Tables = Tables(
    state: map<string, StateRow>,
    outbox: map<nat, OutboxRow>,
    nextId: nat,
    batches: map<BatchKey, Batch>,
    breakers: map<Channel, Breaker>)

  function Lookup(state: map<string, StateRow>, key: string): Option<StateRow> {
    if key in state then Some(state[key]) else None
  }

  // ------------------------------------------------------------- dispatching

  /** INSERT of one pending outbox row. */
  function InsertRow(t: Tables, origin: Origin, channel: Channel, ts: Time): Tables {
    t.(outbox := t.outbox[t.nextId := OutboxRow(origin, channel, Pending, 0, ts, None)], nextId := t.nextId + 1)
  }

  function Enqueue(t: Tables, origin: Origin, channels: seq<Channel>, ts: Time): Tables
  {
    if channels == [] then t
    else InsertRow(Enqueue(t, origin, channels[..|channels| - 1], ts), origin, channels[|channels| - 1], ts)
  }

  /** Outbox inserts and the state row do not interfere, so their order in the transaction is immaterial. */
  lemma {:induction false} EnqueueCommutes(t: Tables, state: map<string, StateRow>, origin: Origin, channels: seq<Channel>, ts: Time)
    ensures Enqueue(t.(state := state), origin, channels, ts) == Enqueue(t, origin, channels, ts).(state := state)
  {
    if channels != [] {
      EnqueueCommutes(t, state, origin, channels[..|channels| - 1], ts);
    }
  }

  /** The digest upsert: a new batch counts one, an open one counts one more, and a flushed
      one is left alone (the event is then counted nowhere). */
  function Upsert(batches: map<BatchKey, Batch>, k: BatchKey): map<BatchKey, Batch> {
    if k !in batches then batches[k := Batch(1, false)]
    else if !batches[k].flushed then batches[k := Batch(batches[k].count + 1, false)]
    else batches
  }

  function DigestWidth(intervalMin: int): (w: int)
    ensures w > 0
  {
    (if intervalMin <= 0 then 60 else intervalMin) * MINUTE
  }

  function RuleBatch(group: string, channel: Channel, intervalMin: int, ts: Time): BatchKey {
    BatchKey(RuleDigest(group, channel), WindowEnd(ts, DigestWidth(intervalMin)))
  }

  function OverflowBatch(channel: Channel, ts: Time): BatchKey {
    BatchKey(Overflow(channel), WindowEnd(ts, OVERFLOW_WINDOW))
  }

  function AppendDigest(batches: map<BatchKey, Batch>, group: string, channels: seq<Channel>, intervalMin: int, ts: Time)
    : map<BatchKey, Batch>
  {
    if channels == [] then batches
    else
      var last := |channels| - 1;
      Upsert(AppendDigest(batches, group, channels[..last], intervalMin, ts), RuleBatch(group, channels[last], intervalMin, ts))
  }

  /** The outbox or digest rows of a notification. */
  function Published(t: Tables, req: Input, ts: Time): Tables {
    if GoesToDigest(req)
    then t.(batches := AppendDigest(t.batches, req.digestGroup, req.channels, req.digestIntervalMin, ts))
    else Enqueue(t, Incident(req.key, req.severity), req.channels, ts)
  }

  lemma PublishedCommutes(t: Tables, state: map<string, StateRow>, req: Input, ts: Time)
    ensures Published(t.(state := state), req, ts) == Published(t, req, ts).(state := state)
  {
    EnqueueCommutes(t, state, Incident(req.key, req.severity), req.channels, ts);
  }

  /** One committed claim: the rows of a notification, if there is one, and the key's state row. */
  function Claimed(t: Tables, req: Input, pol: ValidPolicy, ts: Time): Tables {
    var row := Lookup(t.state, req.key);
    var t1 := if Decide(row, req, pol, ts).Mute? then t else Published(t, req, ts);
    t1.(state := t.state[req.key := NextRow(row, req, pol, ts)])
  }

  datatype Action = Queued | Digested | Suppressed(reason: Reason)

  function ClaimAction(t: Tables, req: Input, pol: ValidPolicy, ts: Time): Action {
    var verdict := Decide(Lookup(t.state, req.key), req, pol, ts);
    if verdict.Mute? then Suppressed(verdict.reason)
    else if GoesToDigest(req) then Digested
    else Queued
  }

  function Held(t: Tables, req: Input, reason: Reason, dbNow: Time): Tables {
    t.(state := t.state[req.key := HeldRow(Lookup(t.state, req.key), req.severity, reason, dbNow)])
  }

  /** What the pause, the maintenance windows and the group's quiet hours say about a request. */
  datatype Gates = Gates(maintenance: bool, quiet: QuietHours, localMinutes: int)

  function GateReason(req: Input, pol: ValidPolicy, gates: Gates, ts: Time): Option<Reason> {
    if pol.PauseActive(ts) then Some(EmergencyPause)
    else if gates.maintenance then Some(Maintenance)
    else if gates.quiet.InQuiet(gates.localMinutes) && !(req.severity.Critical? && gates.quiet.allowCritical)
      then Some(QuietHold)
    else None
  }

  // ------------------------------------------------------------------ worker

  predicate Due(row: OutboxRow, ts: Time) {
    (row.status.Pending? || row.status.Deferred?) && row.nextRetryAt <= ts
  }

  function DueRows(t: Tables, ts: Time): set<nat> {
    set id | id in t.outbox && Due(t.outbox[id], ts)
  }

  predicate DueBatch(batches: map<BatchKey, Batch>, k: BatchKey, ts: Time) {
    k in batches && !batches[k].flushed && k.windowEnd <= ts
  }

  function DueBatches(batches: map<BatchKey, Batch>, ts: Time): set<BatchKey> {
    set k | k in batches && DueBatch(batches, k, ts)
  }

  /** The rows an `ORDER BY ... LIMIT` query returns: a batch of the earliest, in order. */
  ghost predicate Earliest<T>(chosen: seq<T>, due: map<T, Time>) {
    && Distinct(chosen)
    && (forall i :: 0 <= i < |chosen| ==> chosen[i] in due)
    && (forall i, j :: 0 <= i < j < |chosen| ==> due[chosen[i]] <= due[chosen[j]])
    && (forall i, d :: 0 <= i < |chosen| && d in due && d !in chosen ==> due[chosen[i]] <= due[d])
    && (|chosen| == CLAIM_BATCH_SIZE || (|chosen| < CLAIM_BATCH_SIZE && forall d :: d in due ==> d in chosen))
  }

  function SetStatus(outbox: map<nat, OutboxRow>, ids: seq<nat>, status: Status): map<nat, OutboxRow> {
    map id | id in outbox :: if id in ids then outbox[id].(status := status) else outbox[id]
  }

  function MarkSending(t: Tables, ids: seq<nat>): Tables {
    t.(outbox := SetStatus(t.outbox, ids, Sending))
  }

  function BreakerOf(t: Tables, channel: Channel): Breaker {
    if channel in t.breakers then t.breakers[channel] else Breaker(0, None)
  }

  /** The expiry of an open breaker at ts, if the channel's breaker is open. */
  function OpenUntil(t: Tables, channel: Channel, ts: Time): Option<Time> {
    var b := BreakerOf(t, channel);
    if b.openedUntil.Some? && b.openedUntil.value != ZERO_TIME && ts < b.openedUntil.value then b.openedUntil else None
  }

  predicate SentWithin(row: OutboxRow, channel: Channel, after: Time) {
    row.channel == channel && row.status.Sent? && row.sentAt.Some? && row.sentAt.value > after
  }

  /** Rows of the channel sent in the trailing hour, as the rate query counts them. */
  function RecentlySent(t: Tables, channel: Channel, ts: Time): set<nat> {
    set id | id in t.outbox && SentWithin(t.outbox[id], channel, ts - HOUR)
  }

  function OverBudget(t: Tables, pol: Policy, channel: Channel, ts: Time): bool {
    |RecentlySent(t, channel, ts)| >= pol.BudgetFor(channel)
  }

  function Defer(t: Tables, id: nat, until: Time): Tables
    requires id in t.outbox
  {
    t.(outbox := t.outbox[id := t.outbox[id].(status := Deferred, nextRetryAt := until)])
  }

  /** Over budget: the row waits and the event joins the channel's overflow batch. */
  function Throttle(t: Tables, id: nat, ts: Time): Tables
    requires id in t.outbox
  {
    Defer(t, id, ts + RATE_DEFERRAL).(batches := Upsert(t.batches, OverflowBatch(t.outbox[id].channel, ts)))
  }

  /** `openCircuit` and `closeCircuit`: the breaker after one provider result at ts. */
  function NextBreaker(b: Breaker, ts: Time, ok: bool): Breaker {
    if ok then Breaker(0, None)
    else if b.failures + 1 >= CIRCUIT_THRESHOLD then Breaker(b.failures + 1, Some(ts + CIRCUIT_OPEN_FOR))
    else Breaker(b.failures + 1, None)
  }

  function RecordResult(t: Tables, channel: Channel, ts: Time, ok: bool): Tables {
    t.(breakers := t.breakers[channel := NextBreaker(BreakerOf(t, channel), ts, ok)])
  }

  function Pow2(n: nat): (p: nat)
    ensures p >= 1
  {
    if n == 0 then 1 else 2 * Pow2(n - 1)
  }

  function RetryDelayCap(attempts: nat): (d: int)
    ensures BASE_RETRY_DELAY <= d <= MAX_RETRY_DELAY
  {
    if BASE_RETRY_DELAY * Pow2(attempts) > MAX_RETRY_DELAY then MAX_RETRY_DELAY else BASE_RETRY_DELAY * Pow2(attempts)
  }

  /** Half the capped exponential delay, plus a random part below the other half, plus one
      second. `random` is any draw; `rand.Int63n` reduces it modulo the half. */
  function Backoff(attempts: nat, random: nat): (d: int)
    ensures RetryDelayCap(attempts) / 2 + SECOND <= d < RetryDelayCap(attempts) + SECOND
  {
    RetryDelayCap(attempts) / 2 + random % (RetryDelayCap(attempts) / 2) + SECOND
  }

  /** The claimed row after the provider answered. Whether and when to retry is decided by the
      attempts `seen` at the claim; the stored number is incremented in place. */
  function Answered(row: OutboxRow, seen: nat, ts: Time, ok: bool, random: nat): OutboxRow {
    if ok then row.(status := Sent, sentAt := Some(ts), attempts := row.attempts + 1)
    else if seen + 1 < MAX_ATTEMPTS then
      row.(status := Pending, attempts := row.attempts + 1, nextRetryAt := ts + Backoff(seen, random))
    else row.(status := Failed, attempts := row.attempts + 1)
  }

  function Resolve(t: Tables, id: nat, seen: nat, ts: Time, ok: bool, random: nat): Tables
    requires id in t.outbox
  {
    t.(outbox := t.outbox[id := Answered(t.outbox[id], seen, ts, ok, random)])
  }

  /** One claimed row: breaker, then budget, then the provider. */
  function SentOne(t: Tables, id: nat, pol: Policy, ts: Time, ok: bool, random: nat): Tables
    requires id in t.outbox
  {
    var channel := t.outbox[id].channel;
    var until := OpenUntil(t, channel, ts);
    if until.Some? then Defer(t, id, until.value)
    else if OverBudget(t, pol, channel, ts) then Throttle(t, id, ts)
    else Resolve(RecordResult(t, channel, ts, ok), id, t.outbox[id].attempts, ts, ok, random)
  }

  /** The row's provider call is made, and fails. */
  predicate SendFails(t: Tables, id: nat, pol: Policy, ts: Time, ok: bool)
    requires id in t.outbox
  {
    var channel := t.outbox[id].channel;
    OpenUntil(t, channel, ts).None? && !OverBudget(t, pol, channel, ts) && !ok
  }

  /** What a drain may be told by the outside: the provider's answer and the random draw for each row. */
  datatype Outside = Outside(answer: nat -> bool, draw: nat -> nat)

  /** A drain over the claimed ids, in order. */
  function Drained(t: Tables, ids: seq<nat>, pol: Policy, ts: Time, env: Outside): (r: Tables)
    requires forall id :: id in ids ==> id in t.outbox
    ensures r.outbox.Keys == t.outbox.Keys
  {
    if ids == [] then t
    else
      var last := |ids| - 1;
      var id := ids[last];
      SentOne(Drained(t, ids[..last], pol, ts, env), id, pol, ts, env.answer(id), env.draw(id))
  }

  /** Whether the i-th claimed row of a drain fails, and so whether the drain reports its error. */
  predicate FailsAt(t: Tables, ids: seq<nat>, i: nat, pol: Policy, ts: Time, env: Outside)
    requires i < |ids| && forall id :: id in ids ==> id in t.outbox
  {
    SendFails(Drained(t, ids[..i], pol, ts, env), ids[i], pol, ts, env.answer(ids[i]))
  }

  // ------------------------------------------------------------------ digests

  function MarkFlushed(t: Tables, keys: seq<BatchKey>): Tables {
    t.(batches := map k | k in t.batches :: if k in keys then t.batches[k].(flushed := true) else t.batches[k])
  }

  function InsertSummary(t: Tables, k: BatchKey, count: nat, ts: Time): Tables {
    InsertRow(t, Summary(k, count), k.digest.channel, ts)
  }

  /** Summary rows for the claimed batches, in order, each with the count read at claim time. */
  function Summarised(t: Tables, keys: seq<BatchKey>, counts: map<BatchKey, nat>, ts: Time): Tables
    requires forall k :: k in keys ==> k in counts
  {
    if keys == [] then t
    else
      var last := |keys| - 1;
      InsertSummary(Summarised(t, keys[..last], counts, ts), keys[last], counts[keys[last]], ts)
  }

  function Counts(batches: map<BatchKey, Batch>): map<BatchKey, nat> {
    map k | k in batches :: batches[k].count
  }

  function Flushed(t: Tables, keys: seq<BatchKey>, ts: Time): Tables
    requires forall k :: k in keys ==> k in t.batches
  {
    Summarised(MarkFlushed(t, keys), keys, Counts(t.batches), ts)
  }

  function RequeuedRow(row: OutboxRow): OutboxRow {
    if row.status.Sending? then row.(status := Pending) else row
  }

  function Requeue(t: Tables): Tables {
    t.(outbox := map id | id in t.outbox :: RequeuedRow(t.outbox[id]))
  }
}
