/** The rules of delivery in the columns of the tables and in plain numbers (microseconds, counts):
    when a request is held, what a message leaves in the outbox or the batches, which events share a
    batch, what becomes of a claimed row, and which rows a drain must claim. */
module DeliveryLaws {
  import opened Common
  import opened DeliveryPolicy
  import opened Incidents
  import opened DeliveryTables

  // --------------------------------------------------------------- dispatching

  /** A request is held exactly during an emergency pause (up to and including its expiry, for ever
      without one), during maintenance, and in quiet hours unless it is critical and the group lets
      critical ones through; the reason is the first that applies. */
  lemma HeldExactly(req: Input, pol: ValidPolicy, gates: Gates, ts: Time)
    ensures
      var paused := pol.emergencyPause
                    && (pol.pauseUntil.None? || pol.pauseUntil.value == ZERO_TIME || ts <= pol.pauseUntil.value);
      var quiet := gates.quiet.InQuiet(gates.localMinutes) && (req.severity != Critical || !gates.quiet.allowCritical);
      && (GateReason(req, pol, gates, ts) == None <==> !paused && !gates.maintenance && !quiet)
      && (GateReason(req, pol, gates, ts) == Some(EmergencyPause) <==> paused)
      && (GateReason(req, pol, gates, ts) == Some(Maintenance) <==> !paused && gates.maintenance)
  {
  }

  ghost predicate Numbered(t: Tables) {
    forall id :: id in t.outbox ==> id < t.nextId
  }

  lemma {:induction false} EnqueueRows(t: Tables, origin: Origin, channels: seq<Channel>, ts: Time)
    requires Numbered(t)
    ensures var r := Enqueue(t, origin, channels, ts);
      && r == t.(outbox := r.outbox, nextId := t.nextId + |channels|)
      && (forall id :: id in r.outbox <==> id in t.outbox || t.nextId <= id < t.nextId + |channels|)
      && (forall id :: id in t.outbox ==> r.outbox[id] == t.outbox[id])
      && (forall i :: 0 <= i < |channels| ==>
            r.outbox[t.nextId + i] == OutboxRow(origin, channels[i], Pending, 0, ts, None))
  {
    if channels != [] {
      EnqueueRows(t, origin, channels[..|channels| - 1], ts);
    }
  }

  /** A message that is not digested (an immediate one, or a critical firing) becomes one pending outbox
      row per channel, due at once, and nothing else changes. */
  lemma QueuedRows(t: Tables, req: Input, ts: Time)
    requires Numbered(t)
    requires !req.digestMode || (!req.isRecovery && req.severity == Critical)
    ensures var r := Published(t, req, ts);
      && r == t.(outbox := r.outbox, nextId := t.nextId + |req.channels|)
      && (forall id :: id in r.outbox <==> id in t.outbox || t.nextId <= id < t.nextId + |req.channels|)
      && (forall id :: id in t.outbox ==> r.outbox[id] == t.outbox[id])
      && (forall i :: 0 <= i < |req.channels| ==>
            r.outbox[t.nextId + i] == OutboxRow(Incident(req.key, req.severity), req.channels[i], Pending, 0, ts, None))
  {
    EnqueueRows(t, Incident(req.key, req.severity), req.channels, ts);
  }

  function CountIn(batches: map<BatchKey, Batch>, k: BatchKey): nat {
    if k in batches then batches[k].count else 0
  }

  ghost predicate IsFlushed(batches: map<BatchKey, Batch>, k: BatchKey) {
    k in batches && batches[k].flushed
  }

  /** The batch of the event for one of its channels. */
  ghost predicate Receives(k: BatchKey, req: Input, channels: seq<Channel>, ts: Time) {
    var width := (if req.digestIntervalMin > 0 then req.digestIntervalMin else 60) * 60_000_000;
    && k.digest.RuleDigest? && k.digest.group == req.digestGroup && k.digest.channel in channels
    && k.windowEnd % width == 0 && ts < k.windowEnd <= ts + width
  }

  lemma OneEnd(a: Time, b: Time, ts: Time, width: int)
    requires width > 0 && a % width == 0 && b % width == 0
    requires ts < a <= ts + width && ts < b <= ts + width
    ensures a == b
  {
    assert a == a / width * width && b == b / width * width;
    assert (a / width - b / width) * width == a - b;
    Magnitude(a / width - b / width, width);
  }

  lemma ReceivesExactly(k: BatchKey, req: Input, channel: Channel, ts: Time)
    ensures k == RuleBatch(req.digestGroup, channel, req.digestIntervalMin, ts) <==> Receives(k, req, [channel], ts)
  {
    var width := DigestWidth(req.digestIntervalMin);
    if Receives(k, req, [channel], ts) {
      OneEnd(k.windowEnd, WindowEnd(ts, width), ts, width);
    }
  }

  lemma ReceivesSplit(k: BatchKey, req: Input, channels: seq<Channel>, ts: Time)
    requires channels != [] && Distinct(channels)
    ensures var init, last := channels[..|channels| - 1], [channels[|channels| - 1]];
      && (Receives(k, req, channels, ts) <==> Receives(k, req, init, ts) || Receives(k, req, last, ts))
      && !(Receives(k, req, init, ts) && Receives(k, req, last, ts))
  {
    assert channels == channels[..|channels| - 1] + [channels[|channels| - 1]];
  }

  /** One upsert, as any batch sees it. */
  lemma UpsertSeen(batches: map<BatchKey, Batch>, hit: BatchKey, k: BatchKey)
    ensures k in Upsert(batches, hit) <==> k in batches || k == hit
    ensures CountIn(Upsert(batches, hit), k) == CountIn(batches, k) + (if k == hit && !IsFlushed(batches, k) then 1 else 0)
    ensures IsFlushed(Upsert(batches, hit), k) <==> IsFlushed(batches, k)
  {
  }

  lemma {:induction false} AppendedEvents(batches: map<BatchKey, Batch>, req: Input, channels: seq<Channel>, ts: Time, k: BatchKey)
    requires Distinct(channels)
    ensures var after := AppendDigest(batches, req.digestGroup, channels, req.digestIntervalMin, ts);
      && (k in after <==> k in batches || Receives(k, req, channels, ts))
      && CountIn(after, k) == CountIn(batches, k) + (if Receives(k, req, channels, ts) && !IsFlushed(batches, k) then 1 else 0)
      && (IsFlushed(after, k) <==> IsFlushed(batches, k))
  {
    if channels != [] {
      var last := |channels| - 1;
      var before := AppendDigest(batches, req.digestGroup, channels[..last], req.digestIntervalMin, ts);
      AppendedEvents(batches, req, channels[..last], ts, k);
      ReceivesExactly(k, req, channels[last], ts);
      ReceivesSplit(k, req, channels, ts);
      UpsertSeen(before, RuleBatch(req.digestGroup, channels[last], req.digestIntervalMin, ts), k);
    }
  }

  /** Any other message is counted once in the batch of its group, its channel and the aligned window
      that holds it, for each of its channels (unless that batch was flushed), and nothing else changes. */
  lemma DigestedEvents(t: Tables, req: Input, ts: Time, k: BatchKey)
    requires Distinct(req.channels) && req.digestMode && (req.isRecovery || req.severity != Critical)
    ensures var r := Published(t, req, ts);
      && r == t.(batches := r.batches)
      && (k in r.batches <==> k in t.batches || Receives(k, req, req.channels, ts))
      && CountIn(r.batches, k) ==
         CountIn(t.batches, k) + (if Receives(k, req, req.channels, ts) && !IsFlushed(t.batches, k) then 1 else 0)
      && (IsFlushed(r.batches, k) <==> IsFlushed(t.batches, k))
  {
    AppendedEvents(t.batches, req, req.channels, ts, k);
  }

  /** A claim that sends nothing leaves the outbox and the batches alone. */
  lemma MutedPublishesNothing(t: Tables, req: Input, pol: ValidPolicy, ts: Time)
    ensures ClaimAction(t, req, pol, ts).Suppressed? ==>
              Claimed(t, req, pol, ts) == t.(state := Claimed(t, req, pol, ts).state)
    ensures !ClaimAction(t, req, pol, ts).Suppressed? ==>
              Claimed(t, req, pol, ts) == Published(t, req, ts).(state := Claimed(t, req, pol, ts).state)
    ensures !ClaimAction(t, req, pol, ts).Suppressed? ==>
              (ClaimAction(t, req, pol, ts) == Digested <==> req.digestMode && (req.isRecovery || req.severity != Critical))
    ensures forall key :: key != req.key && key in t.state ==>
              key in Claimed(t, req, pol, ts).state && Claimed(t, req, pol, ts).state[key] == t.state[key]
  {
  }

  // ------------------------------------------------------------------ batching

  /** Two events of one group and channel share a batch exactly when they lie in one aligned window of
      the interval, 60 minutes when none is set; overflow records of a channel likewise with 15 minutes. */
  lemma SameBatch(group: string, channel: Channel, intervalMin: int, a: Time, b: Time)
    ensures var width := (if intervalMin > 0 then intervalMin else 60) * 60_000_000;
            RuleBatch(group, channel, intervalMin, a) == RuleBatch(group, channel, intervalMin, b) <==> a / width == b / width
    ensures OverflowBatch(channel, a) == OverflowBatch(channel, b) <==> a / 900_000_000 == b / 900_000_000
  {
    SameWindow(a, b, DigestWidth(intervalMin));
    SameWindow(a, b, OVERFLOW_WINDOW);
  }

  ghost function AppendAll(batches: map<BatchKey, Batch>, group: string, channel: Channel, intervalMin: int, at: seq<Time>)
    : map<BatchKey, Batch>
  {
    if at == [] then batches
    else Upsert(AppendAll(batches, group, channel, intervalMin, at[..|at| - 1]),
                RuleBatch(group, channel, intervalMin, at[|at| - 1]))
  }

  ghost predicate SharesWindow(a: Time, b: Time, intervalMin: int) {
    var width := (if intervalMin > 0 then intervalMin else 60) * 60_000_000;
    a / width == b / width
  }

  /** Batching: any number of events of one group and channel within one aligned window, with no flush
      in between, leave one batch with that many more, and no other batch changes. */
  lemma {:induction false} WindowFills(batches: map<BatchKey, Batch>, group: string, channel: Channel, intervalMin: int,
                                       at: seq<Time>, first: Time)
    requires forall ts :: ts in at ==> SharesWindow(ts, first, intervalMin)
    requires !IsFlushed(batches, RuleBatch(group, channel, intervalMin, first))
    ensures var k := RuleBatch(group, channel, intervalMin, first);
      AppendAll(batches, group, channel, intervalMin, at) ==
      if at == [] then batches else batches[k := Batch(CountIn(batches, k) + |at|, false)]
  {
    if at != [] {
      var last := |at| - 1;
      assert forall ts :: ts in at[..last] ==> ts in at;
      WindowFills(batches, group, channel, intervalMin, at[..last], first);
      assert SharesWindow(at[last], first, intervalMin);
      SameBatch(group, channel, intervalMin, at[last], first);
    }
  }

  // -------------------------------------------------------------- a claimed row

  function BudgetOf(pol: Policy, channel: Channel): int {
    match channel
    case Email => pol.emailPerHour
    case Telegram => pol.telegramPerHour
  }

  function SentLastHour(t: Tables, channel: Channel, ts: Time): set<nat> {
    set id | id in t.outbox && t.outbox[id].channel == channel && t.outbox[id].status == Sent
             && t.outbox[id].sentAt.Some? && t.outbox[id].sentAt.value > ts - 3_600_000_000
  }

  ghost predicate BreakerOpen(t: Tables, channel: Channel, ts: Time) {
    && channel in t.breakers && t.breakers[channel].openedUntil.Some?
    && t.breakers[channel].openedUntil.value != ZERO_TIME && ts < t.breakers[channel].openedUntil.value
  }

  /** What becomes of a row whose provider was called: one more attempt, and the row is sent, or due again
      within the retry schedule, or after the fifth attempt failed. */
  ghost predicate AfterCall(row: OutboxRow, after: OutboxRow, ts: Time, ok: bool) {
    if ok then after == row.(status := Sent, sentAt := Some(ts), attempts := row.attempts + 1)
    else if row.attempts < 4 then
      && after == row.(status := Pending, attempts := row.attempts + 1, nextRetryAt := after.nextRetryAt)
      && InSchedule(row.attempts, after.nextRetryAt - ts)
    else after == row.(status := Failed, attempts := row.attempts + 1)
  }

  lemma CallOutcome(row: OutboxRow, ts: Time, ok: bool, random: nat)
    ensures AfterCall(row, Answered(row, row.attempts, ts, ok, random), ts, ok)
  {
    if row.attempts < 4 {
      RetrySchedule(row.attempts, random);
    }
  }

  /** What becomes of a claimed row. An open breaker puts it off until the breaker closes. A channel that
      has used up its budget in the trailing hour puts it off for 15 minutes. Otherwise the provider is
      called, and only then is an attempt counted. */
  lemma RowOutcome(t: Tables, id: nat, pol: Policy, ts: Time, ok: bool, random: nat)
    requires id in t.outbox
    ensures id in SentOne(t, id, pol, ts, ok, random).outbox
    ensures
      var row, after := t.outbox[id], SentOne(t, id, pol, ts, ok, random).outbox[id];
      if BreakerOpen(t, row.channel, ts) then
        after == row.(status := Deferred, nextRetryAt := t.breakers[row.channel].openedUntil.value)
      else if |SentLastHour(t, row.channel, ts)| >= BudgetOf(pol, row.channel) then
        after == row.(status := Deferred, nextRetryAt := ts + 900_000_000)
      else
        AfterCall(row, after, ts, ok)
  {
    assert SentLastHour(t, t.outbox[id].channel, ts) == RecentlySent(t, t.outbox[id].channel, ts);
    CallOutcome(t.outbox[id], ts, ok, random);
  }

  /** And what else a claimed row changes: no other row; the channel's overflow batch of the quarter hour
      when the budget is used up; the channel's breaker when the provider was called. */
  lemma RowSideEffects(t: Tables, id: nat, pol: Policy, ts: Time, ok: bool, random: nat)
    requires id in t.outbox
    ensures
      var row, r := t.outbox[id], SentOne(t, id, pol, ts, ok, random);
      var open, full := BreakerOpen(t, row.channel, ts), |SentLastHour(t, row.channel, ts)| >= BudgetOf(pol, row.channel);
      && r.outbox == t.outbox[id := r.outbox[id]] && r.nextId == t.nextId && r.state == t.state
      && r.batches == (if !open && full then Upsert(t.batches, OverflowBatch(row.channel, ts)) else t.batches)
      && (open || full ==> r.breakers == t.breakers)
      && (!open && !full ==> BreakerMoved(t, r, row.channel, ts, ok))
  {
    assert SentLastHour(t, t.outbox[id].channel, ts) == RecentlySent(t, t.outbox[id].channel, ts);
  }

  ghost predicate BreakerMoved(t: Tables, r: Tables, channel: Channel, ts: Time, ok: bool) {
    && channel in r.breakers && r.breakers == t.breakers[channel := r.breakers[channel]]
    && AfterResult(CountOf(t, channel), r.breakers[channel], ts, ok)
  }

  function CountOf(t: Tables, channel: Channel): nat {
    if channel in t.breakers then t.breakers[channel].failures else 0
  }

  /** A success clears the breaker; a failure is counted, and from the fifth in a row on it opens the
      breaker for five minutes. */
  ghost predicate AfterResult(failures: nat, after: Breaker, ts: Time, ok: bool) {
    if ok then after == Breaker(0, None)
    else if failures >= 4 then after == Breaker(failures + 1, Some(ts + 300_000_000))
    else after == Breaker(failures + 1, None)
  }

  /** The wait before the next attempt: nominally 30, 60, 120 and 240 seconds after the first to fourth
      failure, of which at least half, and always a second more. */
  ghost predicate InSchedule(attempts: nat, delay: int) {
    match attempts
    case 0 => 16_000_000 <= delay < 31_000_000
    case 1 => 31_000_000 <= delay < 61_000_000
    case 2 => 61_000_000 <= delay < 121_000_000
    case 3 => 121_000_000 <= delay < 241_000_000
    case _ => false
  }

  lemma RetrySchedule(attempts: nat, random: nat)
    requires attempts < 4
    ensures InSchedule(attempts, Backoff(attempts, random))
  {
    assert Pow2(0) == 1 && Pow2(1) == 2 && Pow2(2) == 4 && Pow2(3) == 8;
  }

  /** A claim undone by a requeue leaves the row as it was, pending again. */
  lemma RequeueRestores(t: Tables, ids: seq<nat>, id: nat)
    requires id in ids && id in t.outbox
    ensures id in Requeue(MarkSending(t, ids)).outbox
    ensures Requeue(MarkSending(t, ids)).outbox[id] == t.outbox[id].(status := Pending)
  {
  }

  // --------------------------------------------------------------- summaries

  lemma {:induction false} SummaryRows(t: Tables, keys: seq<BatchKey>, counts: map<BatchKey, nat>, ts: Time)
    requires Numbered(t) && forall k :: k in keys ==> k in counts
    ensures var r := Summarised(t, keys, counts, ts);
      && r == t.(outbox := r.outbox, nextId := t.nextId + |keys|)
      && (forall id :: id in r.outbox <==> id in t.outbox || t.nextId <= id < t.nextId + |keys|)
      && (forall id :: id in t.outbox ==> r.outbox[id] == t.outbox[id])
      && (forall i :: 0 <= i < |keys| ==>
            r.outbox[t.nextId + i] ==
            OutboxRow(Summary(keys[i], counts[keys[i]]), keys[i].digest.channel, Pending, 0, ts, None))
  {
    if keys != [] {
      SummaryRows(t, keys[..|keys| - 1], counts, ts);
    }
  }

  /** A flush closes its batches with the counts they have, and adds one pending row for each, on the
      batch's channel, due at once. */
  lemma FlushedBatches(t: Tables, keys: seq<BatchKey>, ts: Time)
    requires Numbered(t) && forall k :: k in keys ==> k in t.batches
    ensures var r := Flushed(t, keys, ts);
      && r.state == t.state && r.breakers == t.breakers && r.nextId == t.nextId + |keys|
      && r.batches.Keys == t.batches.Keys
      && (forall k :: k in t.batches ==>
            r.batches[k] == Batch(t.batches[k].count, k in keys || t.batches[k].flushed))
      && (forall id :: id in r.outbox <==> id in t.outbox || t.nextId <= id < t.nextId + |keys|)
      && (forall id :: id in t.outbox ==> r.outbox[id] == t.outbox[id])
      && (forall i :: 0 <= i < |keys| ==>
            r.outbox[t.nextId + i] ==
            OutboxRow(Summary(keys[i], t.batches[keys[i]].count), keys[i].digest.channel, Pending, 0, ts, None))
  {
    SummaryRows(MarkFlushed(t, keys), keys, Counts(t.batches), ts);
  }

  // ----------------------------------------------------------- what is due

  /** The rows and the batches that are due, by their columns. */
  function WaitingRows(outbox: map<nat, OutboxRow>, ts: Time): set<nat> {
    set id | id in outbox && (outbox[id].status == Pending || outbox[id].status == Deferred) && outbox[id].nextRetryAt <= ts
  }

  function WaitingBatches(batches: map<BatchKey, Batch>, ts: Time): set<BatchKey> {
    set k | k in batches && !batches[k].flushed && k.windowEnd <= ts
  }

  lemma DueColumns(t: Tables, ts: Time)
    ensures DueRows(t, ts) == WaitingRows(t.outbox, ts)
    ensures DueBatches(t.batches, ts) == WaitingBatches(t.batches, ts)
  {
  }

  lemma {:induction false} DistinctCard<T>(s: seq<T>)
    requires Distinct(s)
    ensures |set x | x in s| == |s|
  {
    if s != [] {
      var rest := s[..|s| - 1];
      DistinctCard(rest);
      assert (set x | x in s) == (set x | x in rest) + {s[|s| - 1]};
    } else {
      assert (set x | x in s) == {};
    }
  }

  /** Only what is due is taken, 25 at most, and everything when there are no more than that. */
  ghost predicate TakesFrom<T>(taken: seq<T>, due: set<T>) {
    && (forall x :: x in taken ==> x in due)
    && |taken| <= 25
    && (|due| > 25 ==> |taken| == 25)
    && (|due| <= 25 ==> forall x :: x in due ==> x in taken)
  }

  lemma TakesAll<T>(chosen: seq<T>, due: map<T, Time>)
    requires Earliest(chosen, due)
    ensures TakesFrom(chosen, due.Keys)
  {
    var taken := set x | x in chosen;
    DistinctCard(chosen);
    assert taken <= due.Keys;
    SubsetCard(taken, due.Keys);
    if |due.Keys| <= 25 && |chosen| == 25 {
      SameCard(taken, due.Keys);
    }
    if |chosen| < 25 {
      assert due.Keys <= taken;
      SubsetCard(due.Keys, taken);
    }
  }

  /** A row put off by a breaker or by the budget comes back: a query at or after its retry time takes it,
      when at most 25 rows are due then. */
  lemma PutOffReturns(t: Tables, id: nat, pol: Policy, ts: Time, ok: bool, random: nat, later: Time, taken: seq<nat>)
    requires id in t.outbox
    requires BreakerOpen(t, t.outbox[id].channel, ts)
          || |SentLastHour(t, t.outbox[id].channel, ts)| >= BudgetOf(pol, t.outbox[id].channel)
    requires var after := SentOne(t, id, pol, ts, ok, random).outbox;
             && id in after && later >= after[id].nextRetryAt
             && TakesFrom(taken, WaitingRows(after, later)) && |WaitingRows(after, later)| <= 25
    ensures id in taken
  {
    RowOutcome(t, id, pol, ts, ok, random);
    assert id in WaitingRows(SentOne(t, id, pol, ts, ok, random).outbox, later);
  }

  lemma SameCard<T>(a: set<T>, b: set<T>)
    requires a <= b && |a| >= |b|
    ensures a == b
  {
    forall x | x in b
      ensures x in a
    {
      if x !in a {
        SubsetCard(a, b - {x});
      }
    }
  }
}
