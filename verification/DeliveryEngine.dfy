/** The notification engine in the form the server runs it: tables updated in place by the
    dispatcher (`dispatch.go`) and by the outbox worker (`worker.go`). Every method is proved
    to compute the corresponding function of module DeliveryTables. */
module DeliveryEngine {
  import opened Common
  import opened DeliveryPolicy
  import opened Incidents
  import opened DeliveryTables
  import DeliveryLaws

  ghost function FirstAt<T>(s: seq<T>, x: T): (i: nat)
    requires x in s
    ensures i < |s| && s[i] == x && x !in s[..i]
  {
    if s[0] == x then 0 else 1 + FirstAt(s[1..], x)
  }

  /** Keeps the known channels, once each, in order of first appearance. An unknown name is None. */
  method CleanChannels(names: seq<Option<Channel>>) returns (out: seq<Channel>)
    ensures Distinct(out)
    ensures forall c :: c in out <==> Some(c) in names
    ensures forall i, j :: 0 <= i < j < |out| ==> FirstAt(names, Some(out[i])) < FirstAt(names, Some(out[j]))
  {
    out := [];
    for n := 0 to |names|
      invariant Distinct(out)
      invariant forall c :: c in out <==> Some(c) in names[..n]
      invariant forall i, j :: 0 <= i < j < |out| ==> FirstAt(names, Some(out[i])) < FirstAt(names, Some(out[j]))
    {
      assert names[..n + 1] == names[..n] + [names[n]];
      if names[n].Some? && names[n].value !in out {
        assert FirstAt(names, names[n]) == n;
        out := out + [names[n].value];
      }
    }
    assert names[..|names|] == names;
  }

  /** The first batch of an `ORDER BY due-time LIMIT 25` query. */
  method PickEarliest<T(==)>(due: map<T, Time>) returns (chosen: seq<T>)
    ensures Earliest(chosen, due)
  {
    chosen := [];
    var rest := due;
    while |chosen| < CLAIM_BATCH_SIZE && rest != map[]
      invariant |chosen| <= CLAIM_BATCH_SIZE
      invariant Distinct(chosen)
      invariant forall i :: 0 <= i < |chosen| ==> chosen[i] in due
      invariant forall d :: d in rest <==> d in due && d !in chosen
      invariant forall d :: d in rest ==> rest[d] == due[d]
      invariant forall i, j :: 0 <= i < j < |chosen| ==> due[chosen[i]] <= due[chosen[j]]
      invariant forall i, d :: 0 <= i < |chosen| && d in rest ==> due[chosen[i]] <= due[d]
      decreases CLAIM_BATCH_SIZE - |chosen|
    {
      var first := Soonest(rest);
      chosen := chosen + [first];
      rest := rest - {first};
    }
  }

  method Soonest<T(==)>(m: map<T, Time>) returns (first: T)
    requires m != map[]
    ensures first in m
    ensures forall d :: d in m ==> m[first] <= m[d]
  {
    var keys := m.Keys;
    first :| first in keys;
    keys := keys - {first};
    while keys != {}
      invariant keys <= m.Keys && first in m
      invariant forall d :: d in m && d !in keys ==> m[first] <= m[d]
      decreases keys
    {
      var k :| k in keys;
      if m[k] < m[first] {
        first := k;
      }
      keys := keys - {k};
    }
  }

  /** Of the first n rows of a drain, `first` is the earliest that fails. */
  ghost predicate FirstFailure(t: Tables, ids: seq<nat>, n: nat, pol: Policy, ts: Time, env: Outside, first: Option<nat>)
    requires n <= |ids| && forall id :: id in ids ==> id in t.outbox
  {
    match first
    case None => forall k: nat :: k < n ==> !FailsAt(t, ids, k, pol, ts, env)
    case Some(i) => i < n && FailsAt(t, ids, i, pol, ts, env) && forall k: nat :: k < i ==> !FailsAt(t, ids, k, pol, ts, env)
  }

  lemma NextFailure(t: Tables, ids: seq<nat>, i: nat, pol: Policy, ts: Time, env: Outside, first: Option<nat>)
    requires i < |ids| && forall id :: id in ids ==> id in t.outbox
    requires FirstFailure(t, ids, i, pol, ts, env, first)
    ensures FirstFailure(t, ids, i + 1, pol, ts, env, if first.None? && FailsAt(t, ids, i, pol, ts, env) then Some(i) else first)
  {
  }

  class Engine {
    var state: map<string, StateRow>
    var outbox: map<nat, OutboxRow>
    var nextId: nat
    var batches: map<BatchKey, Batch>
    var breakers: map<Channel, Breaker>

    ghost function View(): Tables
      reads this
    {
      Tables(state, outbox, nextId, batches, breakers)
    }

    constructor ()
      ensures View() == Tables(map[], map[], 0, map[], map[])
    {
      state, outbox, nextId, batches, breakers := map[], map[], 0, map[], map[];
    }

    // ----------------------------------------------------------- dispatcher

    /** Applies the policy: an invalid request is refused, a gated one is recorded as held,
        and any other is claimed. `dbNow` is the database clock the held row is stamped with. */
    method Dispatch(raw: Input, names: seq<Option<Channel>>, policyRow: Option<Policy>, gates: Gates, ts: Time, dbNow: Time)
      returns (outcome: Option<Action>, ghost req: Input)
      modifies this
      ensures req == raw.(channels := req.channels) && Distinct(req.channels)
      ensures forall c :: c in req.channels <==> Some(c) in names
      ensures outcome.None? <==> raw.key == "" || forall c :: Some(c) !in names
      ensures outcome.None? ==> View() == old(View())
      ensures outcome.Some? ==>
        var pol := LoadPolicy(policyRow);
        var gate := GateReason(req, pol, gates, ts);
        if gate.Some? then
          View() == Held(old(View()), req, gate.value, dbNow) && outcome.value == Suppressed(gate.value)
        else
          View() == Claimed(old(View()), req, pol, ts) && outcome.value == ClaimAction(old(View()), req, pol, ts)
    {
      var channels := CleanChannels(names);
      var request := raw.(channels := channels);
      req := request;
      if raw.key == "" || |channels| == 0 {
        return None, request;
      }
      assert channels[0] in channels;
      var pol: ValidPolicy := LoadPolicy(policyRow);
      if pol.PauseActive(ts) {
        TouchSuppressed(request, EmergencyPause, dbNow);
        return Some(Suppressed(EmergencyPause)), request;
      }
      if gates.maintenance {
        TouchSuppressed(request, Maintenance, dbNow);
        return Some(Suppressed(Maintenance)), request;
      }
      if gates.quiet.InQuiet(gates.localMinutes) && !(request.severity.Critical? && gates.quiet.allowCritical) {
        TouchSuppressed(request, QuietHold, dbNow);
        return Some(Suppressed(QuietHold)), request;
      }
      var action := ClaimAndEnqueue(request, pol, ts);
      return Some(action), request;
    }

    method TouchSuppressed(req: Input, reason: Reason, dbNow: Time)
      modifies this
      ensures View() == Held(old(View()), req, reason, dbNow)
    {
      if req.key !in state {
        state := state[req.key := StateRow(req.severity, dbNow, dbNow, 0, Unset, 1, reason)];
      } else {
        var row := state[req.key];
        state := state[req.key := row.(suppressed := row.suppressed + 1, lastReason := reason)];
      }
    }

    /** The columns the locking SELECT scanned are those of the stored row, or the zero values. */
    ghost predicate Scanned(key: string, hasRow: bool, lastNotified: Time, repeatCount: nat, lastState: Lifecycle, suppressed: nat)
      reads this
    {
      && hasRow == (key in state)
      && if hasRow then
           && state[key].lastNotifiedAt == lastNotified && state[key].repeatCount == repeatCount
           && state[key].lastState == lastState && state[key].suppressed == suppressed
         else
           lastNotified == ZERO_TIME && repeatCount == 0 && lastState == Unset && suppressed == 0
    }

    /** The body of the claim transaction. */
    method ClaimAndEnqueue(req: Input, pol: ValidPolicy, ts: Time) returns (action: Action)
      modifies this
      ensures View() == Claimed(old(View()), req, pol, ts)
      ensures action == ClaimAction(old(View()), req, pol, ts)
    {
      var hasRow := req.key in state;
      var lastNotified, repeatCount, suppressed, lastState := ZERO_TIME, 0, 0, Unset;
      if hasRow {
        var row := state[req.key];
        lastNotified, repeatCount, suppressed, lastState :=
          row.lastNotifiedAt, row.repeatCount, row.suppressed, row.lastState;
      }
      if req.isRecovery {
        action := ClaimRecovery(req, pol, ts, hasRow, lastNotified, repeatCount, lastState, suppressed);
      } else {
        action := ClaimFiring(req, pol, ts, hasRow, lastNotified, repeatCount, lastState, suppressed);
      }
    }

    /** Recovery path: at most one message per incident, and only after a firing one. */
    method ClaimRecovery(req: Input, pol: ValidPolicy, ts: Time, hasRow: bool, lastNotified: Time, repeatCount: nat,
                         lastState: Lifecycle, suppressed: nat) returns (action: Action)
      requires req.isRecovery && Scanned(req.key, hasRow, lastNotified, repeatCount, lastState, suppressed)
      modifies this
      ensures View() == Claimed(old(View()), req, pol, ts)
      ensures action == ClaimAction(old(View()), req, pol, ts)
    {
      var notifyRecovery := req.notifyRecovery || (!hasRow && pol.notifyOnRecovery && req.isRecovery);
      if !notifyRecovery || lastState != Firing {
        SetState(req, ts, hasRow, lastNotified, repeatCount, lastState, Lifecycle.Resolved, false, RecoveryMuted, suppressed + 1);
        return Suppressed(RecoveryMuted);
      }
      action := Publish(req, req.digestMode, ts);
      SetState(req, ts, hasRow, lastNotified, repeatCount, lastState, Lifecycle.Resolved, true, NoReason, suppressed);
    }

    /** Firing path: a resolved row is dropped first (a new cycle), then the cooldown, the
        repeat limit and the repeat interval hold the message back, in that order. */
    method ClaimFiring(req: Input, pol: ValidPolicy, ts: Time, scannedRow: bool, lastNotified: Time, scannedRepeats: nat,
                       scannedState: Lifecycle, scannedSuppressed: nat) returns (action: Action)
      requires !req.isRecovery
      requires Scanned(req.key, scannedRow, lastNotified, scannedRepeats, scannedState, scannedSuppressed)
      modifies this
      ensures View() == Claimed(old(View()), req, pol, ts)
      ensures action == ClaimAction(old(View()), req, pol, ts)
    {
      ghost var t0 := View();
      var hasRow, repeatCount, lastState, suppressed := scannedRow, scannedRepeats, scannedState, scannedSuppressed;
      if hasRow && lastState == Lifecycle.Resolved {
        state := state - {req.key};
        hasRow, lastState, repeatCount, suppressed := false, Unset, 0, 0;
      }
      if hasRow && lastState == Firing {
        var hold := RepeatHold(state[req.key], req, pol, ts);
        if hold != NoReason {
          SetState(req, ts, hasRow, lastNotified, repeatCount, lastState, Firing, false, hold, suppressed + 1);
          return Suppressed(hold);
        }
      }
      action := NotifyFiring(req, pol, ts, hasRow, lastNotified, repeatCount, lastState, suppressed, t0);
    }

    /** The end of the firing path: the message is published and the row written. `t0` are the tables
        before a resolved row was dropped. */
    method NotifyFiring(req: Input, pol: ValidPolicy, ts: Time, hasRow: bool, lastNotified: Time, repeatCount: nat,
                        lastState: Lifecycle, suppressed: nat, ghost t0: Tables) returns (action: Action)
      requires !req.isRecovery && Decide(Lookup(t0.state, req.key), req, pol, ts).Notify?
      requires View() == t0.(state := state)
      requires if hasRow then state == t0.state && !lastState.Resolved? else state == t0.state - {req.key}
      requires Scanned(req.key, hasRow, if hasRow then lastNotified else ZERO_TIME, repeatCount, lastState, suppressed)
      requires hasRow <==> !CreatesRow(Lookup(t0.state, req.key), req)
      modifies this
      ensures View() == Claimed(t0, req, pol, ts)
      ensures action == ClaimAction(t0, req, pol, ts)
    {
      PublishedCommutes(t0, state, req, ts);
      action := Publish(req, req.digestMode && req.severity != Critical, ts);
      SetState(req, ts, hasRow, lastNotified, repeatCount, lastState, Firing, true, NoReason, suppressed);
    }

    /** Why a firing incident's repeat is held back, or NoReason. */
    method RepeatHold(row: StateRow, req: Input, pol: ValidPolicy, ts: Time) returns (hold: Reason)
      requires !req.isRecovery && row.lastState == Firing
      ensures Decide(Some(row), req, pol, ts) == if hold == NoReason then Notify else Mute(hold)
    {
      var elapsed := ts - row.lastNotifiedAt;
      if elapsed < Cooldown(pol, req) {
        return CooldownHold;
      }
      if row.repeatCount >= RepeatLimit(pol, req) {
        return MaxRepeatsHold;
      }
      if RepeatInterval(pol, req) > 0 && elapsed < RepeatInterval(pol, req) {
        return CooldownHold;
      }
      return NoReason;
    }

    /** Batches the notification, or pages it immediately. */
    method Publish(req: Input, digest: bool, ts: Time) returns (action: Action)
      requires digest == GoesToDigest(req)
      modifies this`outbox, this`nextId, this`batches
      ensures View() == Published(old(View()), req, ts)
      ensures action == if digest then Digested else Queued
    {
      if digest {
        AppendToDigest(req, ts);
        return Digested;
      }
      EnqueueAll(req, ts);
      return Queued;
    }

    /** Writes the state row: an UPDATE of the row that was read, or an INSERT. */
    method SetState(req: Input, ts: Time, hasRow: bool, lastNotified: Time, repeatCount: nat, lastState: Lifecycle,
                    newState: Lifecycle, notified: bool, reason: Reason, suppressed: nat)
      requires hasRow ==> req.key in state
      modifies this`state
      ensures state == old(state)[req.key := StateRow(
        req.severity,
        if hasRow then old(state)[req.key].firstNotifiedAt else if notified then ts else ZERO_TIME,
        if notified then ts else lastNotified,
        if !notified then repeatCount
        else if hasRow && lastState == Firing && newState == Firing then repeatCount + 1
        else if !hasRow || lastState == Lifecycle.Resolved then 0
        else repeatCount,
        newState, suppressed, reason)]
    {
      var stamp, repeats := lastNotified, repeatCount;
      if notified {
        stamp := ts;
        if hasRow && lastState == Firing && newState == Firing {
          repeats := repeats + 1;
        } else if !hasRow || lastState == Lifecycle.Resolved {
          repeats := 0;
        }
      }
      if hasRow {
        var first := state[req.key].firstNotifiedAt;
        state := state[req.key := StateRow(req.severity, first, stamp, repeats, newState, suppressed, reason)];
      } else {
        var first := if notified then ts else ZERO_TIME;
        if notified && stamp == ZERO_TIME {
          stamp := ts;
        }
        state := state[req.key := StateRow(req.severity, first, stamp, repeats, newState, suppressed, reason)];
      }
    }

    method EnqueueAll(req: Input, ts: Time)
      modifies this`outbox, this`nextId
      ensures View() == Enqueue(old(View()), Incident(req.key, req.severity), req.channels, ts)
    {
      for i := 0 to |req.channels|
        invariant View() == Enqueue(old(View()), Incident(req.key, req.severity), req.channels[..i], ts)
      {
        assert req.channels[..i + 1][..i] == req.channels[..i];
        outbox := outbox[nextId := OutboxRow(Incident(req.key, req.severity), req.channels[i], Pending, 0, ts, None)];
        nextId := nextId + 1;
      }
      assert req.channels[..|req.channels|] == req.channels;
    }

    method AppendToDigest(req: Input, ts: Time)
      modifies this`batches
      ensures batches == AppendDigest(old(batches), req.digestGroup, req.channels, req.digestIntervalMin, ts)
    {
      var interval := if req.digestIntervalMin <= 0 then 60 else req.digestIntervalMin;
      var windowEnd := WindowEnd(ts, interval * MINUTE);
      for i := 0 to |req.channels|
        invariant batches == AppendDigest(old(batches), req.digestGroup, req.channels[..i], req.digestIntervalMin, ts)
      {
        assert req.channels[..i + 1][..i] == req.channels[..i];
        UpsertBatch(BatchKey(RuleDigest(req.digestGroup, req.channels[i]), windowEnd));
      }
      assert req.channels[..|req.channels|] == req.channels;
    }

    method UpsertBatch(k: BatchKey)
      modifies this`batches
      ensures batches == Upsert(old(batches), k)
    {
      if k !in batches {
        batches := batches[k := Batch(1, false)];
      } else if !batches[k].flushed {
        batches := batches[k := batches[k].(count := batches[k].count + 1)];
      }
    }

    // --------------------------------------------------------------- worker

    /** Locks the earliest due rows and marks them as being sent. Due are the pending and the deferred
        rows whose retry time has come; when there are at most 25 of them none is left out. */
    method ClaimDue(ts: Time) returns (ids: seq<nat>)
      modifies this`outbox
      ensures DeliveryLaws.TakesFrom(ids, DeliveryLaws.WaitingRows(old(outbox), ts))
      ensures Earliest(ids, map id | id in old(DueRows(View(), ts)) :: old(outbox[id].nextRetryAt))
      ensures View() == MarkSending(old(View()), ids)
    {
      ghost var t := View();
      var due := map id | id in outbox && Due(outbox[id], ts) :: outbox[id].nextRetryAt;
      ids := PickEarliest(due);
      assert due == map id | id in DueRows(t, ts) :: t.outbox[id].nextRetryAt;
      assert forall i :: 0 <= i < |ids| ==> ids[i] in due;
      DeliveryLaws.TakesAll(ids, due);
      DeliveryLaws.DueColumns(t, ts);
      MarkAll(ids);
    }

    method MarkAll(ids: seq<nat>)
      requires forall i :: 0 <= i < |ids| ==> ids[i] in outbox
      modifies this`outbox
      ensures outbox == SetStatus(old(outbox), ids, Sending)
    {
      for i := 0 to |ids|
        invariant outbox == SetStatus(old(outbox), ids[..i], Sending)
      {
        assert ids[..i + 1] == ids[..i] + [ids[i]];
        outbox := outbox[ids[i] := outbox[ids[i]].(status := Sending)];
      }
      assert ids[..|ids|] == ids;
    }

    /** Whether the channel's breaker is open, and until when. */
    method CircuitOpen(channel: Channel, ts: Time) returns (until: Option<Time>)
      ensures until == OpenUntil(View(), channel, ts)
    {
      var stored := if channel in breakers then breakers[channel].openedUntil else None;
      if stored.Some? && stored.value != ZERO_TIME && ts < stored.value {
        return stored;
      }
      return None;
    }

    /** Counts a failure; from the fifth in a row on it opens the breaker. */
    method OpenCircuit(channel: Channel, ts: Time)
      modifies this`breakers
      ensures View() == RecordResult(old(View()), channel, ts, false)
    {
      var n := if channel in breakers then breakers[channel].failures else 0;
      n := n + 1;
      var until := None;
      if n >= CIRCUIT_THRESHOLD {
        until := Some(ts + CIRCUIT_OPEN_FOR);
      }
      breakers := breakers[channel := Breaker(n, until)];
    }

    method CloseCircuit(channel: Channel, ts: Time)
      modifies this`breakers
      ensures View() == RecordResult(old(View()), channel, ts, true)
    {
      breakers := breakers[channel := Breaker(0, None)];
    }

    /** A failed attempt: another try later, or the end. */
    method Fail(id: nat, row: OutboxRow, ts: Time, random: nat)
      requires id in outbox && row == outbox[id]
      modifies this`outbox
      ensures View() == Resolve(old(View()), id, row.attempts, ts, false, random)
    {
      if row.attempts + 1 < MAX_ATTEMPTS {
        var delay := Backoff(row.attempts, random);
        outbox := outbox[id := row.(status := Pending, attempts := row.attempts + 1, nextRetryAt := ts + delay)];
      } else {
        outbox := outbox[id := row.(status := Failed, attempts := row.attempts + 1)];
      }
    }

    /** Over budget: the row waits, and the event joins the channel's overflow batch. */
    method DeferOverBudget(id: nat, row: OutboxRow, ts: Time)
      requires id in outbox && row == outbox[id]
      modifies this`outbox, this`batches
      ensures View() == Throttle(old(View()), id, ts)
    {
      outbox := outbox[id := row.(status := Deferred, nextRetryAt := ts + RATE_DEFERRAL)];
      UpsertBatch(BatchKey(Overflow(row.channel), WindowEnd(ts, OVERFLOW_WINDOW)));
    }

    /** Delivers one claimed row: breaker, rate budget, provider, bookkeeping. */
    method SendOne(id: nat, pol: Policy, ts: Time, ok: bool, random: nat) returns (failed: bool)
      requires id in outbox
      modifies this
      ensures View() == SentOne(old(View()), id, pol, ts, ok, random)
      ensures state == old(state) && nextId == old(nextId)
      ensures failed == SendFails(old(View()), id, pol, ts, ok)
    {
      var row := outbox[id];
      var until := CircuitOpen(row.channel, ts);
      if until.Some? {
        outbox := outbox[id := row.(status := Deferred, nextRetryAt := until.value)];
        return false;
      }
      var sent := set r | r in outbox && SentWithin(outbox[r], row.channel, ts - HOUR);
      assert sent == RecentlySent(View(), row.channel, ts);
      if |sent| >= pol.BudgetFor(row.channel) {
        DeferOverBudget(id, row, ts);
        return false;
      }
      if !ok {
        OpenCircuit(row.channel, ts);
        Fail(id, row, ts, random);
        return true;
      }
      CloseCircuit(row.channel, ts);
      outbox := outbox[id := row.(status := Sent, sentAt := Some(ts), attempts := row.attempts + 1)];
      return false;
    }

    /** Claims and sends the due rows once, with one clock reading for the whole batch. `firstError`
        is the place of the first row whose provider call failed; later rows are still handled. */
    method Drain(pol: Policy, ts: Time, env: Outside) returns (ids: seq<nat>, firstError: Option<nat>)
      modifies this
      ensures Earliest(ids, map id | id in old(DueRows(View(), ts)) :: old(outbox[id].nextRetryAt))
      ensures DeliveryLaws.TakesFrom(ids, DeliveryLaws.WaitingRows(old(outbox), ts))
      ensures forall id :: id in ids ==> id in old(outbox)
      ensures View() == Drained(MarkSending(old(View()), ids), ids, pol, ts, env)
      ensures FirstFailure(MarkSending(old(View()), ids), ids, |ids|, pol, ts, env, firstError)
    {
      ids := ClaimDue(ts);
      firstError := SendAll(ids, pol, ts, env);
    }

    method SendAll(ids: seq<nat>, pol: Policy, ts: Time, env: Outside) returns (firstError: Option<nat>)
      requires forall id :: id in ids ==> id in outbox
      modifies this
      ensures View() == Drained(old(View()), ids, pol, ts, env)
      ensures FirstFailure(old(View()), ids, |ids|, pol, ts, env, firstError)
    {
      ghost var t := View();
      firstError := None;
      for i := 0 to |ids|
        invariant View() == Drained(t, ids[..i], pol, ts, env)
        invariant FirstFailure(t, ids, i, pol, ts, env, firstError)
      {
        assert ids[..i + 1][..i] == ids[..i];
        var failed := SendOne(ids[i], pol, ts, env.answer(ids[i]), env.draw(ids[i]));
        NextFailure(t, ids, i, pol, ts, env, firstError);
        if failed && firstError == None {
          firstError := Some(i);
        }
      }
      assert ids[..|ids|] == ids;
    }

    /** Rows left in `sending` by a crash go back to pending. */
    method RequeueStale() returns (n: nat)
      modifies this`outbox
      ensures View() == Requeue(old(View()))
      ensures n == |set id | id in old(outbox) && old(outbox)[id].status.Sending?|
    {
      var stale := set id | id in outbox && outbox[id].status.Sending?;
      n := |stale|;
      ghost var t := outbox;
      while stale != {}
        invariant outbox.Keys == t.Keys
        invariant forall id :: id in stale ==> id in t && outbox[id] == t[id] && t[id].status.Sending?
        invariant forall id :: id in t && id !in stale ==> outbox[id] == RequeuedRow(t[id])
        decreases stale
      {
        var id :| id in stale;
        outbox := outbox[id := outbox[id].(status := Pending)];
        stale := stale - {id};
      }
    }

    /** Closes the earliest due batches, then inserts one summary row for each. Due are the open batches
        whose window has ended; when there are at most 25 of them none is left out. */
    method FlushDigests(ts: Time) returns (keys: seq<BatchKey>)
      modifies this
      ensures DeliveryLaws.TakesFrom(keys, DeliveryLaws.WaitingBatches(old(batches), ts))
      ensures Earliest(keys, map k | k in old(DueBatches(batches, ts)) :: k.windowEnd)
      ensures forall k :: k in keys ==> k in old(batches)
      ensures View() == Flushed(old(View()), keys, ts)
    {
      ghost var t := View();
      var due := map k | k in batches && DueBatch(batches, k, ts) :: k.windowEnd;
      keys := PickEarliest(due);
      assert due == map k | k in DueBatches(t.batches, ts) :: k.windowEnd;
      assert forall i :: 0 <= i < |keys| ==> keys[i] in due;
      DeliveryLaws.TakesAll(keys, due);
      DeliveryLaws.DueColumns(t, ts);
      var counts := map k | k in batches :: batches[k].count;
      CloseBatches(keys);
      InsertSummaries(keys, counts, ts);
    }

    method CloseBatches(keys: seq<BatchKey>)
      requires forall i :: 0 <= i < |keys| ==> keys[i] in batches
      modifies this`batches
      ensures View() == MarkFlushed(old(View()), keys)
    {
      for i := 0 to |keys|
        invariant View() == MarkFlushed(old(View()), keys[..i])
      {
        assert keys[..i + 1] == keys[..i] + [keys[i]];
        batches := batches[keys[i] := batches[keys[i]].(flushed := true)];
      }
      assert keys[..|keys|] == keys;
    }

    method InsertSummaries(keys: seq<BatchKey>, counts: map<BatchKey, nat>, ts: Time)
      requires forall i :: 0 <= i < |keys| ==> keys[i] in counts
      modifies this`outbox, this`nextId
      ensures View() == Summarised(old(View()), keys, counts, ts)
    {
      for i := 0 to |keys|
        invariant View() == Summarised(old(View()), keys[..i], counts, ts)
      {
        assert keys[..i + 1][..i] == keys[..i];
        outbox := outbox[nextId := OutboxRow(Summary(keys[i], counts[keys[i]]), keys[i].digest.channel, Pending, 0, ts, None)];
        nextId := nextId + 1;
      }
      assert keys[..|keys|] == keys;
    }
  }
}
