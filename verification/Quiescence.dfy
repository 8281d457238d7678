/** Termination at a fixed clock: ticking the worker loop (drain, then flush) at one instant
    reaches a state in which nothing is due. */
module Quiescence {
  import opened Common
  import opened DeliveryPolicy
  import opened DeliveryTables
  import opened DeliveryLaws
  import opened DeliveryEngine

  /** A handled row is not due again at the same instant, and nothing else becomes due. */
  lemma SentOneLeavesDue(t: Tables, id: nat, pol: Policy, ts: Time, ok: bool, random: nat)
    requires id in t.outbox && t.outbox[id].status.Sending?
    ensures var r := SentOne(t, id, pol, ts, ok, random);
      && DueRows(r, ts) == DueRows(t, ts)
      && DueBatches(r.batches, ts) == DueBatches(t.batches, ts)
      && forall i :: i in t.outbox && i != id ==> r.outbox[i] == t.outbox[i]
  {
    var r := SentOne(t, id, pol, ts, ok, random);
    assert !Due(r.outbox[id], ts);
  }

  lemma {:induction false} DrainLeavesDue(t: Tables, ids: seq<nat>, n: nat, pol: Policy, ts: Time, env: Outside)
    requires n <= |ids| && Distinct(ids)
    requires forall id :: id in ids ==> id in t.outbox && t.outbox[id].status.Sending?
    ensures var r := Drained(t, ids[..n], pol, ts, env);
      && DueRows(r, ts) == DueRows(t, ts)
      && DueBatches(r.batches, ts) == DueBatches(t.batches, ts)
      && forall i :: n <= i < |ids| ==> r.outbox[ids[i]] == t.outbox[ids[i]]
  {
    if n > 0 {
      DrainLeavesDue(t, ids, n - 1, pol, ts, env);
      assert ids[..n][..n - 1] == ids[..n - 1];
      var id := ids[n - 1];
      SentOneLeavesDue(Drained(t, ids[..n - 1], pol, ts, env), id, pol, ts, env.answer(id), env.draw(id));
    }
  }

  /** A drain takes exactly the claimed rows out of the due set and makes no batch due. */
  lemma DrainShrinksDue(t: Tables, ids: seq<nat>, pol: Policy, ts: Time, env: Outside)
    requires Distinct(ids) && forall id :: id in ids ==> id in t.outbox && Due(t.outbox[id], ts)
    ensures var r := Drained(MarkSending(t, ids), ids, pol, ts, env);
      && DueRows(r, ts) == DueRows(t, ts) - (set id | id in ids)
      && DueBatches(r.batches, ts) == DueBatches(t.batches, ts)
  {
    DrainLeavesDue(MarkSending(t, ids), ids, |ids|, pol, ts, env);
    assert ids[..|ids|] == ids;
  }

  lemma {:induction false} SummariesKeepBatches(t: Tables, keys: seq<BatchKey>, counts: map<BatchKey, nat>, ts: Time)
    requires forall k :: k in keys ==> k in counts
    ensures Summarised(t, keys, counts, ts).batches == t.batches
  {
    if keys != [] {
      SummariesKeepBatches(t, keys[..|keys| - 1], counts, ts);
    }
  }

  lemma FlushShrinksDue(t: Tables, keys: seq<BatchKey>, ts: Time)
    requires forall k :: k in keys ==> k in t.batches && DueBatch(t.batches, k, ts)
    ensures DueBatches(Flushed(t, keys, ts).batches, ts) == DueBatches(t.batches, ts) - (set k | k in keys)
    ensures keys == [] ==> Flushed(t, keys, ts) == t
  {
    SummariesKeepBatches(MarkFlushed(t, keys), keys, Counts(t.batches), ts);
  }

  lemma ProperSubset<T>(a: set<T>, b: set<T>, x: T)
    requires a <= b && x in b && x !in a
    ensures |a| < |b|
  {
    SubsetCard(a, b - {x});
  }

  /** The batch a query returns is not empty when something is due. */
  lemma SomethingChosen<T>(chosen: seq<T>, due: map<T, Time>, x: T)
    requires Earliest(chosen, due) && x in due
    ensures chosen != []
  {
  }

  /** The lexicographic measure (due batches, due rows) went down, unless both were empty. */
  ghost predicate Shrunk(t: Tables, r: Tables, ts: Time) {
    && DueBatches(r.batches, ts) <= DueBatches(t.batches, ts)
    && (DueBatches(t.batches, ts) != {} ==> |DueBatches(r.batches, ts)| < |DueBatches(t.batches, ts)|)
    && (DueBatches(t.batches, ts) == {} ==> DueRows(r, ts) <= DueRows(t, ts))
    && (DueBatches(t.batches, ts) == {} && DueRows(t, ts) != {} ==> |DueRows(r, ts)| < |DueRows(t, ts)|)
  }

  lemma Takes<T>(chosen: seq<T>, due: map<T, Time>)
    requires Earliest(chosen, due)
    ensures forall x :: x in chosen ==> x in due
    ensures due.Keys != {} ==> chosen != [] && chosen[0] in due
  {
    assert forall i :: 0 <= i < |chosen| ==> chosen[i] in due;
    if d :| d in due {
      SomethingChosen(chosen, due, d);
    }
  }

  lemma TickShrinks(t: Tables, m: Tables, r: Tables, ids: seq<nat>, keys: seq<BatchKey>, ts: Time)
    requires DueRows(m, ts) == DueRows(t, ts) - (set id | id in ids) && DueBatches(m.batches, ts) == DueBatches(t.batches, ts)
    requires DueBatches(r.batches, ts) == DueBatches(m.batches, ts) - (set k | k in keys) && (keys == [] ==> r == m)
    requires forall k :: k in keys ==> k in DueBatches(m.batches, ts)
    requires DueBatches(m.batches, ts) != {} ==> keys != []
    requires DueRows(t, ts) != {} ==> ids != [] && ids[0] in DueRows(t, ts)
    ensures Shrunk(t, r, ts)
  {
    assert keys != [] ==> keys[0] in DueBatches(m.batches, ts);
    if DueBatches(t.batches, ts) != {} {
      ProperSubset(DueBatches(r.batches, ts), DueBatches(t.batches, ts), keys[0]);
    } else if DueRows(t, ts) != {} {
      ProperSubset(DueRows(r, ts), DueRows(t, ts), ids[0]);
    }
  }

  /** One turn of the worker loop. */
  method Tick(e: Engine, pol: Policy, ts: Time, env: Outside)
    modifies e
    ensures Shrunk(old(e.View()), e.View(), ts)
  {
    ghost var t0 := e.View();
    var ids, _ := e.Drain(pol, ts, env);
    ghost var t1 := e.View();
    Takes(ids, map id | id in DueRows(t0, ts) :: t0.outbox[id].nextRetryAt);
    DrainShrinksDue(t0, ids, pol, ts, env);
    var keys := e.FlushDigests(ts);
    Takes(keys, map k | k in DueBatches(t1.batches, ts) :: k.windowEnd);
    FlushShrinksDue(t1, keys, ts);
    TickShrinks(t0, t1, e.View(), ids, keys, ts);
  }

  /** Ticking at a fixed instant terminates, whatever the provider answers, with nothing due: every
      pending or deferred row has its retry time ahead, and every open batch its window's end. */
  method Settle(e: Engine, pol: Policy, ts: Time, env: nat -> Outside) returns (ticks: nat)
    modifies e
    ensures forall id :: id in e.outbox && (e.outbox[id].status == Pending || e.outbox[id].status == Deferred) ==>
              e.outbox[id].nextRetryAt > ts
    ensures forall k :: k in e.batches && !e.batches[k].flushed ==> k.windowEnd > ts
  {
    ticks := 0;
    while DueRows(Tables(e.state, e.outbox, e.nextId, e.batches, e.breakers), ts) != {} || DueBatches(e.batches, ts) != {}
      decreases |DueBatches(e.batches, ts)|, |DueRows(e.View(), ts)|
    {
      Tick(e, pol, ts, env(ticks));
      ticks := ticks + 1;
    }
    DueColumns(e.View(), ts);
    NothingWaits(e.outbox, e.batches, ts);
  }

  lemma NothingWaits(outbox: map<nat, OutboxRow>, batches: map<BatchKey, Batch>, ts: Time)
    requires WaitingRows(outbox, ts) == {} && WaitingBatches(batches, ts) == {}
    ensures forall id :: id in outbox && (outbox[id].status == Pending || outbox[id].status == Deferred) ==>
              outbox[id].nextRetryAt > ts
    ensures forall k :: k in batches && !batches[k].flushed ==> k.windowEnd > ts
  {
    forall id | id in outbox && (outbox[id].status == Pending || outbox[id].status == Deferred)
      ensures outbox[id].nextRetryAt > ts
    {
      assert id !in WaitingRows(outbox, ts);
    }
    forall k | k in batches && !batches[k].flushed
      ensures k.windowEnd > ts
    {
      assert k !in WaitingBatches(batches, ts);
    }
  }
}
