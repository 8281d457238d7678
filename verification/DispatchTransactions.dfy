/** Concurrent `Dispatch` calls for one dedupe key, split at their database statements.

    A call reads the row with SELECT ... FOR UPDATE, writes its outbox or digest rows one
    statement at a time, writes the state row, and commits. The lock covers an existing row
    only: a call that saw no row holds nothing until its INSERT, which fails on the unique
    `dedupe_key` when a row was committed meanwhile. A "no row" answer may be stale (the
    statement's snapshot predates a commit, or the row it waited for was deleted and
    re-inserted), so the model allows it at any time. Any call may abort at any point. */
module DispatchTransactions {
  import opened Common
  import opened DeliveryPolicy
  import opened Incidents
  import opened IncidentRuns
  import Db = DeliveryTables

  datatype Write =
    | OutboxInsert(channel: Channel, due: Time)
    | DigestAppend(channel: Channel, group: string, intervalMin: int, at: Time)

  function WriteFor(req: Input, channel: Channel, ts: Time): Write {
    if GoesToDigest(req)
    then DigestAppend(channel, req.digestGroup, req.digestIntervalMin, ts)
    else OutboxInsert(channel, ts)
  }

  /** The outbox or digest statements of a claim that read `row`, in execution order. */
  function Plan(row: Option<StateRow>, req: Input, pol: ValidPolicy, ts: Time): seq<Write> {
    if Decide(row, req, pol, ts).Mute? then
      []
    else
      seq(|req.channels|, i requires 0 <= i < |req.channels| => WriteFor(req, req.channels[i], ts))
  }

  datatype Phase =
    | Begun
    | Reading(row: Option<StateRow>)   // row read; locked when there is one
    | Settled(row: Option<StateRow>)   // state row written, not yet committed
    | Committed
    | Aborted

  datatype Call = Call(req: Input, pol: ValidPolicy, ts: Time, phase: Phase, pending: seq<Write>)
  {
    ghost function Writes(row: Option<StateRow>): seq<Write> {
      Plan(row, req, pol, ts)
    }

    /** Holds the row lock, or the uncommitted unique-index entry of its INSERT. */
    ghost predicate Holds() {
      phase.Settled? || (phase.Reading? && phase.row.Some?)
    }
  }

  /** One committed change of the key, with the rows it published. */
  datatype Commit = Commit(call: Option<nat>, event: Event, writes: seq<Write>)

  datatype World = World(row: Option<StateRow>, calls: map<nat, Call>, log: seq<Commit>)

  datatype Step =
    | Begin(id: nat, req: Input, pol: ValidPolicy, ts: Time)
    | ReadNone(id: nat)
    | ReadLock(id: nat)
    | WriteEffect(id: nat)
    | UpdateState(id: nat)
    | InsertState(id: nat)
    | InsertConflict(id: nat)
    | CommitCall(id: nat)
    | Abort(id: nat)
    | Autocommit(event: Event)   // touchSuppressed or retention pruning

  ghost predicate Free(w: World) {
    forall id :: id in w.calls ==> !w.calls[id].Holds()
  }

  ghost predicate Enabled(w: World, s: Step) {
    match s
    case Begin(id, _, _, _) => id !in w.calls
    case ReadNone(id) => id in w.calls && w.calls[id].phase.Begun?
    case ReadLock(id) => id in w.calls && w.calls[id].phase.Begun? && w.row.Some? && Free(w)
    case WriteEffect(id) =>
      id in w.calls && w.calls[id].phase.Reading?
      && |w.calls[id].pending| < |w.calls[id].Writes(w.calls[id].phase.row)|
    case UpdateState(id) =>
      id in w.calls && w.calls[id].phase.Reading? && w.calls[id].phase.row.Some?
      && |w.calls[id].pending| == |w.calls[id].Writes(w.calls[id].phase.row)|
    case InsertState(id) =>
      id in w.calls && w.calls[id].phase.Reading? && w.calls[id].phase.row.None?
      && |w.calls[id].pending| == |w.calls[id].Writes(None)|
      && w.row.None? && Free(w)
    case InsertConflict(id) =>
      id in w.calls && w.calls[id].phase.Reading? && w.calls[id].phase.row.None? && w.row.Some?
    case CommitCall(id) => id in w.calls && w.calls[id].phase.Settled?
    case Abort(id) => id in w.calls && !w.calls[id].phase.Committed?
    case Autocommit(e) => !e.Claim? && Free(w)
  }

  /** What a step other than a commit makes of the one call it concerns. */
  ghost function NextCall(w: World, s: Step): Call
    requires Enabled(w, s) && !s.CommitCall? && !s.Autocommit?
  {
    match s
    case Begin(_, req, pol, ts) => Call(req, pol, ts, Begun, [])
    case ReadNone(id) => w.calls[id].(phase := Reading(None))
    case ReadLock(id) => w.calls[id].(phase := Reading(w.row))
    case WriteEffect(id) =>
      var c := w.calls[id];
      c.(pending := c.pending + [c.Writes(c.phase.row)[|c.pending|]])
    case UpdateState(id) => w.calls[id].(phase := Settled(w.calls[id].phase.row))
    case InsertState(id) => w.calls[id].(phase := Settled(None))
    case InsertConflict(id) => RolledBack(w.calls[id])
    case Abort(id) => RolledBack(w.calls[id])
  }

  /** A rollback throws the call's unpublished writes away. */
  ghost function RolledBack(c: Call): Call {
    c.(phase := Aborted, pending := [])
  }

  ghost function Put(w: World, id: nat, c: Call): World {
    w.(calls := w.calls[id := c])
  }

  ghost function Apply(w: World, s: Step): World
    requires Enabled(w, s)
  {
    match s
    case CommitCall(id) =>
      var c := w.calls[id];
      Put(w, id, c.(phase := Committed)).(
        row := Some(NextRow(c.phase.row, c.req, c.pol, c.ts)),
        log := w.log + [Commit(Some(id), Claim(c.req, c.pol, c.ts), c.pending)])
    case Autocommit(e) =>
      w.(row := IncidentRuns.Step(w.row, e), log := w.log + [Commit(None, e, [])])
    case _ => Put(w, s.id, NextCall(w, s))
  }

  const EMPTY := World(None, map[], [])

  ghost predicate ValidRun(w: World, steps: seq<Step>)
    decreases |steps|
  {
    steps == [] || (Enabled(w, steps[0]) && ValidRun(Apply(w, steps[0]), steps[1..]))
  }

  ghost function Exec(w: World, steps: seq<Step>): World
    requires ValidRun(w, steps)
    decreases |steps|
  {
    if steps == [] then w else Exec(Apply(w, steps[0]), steps[1..])
  }

  // -------------------------------------------------------- serializability

  ghost function History(log: seq<Commit>): (h: seq<Event>)
    ensures |h| == |log|
  {
    seq(|log|, i requires 0 <= i < |log| => log[i].event)
  }

  ghost predicate SerialWrites(h: seq<Event>, i: nat, writes: seq<Write>)
    requires i < |h|
  {
    writes == if h[i].Claim? then Plan(RowAt(h, i), h[i].req, h[i].pol, h[i].ts) else []
  }

  /** The stored row and every published write are those of running the committed calls
      one after the other in commit order; each committed call published once, and no other
      call published anything. */
  ghost predicate Serial(w: World) {
    && SerialLog(w.row, w.log)
    && (forall i :: 0 <= i < |w.log| ==> EntryMatches(w, w.log[i]))
    && (forall i, j :: 0 <= i < j < |w.log| && w.log[i].call.Some? ==> w.log[i].call != w.log[j].call)
    && (forall id :: id in w.calls && w.calls[id].phase.Committed? ==> Published(w, id))
  }

  ghost predicate SerialLog(row: Option<StateRow>, log: seq<Commit>) {
    row == RowAt(History(log), |log|) && SerialEntries(History(log), log)
  }

  ghost predicate SerialEntries(h: seq<Event>, log: seq<Commit>) {
    |h| == |log| && forall i :: 0 <= i < |log| ==> SerialWrites(h, i, log[i].writes)
  }

  ghost predicate EntryMatches(w: World, e: Commit) {
    if e.call.None? then !e.event.Claim?
    else
      var id := e.call.value;
      && id in w.calls && w.calls[id].phase.Committed?
      && e.event == Claim(w.calls[id].req, w.calls[id].pol, w.calls[id].ts)
  }

  ghost predicate Published(w: World, id: nat) {
    exists i :: 0 <= i < |w.log| && w.log[i].call == Some(id)
  }

  /** A holder is alone, what it read is still the stored row, and its pending writes are
      the prefix of its plan executed so far. */
  ghost predicate Locked(w: World) {
    && (forall a, b :: a in w.calls && b in w.calls && w.calls[a].Holds() && w.calls[b].Holds() ==> a == b)
    && (forall a :: a in w.calls && w.calls[a].Holds() ==> w.calls[a].phase.row == w.row)
    && (forall a :: a in w.calls ==> PendingOk(w.calls[a]))
  }

  ghost predicate PendingOk(c: Call) {
    match c.phase
    case Begun => c.pending == []
    case Reading(row) => c.pending <= c.Writes(row)
    case Settled(row) => c.pending == c.Writes(row)
    case Committed => true
    case Aborted => c.pending == []
  }

  ghost predicate Inv(w: World) {
    Serial(w) && Locked(w)
  }

  lemma {:induction false} RowAtExtends(h: seq<Event>, e: Event, n: nat)
    requires n <= |h|
    ensures RowAt(h + [e], n) == RowAt(h, n)
  {
    if n > 0 {
      RowAtExtends(h, e, n - 1);
    }
  }

  /** Committing one more change on top of a serial log stays serial. */
  lemma AppendSerial(w: World, w': World, c: Commit)
    requires Serial(w)
    requires w'.log == w.log + [c]
    requires w'.row == IncidentRuns.Step(w.row, c.event)
    requires c.writes == if c.event.Claim? then Plan(w.row, c.event.req, c.event.pol, c.event.ts) else []
    requires EntryMatches(w', c)
    requires forall i :: 0 <= i < |w.log| ==> EntryMatches(w', w.log[i])
    requires c.call.Some? ==> forall i :: 0 <= i < |w.log| ==> w.log[i].call != c.call
    requires forall id :: id in w'.calls && w'.calls[id].phase.Committed? ==>
               c.call == Some(id) || (id in w.calls && w.calls[id].phase.Committed?)
    ensures Serial(w')
  {
    AppendSerialLog(w.row, w.log, c);
    PublishedExtends(w, w', c);
  }

  lemma HistoryExtends(log: seq<Commit>, c: Commit)
    ensures History(log + [c]) == History(log) + [c.event]
  {
  }

  lemma RowAtLast(h: seq<Event>, e: Event)
    ensures RowAt(h + [e], |h| + 1) == IncidentRuns.Step(RowAt(h, |h|), e)
  {
    RowAtExtends(h, e, |h|);
  }

  lemma SerialWritesExtend(h: seq<Event>, e: Event, i: nat, writes: seq<Write>)
    requires i < |h| && SerialWrites(h, i, writes)
    ensures SerialWrites(h + [e], i, writes)
  {
    RowAtExtends(h, e, i);
  }

  lemma SerialWritesLast(h: seq<Event>, e: Event, writes: seq<Write>)
    requires writes == if e.Claim? then Plan(RowAt(h, |h|), e.req, e.pol, e.ts) else []
    ensures SerialWrites(h + [e], |h|, writes)
  {
    RowAtExtends(h, e, |h|);
  }

  lemma AppendEntries(h: seq<Event>, log: seq<Commit>, e: Event, c: Commit)
    requires SerialEntries(h, log) && SerialWrites(h + [e], |h|, c.writes)
    ensures SerialEntries(h + [e], log + [c])
  {
    forall i | 0 <= i < |log + [c]|
      ensures SerialWrites(h + [e], i, (log + [c])[i].writes)
    {
      if i < |log| {
        SerialWritesExtend(h, e, i, log[i].writes);
      }
    }
  }

  lemma AppendSerialLog(row: Option<StateRow>, log: seq<Commit>, c: Commit)
    requires SerialLog(row, log)
    requires c.writes == if c.event.Claim? then Plan(row, c.event.req, c.event.pol, c.event.ts) else []
    ensures SerialLog(IncidentRuns.Step(row, c.event), log + [c])
  {
    var h := History(log);
    HistoryExtends(log, c);
    RowAtLast(h, c.event);
    SerialWritesLast(h, c.event, c.writes);
    AppendEntries(h, log, c.event, c);
  }

  lemma PublishedExtends(w: World, w': World, c: Commit)
    requires forall id :: id in w.calls && w.calls[id].phase.Committed? ==> Published(w, id)
    requires w'.log == w.log + [c]
    requires forall id :: id in w'.calls && w'.calls[id].phase.Committed? ==>
               c.call == Some(id) || (id in w.calls && w.calls[id].phase.Committed?)
    ensures forall id :: id in w'.calls && w'.calls[id].phase.Committed? ==> Published(w', id)
  {
    forall id | id in w'.calls && w'.calls[id].phase.Committed?
      ensures Published(w', id)
    {
      if c.call == Some(id) {
        assert w'.log[|w.log|].call == Some(id);
      } else {
        assert Published(w, id);
        var i :| 0 <= i < |w.log| && w.log[i].call == Some(id);
        assert w'.log[i].call == Some(id);
      }
    }
  }

  /** A step that touches one uncommitted call and neither the row nor the log keeps the log serial. */
  lemma LocalKeepsSerial(w: World, id: nat, c: Call)
    requires Serial(w)
    requires id in w.calls ==> !w.calls[id].phase.Committed?
    requires !c.phase.Committed?
    ensures Serial(Put(w, id, c))
  {
    var w' := Put(w, id, c);
    forall i | 0 <= i < |w.log|
      ensures EntryMatches(w', w'.log[i])
    {
      assert EntryMatches(w, w.log[i]);
    }
    forall a | a in w'.calls && w'.calls[a].phase.Committed?
      ensures Published(w', a)
    {
      assert a in w.calls && Published(w, a);
    }
  }

  /** A call may become a holder only of the stored row, and only when nobody else holds it. */
  lemma LocalKeepsLocked(w: World, id: nat, c: Call)
    requires Locked(w) && PendingOk(c)
    requires c.Holds() ==> c.phase.row == w.row && (Free(w) || (id in w.calls && w.calls[id].Holds()))
    ensures Locked(Put(w, id, c))
  {
    var w' := Put(w, id, c);
    forall a, b | a in w'.calls && b in w'.calls && w'.calls[a].Holds() && w'.calls[b].Holds()
      ensures a == b
    {
    }
  }

  lemma CommitKeepsSerial(w: World, id: nat)
    requires Inv(w) && Enabled(w, CommitCall(id))
    ensures Serial(Apply(w, CommitCall(id)))
  {
    var w', c := Apply(w, CommitCall(id)), w.calls[id];
    assert c.Holds() && PendingOk(c);
    forall i | 0 <= i < |w.log|
      ensures EntryMatches(w', w.log[i]) && w.log[i].call != Some(id)
    {
      assert EntryMatches(w, w.log[i]);
    }
    AppendSerial(w, w', Commit(Some(id), Claim(c.req, c.pol, c.ts), c.pending));
  }

  lemma AutocommitKeepsSerial(w: World, e: Event)
    requires Inv(w) && Enabled(w, Autocommit(e))
    ensures Serial(Apply(w, Autocommit(e)))
  {
    var w' := Apply(w, Autocommit(e));
    forall i | 0 <= i < |w.log|
      ensures EntryMatches(w', w.log[i])
    {
      assert EntryMatches(w, w.log[i]);
    }
    AppendSerial(w, w', Commit(None, e, []));
  }

  lemma CommitKeepsLocked(w: World, id: nat)
    requires Locked(w) && Enabled(w, CommitCall(id))
    ensures Locked(Apply(w, CommitCall(id)))
  {
    var w' := Apply(w, CommitCall(id));
    forall a | a in w'.calls
      ensures !w'.calls[a].Holds() && PendingOk(w'.calls[a])
    {
      assert w.calls[id].Holds();
    }
  }

  /** What a local step needs to be harmless. */
  lemma LocalStep(w: World, s: Step)
    requires Locked(w) && Enabled(w, s) && !s.CommitCall? && !s.Autocommit?
    ensures var c := NextCall(w, s);
      && (s.id in w.calls ==> !w.calls[s.id].phase.Committed?)
      && !c.phase.Committed? && PendingOk(c)
      && (c.Holds() ==> c.phase.row == w.row && (Free(w) || (s.id in w.calls && w.calls[s.id].Holds())))
  {
    if s.id in w.calls {
      assert PendingOk(w.calls[s.id]);
    }
  }

  lemma StepKeepsInv(w: World, s: Step)
    requires Inv(w) && Enabled(w, s)
    ensures Inv(Apply(w, s))
  {
    match s
    case CommitCall(id) =>
      CommitKeepsSerial(w, id);
      CommitKeepsLocked(w, id);
    case Autocommit(e) =>
      AutocommitKeepsSerial(w, e);
    case _ =>
      LocalStep(w, s);
      LocalKeepsSerial(w, s.id, NextCall(w, s));
      LocalKeepsLocked(w, s.id, NextCall(w, s));
  }

  lemma {:induction false} RunKeepsInv(w: World, steps: seq<Step>)
    requires Inv(w) && ValidRun(w, steps)
    ensures Inv(Exec(w, steps))
    decreases |steps|
  {
    if steps != [] {
      StepKeepsInv(w, steps[0]);
      RunKeepsInv(Apply(w, steps[0]), steps[1..]);
    }
  }

  /** Every interleaving of concurrent dispatches is equivalent, in commit order, to a serial run. */
  lemma ConcurrentDispatchIsSerial(steps: seq<Step>)
    requires ValidRun(EMPTY, steps)
    ensures Serial(Exec(EMPTY, steps))
  {
    RunKeepsInv(EMPTY, steps);
  }

  /** An aborted call leaves no outbox or digest row: nothing published, nothing pending. */
  lemma AbortLeavesNothing(steps: seq<Step>, id: nat)
    requires ValidRun(EMPTY, steps)
    requires var w := Exec(EMPTY, steps); id in w.calls && w.calls[id].phase.Aborted?
    ensures var w := Exec(EMPTY, steps);
            w.calls[id].pending == [] && forall i :: 0 <= i < |w.log| ==> w.log[i].call != Some(id)
  {
    RunKeepsInv(EMPTY, steps);
    var w := Exec(EMPTY, steps);
    assert PendingOk(w.calls[id]);
    forall i | 0 <= i < |w.log|
      ensures w.log[i].call != Some(id)
    {
      assert EntryMatches(w, w.log[i]);
    }
  }

  /** The spacing bound carries over to every interleaving: two committed firing messages of
      one cycle respect it whatever the commit order did to their clock readings. */
  lemma ConcurrentSpacing(steps: seq<Step>, i: nat, j: nat)
    requires ValidRun(EMPTY, steps)
    requires var w := Exec(EMPTY, steps); var h := History(w.log);
             && i < j < |w.log|
             && w.log[i].event.Claim? && !w.log[i].event.req.isRecovery && w.log[i].writes != []
             && w.log[j].event.Claim? && !w.log[j].event.req.isRecovery && w.log[j].writes != []
             && forall k :: i < k < j ==> !EndsCycle(h, k)
    ensures var a, b := Exec(EMPTY, steps).log[i].event, Exec(EMPTY, steps).log[j].event;
            b.ts - a.ts >= Max(Cooldown(b.pol, b.req), RepeatInterval(b.pol, b.req))
  {
    RunKeepsInv(EMPTY, steps);
    var w := Exec(EMPTY, steps);
    var h := History(w.log);
    assert SerialWrites(h, i, w.log[i].writes) && SerialWrites(h, j, w.log[j].writes);
    Spacing(h, i, j);
  }

  // ------------------------------------------------------- the tables they leave

  /** One published statement, on the tables. */
  ghost function Perform(t: Db.Tables, req: Input, w: Write): Db.Tables {
    match w
    case OutboxInsert(channel, due) => Db.InsertRow(t, Db.Incident(req.key, req.severity), channel, due)
    case DigestAppend(channel, group, intervalMin, at) =>
      t.(batches := Db.Upsert(t.batches, Db.RuleBatch(group, channel, intervalMin, at)))
  }

  ghost function PerformAll(t: Db.Tables, req: Input, writes: seq<Write>): Db.Tables {
    if writes == [] then t
    else Perform(PerformAll(t, req, writes[..|writes| - 1]), req, writes[|writes| - 1])
  }

  lemma {:induction false} PlanPublishes(t: Db.Tables, req: Input, ts: Time, n: nat, writes: seq<Write>)
    requires n <= |req.channels|
    requires writes == seq(n, i requires 0 <= i < n => WriteFor(req, req.channels[i], ts))
    ensures PerformAll(t, req, writes) == Db.Published(t, req.(channels := req.channels[..n]), ts)
  {
    if n > 0 {
      PlanPublishes(t, req, ts, n - 1, writes[..n - 1]);
      assert req.channels[..n][..n - 1] == req.channels[..n - 1];
    }
  }

  ghost function SetRow(t: Db.Tables, key: string, row: Option<StateRow>): Db.Tables {
    t.(state := if row.Some? then t.state[key := row.value] else t.state - {key})
  }

  /** One commit performed on the tables: the published statements and the new row. */
  ghost function Performed(t: Db.Tables, key: string, c: Commit, row: Option<StateRow>): Db.Tables {
    SetRow(if c.event.Claim? then PerformAll(t, c.event.req, c.writes) else t, key, row)
  }

  /** One event run by itself through the engine's own rules. */
  ghost function RunAlone(t: Db.Tables, key: string, e: Event): Db.Tables {
    match e
    case Claim(req, pol, ts) => Db.Claimed(t, req, pol, ts)
    case Hold(severity, reason, dbNow) =>
      SetRow(t, key, Some(HeldRow(Db.Lookup(t.state, key), severity, reason, dbNow)))
    case Prune => SetRow(t, key, IncidentRuns.Step(Db.Lookup(t.state, key), Prune))
  }

  /** Performing the plan and writing the row is the engine's claim. */
  lemma ClaimPerformed(t: Db.Tables, row: Option<StateRow>, req: Input, pol: ValidPolicy, ts: Time)
    requires Db.Lookup(t.state, req.key) == row
    ensures SetRow(PerformAll(t, req, Plan(row, req, pol, ts)), req.key, Some(NextRow(row, req, pol, ts)))
         == Db.Claimed(t, req, pol, ts)
  {
    StateUntouched(t, req, Plan(row, req, pol, ts));
    if Decide(row, req, pol, ts).Notify? {
      PlanPublishes(t, req, ts, |req.channels|, Plan(row, req, pol, ts));
      assert req.channels[..|req.channels|] == req.channels;
    }
  }

  lemma {:induction false} StateUntouched(t: Db.Tables, req: Input, writes: seq<Write>)
    ensures PerformAll(t, req, writes).state == t.state
  {
    if writes != [] {
      StateUntouched(t, req, writes[..|writes| - 1]);
    }
  }

  lemma CommitPerformed(t: Db.Tables, key: string, row: Option<StateRow>, c: Commit)
    requires Db.Lookup(t.state, key) == row
    requires c.event.Claim? ==> c.event.req.key == key
    requires c.writes == if c.event.Claim? then Plan(row, c.event.req, c.event.pol, c.event.ts) else []
    ensures Performed(t, key, c, IncidentRuns.Step(row, c.event)) == RunAlone(t, key, c.event)
    ensures Db.Lookup(RunAlone(t, key, c.event).state, key) == IncidentRuns.Step(row, c.event)
  {
    if c.event.Claim? {
      ClaimPerformed(t, row, c.event.req, c.event.pol, c.event.ts);
    }
  }

  lemma NextCommitPerformed(t: Db.Tables, key: string, log: seq<Commit>, h: seq<Event>, n: nat)
    requires h == History(log) && n < |log|
    requires log[n].event.Claim? ==> log[n].event.req.key == key
    requires SerialWrites(h, n, log[n].writes)
    requires Db.Lookup(t.state, key) == RowAt(h, n)
    ensures Performed(t, key, log[n], RowAt(h, n + 1)) == RunAlone(t, key, h[n])
    ensures Db.Lookup(RunAlone(t, key, h[n]).state, key) == RowAt(h, n + 1)
  {
    CommitPerformed(t, key, RowAt(h, n), log[n]);
  }

  /** A sequence of tables in which each is what the engine makes of the one before, run alone. */
  ghost predicate SerialTables(ts: seq<Db.Tables>, key: string, h: seq<Event>) {
    && |ts| == |h| + 1
    && (forall i :: 0 <= i < |h| ==> ts[i + 1] == RunAlone(ts[i], key, h[i]))
  }

  /** The log is a serial history of the key's own claims and holds. */
  ghost predicate SerialKey(log: seq<Commit>, key: string) {
    forall i :: 0 <= i < |log| ==>
      (log[i].event.Claim? ==> log[i].event.req.key == key) && SerialWrites(History(log), i, log[i].writes)
  }

  /** The key's row in table n is the row of the history, and so it stays one event later. */
  ghost predicate Linked(ts: seq<Db.Tables>, key: string, h: seq<Event>, n: nat)
    requires |ts| == |h| + 1 && n < |h|
  {
    Db.Lookup(ts[n].state, key) == RowAt(h, n) ==> Db.Lookup(ts[n + 1].state, key) == RowAt(h, n + 1)
  }

  lemma {:induction false} SerialLookup(ts: seq<Db.Tables>, key: string, h: seq<Event>, n: nat)
    requires n <= |h| && |ts| == |h| + 1 && key !in ts[0].state
    requires forall i :: 0 <= i < |h| ==> Linked(ts, key, h, i)
    ensures Db.Lookup(ts[n].state, key) == RowAt(h, n)
  {
    if n > 0 {
      SerialLookup(ts, key, h, n - 1);
      assert Linked(ts, key, h, n - 1);
    }
  }

  /** One link of the chain of tables. */
  lemma NextTables(ts: seq<Db.Tables>, key: string, log: seq<Commit>, n: nat)
    requires n < |log| && SerialTables(ts, key, History(log)) && SerialKey(log, key)
    requires Db.Lookup(ts[n].state, key) == RowAt(History(log), n)
    ensures ts[n + 1] == Performed(ts[n], key, log[n], RowAt(History(log), n + 1))
    ensures Db.Lookup(ts[n + 1].state, key) == RowAt(History(log), n + 1)
  {
    NextCommitPerformed(ts[n], key, log, History(log), n);
  }

  lemma TablesLinked(ts: seq<Db.Tables>, key: string, log: seq<Commit>, n: nat)
    requires n < |log| && SerialTables(ts, key, History(log)) && SerialKey(log, key)
    ensures Linked(ts, key, History(log), n)
  {
    if Db.Lookup(ts[n].state, key) == RowAt(History(log), n) {
      NextTables(ts, key, log, n);
    }
  }

  /** What concurrent calls of one key leave in the outbox, the digest batches and the state
      table is what the engine's claim leaves when run serially in commit order: from any tables
      `ts[0]`, performing each commit's published statements walks through the serial run `ts`. */
  lemma ConcurrentTablesAreSerial(steps: seq<Step>, ts: seq<Db.Tables>, key: string, n: nat)
    requires ValidRun(EMPTY, steps)
    requires n < |Exec(EMPTY, steps).log|
    requires SerialTables(ts, key, History(Exec(EMPTY, steps).log)) && key !in ts[0].state
    requires var log := Exec(EMPTY, steps).log;
             forall i :: 0 <= i < |log| && log[i].event.Claim? ==> log[i].event.req.key == key
    ensures var log := Exec(EMPTY, steps).log;
            ts[n + 1] == Performed(ts[n], key, log[n], RowAt(History(log), n + 1))
  {
    RunKeepsInv(EMPTY, steps);
    var log := Exec(EMPTY, steps).log;
    forall i | 0 <= i < |log|
      ensures Linked(ts, key, History(log), i)
    {
      TablesLinked(ts, key, log, i);
    }
    SerialLookup(ts, key, History(log), n);
    NextTables(ts, key, log, n);
  }

  // ------------------------------------------------------------ an undisturbed call

  lemma {:induction false} Then(w: World, a: seq<Step>, b: seq<Step>)
    requires ValidRun(w, a) && ValidRun(Exec(w, a), b)
    ensures ValidRun(w, a + b) && Exec(w, a + b) == Exec(Exec(w, a), b)
    decreases |a|
  {
    if a == [] {
      assert a + b == b;
    } else {
      Then(Apply(w, a[0]), a[1..], b);
      assert (a + b)[1..] == a[1..] + b;
    }
  }

  lemma RunOne(w: World, s: Step)
    requires Enabled(w, s)
    ensures ValidRun(w, [s]) && Exec(w, [s]) == Apply(w, s)
  {
    assert [s][1..] == [];
  }

  /** The first n statements of the plan, executed one by one. */
  lemma {:induction false} WritesRun(w: World, id: nat, n: nat) returns (steps: seq<Step>)
    requires id in w.calls && w.calls[id].phase.Reading? && w.calls[id].pending == []
    requires n <= |w.calls[id].Writes(w.calls[id].phase.row)|
    ensures ValidRun(w, steps)
    ensures Exec(w, steps) == Put(w, id, w.calls[id].(pending := w.calls[id].Writes(w.calls[id].phase.row)[..n]))
  {
    var c := w.calls[id];
    if n == 0 {
      steps := [];
      assert Put(w, id, c.(pending := [])).calls == w.calls;
    } else {
      var before := WritesRun(w, id, n - 1);
      var m := Exec(w, before);
      assert m.calls[id] == c.(pending := c.Writes(c.phase.row)[..n - 1]);
      RunOne(m, WriteEffect(id));
      Then(w, before, [WriteEffect(id)]);
      steps := before + [WriteEffect(id)];
      assert c.Writes(c.phase.row)[..n - 1] + [c.Writes(c.phase.row)[n - 1]] == c.Writes(c.phase.row)[..n];
    }
  }

  lemma WriteStateAndCommit(w: World, id: nat) returns (steps: seq<Step>)
    requires id in w.calls && w.calls[id].phase.Reading? && w.calls[id].phase.row == w.row
    requires w.calls[id].pending == w.calls[id].Writes(w.row)
    requires forall a :: a in w.calls && a != id ==> !w.calls[a].Holds()
    ensures ValidRun(w, steps)
    ensures var c := w.calls[id];
      && Exec(w, steps).row == Some(NextRow(w.row, c.req, c.pol, c.ts))
      && Exec(w, steps).log == w.log + [Commit(Some(id), Claim(c.req, c.pol, c.ts), c.pending)]
      && id in Exec(w, steps).calls && Exec(w, steps).calls[id].phase.Committed?
  {
    var write := if w.row.Some? then UpdateState(id) else InsertState(id);
    var w1 := Apply(w, write);
    RunOne(w, write);
    RunOne(w1, CommitCall(id));
    Then(w, [write], [CommitCall(id)]);
    steps := [write] + [CommitCall(id)];
  }

  /** A call that nobody disturbs commits: it publishes its whole plan on the row it found and leaves the
      row of the reference claim. */
  lemma CallAlone(w: World, id: nat, req: Input, pol: ValidPolicy, ts: Time) returns (steps: seq<Step>)
    requires Free(w) && id !in w.calls
    ensures ValidRun(w, steps)
    ensures Exec(w, steps).row == Some(NextRow(w.row, req, pol, ts))
    ensures Exec(w, steps).log == w.log + [Commit(Some(id), Claim(req, pol, ts), Plan(w.row, req, pol, ts))]
    ensures id in Exec(w, steps).calls && Exec(w, steps).calls[id].phase.Committed?
  {
    var begin, read := Begin(id, req, pol, ts), if w.row.Some? then ReadLock(id) else ReadNone(id);
    var w1 := Apply(w, begin);
    var w2 := Apply(w1, read);
    RunOne(w, begin);
    RunOne(w1, read);
    Then(w, [begin], [read]);
    var plan := Plan(w.row, req, pol, ts);
    var writes := WritesRun(w2, id, |plan|);
    assert plan[..|plan|] == plan;
    var w3 := Exec(w2, writes);
    Then(w, [begin] + [read], writes);
    var last := WriteStateAndCommit(w3, id);
    Then(w, [begin] + [read] + writes, last);
    steps := [begin] + [read] + writes + last;
  }
}
