/** The alert table under interleaving. The statements of any number of sweepers, one per server
    process (the count and the insert of a raise are two of them), mix in any order with heartbeats,
    metrics uploads, webhook inserts and resolves, manual resolves and server deletions. */
module AlertRuns {
  import opened Common
  import opened Alerting

  datatype Phase = Idle | Inserting(p: Pair)

  /** One sweep alert that was inserted, with its notification. */
  datatype Raised = Raised(p: Pair, id: nat)

  /** `raised` is the history of the sweepers' inserts; `late` says that an insert arrived when the
      pair had an open sweep alert. */
  datatype World = World(
    servers: map<nat, Server>,
    metrics: MetricTable,
    alerts: map<nat, Alert>,
    nextId: nat,
    sweepers: map<nat, Phase>,
    raised: seq<Raised>,
    late: bool)

  const FRESH_TABLES: World := World(map[], map[], map[], 0, map[], [], false)

  datatype Step =
    | AddServer(sid: nat, row: Server)
    | Heartbeat(sid: nat, now: Time)
    | IngestMetrics(sid: nat, m: Metric)
    | MarkOffline(w: nat, sid: nat)
    | Count(w: nat, p: Pair)
    | Insert(w: nat)
    | ResolveAlert(w: nat, p: Pair)
    | WebhookInsert(server: Option<nat>, condition: Condition, fingerprint: string)
    | WebhookResolve(fingerprint: string)
    | ManualResolve(id: nat)
    | DeleteServer(sid: nat)

  ghost function PhaseOf(s: World, w: nat): Phase {
    if w in s.sweepers then s.sweepers[w] else Idle
  }

  /** A sweeper between a count and its insert does nothing else; a webhook without a fingerprint
      is dropped. Webhook inserts need no guard of their own here. */
  ghost predicate Enabled(s: World, step: Step) {
    match step
    case MarkOffline(w, _) => PhaseOf(s, w).Idle?
    case Count(w, _) => PhaseOf(s, w).Idle?
    case Insert(w) => PhaseOf(s, w).Inserting?
    case ResolveAlert(w, _) => PhaseOf(s, w).Idle?
    case WebhookInsert(_, _, fp) => fp != ""
    case WebhookResolve(fp) => fp != ""
    case _ => true
  }

  ghost function ResolveFingerprint(alerts: map<nat, Alert>, fp: string): map<nat, Alert> {
    map id | id in alerts :: if alerts[id].fingerprint == fp then alerts[id].(triggered := false) else alerts[id]
  }

  ghost function WithoutServer(alerts: map<nat, Alert>, sid: nat): map<nat, Alert> {
    map id | id in alerts && alerts[id].server != Some(sid) :: alerts[id]
  }

  /** The pair has an open sweep alert. */
  ghost predicate SweepOpen(s: World, p: Pair) {
    exists id :: RaisedBySweep(s.alerts, id, p)
  }

  ghost function Apply(s: World, step: Step): World
    requires Enabled(s, step)
  {
    match step
    case AddServer(sid, row) => s.(servers := s.servers[sid := row])
    case Heartbeat(sid, now) => s.(servers := Beaten(s.servers, sid, now))
    case IngestMetrics(sid, m) => s.(servers := Beaten(s.servers, sid, m.at), metrics := Uploaded(s.metrics, sid, m))
    case MarkOffline(_, sid) =>
      if sid !in s.servers then s
      else s.(servers := s.servers[sid := s.servers[sid].(status := Offline, agent := Disconnected)])
    case Count(w, p) => if Active(s.alerts, p) then s else s.(sweepers := s.sweepers[w := Inserting(p)])
    case Insert(w) =>
      var p := PhaseOf(s, w).p;
      s.(alerts := s.alerts[s.nextId := SweepAlert(p)], nextId := s.nextId + 1,
         sweepers := s.sweepers[w := Idle], raised := s.raised + [Raised(p, s.nextId)],
         late := s.late || SweepOpen(s, p))
    case ResolveAlert(_, p) => s.(alerts := ResolvePair(s.alerts, p))
    case WebhookInsert(server, condition, fp) =>
      s.(alerts := s.alerts[s.nextId := Alert(server, condition, true, "alertmanager", fp)], nextId := s.nextId + 1)
    case WebhookResolve(fp) => s.(alerts := ResolveFingerprint(s.alerts, fp))
    case ManualResolve(id) => s.(alerts := ResolveRow(s.alerts, id))
    case DeleteServer(sid) =>
      s.(servers := s.servers - {sid}, metrics := s.metrics - {sid}, alerts := WithoutServer(s.alerts, sid))
  }

  ghost predicate ValidRun(s: World, steps: seq<Step>)
    decreases |steps|
  {
    steps == [] || (Enabled(s, steps[0]) && ValidRun(Apply(s, steps[0]), steps[1..]))
  }

  ghost function Exec(s: World, steps: seq<Step>): World
    requires ValidRun(s, steps)
    decreases |steps|
  {
    if steps == [] then s else Exec(Apply(s, steps[0]), steps[1..])
  }

  // ------------------------------------------------------------------ invariant

  ghost predicate Open(s: World, id: nat) {
    id in s.alerts && s.alerts[id].triggered
  }

  /** Sweep rows come from recorded inserts. */
  ghost predicate Recorded(s: World, id: nat) {
    id in s.alerts && s.alerts[id].source == "" ==>
      && s.alerts[id].fingerprint == ""
      && s.alerts[id].server.Some?
      && Raised(Pair(s.alerts[id].server.value, s.alerts[id].condition), id) in s.raised
  }

  /** A recorded insert whose row still exists is a sweep row of its pair. */
  ghost predicate RaisedOk(s: World, i: nat)
    requires i < |s.raised|
  {
    var id, p := s.raised[i].id, s.raised[i].p;
    && id < s.nextId
    && (id in s.alerts ==>
          s.alerts[id].source == "" && s.alerts[id].server == Some(p.server) && s.alerts[id].condition == p.condition)
  }

  /** Of two inserts for one pair the earlier is closed. */
  ghost predicate OnlyLastOpen(s: World) {
    forall i, j :: 0 <= i < j < |s.raised| && s.raised[i].p == s.raised[j].p ==> !Open(s, s.raised[i].id)
  }

  ghost predicate Tables(s: World) {
    && (forall id :: id in s.alerts ==> id < s.nextId)
    && (forall id :: Recorded(s, id))
    && (forall i :: 0 <= i < |s.raised| ==> RaisedOk(s, i))
  }

  ghost predicate Inv(s: World) {
    Tables(s) && (!s.late ==> OnlyLastOpen(s))
  }

  /** Rows only close or disappear, and the history stands still. */
  ghost predicate OnlyCloses(s: World, s': World) {
    && s'.raised == s.raised && s'.nextId == s.nextId && s'.late == s.late
    && (forall id :: id in s'.alerts ==>
          && id in s.alerts
          && s'.alerts[id] == s.alerts[id].(triggered := s'.alerts[id].triggered)
          && (s'.alerts[id].triggered ==> s.alerts[id].triggered))
  }

  lemma ClosingKeepsInv(s: World, s': World)
    requires Inv(s) && OnlyCloses(s, s')
    ensures Inv(s')
  {
    forall id
      ensures Recorded(s', id)
    {
      assert Recorded(s, id);
    }
    forall i: nat | i < |s'.raised|
      ensures RaisedOk(s', i)
    {
      assert RaisedOk(s, i);
    }
    assert forall id :: Open(s', id) ==> Open(s, id);
  }

  /** An open row of a recorded insert is an open sweep alert of its pair. */
  lemma OpenIsSwept(s: World, i: nat)
    requires Tables(s) && i < |s.raised| && Open(s, s.raised[i].id)
    ensures SweepOpen(s, s.raised[i].p)
  {
    assert RaisedOk(s, i);
    assert RaisedBySweep(s.alerts, s.raised[i].id, s.raised[i].p);
  }

  lemma InsertKeepsTables(s: World, w: nat)
    requires Tables(s) && Enabled(s, Insert(w))
    ensures Tables(Apply(s, Insert(w)))
  {
    var s', p := Apply(s, Insert(w)), PhaseOf(s, w).p;
    forall id
      ensures Recorded(s', id)
    {
      assert Recorded(s, id);
      assert s'.raised[|s.raised|] == Raised(p, s.nextId);
    }
    forall i: nat | i < |s'.raised|
      ensures RaisedOk(s', i)
    {
      assert i < |s.raised| ==> RaisedOk(s, i);
    }
  }

  /** The row number is new, so no earlier insert can be affected. */
  lemma InsertKeepsInv(s: World, w: nat)
    requires Inv(s) && Enabled(s, Insert(w))
    ensures Inv(Apply(s, Insert(w)))
  {
    var s' := Apply(s, Insert(w));
    InsertKeepsTables(s, w);
    if !s'.late {
      forall i, j | 0 <= i < j < |s'.raised| && s'.raised[i].p == s'.raised[j].p
        ensures !Open(s', s'.raised[i].id)
      {
        assert RaisedOk(s, i);
        if Open(s, s.raised[i].id) {
          OpenIsSwept(s, i);
        }
      }
    }
  }

  lemma WebhookInsertKeepsInv(s: World, step: Step)
    requires Inv(s) && step.WebhookInsert? && Enabled(s, step)
    ensures Inv(Apply(s, step))
  {
    var s' := Apply(s, step);
    forall id
      ensures Recorded(s', id)
    {
      assert Recorded(s, id);
    }
    forall i: nat | i < |s'.raised|
      ensures RaisedOk(s', i)
      ensures Open(s', s.raised[i].id) <==> Open(s, s.raised[i].id)
    {
      assert RaisedOk(s, i);
    }
  }

  lemma StepKeepsInv(s: World, step: Step)
    requires Inv(s) && Enabled(s, step)
    ensures Inv(Apply(s, step))
  {
    match step
    case Insert(w) => InsertKeepsInv(s, w);
    case WebhookInsert(_, _, _) => WebhookInsertKeepsInv(s, step);
    case _ => ClosingKeepsInv(s, Apply(s, step));
  }

  lemma {:induction false} RunKeepsInv(s: World, steps: seq<Step>)
    requires Inv(s) && ValidRun(s, steps)
    ensures Inv(Exec(s, steps))
    decreases |steps|
  {
    if steps != [] {
      StepKeepsInv(s, steps[0]);
      RunKeepsInv(Apply(s, steps[0]), steps[1..]);
    }
  }

  // ------------------------------------------------------------ any sweepers

  lemma InvMeansOne(s: World)
    requires Inv(s) && !s.late
    ensures OneSweepAlert(s.alerts)
  {
    forall i, j, p | RaisedBySweep(s.alerts, i, p) && RaisedBySweep(s.alerts, j, p)
      ensures i == j
    {
      assert Recorded(s, i) && Recorded(s, j);
      assert Raised(p, i) in s.raised && Raised(p, j) in s.raised;
      var k :| 0 <= k < |s.raised| && s.raised[k] == Raised(p, i);
      var l :| 0 <= l < |s.raised| && s.raised[l] == Raised(p, j);
      assert Open(s, i) && Open(s, j);
    }
  }

  /** In every interleaving of any number of sweepers: as long as no insert arrived when the pair had an
      open sweep alert, at most one TRIGGERED row raised by a sweep exists per (server, condition). */
  lemma OneUnlessLate(steps: seq<Step>)
    requires ValidRun(FRESH_TABLES, steps) && !Exec(FRESH_TABLES, steps).late
    ensures OneSweepAlert(Exec(FRESH_TABLES, steps).alerts)
  {
    RunKeepsInv(FRESH_TABLES, steps);
    InvMeansOne(Exec(FRESH_TABLES, steps));
  }

  /** And an insert that arrives late leaves two. */
  lemma LateInsertDoubles(s: World, w: nat)
    requires Inv(s) && Enabled(s, Insert(w))
    ensures SweepOpen(s, PhaseOf(s, w).p) ==> !OneSweepAlert(Apply(s, Insert(w)).alerts)
  {
    var s', p := Apply(s, Insert(w)), PhaseOf(s, w).p;
    if id :| RaisedBySweep(s.alerts, id, p) {
      assert RaisedBySweep(s'.alerts, id, p) && RaisedBySweep(s'.alerts, s.nextId, p);
    }
  }

  /** A sweep notifies again for a pair only after the earlier alert was closed or deleted, and
      that row never reopens: of all sweep alerts for a pair only the last can be open. */
  lemma RaisedAgainOnlyAfterClose(steps: seq<Step>, i: nat, j: nat)
    requires ValidRun(FRESH_TABLES, steps) && !Exec(FRESH_TABLES, steps).late
    requires i < j < |Exec(FRESH_TABLES, steps).raised|
    requires Exec(FRESH_TABLES, steps).raised[i].p == Exec(FRESH_TABLES, steps).raised[j].p
    ensures !Open(Exec(FRESH_TABLES, steps), Exec(FRESH_TABLES, steps).raised[i].id)
  {
    RunKeepsInv(FRESH_TABLES, steps);
  }

  /** Two sweepers, in two server processes, can count before either inserts. */
  lemma TwoSweepersDouble(p: Pair) returns (steps: seq<Step>)
    ensures ValidRun(FRESH_TABLES, steps) && !OneSweepAlert(Exec(FRESH_TABLES, steps).alerts)
  {
    var s1 := Apply(FRESH_TABLES, Count(0, p));
    var s2 := Apply(s1, Count(1, p));
    var s3 := Apply(s2, Insert(0));
    steps := Before(s3, Insert(1), []);
    steps := Before(s2, Insert(0), steps);
    steps := Before(s1, Count(1, p), steps);
    steps := Before(FRESH_TABLES, Count(0, p), steps);
    StepKeepsInv(FRESH_TABLES, Count(0, p));
    StepKeepsInv(s1, Count(1, p));
    StepKeepsInv(s2, Insert(0));
    assert RaisedBySweep(s3.alerts, 0, p);
    LateInsertDoubles(s3, 1);
  }

  lemma Before(s: World, step: Step, rest: seq<Step>) returns (steps: seq<Step>)
    requires Enabled(s, step) && ValidRun(Apply(s, step), rest)
    ensures ValidRun(s, steps) && Exec(s, steps) == Exec(Apply(s, step), rest)
  {
    steps := [step] + rest;
    assert steps[1..] == rest;
  }

  // ------------------------------------------------------------- one sweeper

  ghost predicate Sweeps(step: Step) {
    step.MarkOffline? || step.Count? || step.Insert? || step.ResolveAlert?
  }

  /** Only sweeper 0 acts: one server process. */
  ghost predicate OneProcess(steps: seq<Step>) {
    forall i :: 0 <= i < |steps| && Sweeps(steps[i]) ==> steps[i].w == 0
  }

  /** The one sweeper inserts only for pairs without an open sweep alert. */
  ghost predicate SoleInv(s: World) {
    && Inv(s) && !s.late
    && (forall w :: PhaseOf(s, w).Inserting? ==> w == 0 && !SweepOpen(s, PhaseOf(s, w).p))
  }

  /** Nobody but a sweeper opens a sweep alert. */
  lemma OnlySweepsOpen(s: World, step: Step, p: Pair)
    requires Inv(s) && Enabled(s, step) && !step.Insert?
    ensures SweepOpen(Apply(s, step), p) ==> SweepOpen(s, p)
  {
    if id :| RaisedBySweep(Apply(s, step).alerts, id, p) {
      assert RaisedBySweep(s.alerts, id, p);
    }
  }

  /** A sweeper about to insert was so before, or has just counted none. */
  lemma PhaseAfter(s: World, step: Step, w: nat)
    requires Enabled(s, step) && PhaseOf(Apply(s, step), w).Inserting?
    ensures step != Insert(w)
    ensures PhaseOf(s, w) == PhaseOf(Apply(s, step), w)
         || (step == Count(w, PhaseOf(Apply(s, step), w).p) && !Active(s.alerts, step.p))
  {
  }

  lemma StepKeepsSole(s: World, step: Step)
    requires SoleInv(s) && Enabled(s, step) && (Sweeps(step) ==> step.w == 0)
    ensures SoleInv(Apply(s, step))
  {
    var s' := Apply(s, step);
    StepKeepsInv(s, step);
    forall w | PhaseOf(s', w).Inserting?
      ensures w == 0 && !SweepOpen(s', PhaseOf(s', w).p)
    {
      PhaseAfter(s, step, w);
      assert w == 0;
      OnlySweepsOpen(s, step, PhaseOf(s', w).p);
      SweepOpenActive(s, PhaseOf(s', w).p);
    }
  }

  lemma SweepOpenActive(s: World, p: Pair)
    ensures SweepOpen(s, p) ==> Active(s.alerts, p)
  {
    if id :| RaisedBySweep(s.alerts, id, p) {
      assert id in s.alerts && Raises(s.alerts[id], p);
    }
  }

  lemma {:induction false} RunKeepsSole(s: World, steps: seq<Step>)
    requires SoleInv(s) && ValidRun(s, steps) && OneProcess(steps)
    ensures SoleInv(Exec(s, steps))
    decreases |steps|
  {
    if steps != [] {
      StepKeepsSole(s, steps[0]);
      assert OneProcess(steps[1..]);
      RunKeepsSole(Apply(s, steps[0]), steps[1..]);
    }
  }

  /** With one server process no insert is ever late, so in every interleaving at most one TRIGGERED row
      raised by the sweep exists per (server, condition). */
  lemma AlwaysOneSweepAlert(steps: seq<Step>)
    requires ValidRun(FRESH_TABLES, steps) && OneProcess(steps)
    ensures !Exec(FRESH_TABLES, steps).late && OneSweepAlert(Exec(FRESH_TABLES, steps).alerts)
  {
    RunKeepsSole(FRESH_TABLES, steps);
    InvMeansOne(Exec(FRESH_TABLES, steps));
  }

  // ------------------------------------------------------- undisturbed calls

  /** `Monitor.FireAlert` without interruption is one or two of these steps, with the same rows. */
  lemma FireAlone(s: World, w: nat, p: Pair) returns (steps: seq<Step>)
    requires PhaseOf(s, w).Idle?
    ensures ValidRun(s, steps) && PhaseOf(Exec(s, steps), w).Idle?
    ensures Exec(s, steps).alerts == Fired(s.alerts, s.nextId, p)
  {
    var s1 := Apply(s, Count(w, p));
    if Active(s.alerts, p) {
      steps := Before(s, Count(w, p), []);
    } else {
      steps := Before(s1, Insert(w), []);
      steps := Before(s, Count(w, p), steps);
    }
  }
}
