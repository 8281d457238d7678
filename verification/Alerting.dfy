/** The alert sweep (`alerting.go`) and the read-time staleness view (`servers.go`). */
module Alerting {
  import opened Common

  datatype Status = Online | Offline | Unknown

  datatype AgentStatus = Connected | Disconnected | NeverSeen

  datatype Server = Server(status: Status, agent: AgentStatus, lastHeartbeat: Option<Time>)

  datatype Condition = OfflineCond | CpuHigh | RamHigh | DiskHigh | Custom(name: string)

  /** `source` and `fingerprint` are empty for alerts raised by the sweep. */
  datatype Alert = Alert(server: Option<nat>, condition: Condition, triggered: bool, source: string, fingerprint: string)

  datatype Metric = Metric(at: Time, cpu: real, ram: real, disk: real)

  datatype Thresholds = Thresholds(cpu: real, ram: real, disk: real, offlineTimeoutSec: int)

  /** How long a heartbeat may be old: the configured timeout when it is at least 30 seconds. */
  function OfflineThreshold(offlineAfter: int): int {
    if offlineAfter >= 30 * SECOND then offlineAfter else 3 * MINUTE
  }

  /** The read side's own version, from the configured seconds. */
  function OfflineAfter(timeoutSec: int): int {
    if timeoutSec >= 30 then timeoutSec * SECOND else 180 * SECOND
  }

  lemma TimeoutsAgree(timeoutSec: int)
    ensures OfflineThreshold(timeoutSec * SECOND) == OfflineAfter(timeoutSec)
  {
  }

  // ------------------------------------------------------------- staleness view

  predicate HeartbeatStale(s: Server, cutoff: Time) {
    s.lastHeartbeat.None? || s.lastHeartbeat.value < cutoff
  }

  predicate NeedsSweep(s: Server, now: Time, timeoutSec: int) {
    s.status.Online? && HeartbeatStale(s, now - OfflineThreshold(timeoutSec * SECOND))
  }

  /** What `checkOffline` stores for a server. */
  function SweptServer(s: Server, now: Time, timeoutSec: int): Server {
    if NeedsSweep(s, now, timeoutSec) then s.(status := Offline, agent := Disconnected) else s
  }

  /** What a read reports: a stored ONLINE is overridden when the heartbeat is missing, zero or old. */
  function Reported(s: Server, now: Time, timeoutSec: int): (Status, AgentStatus) {
    if s.status.Online?
       && (s.lastHeartbeat.None? || s.lastHeartbeat.value == ZERO_TIME
           || s.lastHeartbeat.value < now - OfflineAfter(timeoutSec))
    then (Offline, Disconnected)
    else (s.status, s.agent)
  }

  /** The row a read is about to return, rewritten in place. */
  class ServerRow {
    var row: Server

    constructor (s: Server)
      ensures row == s
    {
      row := s;
    }

    method ApplyStaleness(now: Time, timeoutSec: int)
      modifies this
      ensures (row.status, row.agent) == Reported(old(row), now, timeoutSec)
      ensures row.lastHeartbeat == old(row.lastHeartbeat)
    {
      if row.status != Online {
        return;
      }
      var cutoff := now - OfflineAfter(timeoutSec);
      var lastSeen := if row.lastHeartbeat.Some? then row.lastHeartbeat.value else ZERO_TIME;
      if lastSeen == ZERO_TIME || lastSeen < cutoff {
        row := row.(status := Offline, agent := Disconnected);
      }
    }
  }

  /** A server is read as ONLINE exactly when it is stored so and has had a heartbeat within the timeout,
      three minutes when less than 30 seconds are configured; a stored ONLINE that is not is read as
      OFFLINE and DISCONNECTED, and any other status as stored. */
  lemma ReadMeans(s: Server, now: Time, timeoutSec: int)
    ensures var timeout := if timeoutSec >= 30 then timeoutSec * 1_000_000 else 180_000_000;
      var alive := s.lastHeartbeat.Some? && s.lastHeartbeat.value != ZERO_TIME && now - s.lastHeartbeat.value <= timeout;
      Reported(s, now, timeoutSec) ==
      if s.status == Online && !alive then (Offline, Disconnected) else (s.status, s.agent)
  {
  }

  /** A read never shows the sweep happening: at the sweep's instant or any later one, the reported
      status and agent status are the same before and after it, for every configured timeout. */
  lemma ViewUnchangedBySweep(s: Server, sweptAt: Time, readAt: Time, timeoutSec: int)
    requires sweptAt <= readAt
    ensures Reported(SweptServer(s, sweptAt, timeoutSec), readAt, timeoutSec) == Reported(s, readAt, timeoutSec)
  {
    TimeoutsAgree(timeoutSec);
  }

  /** And the sweep stores what reads already show. The only exception, an ONLINE row whose heartbeat
      is the zero time while the cutoff has not passed it, needs a clock that reads no more than the
      timeout after year 1. */
  lemma SweepStoresTheView(s: Server, now: Time, timeoutSec: int)
    ensures (SweptServer(s, now, timeoutSec).status, SweptServer(s, now, timeoutSec).agent) == Reported(s, now, timeoutSec)
        <==> !(s.status.Online? && s.lastHeartbeat == Some(ZERO_TIME) && now - OfflineAfter(timeoutSec) <= ZERO_TIME)
    ensures now > ZERO_TIME + OfflineAfter(timeoutSec) ==>
              (SweptServer(s, now, timeoutSec).status, SweptServer(s, now, timeoutSec).agent) == Reported(s, now, timeoutSec)
  {
    TimeoutsAgree(timeoutSec);
  }

  /** A heartbeat, or a metrics upload, marks an existing server ONLINE. */
  function Beaten(servers: map<nat, Server>, sid: nat, now: Time): map<nat, Server> {
    if sid in servers then servers[sid := Server(Online, Connected, Some(now))] else servers
  }

  /** After a heartbeat the server is reported ONLINE for exactly the configured time, whether or
      not a sweep happens in between. */
  lemma HeartbeatWindow(servers: map<nat, Server>, sid: nat, beatAt: Time, sweptAt: Time, readAt: Time, timeoutSec: int)
    requires sid in servers && beatAt != ZERO_TIME && beatAt <= sweptAt <= readAt
    ensures var s := Beaten(servers, sid, beatAt)[sid];
            && (Reported(s, readAt, timeoutSec) == (Online, Connected)
                <==> readAt <= beatAt + (if timeoutSec >= 30 then timeoutSec * 1_000_000 else 180_000_000))
            && Reported(SweptServer(s, sweptAt, timeoutSec), readAt, timeoutSec) == Reported(s, readAt, timeoutSec)
  {
    ViewUnchangedBySweep(Beaten(servers, sid, beatAt)[sid], sweptAt, readAt, timeoutSec);
  }

  // ---------------------------------------------------------------- alert rows

  datatype Pair = Pair(server: nat, condition: Condition)

  predicate Raises(a: Alert, p: Pair) {
    a.triggered && a.server == Some(p.server) && a.condition == p.condition
  }

  function SweepAlert(p: Pair): Alert {
    Alert(Some(p.server), p.condition, true, "", "")
  }

  /** The alert rows after the sweep has raised a pair: unchanged when one is TRIGGERED. */
  ghost function Fired(alerts: map<nat, Alert>, nextId: nat, p: Pair): map<nat, Alert> {
    if Active(alerts, p) then alerts else alerts[nextId := SweepAlert(p)]
  }

  /** A manual resolve closes one row by its id. */
  function ResolveRow(alerts: map<nat, Alert>, id: nat): map<nat, Alert> {
    if id in alerts then alerts[id := alerts[id].(triggered := false)] else alerts
  }

  /** The pair has a TRIGGERED row, whatever its source. */
  ghost predicate Active(alerts: map<nat, Alert>, p: Pair) {
    exists id :: id in alerts && Raises(alerts[id], p)
  }

  ghost predicate RaisedBySweep(alerts: map<nat, Alert>, id: nat, p: Pair) {
    id in alerts && alerts[id].source == "" && Raises(alerts[id], p)
  }

  /** At most one TRIGGERED row raised by the sweep per (server, condition). */
  ghost predicate OneSweepAlert(alerts: map<nat, Alert>) {
    forall i, j, p :: RaisedBySweep(alerts, i, p) && RaisedBySweep(alerts, j, p) ==> i == j
  }

  function ResolvePair(alerts: map<nat, Alert>, p: Pair): map<nat, Alert> {
    map id | id in alerts :: if Raises(alerts[id], p) then alerts[id].(triggered := false) else alerts[id]
  }

  /** Resolving a pair closes it and no other, and opens nothing. */
  lemma ResolveEffect(alerts: map<nat, Alert>, p: Pair, q: Pair)
    ensures Active(ResolvePair(alerts, p), q) <==> Active(alerts, q) && q != p
  {
    var after := ResolvePair(alerts, p);
    if Active(alerts, q) && q != p {
      var id :| id in alerts && Raises(alerts[id], q);
      assert Raises(after[id], q);
    }
    if Active(after, q) {
      var id :| id in after && Raises(after[id], q);
      assert Raises(alerts[id], q);
    }
  }

  lemma ResolveKeepsOne(alerts: map<nat, Alert>, p: Pair)
    requires OneSweepAlert(alerts)
    ensures OneSweepAlert(ResolvePair(alerts, p))
  {
    var after := ResolvePair(alerts, p);
    forall i, j, q | RaisedBySweep(after, i, q) && RaisedBySweep(after, j, q)
      ensures i == j
    {
      assert RaisedBySweep(alerts, i, q) && RaisedBySweep(alerts, j, q);
    }
  }

  lemma ResolveRowKeepsOne(alerts: map<nat, Alert>, id: nat)
    requires OneSweepAlert(alerts)
    ensures OneSweepAlert(ResolveRow(alerts, id))
  {
    var after := ResolveRow(alerts, id);
    forall i, j, q | RaisedBySweep(after, i, q) && RaisedBySweep(after, j, q)
      ensures i == j
    {
      assert RaisedBySweep(alerts, i, q) && RaisedBySweep(alerts, j, q);
    }
  }

  /** Inserting a row for an inactive pair activates it and nothing else. */
  lemma InsertEffect(alerts: map<nat, Alert>, id: nat, a: Alert, p: Pair, q: Pair)
    requires id !in alerts && Raises(a, p)
    ensures Active(alerts[id := a], q) <==> Active(alerts, q) || q == p
  {
    var after := alerts[id := a];
    if Active(alerts, q) {
      var i :| i in alerts && Raises(alerts[i], q);
      assert Raises(after[i], q);
    }
    if q == p {
      assert Raises(after[id], q);
    }
  }

  lemma InsertKeepsOne(alerts: map<nat, Alert>, id: nat, a: Alert, p: Pair)
    requires OneSweepAlert(alerts) && id !in alerts && Raises(a, p)
    requires a.source == "" ==> forall i :: !RaisedBySweep(alerts, i, p)
    ensures OneSweepAlert(alerts[id := a])
  {
    var after := alerts[id := a];
    forall i, j, q | RaisedBySweep(after, i, q) && RaisedBySweep(after, j, q)
      ensures i == j
    {
      assert i != id ==> RaisedBySweep(alerts, i, q);
      assert j != id ==> RaisedBySweep(alerts, j, q);
    }
  }

  // ------------------------------------------------------------ what a sweep rules

  /** For a pair, a sweep raises the alert, clears it, or leaves it alone. */
  datatype Ruling = Raise | Clear | Leave

  function ThresholdFor(th: Thresholds, c: Condition): real {
    match c
    case CpuHigh => th.cpu
    case RamHigh => th.ram
    case DiskHigh => th.disk
    case _ => 0.0
  }

  function ValueFor(m: Metric, c: Condition): real {
    match c
    case CpuHigh => m.cpu
    case RamHigh => m.ram
    case DiskHigh => m.disk
    case _ => 0.0
  }

  const METRICS: set<Condition> := {CpuHigh, RamHigh, DiskHigh}

  /** The latest snapshot of a server; of two with one timestamp, the later upload. */
  function Newest(ms: seq<Metric>): (m: Metric)
    requires ms != []
    ensures m in ms && forall x :: x in ms ==> x.at <= m.at
  {
    var last := ms[|ms| - 1];
    if |ms| == 1 || Newest(ms[..|ms| - 1]).at <= last.at then
      assert ms == ms[..|ms| - 1] + [last];
      last
    else
      assert ms == ms[..|ms| - 1] + [last];
      Newest(ms[..|ms| - 1])
  }

  type MetricTable = map<nat, seq<Metric>>

  function Latest(metrics: MetricTable): map<nat, Metric> {
    map sid | sid in metrics && metrics[sid] != [] :: Newest(metrics[sid])
  }

  function Uploaded(metrics: MetricTable, sid: nat, m: Metric): MetricTable {
    metrics[sid := (if sid in metrics then metrics[sid] else []) + [m]]
  }

  /** What an upload does to the snapshots the sweep reads: it is the new latest one unless a
      later one is stored, and other servers' are untouched. */
  lemma UploadedLatest(metrics: MetricTable, sid: nat, m: Metric)
    ensures var before, after := Latest(metrics), Latest(Uploaded(metrics, sid, m));
            && sid in after
            && after == before[sid := after[sid]]
            && after[sid] == (if sid in before && before[sid].at > m.at then before[sid] else m)
  {
    var ms := Uploaded(metrics, sid, m)[sid];
    assert ms[..|ms| - 1] == if sid in metrics then metrics[sid] else [];
  }

  /** Both queries of the sweep are decided by the latest snapshot: some snapshot is recent exactly
      when the latest one is. */
  lemma NewestDecides(ms: seq<Metric>, since: Time)
    requires ms != []
    ensures (exists m :: m in ms && m.at >= since) <==> Newest(ms).at >= since
  {
    assert Newest(ms) in ms;
  }

  predicate Fresh(m: Metric, th: Thresholds, now: Time) {
    m.at >= now - OfflineThreshold(th.offlineTimeoutSec * SECOND)
  }

  /** One value against one threshold; a threshold that is not positive decides nothing. */
  function Judgement(value: real, threshold: real): Ruling {
    if threshold <= 0.0 then Leave
    else if value > threshold then Raise
    else Clear
  }

  /** Metric alerts: a fresh snapshot is judged against the thresholds, a stale one clears. */
  function MetricRuling(m: Metric, th: Thresholds, now: Time, c: Condition): Ruling {
    if Fresh(m, th, now) then Judgement(ValueFor(m, c), ThresholdFor(th, c)) else Clear
  }

  /** The clock readings of one sweep, one for each half. */
  datatype Readings = Readings(offline: Time, metrics: Time)

  /** The whole sweep: offline alerts from the heartbeats, metric alerts from the snapshots. */
  function SweepRuling(servers: map<nat, Server>, latest: map<nat, Metric>, th: Thresholds, at: Readings, p: Pair): Ruling {
    if p.condition.OfflineCond? then
      if p.server !in servers || !servers[p.server].status.Online? then Leave
      else if NeedsSweep(servers[p.server], at.offline, th.offlineTimeoutSec) then Raise
      else Clear
    else if p.condition in METRICS && p.server in latest then MetricRuling(latest[p.server], th, at.metrics, p.condition)
    else Leave
  }

  ghost predicate Ruled(r: Ruling, before: bool, after: bool) {
    after <==> r.Raise? || (r.Leave? && before)
  }

  function StalePairs(servers: map<nat, Server>, th: Thresholds, now: Time): set<Pair> {
    set id | id in servers && NeedsSweep(servers[id], now, th.offlineTimeoutSec) :: Pair(id, OfflineCond)
  }

  function OnlinePairs(servers: map<nat, Server>): set<Pair> {
    set id | id in servers && servers[id].status.Online? :: Pair(id, OfflineCond)
  }

  /** The servers that raise and those that are still ONLINE after the sweep split the offline rulings. */
  lemma OfflineSplit(before: map<nat, Server>, after: map<nat, Server>, latest: map<nat, Metric>, th: Thresholds, at: Readings)
    requires after == map id | id in before :: SweptServer(before[id], at.offline, th.offlineTimeoutSec)
    ensures StalePairs(before, th, at.offline) !! OnlinePairs(after)
    ensures forall p :: p in StalePairs(before, th, at.offline) ==> SweepRuling(before, latest, th, at, p).Raise?
    ensures forall p :: p in OnlinePairs(after) ==> SweepRuling(before, latest, th, at, p).Clear?
    ensures forall p :: p in StalePairs(before, th, at.offline) + OnlinePairs(after)
                   <==> p.condition.OfflineCond? && !SweepRuling(before, latest, th, at, p).Leave?
  {
    forall p
      ensures p in StalePairs(before, th, at.offline) + OnlinePairs(after)
         <==> p.condition.OfflineCond? && !SweepRuling(before, latest, th, at, p).Leave?
    {
      assert p.condition.OfflineCond? ==> p == Pair(p.server, OfflineCond);
    }
  }

  /** The alert rows and the notifications sent so far, in order. */
  datatype Board = Board(alerts: map<nat, Alert>, sent: seq<Pair>)

  /** The rulings on `pairs` have been carried out between two boards: each pair is as ruled, the
      others are untouched, one notification went out for each pair newly raised and none otherwise,
      and rulings that demand no change made none. */
  ghost predicate CarriedOut(a: Board, b: Board, pairs: set<Pair>, rule: Pair -> Ruling) {
    && (forall p :: p in pairs ==> Ruled(rule(p), Active(a.alerts, p), Active(b.alerts, p)))
    && (forall p :: p !in pairs ==> (Active(b.alerts, p) <==> Active(a.alerts, p)))
    && a.sent <= b.sent
    && Distinct(b.sent[|a.sent|..])
    && (forall p :: p in b.sent[|a.sent|..] <==> p in pairs && rule(p).Raise? && !Active(a.alerts, p))
    && ((forall p :: p in pairs ==> Ruled(rule(p), Active(a.alerts, p), Active(a.alerts, p))) ==> b == a)
  }

  lemma DistinctConcat<T>(x: seq<T>, y: seq<T>)
    requires Distinct(x) && Distinct(y) && forall e :: e in x ==> e !in y
    ensures Distinct(x + y)
  {
    forall i, j | 0 <= i < j < |x + y|
      ensures (x + y)[i] != (x + y)[j]
    {
      assert i < |x| <= j ==> x[i] in x && y[j - |x|] in y;
    }
  }

  lemma Compose(a: Board, b: Board, c: Board, ps: set<Pair>, qs: set<Pair>, rule: Pair -> Ruling)
    requires ps !! qs
    requires CarriedOut(a, b, ps, rule) && CarriedOut(b, c, qs, rule)
    ensures CarriedOut(a, c, ps + qs, rule)
  {
    assert c.sent[|a.sent|..] == b.sent[|a.sent|..] + c.sent[|b.sent|..];
    DistinctConcat(b.sent[|a.sent|..], c.sent[|b.sent|..]);
  }

  /** The same ruling on every pair. */
  function Always(r: Ruling): Pair -> Ruling {
    (p: Pair) => r
  }

  /** Only the rulings on the pairs themselves matter. */
  lemma SameRulings(a: Board, b: Board, pairs: set<Pair>, rule: Pair -> Ruling, other: Pair -> Ruling)
    requires CarriedOut(a, b, pairs, rule)
    requires forall p :: p in pairs ==> rule(p) == other(p)
    ensures CarriedOut(a, b, pairs, other)
  {
  }

  /** Nothing left to do: what a sweep would rule already holds, and no ONLINE server is stale. */
  ghost predicate Settled(servers: map<nat, Server>, latest: map<nat, Metric>, alerts: map<nat, Alert>, th: Thresholds, at: Readings) {
    && (forall id :: id in servers ==> !NeedsSweep(servers[id], at.offline, th.offlineTimeoutSec))
    && (forall p :: Ruled(SweepRuling(servers, latest, th, at, p), Active(alerts, p), Active(alerts, p)))
  }

  /** Sweep exactness: in a settled state a fresh server's metric alert is TRIGGERED exactly when its
      value exceeds the (positive) threshold, a stale server has no metric alert, and an ONLINE
      server has no offline alert. */
  lemma SettledMeans(servers: map<nat, Server>, latest: map<nat, Metric>, alerts: map<nat, Alert>, th: Thresholds, at: Readings,
                     sid: nat, c: Condition)
    requires Settled(servers, latest, alerts, th, at)
    ensures c in METRICS && sid in latest && Fresh(latest[sid], th, at.metrics) && ThresholdFor(th, c) > 0.0 ==>
              (Active(alerts, Pair(sid, c)) <==> ValueFor(latest[sid], c) > ThresholdFor(th, c))
    ensures c in METRICS && sid in latest && !Fresh(latest[sid], th, at.metrics) ==> !Active(alerts, Pair(sid, c))
    ensures sid in servers && servers[sid].status.Online? ==> !Active(alerts, Pair(sid, OfflineCond))
  {
    assert Ruled(SweepRuling(servers, latest, th, at, Pair(sid, c)), Active(alerts, Pair(sid, c)), Active(alerts, Pair(sid, c)));
    var offline := Pair(sid, OfflineCond);
    assert Ruled(SweepRuling(servers, latest, th, at, offline), Active(alerts, offline), Active(alerts, offline));
  }

  /** After a sweep a fresh server's metric alert is TRIGGERED exactly for a value above a positive
      threshold, if and only if the threshold is positive or no alert was open: an alert raised
      before its threshold was disabled stays TRIGGERED whatever the value. */
  lemma DisabledThresholdFreezes(servers: map<nat, Server>, latest: map<nat, Metric>, th: Thresholds, at: Readings,
                                 before: map<nat, Alert>, after: map<nat, Alert>, p: Pair)
    requires p.condition in METRICS && p.server in latest && Fresh(latest[p.server], th, at.metrics)
    requires Ruled(SweepRuling(servers, latest, th, at, p), Active(before, p), Active(after, p))
    ensures (Active(after, p) <==> ThresholdFor(th, p.condition) > 0.0 && ValueFor(latest[p.server], p.condition) > ThresholdFor(th, p.condition))
       <==> (ThresholdFor(th, p.condition) > 0.0 || !Active(before, p))
  {
  }

  /** Such a state: the value is far below any threshold in use, the alert is open, and the state
      is settled, so no sweep at that instant ever closes the alert. */
  lemma FrozenAlert(t: Time) returns (latest: map<nat, Metric>, alerts: map<nat, Alert>, th: Thresholds, at: Readings)
    ensures Settled(map[], latest, alerts, th, at) && OneSweepAlert(alerts)
    ensures 0 in latest && Fresh(latest[0], th, at.metrics) && latest[0].cpu < 1.0
    ensures Active(alerts, Pair(0, CpuHigh))
  {
    var p := Pair(0, CpuHigh);
    latest, alerts := map[0 := Metric(t, 0.0, 0.0, 0.0)], map[0 := SweepAlert(p)];
    th, at := Thresholds(0.0, 90.0, 90.0, 180), Readings(t, t);
    assert Raises(alerts[0], p);
    forall q
      ensures Ruled(SweepRuling(map[], latest, th, at, q), Active(alerts, q), Active(alerts, q))
    {
      assert Active(alerts, q) ==> q == p;
    }
  }

  lemma OpenRows(alerts: map<nat, Alert>, p: Pair)
    ensures |set id | id in alerts && Raises(alerts[id], p)| > 0 <==> Active(alerts, p)
  {
    var open := set id | id in alerts && Raises(alerts[id], p);
    if |open| > 0 {
      var id :| id in open;
    }
    if Active(alerts, p) {
      var id :| id in alerts && Raises(alerts[id], p);
      assert id in open;
    }
  }
}
