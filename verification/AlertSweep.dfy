/** The alert sweep as the server has it: loops that update server and alert rows in place. What it
    rules on each pair is defined in module Alerting; here the loops are proved to carry that out. */
module AlertSweep {
  import opened Common
  import opened Alerting

  class Monitor {
    var servers: map<nat, Server>
    var metrics: MetricTable
    var alerts: map<nat, Alert>
    var nextId: nat
    var notices: seq<Pair>   // notifications sent, in order

    ghost predicate Valid()
      reads this
    {
      (forall id :: id in alerts ==> id < nextId) && OneSweepAlert(alerts)
    }

    ghost function View(): Board
      reads this
    {
      Board(alerts, notices)
    }

    constructor ()
      ensures Valid() && servers == map[] && metrics == map[] && View() == Board(map[], [])
    {
      servers, metrics, alerts, nextId, notices := map[], map[], map[], 0, [];
    }

    // ------------------------------------------------------- agents and users

    /** What an agent's heartbeat stores. */
    method Heartbeat(sid: nat, now: Time)
      modifies this`servers
      ensures servers == Beaten(old(servers), sid, now)
    {
      if sid in servers {
        servers := servers[sid := servers[sid].(status := Online, agent := Connected, lastHeartbeat := Some(now))];
      }
    }

    /** A metrics upload: the snapshot is stored, and the upload counts as a heartbeat. */
    method IngestMetrics(sid: nat, cpu: real, ram: real, disk: real, now: Time)
      modifies this`servers, this`metrics
      ensures servers == Beaten(old(servers), sid, now)
      ensures metrics == Uploaded(old(metrics), sid, Metric(now, cpu, ram, disk))
    {
      var stored := if sid in metrics then metrics[sid] else [];
      metrics := metrics[sid := stored + [Metric(now, cpu, ram, disk)]];
      Heartbeat(sid, now);
    }

    /** A user resolves one alert; the answer says whether the row exists. */
    method Resolve(id: nat) returns (found: bool)
      requires Valid()
      modifies this`alerts
      ensures Valid()
      ensures found <==> id in old(alerts)
      ensures alerts == ResolveRow(old(alerts), id)
    {
      found := id in alerts;
      if found && alerts[id].triggered {
        ResolveRowKeepsOne(alerts, id);
        alerts := alerts[id := alerts[id].(triggered := false)];
      }
    }

    // -------------------------------------------------------- raise and clear

    /** Raises the alert, and notifies, unless one is already TRIGGERED. */
    method FireAlert(p: Pair)
      requires Valid()
      modifies this`alerts, this`nextId, this`notices
      ensures Valid()
      ensures forall q :: Active(alerts, q) <==> old(Active(alerts, q)) || q == p
      ensures old(Active(alerts, p)) ==> alerts == old(alerts) && notices == old(notices)
      ensures !old(Active(alerts, p)) ==> notices == old(notices) + [p]
      ensures alerts == Fired(old(alerts), old(nextId), p)
    {
      var count := |set id | id in alerts && Raises(alerts[id], p)|;
      OpenRows(alerts, p);
      if count > 0 {
        return;
      }
      var row := SweepAlert(p);
      forall q
        ensures Active(alerts[nextId := row], q) <==> Active(alerts, q) || q == p
      {
        InsertEffect(alerts, nextId, row, p, q);
      }
      InsertKeepsOne(alerts, nextId, row, p);
      alerts := alerts[nextId := row];
      nextId := nextId + 1;
      notices := notices + [p];
    }

    /** Closes every TRIGGERED row of the pair and reports whether there was one. */
    method ResolveAlert(p: Pair) returns (resolved: bool)
      requires Valid()
      modifies this`alerts
      ensures Valid()
      ensures forall q :: Active(alerts, q) <==> old(Active(alerts, q)) && q != p
      ensures resolved <==> old(Active(alerts, p))
      ensures !resolved ==> alerts == old(alerts)
      ensures alerts == ResolvePair(old(alerts), p)
    {
      var count := |set id | id in alerts && Raises(alerts[id], p)|;
      OpenRows(alerts, p);
      resolved := count > 0;
      forall q
        ensures Active(ResolvePair(alerts, p), q) <==> Active(alerts, q) && q != p
      {
        ResolveEffect(alerts, p, q);
      }
      ResolveKeepsOne(alerts, p);
      alerts := ResolvePair(alerts, p);
    }

    // The same, keeping account of a sweep: `start` is the board it began with, `done` the pairs
    // it has dealt with, `rule` what it is to do.

    method RaisePair(p: Pair, ghost start: Board, ghost done: set<Pair>, ghost rule: Pair -> Ruling)
      requires Valid() && CarriedOut(start, View(), done, rule)
      requires p !in done && rule(p).Raise?
      modifies this`alerts, this`nextId, this`notices
      ensures Valid() && CarriedOut(start, View(), done + {p}, rule)
    {
      ghost var mid := View();
      FireAlert(p);
      Compose(start, mid, View(), done, {p}, rule);
    }

    method ClearPair(p: Pair, ghost start: Board, ghost done: set<Pair>, ghost rule: Pair -> Ruling)
      requires Valid() && CarriedOut(start, View(), done, rule)
      requires p !in done && rule(p).Clear?
      modifies this`alerts
      ensures Valid() && CarriedOut(start, View(), done + {p}, rule)
    {
      ghost var mid := View();
      var _ := ResolveAlert(p);
      Compose(start, mid, View(), done, {p}, rule);
    }

    // ---------------------------------------------------------------- offline

    /** Stale ONLINE servers go OFFLINE and raise, one after the other. */
    method RaiseStale(th: Thresholds, now: Time) returns (ghost raised: set<Pair>)
      requires Valid()
      modifies this`servers, this`alerts, this`nextId, this`notices
      ensures Valid()
      ensures servers == map id | id in old(servers) :: SweptServer(old(servers)[id], now, th.offlineTimeoutSec)
      ensures CarriedOut(old(View()), View(), raised, Always(Raise))
      ensures raised == StalePairs(old(servers), th, now)
    {
      var stale := set id | id in servers && NeedsSweep(servers[id], now, th.offlineTimeoutSec);
      var todo := stale;
      ghost var s0, start := servers, View();
      raised := {};
      SweepBegins(s0, stale, start, th, now);
      while todo != {}
        invariant todo <= stale && Valid()
        invariant SweptBut(s0, servers, todo, th, now)
        invariant CarriedOut(start, View(), raised, Always(Raise))
        invariant OfflineOf(raised, stale - todo)
        decreases todo
      {
        var id :| id in todo;
        ghost var s1 := servers;
        servers := servers[id := servers[id].(status := Offline, agent := Disconnected)];
        RaisePair(Pair(id, OfflineCond), start, raised, Always(Raise));
        SweptOneMore(s0, s1, servers, todo, id, th, now);
        OfflineOneMore(raised, stale, todo, id);
        raised := raised + {Pair(id, OfflineCond)};
        todo := todo - {id};
      }
      SweepEnds(raised, s0, servers, stale, th, now);
    }

    /** Servers still ONLINE clear. */
    method ClearOnline() returns (ghost cleared: set<Pair>)
      requires Valid()
      modifies this`alerts
      ensures Valid()
      ensures CarriedOut(old(View()), View(), cleared, Always(Clear))
      ensures cleared == OnlinePairs(servers)
    {
      var online := set id | id in servers && servers[id].status.Online?;
      var todo := online;
      ghost var start := View();
      cleared := {};
      while todo != {}
        invariant todo <= online && Valid()
        invariant CarriedOut(start, View(), cleared, Always(Clear))
        invariant OfflineOf(cleared, online - todo)
        decreases todo
      {
        var id :| id in todo;
        ClearPair(Pair(id, OfflineCond), start, cleared, Always(Clear));
        OfflineOneMore(cleared, online, todo, id);
        cleared := cleared + {Pair(id, OfflineCond)};
        todo := todo - {id};
      }
      OnlineOffline(cleared, servers, online);
    }

    /** Heartbeats: stale ONLINE servers go OFFLINE and raise; servers still ONLINE clear. */
    method CheckOffline(th: Thresholds, at: Readings, ghost rule: Pair -> Ruling) returns (ghost pairs: set<Pair>)
      requires Valid()
      requires forall p: Pair :: p.condition.OfflineCond? ==> rule(p) == SweepRuling(servers, Latest(metrics), th, at, p)
      modifies this`servers, this`alerts, this`nextId, this`notices
      ensures Valid()
      ensures servers == map id | id in old(servers) :: SweptServer(old(servers)[id], at.offline, th.offlineTimeoutSec)
      ensures CarriedOut(old(View()), View(), pairs, rule)
      ensures forall p: Pair :: p in pairs <==> p.condition.OfflineCond? && !rule(p).Leave?
    {
      ghost var s0, start := servers, View();
      ghost var raised := RaiseStale(th, at.offline);
      ghost var mid := View();
      ghost var cleared := ClearOnline();
      OfflineSplit(s0, servers, Latest(metrics), th, at);
      SameRulings(start, mid, raised, Always(Raise), rule);
      SameRulings(mid, View(), cleared, Always(Clear), rule);
      Compose(start, mid, View(), raised, cleared, rule);
      pairs := raised + cleared;
    }

    // ---------------------------------------------------------------- metrics

    /** One value of a fresh snapshot: skipped without a positive threshold, else raised or cleared. */
    method CheckThreshold(p: Pair, value: real, threshold: real, ghost start: Board, ghost done: set<Pair>, ghost rule: Pair -> Ruling)
      requires Valid() && CarriedOut(start, View(), done, rule)
      requires p !in done && rule(p) == Judgement(value, threshold)
      modifies this`alerts, this`nextId, this`notices
      ensures Valid() && CarriedOut(start, View(), done + {p}, rule)
    {
      if threshold <= 0.0 {
        Compose(start, View(), View(), done, {p}, rule);
        return;
      }
      if value > threshold {
        RaisePair(p, start, done, rule);
      } else {
        ClearPair(p, start, done, rule);
      }
    }

    /** One fresh snapshot: its three values, in turn. */
    method JudgeServer(sid: nat, m: Metric, th: Thresholds, ghost start: Board, ghost done: set<Pair>, ghost rule: Pair -> Ruling)
      requires Valid() && CarriedOut(start, View(), done, rule) && done !! MetricPairs(sid)
      requires rule(Pair(sid, CpuHigh)) == Judgement(m.cpu, th.cpu)
      requires rule(Pair(sid, RamHigh)) == Judgement(m.ram, th.ram)
      requires rule(Pair(sid, DiskHigh)) == Judgement(m.disk, th.disk)
      modifies this`alerts, this`nextId, this`notices
      ensures Valid() && CarriedOut(start, View(), done + MetricPairs(sid), rule)
    {
      CheckThreshold(Pair(sid, CpuHigh), m.cpu, th.cpu, start, done, rule);
      ghost var afterCpu := done + {Pair(sid, CpuHigh)};
      CheckThreshold(Pair(sid, RamHigh), m.ram, th.ram, start, afterCpu, rule);
      ghost var afterRam := afterCpu + {Pair(sid, RamHigh)};
      CheckThreshold(Pair(sid, DiskHigh), m.disk, th.disk, start, afterRam, rule);
      MetricUnion(done, sid);
    }

    /** One stale snapshot: its three alerts clear. */
    method ClearServer(sid: nat, ghost start: Board, ghost done: set<Pair>, ghost rule: Pair -> Ruling)
      requires Valid() && CarriedOut(start, View(), done, rule) && done !! MetricPairs(sid)
      requires rule(Pair(sid, CpuHigh)).Clear? && rule(Pair(sid, RamHigh)).Clear? && rule(Pair(sid, DiskHigh)).Clear?
      modifies this`alerts
      ensures Valid() && CarriedOut(start, View(), done + MetricPairs(sid), rule)
    {
      ClearPair(Pair(sid, CpuHigh), start, done, rule);
      ghost var afterCpu := done + {Pair(sid, CpuHigh)};
      ClearPair(Pair(sid, RamHigh), start, afterCpu, rule);
      ghost var afterRam := afterCpu + {Pair(sid, RamHigh)};
      ClearPair(Pair(sid, DiskHigh), start, afterRam, rule);
      MetricUnion(done, sid);
    }

    /** Fresh snapshots are judged against the thresholds. */
    method JudgeFresh(latest: map<nat, Metric>, th: Thresholds, now: Time, ghost rule: Pair -> Ruling)
      returns (ghost judged: set<Pair>)
      requires Valid() && RulesMetrics(rule, latest, th, now)
      modifies this`alerts, this`nextId, this`notices
      ensures Valid() && CarriedOut(old(View()), View(), judged, rule) && MetricOf(judged, Recent(latest, th, now))
    {
      var recent := Recent(latest, th, now);
      var todo := recent;
      ghost var start := View();
      judged := {};
      while todo != {}
        invariant todo <= recent && Valid()
        invariant CarriedOut(start, View(), judged, rule)
        invariant MetricOf(judged, recent - todo)
        decreases todo
      {
        var id :| id in todo;
        RulesServer(rule, latest, th, now, id);
        JudgeServer(id, latest[id], th, start, judged, rule);
        MetricOneMore(judged, recent, todo, id);
        judged := judged + MetricPairs(id);
        todo := todo - {id};
      }
      assert recent - {} == recent;
    }

    /** Stale snapshots clear. */
    method ClearExpired(latest: map<nat, Metric>, th: Thresholds, now: Time, ghost rule: Pair -> Ruling)
      returns (ghost cleared: set<Pair>)
      requires Valid() && RulesMetrics(rule, latest, th, now)
      modifies this`alerts
      ensures Valid() && CarriedOut(old(View()), View(), cleared, rule) && MetricOf(cleared, Expired(latest, th, now))
    {
      var stale := Expired(latest, th, now);
      var todo := stale;
      ghost var start := View();
      cleared := {};
      while todo != {}
        invariant todo <= stale && Valid()
        invariant CarriedOut(start, View(), cleared, rule)
        invariant MetricOf(cleared, stale - todo)
        decreases todo
      {
        var id :| id in todo;
        RulesServer(rule, latest, th, now, id);
        ClearServer(id, start, cleared, rule);
        MetricOneMore(cleared, stale, todo, id);
        cleared := cleared + MetricPairs(id);
        todo := todo - {id};
      }
      assert stale - {} == stale;
    }

    /** Snapshots: fresh ones are judged against the thresholds, stale ones clear. */
    method CheckMetricThresholds(th: Thresholds, now: Time, ghost rule: Pair -> Ruling) returns (ghost pairs: set<Pair>)
      requires Valid() && RulesMetrics(rule, Latest(metrics), th, now)
      modifies this`alerts, this`nextId, this`notices
      ensures Valid()
      ensures CarriedOut(old(View()), View(), pairs, rule)
      ensures MetricOf(pairs, Latest(metrics).Keys)
    {
      var latest := Latest(metrics);
      ghost var start := View();
      ghost var judged := JudgeFresh(latest, th, now, rule);
      ghost var mid := View();
      ghost var cleared := ClearExpired(latest, th, now, rule);
      MetricHalves(latest, th, now, judged, cleared, start, mid, View(), rule);
      pairs := judged + cleared;
    }

    /** One undisturbed sweep (`runChecks`), with a clock reading for each half. Every pair is as
        ruled, one notification goes out for each pair newly raised and none otherwise, the result is
        settled, and a settled state is left alone: a second sweep at the same readings changes and
        notifies nothing. */
    method RunChecks(th: Thresholds, at: Readings)
      requires Valid()
      modifies this`servers, this`alerts, this`nextId, this`notices
      ensures Valid()
      ensures Swept(old(servers), servers, Latest(metrics), old(View()), View(), th, at)
    {
      ghost var start, s0, latest := View(), servers, Latest(metrics);
      ghost var rule := Sweeping(s0, latest, th, at);
      ghost var ps := CheckOffline(th, at, rule);
      ghost var mid := View();
      ghost var qs := CheckMetricThresholds(th, at.metrics, rule);
      SweepAccount(s0, servers, latest, start, mid, View(), ps, qs, th, at);
    }
  }

  // ------------------------------------------------------------ a whole sweep

  /** What a sweep has done to the servers and the board. */
  ghost predicate Swept(before: map<nat, Server>, after: map<nat, Server>, latest: map<nat, Metric>, start: Board, end: Board,
                        th: Thresholds, at: Readings) {
    && after == (map id | id in before :: SweptServer(before[id], at.offline, th.offlineTimeoutSec))
    && (forall p :: Ruled(SweepRuling(before, latest, th, at, p), Active(start.alerts, p), Active(end.alerts, p)))
    && start.sent <= end.sent && Distinct(end.sent[|start.sent|..])
    && (forall p :: p in end.sent[|start.sent|..] <==>
          SweepRuling(before, latest, th, at, p).Raise? && !Active(start.alerts, p))
    && Settled(after, latest, end.alerts, th, at)
    && (Settled(before, latest, start.alerts, th, at) ==> after == before && end == start)
  }

  function Sweeping(servers: map<nat, Server>, latest: map<nat, Metric>, th: Thresholds, at: Readings): Pair -> Ruling {
    (p: Pair) => SweepRuling(servers, latest, th, at, p)
  }

  /** The two halves make up the sweep. */
  lemma SweepAccount(before: map<nat, Server>, after: map<nat, Server>, latest: map<nat, Metric>, start: Board, mid: Board, end: Board,
                     ps: set<Pair>, qs: set<Pair>, th: Thresholds, at: Readings)
    requires after == map id | id in before :: SweptServer(before[id], at.offline, th.offlineTimeoutSec)
    requires var rule := Sweeping(before, latest, th, at);
             && CarriedOut(start, mid, ps, rule) && CarriedOut(mid, end, qs, rule)
             && forall p :: p in ps <==> p.condition.OfflineCond? && !rule(p).Leave?
    requires MetricOf(qs, latest.Keys)
    ensures Swept(before, after, latest, start, end, th, at)
  {
    var rule := Sweeping(before, latest, th, at);
    Compose(start, mid, end, ps, qs, rule);
    forall p
      ensures Ruled(SweepRuling(before, latest, th, at, p), Active(start.alerts, p), Active(end.alerts, p))
    {
      assert rule(p) == SweepRuling(before, latest, th, at, p);
      assert p !in ps + qs ==> rule(p).Leave?;
    }
    SweepSettles(before, after, latest, start.alerts, end.alerts, th, at);
    if Settled(before, latest, start.alerts, th, at) {
      Unchanged(before, after, latest, start, end, ps + qs, th, at);
    }
  }

  lemma Unchanged(before: map<nat, Server>, after: map<nat, Server>, latest: map<nat, Metric>, start: Board, end: Board,
                  pairs: set<Pair>, th: Thresholds, at: Readings)
    requires after == map id | id in before :: SweptServer(before[id], at.offline, th.offlineTimeoutSec)
    requires CarriedOut(start, end, pairs, Sweeping(before, latest, th, at))
    requires Settled(before, latest, start.alerts, th, at)
    ensures after == before && end == start
  {
    var rule := Sweeping(before, latest, th, at);
    forall p | p in pairs
      ensures Ruled(rule(p), Active(start.alerts, p), Active(start.alerts, p))
    {
      assert Ruled(SweepRuling(before, latest, th, at, p), Active(start.alerts, p), Active(start.alerts, p));
    }
  }

  // ------------------------------------------------------ accounts of the loops

  /** The pairs are the offline pairs of the servers. */
  ghost predicate OfflineOf(pairs: set<Pair>, ids: set<nat>) {
    forall p :: p in pairs <==> p.condition.OfflineCond? && p.server in ids
  }

  /** The servers are as the sweep stores them, except those still to do. */
  ghost predicate SweptBut(before: map<nat, Server>, after: map<nat, Server>, todo: set<nat>, th: Thresholds, now: Time) {
    && after.Keys == before.Keys
    && (forall id :: id in todo ==> id in before && NeedsSweep(before[id], now, th.offlineTimeoutSec) && after[id] == before[id])
    && (forall id :: id in before && id !in todo ==> after[id] == SweptServer(before[id], now, th.offlineTimeoutSec))
  }

  lemma SweptOneMore(s0: map<nat, Server>, s1: map<nat, Server>, s2: map<nat, Server>, todo: set<nat>, id: nat, th: Thresholds, now: Time)
    requires SweptBut(s0, s1, todo, th, now) && id in todo
    requires s2 == s1[id := s1[id].(status := Offline, agent := Disconnected)]
    ensures SweptBut(s0, s2, todo - {id}, th, now)
  {
  }

  lemma OfflineOneMore(pairs: set<Pair>, stale: set<nat>, todo: set<nat>, id: nat)
    requires OfflineOf(pairs, stale - todo) && id in todo && todo <= stale
    ensures OfflineOf(pairs + {Pair(id, OfflineCond)}, stale - (todo - {id}))
  {
  }

  lemma SweepBegins(servers: map<nat, Server>, stale: set<nat>, board: Board,
                    th: Thresholds, now: Time)
    requires stale == set id | id in servers && NeedsSweep(servers[id], now, th.offlineTimeoutSec)
    ensures SweptBut(servers, servers, stale, th, now)
    ensures CarriedOut(board, board, {}, Always(Raise))
    ensures OfflineOf({}, stale - stale)
  {
  }

  lemma SweepEnds(raised: set<Pair>, before: map<nat, Server>, after: map<nat, Server>, stale: set<nat>, th: Thresholds, now: Time)
    requires stale == set id | id in before && NeedsSweep(before[id], now, th.offlineTimeoutSec)
    requires OfflineOf(raised, stale - {}) && SweptBut(before, after, {}, th, now)
    ensures raised == StalePairs(before, th, now)
    ensures after == map id | id in before :: SweptServer(before[id], now, th.offlineTimeoutSec)
  {
    forall p
      ensures p in raised <==> p in StalePairs(before, th, now)
    {
      assert p.condition.OfflineCond? ==> p == Pair(p.server, OfflineCond);
    }
  }

  lemma OnlineOffline(pairs: set<Pair>, servers: map<nat, Server>, online: set<nat>)
    requires online == set id | id in servers && servers[id].status.Online?
    requires OfflineOf(pairs, online - {})
    ensures pairs == OnlinePairs(servers)
  {
    forall p
      ensures p in pairs <==> p in OnlinePairs(servers)
    {
      assert p.condition.OfflineCond? ==> p == Pair(p.server, OfflineCond);
    }
  }

  function MetricPairs(sid: nat): set<Pair> {
    {Pair(sid, CpuHigh), Pair(sid, RamHigh), Pair(sid, DiskHigh)}
  }

  lemma MetricUnion(done: set<Pair>, sid: nat)
    ensures done + {Pair(sid, CpuHigh)} + {Pair(sid, RamHigh)} + {Pair(sid, DiskHigh)} == done + MetricPairs(sid)
  {
  }

  /** The pairs are the metric pairs of the servers. */
  ghost predicate MetricOf(pairs: set<Pair>, ids: set<nat>) {
    forall p :: p in pairs <==> p.condition in METRICS && p.server in ids
  }

  function Recent(latest: map<nat, Metric>, th: Thresholds, now: Time): set<nat> {
    set id | id in latest && Fresh(latest[id], th, now)
  }

  function Expired(latest: map<nat, Metric>, th: Thresholds, now: Time): set<nat> {
    set id | id in latest && !Fresh(latest[id], th, now)
  }

  /** The rule is that of the metric half on every metric pair of a server with a snapshot. */
  ghost predicate RulesMetrics(rule: Pair -> Ruling, latest: map<nat, Metric>, th: Thresholds, now: Time) {
    forall p: Pair :: p.condition in METRICS && p.server in latest ==>
      rule(p) == MetricRuling(latest[p.server], th, now, p.condition)
  }

  lemma RulesServer(rule: Pair -> Ruling, latest: map<nat, Metric>, th: Thresholds, now: Time, id: nat)
    requires RulesMetrics(rule, latest, th, now) && id in latest
    ensures rule(Pair(id, CpuHigh)) == MetricRuling(latest[id], th, now, CpuHigh)
    ensures rule(Pair(id, RamHigh)) == MetricRuling(latest[id], th, now, RamHigh)
    ensures rule(Pair(id, DiskHigh)) == MetricRuling(latest[id], th, now, DiskHigh)
  {
  }

  lemma MetricHalves(latest: map<nat, Metric>, th: Thresholds, now: Time, judged: set<Pair>, cleared: set<Pair>,
                     start: Board, mid: Board, end: Board, rule: Pair -> Ruling)
    requires MetricOf(judged, Recent(latest, th, now)) && MetricOf(cleared, Expired(latest, th, now))
    requires CarriedOut(start, mid, judged, rule) && CarriedOut(mid, end, cleared, rule)
    ensures CarriedOut(start, end, judged + cleared, rule)
    ensures MetricOf(judged + cleared, latest.Keys)
  {
    Compose(start, mid, end, judged, cleared, rule);
  }

  lemma MetricOneMore(pairs: set<Pair>, all: set<nat>, todo: set<nat>, id: nat)
    requires MetricOf(pairs, all - todo) && id in todo && todo <= all
    ensures MetricOf(pairs + MetricPairs(id), all - (todo - {id}))
  {
    forall p
      ensures p in MetricPairs(id) <==> p.condition in METRICS && p.server == id
    {
      assert p == Pair(p.server, p.condition);
    }
  }

  lemma SweepSettles(before: map<nat, Server>, after: map<nat, Server>, latest: map<nat, Metric>,
                     a0: map<nat, Alert>, a1: map<nat, Alert>, th: Thresholds, at: Readings)
    requires after == map id | id in before :: SweptServer(before[id], at.offline, th.offlineTimeoutSec)
    requires forall p :: Ruled(SweepRuling(before, latest, th, at, p), Active(a0, p), Active(a1, p))
    ensures Settled(after, latest, a1, th, at)
  {
    forall p
      ensures Ruled(SweepRuling(after, latest, th, at, p), Active(a1, p), Active(a1, p))
    {
      assert Ruled(SweepRuling(before, latest, th, at, p), Active(a0, p), Active(a1, p));
    }
  }

  /** What a sweep makes of one metric alert of a server with a snapshot. */
  lemma SweptPair(before: map<nat, Server>, after: map<nat, Server>, latest: map<nat, Metric>, start: Board, end: Board,
                  th: Thresholds, at: Readings, p: Pair)
    requires Swept(before, after, latest, start, end, th, at) && p.condition in METRICS && p.server in latest
    ensures Ruled(MetricRuling(latest[p.server], th, at.metrics, p.condition), Active(start.alerts, p), Active(end.alerts, p))
  {
    assert Ruled(SweepRuling(before, latest, th, at, p), Active(start.alerts, p), Active(end.alerts, p));
  }

  /** One upload of a CPU value at time t and a sweep at that instant. */
  method UploadAndSweep(m: Monitor, cpu: real, threshold: real, t: Time)
    requires m.Valid()
    requires 0 in Latest(m.metrics) ==> Latest(m.metrics)[0].at <= t
    modifies m
    ensures m.Valid()
    ensures 0 in Latest(m.metrics) && Latest(m.metrics)[0] == Metric(t, cpu, 0.0, 0.0)
    ensures Ruled(Judgement(cpu, threshold), old(Active(m.alerts, Pair(0, CpuHigh))), Active(m.alerts, Pair(0, CpuHigh)))
  {
    UploadedLatest(m.metrics, 0, Metric(t, cpu, 0.0, 0.0));
    m.IngestMetrics(0, cpu, 0.0, 0.0, t);
    ghost var servers, board := m.servers, m.View();
    var th, at := Thresholds(threshold, 90.0, 90.0, 180), Readings(t, t);
    m.RunChecks(th, at);
    SweptPair(servers, m.servers, Latest(m.metrics), board, m.View(), th, at, Pair(0, CpuHigh));
  }

  /** A history in which an alert outlives its cause: raised by a value of 95 over a threshold of 90,
      it is still TRIGGERED after a sweep that sees a value of 5 once the threshold is disabled. */
  method AlertOutlivesItsCause(t: Time) returns (m: Monitor)
    ensures Active(m.alerts, Pair(0, CpuHigh))
    ensures 0 in Latest(m.metrics) && Latest(m.metrics)[0] == Metric(t + MINUTE, 5.0, 0.0, 0.0)
  {
    m := new Monitor();
    UploadAndSweep(m, 95.0, 90.0, t);
    UploadAndSweep(m, 5.0, 0.0, t + MINUTE);
  }

  // -------------------------------------------------- what a sweep leaves, in numbers

  /** The configured timeout in microseconds: three minutes when less than 30 seconds are configured. */
  function TimeoutOf(th: Thresholds): int {
    if th.offlineTimeoutSec >= 30 then th.offlineTimeoutSec * 1_000_000 else 180_000_000
  }

  /** One metric after a sweep: open exactly for a value above a positive threshold; as it was before when
      the threshold is not positive. */
  ghost predicate Follows(start: Board, end: Board, p: Pair, value: real, threshold: real) {
    if threshold > 0.0 then Active(end.alerts, p) <==> value > threshold
    else Active(end.alerts, p) <==> Active(start.alerts, p)
  }

  /** After a sweep a server whose latest snapshot is older than the timeout has no metric alert; any other
      server's three alerts follow its three values. */
  lemma MetricsAfterSweep(before: map<nat, Server>, after: map<nat, Server>, latest: map<nat, Metric>, start: Board, end: Board,
                          th: Thresholds, at: Readings, sid: nat)
    requires Swept(before, after, latest, start, end, th, at) && sid in latest
    ensures var m, cpu, ram, disk := latest[sid], Pair(sid, CpuHigh), Pair(sid, RamHigh), Pair(sid, DiskHigh);
      if m.at < at.metrics - TimeoutOf(th) then
        !Active(end.alerts, cpu) && !Active(end.alerts, ram) && !Active(end.alerts, disk)
      else
        && Follows(start, end, cpu, m.cpu, th.cpu)
        && Follows(start, end, ram, m.ram, th.ram)
        && Follows(start, end, disk, m.disk, th.disk)
  {
    SweptPair(before, after, latest, start, end, th, at, Pair(sid, CpuHigh));
    SweptPair(before, after, latest, start, end, th, at, Pair(sid, RamHigh));
    SweptPair(before, after, latest, start, end, th, at, Pair(sid, DiskHigh));
  }

  /** After a sweep an ONLINE server without a heartbeat within the timeout is OFFLINE and DISCONNECTED with
      its offline alert open; one with such a heartbeat is as it was, without the alert; a server that was
      not ONLINE, and its alert, are as they were. */
  lemma ServersAfterSweep(before: map<nat, Server>, after: map<nat, Server>, latest: map<nat, Metric>, start: Board, end: Board,
                          th: Thresholds, at: Readings, sid: nat)
    requires Swept(before, after, latest, start, end, th, at) && sid in before
    ensures sid in after
    ensures var s, offline := before[sid], Pair(sid, OfflineCond);
      var heard := s.lastHeartbeat.Some? && s.lastHeartbeat.value >= at.offline - TimeoutOf(th);
      if s.status != Online then
        after[sid] == s && (Active(end.alerts, offline) <==> Active(start.alerts, offline))
      else if heard then
        after[sid] == s && !Active(end.alerts, offline)
      else
        after[sid] == s.(status := Offline, agent := Disconnected) && Active(end.alerts, offline)
  {
    var offline := Pair(sid, OfflineCond);
    assert Ruled(SweepRuling(before, latest, th, at, offline), Active(start.alerts, offline), Active(end.alerts, offline));
  }
}
