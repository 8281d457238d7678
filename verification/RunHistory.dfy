/** One backup run under concurrent requests. Claims, status reports, the scheduler's stale-run
    check and the management cancel are split at their read and their write and interleaved in any
    order; a request may stop anywhere. Reports and the scheduler write only while the status is
    the one they read. The cancel of a run read as PENDING and the credential failure that follows
    a claim are written without that guard, as in the source. */
module RunHistory {
  import opened Common
  import opened AgentRuns

  datatype Via = ByClaim | ByGuarded | ByCredentialFailure | ByCancel

  /** One write of the status column. */
  datatype Edge = Edge(from: RunStatus, to: RunStatus, writer: nat, via: Via)

  datatype Phase =
    | Loading                                 // claimed; the job's configuration is being read
    | Guarded(seen: RunStatus, to: RunStatus) // read and judged; the guarded write is due
    | Cancelling                              // read as PENDING; the cancel write is due
    | Answered(answer: Answer, edge: Option<nat>) // `edge`: which write of the history it made

  /** `history` records the writes in order. */
  datatype World = World(status: RunStatus, history: seq<Edge>, requests: map<nat, Phase>)

  const CREATED: World := World(Pending, [], map[])

  datatype Step =
    | Claim(r: nat)
    | HandOver(r: nat)
    | FailCredentials(r: nat)
    | ReadReport(r: nat, reported: RunStatus)
    | ReadStale(r: nat, cancelRequested: bool)
    | WriteGuarded(r: nat)
    | ReadCancel(r: nat)
    | WriteCancel(r: nat)

  ghost predicate Enabled(s: World, step: Step) {
    match step
    case Claim(r) => r !in s.requests
    case HandOver(r) => r in s.requests && s.requests[r].Loading?
    case FailCredentials(r) => r in s.requests && s.requests[r].Loading?
    case ReadReport(r, _) => r !in s.requests
    case ReadStale(r, _) => r !in s.requests && InFlight(s.status)
    case WriteGuarded(r) => r in s.requests && s.requests[r].Guarded?
    case ReadCancel(r) => r !in s.requests
    case WriteCancel(r) => r in s.requests && s.requests[r].Cancelling?
  }

  ghost function Moved(s: World, r: nat, phase: Phase): World {
    s.(requests := s.requests[r := phase])
  }

  ghost function Written(s: World, r: nat, to: RunStatus, via: Via, phase: Phase): World {
    World(to, s.history + [Edge(s.status, to, r, via)], s.requests[r := phase])
  }

  ghost function Apply(s: World, step: Step): World
    requires Enabled(s, step)
  {
    match step
    case Claim(r) =>
      if s.status.Pending? then Written(s, r, Running, ByClaim, Loading)
      else Moved(s, r, Answered(Conflict, None))
    case HandOver(r) => Moved(s, r, Answered(Ok, None))
    case FailCredentials(r) => Written(s, r, Failed, ByCredentialFailure, Answered(ServerError, Some(|s.history|)))
    case ReadReport(r, to) =>
      Moved(s, r, match Judge(s.status, to)
        case Move => Guarded(s.status, to)
        case Echo => Answered(Ok, None)
        case Refuse => Answered(BadRequest, None))
    case ReadStale(r, cancelRequested) => Moved(s, r, Guarded(s.status, if cancelRequested then Cancelled else Failed))
    case WriteGuarded(r) =>
      var q := s.requests[r];
      if s.status == q.seen then Written(s, r, q.to, ByGuarded, Answered(Ok, Some(|s.history|)))
      else Moved(s, r, Answered(Conflict, None))
    case ReadCancel(r) =>
      Moved(s, r, if s.status.Pending? then Cancelling
                  else Answered(if CanTransition(s.status, Cancelled) || s.status.Cancelled? then Ok else BadRequest, None))
    case WriteCancel(r) => Written(s, r, Cancelled, ByCancel, Answered(Ok, Some(|s.history|)))
  }

  ghost predicate ValidRun(s: World, steps: seq<Step>)
    decreases |steps|
  {
    steps == [] || (Enabled(s, steps[0]) && ValidRun(Apply(s, steps[0]), steps[1..]))
  }

  ghost function Exec(s: World, steps: seq<Step>): World
    requires ValidRun(s, steps)
    decreases |steps|
  {
    if steps == [] then s else Exec(Apply(s, steps[0]), steps[1..])
  }

  // ------------------------------------------------------------------ invariant

  function Rank(s: RunStatus): nat {
    match s
    case Pending => 0
    case Running => 1
    case Uploading => 2
    case Verifying => 3
    case _ => 4
  }

  /** A write is an allowed transition, or one of the two unguarded writes on a finished run. */
  ghost predicate EdgeOk(e: Edge) {
    && !e.to.Pending?
    && (CanTransition(e.from, e.to) <==> !Finished(e.from))
    && (Finished(e.from) ==> (e.via.ByCredentialFailure? && e.to == Failed) || (e.via.ByCancel? && e.to == Cancelled))
    && (e.via.ByClaim? ==> e.from.Pending?)
  }

  /** A status that was left and is not final lies strictly behind. */
  ghost predicate Behind(e: Edge, now: RunStatus) {
    Rank(e.from) <= Rank(now) && (!Finished(e.from) ==> Rank(e.from) < Rank(now))
  }

  /** The status between two writes: the one write `i` found, or the current one. */
  ghost function StatusAt(s: World, i: nat): RunStatus {
    if i < |s.history| then s.history[i].from else s.status
  }

  ghost predicate Chained(s: World) {
    && StatusAt(s, 0) == Pending
    && (forall i: nat :: i < |s.history| ==> s.history[i].to == StatusAt(s, i + 1))
  }

  ghost predicate Progress(s: World) {
    && (forall e :: e in s.history ==> EdgeOk(e))
    && (forall i: nat, j: nat :: i < j <= |s.history| && i < |s.history| ==> Behind(s.history[i], StatusAt(s, j)))
  }

  ghost predicate PhaseOk(s: World, r: nat)
    requires r in s.requests
  {
    match s.requests[r]
    case Loading => !s.status.Pending?
    case Guarded(seen, to) => CanTransition(seen, to)
    case Cancelling => true
    case Answered(_, Some(i)) => i < |s.history| && s.history[i].writer == r && !s.history[i].via.ByClaim?
    case Answered(_, None) => true
  }

  /** Each write other than a claim answered its request. */
  ghost predicate Attributed(s: World, i: nat)
    requires i < |s.history|
  {
    var e := s.history[i];
    e.writer in s.requests && !s.requests[e.writer].Guarded? && !s.requests[e.writer].Cancelling?
    && (!e.via.ByClaim? ==> s.requests[e.writer].Answered? && s.requests[e.writer].edge == Some(i))
  }

  ghost predicate Inv(s: World) {
    && Chained(s)
    && Progress(s)
    && (forall r :: r in s.requests ==> PhaseOk(s, r))
    && (forall i :: 0 <= i < |s.history| ==> Attributed(s, i))
  }

  lemma MoveKeepsInv(s: World, r: nat, phase: Phase)
    requires Inv(s)
    requires r in s.requests ==> !s.requests[r].Answered?
    requires phase.Answered? ==> phase.edge.None?
    requires phase.Guarded? || phase.Cancelling? ==> r !in s.requests
    requires !phase.Loading?
    requires phase.Guarded? ==> CanTransition(phase.seen, phase.to)
    ensures Inv(Moved(s, r, phase))
  {
    var s' := Moved(s, r, phase);
    assert forall i :: StatusAt(s', i) == StatusAt(s, i);
    forall q | q in s'.requests
      ensures PhaseOk(s', q)
    {
      assert q != r ==> PhaseOk(s, q);
    }
    forall i: nat | i < |s.history|
      ensures Attributed(s', i)
    {
      assert Attributed(s, i);
    }
  }

  /** A write in line with its predecessors keeps the path. */
  lemma WriteKeepsPath(s: World, s': World, e: Edge)
    requires Chained(s) && Progress(s) && EdgeOk(e) && e.from == s.status
    requires s'.history == s.history + [e] && s'.status == e.to
    ensures Chained(s') && Progress(s')
  {
    var n := |s.history|;
    forall i: nat | i <= n
      ensures StatusAt(s', i) == StatusAt(s, i)
      ensures i < n ==> s'.history[i] == s.history[i] && Behind(s.history[i], e.from)
    {
      assert i < n ==> Behind(s.history[i], StatusAt(s, n));
    }
    assert Behind(e, e.to);
    forall i: nat, j: nat | i < j <= n + 1 && i < n + 1
      ensures Behind(s'.history[i], StatusAt(s', j))
    {
      if j <= n {
        assert Behind(s.history[i], StatusAt(s, j));
      }
    }
  }

  /** What a write by request r may be: a claim by a newcomer, or the answer of a request under way. */
  ghost predicate WriteAllowed(s: World, r: nat, via: Via, phase: Phase) {
    && (if via.ByClaim? then phase.Loading? && r !in s.requests
        else phase.Answered? && phase.edge == Some(|s.history|))
    && (r in s.requests ==> !s.requests[r].Answered?)
  }

  lemma WriteKeepsPhase(s: World, r: nat, to: RunStatus, via: Via, phase: Phase, q: nat)
    requires WriteAllowed(s, r, via, phase) && !to.Pending?
    requires q in Written(s, r, to, via, phase).requests
    requires q in s.requests ==> PhaseOk(s, q)
    ensures PhaseOk(Written(s, r, to, via, phase), q)
  {
  }

  lemma WriteKeepsAttributed(s: World, r: nat, to: RunStatus, via: Via, phase: Phase, i: nat)
    requires WriteAllowed(s, r, via, phase)
    requires i < |s.history| + 1 && (i < |s.history| ==> Attributed(s, i))
    ensures Attributed(Written(s, r, to, via, phase), i)
  {
    var s' := Written(s, r, to, via, phase);
    if i < |s.history| {
      assert s'.history[i] == s.history[i];
    }
  }

  lemma WriteKeepsInv(s: World, r: nat, to: RunStatus, via: Via, phase: Phase)
    requires Inv(s) && WriteAllowed(s, r, via, phase)
    requires EdgeOk(Edge(s.status, to, r, via))
    ensures Inv(Written(s, r, to, via, phase))
  {
    var s' := Written(s, r, to, via, phase);
    WriteKeepsPath(s, s', Edge(s.status, to, r, via));
    forall q | q in s'.requests
      ensures PhaseOk(s', q)
    {
      WriteKeepsPhase(s, r, to, via, phase, q);
    }
    forall i: nat | i < |s'.history|
      ensures Attributed(s', i)
    {
      WriteKeepsAttributed(s, r, to, via, phase, i);
    }
  }

  lemma StepKeepsInv(s: World, step: Step)
    requires Inv(s) && Enabled(s, step)
    ensures Inv(Apply(s, step))
  {
    assert step.r in s.requests ==> PhaseOk(s, step.r);
    match step
    case Claim(r) =>
      if s.status.Pending? {
        WriteKeepsInv(s, r, Running, ByClaim, Loading);
      } else {
        MoveKeepsInv(s, r, Answered(Conflict, None));
      }
    case HandOver(r) => MoveKeepsInv(s, r, Answered(Ok, None));
    case FailCredentials(r) =>
      WriteKeepsInv(s, r, Failed, ByCredentialFailure, Answered(ServerError, Some(|s.history|)));
    case ReadReport(r, _) => MoveKeepsInv(s, r, Apply(s, step).requests[r]);
    case ReadStale(r, _) => MoveKeepsInv(s, r, Apply(s, step).requests[r]);
    case WriteGuarded(r) =>
      if s.status == s.requests[r].seen {
        WriteKeepsInv(s, r, s.requests[r].to, ByGuarded, Answered(Ok, Some(|s.history|)));
      } else {
        MoveKeepsInv(s, r, Answered(Conflict, None));
      }
    case ReadCancel(r) => MoveKeepsInv(s, r, Apply(s, step).requests[r]);
    case WriteCancel(r) => WriteKeepsInv(s, r, Cancelled, ByCancel, Answered(Ok, Some(|s.history|)));
  }

  lemma {:induction false} RunKeepsInv(s: World, steps: seq<Step>)
    requires Inv(s) && ValidRun(s, steps)
    ensures Inv(Exec(s, steps))
    decreases |steps|
  {
    if steps != [] {
      StepKeepsInv(s, steps[0]);
      RunKeepsInv(Apply(s, steps[0]), steps[1..]);
    }
  }

  // ------------------------------------------------------------------- theorems

  /** Every active status is left at most once, so each edge is won by one request; in particular
      a run is claimed at most once, whatever cancels and failures are interleaved. */
  lemma LeftOnce(steps: seq<Step>, i: nat, j: nat)
    requires ValidRun(CREATED, steps)
    requires i < |Exec(CREATED, steps).history| && j < |Exec(CREATED, steps).history|
    ensures var h := Exec(CREATED, steps).history;
            && (h[i].from == h[j].from && !Finished(h[i].from) ==> i == j)
            && (h[i].via.ByClaim? && h[j].via.ByClaim? ==> i == j)
  {
    RunKeepsInv(CREATED, steps);
    var h := Exec(CREATED, steps).history;
    assert EdgeOk(h[i]) && EdgeOk(h[j]);
    assert i < j ==> Behind(h[i], StatusAt(Exec(CREATED, steps), j));
    assert j < i ==> Behind(h[j], StatusAt(Exec(CREATED, steps), i));
  }

  /** The statuses form one path from PENDING to the current status, and each write on it is an
      allowed transition exactly when the run was not finished when the write arrived. Guarded
      writes never arrive late. */
  lemma HistoryIsPath(steps: seq<Step>, i: nat)
    requires ValidRun(CREATED, steps) && i < |Exec(CREATED, steps).history|
    ensures var s := Exec(CREATED, steps);
            && StatusAt(s, 0) == Pending && s.history[i].to == StatusAt(s, i + 1)
            && (CanTransition(s.history[i].from, s.history[i].to) <==> !Finished(s.history[i].from))
            && (s.history[i].via.ByClaim? || s.history[i].via.ByGuarded? ==> !Finished(s.history[i].from))
  {
    RunKeepsInv(CREATED, steps);
    assert EdgeOk(Exec(CREATED, steps).history[i]);
  }

  /** Without a late write a run makes at most four moves. */
  lemma ShortPath(steps: seq<Step>)
    requires ValidRun(CREATED, steps)
    requires forall e :: e in Exec(CREATED, steps).history ==> !Finished(e.from)
    ensures |Exec(CREATED, steps).history| <= Rank(Exec(CREATED, steps).status)
  {
    RunKeepsInv(CREATED, steps);
    var s := Exec(CREATED, steps);
    PathRank(s, |s.history|);
  }

  lemma {:induction false} PathRank(s: World, n: nat)
    requires Inv(s) && n <= |s.history|
    requires forall e :: e in s.history ==> !Finished(e.from)
    ensures n <= Rank(StatusAt(s, n))
  {
    if n > 0 {
      PathRank(s, n - 1);
      assert s.history[n - 1] in s.history;
      assert Behind(s.history[n - 1], StatusAt(s, n));
    }
  }

  /** Answers agree with the history: a request whose write was recorded made no other write than
      its own claim, and a request answered without a write (409, 400, an echo) made none but that. */
  lemma AnswersAgree(steps: seq<Step>, r: nat, i: nat)
    requires ValidRun(CREATED, steps)
    requires r in Exec(CREATED, steps).requests && Exec(CREATED, steps).requests[r].Answered?
    requires i < |Exec(CREATED, steps).history| && !Exec(CREATED, steps).history[i].via.ByClaim?
    ensures Exec(CREATED, steps).history[i].writer == r <==> Exec(CREATED, steps).requests[r].edge == Some(i)
  {
    RunKeepsInv(CREATED, steps);
    var s := Exec(CREATED, steps);
    assert PhaseOk(s, r) && Attributed(s, i);
  }

  /** A finished run never becomes active again, even through an unguarded write. */
  lemma {:induction false} FinishedStays(s: World, steps: seq<Step>)
    requires Inv(s) && ValidRun(s, steps) && Finished(s.status)
    ensures Finished(Exec(s, steps).status)
    decreases |steps|
  {
    if steps != [] {
      var step := steps[0];
      StepKeepsInv(s, step);
      assert step.r in s.requests ==> PhaseOk(s, step.r);
      FinishedStays(Apply(s, step), steps[1..]);
    }
  }

  /** The guard is missing where it matters: a cancel that read PENDING can overwrite COMPLETED. */
  lemma LateCancel() returns (steps: seq<Step>)
    ensures ValidRun(CREATED, steps)
    ensures var h := Exec(CREATED, steps).history;
            |h| > 0 && h[|h| - 1].from == Completed && h[|h| - 1].to == Cancelled
  {
    var tail := ReportSteps(6, Completed) + [WriteCancel(1)];
    var s0 := Apply(Apply(CREATED, ReadCancel(1)), Claim(2));
    var s1 := AfterReport(s0, 4, Uploading);
    var s2 := AfterReport(s1, 5, Verifying);
    var s3 := AfterReport(s2, 6, Completed);
    var last := [WriteCancel(1)];
    assert Enabled(s3, WriteCancel(1));
    assert last[1..] == [];
    assert Exec(s3, last) == Apply(s3, WriteCancel(1));
    ReportRuns(s2, 6, Completed, last);
    ReportRuns(s1, 5, Verifying, tail);
    ReportRuns(s0, 4, Uploading, ReportSteps(5, Verifying) + tail);
    var rest := ReportSteps(4, Uploading) + (ReportSteps(5, Verifying) + tail);
    var afterRead := [Claim(2)] + rest;
    steps := [ReadCancel(1)] + afterRead;
    assert steps[1..] == afterRead && afterRead[1..] == rest;
    assert Exec(CREATED, steps) == Exec(Apply(CREATED, ReadCancel(1)), afterRead);
  }

  ghost function ReportSteps(r: nat, to: RunStatus): seq<Step> {
    [ReadReport(r, to), WriteGuarded(r)]
  }

  ghost function AfterReport(s: World, r: nat, to: RunStatus): World {
    Written(Moved(s, r, Guarded(s.status, to)), r, to, ByGuarded, Answered(Ok, Some(|s.history|)))
  }

  /** An undisturbed report of an allowed transition moves the run. */
  lemma ReportRuns(s: World, r: nat, to: RunStatus, rest: seq<Step>)
    requires r !in s.requests && CanTransition(s.status, to)
    requires ValidRun(AfterReport(s, r, to), rest)
    ensures ValidRun(s, ReportSteps(r, to) + rest)
    ensures Exec(s, ReportSteps(r, to) + rest) == Exec(AfterReport(s, r, to), rest)
  {
    var steps := ReportSteps(r, to) + rest;
    assert steps[1..] == [WriteGuarded(r)] + rest && steps[1..][1..] == rest;
    var mid := Apply(s, steps[0]);
    assert Apply(mid, WriteGuarded(r)) == AfterReport(s, r, to);
    assert Exec(s, steps) == Exec(mid, steps[1..]);
  }

  lemma Before(s: World, step: Step, rest: seq<Step>) returns (steps: seq<Step>)
    requires Enabled(s, step) && ValidRun(Apply(s, step), rest)
    ensures ValidRun(s, steps) && Exec(s, steps) == Exec(Apply(s, step), rest)
  {
    steps := [step] + rest;
    assert steps[1..] == rest;
  }

  /** The request has been answered, and the status is as given. */
  ghost predicate Answers(s: World, r: nat, outcome: (RunStatus, Answer)) {
    s.status == outcome.0 && r in s.requests && s.requests[r].Answered? && s.requests[r].answer == outcome.1
  }

  /** `Registry.ClaimRun` without interruption is a run of these steps, with the same outcome. */
  lemma ClaimAlone(s: World, r: nat, decryptable: bool) returns (steps: seq<Step>)
    requires r !in s.requests
    ensures ValidRun(s, steps) && Answers(Exec(s, steps), r, ClaimOutcome(s.status, decryptable))
  {
    var s1 := Apply(s, Claim(r));
    steps := [];
    if s.status.Pending? {
      steps := Before(s1, if decryptable then HandOver(r) else FailCredentials(r), []);
    }
    steps := Before(s, Claim(r), steps);
  }

  /** So is `Registry.UpdateStatus`. */
  lemma ReportAlone(s: World, r: nat, reported: RunStatus) returns (steps: seq<Step>)
    requires r !in s.requests
    ensures ValidRun(s, steps) && Answers(Exec(s, steps), r, ReportOutcome(s.status, reported))
  {
    var s1 := Apply(s, ReadReport(r, reported));
    steps := [];
    if Judge(s.status, reported).Move? {
      steps := Before(s1, WriteGuarded(r), []);
    }
    steps := Before(s, ReadReport(r, reported), steps);
  }

  /** COMPLETED is reached only through every stage: of all writes only the fourth can lead there, after
      PENDING, RUNNING, UPLOADING and VERIFYING in this order; and nothing fails before it has started. */
  lemma CompletedPassedEveryStage(steps: seq<Step>, i: nat)
    requires ValidRun(CREATED, steps) && i < |Exec(CREATED, steps).history|
    ensures var h := Exec(CREATED, steps).history;
      && (h[i].to == Completed ==>
            i == 3 && h[0].from == Pending && h[1].from == Running && h[2].from == Uploading && h[3].from == Verifying)
      && (h[i].to == Failed ==> h[i].from != Pending)
  {
    RunKeepsInv(CREATED, steps);
    Stages(Exec(CREATED, steps), i);
  }

  lemma Stages(s: World, i: nat)
    requires Inv(s) && i < |s.history|
    ensures s.history[i].to == Failed ==> s.history[i].from != Pending
    ensures s.history[i].to == Completed ==>
              && i == 3 && s.history[0].from == Pending && s.history[1].from == Running
              && s.history[2].from == Uploading && s.history[3].from == Verifying
  {
    assert s.history[i] in s.history;
    EdgeInto(s.history[i]);
    if s.history[i].to == Completed {
      StageBefore(s, i);
      StageBefore(s, i - 1);
      StageBefore(s, i - 2);
      StageBefore(s, i - 3);
    }
  }

  /** Where a write to a given status can come from. */
  lemma EdgeInto(e: Edge)
    requires EdgeOk(e)
    ensures e.to != Pending
    ensures e.to == Running ==> e.from == Pending
    ensures e.to == Uploading ==> e.from == Running
    ensures e.to == Verifying ==> e.from == Uploading
    ensures e.to == Completed ==> e.from == Verifying
    ensures e.to == Failed ==> e.from != Pending
  {
  }

  /** The write before one that leaves a stage entered it. */
  lemma StageBefore(s: World, i: nat)
    requires Chained(s) && Progress(s) && i < |s.history|
    ensures s.history[i].from == Pending <==> i == 0
    ensures s.history[i].from == Running ==> i > 0 && s.history[i - 1].from == Pending
    ensures s.history[i].from == Uploading ==> i > 0 && s.history[i - 1].from == Running
    ensures s.history[i].from == Verifying ==> i > 0 && s.history[i - 1].from == Uploading
  {
    assert StatusAt(s, 0) == Pending;
    if i > 0 {
      assert s.history[i - 1].to == StatusAt(s, i - 1 + 1);
      assert s.history[i - 1] in s.history;
      EdgeInto(s.history[i - 1]);
    }
  }

  /** The scheduler's check of a silent agent, undisturbed, ends a run in flight: CANCELLED when a cancel had
      been requested, FAILED otherwise. */
  lemma StaleAlone(s: World, r: nat, cancelRequested: bool) returns (steps: seq<Step>)
    requires r !in s.requests && s.status in {Running, Uploading, Verifying}
    ensures ValidRun(s, steps) && Exec(s, steps).status == if cancelRequested then Cancelled else Failed
  {
    var s1 := Apply(s, ReadStale(r, cancelRequested));
    steps := Before(s1, WriteGuarded(r), []);
    steps := Before(s, ReadStale(r, cancelRequested), steps);
  }

  /** A management cancel, undisturbed, cancels a pending run at once, leaves a run in flight to its agent,
      and is refused for a completed or failed one. */
  lemma CancelAlone(s: World, r: nat) returns (steps: seq<Step>)
    requires r !in s.requests
    ensures ValidRun(s, steps)
    ensures Answers(Exec(s, steps), r,
                    (if s.status == Pending then Cancelled else s.status,
                     if s.status == Completed || s.status == Failed then BadRequest else Ok))
  {
    var s1 := Apply(s, ReadCancel(r));
    steps := [];
    if s.status.Pending? {
      steps := Before(s1, WriteCancel(r), []);
    }
    steps := Before(s, ReadCancel(r), steps);
  }
}
