/** Backup runs and chunk rows as an agent's requests change them (`vgbackup_agent.go`). */
module AgentRuns {
  import opened Common

  datatype RunStatus = Pending | Running | Uploading | Verifying | Completed | Failed | Cancelled

  predicate CanTransition(from: RunStatus, to: RunStatus) {
    match from
    case Pending => to.Running? || to.Cancelled?
    case Running => to.Uploading? || to.Failed? || to.Cancelled?
    case Uploading => to.Verifying? || to.Failed? || to.Cancelled?
    case Verifying => to.Completed? || to.Failed? || to.Cancelled?
    case _ => false
  }

  predicate Finished(s: RunStatus) {
    s.Completed? || s.Failed? || s.Cancelled?
  }

  predicate InFlight(s: RunStatus) {
    s.Running? || s.Uploading? || s.Verifying?
  }

  datatype Counters = Counters(read: int, compressed: int, uploaded: int)

  datatype Run = Run(
    agent: nat,
    status: RunStatus,
    startedAt: Option<Time>,
    completedAt: Option<Time>,
    durationSec: int,
    counters: Counters,
    error: string,
    failureCategory: string,
    storagePath: string,
    checksum: string,
    dataKey: string)

  datatype Verification = Unverified | Verified(at: Time) | VerifyFailed

  datatype Artifact = Artifact(run: nat, verification: Verification)

  datatype ChunkKey = ChunkKey(artifact: nat, index: int)

  datatype Answer = Ok | Created | BadRequest | Forbidden | NotFound | Conflict | ServerError

  /** A status report. `pathInside` says whether a reported storage path lies in the target directory,
      `wrapped` is the envelope of the reported data key, if it could be made. */
  datatype Report = Report(
    status: RunStatus, counters: Counters, error: string, storagePath: string, checksum: string, dataKey: string,
    pathInside: bool, wrapped: Option<string>)
  {
    predicate WellFormed() {
      counters.read >= 0 && counters.compressed >= 0 && counters.uploaded >= 0 && pathInside
    }

    predicate KeyStorable() {
      dataKey == "" || wrapped.Some?
    }
  }

  datatype Verdict = Move | Echo | Refuse

  /** What a report asks of a run with the given status. */
  function Judge(current: RunStatus, reported: RunStatus): Verdict {
    if CanTransition(current, reported) then Move
    else if current == reported then Echo
    else Refuse
  }

  predicate Owns(runs: map<nat, Run>, id: nat, agent: nat) {
    id in runs && runs[id].agent == agent
  }

  /** Whole seconds, truncated toward zero. */
  function WholeSeconds(d: int): int {
    if d >= 0 then d / SECOND else -((-d) / SECOND)
  }

  function Duration(run: Run, now: Time): int {
    if run.startedAt.Some? then WholeSeconds(now - run.startedAt.value) else run.durationSec
  }

  function Started(run: Run, now: Time): Run {
    run.(status := Running, startedAt := Some(now))
  }

  const NO_CREDENTIALS: string :=
    "server cannot decrypt the job's connection credentials; check SERVERHUB_ENCRYPTION_KEY"

  function CredentialsFailed(run: Run, now: Time): Run {
    run.(status := Failed, completedAt := Some(now), durationSec := Duration(run, now),
         error := NO_CREDENTIALS, failureCategory := "CREDENTIAL_DECRYPT")
  }

  /** The row after an accepted report: a move writes every reported column, a repeated status only the
      counters, and only while the run is in flight. */
  function Reported(run: Run, report: Report, now: Time): Run {
    if Judge(run.status, report.status).Move? then
      var moved := run.(
        status := report.status, counters := report.counters, error := report.error,
        storagePath := report.storagePath, checksum := report.checksum,
        dataKey := if report.dataKey != "" && report.wrapped.Some? then report.wrapped.value else run.dataKey);
      if report.status.Completed? || report.status.Failed?
      then moved.(completedAt := Some(now), durationSec := Duration(run, now))
      else moved
    else if InFlight(run.status) then run.(counters := report.counters)
    else run
  }

  /** COMPLETED verifies the run's artifacts that were not yet judged. */
  function VerifiedAll(artifacts: map<nat, Artifact>, run: nat, now: Time): map<nat, Artifact> {
    map a | a in artifacts ::
      if artifacts[a].run == run && artifacts[a].verification.Unverified?
      then artifacts[a].(verification := Verified(now))
      else artifacts[a]
  }

  // What one undisturbed request does to the status, or to the chunks, and what it is answered.

  function ClaimOutcome(status: RunStatus, decryptable: bool): (RunStatus, Answer) {
    if !status.Pending? then (status, Conflict)
    else if decryptable then (Running, Ok)
    else (Failed, ServerError)
  }

  function ReportOutcome(status: RunStatus, reported: RunStatus): (RunStatus, Answer) {
    match Judge(status, reported)
    case Move => (reported, Ok)
    case Echo => (status, Ok)
    case Refuse => (status, BadRequest)
  }

  function RegisterOutcome(chunks: map<ChunkKey, string>, key: ChunkKey, checksum: string): (map<ChunkKey, string>, Answer) {
    if key !in chunks then (chunks[key := checksum], Created)
    else (chunks, if chunks[key] == checksum then Ok else Conflict)
  }

  class Registry {
    var runs: map<nat, Run>
    var artifacts: map<nat, Artifact>
    var chunks: map<ChunkKey, string>    // checksum stored, one row per (artifact, index)

    constructor ()
      ensures runs == map[] && artifacts == map[] && chunks == map[]
    {
      runs, artifacts, chunks := map[], map[], map[];
    }

    /** The guarded UPDATE: it applies only while the row still has the status that was read. */
    method UpdateIf(id: nat, seen: RunStatus, row: Run) returns (affected: nat)
      modifies this`runs
      ensures affected == if id in old(runs) && old(runs)[id].status == seen then 1 else 0
      ensures runs == if affected == 1 then old(runs)[id := row] else old(runs)
    {
      affected := 0;
      if id in runs && runs[id].status == seen {
        runs := runs[id := row];
        affected := 1;
      }
    }

    /** One claim request without interruption. A pending run of the agent starts, or fails at once
        when its credentials cannot be decrypted; nothing else changes anything. */
    method ClaimRun(id: nat, agent: nat, decryptable: bool, now: Time, later: Time) returns (answer: Answer)
      modifies this`runs
      ensures answer.NotFound? <==> !Owns(old(runs), id, agent)
      ensures !answer.NotFound? ==> id in runs && (runs[id].status, answer) == ClaimOutcome(old(runs)[id].status, decryptable)
      ensures answer.Ok? ==> runs == old(runs)[id := Started(old(runs)[id], now)]
      ensures answer.ServerError? ==> runs == old(runs)[id := CredentialsFailed(Started(old(runs)[id], now), later)]
      ensures !answer.Ok? && !answer.ServerError? ==> runs == old(runs)
    {
      var affected := 0;
      if id in runs && runs[id].agent == agent {
        affected := UpdateIf(id, Pending, runs[id].(status := Running, startedAt := Some(now)));
      }
      if affected == 0 {
        return if id in runs && runs[id].agent == agent then Conflict else NotFound;
      }
      if !decryptable {
        var failed := runs[id].(status := Failed, completedAt := Some(later),
                                error := NO_CREDENTIALS, failureCategory := "CREDENTIAL_DECRYPT");
        if failed.startedAt.Some? {
          failed := failed.(durationSec := WholeSeconds(later - failed.startedAt.value));
        }
        runs := runs[id := failed];
        return ServerError;
      }
      return Ok;
    }

    /** One status report without interruption. It is accepted exactly when it is well formed and an
        allowed move or a repeated status; a finished run never changes. */
    method UpdateStatus(id: nat, agent: nat, report: Report, now: Time, later: Time) returns (answer: Answer)
      modifies this`runs, this`artifacts
      ensures answer.Ok? <==>
        && Owns(old(runs), id, agent) && report.WellFormed()
        && ((CanTransition(old(runs)[id].status, report.status) && report.KeyStorable())
            || old(runs)[id].status == report.status)
      ensures Owns(old(runs), id, agent) && report.WellFormed() && report.KeyStorable() ==>
        id in runs && (runs[id].status, answer) == ReportOutcome(old(runs)[id].status, report.status)
      ensures runs == if answer.Ok? then old(runs)[id := Reported(old(runs)[id], report, now)] else old(runs)
      ensures artifacts == if answer.Ok? && report.status.Completed? && !old(runs)[id].status.Completed?
                           then VerifiedAll(old(artifacts), id, later)
                           else old(artifacts)
      ensures id in old(runs) && Finished(old(runs)[id].status) ==> runs == old(runs) && artifacts == old(artifacts)
    {
      if report.counters.read < 0 || report.counters.compressed < 0 || report.counters.uploaded < 0 {
        return BadRequest;
      }
      if id !in runs || runs[id].agent != agent {
        return NotFound;
      }
      if !report.pathInside {
        return BadRequest;
      }
      var run := runs[id];
      if !CanTransition(run.status, report.status) {
        if report.status != run.status {
          return BadRequest;
        }
        if InFlight(run.status) {
          runs := runs[id := run.(counters := report.counters)];
        } else {
          assert runs == runs[id := run];
        }
        return Ok;
      }
      var row := run.(status := report.status, counters := report.counters, error := report.error,
                      storagePath := report.storagePath, checksum := report.checksum);
      if report.status == Completed || report.status == Failed {
        row := row.(completedAt := Some(now));
        if run.startedAt.Some? {
          row := row.(durationSec := WholeSeconds(now - run.startedAt.value));
        }
      }
      if report.dataKey != "" {
        if report.wrapped.None? {
          return ServerError;
        }
        row := row.(dataKey := report.wrapped.value);
      }
      var affected := UpdateIf(id, run.status, row);
      if affected == 0 {
        return Conflict;
      }
      if report.status == Completed {
        artifacts := map a | a in artifacts ::
          if artifacts[a].run == id && artifacts[a].verification == Unverified
          then artifacts[a].(verification := Verified(later))
          else artifacts[a];
      }
      return Ok;
    }

    ghost predicate Permitted(agent: nat, key: ChunkKey)
      reads this
    {
      key.artifact in artifacts && Owns(runs, artifacts[key.artifact].run, agent)
    }

    /** One chunk registration without interruption: the first checksum is stored, an equal one
        is confirmed, a different one is refused. */
    method RegisterChunk(agent: nat, key: ChunkKey, size: int, checksum: string) returns (answer: Answer)
      modifies this`chunks
      ensures answer.NotFound? <==> key.artifact !in artifacts
      ensures answer.Forbidden? <==> key.artifact in artifacts && !Permitted(agent, key)
      ensures answer.BadRequest? <==> Permitted(agent, key) && (key.index < 0 || size < 0)
      ensures if Permitted(agent, key) && key.index >= 0 && size >= 0
              then (chunks, answer) == RegisterOutcome(old(chunks), key, checksum)
              else chunks == old(chunks)
    {
      if key.artifact !in artifacts {
        return NotFound;
      }
      if artifacts[key.artifact].run !in runs || runs[artifacts[key.artifact].run].agent != agent {
        return Forbidden;
      }
      if key.index < 0 || size < 0 {
        return BadRequest;
      }
      if key in chunks {
        return if chunks[key] != checksum then Conflict else Ok;
      }
      chunks := chunks[key := checksum];
      return Created;
    }
  }

  /** The moves a run can make, one by one. */
  lemma Transitions(from: RunStatus, to: RunStatus)
    ensures CanTransition(from, to) <==>
      (from, to) in {(Pending, Running), (Pending, Cancelled),
                     (Running, Uploading), (Running, Failed), (Running, Cancelled),
                     (Uploading, Verifying), (Uploading, Failed), (Uploading, Cancelled),
                     (Verifying, Completed), (Verifying, Failed), (Verifying, Cancelled)}
  {
  }

  /** A run's own times: claimed at `start` and reported COMPLETED or FAILED at `end`, with reports of other
      statuses in between, it shows both times and the whole seconds between them. */
  lemma RunTimes(run: Run, start: Time, between: seq<(Report, Time)>, last: Report, end: Time)
    requires start <= end && forall i :: 0 <= i < |between| ==> !Finished(between[i].0.status)
    requires last.status == Completed || last.status == Failed
    requires CanTransition(ReportedAll(Started(run, start), between).status, last.status)
    ensures var done := Reported(ReportedAll(Started(run, start), between), last, end);
      && done.status == last.status && done.startedAt == Some(start) && done.completedAt == Some(end)
      && done.durationSec * 1_000_000 <= end - start < (done.durationSec + 1) * 1_000_000
  {
    StartStays(Started(run, start), between);
  }

  ghost function ReportedAll(run: Run, reports: seq<(Report, Time)>): Run {
    if reports == [] then run
    else Reported(ReportedAll(run, reports[..|reports| - 1]), reports[|reports| - 1].0, reports[|reports| - 1].1)
  }

  lemma {:induction false} StartStays(run: Run, reports: seq<(Report, Time)>)
    ensures ReportedAll(run, reports).startedAt == run.startedAt
  {
    if reports != [] {
      StartStays(run, reports[..|reports| - 1]);
    }
  }

  /** What an accepted report leaves: a move every reported column, the key only when one was reported; a
      repeated status the counters, of a run in flight only. */
  lemma ReportedColumns(run: Run, report: Report, now: Time)
    ensures var after := Reported(run, report, now);
      && after.agent == run.agent && after.startedAt == run.startedAt && after.failureCategory == run.failureCategory
      && (CanTransition(run.status, report.status) && report.KeyStorable() ==>
            && after.status == report.status && after.counters == report.counters && after.error == report.error
            && after.storagePath == report.storagePath && after.checksum == report.checksum
            && after.dataKey == (if report.dataKey == "" then run.dataKey else report.wrapped.value))
      && (run.status == report.status ==>
            after == run.(counters := if run.status in {Running, Uploading, Verifying} then report.counters else run.counters))
  {
  }

  /** COMPLETED leaves no artifact of its run unjudged, revises no judgement, and touches no other run's. */
  lemma VerifiedMeans(artifacts: map<nat, Artifact>, run: nat, now: Time, a: nat)
    requires a in artifacts
    ensures a in VerifiedAll(artifacts, run, now)
    ensures var before, after := artifacts[a], VerifiedAll(artifacts, run, now)[a];
      && after.run == before.run
      && (before.run == run ==> after.verification != Unverified)
      && (before.verification != Unverified || before.run != run ==> after == before)
      && (before.verification == Unverified && before.run == run ==> after.verification == Verified(now))
  {
  }
}
