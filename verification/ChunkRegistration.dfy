/** Concurrent registrations of chunks, split into look-up, insert and the re-read after a
    unique-index conflict, in any order. */
module ChunkRegistration {
  import opened AgentRuns

  datatype Phase = Arrived | Creating | Rereading | Answered(answer: Answer)

  datatype Request = Request(key: ChunkKey, checksum: string, phase: Phase)

  /** `creator` is history: the request whose insert stored the row. */
  datatype World = World(chunks: map<ChunkKey, string>, requests: map<nat, Request>, creator: map<ChunkKey, nat>)

  const EMPTY: World := World(map[], map[], map[])

  datatype Step =
    | Arrive(r: nat, key: ChunkKey, checksum: string)
    | LookUp(r: nat)
    | Insert(r: nat)
    | Reread(r: nat)

  ghost predicate Enabled(s: World, step: Step) {
    match step
    case Arrive(r, key, _) => r !in s.requests && key.index >= 0
    case LookUp(r) => r in s.requests && s.requests[r].phase.Arrived?
    case Insert(r) => r in s.requests && s.requests[r].phase.Creating?
    case Reread(r) => r in s.requests && s.requests[r].phase.Rereading?
  }

  ghost function Compared(s: World, q: Request, missing: Phase): Phase {
    if q.key !in s.chunks then missing
    else if s.chunks[q.key] != q.checksum then Answered(Conflict)
    else Answered(Ok)
  }

  ghost function Moved(s: World, r: nat, phase: Phase): World
    requires r in s.requests
  {
    s.(requests := s.requests[r := s.requests[r].(phase := phase)])
  }

  ghost function Apply(s: World, step: Step): World
    requires Enabled(s, step)
  {
    match step
    case Arrive(r, key, checksum) => s.(requests := s.requests[r := Request(key, checksum, Arrived)])
    case LookUp(r) => Moved(s, r, Compared(s, s.requests[r], Creating))
    case Insert(r) =>
      var q := s.requests[r];
      if q.key in s.chunks then Moved(s, r, Rereading)
      else Moved(s, r, Answered(Created)).(chunks := s.chunks[q.key := q.checksum], creator := s.creator[q.key := r])
    case Reread(r) => Moved(s, r, Compared(s, s.requests[r], Answered(ServerError)))
  }

  ghost predicate ValidRun(s: World, steps: seq<Step>)
    decreases |steps|
  {
    steps == [] || (Enabled(s, steps[0]) && ValidRun(Apply(s, steps[0]), steps[1..]))
  }

  ghost function Exec(s: World, steps: seq<Step>): World
    requires ValidRun(s, steps)
    decreases |steps|
  {
    if steps == [] then s else Exec(Apply(s, steps[0]), steps[1..])
  }

  /** Accepted means the stored checksum is this one; refused means it is another. */
  ghost predicate AnswerOk(s: World, r: nat)
    requires r in s.requests
  {
    var q := s.requests[r];
    match q.phase
    case Arrived => true
    case Creating => true
    case Rereading => q.key in s.chunks
    case Answered(answer) =>
      && q.key in s.chunks
      && (answer.Ok? || answer.Created? || answer.Conflict?)
      && (answer.Conflict? <==> s.chunks[q.key] != q.checksum)
      && (answer.Created? ==> q.key in s.creator && s.creator[q.key] == r)
  }

  ghost predicate Inv(s: World) {
    && s.creator.Keys == s.chunks.Keys
    && (forall r :: r in s.requests ==> AnswerOk(s, r))
    && (forall key :: key in s.creator ==>
          s.creator[key] in s.requests && s.requests[s.creator[key]] == Request(key, s.chunks[key], Answered(Created)))
  }

  lemma StepKeepsAnswer(s: World, step: Step, r: nat)
    requires Inv(s) && Enabled(s, step) && r in Apply(s, step).requests
    ensures AnswerOk(Apply(s, step), r)
  {
    assert r in s.requests ==> AnswerOk(s, r);
  }

  lemma StepKeepsCreator(s: World, step: Step, key: ChunkKey)
    requires Inv(s) && Enabled(s, step) && key in Apply(s, step).creator
    ensures var s' := Apply(s, step);
            && key in s'.chunks && s'.creator[key] in s'.requests
            && s'.requests[s'.creator[key]] == Request(key, s'.chunks[key], Answered(Created))
  {
  }

  lemma StepKeepsInv(s: World, step: Step)
    requires Inv(s) && Enabled(s, step)
    ensures Inv(Apply(s, step))
    ensures forall key :: key in s.chunks ==> key in Apply(s, step).chunks && Apply(s, step).chunks[key] == s.chunks[key]
  {
    var s' := Apply(s, step);
    forall r | r in s'.requests
      ensures AnswerOk(s', r)
    {
      StepKeepsAnswer(s, step, r);
    }
    forall key | key in s'.creator
      ensures key in s'.chunks && s'.creator[key] in s'.requests
      ensures s'.requests[s'.creator[key]] == Request(key, s'.chunks[key], Answered(Created))
    {
      StepKeepsCreator(s, step, key);
    }
  }

  /** A stored checksum is never replaced. */
  lemma {:induction false} FirstWriterWins(s: World, steps: seq<Step>, key: ChunkKey)
    requires Inv(s) && ValidRun(s, steps)
    ensures Inv(Exec(s, steps))
    ensures key in s.chunks ==> key in Exec(s, steps).chunks && Exec(s, steps).chunks[key] == s.chunks[key]
    decreases |steps|
  {
    if steps != [] {
      StepKeepsInv(s, steps[0]);
      FirstWriterWins(Apply(s, steps[0]), steps[1..], key);
    }
  }

  /** Agreement: for one (artifact, index) every request answered 200 or 201 carried the stored
      checksum, every 409 carried another, at most one request was answered 201, the stored row
      came from such a request, and no request ends in 500. */
  lemma ChunkAgreement(steps: seq<Step>, q: nat, r: nat)
    requires ValidRun(EMPTY, steps)
    requires var s := Exec(EMPTY, steps);
             && q in s.requests && r in s.requests && s.requests[q].key == s.requests[r].key
             && s.requests[q].phase.Answered? && s.requests[r].phase.Answered?
    ensures var s := Exec(EMPTY, steps); var key, a, b := s.requests[q].key, s.requests[q].phase.answer, s.requests[r].phase.answer;
            && key in s.chunks
            && (a.Ok? || a.Created? || a.Conflict?)
            && (a.Ok? || a.Created? <==> s.requests[q].checksum == s.chunks[key])
            && (a.Created? && b.Created? ==> q == r)
            && (exists w :: w in s.requests && s.requests[w] == Request(key, s.chunks[key], Answered(Created)))
  {
    var s := Exec(EMPTY, steps);
    FirstWriterWins(EMPTY, steps, s.requests[q].key);
    assert AnswerOk(s, q) && AnswerOk(s, r);
  }

  /** `Registry.RegisterChunk` without interruption is a run of these steps, with the same outcome. */
  lemma RegisterAlone(s: World, r: nat, key: ChunkKey, checksum: string) returns (steps: seq<Step>)
    requires r !in s.requests && key.index >= 0
    ensures ValidRun(s, steps)
    ensures var s', outcome := Exec(s, steps), RegisterOutcome(s.chunks, key, checksum);
            s'.chunks == outcome.0 && r in s'.requests && s'.requests[r].phase == Answered(outcome.1)
  {
    var s1 := Apply(s, Arrive(r, key, checksum));
    var s2 := Apply(s1, LookUp(r));
    steps := [];
    if key !in s.chunks {
      steps := Before(s2, Insert(r), []);
    }
    steps := Before(s1, LookUp(r), steps);
    steps := Before(s, Arrive(r, key, checksum), steps);
  }

  lemma Before(s: World, step: Step, rest: seq<Step>) returns (steps: seq<Step>)
    requires Enabled(s, step) && ValidRun(Apply(s, step), rest)
    ensures ValidRun(s, steps) && Exec(s, steps) == Exec(Apply(s, step), rest)
  {
    steps := [step] + rest;
    assert steps[1..] == rest;
  }
}
