/** One single-flight client against the server's refresh statements, in any order. Responses may be
    lost at any point, and the server goes on with a request whose client has given up. The user's
    other devices log in, refresh and trip the reuse purge as they like. Excluded are expiry, logout,
    password change and loss of the role. */
module RefreshEndToEnd {
  import opened Common
  import opened RefreshTokens
  import opened RefreshClient

  /** Where the server is with one refresh request. */
  datatype Phase =
    | Posted
    | Checked            // row read: valid
    | Won                // row claimed; a new token is due
    | Purging            // reuse: the user's old sessions are about to be revoked
    | Replied(rotated: Token)
    | Refused

  datatype Request = Request(tok: Token, phase: Phase)

  /** Where the client is with its one refresh. */
  datatype Flight =
    | Grounded
    | Starting           // promise created, stored token being read
    | Awaiting(r: nat)   // request posted, no answer yet
    | GaveUp             // timeout or lost connection

  /** What a request of the app has met with: answers of the server, and the end of its refresh. */
  datatype Heard = Answer(unauthorized: bool) | RefreshOver(ok: bool)

  /** History: `heard` is what each request of the app met with, in order, `session` holds the tokens issued to this client's session, `reused` says that a reuse
      branch was taken, `lost` that a response was lost, `forfeited` that a request the client had
      given up on claimed the session's token, `purged` that a purge revoked it. */
  datatype World = World(
    user: string, tokens: TokenTable, next: Token, client: Client, flight: Flight, requests: map<nat, Request>,
    heard: map<nat, seq<Heard>>, session: set<Token>, reused: bool, lost: bool, forfeited: bool, purged: bool)

  datatype Step =
    | Send(i: nat, authPath: bool)
    | Respond(i: nat, unauthorized: bool)
    | Resume(i: nat)
    | Post(r: nat)
    | Read(r: nat, now: Time)
    | Claim(r: nat)
    | Issue(r: nat, now: Time)
    | Purge(r: nat, dbNow: Time)
    | Settle
    | Lose
    | OthersAct(tokens: TokenTable, next: Token)
    | PurgeElsewhere(dbNow: Time)   // a reuse purge of this user set off by another device

  ghost predicate AtPhase(s: World, r: nat, phase: Phase) {
    r in s.requests && s.requests[r].phase == phase
  }

  ghost predicate Answered(s: World, r: nat) {
    r in s.requests && (s.requests[r].phase.Replied? || s.requests[r].phase.Refused?)
  }

  /** Other sessions, of this user too, change freely; this session's rows do not. */
  ghost predicate OthersOnly(s: World, tokens: TokenTable, next: Token) {
    && next >= s.next
    && (forall tok :: tok in tokens ==> tok < next)
    && (forall tok :: tok in s.session && tok in s.tokens ==> tok in tokens && tokens[tok] == s.tokens[tok])
  }

  ghost predicate Enabled(s: World, step: Step) {
    match step
    case Send(i, _) => i !in s.client.calls
    case Respond(i, _) => i in s.client.calls && s.client.calls[i].progress.InFlight?
    case Resume(i) => i in s.client.calls && s.client.calls[i].progress.Resumed?
    case Post(r) => s.flight.Starting? && r !in s.requests
    case Read(r, now) =>
      AtPhase(s, r, Posted) && (s.requests[r].tok in s.tokens ==> now <= s.tokens[s.requests[r].tok].expiresAt)
    case Claim(r) => AtPhase(s, r, Checked)
    case Issue(r, _) => AtPhase(s, r, Won)
    case Purge(r, _) => AtPhase(s, r, Purging)
    case Settle => s.flight.GaveUp? || (s.flight.Awaiting? && Answered(s, s.flight.r))
    case Lose => s.flight.Awaiting?
    case OthersAct(tokens, next) => OthersOnly(s, tokens, next)
    case PurgeElsewhere(_) => true
  }

  ghost function Moved(s: World, r: nat, phase: Phase): World
    requires r in s.requests
  {
    s.(requests := s.requests[r := s.requests[r].(phase := phase)])
  }

  /** The token that stands for the session: the stored one, or the replacement on its way to the
      client; none while the claim of the awaited request has not been answered with one. */
  ghost function Current(s: World): Option<Token> {
    if s.flight.Awaiting? && s.flight.r in s.requests then
      match s.requests[s.flight.r].phase
      case Won => None
      case Replied(rotated) => Some(rotated)
      case _ => Some(s.client.stored)
    else Some(s.client.stored)
  }

  ghost function ReadPhase(tokens: TokenTable, tok: Token): Phase {
    if tok !in tokens then Refused
    else if tokens[tok].revoked then Purging
    else Checked
  }

  /** A purge at `dbNow` revokes the session's current token. */
  ghost predicate PurgeHits(s: World, dbNow: Time) {
    && Current(s).Some? && Live(s.tokens, Current(s).value)
    && s.tokens[Current(s).value].createdAt < dbNow - REUSE_LEEWAY
  }

  ghost function Purged(s: World, dbNow: Time): World {
    s.(tokens := RevokeOld(s.tokens, s.user, dbNow), purged := s.purged || PurgeHits(s, dbNow))
  }

  ghost function HeardBy(s: World, i: nat): seq<Heard> {
    if i in s.heard then s.heard[i] else []
  }

  /** The end of the refresh reaches every request that waits for it. */
  ghost function AllHear(s: World, ok: bool): map<nat, seq<Heard>> {
    map i | i in s.heard ::
      if i in s.client.calls && s.client.calls[i].progress.Waiting? then s.heard[i] + [RefreshOver(ok)] else s.heard[i]
  }

  ghost function Apply(s: World, step: Step): World
    requires Enabled(s, step)
  {
    match step
    case Send(i, authPath) => s.(client := Submit(s.client, i, authPath), heard := s.heard[i := []])
    case Respond(i, unauthorized) =>
      var c := OnResponse(s.client, i, unauthorized);
      s.(client := c, flight := if !s.client.refreshing && c.refreshing then Starting else s.flight,
         heard := s.heard[i := HeardBy(s, i) + [Answer(unauthorized)]])
    case Resume(i) => s.(client := OnResume(s.client, i))
    case Post(r) => s.(flight := Awaiting(r), requests := s.requests[r := Request(s.client.stored, Posted)])
    case Read(r, _) =>
      var phase := ReadPhase(s.tokens, s.requests[r].tok);
      Moved(s, r, phase).(reused := s.reused || phase.Purging?)
    case Claim(r) =>
      var tok := s.requests[r].tok;
      if Live(s.tokens, tok) then
        Moved(s, r, Won).(tokens := Revoke(s.tokens, tok), forfeited := s.forfeited || s.flight != Awaiting(r))
      else Moved(s, r, Purging).(reused := true)
    case Issue(r, now) =>
      Moved(s, r, Replied(s.next)).(
        tokens := Store(s.tokens, s.next, s.user, now), next := s.next + 1, session := s.session + {s.next})
    case Purge(r, dbNow) => Purged(Moved(s, r, Refused), dbNow)
    case Settle =>
      var rotated :=
        if s.flight.Awaiting? && s.requests[s.flight.r].phase.Replied? then Some(s.requests[s.flight.r].phase.rotated) else None;
      s.(client := OnSettled(s.client, rotated), flight := Grounded, heard := AllHear(s, rotated.Some?))
    case Lose =>
      s.(flight := GaveUp, lost := true,
         forfeited := s.forfeited || (s.flight.r in s.requests &&
                                      (s.requests[s.flight.r].phase.Won? || s.requests[s.flight.r].phase.Replied?)))
    case OthersAct(tokens, next) => s.(tokens := tokens, next := next)
    case PurgeElsewhere(dbNow) => Purged(s, dbNow)
  }

  ghost predicate ValidRun(s: World, steps: seq<Step>)
    decreases |steps|
  {
    steps == [] || (Enabled(s, steps[0]) && ValidRun(Apply(s, steps[0]), steps[1..]))
  }

  ghost function Exec(s: World, steps: seq<Step>): World
    requires ValidRun(s, steps)
    decreases |steps|
  {
    if steps == [] then s else Exec(Apply(s, steps[0]), steps[1..])
  }

  /** A client that has just logged in; other sessions are arbitrary. */
  ghost predicate LoggedIn(s: World) {
    && (forall tok :: tok in s.tokens ==> tok < s.next)
    && s.client == Client(s.client.stored, false, map[]) && s.flight.Grounded? && s.requests == map[] && s.heard == map[]
    && s.session == {s.client.stored} && Live(s.tokens, s.client.stored) && s.tokens[s.client.stored].user == s.user
    && !s.reused && !s.lost && !s.forfeited && !s.purged
  }

  // ------------------------------------------------------------------ invariant

  ghost predicate Healthy(s: World) {
    !s.forfeited && !s.purged
  }

  ghost predicate TablesOk(s: World) {
    && (forall tok :: tok in s.tokens ==> tok < s.next)
    && (forall tok :: tok in s.session ==> tok in s.tokens && s.tokens[tok].user == s.user)
    && s.client.stored in s.session
    && (s.client.refreshing <==> !s.flight.Grounded?)
    && (s.flight.Awaiting? ==> s.flight.r in s.requests && s.requests[s.flight.r].tok == s.client.stored)
  }

  /** A request presents a token of the session, which is live only while the client stores it and it
      is the current one. */
  ghost predicate RequestOk(s: World, q: Request) {
    && q.tok in s.session
    && (q.phase.Replied? ==> q.phase.rotated in s.session && q.phase.rotated != q.tok)
    && (Live(s.tokens, q.tok) ==> q.tok == s.client.stored && Current(s) == Some(q.tok))
  }

  /** The current token is live exactly while the session was neither forfeited nor purged. */
  ghost predicate HealthOk(s: World) {
    if Current(s).Some? then Live(s.tokens, Current(s).value) <==> Healthy(s) else Healthy(s)
  }

  /** Without a loss the awaited request is the only unfinished one. */
  ghost predicate LossOk(s: World) {
    !s.lost ==>
      && !s.forfeited
      && (forall r :: r in s.requests && !Answered(s, r) ==> s.flight == Awaiting(r))
      && (!s.purged ==> !s.reused)
  }

  ghost predicate TokenInv(s: World) {
    && TablesOk(s)
    && (forall r :: r in s.requests ==> RequestOk(s, s.requests[r]))
    && HealthOk(s)
    && LossOk(s)
  }

  // One lemma per statement.

  lemma ClientKeeps(s: World, step: Step)
    requires TokenInv(s) && Enabled(s, step) && (step.Send? || step.Respond? || step.Resume?)
    ensures TokenInv(Apply(s, step))
  {
    var s' := Apply(s, step);
    assert Current(s') == Current(s);
    forall r | r in s'.requests
      ensures RequestOk(s', s'.requests[r])
    {
      assert RequestOk(s, s.requests[r]);
    }
  }

  lemma PostKeeps(s: World, r: nat)
    requires TokenInv(s) && Enabled(s, Post(r))
    ensures TokenInv(Apply(s, Post(r)))
  {
    var s' := Apply(s, Post(r));
    assert Current(s') == Current(s);
    forall q | q in s'.requests
      ensures RequestOk(s', s'.requests[q])
    {
      assert q != r ==> RequestOk(s, s.requests[q]);
    }
  }

  lemma SettleKeeps(s: World)
    requires TokenInv(s) && Enabled(s, Settle)
    ensures TokenInv(Apply(s, Settle))
  {
    var s' := Apply(s, Settle);
    if s.flight.Awaiting? {
      assert RequestOk(s, s.requests[s.flight.r]);
    }
    assert Current(s') == Current(s);
    forall r | r in s'.requests
      ensures RequestOk(s', s'.requests[r])
    {
      assert RequestOk(s, s.requests[r]);
    }
  }

  /** Giving up on a claimed token forfeits it; giving up earlier costs nothing. */
  lemma LoseKeeps(s: World)
    requires TokenInv(s) && Enabled(s, Lose)
    ensures TokenInv(Apply(s, Lose))
  {
    var s' := Apply(s, Lose);
    assert RequestOk(s, s.requests[s.flight.r]);
    forall r | r in s'.requests
      ensures RequestOk(s', s'.requests[r])
    {
      assert RequestOk(s, s.requests[r]);
    }
  }

  lemma ReadKeeps(s: World, step: Step)
    requires TokenInv(s) && step.Read? && Enabled(s, step)
    ensures TokenInv(Apply(s, step))
  {
    var s' := Apply(s, step);
    assert RequestOk(s, s.requests[step.r]);
    assert Current(s') == Current(s);
    forall r | r in s'.requests
      ensures RequestOk(s', s'.requests[r])
    {
      assert RequestOk(s, s.requests[r]);
    }
  }

  /** Only the current token can be claimed; by the awaited request, or at the client's expense. */
  lemma ClaimWon(s: World, r: nat)
    requires TokenInv(s) && Enabled(s, Claim(r)) && Live(s.tokens, s.requests[r].tok)
    ensures TokenInv(Apply(s, Claim(r)))
  {
    var s' := Apply(s, Claim(r));
    assert RequestOk(s, s.requests[r]);
    forall q | q in s'.requests
      ensures RequestOk(s', s'.requests[q])
    {
      assert RequestOk(s, s.requests[q]);
    }
  }

  lemma ClaimLost(s: World, r: nat)
    requires TokenInv(s) && Enabled(s, Claim(r)) && !Live(s.tokens, s.requests[r].tok)
    ensures TokenInv(Apply(s, Claim(r)))
  {
    var s' := Apply(s, Claim(r));
    assert Current(s') == Current(s);
    assert RequestOk(s, s.requests[r]);
    forall q | q in s'.requests
      ensures RequestOk(s', s'.requests[q])
    {
      assert RequestOk(s, s.requests[q]);
    }
  }

  lemma ClaimKeeps(s: World, r: nat)
    requires TokenInv(s) && Enabled(s, Claim(r))
    ensures TokenInv(Apply(s, Claim(r)))
  {
    if Live(s.tokens, s.requests[r].tok) {
      ClaimWon(s, r);
    } else {
      ClaimLost(s, r);
    }
  }

  lemma IssueKeeps(s: World, step: Step)
    requires TokenInv(s) && step.Issue? && Enabled(s, step)
    ensures TokenInv(Apply(s, step))
  {
    var s' := Apply(s, step);
    assert RequestOk(s, s.requests[step.r]);
    forall r | r in s'.requests
      ensures RequestOk(s', s'.requests[r])
    {
      assert RequestOk(s, s.requests[r]);
    }
  }

  lemma PurgedKeeps(s: World, dbNow: Time)
    requires TokenInv(s)
    ensures TokenInv(Purged(s, dbNow))
  {
    var s' := Purged(s, dbNow);
    assert Current(s') == Current(s);
    CurrentInSession(s);
    forall r | r in s'.requests
      ensures RequestOk(s', s'.requests[r])
    {
      assert RequestOk(s, s.requests[r]);
    }
  }

  lemma CurrentInSession(s: World)
    requires TokenInv(s)
    ensures Current(s).Some? ==> Current(s).value in s.session
  {
    if s.flight.Awaiting? {
      assert RequestOk(s, s.requests[s.flight.r]);
    }
  }

  lemma RefusedKeeps(s: World, r: nat)
    requires TokenInv(s) && AtPhase(s, r, Purging)
    ensures TokenInv(Moved(s, r, Refused))
  {
    var s' := Moved(s, r, Refused);
    assert Current(s') == Current(s);
    forall q | q in s'.requests
      ensures RequestOk(s', s'.requests[q])
    {
      assert RequestOk(s, s.requests[q]);
    }
  }

  lemma OthersKeep(s: World, step: Step)
    requires TokenInv(s) && step.OthersAct? && Enabled(s, step)
    ensures TokenInv(Apply(s, step))
  {
    var s' := Apply(s, step);
    assert Current(s') == Current(s);
    CurrentInSession(s);
    forall r | r in s'.requests
      ensures RequestOk(s', s'.requests[r])
    {
      assert RequestOk(s, s.requests[r]);
    }
  }

  lemma StepKeepsTokens(s: World, step: Step)
    requires TokenInv(s) && Enabled(s, step)
    ensures TokenInv(Apply(s, step))
  {
    match step
    case Post(r) => PostKeeps(s, r);
    case Read(_, _) => ReadKeeps(s, step);
    case Claim(r) => ClaimKeeps(s, r);
    case Issue(_, _) => IssueKeeps(s, step);
    case Purge(r, dbNow) =>
      RefusedKeeps(s, r);
      PurgedKeeps(Moved(s, r, Refused), dbNow);
    case Settle => SettleKeeps(s);
    case Lose => LoseKeeps(s);
    case OthersAct(_, _) => OthersKeep(s, step);
    case PurgeElsewhere(dbNow) => PurgedKeeps(s, dbNow);
    case _ => ClientKeeps(s, step);
  }

  // --------------------------------------------------------------- the requests

  /** The state of a request follows from whether it is for an auth endpoint and from what it has met with:
      unanswered it is on its way; any answer but a first 401 outside the auth endpoints ends it; such a 401
      makes it wait; when the refresh ends it is taken up again, to be sent a second time if a token came
      and to fail otherwise; the answer to the second send is final. */
  ghost predicate Fate(call: Call, heard: seq<Heard>) {
    match |heard|
    case 0 => call == Call(call.authPath, false, 1, InFlight)
    case 1 =>
      heard[0].Answer? &&
      if !heard[0].unauthorized || call.authPath
      then call == Call(call.authPath, false, 1, Finished(!heard[0].unauthorized))
      else call == Call(false, true, 1, Waiting)
    case 2 =>
      heard[0] == Answer(true) && heard[1].RefreshOver? &&
      (call == Call(false, true, 1, Resumed(heard[1].ok))
       || call == if heard[1].ok then Call(false, true, 2, InFlight) else Call(false, true, 1, Finished(false)))
    case 3 =>
      heard[0] == Answer(true) && heard[1] == RefreshOver(true) && heard[2].Answer? &&
      call == Call(false, true, 2, Finished(!heard[2].unauthorized))
    case _ => false
  }

  ghost predicate CallsInv(s: World) {
    && s.heard.Keys == s.client.calls.Keys
    && forall i :: i in s.client.calls ==>
         Fate(s.client.calls[i], s.heard[i]) && (s.client.calls[i].progress.Waiting? ==> s.client.refreshing)
  }

  /** Only the client's own steps touch its requests. */
  lemma ReadLeavesCalls(s: World, r: nat, now: Time)
    requires Enabled(s, Read(r, now))
    ensures var s' := Apply(s, Read(r, now)); s'.client == s.client && s'.heard == s.heard
  {
  }

  lemma ClaimLeavesCalls(s: World, r: nat)
    requires Enabled(s, Claim(r))
    ensures var s' := Apply(s, Claim(r)); s'.client == s.client && s'.heard == s.heard
  {
  }

  lemma IssueLeavesCalls(s: World, step: Step)
    requires Enabled(s, step) && (step.Issue? || step.Purge?)
    ensures var s' := Apply(s, step); s'.client == s.client && s'.heard == s.heard
  {
  }

  lemma FlightLeavesCalls(s: World, step: Step)
    requires Enabled(s, step) && (step.Post? || step.Lose? || step.OthersAct? || step.PurgeElsewhere?)
    ensures var s' := Apply(s, step); s'.client == s.client && s'.heard == s.heard
  {
  }

  lemma SettleKeepsCalls(s: World)
    requires CallsInv(s) && Enabled(s, Settle)
    ensures CallsInv(Apply(s, Settle))
  {
    var s' := Apply(s, Settle);
    forall i | i in s'.client.calls
      ensures Fate(s'.client.calls[i], s'.heard[i]) && !s'.client.calls[i].progress.Waiting?
    {
      assert Fate(s.client.calls[i], s.heard[i]);
    }
  }

  lemma OneCallMoves(s: World, step: Step)
    requires CallsInv(s) && Enabled(s, step) && (step.Send? || step.Respond? || step.Resume?)
    ensures CallsInv(Apply(s, step))
  {
    var s' := Apply(s, step);
    forall i | i in s'.client.calls
      ensures Fate(s'.client.calls[i], s'.heard[i])
      ensures s'.client.calls[i].progress.Waiting? ==> s'.client.refreshing
    {
      if i in s.client.calls {
        assert Fate(s.client.calls[i], s.heard[i]);
      }
    }
  }

  lemma StepKeepsCalls(s: World, step: Step)
    requires CallsInv(s) && Enabled(s, step)
    ensures CallsInv(Apply(s, step))
  {
    if step.Settle? {
      SettleKeepsCalls(s);
    } else if step.Send? || step.Respond? || step.Resume? {
      OneCallMoves(s, step);
    } else if step.Read? {
      ReadLeavesCalls(s, step.r, step.now);
    } else if step.Claim? {
      ClaimLeavesCalls(s, step.r);
    } else if step.Issue? || step.Purge? {
      IssueLeavesCalls(s, step);
    } else {
      FlightLeavesCalls(s, step);
    }
  }

  ghost predicate Inv(s: World) {
    TokenInv(s) && CallsInv(s)
  }

  lemma StepKeepsInv(s: World, step: Step)
    requires Inv(s) && Enabled(s, step)
    ensures Inv(Apply(s, step))
  {
    StepKeepsTokens(s, step);
    StepKeepsCalls(s, step);
  }

  lemma {:induction false} RunKeepsInv(s: World, steps: seq<Step>)
    requires Inv(s) && ValidRun(s, steps)
    ensures Inv(Exec(s, steps))
    decreases |steps|
  {
    if steps != [] {
      StepKeepsInv(s, steps[0]);
      RunKeepsInv(Apply(s, steps[0]), steps[1..]);
    }
  }

  // --------------------------------------------------------------- main results

  /** In every run, between refreshes the client holds a live token exactly when no request it had
      given up on claimed the session's token and no purge revoked it. */
  lemma StoredTokenLives(s0: World, steps: seq<Step>)
    requires LoggedIn(s0) && ValidRun(s0, steps) && Exec(s0, steps).flight.Grounded?
    ensures var s := Exec(s0, steps); Live(s.tokens, s.client.stored) <==> !s.forfeited && !s.purged
  {
    RunKeepsInv(s0, steps);
  }

  /** In every run, the read or the claim of a request enters the reuse branch exactly when the token
      it presents is no longer the session's current one, or the session was forfeited or purged. */
  lemma ReuseExactly(s0: World, steps: seq<Step>, step: Step)
    requires LoggedIn(s0) && ValidRun(s0, steps)
    requires (step.Read? || step.Claim?) && Enabled(Exec(s0, steps), step)
    ensures var s := Exec(s0, steps);
            AtPhase(Apply(s, step), step.r, Purging)
            <==> !(Current(s) == Some(s.requests[step.r].tok) && !s.forfeited && !s.purged)
  {
    RunKeepsInv(s0, steps);
    assert RequestOk(Exec(s0, steps), Exec(s0, steps).requests[step.r]);
  }

  /** End to end, with no lost response and no purge from another device: however many requests see a
      401 together and however the steps interleave, neither reuse branch is ever taken, nothing is
      forfeited, and a request on its way to the server carries a live token. */
  lemma NeverReused(s0: World, steps: seq<Step>)
    requires LoggedIn(s0) && ValidRun(s0, steps) && !Exec(s0, steps).lost && !Exec(s0, steps).purged
    ensures var s := Exec(s0, steps);
            && !s.reused && !s.forfeited
            && (forall r :: AtPhase(s, r, Posted) || AtPhase(s, r, Checked) ==> Live(s.tokens, s.requests[r].tok))
  {
    RunKeepsInv(s0, steps);
    var s := Exec(s0, steps);
    forall r | AtPhase(s, r, Posted) || AtPhase(s, r, Checked)
      ensures Live(s.tokens, s.requests[r].tok)
    {
      assert s.flight == Awaiting(r) && RequestOk(s, s.requests[r]);
    }
  }

  /** In every run, lost responses or not, what a request met with decides its state. */
  lemma CallFate(s0: World, steps: seq<Step>, i: nat)
    requires LoggedIn(s0) && ValidRun(s0, steps) && i in Exec(s0, steps).client.calls
    ensures i in Exec(s0, steps).heard && Fate(Exec(s0, steps).client.calls[i], Exec(s0, steps).heard[i])
  {
    RunKeepsInv(s0, steps);
  }

  /** A request taken up again after its refresh goes out a second time when the refresh brought a token,
      and fails when it did not. */
  lemma ResumedIsSent(s0: World, steps: seq<Step>, i: nat)
    requires LoggedIn(s0) && ValidRun(s0, steps) && Enabled(Exec(s0, steps), Resume(i))
    ensures var s := Exec(s0, steps); var call := Apply(s, Resume(i)).client.calls[i];
      && i in s.heard && |s.heard[i]| == 2 && s.heard[i][1].RefreshOver?
      && (if s.heard[i][1].ok then call.progress == InFlight && call.sends == 2
          else call.progress == Finished(false) && call.sends == 1)
  {
    RunKeepsInv(s0, steps);
    assert Fate(Exec(s0, steps).client.calls[i], Exec(s0, steps).heard[i]);
  }

  /** A request fails only if it was for an auth endpoint and answered 401, was answered 401 again after its
      second send, or its refresh brought no token; and then it does not succeed. */
  lemma FailsOnlyIf(s0: World, steps: seq<Step>, i: nat)
    requires LoggedIn(s0) && ValidRun(s0, steps) && i in Exec(s0, steps).client.calls
    requires Exec(s0, steps).client.calls[i].progress.Finished?
    ensures var s := Exec(s0, steps);
      i in s.heard &&
      (s.client.calls[i].progress == Finished(false) <==>
         || (s.client.calls[i].authPath && s.heard[i] == [Answer(true)])
         || s.heard[i] == [Answer(true), RefreshOver(true), Answer(true)]
         || s.heard[i] == [Answer(true), RefreshOver(false)])
  {
    RunKeepsInv(s0, steps);
    assert Fate(Exec(s0, steps).client.calls[i], Exec(s0, steps).heard[i]);
  }

  /** Each original request is sent at most twice, and none waits for a refresh that is not
      under way, lost responses or not. */
  lemma SentAtMostTwice(s0: World, steps: seq<Step>, i: nat)
    requires LoggedIn(s0) && ValidRun(s0, steps) && i in Exec(s0, steps).client.calls
    ensures 1 <= Exec(s0, steps).client.calls[i].sends <= 2
    ensures Exec(s0, steps).client.calls[i].progress.Waiting? ==> !Exec(s0, steps).flight.Grounded?
  {
    RunKeepsInv(s0, steps);
    assert Fate(Exec(s0, steps).client.calls[i], Exec(s0, steps).heard[i]);
  }

  // ------------------------------------------------------------ what losses do

  lemma RunTwo(s: World, a: Step, s1: World, b: Step, s2: World)
    requires Enabled(s, a) && s1 == Apply(s, a) && Enabled(s1, b) && s2 == Apply(s1, b)
    ensures ValidRun(s, [a, b]) && Exec(s, [a, b]) == s2
  {
    assert [a, b][1..] == [b] && [b][1..] == [];
    assert ValidRun(s1, [b]) && Exec(s1, [b]) == Exec(s2, []);
  }

  lemma RunFour(s: World, a: Step, s1: World, b: Step, s2: World, c: Step, s3: World, d: Step, s4: World)
    requires Enabled(s, a) && s1 == Apply(s, a) && Enabled(s1, b) && s2 == Apply(s1, b)
    requires Enabled(s2, c) && s3 == Apply(s2, c) && Enabled(s3, d) && s4 == Apply(s3, d)
    ensures ValidRun(s, [a, b, c, d]) && Exec(s, [a, b, c, d]) == s4
  {
    RunTwo(s, a, s1, b, s2);
    RunTwo(s2, c, s3, d, s4);
    Then(s, [a, b], [c, d]);
    assert [a, b] + [c, d] == [a, b, c, d];
  }

  /** A request meets a 401 while no refresh is under way: its refresh is posted and read. */
  ghost function RefreshRead(i: nat, r: nat, now: Time): seq<Step> {
    [Send(i, false), Respond(i, true), Post(r), Read(r, now)]
  }

  /** The world with the refresh of request i posted as r and moved to the given phase. */
  ghost predicate Refreshing(s: World, s': World, i: nat, r: nat, phase: Phase) {
    && s'.flight == Awaiting(r) && s'.client.stored == s.client.stored && s'.client.refreshing
    && s'.client.calls.Keys == s.client.calls.Keys + {i}
    && s'.client.calls[i] == Call(false, true, 1, Waiting)
    && s'.requests == s.requests[r := Request(s.client.stored, phase)]
    && s' == s.(client := s'.client, flight := s'.flight, requests := s'.requests, reused := s'.reused, heard := s'.heard)
  }

  lemma RefreshIsPosted(s: World, i: nat, r: nat) returns (s1: World, s2: World, s3: World)
    requires s.flight.Grounded? && !s.client.refreshing && i !in s.client.calls && r !in s.requests
    ensures s1 == Apply(s, Send(i, false))
    ensures Enabled(s1, Respond(i, true)) && s2 == Apply(s1, Respond(i, true))
    ensures Enabled(s2, Post(r)) && s3 == Apply(s2, Post(r))
    ensures Refreshing(s, s3, i, r, Posted) && s3.reused == s.reused
  {
    s1 := Apply(s, Send(i, false));
    s2 := Apply(s1, Respond(i, true));
    s3 := Apply(s2, Post(r));
  }

  lemma PostedIsRead(s: World, s3: World, i: nat, r: nat, now: Time) returns (s': World)
    requires Refreshing(s, s3, i, r, Posted) && s3.reused == s.reused
    requires s.client.stored in s.tokens && now <= s.tokens[s.client.stored].expiresAt
    ensures Enabled(s3, Read(r, now)) && s' == Apply(s3, Read(r, now))
    ensures Refreshing(s, s', i, r, if s.tokens[s.client.stored].revoked then Purging else Checked)
    ensures s'.reused == (s.reused || s.tokens[s.client.stored].revoked)
  {
    s' := Apply(s3, Read(r, now));
  }

  lemma RefreshIsRead(s: World, i: nat, r: nat, now: Time) returns (s': World)
    requires s.flight.Grounded? && !s.client.refreshing && i !in s.client.calls && r !in s.requests
    requires s.client.stored in s.tokens && now <= s.tokens[s.client.stored].expiresAt
    ensures ValidRun(s, RefreshRead(i, r, now)) && s' == Exec(s, RefreshRead(i, r, now))
    ensures Refreshing(s, s', i, r, if s.tokens[s.client.stored].revoked then Purging else Checked)
    ensures s'.reused == (s.reused || s.tokens[s.client.stored].revoked)
  {
    var s1, s2, s3 := RefreshIsPosted(s, i, r);
    s' := PostedIsRead(s, s3, i, r, now);
    RunFour(s, Send(i, false), s1, Respond(i, true), s2, Post(r), s3, Read(r, now), s');
  }

  /** So the next refresh of a client tells: it passes the server's read exactly when the session was
      neither forfeited nor purged, and is taken for reuse otherwise. */
  lemma NextRefresh(s0: World, steps: seq<Step>, i: nat, r: nat, now: Time) returns (s': World)
    requires LoggedIn(s0) && ValidRun(s0, steps)
    requires var s := Exec(s0, steps);
      && s.flight.Grounded? && i !in s.client.calls && r !in s.requests
      && s.client.stored in s.tokens && now <= s.tokens[s.client.stored].expiresAt
    ensures ValidRun(Exec(s0, steps), RefreshRead(i, r, now)) && s' == Exec(Exec(s0, steps), RefreshRead(i, r, now))
    ensures AtPhase(s', r, Checked) <==> !Exec(s0, steps).forfeited && !Exec(s0, steps).purged
    ensures AtPhase(s', r, Purging) && s'.reused <==> Exec(s0, steps).forfeited || Exec(s0, steps).purged
  {
    RunKeepsInv(s0, steps);
    s' := RefreshIsRead(Exec(s0, steps), i, r, now);
  }

  /** And a refresh that nobody disturbs succeeds: from every such moment of every run in which the session
      was neither forfeited nor purged, the request that met the 401 is sent again and the client holds the
      new token, which is live. */
  lemma RefreshSucceeds(s0: World, steps: seq<Step>, i: nat, r: nat, now: Time) returns (more: seq<Step>)
    requires LoggedIn(s0) && ValidRun(s0, steps)
    requires var s := Exec(s0, steps);
      && s.flight.Grounded? && !s.forfeited && !s.purged && i !in s.client.calls && r !in s.requests
      && s.client.stored in s.tokens && now <= s.tokens[s.client.stored].expiresAt
    ensures ValidRun(Exec(s0, steps), more)
    ensures var s, s' := Exec(s0, steps), Exec(Exec(s0, steps), more);
      && s'.client.stored == s.next && Live(s'.tokens, s.next) && s'.tokens[s.next].user == s.user
      && i in s'.client.calls && s'.client.calls[i].progress == InFlight && s'.client.calls[i].sends == 2
      && s'.flight.Grounded?
  {
    var s := Exec(s0, steps);
    RunKeepsInv(s0, steps);
    var s1 := RefreshIsRead(s, i, r, now);
    RunKeepsInv(s, RefreshRead(i, r, now));
    var tail := [Claim(r), Issue(r, now), Settle, Resume(i)];
    var s2 := ReplyIsUsed(s1, i, r, now);
    Then(s, RefreshRead(i, r, now), tail);
    more := RefreshRead(i, r, now) + tail;
  }

  lemma ReplyIsUsed(s: World, i: nat, r: nat, now: Time) returns (s': World)
    requires s.flight == Awaiting(r) && AtPhase(s, r, Checked) && Live(s.tokens, s.requests[r].tok)
    requires i in s.client.calls && s.client.calls[i] == Call(false, true, 1, Waiting)
    ensures ValidRun(s, [Claim(r), Issue(r, now), Settle, Resume(i)])
    ensures s' == Exec(s, [Claim(r), Issue(r, now), Settle, Resume(i)])
    ensures s'.client.stored == s.next && Live(s'.tokens, s.next) && s'.tokens[s.next].user == s.user
    ensures i in s'.client.calls && s'.client.calls[i] == Call(false, true, 2, InFlight) && s'.flight.Grounded?
  {
    var s1 := Apply(s, Claim(r));
    var s2 := Apply(s1, Issue(r, now));
    var s3 := Apply(s2, Settle);
    s' := Apply(s3, Resume(i));
    RunFour(s, Claim(r), s1, Issue(r, now), s2, Settle, s3, Resume(i), s');
  }

  /** A lost reply: from a fresh login, the reply with the rotated token is lost, and the next 401
      makes the client present the token the server has already claimed. */
  lemma LostReplyLeadsToReuse(s: World, now: Time) returns (steps: seq<Step>)
    requires LoggedIn(s) && now <= s.tokens[s.client.stored].expiresAt
    ensures ValidRun(s, steps) && Exec(s, steps).reused && Exec(s, steps).forfeited
  {
    var s1 := RefreshIsRead(s, 0, 0, now);
    var loss := [Claim(0), Issue(0, now), Lose, Settle];
    var s2 := ReplyIsLost(s1, now);
    Then(s, RefreshRead(0, 0, now), loss);
    var s3 := RefreshIsRead(s2, 1, 1, now);
    Then(s, RefreshRead(0, 0, now) + loss, RefreshRead(1, 1, now));
    steps := RefreshRead(0, 0, now) + loss + RefreshRead(1, 1, now);
  }

  lemma ReplyIsLost(s: World, now: Time) returns (s': World)
    requires s.flight == Awaiting(0) && AtPhase(s, 0, Checked) && s.requests[0].tok == s.client.stored
    requires Live(s.tokens, s.client.stored) && s.client.stored < s.next
    ensures ValidRun(s, [Claim(0), Issue(0, now), Lose, Settle]) && s' == Exec(s, [Claim(0), Issue(0, now), Lose, Settle])
    ensures s'.flight.Grounded? && !s'.client.refreshing && s'.client.stored == s.client.stored
    ensures s'.client.calls.Keys == s.client.calls.Keys && s'.requests.Keys == s.requests.Keys && s'.forfeited
    ensures s.client.stored in s'.tokens && s'.tokens[s.client.stored] == s.tokens[s.client.stored].(revoked := true)
  {
    var s1 := Apply(s, Claim(0));
    var s2 := Apply(s1, Issue(0, now));
    var s3 := Apply(s2, Lose);
    s' := Apply(s3, Settle);
    RunFour(s, Claim(0), s1, Issue(0, now), s2, Lose, s3, Settle, s');
  }

  /** The other reuse branch: the client gives up on a request the server has read but not claimed,
      and refreshes again; when the server gets to the first claim it has lost the race. The session
      itself is unharmed. */
  lemma LostRaceIsReuse(s: World, now: Time) returns (steps: seq<Step>)
    requires LoggedIn(s) && now <= s.tokens[s.client.stored].expiresAt
    ensures ValidRun(s, steps) && |steps| > 0 && steps[|steps| - 1] == Claim(0)
    ensures Exec(s, steps).reused && !Exec(s, steps).forfeited && !Exec(s, steps).purged
  {
    var s1 := RefreshIsRead(s, 0, 0, now);
    var s2 := Abandoned(s1);
    Then(s, RefreshRead(0, 0, now), [Lose, Settle]);
    var s3 := RefreshIsRead(s2, 1, 1, now);
    Then(s, RefreshRead(0, 0, now) + [Lose, Settle], RefreshRead(1, 1, now));
    var s4 := RaceIsLost(s3);
    Then(s, RefreshRead(0, 0, now) + [Lose, Settle] + RefreshRead(1, 1, now), [Claim(1), Claim(0)]);
    steps := RefreshRead(0, 0, now) + [Lose, Settle] + RefreshRead(1, 1, now) + [Claim(1), Claim(0)];
  }

  lemma Abandoned(s: World) returns (s': World)
    requires s.flight == Awaiting(0) && AtPhase(s, 0, Checked)
    ensures ValidRun(s, [Lose, Settle]) && s' == Exec(s, [Lose, Settle])
    ensures s'.flight.Grounded? && !s'.client.refreshing && s'.client.stored == s.client.stored
    ensures s'.client.calls.Keys == s.client.calls.Keys
    ensures s' == s.(client := s'.client, flight := s'.flight, lost := true, heard := s'.heard)
  {
    var s1 := Apply(s, Lose);
    s' := Apply(s1, Settle);
    RunTwo(s, Lose, s1, Settle, s');
  }

  lemma RaceIsLost(s: World) returns (s': World)
    requires s.flight == Awaiting(1) && AtPhase(s, 1, Checked) && AtPhase(s, 0, Checked)
    requires Live(s.tokens, s.requests[1].tok) && s.requests[0].tok == s.requests[1].tok
    ensures ValidRun(s, [Claim(1), Claim(0)]) && s' == Exec(s, [Claim(1), Claim(0)])
    ensures s'.reused && s'.forfeited == s.forfeited && s'.purged == s.purged
  {
    var s1 := Apply(s, Claim(1));
    s' := Apply(s1, Claim(0));
    RunTwo(s, Claim(1), s1, Claim(0), s');
  }

  lemma {:induction false} Then(s: World, a: seq<Step>, b: seq<Step>)
    requires ValidRun(s, a) && ValidRun(Exec(s, a), b)
    ensures ValidRun(s, a + b) && Exec(s, a + b) == Exec(Exec(s, a), b)
    decreases |a|
  {
    if a == [] {
      assert a + b == b;
    } else {
      Then(Apply(s, a[0]), a[1..], b);
      assert (a + b)[1..] == a[1..] + b;
    }
  }
}
