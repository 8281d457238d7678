/** Concurrent refreshes, split into their statements (read, role lookup, atomic claim, issue,
    and the clean-up statements of the failure branches) and interleaved in any order with
    logins, logouts, password changes and user changes. Any request may die at any point. */
module RefreshRotation {
  import opened Common
  import opened RefreshTokens

  datatype Phase =
    | Arrived
    | Checked(user: string)     // row read: not revoked, not expired
    | Authorised(user: string)  // and the user still has a role
    | Won(user: string)         // the claim affected one row; a new pair is due
    | Purging(user: string)     // reuse or lost race: old sessions are about to be revoked
    | Expiring                  // the expired row is about to be deleted
    | Orphaned                  // the user is gone: the token is about to be revoked
    | Done(answer: Answer)

  datatype Request = Request(presented: Token, phase: Phase)

  type Login = nat

  /** Where a token stands: the login it descends from and its position in that lineage. */
  datatype Place = Place(login: Login, index: nat)

  /** `lineage`, `place`, `userOf` and `rotations` are history only: for each login, the tokens
      issued from it in order, where each token stands, who logged in, and which token was
      exchanged for which. */
  datatype World = World(
    tokens: TokenTable,
    next: Token,
    roles: set<string>,
    requests: map<nat, Request>,
    lineage: map<Login, seq<Token>>,
    place: map<Token, Place>,
    userOf: map<Login, string>,
    rotations: set<(Token, Token)>)

  datatype Step =
    | LogIn(login: Login, user: string, now: Time)
    | Arrive(r: nat, presented: Token)
    | Read(r: nat, now: Time)
    | LookUpRole(r: nat)
    | Claim(r: nat)
    | Issue(r: nat, now: Time)
    | Purge(r: nat, dbNow: Time)
    | DeleteExpired(r: nat)
    | RevokeOrphan(r: nat)
    | Die(r: nat)                     // failed issue, lost connection, crash
    | LogOut(presented: Token)
    | LogOutEverywhere(user: string)  // also password change, role change, deletion
    | SetRoles(roles: set<string>)

  /** The token is the latest of its lineage. */
  ghost predicate Tip(s: World, tok: Token) {
    tok in s.place && s.place[tok].login in s.lineage && s.place[tok].index + 1 == |s.lineage[s.place[tok].login]|
  }

  ghost predicate Enabled(s: World, step: Step) {
    match step
    case LogIn(login, _, _) => login !in s.lineage
    case Arrive(r, _) => r !in s.requests
    case Read(r, _) => r in s.requests && s.requests[r].phase.Arrived?
    case LookUpRole(r) => r in s.requests && s.requests[r].phase.Checked?
    case Claim(r) => r in s.requests && s.requests[r].phase.Authorised?
    case Issue(r, _) => r in s.requests && s.requests[r].phase.Won?
    case Purge(r, _) => r in s.requests && s.requests[r].phase.Purging?
    case DeleteExpired(r) => r in s.requests && s.requests[r].phase.Expiring?
    case RevokeOrphan(r) => r in s.requests && s.requests[r].phase.Orphaned?
    case Die(r) => r in s.requests && !s.requests[r].phase.Done?
    case _ => true
  }

  ghost function Moved(s: World, r: nat, phase: Phase): World
    requires r in s.requests
  {
    s.(requests := s.requests[r := s.requests[r].(phase := phase)])
  }

  ghost function ReadPhase(s: World, presented: Token, now: Time): Phase {
    if presented !in s.tokens then Done(Unauthorized)
    else
      var row := s.tokens[presented];
      if row.revoked then Purging(row.user)
      else if now > row.expiresAt then Expiring
      else Checked(row.user)
  }

  /** Writes the exchange of `tok` for the token about to be minted into the history. */
  ghost function Recorded(s: World, tok: Token): World {
    if tok in s.place && s.place[tok].login in s.lineage then
      var l := s.place[tok].login;
      s.(lineage := s.lineage[l := s.lineage[l] + [s.next]],
         place := s.place[s.next := Place(l, |s.lineage[l]|)],
         rotations := s.rotations + {(tok, s.next)})
    else s.(rotations := s.rotations + {(tok, s.next)})
  }

  ghost function Apply(s: World, step: Step): World
    requires Enabled(s, step)
  {
    match step
    case LogIn(login, user, now) =>
      s.(tokens := Store(s.tokens, s.next, user, now), next := s.next + 1,
         lineage := s.lineage[login := [s.next]], place := s.place[s.next := Place(login, 0)],
         userOf := s.userOf[login := user])
    case Arrive(r, presented) => s.(requests := s.requests[r := Request(presented, Arrived)])
    case Read(r, now) => Moved(s, r, ReadPhase(s, s.requests[r].presented, now))
    case LookUpRole(r) =>
      var user := s.requests[r].phase.user;
      Moved(s, r, if user in s.roles then Authorised(user) else Orphaned)
    case Claim(r) =>
      var tok, user := s.requests[r].presented, s.requests[r].phase.user;
      if Live(s.tokens, tok) then Moved(s, r, Won(user)).(tokens := Revoke(s.tokens, tok))
      else Moved(s, r, Purging(user))
    case Issue(r, now) =>
      var tok, user := s.requests[r].presented, s.requests[r].phase.user;
      Recorded(Moved(s, r, Done(Ok(s.next))), tok).(
        tokens := Store(s.tokens, s.next, user, now), next := s.next + 1)
    case Purge(r, dbNow) =>
      Moved(s, r, Done(Unauthorized)).(tokens := RevokeOld(s.tokens, s.requests[r].phase.user, dbNow))
    case DeleteExpired(r) => Moved(s, r, Done(Unauthorized)).(tokens := s.tokens - {s.requests[r].presented})
    case RevokeOrphan(r) => Moved(s, r, Done(Unauthorized)).(tokens := Revoke(s.tokens, s.requests[r].presented))
    case Die(r) => Moved(s, r, Done(Unauthorized))
    case LogOut(presented) => s.(tokens := Revoke(s.tokens, presented))
    case LogOutEverywhere(user) => s.(tokens := RevokeAll(s.tokens, user))
    case SetRoles(roles) => s.(roles := roles)
  }

  ghost predicate ValidRun(s: World, steps: seq<Step>)
    decreases |steps|
  {
    steps == [] || (Enabled(s, steps[0]) && ValidRun(Apply(s, steps[0]), steps[1..]))
  }

  ghost function Exec(s: World, steps: seq<Step>): World
    requires ValidRun(s, steps)
    decreases |steps|
  {
    if steps == [] then s else Exec(Apply(s, steps[0]), steps[1..])
  }

  const EMPTY := World(map[], 0, {}, map[], map[], map[], map[], {})

  // ------------------------------------------------------------------ invariant

  ghost predicate Claimant(s: World, r: nat, tok: Token) {
    r in s.requests && s.requests[r].phase.Won? && s.requests[r].presented == tok
  }

  /** The lineages and the places describe each other: no token stands twice anywhere. */
  ghost predicate Lineages(s: World) {
    && s.lineage.Keys == s.userOf.Keys
    && (forall tok :: tok in s.place ==> PlaceOk(s, tok))
    && (forall l, i :: l in s.lineage && 0 <= i < |s.lineage[l]| ==>
          s.lineage[l][i] in s.place && s.place[s.lineage[l][i]] == Place(l, i))
  }

  ghost predicate PlaceOk(s: World, tok: Token) {
    && tok in s.place && tok < s.next
    && var p := s.place[tok];
       p.login in s.lineage && p.index < |s.lineage[p.login]| && s.lineage[p.login][p.index] == tok
  }

  ghost function Owner(s: World, tok: Token): Option<string> {
    if tok in s.place && s.place[tok].login in s.userOf then Some(s.userOf[s.place[tok].login]) else None
  }

  /** A stored token belongs to the user who logged in; a live one is the tip of its lineage. */
  ghost predicate StoredOk(s: World, tok: Token) {
    tok in s.tokens ==> Owner(s, tok) == Some(s.tokens[tok].user) && (Live(s.tokens, tok) ==> Tip(s, tok))
  }

  /** A claimant's token is the tip of a lineage of its user, and no longer live. */
  ghost predicate RequestOk(s: World, q: Request) {
    match q.phase
    case Won(user) => Owner(s, q.presented) == Some(user) && Tip(s, q.presented) && !Live(s.tokens, q.presented)
    case Checked(user) => Owner(s, q.presented) == Some(user)
    case Authorised(user) => Owner(s, q.presented) == Some(user)
    case _ => true
  }

  ghost predicate Exchanged(s: World, a: Token, b: Token) {
    && a in s.place && b in s.place
    && s.place[b] == Place(s.place[a].login, s.place[a].index + 1)
  }

  ghost predicate Inv(s: World) {
    && Lineages(s)
    && (forall tok :: StoredOk(s, tok))
    && (forall r :: r in s.requests ==> RequestOk(s, s.requests[r]))
    && (forall q, r, tok :: Claimant(s, q, tok) && Claimant(s, r, tok) ==> q == r)
    && (forall a, b :: (a, b) in s.rotations ==> Exchanged(s, a, b))
  }

  // --------------------------------------------------------------- preservation

  /** A step that leaves the history alone, keeps every row's user and only takes liveness away. */
  ghost predicate OnlyRevokes(s: World, s': World) {
    && s'.lineage == s.lineage && s'.place == s.place && s'.userOf == s.userOf
    && s'.next == s.next && s'.rotations == s.rotations
    && (forall tok :: tok in s'.tokens ==> tok in s.tokens && s'.tokens[tok].user == s.tokens[tok].user)
    && (forall tok :: Live(s'.tokens, tok) ==> Live(s.tokens, tok))
  }

  lemma RevokingKeepsHistory(s: World, s': World)
    requires Inv(s) && OnlyRevokes(s, s')
    ensures Lineages(s')
    ensures forall tok :: StoredOk(s', tok)
    ensures forall a, b :: (a, b) in s'.rotations ==> Exchanged(s', a, b)
    ensures forall q :: RequestOk(s, q) ==> RequestOk(s', q)
  {
    forall tok | tok in s'.place
      ensures PlaceOk(s', tok)
    {
      assert PlaceOk(s, tok);
    }
    forall tok
      ensures StoredOk(s', tok)
    {
      assert StoredOk(s, tok);
    }
    forall a, b | (a, b) in s'.rotations
      ensures Exchanged(s', a, b)
    {
      assert Exchanged(s, a, b);
    }
  }

  /** Steps of the failure branches, of logouts and of lookups. */
  ghost predicate Harmless(s: World, step: Step)
    requires Enabled(s, step)
  {
    && !step.LogIn? && !step.Issue?
    && (step.Claim? ==> !Live(s.tokens, s.requests[step.r].presented))
  }

  lemma HarmlessOnlyRevokes(s: World, step: Step)
    requires Enabled(s, step) && Harmless(s, step)
    ensures OnlyRevokes(s, Apply(s, step))
  {
  }

  lemma HarmlessRequest(s: World, step: Step, r: nat)
    requires Inv(s) && Enabled(s, step) && Harmless(s, step)
    requires r in Apply(s, step).requests
    ensures RequestOk(s, Apply(s, step).requests[r])
    ensures forall tok :: Claimant(Apply(s, step), r, tok) ==> Claimant(s, r, tok)
  {
    if r in s.requests {
      assert RequestOk(s, s.requests[r]);
      assert StoredOk(s, s.requests[r].presented);
    }
  }

  lemma HarmlessKeepsInv(s: World, step: Step)
    requires Inv(s) && Enabled(s, step) && Harmless(s, step)
    ensures Inv(Apply(s, step))
  {
    var s' := Apply(s, step);
    HarmlessOnlyRevokes(s, step);
    RevokingKeepsHistory(s, s');
    forall r | r in s'.requests
      ensures RequestOk(s', s'.requests[r])
      ensures forall tok :: Claimant(s', r, tok) ==> Claimant(s, r, tok)
    {
      HarmlessRequest(s, step, r);
    }
    forall q, r, tok | Claimant(s', q, tok) && Claimant(s', r, tok)
      ensures q == r
    {
      assert Claimant(s, q, tok) && Claimant(s, r, tok);
    }
  }

  lemma LiveNotClaimed(s: World, tok: Token, q: nat)
    requires Inv(s) && Live(s.tokens, tok)
    ensures !Claimant(s, q, tok)
  {
    if q in s.requests {
      assert RequestOk(s, s.requests[q]);
    }
  }

  /** The claim: the winner's token was the live tip of its lineage, claimed by nobody else. */
  lemma ClaimKeepsInv(s: World, r: nat)
    requires Inv(s) && Enabled(s, Claim(r)) && Live(s.tokens, s.requests[r].presented)
    ensures Inv(Apply(s, Claim(r)))
  {
    var s', tok := Apply(s, Claim(r)), s.requests[r].presented;
    assert OnlyRevokes(s, s');
    RevokingKeepsHistory(s, s');
    assert StoredOk(s, tok);
    forall q | q in s'.requests
      ensures RequestOk(s', s'.requests[q])
    {
      assert RequestOk(s, s.requests[q]);
    }
    forall p, q, t | Claimant(s', p, t) && Claimant(s', q, t)
      ensures p == q
    {
      LiveNotClaimed(s, tok, p);
      LiveNotClaimed(s, tok, q);
      assert p != r && q != r ==> Claimant(s, p, t) && Claimant(s, q, t);
    }
  }

  /** The history gains one token, at the end of an old lineage or alone in a new one. */
  ghost predicate Grows(s: World, s': World, l: Login, tail: seq<Token>) {
    && s'.next == s.next + 1
    && s'.lineage == s.lineage[l := tail + [s.next]]
    && s'.place == s.place[s.next := Place(l, |tail|)]
    && (l in s.lineage ==> tail == s.lineage[l] && s'.userOf == s.userOf)
    && (l !in s.lineage ==> tail == [] && l in s'.userOf && s'.userOf == s.userOf[l := s'.userOf[l]])
  }

  lemma GrowsKeepsLineages(s: World, s': World, l: Login, tail: seq<Token>)
    requires Lineages(s) && Grows(s, s', l, tail)
    ensures Lineages(s')
    ensures forall tok :: tok in s.place ==> tok != s.next && s'.place[tok] == s.place[tok]
    ensures forall tok :: tok in s.place ==> Owner(s', tok) == Owner(s, tok)
    ensures forall tok :: tok in s.place && s.place[tok].login != l ==> (Tip(s', tok) <==> Tip(s, tok))
  {
    forall tok | tok in s.place
      ensures tok != s.next && PlaceOk(s', tok)
    {
      assert PlaceOk(s, tok);
    }
    assert PlaceOk(s', s.next);
  }

  lemma LogInKeepsInv(s: World, step: Step)
    requires Inv(s) && step.LogIn? && Enabled(s, step)
    ensures Inv(Apply(s, step))
  {
    var s' := Apply(s, step);
    assert [] + [s.next] == [s.next];
    GrowsKeepsLineages(s, s', step.login, []);
    forall tok
      ensures StoredOk(s', tok)
    {
      assert StoredOk(s, tok);
      assert tok in s.place ==> PlaceOk(s, tok);
    }
    forall r | r in s'.requests
      ensures RequestOk(s', s'.requests[r])
    {
      assert RequestOk(s, s.requests[r]);
      assert s.requests[r].presented in s.place ==> PlaceOk(s, s.requests[r].presented);
    }
    ClaimantsKept(s, s');
    forall a, b | (a, b) in s'.rotations
      ensures Exchanged(s', a, b)
    {
      assert Exchanged(s, a, b);
    }
  }

  lemma ClaimantsKept(s: World, s': World)
    requires Inv(s)
    requires forall r :: r in s'.requests && s'.requests[r].phase.Won? ==> r in s.requests && s'.requests[r] == s.requests[r]
    ensures forall q, r, tok :: Claimant(s', q, tok) && Claimant(s', r, tok) ==> q == r
  {
    forall q, r, tok | Claimant(s', q, tok) && Claimant(s', r, tok)
      ensures q == r
    {
      assert Claimant(s, q, tok) && Claimant(s, r, tok);
    }
  }

  /** Within a lineage there is one tip. */
  lemma TipIsUnique(s: World, a: Token, b: Token)
    requires Lineages(s) && Tip(s, a) && Tip(s, b) && s.place[a].login == s.place[b].login
    ensures a == b
  {
    assert PlaceOk(s, a) && PlaceOk(s, b);
  }

  lemma IssueStored(s: World, r: nat, now: Time, tok: Token)
    requires Inv(s) && Enabled(s, Issue(r, now))
    ensures StoredOk(Apply(s, Issue(r, now)), tok)
  {
    var s', parent := Apply(s, Issue(r, now)), s.requests[r].presented;
    assert RequestOk(s, s.requests[r]);
    var l := s.place[parent].login;
    GrowsKeepsLineages(s, s', l, s.lineage[l]);
    assert StoredOk(s, tok);
    if tok != s.next && Live(s.tokens, tok) && s.place[tok].login == l {
      TipIsUnique(s, tok, parent);
    }
  }

  lemma IssueRequest(s: World, r: nat, now: Time, q: nat)
    requires Inv(s) && Enabled(s, Issue(r, now)) && q in s.requests
    ensures RequestOk(Apply(s, Issue(r, now)), Apply(s, Issue(r, now)).requests[q])
  {
    var s', parent := Apply(s, Issue(r, now)), s.requests[r].presented;
    assert RequestOk(s, s.requests[r]) && RequestOk(s, s.requests[q]);
    var l := s.place[parent].login;
    GrowsKeepsLineages(s, s', l, s.lineage[l]);
    var tok := s.requests[q].presented;
    if q != r && s.requests[q].phase.Won? && s.place[tok].login == l {
      TipIsUnique(s, tok, parent);
      assert Claimant(s, q, tok) && Claimant(s, r, tok);
    }
  }

  lemma IssueKeepsInv(s: World, r: nat, now: Time)
    requires Inv(s) && Enabled(s, Issue(r, now))
    ensures Inv(Apply(s, Issue(r, now)))
  {
    var s', parent := Apply(s, Issue(r, now)), s.requests[r].presented;
    assert RequestOk(s, s.requests[r]);
    var l := s.place[parent].login;
    GrowsKeepsLineages(s, s', l, s.lineage[l]);
    forall tok
      ensures StoredOk(s', tok)
    {
      IssueStored(s, r, now, tok);
    }
    forall q | q in s'.requests
      ensures RequestOk(s', s'.requests[q])
    {
      IssueRequest(s, r, now, q);
    }
    ClaimantsKept(s, s');
    forall a, b | (a, b) in s'.rotations
      ensures Exchanged(s', a, b)
    {
      if (a, b) in s.rotations {
        assert Exchanged(s, a, b);
      }
    }
  }

  lemma StepKeepsInv(s: World, step: Step)
    requires Inv(s) && Enabled(s, step)
    ensures Inv(Apply(s, step))
  {
    if step.LogIn? {
      LogInKeepsInv(s, step);
    } else if step.Issue? {
      IssueKeepsInv(s, step.r, step.now);
    } else if step.Claim? && Live(s.tokens, s.requests[step.r].presented) {
      ClaimKeepsInv(s, step.r);
    } else {
      HarmlessKeepsInv(s, step);
    }
  }

  lemma {:induction false} RunKeepsInv(s: World, steps: seq<Step>)
    requires Inv(s) && ValidRun(s, steps)
    ensures Inv(Exec(s, steps))
    decreases |steps|
  {
    if steps != [] {
      StepKeepsInv(s, steps[0]);
      RunKeepsInv(Apply(s, steps[0]), steps[1..]);
    }
  }

  // --------------------------------------------------------------- main results

  /** Rotation is linear: whatever the interleaving, a token is exchanged at most once. */
  lemma OneSuccessor(steps: seq<Step>, tok: Token, a: Token, b: Token)
    requires ValidRun(EMPTY, steps)
    requires (tok, a) in Exec(EMPTY, steps).rotations && (tok, b) in Exec(EMPTY, steps).rotations
    ensures a == b
  {
    RunKeepsInv(EMPTY, steps);
    var s := Exec(EMPTY, steps);
    assert Exchanged(s, tok, a) && Exchanged(s, tok, b);
    assert PlaceOk(s, a) && PlaceOk(s, b);
  }

  /** A session is carried by a live token, or by a request that has claimed one. */
  datatype Carrier = Stored(tok: Token) | Flying(r: nat)

  ghost function TokenOf(s: World, c: Carrier): Token {
    match c
    case Stored(tok) => tok
    case Flying(r) => if r in s.requests then s.requests[r].presented else 0
  }

  ghost predicate Carries(s: World, c: Carrier) {
    match c
    case Stored(tok) => Live(s.tokens, tok)
    case Flying(r) => r in s.requests && s.requests[r].phase.Won?
  }

  /** The user whose session a carrier carries, as the table or the request has it. */
  ghost function CarriedUser(s: World, c: Carrier): string
    requires Carries(s, c)
  {
    match c
    case Stored(tok) => s.tokens[tok].user
    case Flying(r) => s.requests[r].phase.user
  }

  lemma CarrierAtTip(s: World, c: Carrier)
    requires Inv(s) && Carries(s, c)
    ensures Tip(s, TokenOf(s, c)) && Owner(s, TokenOf(s, c)) == Some(CarriedUser(s, c))
  {
    match c
    case Stored(tok) => assert StoredOk(s, tok);
    case Flying(r) => assert RequestOk(s, s.requests[r]);
  }

  ghost predicate DescendsFrom(s: World, c: Carrier, login: Login) {
    TokenOf(s, c) in s.place && s.place[TokenOf(s, c)].login == login
  }

  lemma SameLoginSameCarrier(s: World, c: Carrier, d: Carrier, login: Login)
    requires Inv(s) && Carries(s, c) && Carries(s, d)
    requires DescendsFrom(s, c, login) && DescendsFrom(s, d, login)
    ensures c == d
  {
    CarrierAtTip(s, c);
    CarrierAtTip(s, d);
    TipIsUnique(s, TokenOf(s, c), TokenOf(s, d));
    match (c, d)
    case (Stored(tok), Flying(r)) => LiveNotClaimed(s, tok, r);
    case (Flying(r), Stored(tok)) => LiveNotClaimed(s, tok, r);
    case (Flying(q), Flying(r)) => assert Claimant(s, q, TokenOf(s, c)) && Claimant(s, r, TokenOf(s, c));
    case (Stored(_), Stored(_)) =>
  }

  /** Each login has at most one live token or claimant in flight, always the tip of its lineage. */
  lemma OneCarrierPerLogin(steps: seq<Step>, c: Carrier, d: Carrier, login: Login)
    requires ValidRun(EMPTY, steps)
    requires var s := Exec(EMPTY, steps);
      && Carries(s, c) && Carries(s, d) && DescendsFrom(s, c, login) && DescendsFrom(s, d, login)
    ensures c == d && Tip(Exec(EMPTY, steps), TokenOf(Exec(EMPTY, steps), c))
  {
    RunKeepsInv(EMPTY, steps);
    CarrierAtTip(Exec(EMPTY, steps), c);
    SameLoginSameCarrier(Exec(EMPTY, steps), c, d, login);
  }

  ghost function LoginsOf(s: World, user: string): set<Login> {
    set l | l in s.userOf && s.userOf[l] == user
  }

  /** Distinct carriers of a user descend from distinct logins of that user. */
  lemma {:induction false} CarriersInject(s: World, user: string, carriers: set<Carrier>, logins: set<Login>)
    requires Inv(s)
    requires forall c :: c in carriers ==> Carries(s, c) && CarriedUser(s, c) == user
    requires forall c, l :: c in carriers && DescendsFrom(s, c, l) ==> l in logins
    ensures |carriers| <= |logins|
    decreases |carriers|
  {
    if carriers != {} {
      var c :| c in carriers;
      CarrierAtTip(s, c);
      var login := s.place[TokenOf(s, c)].login;
      assert DescendsFrom(s, c, login);
      forall d, l | d in carriers - {c} && DescendsFrom(s, d, l)
        ensures l in logins - {login}
      {
        if l == login {
          SameLoginSameCarrier(s, c, d, login);
        }
      }
      CarriersInject(s, user, carriers - {c}, logins - {login});
    }
  }

  /** A user's live tokens and claims in flight, together, never outnumber that user's logins. */
  lemma SessionsAtMostLogins(steps: seq<Step>, user: string, carriers: set<Carrier>)
    requires ValidRun(EMPTY, steps)
    requires var s := Exec(EMPTY, steps);
      forall c :: c in carriers ==> Carries(s, c) && CarriedUser(s, c) == user
    ensures |carriers| <= |LoginsOf(Exec(EMPTY, steps), user)|
  {
    RunKeepsInv(EMPTY, steps);
    var s := Exec(EMPTY, steps);
    forall c, l | c in carriers && DescendsFrom(s, c, l)
      ensures l in LoginsOf(s, user)
    {
      CarrierAtTip(s, c);
    }
    CarriersInject(s, user, carriers, LoginsOf(s, user));
  }

  /** The step takes liveness from the token: its own use, its user's logout, or a purge that finds it
      older than the leeway. */
  ghost predicate Revokes(s: World, step: Step, tok: Token)
    requires Enabled(s, step) && tok in s.tokens
  {
    match step
    case Claim(r) => s.requests[r].presented == tok
    case RevokeOrphan(r) => s.requests[r].presented == tok
    case DeleteExpired(r) => s.requests[r].presented == tok
    case LogOut(presented) => presented == tok
    case LogOutEverywhere(user) => s.tokens[tok].user == user
    case Purge(r, dbNow) => s.requests[r].phase.user == s.tokens[tok].user && dbNow - s.tokens[tok].createdAt > 30_000_000
    case _ => false
  }

  lemma StepRevokes(s: World, step: Step, tok: Token)
    requires Enabled(s, step) && Live(s.tokens, tok) && tok < s.next
    ensures Live(Apply(s, step).tokens, tok) <==> !Revokes(s, step, tok)
    ensures Live(Apply(s, step).tokens, tok) ==> Apply(s, step).tokens[tok] == s.tokens[tok]
    ensures tok < Apply(s, step).next
  {
  }

  lemma StaysDead(s: World, step: Step, tok: Token)
    requires Enabled(s, step) && !Live(s.tokens, tok) && tok < s.next
    ensures !Live(Apply(s, step).tokens, tok) && tok < Apply(s, step).next
  {
  }

  lemma {:induction false} DeadForever(s: World, steps: seq<Step>, tok: Token)
    requires ValidRun(s, steps) && !Live(s.tokens, tok) && tok < s.next
    ensures !Live(Exec(s, steps).tokens, tok)
    decreases |steps|
  {
    if steps != [] {
      StaysDead(s, steps[0], tok);
      DeadForever(Apply(s, steps[0]), steps[1..], tok);
    }
  }

  /** No step of the run revokes the token. */
  ghost predicate NeverRevoked(s: World, steps: seq<Step>, tok: Token)
    requires ValidRun(s, steps)
    decreases |steps|
  {
    steps != [] ==>
      && (Live(s.tokens, tok) ==> !Revokes(s, steps[0], tok))
      && NeverRevoked(Apply(s, steps[0]), steps[1..], tok)
  }

  /** Over every run a live token is live at the end exactly when no step revoked it. */
  lemma {:induction false} LiveUntilRevoked(s: World, steps: seq<Step>, tok: Token)
    requires ValidRun(s, steps) && Live(s.tokens, tok) && tok < s.next
    ensures Live(Exec(s, steps).tokens, tok) <==> NeverRevoked(s, steps, tok)
    decreases |steps|
  {
    if steps != [] {
      var s' := Apply(s, steps[0]);
      StepRevokes(s, steps[0], tok);
      if Live(s'.tokens, tok) {
        LiveUntilRevoked(s', steps[1..], tok);
      } else {
        DeadForever(s', steps[1..], tok);
      }
    }
  }

  /** Apart from purges no step of the run revokes the token. */
  ghost predicate OnlyPurgesRevoke(s: World, steps: seq<Step>, tok: Token)
    requires ValidRun(s, steps)
    decreases |steps|
  {
    steps != [] ==>
      && (Live(s.tokens, tok) ==> steps[0].Purge? || !Revokes(s, steps[0], tok))
      && OnlyPurgesRevoke(Apply(s, steps[0]), steps[1..], tok)
  }

  /** A race loser does not hurt the winner: a token issued at `now` survives every run in which purges,
      of the losers of its own race or any other, come within 30 seconds of its issue and no other step
      revokes it. */
  lemma PurgeSparesTheWinner(s: World, r: nat, now: Time, steps: seq<Step>)
    requires Enabled(s, Issue(r, now)) && ValidRun(Apply(s, Issue(r, now)), steps)
    requires OnlyPurgesRevoke(Apply(s, Issue(r, now)), steps, s.next)
    requires forall q, dbNow :: Purge(q, dbNow) in steps ==> dbNow - now <= 30_000_000
    ensures Live(Exec(Apply(s, Issue(r, now)), steps).tokens, s.next)
  {
    var s' := Apply(s, Issue(r, now));
    EarlyPurgesSpare(s', steps, s.next, now);
    LiveUntilRevoked(s', steps, s.next);
  }

  lemma {:induction false} EarlyPurgesSpare(s: World, steps: seq<Step>, tok: Token, issuedAt: Time)
    requires ValidRun(s, steps) && tok < s.next
    requires Live(s.tokens, tok) && s.tokens[tok].createdAt == issuedAt && OnlyPurgesRevoke(s, steps, tok)
    requires forall q, dbNow :: Purge(q, dbNow) in steps ==> dbNow - issuedAt <= 30_000_000
    ensures NeverRevoked(s, steps, tok)
    decreases |steps|
  {
    if steps != [] {
      var step := steps[0];
      assert step in steps;
      assert step.Purge? ==> step == Purge(step.r, step.dbNow);
      StepRevokes(s, step, tok);
      EarlyPurgesSpare(Apply(s, step), steps[1..], tok, issuedAt);
    }
  }

  /** Reuse is punished: a request that reads a revoked token, or loses the race for the claim, goes on to a
      purge, and the purge leaves its user no live token older than 30 seconds. */
  lemma ReuseIsPunished(s: World, step: Step, dbNow: Time)
    requires step.Read? || step.Claim?
    requires Enabled(s, step)
    requires step.Read? ==> s.requests[step.r].presented in s.tokens && s.tokens[s.requests[step.r].presented].revoked
    requires step.Claim? ==> !Live(s.tokens, s.requests[step.r].presented)
    ensures var user := if step.Read? then s.tokens[s.requests[step.r].presented].user else s.requests[step.r].phase.user;
      var s' := Apply(s, step);
      && Enabled(s', Purge(step.r, dbNow))
      && (forall tok :: Live(s.tokens, tok) && s.tokens[tok].user == user ==>
            (Live(Apply(s', Purge(step.r, dbNow)).tokens, tok) <==> dbNow - s.tokens[tok].createdAt <= 30_000_000))
      && (forall tok :: Live(s.tokens, tok) && s.tokens[tok].user != user ==>
            Live(Apply(s', Purge(step.r, dbNow)).tokens, tok))
  {
  }

  /** A token is good for seven days from its issue, by login or by rotation: over every run that leaves it
      live, a refresh that presents it passes the read up to that moment and finds it expired after. */
  lemma GoodForAWeek(s: World, issue: Step, steps: seq<Step>, readAt: Time)
    requires Enabled(s, issue) && (issue.Issue? || issue.LogIn?)
    requires ValidRun(Apply(s, issue), steps) && Live(Exec(Apply(s, issue), steps).tokens, s.next)
    ensures var phase := ReadPhase(Exec(Apply(s, issue), steps), s.next, readAt);
            && (phase.Checked? <==> readAt <= issue.now + 604_800_000_000)
            && (phase.Expiring? <==> readAt > issue.now + 604_800_000_000)
  {
    RowStays(Apply(s, issue), steps, s.next);
  }

  lemma {:induction false} RowStays(s: World, steps: seq<Step>, tok: Token)
    requires ValidRun(s, steps) && Live(s.tokens, tok) && tok < s.next && Live(Exec(s, steps).tokens, tok)
    ensures Exec(s, steps).tokens[tok] == s.tokens[tok]
    decreases |steps|
  {
    if steps != [] {
      var s' := Apply(s, steps[0]);
      StepRevokes(s, steps[0], tok);
      if Live(s'.tokens, tok) {
        RowStays(s', steps[1..], tok);
      } else {
        DeadForever(s', steps[1..], tok);
      }
    }
  }

  /** The handler run without interruption is one run of these steps: its effect on the table is
      the one the sequential `Sessions.Refresh` is proved to have. */
  lemma UninterruptedRefresh(s: World, r: nat, presented: Token, now: Time) returns (s': World)
    requires r !in s.requests && Live(s.tokens, presented)
    requires now <= s.tokens[presented].expiresAt && s.tokens[presented].user in s.roles
    ensures ValidRun(s, [Arrive(r, presented), Read(r, now), LookUpRole(r), Claim(r), Issue(r, now)])
    ensures s' == Exec(s, [Arrive(r, presented), Read(r, now), LookUpRole(r), Claim(r), Issue(r, now)])
    ensures s'.tokens == Store(Revoke(s.tokens, presented), s.next, s.tokens[presented].user, now)
    ensures r in s'.requests && s'.requests[r].phase == Done(Ok(s.next))
  {
    var s1 := Apply(s, Arrive(r, presented));
    var s2 := Apply(s1, Read(r, now));
    var s3 := Apply(s2, LookUpRole(r));
    var s4 := Apply(s3, Claim(r));
    s' := Apply(s4, Issue(r, now));
    Before(s4, Issue(r, now), [], s');
    Before(s3, Claim(r), [Issue(r, now)], s');
    Before(s2, LookUpRole(r), [Claim(r), Issue(r, now)], s');
    Before(s1, Read(r, now), [LookUpRole(r), Claim(r), Issue(r, now)], s');
    Before(s, Arrive(r, presented), [Read(r, now), LookUpRole(r), Claim(r), Issue(r, now)], s');
  }

  /** The statements that follow the read of a token to be refused. */
  ghost function RefusalSteps(s: World, r: nat, presented: Token, now: Time, dbNow: Time): seq<Step> {
    if presented !in s.tokens then []
    else if s.tokens[presented].revoked then [Purge(r, dbNow)]
    else if now > s.tokens[presented].expiresAt then [DeleteExpired(r)]
    else [LookUpRole(r), RevokeOrphan(r)]
  }

  /** The refusals too: an unknown, a reused and an expired token and a token of a user who is gone
      each take the steps of their own branch and leave the table as `Sessions.Refresh` does. */
  lemma UninterruptedRefusal(s: World, r: nat, presented: Token, now: Time, dbNow: Time) returns (s': World)
    requires r !in s.requests
    requires !(Live(s.tokens, presented) && now <= s.tokens[presented].expiresAt && s.tokens[presented].user in s.roles)
    ensures ValidRun(s, [Arrive(r, presented)] + ([Read(r, now)] + RefusalSteps(s, r, presented, now, dbNow)))
    ensures s' == Exec(s, [Arrive(r, presented)] + ([Read(r, now)] + RefusalSteps(s, r, presented, now, dbNow)))
    ensures s'.tokens == Refused(s.tokens, presented, now, dbNow)
    ensures r in s'.requests && s'.requests[r].phase == Done(Unauthorized)
  {
    var s1 := Apply(s, Arrive(r, presented));
    var s2 := Apply(s1, Read(r, now));
    var tail := RefusalSteps(s, r, presented, now, dbNow);
    s' := RefusalTail(s, s2, r, presented, now, dbNow);
    Before(s1, Read(r, now), tail, s');
    Before(s, Arrive(r, presented), [Read(r, now)] + tail, s');
  }

  lemma RefusalTail(s: World, s2: World, r: nat, presented: Token, now: Time, dbNow: Time) returns (s': World)
    requires !(Live(s.tokens, presented) && now <= s.tokens[presented].expiresAt && s.tokens[presented].user in s.roles)
    requires s2 == s.(requests := s.requests[r := Request(presented, ReadPhase(s, presented, now))])
    ensures ValidRun(s2, RefusalSteps(s, r, presented, now, dbNow))
    ensures s' == Exec(s2, RefusalSteps(s, r, presented, now, dbNow))
    ensures s'.tokens == Refused(s.tokens, presented, now, dbNow)
    ensures r in s'.requests && s'.requests[r].phase == Done(Unauthorized)
  {
    if presented !in s.tokens {
      s' := s2;
    } else if s.tokens[presented].revoked {
      s' := Apply(s2, Purge(r, dbNow));
      Before(s2, Purge(r, dbNow), [], s');
    } else if now > s.tokens[presented].expiresAt {
      s' := Apply(s2, DeleteExpired(r));
      Before(s2, DeleteExpired(r), [], s');
    } else {
      var s3 := Apply(s2, LookUpRole(r));
      s' := Apply(s3, RevokeOrphan(r));
      Before(s3, RevokeOrphan(r), [], s');
      Before(s2, LookUpRole(r), [RevokeOrphan(r)], s');
    }
  }

  lemma Before(s: World, step: Step, rest: seq<Step>, s': World)
    requires Enabled(s, step) && ValidRun(Apply(s, step), rest) && Exec(Apply(s, step), rest) == s'
    ensures ValidRun(s, [step] + rest) && Exec(s, [step] + rest) == s'
  {
    assert ([step] + rest)[1..] == rest;
  }
}
