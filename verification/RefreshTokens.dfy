/** The `refresh_tokens` table and the handler that rotates a token (`auth.go`). */
module RefreshTokens {
  import opened Common

  const REFRESH_TTL: int := 7 * 24 * HOUR
  const REUSE_LEEWAY: int := 30 * SECOND

  type Token = nat

  datatype TokenRow = TokenRow(user: string, expiresAt: Time, createdAt: Time, revoked: bool)

  type TokenTable = map<Token, TokenRow>

  predicate Live(tokens: TokenTable, tok: Token) {
    tok in tokens && !tokens[tok].revoked
  }

  // The statements, each atomic.

  function Store(tokens: TokenTable, tok: Token, user: string, now: Time): TokenTable {
    tokens[tok := TokenRow(user, now + REFRESH_TTL, now, false)]
  }

  function Revoke(tokens: TokenTable, tok: Token): TokenTable {
    if tok in tokens then tokens[tok := tokens[tok].(revoked := true)] else tokens
  }

  function RevokeAll(tokens: TokenTable, user: string): TokenTable {
    map tok | tok in tokens ::
      if tokens[tok].user == user then tokens[tok].(revoked := true) else tokens[tok]
  }

  /** Revokes the user's tokens except those created within the leeway. */
  function RevokeOld(tokens: TokenTable, user: string, dbNow: Time): TokenTable {
    map tok | tok in tokens ::
      if tokens[tok].user == user && tokens[tok].createdAt < dbNow - REUSE_LEEWAY
      then tokens[tok].(revoked := true)
      else tokens[tok]
  }

  /** What a refused refresh does to the table: nothing for an unknown token, a purge of the old
      sessions for a reused one, removal of an expired one, revocation when the user is gone. */
  function Refused(tokens: TokenTable, presented: Token, now: Time, dbNow: Time): TokenTable {
    if presented !in tokens then tokens
    else if tokens[presented].revoked then RevokeOld(tokens, tokens[presented].user, dbNow)
    else if now > tokens[presented].expiresAt then tokens - {presented}
    else Revoke(tokens, presented)
  }

  datatype Answer = Ok(rotated: Token) | Unauthorized

  class Sessions {
    var tokens: TokenTable
    var next: Token

    /** Random 32-byte tokens never repeat; here each mint takes an unused number. */
    ghost predicate Valid()
      reads this
    {
      forall tok :: tok in tokens ==> tok < next
    }

    constructor ()
      ensures Valid() && tokens == map[]
    {
      tokens, next := map[], 0;
    }

    method IssuePair(user: string, now: Time) returns (minted: Token)
      requires Valid()
      modifies this
      ensures Valid() && minted == old(next) && minted !in old(tokens) && next == minted + 1
      ensures tokens == Store(old(tokens), minted, user, now)
    {
      minted := next;
      next := next + 1;
      tokens := tokens[minted := TokenRow(user, now + REFRESH_TTL, now, false)];
    }

    method RevokeAllExceptRecent(user: string, dbNow: Time)
      requires Valid()
      modifies this`tokens
      ensures Valid() && tokens == RevokeOld(old(tokens), user, dbNow)
    {
      var todo := tokens.Keys;
      ghost var before := tokens;
      while todo != {}
        invariant todo <= before.Keys && tokens.Keys == before.Keys
        invariant forall tok :: tok in todo ==> tokens[tok] == before[tok]
        invariant forall tok :: tok in before && tok !in todo ==> tokens[tok] == RevokeOld(before, user, dbNow)[tok]
        decreases todo
      {
        var tok :| tok in todo;
        if tokens[tok].user == user && tokens[tok].createdAt < dbNow - REUSE_LEEWAY {
          tokens := tokens[tok := tokens[tok].(revoked := true)];
        }
        todo := todo - {tok};
      }
    }

    /** One refresh request, run without interruption. `roles` are the users that exist. */
    method Refresh(presented: Token, roles: set<string>, now: Time, dbNow: Time) returns (answer: Answer)
      requires Valid()
      modifies this
      ensures Valid()
      ensures answer.Ok? <==> old(Live(tokens, presented) && now <= tokens[presented].expiresAt && tokens[presented].user in roles)
      ensures answer.Ok? ==>
        && answer.rotated !in old(tokens) && answer.rotated == old(next)
        && tokens == Store(Revoke(old(tokens), presented), answer.rotated, old(tokens[presented].user), now)
      ensures !answer.Ok? ==> tokens == Refused(old(tokens), presented, now, dbNow)
    {
      if presented !in tokens {
        return Unauthorized;
      }
      var row := tokens[presented];
      if row.revoked {
        RevokeAllExceptRecent(row.user, dbNow);
        return Unauthorized;
      }
      if now > row.expiresAt {
        tokens := tokens - {presented};
        return Unauthorized;
      }
      if row.user !in roles {
        tokens := tokens[presented := row.(revoked := true)];
        return Unauthorized;
      }
      // Nothing ran in between, so the claiming UPDATE still matches the row; the branch
      // for a lost race exists only in the interleaved model.
      tokens := tokens[presented := row.(revoked := true)];
      var minted := IssuePair(row.user, now);
      return Ok(minted);
    }
  }
}
