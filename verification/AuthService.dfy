/** Login, refresh and password reset as the code of one request, with nobody in between.
    AuthProtocol has the same requests as they interleave. */
module AuthService {
  import opened Wrappers
  import opened Sessions

  /** Reset tokens and when they expire, if they do. */
  class ResetTokens {
    var tokens: map<nat, Option<int>>

    constructor ()
      ensures tokens == map[]
    {
      tokens := map[];
    }

    /** Presented at this time the token would be accepted. */
    predicate Redeemable(token: nat, now: int)
      reads this
    {
      token in tokens && (tokens[token].Some? ==> now <= tokens[token].value)
    }

    /** The token can be redeemed until its time is over, and for ever if it was given no time:
        SET sends only a positive expiration.  Nothing changes for any other token. */
    method StoreResetToken(token: nat, now: int, ttl: int)
      modifies this
      ensures forall t :: Redeemable(token, t) <==> ttl <= 0 || t <= now + ttl
      ensures forall other, t :: other != token ==> (Redeemable(other, t) <==> old(Redeemable(other, t)))
    {
      tokens := tokens[token := if 0 < ttl then Some(now + ttl) else None];
    }

    /** GETDEL: whoever reads the token takes it away. */
    method ConsumeResetToken(token: nat, now: int) returns (ok: bool)
      modifies this
      ensures ok <==> old(Redeemable(token, now))
      ensures tokens == old(tokens) - {token} && forall t :: !Redeemable(token, t)
    {
      ok := token in tokens && (tokens[token].Some? ==> now <= tokens[token].value);
      tokens := tokens - {token};
    }
  }

  /** One account.  `user` is the number of the password update that stored its hash, if the
      account exists; the digest of that hash is the same number. */
  class Account {
    var user: Option<nat>
    const sessions: SessionStore
    const resets: ResetTokens

    ghost predicate Valid()
      reads this, sessions
    {
      sessions.Valid()
    }

    constructor (password: nat)
      ensures Valid() && user == Some(password) && fresh(sessions) && fresh(resets)
      ensures sessions.Contents() == NO_KEYS && resets.tokens == map[]
    {
      user := Some(password);
      sessions := new SessionStore();
      resets := new ResetTokens();
    }

    /** `matches` is the answer of bcrypt. */
    method Login(now: int, matches: bool, id: SessionId, refresh: Digest, device: string, ttl: int) returns (ok: bool)
      requires Valid() && 0 <= now
      modifies sessions
      ensures Valid()
      ensures ok <==> user.Some? && matches
      ensures ok ==>
        && sessions.rows == Live(old(sessions.rows)[id := Row(device, now, now, now + ttl, refresh, user.value)], now)
        && sessions.generation == old(sessions.generation)
      ensures !ok ==> sessions.Contents() == old(sessions.Contents())
    {
      if user.None? {
        return false;
      }
      var hash := user.value;
      var generation := sessions.generation;
      if !matches {
        return false;
      }
      if user != Some(hash) {
        return false;
      }
      var n := sessions.CreateScript(now, generation, id, Row(device, now, now, now + ttl, refresh, hash));
      ok := n == 1;
    }

    /** The two scripts read the clock one after the other. */
    method Refresh(t1: int, t2: int, id: SessionId, token: Digest, next: Digest, ttl: int) returns (ok: bool)
      requires Valid() && 0 <= t1 <= t2
      modifies sessions
      ensures Valid()
      ensures ok <==> user.Some? && 0 < ttl && MayRotate(old(sessions.rows), id, token, user.value, t2)
      ensures ok ==>
        var row := old(sessions.rows)[id];
        var rows := old(sessions.rows)[id := Row(row.device, row.createdAt, t2, t2 + ttl, next, row.credential)];
        && (forall i :: i in sessions.rows <==> i in rows && t2 < rows[i].expiresAt)
        && (forall i :: i in sessions.rows ==> sessions.rows[i] == rows[i])
      ensures !ok ==> Live(sessions.rows, t2) == Live(old(sessions.rows), t2)
      ensures sessions.generation == old(sessions.generation)
    {
      ghost var before := sessions.rows;
      if user.None? {
        return false;
      }
      var stored := sessions.GetScript(t1, id);
      ghost var pruned := sessions.rows;
      PrunedLive(before, id, t1, t2);
      if stored.None? {
        return false;
      }
      var credential := user.value;
      if stored.value.credential != credential {
        return false;
      }
      var n := sessions.RotateScript(t2, id, token, next, credential, ttl);
      ok := n == 1;
      HasAgrees(pruned, before, id, t2);
      if ok {
        LiveUpdate(pruned, before, id, Rotated(before[id], next, ttl, t2), t2);
      } else {
        PruningIsHarmless(pruned, id, t2);
      }
    }

    /** The answer is the same whether the account exists or not; the mail with the token is sent
        only if it does. */
    method ForgotPassword(now: int, token: nat, ttl: int) returns (mailed: bool)
      modifies resets
      ensures mailed <==> user.Some?
      ensures mailed ==> forall t :: resets.Redeemable(token, t) <==> ttl <= 0 || t <= now + ttl
      ensures !mailed ==> resets.tokens == old(resets.tokens)
    {
      if user.None? {
        return false;
      }
      resets.StoreResetToken(token, now, ttl);
      mailed := true;
    }

    /** `acceptable` is the answer of the password rules.  A valid token is used up even when
        the account is gone. */
    method ResetPassword(now: int, acceptable: bool, token: nat, marker: Generation) returns (ok: bool)
      requires Valid() && 0 <= now
      modifies this, sessions, resets
      ensures Valid()
      ensures ok <==> acceptable && old(resets.Redeemable(token, now)) && old(user.Some?)
      ensures resets.tokens == if acceptable then old(resets.tokens) - {token} else old(resets.tokens)
      ensures ok ==>
        && user == Some(old(user).value + 1)
        && sessions.rows == map[] && sessions.generation == marker
      ensures !ok ==> user == old(user) && sessions.Contents() == old(sessions.Contents())
    {
      if !acceptable {
        return false;
      }
      var known := resets.ConsumeResetToken(token, now);
      if !known {
        return false;
      }
      if user.None? {
        return false;
      }
      user := Some(user.value + 1);
      var n := sessions.RevokeAllScript(now, None, marker);
      ok := n == 1;
    }
  }

  lemma PrunedLive(rows: map<SessionId, Row>, id: SessionId, t1: int, t2: int)
    requires t1 <= t2
    ensures Live(Live(Probe(rows, id, t1), t1), t2) == Live(rows, t2)
  {
    PruningIsHarmless(rows, id, t1);
    LiveTwice(rows, t1, t2);
  }
}
