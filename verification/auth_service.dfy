/** Token signing, the Redis revocation list, the account service and the MFA
    endpoints, proved against modules `Tokens`, `Accounts` and `Sessions`. */
module AuthServices {
  import opened Schema
  import opened Text
  import opened Tokens
  import opened DatabaseSession
  import Accounts
  import opened Sessions

  /** The signing key: knows the tokens it has signed. */
  class TokenSigner {
    var issued: set<Jwt>

    constructor ()
      ensures issued == {}
    {
      issued := {};
    }

    method Sign(sub: Id, kind: TokenKind, now: Time, ttl: Time) returns (token: Jwt)
      modifies this
      ensures token == Mint(sub, kind, now, ttl)
      ensures issued == old(issued) + {token}
    {
      token := Jwt(sub, kind, now.Floor, (now + ttl).Floor);
      issued := issued + {token};
    }
  }

  /** Keys with a time to live; unreachable Redis raises, which callers swallow. */
  class Redis {
    var entries: map<Jwt, Time>

    constructor ()
      ensures entries == map[]
    {
      entries := map[];
    }

    method SetWithTtl(token: Jwt, ttlSeconds: nat, now: Time)
      modifies this
      ensures entries == old(entries)[token := now + ttlSeconds as real]
    {
      entries := entries[token := now + ttlSeconds as real];
    }

    method Exists(token: Jwt, now: Time) returns (found: bool)
      ensures found <==> Blacklisted(entries, token, now, true)
    {
      found := token in entries && now < entries[token];
    }
  }

  class AuthService {
    const session: Session
    const signer: TokenSigner
    const redis: Redis
    const cfg: Config

    constructor (session: Session, signer: TokenSigner, redis: Redis, cfg: Config)
      ensures this.session == session && this.signer == signer && this.redis == redis && this.cfg == cfg
    {
      this.session, this.signer, this.redis, this.cfg := session, signer, redis, cfg;
    }

    function State(): AccountState
      reads session, signer, redis
    {
      AccountState(session.work.users, redis.entries, signer.issued)
    }

    // ── Internal ──────────────────────────────────────────────────────

    method SaveUser(user: Id, row: User)
      modifies session
      ensures session.work == old(session.work).(users := old(session.work.users)[user := row])
      ensures session.committed == old(session.committed)
    {
      session.work := session.work.(users := session.work.users[user := row]);
    }

    method InsertUser(user: Id, row: User) returns (r: Outcome<Id>)
      modifies session
      ensures Attempt(session.work.users, r) == Accounts.Insert(old(session.work.users), user, row)
      ensures session.work == old(session.work).(users := session.work.users)
      ensures session.committed == old(session.committed)
    {
      if user in session.work.users
         || exists v | v in session.work.users :: session.work.users[v].email == row.email {
        return Err(Integrity);
      }
      SaveUser(user, row);
      return Ok(user);
    }

    method IssueTokens(user: Id, now: Time) returns (reply: Reply)
      modifies signer
      ensures reply == TokenPair(cfg, user, now)
      ensures signer.issued == old(signer.issued) + SignedBy(reply)
    {
      var access := signer.Sign(user, AccessToken, now, cfg.accessTtl);
      var refresh := signer.Sign(user, RefreshToken, now, cfg.refreshTtl);
      reply := Pair(access, refresh);
    }

    // ── Tokens ────────────────────────────────────────────────────────

    method VerifyRefreshToken(token: Jwt, now: Time, redisUp: bool) returns (r: Outcome<Id>)
      ensures r == VerifyRefresh(cfg, signer.issued, redis.entries, token, now, redisUp)
    {
      if redisUp {
        var revoked := redis.Exists(token, now);
        if revoked {
          return Err(Unauthorized);
        }
      }
      return VerifyToken(cfg, signer.issued, token, RefreshToken, now);
    }

    method RevokeRefreshToken(token: Jwt, now: Time, redisUp: bool)
      modifies redis
      ensures redis.entries == Revoke(cfg, signer.issued, old(redis.entries), token, now, redisUp)
    {
      if Decodes(cfg, signer.issued, token, now) {
        var left := token.exp - now.Floor;
        var expiresIn: nat := if left > 0 then left else 0;
        if expiresIn > 0 && redisUp {
          redis.SetWithTtl(token, expiresIn, now);
        }
      }
    }

    method Logout(token: Jwt, now: Time, redisUp: bool)
      modifies redis
      ensures redis.entries == Tokens.Logout(cfg, signer.issued, old(redis.entries), token, now, redisUp)
    {
      var user := VerifyRefreshToken(token, now, redisUp);
      if user.Ok? {
        RevokeRefreshToken(token, now, redisUp);
      }
    }

    // ── Registration and login ────────────────────────────────────────

    method Register(email: string, password: string, user: Id, rawToken: string) returns (r: Outcome<Id>)
      modifies session
      ensures Attempt(session.work.users, r) ==
              Accounts.Register(old(session.work.users), email, password, user, rawToken)
      ensures session.work == old(session.work).(users := session.work.users)
      ensures session.committed == old(session.committed)
    {
      var existing := OneOrNone(Accounts.WithEmail(session.work.users, email));
      if existing.ManyRows? {
        return Err(MultipleRows);
      }
      if existing.OneRow? {
        return Err(Conflict);
      }
      var row := User(Normalize(email), Some(PasswordHash(password)), true, false, Some(TokenHash(rawToken)), None,
                      Local, None, false, None);
      r := InsertUser(user, row);
    }

    method Login(email: string, password: string, now: Time) returns (reply: Reply)
      modifies signer
      ensures (State(), reply) == LoginRequest(cfg, old(State()), email, password, now)
    {
      var users := session.work.users;
      var found := OneOrNone(Accounts.WithEmail(users, email));
      if found.ManyRows? {
        return Failed(MultipleRows);
      }
      if found.NoRow? || users[found.id].password.None? {
        return Failed(Unauthorized);
      }
      var user := users[found.id];
      if !Accounts.PasswordMatches(password, user.password) {
        return Failed(Unauthorized);
      }
      if !user.isActive {
        return Failed(Unauthorized);
      }
      if user.mfaEnabled {
        var pending := signer.Sign(found.id, MfaPendingToken, now, MFA_PENDING_TTL);
        return MfaPending(pending);
      }
      reply := IssueTokens(found.id, now);
    }

    method Refresh(token: Jwt, now: Time, redisUp: bool) returns (reply: Reply)
      modifies signer
      ensures (State(), reply) == RefreshRequest(cfg, old(State()), token, now, redisUp)
    {
      var user := VerifyRefreshToken(token, now, redisUp);
      if user.Err? {
        return Failed(user.error);
      }
      if !Accounts.CurrentUser(session.work.users, user.value) {
        return Failed(Unauthorized);
      }
      reply := IssueTokens(user.value, now);
    }

    // ── One-time tokens ───────────────────────────────────────────────

    method VerifyEmail(rawToken: string, mailSent: bool) returns (r: Outcome<Id>)
      modifies session
      ensures Attempt(session.work.users, r) == Accounts.VerifyEmail(old(session.work.users), rawToken, mailSent)
      ensures session.work == old(session.work).(users := session.work.users)
      ensures session.committed == old(session.committed)
    {
      var found := OneOrNone(Accounts.WithVerificationToken(session.work.users, TokenHash(rawToken)));
      if found.ManyRows? {
        return Err(MultipleRows);
      }
      if found.NoRow? {
        return Err(BadRequest);
      }
      var user := session.work.users[found.id];
      user := user.(isVerified := true);
      user := user.(verificationToken := None);
      SaveUser(found.id, user);
      if !mailSent {
        return Err(MailerFailed);
      }
      return Ok(found.id);
    }

    method RequestPasswordReset(email: string, rawToken: string, mailSent: bool) returns (r: Outcome<Option<Id>>)
      modifies session
      ensures Attempt(session.work.users, r) ==
              Accounts.RequestPasswordReset(old(session.work.users), email, rawToken, mailSent)
      ensures session.work == old(session.work).(users := session.work.users)
      ensures session.committed == old(session.committed)
    {
      var found := OneOrNone(Accounts.WithEmail(session.work.users, email));
      if found.ManyRows? {
        return Err(MultipleRows);
      }
      if found.NoRow? {
        return Ok(None);
      }
      SaveUser(found.id, session.work.users[found.id].(resetToken := Some(TokenHash(rawToken))));
      if !mailSent {
        return Err(MailerFailed);
      }
      return Ok(Some(found.id));
    }

    method ResetPassword(rawToken: string, newPassword: string) returns (r: Outcome<Id>)
      modifies session
      ensures Attempt(session.work.users, r) == Accounts.ResetPassword(old(session.work.users), rawToken, newPassword)
      ensures session.work == old(session.work).(users := session.work.users)
      ensures session.committed == old(session.committed)
    {
      var found := OneOrNone(Accounts.WithResetToken(session.work.users, TokenHash(rawToken)));
      if found.ManyRows? {
        return Err(MultipleRows);
      }
      if found.NoRow? {
        return Err(BadRequest);
      }
      var user := session.work.users[found.id];
      user := user.(password := Some(PasswordHash(newPassword)));
      user := user.(resetToken := None);
      SaveUser(found.id, user);
      return Ok(found.id);
    }

    // ── OAuth ─────────────────────────────────────────────────────────

    method OAuthLoginOrRegister(provider: Provider, providerId: string, email: string, user: Id)
      returns (r: Outcome<Id>)
      modifies session
      ensures Attempt(session.work.users, r) ==
              Accounts.OAuthLogin(old(session.work.users), provider, providerId, email, user)
      ensures session.work == old(session.work).(users := session.work.users)
      ensures session.committed == old(session.committed)
    {
      var linked := OneOrNone(Accounts.WithOAuth(session.work.users, provider, providerId));
      if linked.ManyRows? {
        return Err(MultipleRows);
      }
      if linked.OneRow? {
        return Ok(linked.id);
      }
      var existing := OneOrNone(Accounts.WithEmail(session.work.users, email));
      if existing.ManyRows? {
        return Err(MultipleRows);
      }
      if existing.OneRow? {
        var row := session.work.users[existing.id];
        row := row.(provider := provider, providerId := Some(providerId));
        row := row.(isVerified := true);
        SaveUser(existing.id, row);
        return Ok(existing.id);
      }
      var row := User(Normalize(email), None, true, true, None, None, provider, Some(providerId), false, None);
      r := InsertUser(user, row);
    }

    // ── Profile and MFA endpoints ─────────────────────────────────────

    method ChangePassword(user: Id, current: string, newPassword: string) returns (r: Outcome<Id>)
      requires user in session.work.users
      modifies session
      ensures Attempt(session.work.users, r) ==
              Accounts.ChangePassword(old(session.work.users), user, current, newPassword)
      ensures session.work == old(session.work).(users := session.work.users)
      ensures session.committed == old(session.committed)
    {
      var row := session.work.users[user];
      if row.password.None? {
        return Err(Unauthorized);
      }
      if !Accounts.PasswordMatches(current, row.password) {
        return Err(Unauthorized);
      }
      SaveUser(user, row.(password := Some(PasswordHash(newPassword))));
      return Ok(user);
    }

    method DeleteAccount(user: Id) returns (r: Outcome<Id>)
      requires user in session.work.users
      modifies session
      ensures Attempt(session.work.users, r) == Accounts.DeleteAccount(old(session.work.users), user)
      ensures session.work == old(session.work).(users := session.work.users)
      ensures session.committed == old(session.committed)
    {
      SaveUser(user, session.work.users[user].(isActive := false));
      return Ok(user);
    }

    method SetActive(user: Id, active: bool) returns (r: Outcome<Id>)
      modifies session
      ensures Attempt(session.work.users, r) == Accounts.SetActive(old(session.work.users), user, active)
      ensures session.work == old(session.work).(users := session.work.users)
      ensures session.committed == old(session.committed)
    {
      if user !in session.work.users {
        return Err(NotFound);
      }
      SaveUser(user, session.work.users[user].(isActive := active));
      return Ok(user);
    }

    method SetupMfa(user: Id, secret: string) returns (r: Outcome<Id>)
      requires user in session.work.users
      modifies session
      ensures Attempt(session.work.users, r) == Accounts.SetupMfa(old(session.work.users), user, secret)
      ensures session.work == old(session.work).(users := session.work.users)
      ensures session.committed == old(session.committed)
    {
      var row := session.work.users[user];
      if row.mfaEnabled {
        return Err(BadRequest);
      }
      SaveUser(user, row.(mfaSecret := Some(secret)));
      return Ok(user);
    }

    method VerifyMfa(user: Id, code: string, now: Time) returns (r: Outcome<Id>)
      requires user in session.work.users
      modifies session
      ensures Attempt(session.work.users, r) == Accounts.VerifyMfa(cfg, old(session.work.users), user, code, now)
      ensures session.work == old(session.work).(users := session.work.users)
      ensures session.committed == old(session.committed)
    {
      var row := session.work.users[user];
      if !Accounts.HasSecret(row) {
        return Err(BadRequest);
      }
      if row.mfaEnabled {
        return Err(BadRequest);
      }
      if !cfg.totp(row.mfaSecret.value, code, now) {
        return Err(BadRequest);
      }
      SaveUser(user, row.(mfaEnabled := true));
      return Ok(user);
    }

    method DisableMfa(user: Id, code: string, now: Time) returns (r: Outcome<Id>)
      requires user in session.work.users
      modifies session
      ensures Attempt(session.work.users, r) == Accounts.DisableMfa(cfg, old(session.work.users), user, code, now)
      ensures session.work == old(session.work).(users := session.work.users)
      ensures session.committed == old(session.committed)
    {
      var row := session.work.users[user];
      if !row.mfaEnabled || !Accounts.HasSecret(row) {
        return Err(BadRequest);
      }
      if !cfg.totp(row.mfaSecret.value, code, now) {
        return Err(Unauthorized);
      }
      row := row.(mfaEnabled := false);
      row := row.(mfaSecret := None);
      SaveUser(user, row);
      return Ok(user);
    }

    method ValidateMfaCode(pending: Jwt, code: string, now: Time) returns (reply: Reply)
      modifies signer
      ensures (State(), reply) == ValidateRequest(cfg, old(State()), pending, code, now)
    {
      var user := VerifyToken(cfg, signer.issued, pending, MfaPendingToken, now);
      if user.Err? {
        return Failed(user.error);
      }
      if !Accounts.CurrentUser(session.work.users, user.value) {
        return Failed(Unauthorized);
      }
      var row := session.work.users[user.value];
      if !row.mfaEnabled || !Accounts.HasSecret(row) {
        return Failed(BadRequest);
      }
      if !cfg.totp(row.mfaSecret.value, code, now) {
        return Failed(Unauthorized);
      }
      reply := IssueTokens(user.value, now);
    }
  }
}
