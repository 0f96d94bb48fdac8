/** Account requests: the user table together with the signed tokens handed out
    and the Redis revocation list. */
module Sessions {
  import opened Schema
  import opened Accounts
  import opened Tokens

  /** `issued` is every token signed so far. */
  datatype AccountState = AccountState(users: Users, redis: map<Jwt, Time>, issued: set<Jwt>)

  datatype AccountStep =
    | DoRegister(email: string, password: string, user: Id, rawToken: string, now: Time)
    | DoLogin(email: string, password: string, now: Time)
    | DoRefresh(token: Jwt, now: Time, redisUp: bool)
    | DoLogout(token: Jwt, now: Time, redisUp: bool)
    | DoVerifyEmail(rawToken: string, mailSent: bool)
    | DoRequestReset(email: string, rawToken: string, mailSent: bool)
    | DoReset(rawToken: string, newPassword: string)
    | DoOAuth(provider: Provider, providerId: string, email: string, user: Id, now: Time)
    | DoChangePassword(user: Id, current: string, newPassword: string)
    | DoDeleteAccount(user: Id)
    | DoSetActive(admin: Id, superuser: bool, target: Id, active: bool)
    | DoSetupMfa(user: Id, secret: string)
    | DoVerifyMfa(user: Id, code: string, now: Time)
    | DoDisableMfa(user: Id, code: string, now: Time)
    | DoValidateMfa(pending: Jwt, code: string, now: Time)

  datatype Reply =
    | Done
    | Pair(access: Jwt, refresh: Jwt)
    | MfaPending(token: Jwt)
    | Failed(error: Error)

  // ── Signing ───────────────────────────────────────────────────────

  function TokenPair(cfg: Config, user: Id, now: Time): Reply {
    Pair(Mint(user, AccessToken, now, cfg.accessTtl), Mint(user, RefreshToken, now, cfg.refreshTtl))
  }

  function SignedBy(reply: Reply): set<Jwt> {
    match reply
    case Pair(access, refresh) => {access, refresh}
    case MfaPending(token) => {token}
    case _ => {}
  }

  /** Record what the reply hands out. */
  function Answer(s: AccountState, users: Users, reply: Reply): (AccountState, Reply) {
    (s.(users := users, issued := s.issued + SignedBy(reply)), reply)
  }

  function Refuse(s: AccountState, error: Error): (AccountState, Reply) {
    (s, Failed(error))
  }

  /** Commit and hand out a token pair, or roll back. */
  function AnswerPair(cfg: Config, s: AccountState, attempt: Attempt<Users, Id>, now: Time): (AccountState, Reply) {
    match attempt.outcome
    case Ok(u) => Answer(s, attempt.state, TokenPair(cfg, u, now))
    case Err(e) => Refuse(s, e)
  }

  /** Commit or roll back; nothing is handed out. */
  function AnswerDone<T>(s: AccountState, attempt: Attempt<Users, T>): (AccountState, Reply) {
    match attempt.outcome
    case Ok(_) => Answer(s, attempt.state, Done)
    case Err(e) => Refuse(s, e)
  }

  // ── Requests ──────────────────────────────────────────────────────

  function LoginRequest(cfg: Config, s: AccountState, email: string, password: string, now: Time):
    (AccountState, Reply)
  {
    match Login(s.users, email, password)
    case Err(e) => Refuse(s, e)
    case Ok(u) =>
      if u in s.users && s.users[u].mfaEnabled
      then Answer(s, s.users, MfaPending(Mint(u, MfaPendingToken, now, MFA_PENDING_TTL)))
      else Answer(s, s.users, TokenPair(cfg, u, now))
  }

  function RefreshRequest(cfg: Config, s: AccountState, token: Jwt, now: Time, redisUp: bool): (AccountState, Reply) {
    match VerifyRefresh(cfg, s.issued, s.redis, token, now, redisUp)
    case Err(e) => Refuse(s, e)
    case Ok(u) =>
      if !CurrentUser(s.users, u) then Refuse(s, Unauthorized)
      else Answer(s, s.users, TokenPair(cfg, u, now))
  }

  function ValidateRequest(cfg: Config, s: AccountState, token: Jwt, code: string, now: Time): (AccountState, Reply) {
    match VerifyToken(cfg, s.issued, token, MfaPendingToken, now)
    case Err(e) => Refuse(s, e)
    case Ok(u) =>
      if !CurrentUser(s.users, u) then Refuse(s, Unauthorized)
      else
        match ValidateMfa(cfg, s.users, u, code, now)
        case Err(e) => Refuse(s, e)
        case Ok(_) => Answer(s, s.users, TokenPair(cfg, u, now))
  }

  /** `superuser` is the flag of the calling account; no request writes it. */
  function SetActiveRequest(s: AccountState, admin: Id, superuser: bool, target: Id, active: bool):
    (AccountState, Reply)
  {
    if !CurrentUser(s.users, admin) then Refuse(s, Unauthorized)
    else if !superuser then Refuse(s, Forbidden)
    else AnswerDone(s, SetActive(s.users, target, active))
  }

  /** Requests that sign or revoke tokens and write no account row. */
  predicate OnTokensOnly(step: AccountStep) {
    step.DoLogin? || step.DoRefresh? || step.DoLogout? || step.DoValidateMfa?
  }

  predicate OnOwnRow(step: AccountStep) {
    step.DoChangePassword? || step.DoDeleteAccount? || step.DoSetupMfa? || step.DoVerifyMfa? || step.DoDisableMfa?
  }

  /** A request on the caller's own account row. */
  function OwnRequest(cfg: Config, users: Users, step: AccountStep): Attempt<Users, Id>
    requires OnOwnRow(step) && step.user in users
  {
    match step
    case DoChangePassword(user, current, newPassword) => ChangePassword(users, user, current, newPassword)
    case DoDeleteAccount(user) => DeleteAccount(users, user)
    case DoSetupMfa(user, secret) => SetupMfa(users, user, secret)
    case DoVerifyMfa(user, code, now) => VerifyMfa(cfg, users, user, code, now)
    case DoDisableMfa(user, code, now) => DisableMfa(cfg, users, user, code, now)
  }

  function AccountRequest(cfg: Config, s: AccountState, step: AccountStep): (AccountState, Reply) {
    match step
    case DoRegister(email, password, user, rawToken, now) =>
      AnswerPair(cfg, s, Register(s.users, email, password, user, rawToken), now)
    case DoLogin(email, password, now) => LoginRequest(cfg, s, email, password, now)
    case DoRefresh(token, now, redisUp) => RefreshRequest(cfg, s, token, now, redisUp)
    case DoLogout(token, now, redisUp) => (s.(redis := Logout(cfg, s.issued, s.redis, token, now, redisUp)), Done)
    case DoVerifyEmail(rawToken, mailSent) => AnswerDone(s, VerifyEmail(s.users, rawToken, mailSent))
    case DoRequestReset(email, rawToken, mailSent) =>
      AnswerDone(s, RequestPasswordReset(s.users, email, rawToken, mailSent))
    case DoReset(rawToken, newPassword) => AnswerDone(s, ResetPassword(s.users, rawToken, newPassword))
    case DoOAuth(provider, providerId, email, user, now) =>
      AnswerPair(cfg, s, OAuthLogin(s.users, provider, providerId, email, user), now)
    case DoValidateMfa(token, code, now) => ValidateRequest(cfg, s, token, code, now)
    case DoSetActive(admin, superuser, target, active) => SetActiveRequest(s, admin, superuser, target, active)
    case _ =>
      if !CurrentUser(s.users, step.user) then Refuse(s, Unauthorized)
      else AnswerDone(s, OwnRequest(cfg, s.users, step))
  }
}
