/** What each account operation does to the user table. A request that signs a
    token or reads Redis is completed in module `Sessions`. */
module Accounts {
  import opened Schema
  import opened Text

  // ── Queries ───────────────────────────────────────────────────────

  function WithEmail(users: Users, email: string): set<Id> {
    set u | u in users && users[u].email == Normalize(email)
  }

  function WithOAuth(users: Users, provider: Provider, providerId: string): set<Id> {
    set u | u in users && users[u].provider == provider && users[u].providerId == Some(providerId)
  }

  function WithVerificationToken(users: Users, token: TokenHash): set<Id> {
    set u | u in users && users[u].verificationToken == Some(token)
  }

  function WithResetToken(users: Users, token: TokenHash): set<Id> {
    set u | u in users && users[u].resetToken == Some(token)
  }

  /** The caller is authenticated: the account exists and is active. */
  predicate CurrentUser(users: Users, user: Id) {
    user in users && users[user].isActive
  }

  // ── Flushing rows ─────────────────────────────────────────────────

  /** Flush a new user row against the primary key and the unique e-mail. */
  function Insert(users: Users, user: Id, row: User): Attempt<Users, Id> {
    if user in users || exists v | v in users :: users[v].email == row.email
    then Attempt(users, Err(Integrity))
    else Attempt(users[user := row], Ok(user))
  }

  // ── Registration, login, one-time tokens ──────────────────────────

  function Register(users: Users, email: string, password: string, user: Id, rawToken: string): Attempt<Users, Id> {
    match OneOrNone(WithEmail(users, email))
    case ManyRows => Attempt(users, Err(MultipleRows))
    case OneRow(_) => Attempt(users, Err(Conflict))
    case NoRow =>
      Insert(users, user,
             User(Normalize(email), Some(PasswordHash(password)), true, false, Some(TokenHash(rawToken)), None,
                  Local, None, false, None))
  }

  predicate PasswordMatches(plain: string, hashed: Option<PasswordHash>) {
    hashed == Some(PasswordHash(plain))
  }

  /** Password login names the account that may proceed. */
  function Login(users: Users, email: string, password: string): Outcome<Id> {
    match OneOrNone(WithEmail(users, email))
    case ManyRows => Err(MultipleRows)
    case NoRow => Err(Unauthorized)
    case OneRow(u) =>
      if !PasswordMatches(password, users[u].password) then Err(Unauthorized)
      else if !users[u].isActive then Err(Unauthorized)
      else Ok(u)
  }

  function VerifyEmail(users: Users, rawToken: string, mailSent: bool): Attempt<Users, Id> {
    match OneOrNone(WithVerificationToken(users, TokenHash(rawToken)))
    case ManyRows => Attempt(users, Err(MultipleRows))
    case NoRow => Attempt(users, Err(BadRequest))
    case OneRow(u) =>
      var saved := users[u := users[u].(isVerified := true, verificationToken := None)];
      Attempt(saved, if mailSent then Ok(u) else Err(MailerFailed))
  }

  /** A request for an unknown address succeeds silently, naming nobody. */
  function RequestPasswordReset(users: Users, email: string, rawToken: string, mailSent: bool):
    Attempt<Users, Option<Id>>
  {
    match OneOrNone(WithEmail(users, email))
    case ManyRows => Attempt(users, Err(MultipleRows))
    case NoRow => Attempt(users, Ok(None))
    case OneRow(u) =>
      var saved := users[u := users[u].(resetToken := Some(TokenHash(rawToken)))];
      Attempt(saved, if mailSent then Ok(Some(u)) else Err(MailerFailed))
  }

  function ResetPassword(users: Users, rawToken: string, newPassword: string): Attempt<Users, Id> {
    match OneOrNone(WithResetToken(users, TokenHash(rawToken)))
    case ManyRows => Attempt(users, Err(MultipleRows))
    case NoRow => Attempt(users, Err(BadRequest))
    case OneRow(u) =>
      Attempt(users[u := users[u].(password := Some(PasswordHash(newPassword)), resetToken := None)], Ok(u))
  }

  // ── OAuth ─────────────────────────────────────────────────────────

  function OAuthLogin(users: Users, provider: Provider, providerId: string, email: string, user: Id):
    Attempt<Users, Id>
  {
    match OneOrNone(WithOAuth(users, provider, providerId))
    case ManyRows => Attempt(users, Err(MultipleRows))
    case OneRow(u) => Attempt(users, Ok(u))
    case NoRow =>
      match OneOrNone(WithEmail(users, email))
      case ManyRows => Attempt(users, Err(MultipleRows))
      case OneRow(u) =>
        var linked := users[u].(provider := provider, providerId := Some(providerId), isVerified := true);
        Attempt(users[u := linked], Ok(u))
      case NoRow =>
        Insert(users, user,
               User(Normalize(email), None, true, true, None, None, provider, Some(providerId), false, None))
  }

  // ── Profile ───────────────────────────────────────────────────────

  function ChangePassword(users: Users, user: Id, current: string, newPassword: string): Attempt<Users, Id>
    requires user in users
  {
    if !PasswordMatches(current, users[user].password) then Attempt(users, Err(Unauthorized))
    else Attempt(users[user := users[user].(password := Some(PasswordHash(newPassword)))], Ok(user))
  }

  function DeleteAccount(users: Users, user: Id): Attempt<Users, Id>
    requires user in users
  {
    Attempt(users[user := users[user].(isActive := false)], Ok(user))
  }

  /** Deactivating or activating another account, from the admin endpoints. */
  function SetActive(users: Users, user: Id, active: bool): Attempt<Users, Id> {
    if user !in users then Attempt(users, Err(NotFound))
    else Attempt(users[user := users[user].(isActive := active)], Ok(user))
  }

  // ── MFA ───────────────────────────────────────────────────────────

  /** A stored secret that is missing or empty counts as none. */
  predicate HasSecret(user: User) {
    user.mfaSecret.Some? && user.mfaSecret.value != ""
  }

  predicate CodeAccepted(cfg: Config, user: User, code: string, now: Time) {
    HasSecret(user) && cfg.totp(user.mfaSecret.value, code, now)
  }

  function SetupMfa(users: Users, user: Id, secret: string): Attempt<Users, Id>
    requires user in users
  {
    if users[user].mfaEnabled then Attempt(users, Err(BadRequest))
    else Attempt(users[user := users[user].(mfaSecret := Some(secret))], Ok(user))
  }

  function VerifyMfa(cfg: Config, users: Users, user: Id, code: string, now: Time): Attempt<Users, Id>
    requires user in users
  {
    if !HasSecret(users[user]) || users[user].mfaEnabled then Attempt(users, Err(BadRequest))
    else if !CodeAccepted(cfg, users[user], code, now) then Attempt(users, Err(BadRequest))
    else Attempt(users[user := users[user].(mfaEnabled := true)], Ok(user))
  }

  function DisableMfa(cfg: Config, users: Users, user: Id, code: string, now: Time): Attempt<Users, Id>
    requires user in users
  {
    if !users[user].mfaEnabled || !HasSecret(users[user]) then Attempt(users, Err(BadRequest))
    else if !CodeAccepted(cfg, users[user], code, now) then Attempt(users, Err(Unauthorized))
    else Attempt(users[user := users[user].(mfaEnabled := false, mfaSecret := None)], Ok(user))
  }

  function ValidateMfa(cfg: Config, users: Users, user: Id, code: string, now: Time): Outcome<Id>
    requires user in users
  {
    if !users[user].mfaEnabled || !HasSecret(users[user]) then Err(BadRequest)
    else if !CodeAccepted(cfg, users[user], code, now) then Err(Unauthorized)
    else Ok(user)
  }
}
