/** The rows of the relational store, the Redis key space, and the outcome types
    every service shares. A request is given its fresh ids, fresh tokens, the
    instant it runs at and the answers of third parties as inputs. */
module Schema {

  datatype Option<+T> = None | Some(value: T)

  type Id = string

  /** Instants and durations in seconds. */
  type Time = real

  // ── Enumerations ──────────────────────────────────────────────────

  datatype Role = Viewer | Member | Admin | Owner
  datatype InvitationStatus = Pending | Accepted | Expired | Revoked
  datatype Plan = Free | Pro | Enterprise
  datatype SubscriptionStatus = Active | Trialing | PastDue | Canceled | Incomplete
  datatype Provider = Local | Google | GitHub

  /** An ideal password hash: it matches exactly the password it was made from. */
  datatype PasswordHash = PasswordHash(plain: string)

  /** An ideal one-way token hash: distinct raw tokens have distinct hashes. */
  datatype TokenHash = TokenHash(raw: string)

  datatype TokenKind = AccessToken | RefreshToken | MfaPendingToken

  /** A signed token; `exp` is a whole number of seconds (a NumericDate). */
  datatype Jwt = Jwt(sub: Id, kind: TokenKind, iat: int, exp: int)

  // ── Rows ──────────────────────────────────────────────────────────

  datatype User = User(
    email: string,
    password: Option<PasswordHash>,
    isActive: bool,
    isVerified: bool,
    verificationToken: Option<TokenHash>,
    resetToken: Option<TokenHash>,
    provider: Provider,
    providerId: Option<string>,
    mfaEnabled: bool,
    mfaSecret: Option<string>)

  datatype Organization = Organization(
    name: string,
    slug: string,
    logo: Option<string>,
    plan: Plan,
    customer: Option<string>)

  /** The unique key of a membership row: one user in one organization. */
  datatype Seat = Seat(user: Id, org: Id)

  datatype Invitation = Invitation(
    org: Id,
    email: string,
    role: Role,
    token: TokenHash,
    invitedBy: Id,
    status: InvitationStatus,
    expiresAt: Time)

  datatype Subscription = Subscription(
    subCode: string,
    planCode: string,
    status: SubscriptionStatus,
    periodStart: Time,
    periodEnd: Time,
    canceledAt: Option<Time>)

  type Users = map<Id, User>

  datatype Db = Db(
    users: Users,
    orgs: map<Id, Organization>,
    members: map<Seat, Role>,
    invites: map<Id, Invitation>,
    subs: map<Id, Subscription>)

  const EMPTY_DB := Db(map[], map[], map[], map[], map[])

  /** Deployment settings. `totp(secret, code, now)` says whether an authenticator
      code is accepted; `leeway` is how long past `exp` the token decoder still
      accepts a token (section 4.1.4 of RFC 7519 allows none or a small one). */
  datatype Config = Config(
    proCode: string,
    enterpriseCode: string,
    accessTtl: Time,
    refreshTtl: Time,
    leeway: Time,
    totp: (string, string, Time) -> bool)

  // ── Outcomes ──────────────────────────────────────────────────────

  /** Why a request fails. `Integrity` is a unique or foreign-key violation at
      flush; `MultipleRows` is a one-or-none query that finds two rows. */
  datatype Error =
    | NotFound | Forbidden | Conflict | BadRequest | Unauthorized
    | Integrity | MultipleRows | MailerFailed | ProviderFailed

  datatype Outcome<+T> = Ok(value: T) | Err(error: Error)

  /** What a handler leaves behind when it returns or raises: the uncommitted
      state of its session, and its outcome. */
  datatype Attempt<+S, +T> = Attempt(state: S, outcome: Outcome<T>)

  /** Commit on return, roll back on any exception. */
  function Settle<S, T>(before: S, attempt: Attempt<S, T>): S {
    if attempt.outcome.Ok? then attempt.state else before
  }

  // ── One-or-none queries ───────────────────────────────────────────

  datatype Lookup = NoRow | OneRow(id: Id) | ManyRows

  function OneOrNone(ids: set<Id>): (r: Lookup)
    ensures r.NoRow? <==> ids == {}
    ensures r.OneRow? ==> ids == {r.id}
    ensures r.ManyRows? ==> exists i, j :: i in ids && j in ids && i != j
  {
    if ids == {} then NoRow
    else if exists i | i in ids :: ids == {i} then
      var i :| i in ids && ids == {i};
      OneRow(i)
    else
      assert exists i, j :: i in ids && j in ids && i != j by {
        var i :| i in ids;
        assert ids == {i} + (ids - {i});
        var j :| j in ids - {i};
      }
      ManyRows
  }

}
