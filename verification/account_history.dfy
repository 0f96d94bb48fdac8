/** Accounts field by field: what each request writes to address, activity, link and
    second factor, and that every run leaves what its requests have written. Passwords,
    reset tokens and verification are in modules `Credentials` and `Verification`. */
module AccountHistory {
  import opened Schema
  import opened Text
  import Accounts
  import opened Sessions
  import opened System
  import opened Integrity
  import opened Reachable
  import opened AccountGuards

  datatype Profile = Profile(
    email: string,
    isActive: bool,
    provider: Provider,
    providerId: Option<string>,
    mfaEnabled: bool,
    mfaSecret: Option<string>)

  function ProfileOf(users: Users, u: Id): Option<Profile> {
    if u !in users then None
    else Some(Profile(users[u].email, users[u].isActive, users[u].provider, users[u].providerId,
                      users[u].mfaEnabled, users[u].mfaSecret))
  }

  // ── What one request writes ───────────────────────────────────────

  /** The request makes the account. */
  predicate Appears(users: Users, step: AccountStep, u: Id) {
    match step
    case DoRegister(email, _, user, _, _) => Registers(users, email, user, u)
    case DoOAuth(provider, providerId, email, user, _) => Enrols(users, provider, providerId, email, user, u)
    case _ => false
  }

  /** A new account is active, has the normalized address and no second factor, and is
      linked if a third party vouches for it. */
  function Initial(step: AccountStep): Profile
    requires step.DoRegister? || step.DoOAuth?
  {
    match step
    case DoRegister(email, _, _, _, _) => Profile(Normalize(email), true, Local, None, false, None)
    case DoOAuth(provider, providerId, email, _, _) =>
      Profile(Normalize(email), true, provider, Some(providerId), false, None)
  }

  function ActiveWritten(users: Users, step: AccountStep, u: Id): Option<bool> {
    match step
    case DoDeleteAccount(user) => if user == u && IsActive(users, u) then Some(false) else None
    case DoSetActive(admin, superuser, target, active) =>
      if target == u && superuser && IsActive(users, admin) then Some(active) else None
    case _ => None
  }

  function LinkWritten(users: Users, step: AccountStep, u: Id): Option<(Provider, string)> {
    if step.DoOAuth? && Links(users, step.provider, step.providerId, step.email, u)
    then Some((step.provider, step.providerId)) else None
  }

  predicate CodeFits(cfg: Config, users: Users, u: Id, code: string, now: Time) {
    && u in users && users[u].mfaSecret.Some? && users[u].mfaSecret.value != ""
    && cfg.totp(users[u].mfaSecret.value, code, now)
  }

  predicate Confirms(cfg: Config, users: Users, step: AccountStep, u: Id) {
    && step.DoVerifyMfa? && step.user == u && IsActive(users, u) && !users[u].mfaEnabled
    && CodeFits(cfg, users, u, step.code, step.now)
  }

  predicate Disables(cfg: Config, users: Users, step: AccountStep, u: Id) {
    && step.DoDisableMfa? && step.user == u && IsActive(users, u) && users[u].mfaEnabled
    && CodeFits(cfg, users, u, step.code, step.now)
  }

  predicate SetsUp(users: Users, step: AccountStep, u: Id) {
    step.DoSetupMfa? && step.user == u && IsActive(users, u) && !users[u].mfaEnabled
  }

  /** The profile after the request, field by field. */
  function Rewritten(cfg: Config, users: Users, step: AccountStep, u: Id, before: Profile): Profile {
    var active, link := ActiveWritten(users, step, u), LinkWritten(users, step, u);
    before.(isActive := if active.Some? then active.value else before.isActive,
            provider := if link.Some? then link.value.0 else before.provider,
            providerId := if link.Some? then Some(link.value.1) else before.providerId,
            mfaEnabled := if Confirms(cfg, users, step, u) then true
                          else if Disables(cfg, users, step, u) then false else before.mfaEnabled,
            mfaSecret := if SetsUp(users, step, u) then Some(step.secret)
                         else if Disables(cfg, users, step, u) then None else before.mfaSecret)
  }

  function ProfileAfter(cfg: Config, users: Users, step: AccountStep, u: Id, before: Option<Profile>): Option<Profile> {
    if Appears(users, step, u) then Some(Initial(step))
    else if before.Some? then Some(Rewritten(cfg, users, step, u, before.value))
    else None
  }

  /** Between two user tables the profile changes as the request says. */
  predicate ProfileWrites(cfg: Config, users: Users, step: AccountStep, after: Users, u: Id) {
    ProfileOf(after, u) == ProfileAfter(cfg, users, step, u, ProfileOf(users, u))
  }

  lemma OwnRowProfile(cfg: Config, s: AccountState, step: AccountStep, u: Id)
    requires OnOwnRow(step)
    ensures ProfileWrites(cfg, s.users, step, AccountRequest(cfg, s, step).0.users, u)
  {
    OwnRowSettles(cfg, s, step);
  }

  lemma RegisterProfile(cfg: Config, s: AccountState, step: AccountStep, u: Id)
    requires UsersOk(s.users) && step.DoRegister?
    ensures ProfileWrites(cfg, s.users, step, AccountRequest(cfg, s, step).0.users, u)
  {
    RegisterExactly(s.users, step.email, step.password, step.user, step.rawToken, u);
  }

  lemma OAuthProfile(cfg: Config, s: AccountState, step: AccountStep, u: Id)
    requires UsersOk(s.users) && step.DoOAuth?
    ensures ProfileWrites(cfg, s.users, step, AccountRequest(cfg, s, step).0.users, u)
  {
    IdentityLookup(s.users, step.provider, step.providerId, u);
    AddressLookup(s.users, step.email, u);
  }

  lemma TokenProfile(cfg: Config, s: AccountState, step: AccountStep, u: Id)
    requires step.DoVerifyEmail? || step.DoReset?
    ensures ProfileWrites(cfg, s.users, step, AccountRequest(cfg, s, step).0.users, u)
  {
  }

  lemma FlagProfile(cfg: Config, s: AccountState, step: AccountStep, u: Id)
    requires step.DoRequestReset? || step.DoSetActive?
    ensures ProfileWrites(cfg, s.users, step, AccountRequest(cfg, s, step).0.users, u)
  {
  }

  /** Every account request writes exactly this to every account. */
  lemma RequestProfile(cfg: Config, s: AccountState, step: AccountStep, u: Id)
    requires UsersOk(s.users)
    ensures ProfileWrites(cfg, s.users, step, AccountRequest(cfg, s, step).0.users, u)
  {
    if OnOwnRow(step) {
      OwnRowProfile(cfg, s, step, u);
    } else if OnTokensOnly(step) {
      OthersKeepUsers(cfg, s, step);
    } else {
      match step
      case DoRegister(_, _, _, _, _) => RegisterProfile(cfg, s, step, u);
      case DoOAuth(_, _, _, _, _) => OAuthProfile(cfg, s, step, u);
      case DoRequestReset(_, _, _) => FlagProfile(cfg, s, step, u);
      case DoSetActive(_, _, _, _) => FlagProfile(cfg, s, step, u);
      case _ => TokenProfile(cfg, s, step, u);
    }
  }

  /** A third-party login leaves its identity with the account it resolved to: the next
      login with it resolves to the same account, under whatever address. */
  lemma LoginReturnsToItsAccount(cfg: Config, s: AccountState, step: AccountStep, u: Id, email: string, user: Id)
    requires UsersOk(s.users) && step.DoOAuth?
    requires Resolves(s.users, step.provider, step.providerId, step.email, step.user, u)
    ensures var after := AccountRequest(cfg, s, step).0.users;
            Accounts.OAuthLogin(after, step.provider, step.providerId, email, user).outcome == Ok(u)
  {
    var after := AccountRequest(cfg, s, step).0.users;
    OAuthProfile(cfg, s, step, u);
    AccountKeepsUsers(cfg, s, step);
    OAuthExactly(after, step.provider, step.providerId, email, user, u);
  }

  // ── Whole runs ────────────────────────────────────────────────────

  /** The profile the requests of a run have written. */
  ghost function LastProfile(cfg: Config, steps: seq<Step>, u: Id): Option<Profile> {
    if steps == [] then None
    else
      var init, last := steps[..|steps| - 1], steps[|steps| - 1];
      var users, before := Run(cfg, EMPTY, init).db.users, LastProfile(cfg, init, u);
      if last.Account? then ProfileAfter(cfg, users, last.account, u, before) else before
  }

  /** After any run an account exists, has its address, is active, linked, and has a second
      factor, exactly as the requests of the run say. */
  lemma {:induction false} ProfilesMatchHistory(cfg: Config, steps: seq<Step>, u: Id)
    ensures ProfileOf(Run(cfg, EMPTY, steps).db.users, u) == LastProfile(cfg, steps, u)
  {
    if steps != [] {
      var init, last := steps[..|steps| - 1], steps[|steps| - 1];
      ProfilesMatchHistory(cfg, init, u);
      NextProfile(cfg, init, last, u);
    }
  }

  lemma NextProfile(cfg: Config, init: seq<Step>, last: Step, u: Id)
    ensures var w := Run(cfg, EMPTY, init);
            var after := Next(cfg, w, last).db.users;
            if last.Account? then ProfileWrites(cfg, w.db.users, last.account, after, u) else after == w.db.users
  {
    var w := Run(cfg, EMPTY, init);
    match last
    case Account(s) =>
      assert UsersOk(w.db.users) by { ReachableStoreOk(cfg, init); }
      RequestProfile(cfg, w.Accounts(), s, u);
    case Org(s) => OrgRequestFrame(w.db, s);
    case Bill(s) => BillingRequestFrame(cfg, w.db, s);
  }
}
