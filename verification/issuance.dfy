/** Every access or refresh token goes back, through a chain of refreshes, to one
    authentication of its subject. */
module Issuance {
  import opened Schema
  import opened Sessions
  import opened System
  import opened Integrity
  import opened Reachable
  import opened AccountGuards
  import opened Identity

  /** The request authenticates the account afresh: registration, a password login
      without a second factor, a second factor after one, or a third-party login. */
  predicate Authenticates(cfg: Config, s: AccountState, step: AccountStep, u: Id) {
    match step
    case DoRegister(email, _, user, _, _) => Registers(s.users, email, user, u)
    case DoLogin(email, password, _) => LogsIn(s.users, email, password, u) && !s.users[u].mfaEnabled
    case DoOAuth(provider, providerId, email, user, _) => Resolves(s.users, provider, providerId, email, user, u)
    case DoValidateMfa(pending, code, now) => PassesSecondStep(cfg, s, pending, code, now, u)
    case _ => false
  }

  /** A pending token of the account, signed and not expired, and a code of the factor
      in force; the account is active. */
  predicate PassesSecondStep(cfg: Config, s: AccountState, pending: Jwt, code: string, now: Time, u: Id) {
    && pending in s.issued && pending.kind == MfaPendingToken && pending.sub == u
    && now < pending.exp as real + cfg.leeway
    && IsActive(s.users, u) && s.users[u].mfaEnabled
    && s.users[u].mfaSecret.Some? && s.users[u].mfaSecret.value != ""
    && cfg.totp(s.users[u].mfaSecret.value, code, now)
  }

  /** The request exchanges an earlier refresh token of the same subject. */
  predicate Exchanges(s: AccountState, step: AccountStep, u: Id) {
    step.DoRefresh? && step.token in s.issued && step.token.kind == RefreshToken && step.token.sub == u
  }

  lemma NewTokenByPassword(cfg: Config, s: AccountState, step: AccountStep, token: Jwt)
    requires UsersOk(s.users) && token.kind != MfaPendingToken && (step.DoLogin? || step.DoRegister?)
    requires token in AccountRequest(cfg, s, step).0.issued && token !in s.issued
    ensures Authenticates(cfg, s, step, token.sub)
  {
    if step.DoLogin? {
      LoginExactly(s.users, step.email, step.password, token.sub);
    } else {
      RegisterExactly(s.users, step.email, step.password, step.user, step.rawToken, token.sub);
    }
  }

  lemma NewTokenByThirdParty(cfg: Config, s: AccountState, step: AccountStep, token: Jwt)
    requires UsersOk(s.users) && token.kind != MfaPendingToken && step.DoOAuth?
    requires token in AccountRequest(cfg, s, step).0.issued && token !in s.issued
    ensures Authenticates(cfg, s, step, token.sub)
  {
    OAuthExactly(s.users, step.provider, step.providerId, step.email, step.user, token.sub);
  }

  lemma NewToken(cfg: Config, s: AccountState, step: AccountStep, token: Jwt)
    requires UsersOk(s.users) && token.kind != MfaPendingToken
    requires token in AccountRequest(cfg, s, step).0.issued && token !in s.issued
    ensures Authenticates(cfg, s, step, token.sub) || Exchanges(s, step, token.sub)
  {
    if step.DoLogin? || step.DoRegister? {
      NewTokenByPassword(cfg, s, step, token);
    } else if step.DoOAuth? {
      NewTokenByThirdParty(cfg, s, step, token);
    }
  }

  ghost predicate AuthenticatedAt(cfg: Config, steps: seq<Step>, k: nat, u: Id) {
    k < |steps| && steps[k].Account? && Authenticates(cfg, At(cfg, steps, k).Accounts(), steps[k].account, u)
  }

  lemma NoTokenAtFirst(cfg: Config, steps: seq<Step>, token: Jwt)
    ensures token !in At(cfg, steps, 0).issued
  {
  }

  lemma TokenIssuedAt(cfg: Config, steps: seq<Step>, n: nat, token: Jwt)
    requires n < |steps| && token.kind != MfaPendingToken
    requires token in At(cfg, steps, n + 1).issued && token !in At(cfg, steps, n).issued
    ensures steps[n].Account?
    ensures AuthenticatedAt(cfg, steps, n, token.sub)
            || Exchanges(At(cfg, steps, n).Accounts(), steps[n].account, token.sub)
  {
    AtNext(cfg, steps, n);
    assert UsersOk(At(cfg, steps, n).db.users) by { ReachableStoreOk(cfg, steps[..n]); }
    NewToken(cfg, At(cfg, steps, n).Accounts(), steps[n].account, token);
  }

  /** A token in circulation at some point of a run is for an account that has been
      authenticated before, however many refreshes lie in between. */
  lemma {:induction false} EveryTokenGoesBackToAuthentication(cfg: Config, steps: seq<Step>, n: nat, token: Jwt)
    requires n <= |steps| && token in At(cfg, steps, n).issued && token.kind != MfaPendingToken
    ensures exists k: nat :: k < n && AuthenticatedAt(cfg, steps, k, token.sub)
  {
    if n == 0 {
      NoTokenAtFirst(cfg, steps, token);
    } else if token in At(cfg, steps, n - 1).issued {
      EveryTokenGoesBackToAuthentication(cfg, steps, n - 1, token);
    } else {
      TokenIssuedAt(cfg, steps, n - 1, token);
      if !AuthenticatedAt(cfg, steps, n - 1, token.sub) {
        EveryTokenGoesBackToAuthentication(cfg, steps, n - 1, steps[n - 1].account.token);
      }
    }
  }

  // ── Deactivated accounts ──────────────────────────────────────────

  predicate HandsOutPair(reply: Reply, u: Id) {
    reply.Pair? && reply.access.sub == u && reply.refresh.sub == u
  }

  lemma DeactivatedReply(cfg: Config, s: AccountState, step: AccountStep, u: Id)
    requires UsersOk(s.users) && u in s.users && !s.users[u].isActive
    ensures HandsOutPair(AccountRequest(cfg, s, step).1, u) <==>
            step.DoOAuth? && Resolves(s.users, step.provider, step.providerId, step.email, step.user, u)
  {
    if step.DoOAuth? {
      OAuthExactly(s.users, step.provider, step.providerId, step.email, step.user, u);
    }
  }

  lemma DeactivatedToken(cfg: Config, s: AccountState, step: AccountStep, token: Jwt)
    requires token.sub in s.users && !s.users[token.sub].isActive && token.kind != MfaPendingToken
    requires token in AccountRequest(cfg, s, step).0.issued && token !in s.issued
    ensures HandsOutPair(AccountRequest(cfg, s, step).1, token.sub)
  {
  }

  /** While an account is deactivated, exactly the third-party logins that resolve to it
      hand out a token pair for it: passwords, second factors and refresh tokens are
      refused. */
  lemma DeactivatedAccountsExactly(cfg: Config, steps: seq<Step>, n: nat, u: Id)
    requires n < |steps| && u in At(cfg, steps, n).db.users && !At(cfg, steps, n).db.users[u].isActive
    ensures steps[n].Account?
            && HandsOutPair(AccountRequest(cfg, At(cfg, steps, n).Accounts(), steps[n].account).1, u) <==>
            ResolvesTo(cfg, steps, n, u)
  {
    if steps[n].Account? {
      assert UsersOk(At(cfg, steps, n).db.users) by { ReachableStoreOk(cfg, steps[..n]); }
      DeactivatedReply(cfg, At(cfg, steps, n).Accounts(), steps[n].account, u);
    }
  }

  /** Nor does any other request sign an access or refresh token for it. */
  lemma DeactivatedTokensComeFromOAuth(cfg: Config, steps: seq<Step>, n: nat, token: Jwt)
    requires n < |steps| && token.kind != MfaPendingToken
    requires token in At(cfg, steps, n + 1).issued && token !in At(cfg, steps, n).issued
    requires token.sub in At(cfg, steps, n).db.users && !At(cfg, steps, n).db.users[token.sub].isActive
    ensures ResolvesTo(cfg, steps, n, token.sub)
  {
    AtNext(cfg, steps, n);
    DeactivatedToken(cfg, At(cfg, steps, n).Accounts(), steps[n].account, token);
    DeactivatedAccountsExactly(cfg, steps, n, token.sub);
  }
}
