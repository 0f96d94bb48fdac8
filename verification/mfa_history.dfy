/** Second factors over whole runs: which secrets are in force, and what a token
    pair obtained with one rests on. */
module MfaHistory {
  import opened Schema
  import opened Sessions
  import opened System
  import opened Integrity
  import opened Reachable
  import opened AccountGuards
  import opened AccountHistory
  import opened Issuance

  // ── Enabling ──────────────────────────────────────────────────────

  /** The factor in force, if any. */
  function Factor(users: Users, u: Id): Option<string> {
    if u in users && users[u].mfaEnabled then users[u].mfaSecret else None
  }

  /** At step `k` the user proved possession of this secret, which was stored then. */
  ghost predicate ConfirmedAt(cfg: Config, steps: seq<Step>, k: nat, u: Id, secret: string) {
    && k < |steps| && steps[k].Account? && steps[k].account.DoVerifyMfa? && steps[k].account.user == u
    && u in At(cfg, steps, k).db.users
    && At(cfg, steps, k).db.users[u].mfaSecret == Some(secret)
    && cfg.totp(secret, steps[k].account.code, steps[k].account.now)
  }

  /** A factor comes into force only by confirming it, and stays the same until then. */
  lemma FactorStep(cfg: Config, s: AccountState, step: AccountStep, u: Id)
    requires Factor(AccountRequest(cfg, s, step).0.users, u).Some?
    ensures var secret := Factor(AccountRequest(cfg, s, step).0.users, u);
            || Factor(s.users, u) == secret
            || (step.DoVerifyMfa? && step.user == u && u in s.users && s.users[u].mfaSecret == secret
                && cfg.totp(secret.value, step.code, step.now))
  {
    if OnOwnRow(step) {
      OwnRowSettles(cfg, s, step);
    } else if OnTokensOnly(step) {
      OthersKeepUsers(cfg, s, step);
    }
  }

  lemma NextFactor(cfg: Config, w: World, step: Step, u: Id)
    requires Factor(Next(cfg, w, step).db.users, u).Some?
    ensures var secret := Factor(Next(cfg, w, step).db.users, u);
            || Factor(w.db.users, u) == secret
            || (step.Account? && step.account.DoVerifyMfa? && step.account.user == u
                && u in w.db.users && w.db.users[u].mfaSecret == secret
                && cfg.totp(secret.value, step.account.code, step.account.now))
  {
    match step
    case Account(s) => FactorStep(cfg, w.Accounts(), s, u);
    case Org(s) => OrgRequestFrame(w.db, s);
    case Bill(s) => BillingRequestFrame(cfg, w.db, s);
  }

  ghost predicate InForceAt(cfg: Config, steps: seq<Step>, m: nat, u: Id, secret: string)
    requires m <= |steps|
  {
    Factor(At(cfg, steps, m).db.users, u) == Some(secret)
  }

  /** Confirmed at step `k`, and not in force before, this secret has been since. */
  ghost predicate InForceSince(cfg: Config, steps: seq<Step>, n: nat, k: nat, u: Id, secret: string)
    requires n <= |steps|
  {
    && k < n && ConfirmedAt(cfg, steps, k, u, secret) && !InForceAt(cfg, steps, k, u, secret)
    && forall m :: k < m <= n ==> InForceAt(cfg, steps, m, u, secret)
  }

  lemma StillInForce(cfg: Config, steps: seq<Step>, n: nat, k: nat, u: Id, secret: string)
    requires 0 < n <= |steps| && InForceSince(cfg, steps, n - 1, k, u, secret)
    requires InForceAt(cfg, steps, n, u, secret)
    ensures InForceSince(cfg, steps, n, k, u, secret)
  {
    forall m | k < m <= n ensures InForceAt(cfg, steps, m, u, secret) {
      assert m <= n - 1 || m == n;
    }
  }

  lemma {:induction false} FactorWasConfirmed(cfg: Config, steps: seq<Step>, n: nat, u: Id, secret: string)
    requires n <= |steps| && InForceAt(cfg, steps, n, u, secret)
    ensures exists k: nat :: InForceSince(cfg, steps, n, k, u, secret)
  {
    assert steps[..0] == [];
    if n > 0 {
      AtNext(cfg, steps, n - 1);
      NextFactor(cfg, At(cfg, steps, n - 1), steps[n - 1], u);
      if InForceAt(cfg, steps, n - 1, u, secret) {
        FactorWasConfirmed(cfg, steps, n - 1, u, secret);
        var k: nat :| InForceSince(cfg, steps, n - 1, k, u, secret);
        StillInForce(cfg, steps, n, k, u, secret);
      } else {
        assert InForceSince(cfg, steps, n, n - 1, u, secret);
      }
    }
  }

  /** An account with MFA enabled has a stored, non-empty secret; a code was accepted
      for that very secret, and it has been in force ever since. */
  lemma EnabledMeansConfirmed(cfg: Config, steps: seq<Step>, n: nat, u: Id)
    requires n <= |steps|
    requires u in At(cfg, steps, n).db.users && At(cfg, steps, n).db.users[u].mfaEnabled
    ensures var secret := At(cfg, steps, n).db.users[u].mfaSecret;
            && secret.Some? && secret.value != ""
            && exists k: nat :: InForceSince(cfg, steps, n, k, u, secret.value)
  {
    assert MfaHasSecret(At(cfg, steps, n).db.users) by {
      ReachableStoreOk(cfg, steps[..n]);
    }
    FactorWasConfirmed(cfg, steps, n, u, At(cfg, steps, n).db.users[u].mfaSecret.value);
  }

  // ── Disabling ─────────────────────────────────────────────────────

  /** What the profiles say of the factor in force. */
  lemma FactorInProfile(users: Users, u: Id)
    ensures var p := ProfileOf(users, u);
            Factor(users, u) == if p.Some? && p.value.mfaEnabled then p.value.mfaSecret else None
  {
  }

  lemma FactorEnds(cfg: Config, users: Users, step: AccountStep, after: Users, u: Id)
    requires UsersOk(users) && Factor(users, u).Some? && ProfileWrites(cfg, users, step, after, u)
    ensures Factor(after, u) != Factor(users, u) <==> Disables(cfg, users, step, u)
  {
    FactorInProfile(after, u);
  }

  /** A factor in force ends, or changes, by exactly these requests: the holder of the
      account, which is active, presents a code of that factor in order to disable it. */
  lemma FactorEndsExactly(cfg: Config, s: AccountState, step: AccountStep, u: Id)
    requires UsersOk(s.users) && Factor(s.users, u).Some?
    ensures Factor(AccountRequest(cfg, s, step).0.users, u) != Factor(s.users, u) <==>
            && step.DoDisableMfa? && step.user == u && IsActive(s.users, u)
            && cfg.totp(Factor(s.users, u).value, step.code, step.now)
  {
    RequestProfile(cfg, s, step, u);
    FactorEnds(cfg, s.users, step, AccountRequest(cfg, s, step).0.users, u);
  }

  lemma NextKeepsFactor(cfg: Config, w: World, step: Step, u: Id)
    requires UsersOk(w.db.users) && Factor(w.db.users, u).Some?
    ensures Factor(Next(cfg, w, step).db.users, u) != Factor(w.db.users, u) <==>
            step.Account? && Disables(cfg, w.db.users, step.account, u)
  {
    match step
    case Account(s) => FactorEndsExactly(cfg, w.Accounts(), s, u);
    case Org(s) => OrgRequestFrame(w.db, s);
    case Bill(s) => BillingRequestFrame(cfg, w.db, s);
  }

  /** At step `m` the secret is in force and is disabled with a code of its own. */
  ghost predicate DisabledAt(cfg: Config, steps: seq<Step>, m: nat, u: Id, secret: string) {
    && m < |steps| && InForceAt(cfg, steps, m, u, secret) && !InForceAt(cfg, steps, m + 1, u, secret)
    && steps[m].Account? && Disables(cfg, At(cfg, steps, m).db.users, steps[m].account, u)
  }

  lemma DisablingStep(cfg: Config, steps: seq<Step>, m: nat, u: Id, secret: string)
    requires m < |steps| && InForceAt(cfg, steps, m, u, secret) && !InForceAt(cfg, steps, m + 1, u, secret)
    ensures DisabledAt(cfg, steps, m, u, secret)
  {
    AtNext(cfg, steps, m);
    assert UsersOk(At(cfg, steps, m).db.users) by { ReachableStoreOk(cfg, steps[..m]); }
    NextKeepsFactor(cfg, At(cfg, steps, m), steps[m], u);
  }

  /** A factor in force at one point of a run and not at a later one has been disabled in
      between, with a code of its own. */
  lemma OnlyItsCodeEndsAFactor(cfg: Config, steps: seq<Step>, j: nat, k: nat, u: Id, secret: string)
    requires j < k <= |steps|
    requires InForceAt(cfg, steps, j, u, secret) && !InForceAt(cfg, steps, k, u, secret)
    ensures exists m: nat :: j <= m < k && DisabledAt(cfg, steps, m, u, secret)
  {
    var flags := seq(|steps| + 1, m requires 0 <= m <= |steps| => InForceAt(cfg, steps, m, u, secret));
    var m := TurningPoint(flags, j, k);
    DisablingStep(cfg, steps, m, u, secret);
  }

  // ── Logging in ────────────────────────────────────────────────────

  /** The ways to a new access or refresh token of an account with a factor in force. */
  predicate PassesFactor(cfg: Config, s: AccountState, step: AccountStep, u: Id) {
    match step
    case DoValidateMfa(pending, code, now) =>
      PassesSecondStep(cfg, s, pending, code, now, u)
    case DoOAuth(provider, providerId, email, user, _) =>
      Resolves(s.users, provider, providerId, email, user, u)
    case DoRefresh(token, _, _) => token in s.issued && token.kind == RefreshToken && token.sub == u
    case _ => false
  }

  /** While a factor is in force for an account, no request signs an access or refresh
      token for it but the second step with a code of that factor, a third-party login
      that resolves to it, and the exchange of one of its refresh tokens. In particular
      the password alone never does. */
  lemma FactorGuardsTokens(cfg: Config, steps: seq<Step>, n: nat, token: Jwt)
    requires n < |steps| && token.kind != MfaPendingToken
    requires token in At(cfg, steps, n + 1).issued && token !in At(cfg, steps, n).issued
    requires Factor(At(cfg, steps, n).db.users, token.sub).Some?
    ensures steps[n].Account? && PassesFactor(cfg, At(cfg, steps, n).Accounts(), steps[n].account, token.sub)
  {
    TokenIssuedAt(cfg, steps, n, token);
  }

  /** At step `k` the account's password was accepted while MFA was enabled, and this
      pending token was the answer. */
  ghost predicate PendingSince(cfg: Config, steps: seq<Step>, k: nat, token: Jwt) {
    && k < |steps| && steps[k].Account? && steps[k].account.DoLogin?
    && var s, users := steps[k].account, At(cfg, steps, k).db.users;
       && LogsIn(users, s.email, s.password, token.sub) && users[token.sub].mfaEnabled
       && token == Jwt(token.sub, MfaPendingToken, s.now.Floor, (s.now + 300.0).Floor)
  }

  lemma OnlyLoginSignsPending(cfg: Config, s: AccountState, step: AccountStep, token: Jwt)
    requires token.kind == MfaPendingToken
    requires token in AccountRequest(cfg, s, step).0.issued && token !in s.issued
    ensures step.DoLogin?
  {
  }

  lemma PendingTokenStep(cfg: Config, s: AccountState, step: AccountStep, token: Jwt)
    requires UsersOk(s.users) && token.kind == MfaPendingToken
    requires token in AccountRequest(cfg, s, step).0.issued && token !in s.issued
    ensures && step.DoLogin? && LogsIn(s.users, step.email, step.password, token.sub)
            && s.users[token.sub].mfaEnabled
            && token == Jwt(token.sub, MfaPendingToken, step.now.Floor, (step.now + 300.0).Floor)
  {
    OnlyLoginSignsPending(cfg, s, step, token);
    LoginExactly(s.users, step.email, step.password, token.sub);
  }

  lemma PendingIssuedAt(cfg: Config, steps: seq<Step>, n: nat, token: Jwt)
    requires n < |steps| && token.kind == MfaPendingToken
    requires token in At(cfg, steps, n + 1).issued && token !in At(cfg, steps, n).issued
    ensures PendingSince(cfg, steps, n, token)
  {
    AtNext(cfg, steps, n);
    assert UsersOk(At(cfg, steps, n).db.users) by { ReachableStoreOk(cfg, steps[..n]); }
    PendingTokenStep(cfg, At(cfg, steps, n).Accounts(), steps[n].account, token);
  }

  lemma {:induction false} PendingTokensComeFromLogin(cfg: Config, steps: seq<Step>, n: nat, token: Jwt)
    requires n <= |steps| && token in At(cfg, steps, n).issued && token.kind == MfaPendingToken
    ensures exists k: nat :: k < n && PendingSince(cfg, steps, k, token)
  {
    if n == 0 {
      NoTokenAtFirst(cfg, steps, token);
    } else if token in At(cfg, steps, n - 1).issued {
      PendingTokensComeFromLogin(cfg, steps, n - 1, token);
    } else {
      PendingIssuedAt(cfg, steps, n - 1, token);
    }
  }

  /** Whoever gets a token pair from the second factor step has, less than 300 seconds
      (and the decoder's leeway) before, had the password accepted, and presents now a
      code valid for the secret in force, one that was itself confirmed earlier. */
  lemma ValidatedPairRests(cfg: Config, steps: seq<Step>, n: nat, token: Jwt, code: string, now: Time)
    requires n <= |steps|
    requires AccountRequest(cfg, At(cfg, steps, n).Accounts(), DoValidateMfa(token, code, now)).1.Pair?
    ensures var u, secret := token.sub, Factor(At(cfg, steps, n).db.users, token.sub);
            && secret.Some? && cfg.totp(secret.value, code, now)
            && (exists k: nat :: k < n && PendingSince(cfg, steps, k, token)
                                 && now < steps[k].account.now + 300.0 + cfg.leeway)
            && (exists k: nat :: InForceSince(cfg, steps, n, k, u, secret.value))
  {
    var u := token.sub;
    PendingTokensComeFromLogin(cfg, steps, n, token);
    EnabledMeansConfirmed(cfg, steps, n, u);
    var k: nat :| k < n && PendingSince(cfg, steps, k, token);
    assert token.exp as real <= steps[k].account.now + 300.0;
  }
}
