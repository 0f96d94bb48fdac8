/** What it takes to become a verified account, over whole runs, and that only such
    accounts found organizations. */
module Verification {
  import opened Schema
  import opened Accounts
  import opened Sessions
  import opened System
  import opened Integrity
  import opened AccountGuards
  import opened Reachable
  import opened Authority
  import Credentials

  // ── What one request does ─────────────────────────────────────────

  /** The request proves control of the address: a third-party login that resolves
      to the account, or its verification token, when the welcome mail goes out. */
  ghost predicate Proves(users: Users, step: AccountStep, u: Id) {
    match step
    case DoOAuth(provider, providerId, email, user, _) => Resolves(users, provider, providerId, email, user, u)
    case DoVerifyEmail(rawToken, mailSent) => mailSent && OnlyHoldsVerification(users, rawToken, u)
    case _ => false
  }

  predicate MakesAccount(users: Users, step: AccountStep, u: Id) {
    step.DoRegister? && Registers(users, step.email, step.user, u)
  }

  predicate Verified(users: Users, u: Id) {
    u in users && users[u].isVerified
  }

  function TokenOf(users: Users, u: Id): Option<TokenHash> {
    if u in users then users[u].verificationToken else None
  }

  ghost predicate LinkedVerified(users: Users) {
    forall u :: u in users && users[u].providerId.Some? ==> users[u].isVerified
  }

  /** Between two user tables exactly the step's effect on verification is made. */
  ghost predicate VerificationWrites(users: Users, step: AccountStep, after: Users, u: Id) {
    && (Verified(after, u) <==> Verified(users, u) || Proves(users, step, u))
    && TokenOf(after, u) == (if MakesAccount(users, step, u) then Some(TokenHash(step.rawToken))
                             else if step.DoVerifyEmail? && Proves(users, step, u) then None
                             else TokenOf(users, u))
  }

  lemma OwnRowVerifies(cfg: Config, s: AccountState, step: AccountStep, u: Id)
    requires OnOwnRow(step) && LinkedVerified(s.users)
    ensures var after := AccountRequest(cfg, s, step).0.users;
            LinkedVerified(after) && VerificationWrites(s.users, step, after, u)
  {
    OwnRowSettles(cfg, s, step);
  }

  lemma OAuthVerifies(cfg: Config, s: AccountState, step: AccountStep, u: Id)
    requires step.DoOAuth? && LinkedVerified(s.users) && UsersOk(s.users)
    ensures var after := AccountRequest(cfg, s, step).0.users;
            LinkedVerified(after) && VerificationWrites(s.users, step, after, u)
  {
    OAuthExactly(s.users, step.provider, step.providerId, step.email, step.user, u);
  }

  lemma RegisterVerifies(cfg: Config, s: AccountState, step: AccountStep, u: Id)
    requires step.DoRegister? && LinkedVerified(s.users) && UsersOk(s.users)
    ensures var after := AccountRequest(cfg, s, step).0.users;
            LinkedVerified(after) && VerificationWrites(s.users, step, after, u)
  {
    RegisterExactly(s.users, step.email, step.password, step.user, step.rawToken, u);
  }

  lemma OneRowVerifies(cfg: Config, s: AccountState, step: AccountStep, u: Id)
    requires step.DoVerifyEmail? || step.DoReset? || step.DoRequestReset? || step.DoSetActive?
    requires LinkedVerified(s.users)
    ensures var after := AccountRequest(cfg, s, step).0.users;
            LinkedVerified(after) && VerificationWrites(s.users, step, after, u)
  {
    if step.DoVerifyEmail? { VerifyEmailExactly(s.users, step.rawToken, step.mailSent, u); }
  }

  lemma RequestVerifies(cfg: Config, s: AccountState, step: AccountStep, u: Id)
    requires LinkedVerified(s.users) && UsersOk(s.users)
    ensures var after := AccountRequest(cfg, s, step).0.users;
            LinkedVerified(after) && VerificationWrites(s.users, step, after, u)
  {
    if OnOwnRow(step) {
      OwnRowVerifies(cfg, s, step, u);
    } else if step.DoOAuth? {
      OAuthVerifies(cfg, s, step, u);
    } else if step.DoRegister? {
      RegisterVerifies(cfg, s, step, u);
    } else if OnTokensOnly(step) {
      OthersKeepUsers(cfg, s, step);
    } else {
      OneRowVerifies(cfg, s, step, u);
    }
  }

  // ── Whole runs ────────────────────────────────────────────────────

  ghost predicate ProvesAt(cfg: Config, steps: seq<Step>, k: nat, u: Id) {
    k < |steps| && steps[k].Account? && Proves(At(cfg, steps, k).db.users, steps[k].account, u)
  }

  /** The token of the account's registration, until it is used. */
  ghost function LiveVerification(cfg: Config, steps: seq<Step>, n: nat, u: Id): Option<string>
    requires n <= |steps|
  {
    if n == 0 then None
    else
      var users, last := At(cfg, steps, n - 1).db.users, steps[n - 1];
      if last.Account? && MakesAccount(users, last.account, u) then Some(last.account.rawToken)
      else if last.Account? && last.account.DoVerifyEmail? && Proves(users, last.account, u) then None
      else LiveVerification(cfg, steps, n - 1, u)
  }

  ghost predicate Proved(cfg: Config, steps: seq<Step>, n: nat, u: Id) {
    exists k: nat :: k < n && ProvesAt(cfg, steps, k, u)
  }

  lemma ProvedSplits(cfg: Config, steps: seq<Step>, n: nat, u: Id)
    ensures Proved(cfg, steps, n + 1, u) <==> Proved(cfg, steps, n, u) || ProvesAt(cfg, steps, n, u)
  {
  }

  lemma NextVerifies(cfg: Config, w: World, step: Step, u: Id)
    requires LinkedVerified(w.db.users) && UsersOk(w.db.users)
    ensures var after := Next(cfg, w, step).db.users;
            LinkedVerified(after) && if step.Account? then VerificationWrites(w.db.users, step.account, after, u)
                                     else after == w.db.users
  {
    match step
    case Account(s) => RequestVerifies(cfg, w.Accounts(), s, u);
    case Org(s) => OrgRequestFrame(w.db, s);
    case Bill(s) => BillingRequestFrame(cfg, w.db, s);
  }

  /** The stored flag and token of the account are those its history calls for. */
  ghost predicate Matches(cfg: Config, steps: seq<Step>, n: nat, u: Id)
    requires n <= |steps|
  {
    var users := At(cfg, steps, n).db.users;
    && LinkedVerified(users)
    && (Verified(users, u) <==> Proved(cfg, steps, n, u))
    && TokenOf(users, u) == Credentials.HashedToken(LiveVerification(cfg, steps, n, u))
  }

  lemma MatchesNext(cfg: Config, steps: seq<Step>, n: nat, u: Id)
    requires n < |steps| && Matches(cfg, steps, n, u)
    ensures Matches(cfg, steps, n + 1, u)
  {
    AtNext(cfg, steps, n);
    assert UsersOk(At(cfg, steps, n).db.users) by { ReachableStoreOk(cfg, steps[..n]); }
    NextVerifies(cfg, At(cfg, steps, n), steps[n], u);
    ProvedSplits(cfg, steps, n, u);
  }

  /** At every point of every run an account is verified exactly when a third-party
      login has resolved to it or its verification token has been presented, and the
      token it stores is that of its registration until then. */
  lemma {:induction false} VerifiedMeansProved(cfg: Config, steps: seq<Step>, n: nat, u: Id)
    requires n <= |steps|
    ensures Matches(cfg, steps, n, u)
  {
    if n == 0 {
      assert steps[..0] == [];
    } else {
      VerifiedMeansProved(cfg, steps, n - 1, u);
      MatchesNext(cfg, steps, n - 1, u);
    }
  }

  /** The token is live for this account and for no other. */
  ghost predicate OnlyLive(cfg: Config, steps: seq<Step>, n: nat, rawToken: string, u: Id)
    requires n <= |steps|
  {
    forall v :: LiveVerification(cfg, steps, n, v) == Some(rawToken) <==> v == u
  }

  /** Presenting a token verifies an account exactly when the token is live for it and
      for no other, and the welcome mail goes out. */
  lemma VerifyEmailExact(cfg: Config, steps: seq<Step>, n: nat, rawToken: string, mailSent: bool, u: Id)
    requires n <= |steps|
    ensures VerifyEmail(At(cfg, steps, n).db.users, rawToken, mailSent).outcome == Ok(u) <==>
            mailSent && OnlyLive(cfg, steps, n, rawToken, u)
  {
    var users := At(cfg, steps, n).db.users;
    VerifyEmailExactly(users, rawToken, mailSent, u);
    forall v
      ensures HoldsVerification(users, rawToken, v) <==> LiveVerification(cfg, steps, n, v) == Some(rawToken)
    {
      LiveMeansStored(cfg, steps, n, rawToken, v);
    }
  }

  lemma LiveMeansStored(cfg: Config, steps: seq<Step>, n: nat, rawToken: string, v: Id)
    requires n <= |steps|
    ensures HoldsVerification(At(cfg, steps, n).db.users, rawToken, v) <==>
            LiveVerification(cfg, steps, n, v) == Some(rawToken)
  {
    VerifiedMeansProved(cfg, steps, n, v);
  }

  lemma FounderHasProvedAddress(cfg: Config, steps: seq<Step>, k: nat, org: Id)
    requires k < |steps|
    requires org !in At(cfg, steps, k).db.orgs && org in At(cfg, steps, k + 1).db.orgs
    ensures exists user :: FoundedAt(cfg, steps, k, user, org) && Proved(cfg, steps, k, user)
  {
    var w := At(cfg, steps, k);
    AtNext(cfg, steps, k);
    if !steps[k].Org? {
      OthersKeepMembers(cfg, w, steps[k]);
      assert false;
    } else {
      CreateFounds(cfg, steps, k, org);
      OnlyCreateAddsOrgs(w.db, steps[k].org, org);
      VerifiedMeansProved(cfg, steps, k, steps[k].org.actor);
    }
  }

  ghost predicate ExistsAt(cfg: Config, steps: seq<Step>, m: nat, org: Id)
    requires m <= |steps|
  {
    org in At(cfg, steps, m).db.orgs
  }

  ghost predicate ExistedSince(cfg: Config, steps: seq<Step>, n: nat, k: nat, org: Id)
    requires n <= |steps|
  {
    forall m :: k < m <= n ==> ExistsAt(cfg, steps, m, org)
  }

  lemma StillExists(cfg: Config, steps: seq<Step>, n: nat, k: nat, org: Id)
    requires n < |steps| && ExistedSince(cfg, steps, n, k, org) && ExistsAt(cfg, steps, n + 1, org)
    ensures ExistedSince(cfg, steps, n + 1, k, org)
  {
    forall m | k < m <= n + 1 ensures ExistsAt(cfg, steps, m, org) {
      assert m <= n || m == n + 1;
    }
  }

  /** Founded at step `k` by this user, the organization has existed since. */
  ghost predicate FoundedSince(cfg: Config, steps: seq<Step>, n: nat, k: nat, user: Id, org: Id)
    requires n <= |steps|
  {
    k < n && FoundedAt(cfg, steps, k, user, org) && ExistedSince(cfg, steps, n, k, org)
  }

  /** Every organization of every run came into being by a request of a founder, who had
      proved the address before and became its only member, and has existed since. */
  lemma {:induction false} FoundersHaveProvedTheirAddress(cfg: Config, steps: seq<Step>, n: nat, org: Id)
    requires n <= |steps| && ExistsAt(cfg, steps, n, org)
    ensures exists k: nat, user :: FoundedSince(cfg, steps, n, k, user, org) && Proved(cfg, steps, k, user)
  {
    if n == 0 {
      NothingAtFirst(cfg, steps);
    } else if ExistsAt(cfg, steps, n - 1, org) {
      FoundersHaveProvedTheirAddress(cfg, steps, n - 1, org);
      var k: nat, user :| FoundedSince(cfg, steps, n - 1, k, user, org) && Proved(cfg, steps, k, user);
      StillExists(cfg, steps, n - 1, k, org);
    } else {
      FounderHasProvedAddress(cfg, steps, n - 1, org);
      var user :| FoundedAt(cfg, steps, n - 1, user, org) && Proved(cfg, steps, n - 1, user);
      assert ExistedSince(cfg, steps, n, n - 1, org);
    }
  }
}
