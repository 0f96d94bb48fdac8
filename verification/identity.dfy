/** Which account a third-party login resolves to. */
module Identity {
  import opened Schema
  import opened Text
  import opened Accounts
  import opened Sessions
  import opened System
  import opened Integrity
  import opened AccountGuards
  import opened Reachable

  /** What each third-party identity presents as its address, case and outer blanks
      aside. */
  type Directory = (Provider, string) -> string

  /** Every third-party login of the run presents the address of its identity. */
  ghost predicate Faithful(directory: Directory, steps: seq<Step>) {
    forall k :: 0 <= k < |steps| ==> FaithfulStep(directory, steps[k])
  }

  predicate FaithfulStep(directory: Directory, step: Step) {
    step.Account? && step.account.DoOAuth? ==>
      Normalize(step.account.email) == Normalize(directory(step.account.provider, step.account.providerId))
  }

  /** Every linked account has the address its identity presents. */
  ghost predicate LinkedByAddress(directory: Directory, users: Users) {
    forall u :: u in users && users[u].providerId.Some? ==>
      users[u].email == Normalize(directory(users[u].provider, users[u].providerId.value))
  }

  // ── One login ─────────────────────────────────────────────────────

  /** A successful login resolves to an account with the presented address exactly
      when the identity is not already linked to an account with another one. */
  lemma OAuthAddressExact(users: Users, provider: Provider, providerId: string, email: string, user: Id)
    requires UsersOk(users)
    ensures var a := OAuthLogin(users, provider, providerId, email, user);
            && (a.outcome.Ok? ==> a.outcome.value in a.state)
            && (a.outcome.Err? ==> a.outcome.error == Integrity && user in users)
            && (a.outcome.Ok? ==>
                  (a.state[a.outcome.value].email == Normalize(email) <==>
                   forall u :: u in users && users[u].provider == provider && users[u].providerId == Some(providerId)
                               ==> users[u].email == Normalize(email)))
  {
    var linked := OneOrNone(WithOAuth(users, provider, providerId));
    IdentityLookup(users, provider, providerId, if linked.OneRow? then linked.id else "");
    forall u | u in users && users[u].provider == provider && users[u].providerId == Some(providerId)
      ensures linked == OneRow(u)
    {
      IdentityLookup(users, provider, providerId, u);
    }
    if linked.NoRow? {
      var holders := OneOrNone(WithEmail(users, email));
      AddressLookup(users, email, if holders.OneRow? then holders.id else "");
      assert holders.NoRow? ==>
          forall v :: v in users && users[v].email == Normalize(email) ==> v in WithEmail(users, email);
    }
  }

  // ── Whole runs ────────────────────────────────────────────────────

  lemma OAuthLinks(directory: Directory, users: Users, provider: Provider, providerId: string, email: string, user: Id)
    requires UsersOk(users) && LinkedByAddress(directory, users)
    requires Normalize(email) == Normalize(directory(provider, providerId))
    ensures LinkedByAddress(directory, Settle(users, OAuthLogin(users, provider, providerId, email, user)))
  {
  }

  /** Requests other than third-party logins link nothing. */
  ghost predicate LinksUnchanged(before: Users, after: Users) {
    forall u :: u in after && after[u].providerId.Some? ==>
      u in before && after[u].email == before[u].email
      && after[u].provider == before[u].provider && after[u].providerId == before[u].providerId
  }

  lemma SavingRowLinksNothing(users: Users, u: Id, row: User)
    requires u in users && row.email == users[u].email
    requires row.provider == users[u].provider && row.providerId == users[u].providerId
    ensures LinksUnchanged(users, users[u := row])
  {
  }

  lemma OwnRowLinksNothing(cfg: Config, s: AccountState, step: AccountStep)
    requires OnOwnRow(step)
    ensures LinksUnchanged(s.users, AccountRequest(cfg, s, step).0.users)
  {
    OwnRowSettles(cfg, s, step);
    if CurrentUser(s.users, step.user) {
      var a := OwnRequest(cfg, s.users, step);
      SavingRowLinksNothing(s.users, step.user, a.state[step.user]);
      assert a.state == s.users[step.user := a.state[step.user]];
    }
  }

  lemma TokenLinksNothing(cfg: Config, s: AccountState, step: AccountStep)
    requires step.DoVerifyEmail? || step.DoReset?
    ensures LinksUnchanged(s.users, AccountRequest(cfg, s, step).0.users)
  {
  }

  lemma RequestResetLinksNothing(cfg: Config, s: AccountState, step: AccountStep)
    requires step.DoRequestReset?
    ensures LinksUnchanged(s.users, AccountRequest(cfg, s, step).0.users)
  {
  }

  lemma SetActiveLinksNothing(cfg: Config, s: AccountState, step: AccountStep)
    requires step.DoSetActive?
    ensures LinksUnchanged(s.users, AccountRequest(cfg, s, step).0.users)
  {
  }

  lemma RegisterLinksNothing(cfg: Config, s: AccountState, step: AccountStep)
    requires step.DoRegister?
    ensures LinksUnchanged(s.users, AccountRequest(cfg, s, step).0.users)
  {
  }

  lemma OtherRequestsLinkNothing(cfg: Config, s: AccountState, step: AccountStep)
    requires !step.DoOAuth?
    ensures LinksUnchanged(s.users, AccountRequest(cfg, s, step).0.users)
  {
    if OnOwnRow(step) {
      OwnRowLinksNothing(cfg, s, step);
    } else if step.DoRegister? {
      RegisterLinksNothing(cfg, s, step);
    } else if OnTokensOnly(step) {
      OthersKeepUsers(cfg, s, step);
    } else if step.DoVerifyEmail? || step.DoReset? {
      TokenLinksNothing(cfg, s, step);
    } else if step.DoRequestReset? {
      RequestResetLinksNothing(cfg, s, step);
    } else {
      SetActiveLinksNothing(cfg, s, step);
    }
  }

  lemma AccountLinksByAddress(cfg: Config, directory: Directory, s: AccountState, step: AccountStep)
    requires UsersOk(s.users) && LinkedByAddress(directory, s.users) && FaithfulStep(directory, Account(step))
    ensures LinkedByAddress(directory, AccountRequest(cfg, s, step).0.users)
  {
    if step.DoOAuth? {
      OAuthLinks(directory, s.users, step.provider, step.providerId, step.email, step.user);
    } else {
      OtherRequestsLinkNothing(cfg, s, step);
    }
  }

  lemma {:induction false} RunLinksByAddress(cfg: Config, directory: Directory, steps: seq<Step>)
    requires Faithful(directory, steps)
    ensures LinkedByAddress(directory, Run(cfg, EMPTY, steps).db.users)
  {
    if steps != [] {
      var init, last := steps[..|steps| - 1], steps[|steps| - 1];
      RunLinksByAddress(cfg, directory, init);
      assert UsersOk(Run(cfg, EMPTY, init).db.users) by { ReachableStoreOk(cfg, init); }
      assert FaithfulStep(directory, last);
      NextLinksByAddress(cfg, directory, Run(cfg, EMPTY, init), last);
    }
  }

  lemma NextLinksByAddress(cfg: Config, directory: Directory, w: World, step: Step)
    requires UsersOk(w.db.users) && LinkedByAddress(directory, w.db.users) && FaithfulStep(directory, step)
    ensures LinkedByAddress(directory, Next(cfg, w, step).db.users)
  {
    match step
    case Account(s) => AccountLinksByAddress(cfg, directory, w.Accounts(), s);
    case Org(s) => OrgRequestFrame(w.db, s);
    case Bill(s) => BillingRequestFrame(cfg, w.db, s);
  }

  /** The login at step `k` succeeds and resolves to this account. */
  ghost predicate ResolvesTo(cfg: Config, steps: seq<Step>, k: nat, u: Id) {
    && k < |steps| && steps[k].Account? && steps[k].account.DoOAuth?
    && var s := steps[k].account;
       Resolves(At(cfg, steps, k).db.users, s.provider, s.providerId, s.email, s.user, u)
  }

  lemma ResolvesByAddress(cfg: Config, directory: Directory, steps: seq<Step>, k: nat, u: Id)
    requires Faithful(directory, steps) && ResolvesTo(cfg, steps, k, u)
    ensures var after := At(cfg, steps, k + 1).db.users;
            u in after && after[u].email == Normalize(steps[k].account.email)
  {
    var users, s := At(cfg, steps, k).db.users, steps[k].account;
    AtNext(cfg, steps, k);
    ReachableStoreOk(cfg, steps[..k]);
    RunLinksByAddress(cfg, directory, steps[..k]);
    assert FaithfulStep(directory, steps[k]);
    OAuthAddressExact(users, s.provider, s.providerId, s.email, s.user);
    OAuthExactly(users, s.provider, s.providerId, s.email, s.user, u);
  }

  lemma NextKeepsAccount(cfg: Config, w: World, step: Step, u: Id)
    requires UsersOk(w.db.users) && u in w.db.users
    ensures var after := Next(cfg, w, step).db.users; u in after && after[u].email == w.db.users[u].email
  {
    match step
    case Account(s) => AccountKeepsUsers(cfg, w.Accounts(), s);
    case Org(s) => OrgRequestFrame(w.db, s);
    case Bill(s) => BillingRequestFrame(cfg, w.db, s);
  }

  lemma {:induction false} AccountsPersist(cfg: Config, steps: seq<Step>, j: nat, k: nat, u: Id)
    requires j <= k <= |steps| && u in At(cfg, steps, j).db.users
    ensures u in At(cfg, steps, k).db.users
    ensures At(cfg, steps, k).db.users[u].email == At(cfg, steps, j).db.users[u].email
    decreases k
  {
    if j < k {
      AccountsPersist(cfg, steps, j, k - 1, u);
      StepKeepsAccount(cfg, steps, k - 1, u);
    }
  }

  lemma StepKeepsAccount(cfg: Config, steps: seq<Step>, k: nat, u: Id)
    requires k < |steps| && u in At(cfg, steps, k).db.users
    ensures u in At(cfg, steps, k + 1).db.users
    ensures At(cfg, steps, k + 1).db.users[u].email == At(cfg, steps, k).db.users[u].email
  {
    ReachableStoreOk(cfg, steps[..k]);
    AtNext(cfg, steps, k);
    NextKeepsAccount(cfg, At(cfg, steps, k), steps[k], u);
  }

  /** When every identity always presents the same address, any two third-party
      logins of a run that present one address resolve to one account, through
      whichever providers and whatever happens in between. */
  lemma OneAccountPerAddress(cfg: Config, directory: Directory, steps: seq<Step>, j: nat, k: nat, u: Id, v: Id)
    requires Faithful(directory, steps)
    requires ResolvesTo(cfg, steps, j, u) && ResolvesTo(cfg, steps, k, v)
    requires Normalize(steps[j].account.email) == Normalize(steps[k].account.email)
    ensures u == v
  {
    StillHolds(cfg, directory, steps, j, u);
    StillHolds(cfg, directory, steps, k, v);
    HolderIsUnique(cfg, steps, u, v);
  }

  lemma StillHolds(cfg: Config, directory: Directory, steps: seq<Step>, k: nat, u: Id)
    requires Faithful(directory, steps) && ResolvesTo(cfg, steps, k, u)
    ensures var users := At(cfg, steps, |steps|).db.users;
            u in users && users[u].email == Normalize(steps[k].account.email)
  {
    ResolvesByAddress(cfg, directory, steps, k, u);
    AccountsPersist(cfg, steps, k + 1, |steps|, u);
  }

  lemma HolderIsUnique(cfg: Config, steps: seq<Step>, u: Id, v: Id)
    requires var users := At(cfg, steps, |steps|).db.users;
             u in users && v in users && users[u].email == users[v].email
    ensures u == v
  {
    ReachableStoreOk(cfg, steps[..|steps|]);
  }

  /** An account that already has the presented address, registered locally or
      otherwise, is the one a later third-party login resolves to. */
  lemma LoginJoinsExistingAccount(cfg: Config, directory: Directory, steps: seq<Step>, k: nat, j: nat, u: Id, v: Id)
    requires Faithful(directory, steps) && ResolvesTo(cfg, steps, k, v)
    requires j <= k && u in At(cfg, steps, j).db.users
    requires At(cfg, steps, j).db.users[u].email == Normalize(steps[k].account.email)
    ensures u == v
  {
    ResolvesByAddress(cfg, directory, steps, k, v);
    AccountsPersist(cfg, steps, j, k + 1, u);
    ReachableStoreOk(cfg, steps[..k + 1]);
  }
}
