/** The running application: every request opens a session, authenticates, calls its
    service, and closes the session. Its committed state is always the state that the
    run of the requests served so far reaches. */
module Api {
  import opened Schema
  import opened DatabaseSession
  import opened AuthServices
  import opened BillingServices
  import opened OrganizationServices
  import opened Accounts
  import opened Tokens
  import opened Sessions
  import opened Issuance
  import opened Organizations
  import opened Billing
  import opened System
  import opened Reachable

  // ── Callers ───────────────────────────────────────────────────────

  /** The subject of a valid access token. */
  function Bearer(cfg: Config, issued: set<Jwt>, credentials: Option<Jwt>, now: Time): Outcome<Id> {
    match credentials
    case None => Err(Unauthorized)
    case Some(token) => VerifyToken(cfg, issued, token, AccessToken, now)
  }

  /** The caller is the subject of an access token this deployment signed, presented no
      later than the leeway after its expiry, and nothing else makes one. */
  lemma BearerExactly(cfg: Config, issued: set<Jwt>, credentials: Option<Jwt>, now: Time, user: Id)
    ensures Bearer(cfg, issued, credentials, now) == Ok(user) <==>
            && credentials.Some?
            && var token := credentials.value;
               token in issued && token.kind == AccessToken && token.sub == user && now < token.exp as real + cfg.leeway
    ensures Bearer(cfg, issued, credentials, now).Err? ==> Bearer(cfg, issued, credentials, now) == Err(Unauthorized)
  {
  }

  predicate NeedsCaller(step: Step) {
    Caller(step).Some?
  }

  /** Only webhooks and the endpoints that bring a proof of their own, or need none, are
      open to anybody. */
  lemma OpenRequests(step: Step)
    ensures !NeedsCaller(step) <==>
            match step
            case Org(_) => false
            case Bill(s) => s.DoWebhook?
            case Account(s) =>
              || s.DoRegister? || s.DoLogin? || s.DoRefresh? || s.DoLogout? || s.DoVerifyEmail?
              || s.DoRequestReset? || s.DoReset? || s.DoOAuth? || s.DoValidateMfa?
  {
  }

  /** The request, made by this caller. */
  function ActingAs(step: Step, caller: Id): Step
    requires NeedsCaller(step)
  {
    match step
    case Org(s) => Org(s.(actor := caller))
    case Bill(s) => Bill(s.(actor := caller))
    case Account(s) => Account(if s.DoSetActive? then s.(admin := caller) else s.(user := caller))
  }

  /** It is made by this caller whoever it named, and is otherwise the request it was. */
  lemma ActingAsExactly(step: Step, caller: Id, named: Id)
    requires NeedsCaller(step)
    ensures Caller(ActingAs(step, caller)) == Some(caller)
    ensures ActingAs(step, Caller(step).value) == step
    ensures ActingAs(ActingAs(step, named), caller) == ActingAs(step, caller)
  {
  }

  function ErrorOf<T>(outcome: Outcome<T>): Option<Error> {
    if outcome.Ok? then None else Some(outcome.error)
  }

  class Application {
    const cfg: Config
    const session: Session
    const signer: TokenSigner
    const redis: Redis
    const auth: AuthService
    const orgs: OrganizationService
    const billing: BillingService
    ghost var served: seq<Step>

    constructor (cfg: Config)
      ensures Valid() && served == [] && this.cfg == cfg
      ensures fresh(session) && fresh(signer) && fresh(redis)
    {
      var database := new Session();
      var key := new TokenSigner();
      var cache := new Redis();
      this.cfg, session, signer, redis := cfg, database, key, cache;
      auth := new AuthService(database, key, cache, cfg);
      orgs := new OrganizationService(database);
      billing := new BillingService(database, cfg);
      served := [];
    }

    function World(): World
      reads session, signer, redis
    {
      System.World(session.committed, redis.entries, signer.issued)
    }

    ghost predicate Wired() {
      && auth.session == session && auth.signer == signer && auth.redis == redis && auth.cfg == cfg
      && orgs.session == session && billing.session == session && billing.cfg == cfg
    }

    /** What is committed is what serving these requests amounts to. */
    ghost predicate Valid()
      reads this, session, signer, redis
    {
      Wired() && World() == Run(cfg, EMPTY, served)
    }

    /** Whatever has been requested, the committed store satisfies its invariant. */
    lemma CommittedStoreIsConsistent()
      requires Valid()
      ensures StoreOk(session.committed)
    {
      ReachableStoreOk(cfg, served);
    }

    /** Record a served request. */
    ghost method Serve(step: Step)
      requires Wired()
      requires World() == Next(cfg, Run(cfg, EMPTY, served), step)
      modifies this`served
      ensures Valid() && served == old(served) + [step]
    {
      assert (served + [step])[..|served|] == served;
      served := served + [step];
    }

    // ── Organization endpoints ────────────────────────────────────────

    method ServeMemberRequest(step: OrgStep) returns (r: Outcome<Id>)
      requires Wired() && !step.DoAccept? && !step.DoCreate? && step.org in session.work.orgs
      modifies session
      ensures Attempt(session.work, r) == MemberRequest(old(session.work), step)
      ensures session.committed == old(session.committed)
    {
      match step
      case DoUpdate(actor, org, name, logo) => r := orgs.Update(org, name, logo, actor);
      case DoDelete(actor, org) => r := orgs.Delete(org, actor);
      case DoUpdateRole(actor, org, target, role) => r := orgs.UpdateMemberRole(org, target, role, actor);
      case DoRemove(actor, org, target) => r := orgs.RemoveMember(org, target, actor);
      case DoInvite(actor, org, email, role, invite, rawToken, now) =>
        r := orgs.InviteMember(org, email, role, actor, invite, rawToken, now);
      case DoRevoke(actor, org, invite) => r := orgs.RevokeInvitation(org, invite, actor);
    }

    method HandleOrg(step: OrgStep) returns (r: Outcome<Id>)
      requires Valid()
      modifies this`served, session
      ensures Valid() && served == old(served) + [Org(step)]
      ensures r == OrgRequest(old(session.committed), step).outcome
    {
      session.Begin();
      if !CurrentUser(session.work.users, step.actor) {
        r := Err(Unauthorized);
      } else if step.DoAccept? {
        r := orgs.AcceptInvitation(step.rawToken, step.actor, step.now);
      } else if step.DoCreate? {
        if !session.work.users[step.actor].isVerified {
          r := Err(Forbidden);
        } else {
          r := orgs.Create(step.org, step.name, step.baseSlug, step.actor);
        }
      } else if step.org !in session.work.orgs {
        r := Err(NotFound);
      } else {
        r := ServeMemberRequest(step);
      }
      session.Close(r);
      Serve(Org(step));
    }

    // ── Billing endpoints ─────────────────────────────────────────────

    method HandleBilling(step: BillingStep) returns (r: Outcome<()>)
      requires Valid()
      modifies this`served, session
      ensures Valid() && served == old(served) + [Bill(step)]
      ensures r == BillingRequest(cfg, old(session.committed), step).outcome
    {
      session.Begin();
      match step {
        case DoVerify(actor, tx, now, periodEnd) =>
          if !CurrentUser(session.work.users, actor) {
            r := Err(Unauthorized);
          } else if tx.None? {
            r := Err(ProviderFailed);
          } else {
            r := billing.VerifyTransaction(tx.value, now, periodEnd);
          }
        case DoCancel(actor, org, providerOk, now) =>
          if !CurrentUser(session.work.users, actor) {
            r := Err(Unauthorized);
          } else if org !in session.work.orgs {
            r := Err(NotFound);
          } else {
            r := billing.CancelSubscription(org, providerOk, now);
          }
        case DoWebhook(genuine, event, now) => r := billing.HandleWebhook(genuine, event, now);
      }
      session.Close(r);
      Serve(Bill(step));
    }

    // ── Account endpoints ─────────────────────────────────────────────

    /** Requests that read the store and may sign or revoke tokens. */
    method ServeReader(step: AccountStep) returns (reply: Reply)
      requires Wired() && OnTokensOnly(step)
      modifies signer, redis
      ensures (auth.State(), reply) == AccountRequest(cfg, old(auth.State()), step)
    {
      match step
      case DoLogin(email, password, now) => reply := auth.Login(email, password, now);
      case DoRefresh(token, now, redisUp) => reply := auth.Refresh(token, now, redisUp);
      case DoLogout(token, now, redisUp) =>
        auth.Logout(token, now, redisUp);
        reply := Done;
      case DoValidateMfa(pending, code, now) => reply := auth.ValidateMfaCode(pending, code, now);
    }

    /** Requests on the caller's own row. */
    method ServeOwner(step: AccountStep) returns (r: Outcome<Id>)
      requires Wired() && OnOwnRow(step) && step.user in session.work.users
      modifies session
      ensures Attempt(session.work.users, r) == OwnRequest(cfg, old(session.work.users), step)
      ensures session.work == old(session.work).(users := session.work.users)
      ensures session.committed == old(session.committed)
    {
      match step
      case DoChangePassword(user, current, newPassword) => r := auth.ChangePassword(user, current, newPassword);
      case DoDeleteAccount(user) => r := auth.DeleteAccount(user);
      case DoSetupMfa(user, secret) => r := auth.SetupMfa(user, secret);
      case DoVerifyMfa(user, code, now) => r := auth.VerifyMfa(user, code, now);
      case DoDisableMfa(user, code, now) => r := auth.DisableMfa(user, code, now);
    }

    /** Requests that may add an account and then sign a token pair for it. */
    method ServeNewcomer(step: AccountStep) returns (reply: Reply)
      requires Wired() && (step.DoRegister? || step.DoOAuth?) && session.work == session.committed
      modifies session, signer
      ensures (World().Accounts(), reply) == AccountRequest(cfg, old(World().Accounts()), step)
      ensures session.committed == old(session.committed).(users := session.committed.users)
    {
      var r: Outcome<Id>;
      if step.DoRegister? {
        r := auth.Register(step.email, step.password, step.user, step.rawToken);
      } else {
        r := auth.OAuthLoginOrRegister(step.provider, step.providerId, step.email, step.user);
      }
      if r.Ok? {
        reply := auth.IssueTokens(r.value, step.now);
      } else {
        reply := Failed(r.error);
      }
      session.Close(r);
    }

    /** Close the session; the reply says no more than success or failure. */
    method Finish<T>(outcome: Outcome<T>) returns (reply: Reply)
      modifies session
      ensures session.committed == session.work == Settle(old(session.committed), Attempt(old(session.work), outcome))
      ensures reply == if outcome.Ok? then Done else Failed(outcome.error)
    {
      session.Close(outcome);
      reply := if outcome.Ok? then Done else Failed(outcome.error);
    }

    /** Deactivating and activating accounts, for superusers. */
    method ServeAdmin(admin: Id, superuser: bool, target: Id, active: bool) returns (reply: Reply)
      requires Wired() && session.work == session.committed
      modifies session
      ensures (World().Accounts(), reply) == SetActiveRequest(old(World().Accounts()), admin, superuser, target, active)
      ensures session.committed == old(session.committed).(users := session.committed.users)
    {
      assert signer.issued + SignedBy(Done) == signer.issued;
      if !CurrentUser(session.work.users, admin) {
        reply := Finish<Id>(Err(Unauthorized));
      } else if !superuser {
        reply := Finish<Id>(Err(Forbidden));
      } else {
        var r := auth.SetActive(target, active);
        reply := Finish(r);
      }
    }

    /** Requests that write one account row and hand out nothing. */
    method ServeWriter(step: AccountStep) returns (reply: Reply)
      requires Wired() && session.work == session.committed
      requires step.DoVerifyEmail? || step.DoRequestReset? || step.DoReset? || step.DoSetActive? || OnOwnRow(step)
      modifies session
      ensures (World().Accounts(), reply) == AccountRequest(cfg, old(World().Accounts()), step)
      ensures session.committed == old(session.committed).(users := session.committed.users)
    {
      assert signer.issued + SignedBy(Done) == signer.issued;
      if step.DoRequestReset? {
        var r := auth.RequestPasswordReset(step.email, step.rawToken, step.mailSent);
        reply := Finish(r);
      } else if step.DoVerifyEmail? {
        var r := auth.VerifyEmail(step.rawToken, step.mailSent);
        reply := Finish(r);
      } else if step.DoReset? {
        var r := auth.ResetPassword(step.rawToken, step.newPassword);
        reply := Finish(r);
      } else if step.DoSetActive? {
        reply := ServeAdmin(step.admin, step.superuser, step.target, step.active);
      } else if CurrentUser(session.work.users, step.user) {
        var r := ServeOwner(step);
        reply := Finish(r);
      } else {
        reply := Finish<Id>(Err(Unauthorized));
      }
    }

    method HandleAccount(step: AccountStep) returns (reply: Reply)
      requires Valid()
      modifies this`served, session, signer, redis
      ensures Valid() && served == old(served) + [Account(step)]
      ensures reply == AccountRequest(cfg, old(World()).Accounts(), step).1
    {
      session.Begin();
      if OnTokensOnly(step) {
        reply := ServeReader(step);
        session.Close(if reply.Failed? then Err(reply.error) else Ok(()));
      } else if step.DoRegister? || step.DoOAuth? {
        reply := ServeNewcomer(step);
      } else {
        reply := ServeWriter(step);
      }
      Serve(Account(step));
    }

    // ── Bearer tokens ─────────────────────────────────────────────────

    /** The caller of a request, by access token. The signature says that the subject
        has been authenticated by an earlier request. */
    method Authenticate(credentials: Option<Jwt>, now: Time) returns (caller: Outcome<Id>)
      requires Valid()
      ensures caller == Bearer(cfg, signer.issued, credentials, now)
      ensures caller.Ok? ==> exists k: nat :: AuthenticatedAt(cfg, served, k, caller.value)
    {
      if credentials.None? {
        return Err(Unauthorized);
      }
      caller := VerifyToken(cfg, signer.issued, credentials.value, AccessToken, now);
      if caller.Ok? {
        assert served[..|served|] == served;
        EveryTokenGoesBackToAuthentication(cfg, served, |served|, credentials.value);
      }
    }

    /** How the request fails in this state, if it does. */
    ghost function FailureOf(w: System.World, step: Step): Option<Error> {
      match step
      case Org(s) => ErrorOf(OrgRequest(w.db, s).outcome)
      case Bill(s) => ErrorOf(BillingRequest(cfg, w.db, s).outcome)
      case Account(s) =>
        var reply := AccountRequest(cfg, w.Accounts(), s).1;
        if reply.Failed? then Some(reply.error) else None
    }

    /** Any request as it comes in. One that needs a caller is served for the subject of
        its access token, somebody authenticated earlier, whomever it names,
        or refused without a trace; the reply is that of the request served. */
    method Handle(credentials: Option<Jwt>, now: Time, step: Step) returns (failure: Option<Error>)
      requires Valid()
      modifies this`served, session, signer, redis
      ensures Valid()
      ensures !NeedsCaller(step) ==> served == old(served) + [step] && failure == FailureOf(old(World()), step)
      ensures NeedsCaller(step) ==>
                match Bearer(cfg, old(signer.issued), credentials, now)
                case Err(e) => failure == Some(e) && served == old(served) && World() == old(World())
                case Ok(caller) =>
                  exists acting ::
                    && served == old(served) + [acting] && failure == FailureOf(old(World()), acting)
                    && Caller(acting) == Some(caller) && ActingAs(acting, Caller(step).value) == step
                    && exists k: nat :: AuthenticatedAt(cfg, old(served), k, caller)
    {
      var acting := step;
      if NeedsCaller(step) {
        var caller := Authenticate(credentials, now);
        if caller.Err? {
          return Some(caller.error);
        }
        acting := ActingAs(step, caller.value);
        ActingAsExactly(step, caller.value, caller.value);
        ActingAsExactly(step, Caller(step).value, caller.value);
      }
      match acting
      case Org(s) =>
        var r := HandleOrg(s);
        failure := ErrorOf(r);
      case Bill(s) =>
        var r := HandleBilling(s);
        failure := ErrorOf(r);
      case Account(s) =>
        var reply := HandleAccount(s);
        failure := if reply.Failed? then Some(reply.error) else None;
    }
  }
}
