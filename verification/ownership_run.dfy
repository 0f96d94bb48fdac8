/** The glossary's promise about owners fails: from the empty store, a founder invites
    an administrator, who then removes the founder, or takes the founder's place. */
module OwnershipRun {
  import opened Schema
  import opened Text
  import opened Accounts
  import opened Organizations
  import opened System
  import opened Reachable
  import opened Invitations
  import opened Owners
  import opened Scenarios

  /** Two people, an organization, and the invitation the founder sends. */
  datatype Cast = Cast(founder: Person, admin: Person, tenant: Tenant, invite: Id, rawToken: string) {
    function Org(): Id { tenant.org }
    function Users(): Users { People(founder, admin) }
  }

  const INSTANCE := Cast(ONE, OTHER, Tenant("x", "X", "x"), "i", "t")

  // ── The requests ──────────────────────────────────────────────────

  function Invites(c: Cast): Step {
    Step.Org(DoInvite(c.founder.id, c.Org(), c.admin.email, Admin, c.invite, c.rawToken, 0.0))
  }
  function Joins(c: Cast): Step { Step.Org(DoAccept(c.admin.id, c.rawToken, 1.0)) }
  function Removes(c: Cast): Step { Step.Org(DoRemove(c.admin.id, c.Org(), c.founder.id)) }
  function Rises(c: Cast): Step { Step.Org(DoUpdateRole(c.admin.id, c.Org(), c.admin.id, Owner)) }
  function Demotes(c: Cast): Step { Step.Org(DoUpdateRole(c.admin.id, c.Org(), c.founder.id, Viewer)) }

  function Founding(c: Cast): seq<Step> {
    Arrivals(c.founder, c.admin) + [Founds(c.founder, c.tenant)]
  }

  function Prologue(c: Cast): seq<Step> {
    Founding(c) + [Invites(c)] + [Joins(c)]
  }

  // ── The states ────────────────────────────────────────────────────

  function Base(c: Cast): Db {
    Founded(c.Users(), c.founder, c.tenant)
  }

  function Sent(c: Cast): Invitation {
    Invitation(c.Org(), c.admin.email, Admin, TokenHash(c.rawToken), c.founder.id, Pending, 0.0 + INVITATION_TTL)
  }

  function Invited(c: Cast): Db {
    Base(c).(invites := map[c.invite := Sent(c)])
  }

  function Joined(c: Cast): Db {
    Invited(c).(members := Base(c).members[Seat(c.admin.id, c.Org()) := Admin],
                invites := Invited(c).invites[c.invite := Sent(c).(status := Accepted)])
  }

  lemma AddressIsFree(c: Cast)
    requires Distinct(c.founder, c.admin)
    ensures Normalize(c.admin.email) == c.admin.email
    ensures PendingFor(Base(c), c.admin.email, c.Org()) == {} && WithToken(Base(c), TokenHash(c.rawToken)) == {}
    ensures AddresseeIsMember(Base(c), c.admin.email, c.Org()) == Ok(false)
  {
    NormalizeIsProjection(c.admin.email);
    assert WithEmail(c.Users(), c.admin.email) == {c.admin.id};
  }

  lemma InvitationStep(c: Cast)
    requires Distinct(c.founder, c.admin)
    ensures Settle(Base(c), OrgRequest(Base(c), Invites(c).org)) == Invited(c)
  {
    AddressIsFree(c);
  }

  lemma JoiningStep(c: Cast)
    requires Distinct(c.founder, c.admin) && StoreOk(Invited(c))
    ensures Settle(Invited(c), OrgRequest(Invited(c), Joins(c).org)) == Joined(c)
  {
    assert Acceptable(Invited(c), c.invite, c.rawToken, c.admin.id, 1.0);
    AcceptWrites(Invited(c), c.rawToken, c.admin.id, 1.0, c.invite);
  }

  lemma PrologueReached(cfg: Config, c: Cast)
    requires Distinct(c.founder, c.admin)
    ensures Run(cfg, EMPTY, Prologue(c)).db == Joined(c)
  {
    BothArrive(cfg, c.founder, c.admin);
    FoundsInRun(cfg, Arrivals(c.founder, c.admin), c.Users(), c.founder, c.tenant);
    RunExtends(cfg, EMPTY, Founding(c), Invites(c));
    InvitationStep(c);
    ReachableStoreOk(cfg, Founding(c) + [Invites(c)]);
    RunExtends(cfg, EMPTY, Founding(c) + [Invites(c)], Joins(c));
    JoiningStep(c);
  }

  // ── The two endings ───────────────────────────────────────────────

  lemma RemovalStep(c: Cast)
    requires Distinct(c.founder, c.admin)
    ensures Settle(Joined(c), OrgRequest(Joined(c), Removes(c).org)).members == map[Seat(c.admin.id, c.Org()) := Admin]
  {
  }

  /** A run from the empty store at whose end an administrator who is no owner has
      removed the founder, who was the only one. */
  lemma AdministratorRemovesOwner(cfg: Config, c: Cast)
    requires Distinct(c.founder, c.admin)
    ensures var before := Run(cfg, EMPTY, Prologue(c)).db;
            IsOwner(before, c.founder.id, c.Org()) && !IsOwner(before, c.admin.id, c.Org())
    ensures !HasOwner(Run(cfg, EMPTY, Prologue(c) + [Removes(c)]).db, c.Org())
  {
    PrologueReached(cfg, c);
    RunExtends(cfg, EMPTY, Prologue(c), Removes(c));
    RemovalStep(c);
  }

  /** A run without any removal at whose end the administrator has the founder's place. */
  lemma AdministratorReplacesOwner(cfg: Config, c: Cast)
    requires Distinct(c.founder, c.admin)
    ensures var after := Run(cfg, EMPTY, Prologue(c) + [Rises(c)] + [Demotes(c)]).db;
            IsOwner(after, c.admin.id, c.Org()) && !IsOwner(after, c.founder.id, c.Org())
  {
    PrologueReached(cfg, c);
    RunExtends(cfg, EMPTY, Prologue(c), Rises(c));
    RunExtends(cfg, EMPTY, Prologue(c) + [Rises(c)], Demotes(c));
    AdministratorsReplaceOwners(Joined(c), c.admin.id, c.founder.id, c.Org(), Viewer);
  }

  /** Both endings for one cast spelled out. */
  lemma InstanceFails(cfg: Config)
    ensures !HasOwner(Run(cfg, EMPTY, Prologue(INSTANCE) + [Removes(INSTANCE)]).db, "x")
    ensures !IsOwner(Run(cfg, EMPTY, Prologue(INSTANCE) + [Rises(INSTANCE)] + [Demotes(INSTANCE)]).db, "o", "x")
  {
    OneAndOther();
    AdministratorRemovesOwner(cfg, INSTANCE);
    AdministratorReplacesOwner(cfg, INSTANCE);
  }
}
