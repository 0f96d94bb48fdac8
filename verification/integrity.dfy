/** What holds of the store after every run of requests: the inductive invariants
    no single operation establishes. */
module Integrity {
  import opened Schema
  import opened Text
  import opened Accounts
  import opened Sessions
  import opened Organizations

  // ── The user table ────────────────────────────────────────────────

  ghost predicate EmailsUnique(users: Users) {
    forall u, v :: u in users && v in users && users[u].email == users[v].email ==> u == v
  }

  ghost predicate EmailsNormal(users: Users) {
    forall u :: u in users ==> IsNormal(users[u].email)
  }

  /** At most one account is linked to a third-party identity. */
  ghost predicate IdentitiesUnique(users: Users) {
    forall u, v :: u in users && v in users && users[u].provider == users[v].provider
                   && users[u].providerId == users[v].providerId && users[u].providerId.Some?
                   ==> u == v
  }

  ghost predicate MfaHasSecret(users: Users) {
    forall u :: u in users && users[u].mfaEnabled ==> HasSecret(users[u])
  }

  ghost predicate UsersOk(users: Users) {
    EmailsUnique(users) && EmailsNormal(users) && IdentitiesUnique(users) && MfaHasSecret(users)
  }

  /** Accounts are never dropped and never change their address. */
  ghost predicate UsersGrow(before: Users, after: Users) {
    forall u :: u in before ==> u in after && after[u].email == before[u].email
  }

  /** Nobody but `user` holds the identity of this row, if it has one. */
  ghost predicate IdentityFree(users: Users, user: Id, row: User) {
    row.providerId.Some? ==>
      forall v :: v in users && users[v].provider == row.provider && users[v].providerId == row.providerId ==> v == user
  }

  lemma SavingRowKeepsUsers(users: Users, user: Id, row: User)
    requires UsersOk(users)
    requires user in users && row.email == users[user].email
    requires IdentityFree(users, user, row)
    requires row.mfaEnabled ==> HasSecret(row)
    ensures UsersOk(users[user := row]) && UsersGrow(users, users[user := row])
  {
  }

  lemma InsertKeepsUsers(users: Users, user: Id, row: User)
    requires UsersOk(users)
    requires IsNormal(row.email) && !row.mfaEnabled
    requires IdentityFree(users, user, row)
    ensures var after := Settle(users, Insert(users, user, row)); UsersOk(after) && UsersGrow(users, after)
  {
  }

  lemma RegisterKeepsUsers(users: Users, email: string, password: string, user: Id, rawToken: string)
    requires UsersOk(users)
    ensures var after := Settle(users, Register(users, email, password, user, rawToken));
            UsersOk(after) && UsersGrow(users, after)
  {
    NormalizeIsProjection(email);
    InsertKeepsUsers(users, user,
                     User(Normalize(email), Some(PasswordHash(password)), true, false, Some(TokenHash(rawToken)), None,
                          Local, None, false, None));
  }

  lemma OAuthKeepsUsers(users: Users, provider: Provider, providerId: string, email: string, user: Id)
    requires UsersOk(users)
    ensures var after := Settle(users, OAuthLogin(users, provider, providerId, email, user));
            UsersOk(after) && UsersGrow(users, after)
  {
    NormalizeIsProjection(email);
    var linked := WithOAuth(users, provider, providerId);
    if linked == {} {
      assert forall v :: v in users && users[v].provider == provider && users[v].providerId == Some(providerId)
                         ==> v in linked;
      var holders := OneOrNone(WithEmail(users, email));
      if holders.OneRow? {
        var row := users[holders.id].(provider := provider, providerId := Some(providerId), isVerified := true);
        SavingRowKeepsUsers(users, holders.id, row);
      } else if holders.NoRow? {
        InsertKeepsUsers(users, user,
                         User(Normalize(email), None, true, true, None, None, provider, Some(providerId), false, None));
      }
    }
  }

  lemma VerifyEmailKeepsUsers(users: Users, rawToken: string, mailSent: bool)
    requires UsersOk(users)
    ensures var after := Settle(users, VerifyEmail(users, rawToken, mailSent));
            UsersOk(after) && UsersGrow(users, after)
  {
    var found := OneOrNone(WithVerificationToken(users, TokenHash(rawToken)));
    if found.OneRow? {
      SavingRowKeepsUsers(users, found.id, users[found.id].(isVerified := true, verificationToken := None));
    }
  }

  lemma RequestResetKeepsUsers(users: Users, email: string, rawToken: string, mailSent: bool)
    requires UsersOk(users)
    ensures var after := Settle(users, RequestPasswordReset(users, email, rawToken, mailSent));
            UsersOk(after) && UsersGrow(users, after)
  {
    var found := OneOrNone(WithEmail(users, email));
    if found.OneRow? {
      SavingRowKeepsUsers(users, found.id, users[found.id].(resetToken := Some(TokenHash(rawToken))));
    }
  }

  lemma ResetKeepsUsers(users: Users, rawToken: string, password: string)
    requires UsersOk(users)
    ensures var after := Settle(users, ResetPassword(users, rawToken, password));
            UsersOk(after) && UsersGrow(users, after)
  {
    var found := OneOrNone(WithResetToken(users, TokenHash(rawToken)));
    if found.OneRow? {
      SavingRowKeepsUsers(users, found.id,
                          users[found.id].(password := Some(PasswordHash(password)), resetToken := None));
    }
  }

  lemma OwnRequestKeepsUsers(cfg: Config, users: Users, step: AccountStep)
    requires OnOwnRow(step) && step.user in users
    requires UsersOk(users)
    ensures var after := Settle(users, OwnRequest(cfg, users, step)); UsersOk(after) && UsersGrow(users, after)
  {
    var a := OwnRequest(cfg, users, step);
    if a.outcome.Ok? {
      SavingRowKeepsUsers(users, step.user, a.state[step.user]);
      assert a.state == users[step.user := a.state[step.user]];
    }
  }

  lemma OwnRowSettles(cfg: Config, s: AccountState, step: AccountStep)
    requires OnOwnRow(step)
    ensures AccountRequest(cfg, s, step).0.users ==
            if CurrentUser(s.users, step.user) then Settle(s.users, OwnRequest(cfg, s.users, step)) else s.users
  {
  }

  lemma OwnRowKeepsUsers(cfg: Config, s: AccountState, step: AccountStep)
    requires UsersOk(s.users) && OnOwnRow(step)
    ensures var after := AccountRequest(cfg, s, step).0.users; UsersOk(after) && UsersGrow(s.users, after)
  {
    OwnRowSettles(cfg, s, step);
    if CurrentUser(s.users, step.user) {
      OwnRequestKeepsUsers(cfg, s.users, step);
    }
  }

  lemma SetActiveKeepsUsers(s: AccountState, admin: Id, superuser: bool, target: Id, active: bool)
    requires UsersOk(s.users)
    ensures var after := SetActiveRequest(s, admin, superuser, target, active).0.users;
            UsersOk(after) && UsersGrow(s.users, after)
  {
    if target in s.users {
      SavingRowKeepsUsers(s.users, target, s.users[target].(isActive := active));
    }
  }

  lemma OthersKeepUsers(cfg: Config, s: AccountState, step: AccountStep)
    requires OnTokensOnly(step)
    ensures AccountRequest(cfg, s, step).0.users == s.users
  {
  }

  lemma AccountKeepsUsers(cfg: Config, s: AccountState, step: AccountStep)
    requires UsersOk(s.users)
    ensures var after := AccountRequest(cfg, s, step).0.users; UsersOk(after) && UsersGrow(s.users, after)
  {
    if OnOwnRow(step) {
      OwnRowKeepsUsers(cfg, s, step);
    } else if OnTokensOnly(step) {
      OthersKeepUsers(cfg, s, step);
    } else {
      match step
      case DoRegister(email, password, user, rawToken, now) =>
        RegisterKeepsUsers(s.users, email, password, user, rawToken);
      case DoVerifyEmail(rawToken, mailSent) => VerifyEmailKeepsUsers(s.users, rawToken, mailSent);
      case DoRequestReset(email, rawToken, mailSent) => RequestResetKeepsUsers(s.users, email, rawToken, mailSent);
      case DoReset(rawToken, newPassword) => ResetKeepsUsers(s.users, rawToken, newPassword);
      case DoOAuth(provider, providerId, email, user, now) =>
        OAuthKeepsUsers(s.users, provider, providerId, email, user);
      case DoSetActive(admin, superuser, target, active) => SetActiveKeepsUsers(s, admin, superuser, target, active);
    }
  }

  // ── Organizations, memberships, invitations ───────────────────────

  ghost predicate SlugsUnique(db: Db) {
    forall a, b :: a in db.orgs && b in db.orgs && db.orgs[a].slug == db.orgs[b].slug ==> a == b
  }

  /** Every membership names an existing user and organization, every invitation
      and subscription an existing organization. */
  ghost predicate ReferencesExist(db: Db) {
    && (forall s :: s in db.members ==> s.user in db.users && s.org in db.orgs)
    && (forall i :: i in db.invites ==> db.invites[i].org in db.orgs)
    && (forall o :: o in db.subs ==> o in db.orgs)
  }

  ghost predicate InvitesWellFormed(db: Db) {
    && (forall i :: i in db.invites ==> IsNormal(db.invites[i].email) && db.invites[i].status != Expired)
    && (forall i, j :: i in db.invites && j in db.invites && db.invites[i].token == db.invites[j].token ==> i == j)
  }

  predicate PendingIn(db: Db, i: Id, email: string, org: Id) {
    i in db.invites && db.invites[i].status == Pending && db.invites[i].email == email
    && db.invites[i].org == org
  }

  /** At most one pending invitation per address and organization ... */
  ghost predicate PendingUnique(db: Db) {
    forall i, j, email, org :: PendingIn(db, i, email, org) && PendingIn(db, j, email, org) ==> i == j
  }

  /** ... and while there is one, nobody with that address is a member. */
  ghost predicate PendingExcludesMembers(db: Db) {
    forall i, s :: s in db.members && s.user in db.users ==> !PendingIn(db, i, db.users[s.user].email, s.org)
  }

  ghost predicate OrgsOk(db: Db) {
    && SlugsUnique(db) && ReferencesExist(db) && InvitesWellFormed(db)
    && PendingUnique(db) && PendingExcludesMembers(db)
  }

  /** A new account cannot be a member yet, and an old one keeps its address. */
  lemma NewUsersKeepOrgs(db: Db, users: Users)
    requires OrgsOk(db) && UsersGrow(db.users, users)
    ensures OrgsOk(db.(users := users))
  {
    var after := db.(users := users);
    assert forall i, email, org :: PendingIn(after, i, email, org) == PendingIn(db, i, email, org);
  }

  lemma CreateKeepsOrgs(db: Db, org: Id, name: string, baseSlug: string, owner: Id)
    requires OrgsOk(db) && owner in db.users
    ensures OrgsOk(Settle(db, Create(db, org, name, baseSlug, owner)))
  {
    var a := Create(db, org, name, baseSlug, owner);
    if a.outcome.Ok? {
      assert a.state.orgs[org].slug !in SlugsInUse(db);
      assert forall o :: o in db.orgs ==> db.orgs[o].slug in SlugsInUse(db);
      assert forall i, email, o :: PendingIn(a.state, i, email, o) == PendingIn(db, i, email, o);
    }
  }

  lemma UpdateKeepsOrgs(db: Db, org: Id, name: Option<string>, logo: Option<string>, actor: Id)
    requires OrgsOk(db) && org in db.orgs
    ensures OrgsOk(Settle(db, Update(db, org, name, logo, actor)))
  {
    var a := Update(db, org, name, logo, actor);
    assert forall i, email, o :: PendingIn(a.state, i, email, o) == PendingIn(db, i, email, o);
  }

  lemma DeleteKeepsOrgs(db: Db, org: Id, actor: Id)
    requires OrgsOk(db) && org in db.orgs
    ensures OrgsOk(Settle(db, Delete(db, org, actor)))
  {
    var a := Delete(db, org, actor);
    assert forall i, email, o :: PendingIn(a.state, i, email, o) ==> PendingIn(db, i, email, o);
  }

  lemma UpdateRoleKeepsOrgs(db: Db, org: Id, target: Id, role: Role, actor: Id)
    requires OrgsOk(db) && org in db.orgs
    ensures OrgsOk(Settle(db, UpdateMemberRole(db, org, target, role, actor)))
  {
    var a := UpdateMemberRole(db, org, target, role, actor);
    assert forall i, email, o :: PendingIn(a.state, i, email, o) == PendingIn(db, i, email, o);
  }

  lemma RemoveKeepsOrgs(db: Db, org: Id, target: Id, actor: Id)
    requires OrgsOk(db) && org in db.orgs
    ensures OrgsOk(Settle(db, RemoveMember(db, org, target, actor)))
  {
    var a := RemoveMember(db, org, target, actor);
    assert forall i, email, o :: PendingIn(a.state, i, email, o) == PendingIn(db, i, email, o);
  }

  /** The guards of an invitation, read against the invariants. */
  lemma InviteGuards(db: Db, org: Id, email: string)
    requires OrgsOk(db) && EmailsUnique(db.users)
    requires OneOrNone(PendingFor(db, Normalize(email), org)).NoRow?
    requires AddresseeIsMember(db, Normalize(email), org) == Ok(false)
    ensures forall i :: !PendingIn(db, i, Normalize(email), org)
    ensures forall s :: s in db.members && s.org == org ==> db.users[s.user].email != Normalize(email)
  {
    var address := Normalize(email);
    NormalizeIsProjection(email);
    NormalizeIsProjection(address);
    assert forall i :: PendingIn(db, i, address, org) ==> i in PendingFor(db, address, org);
    forall s | s in db.members && s.org == org
      ensures db.users[s.user].email != address
    {
      assert s == Seat(s.user, org);
      assert db.users[s.user].email == address ==> s.user in WithEmail(db.users, address);
    }
  }

  lemma AddInvitePending(db: Db, invite: Id, row: Invitation)
    requires PendingUnique(db) && PendingExcludesMembers(db) && invite !in db.invites
    requires forall i :: !PendingIn(db, i, row.email, row.org)
    requires forall s ::
        s in db.members && s.user in db.users && s.org == row.org ==> db.users[s.user].email != row.email
    ensures var after := db.(invites := db.invites[invite := row]);
            PendingUnique(after) && PendingExcludesMembers(after)
  {
    var after := db.(invites := db.invites[invite := row]);
    assert forall i, e, o :: PendingIn(after, i, e, o) ==>
                               PendingIn(db, i, e, o) || (i == invite && e == row.email && o == row.org);
  }

  lemma AddInviteToken(db: Db, invite: Id, row: Invitation)
    requires InvitesWellFormed(db) && invite !in db.invites && WithToken(db, row.token) == {}
    requires IsNormal(row.email) && row.status == Pending
    ensures InvitesWellFormed(db.(invites := db.invites[invite := row]))
  {
    assert forall i :: i in db.invites && db.invites[i].token == row.token ==> i in WithToken(db, row.token);
  }

  lemma AddInviteKeepsOrgs(db: Db, invite: Id, row: Invitation)
    requires OrgsOk(db)
    requires invite !in db.invites && WithToken(db, row.token) == {}
    requires row.org in db.orgs && IsNormal(row.email) && row.status == Pending
    requires forall i :: !PendingIn(db, i, row.email, row.org)
    requires forall s :: s in db.members && s.org == row.org ==> db.users[s.user].email != row.email
    ensures OrgsOk(db.(invites := db.invites[invite := row]))
  {
    AddInvitePending(db, invite, row);
    AddInviteToken(db, invite, row);
  }

  lemma InviteKeepsOrgs(db: Db, org: Id, email: string, role: Role, actor: Id, invite: Id, rawToken: string, now: Time)
    requires OrgsOk(db) && EmailsUnique(db.users) && org in db.orgs
    ensures OrgsOk(Settle(db, InviteMember(db, org, email, role, actor, invite, rawToken, now)))
  {
    var a := InviteMember(db, org, email, role, actor, invite, rawToken, now);
    if a.outcome.Ok? {
      InviteGuards(db, org, email);
      NormalizeIsProjection(email);
      AddInviteKeepsOrgs(db, invite, a.state.invites[invite]);
    }
  }

  /** With fewer pending invitations less is required. */
  lemma FewerPending(db: Db, after: Db)
    requires PendingUnique(db) && PendingExcludesMembers(db)
    requires after.members == db.members && after.users == db.users
    requires forall i, email, org :: PendingIn(after, i, email, org) ==> PendingIn(db, i, email, org)
    ensures PendingUnique(after) && PendingExcludesMembers(after)
  {
  }

  lemma SettlingKeepsForm(db: Db, i: Id, status: InvitationStatus)
    requires InvitesWellFormed(db) && i in db.invites && (status == Accepted || status == Revoked)
    ensures InvitesWellFormed(db.(invites := db.invites[i := db.invites[i].(status := status)]))
  {
  }

  lemma SettlingKeepsOrgs(db: Db, i: Id, status: InvitationStatus)
    requires OrgsOk(db) && i in db.invites && (status == Accepted || status == Revoked)
    ensures OrgsOk(db.(invites := db.invites[i := db.invites[i].(status := status)]))
  {
    SettlingKeepsForm(db, i, status);
    FewerPending(db, db.(invites := db.invites[i := db.invites[i].(status := status)]));
  }

  lemma SeatKeepsOrgs(db: Db, user: Id, org: Id, role: Role)
    requires OrgsOk(db) && user in db.users && org in db.orgs
    requires forall i :: !PendingIn(db, i, db.users[user].email, org)
    ensures OrgsOk(db.(members := db.members[Seat(user, org) := role]))
  {
    var after := db.(members := db.members[Seat(user, org) := role]);
    assert forall i, email, o :: PendingIn(after, i, email, o) == PendingIn(db, i, email, o);
  }

  lemma RevokeKeepsOrgs(db: Db, org: Id, invite: Id, actor: Id)
    requires OrgsOk(db) && org in db.orgs
    ensures OrgsOk(Settle(db, RevokeInvitation(db, org, invite, actor)))
  {
    if invite in db.invites {
      SettlingKeepsOrgs(db, invite, Revoked);
    }
  }

  /** The one pending invitation of the address is the one being accepted. */
  lemma NoOtherPending(db: Db, i: Id)
    requires PendingUnique(db) && i in db.invites && db.invites[i].status == Pending
    ensures var after := db.(invites := db.invites[i := db.invites[i].(status := Accepted)]);
            forall j :: !PendingIn(after, j, db.invites[i].email, db.invites[i].org)
  {
    var row := db.invites[i];
    assert PendingIn(db, i, row.email, row.org);
    var after := db.(invites := db.invites[i := row.(status := Accepted)]);
    assert forall j :: PendingIn(after, j, row.email, row.org) ==> PendingIn(db, j, row.email, row.org) && j != i;
  }

  lemma AcceptKeepsOrgs(db: Db, rawToken: string, user: Id, now: Time)
    requires OrgsOk(db) && user in db.users
    ensures OrgsOk(Settle(db, AcceptInvitation(db, rawToken, user, now)))
  {
    if AcceptInvitation(db, rawToken, user, now).outcome.Ok? {
      var i := OneOrNone(WithToken(db, TokenHash(rawToken))).id;
      var row := db.invites[i];
      SettlingKeepsOrgs(db, i, Accepted);
      NoOtherPending(db, i);
      SeatKeepsOrgs(db.(invites := db.invites[i := row.(status := Accepted)]), user, row.org, row.role);
    }
  }

  lemma MemberRequestKeepsOrgs(db: Db, step: OrgStep)
    requires OrgsOk(db) && EmailsUnique(db.users)
    requires !step.DoAccept? && !step.DoCreate? && step.org in db.orgs
    ensures OrgsOk(Settle(db, MemberRequest(db, step)))
  {
    match step
    case DoUpdate(actor, org, name, logo) => UpdateKeepsOrgs(db, org, name, logo, actor);
    case DoDelete(actor, org) => DeleteKeepsOrgs(db, org, actor);
    case DoUpdateRole(actor, org, target, role) => UpdateRoleKeepsOrgs(db, org, target, role, actor);
    case DoRemove(actor, org, target) => RemoveKeepsOrgs(db, org, target, actor);
    case DoInvite(actor, org, email, role, invite, rawToken, now) =>
      InviteKeepsOrgs(db, org, email, role, actor, invite, rawToken, now);
    case DoRevoke(actor, org, invite) => RevokeKeepsOrgs(db, org, invite, actor);
  }

  lemma OrgRequestKeepsOrgs(db: Db, step: OrgStep)
    requires OrgsOk(db) && EmailsUnique(db.users)
    ensures OrgsOk(Settle(db, OrgRequest(db, step)))
  {
    if CurrentUser(db.users, step.actor) {
      match step
      case DoCreate(actor, org, name, baseSlug) => CreateKeepsOrgs(db, org, name, baseSlug, actor);
      case DoAccept(actor, rawToken, now) => AcceptKeepsOrgs(db, rawToken, actor, now);
      case _ =>
        if step.org in db.orgs {
          MemberRequestKeepsOrgs(db, step);
        }
    }
  }
}
