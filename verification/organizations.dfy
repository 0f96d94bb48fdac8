/** What each organization, membership and invitation operation does to the store. */
module Organizations {
  import opened Schema
  import opened Text
  import opened MembershipPolicy
  import opened Slugs
  import Accounts

  const INVITATION_TTL: Time := 7.0 * 24.0 * 3600.0

  // ── Queries ───────────────────────────────────────────────────────

  function SlugsInUse(db: Db): set<string> {
    set o | o in db.orgs :: db.orgs[o].slug
  }

  function PendingFor(db: Db, email: string, org: Id): set<Id> {
    set i | i in db.invites && db.invites[i].email == Lower(email) && db.invites[i].org == org
            && db.invites[i].status == Pending
  }

  function WithToken(db: Db, token: TokenHash): set<Id> {
    set i | i in db.invites && db.invites[i].token == token
  }

  function Roster(db: Db, org: Id): map<Seat, Role> {
    map s | s in db.members && s.org == org :: db.members[s]
  }

  function InvitationsOf(db: Db, org: Id): map<Id, Invitation> {
    map i | i in db.invites && db.invites[i].org == org :: db.invites[i]
  }

  // ── Organizations ─────────────────────────────────────────────────

  ghost function Create(db: Db, org: Id, name: string, baseSlug: string, owner: Id): Attempt<Db, Id>
    requires owner in db.users
  {
    var row := Organization(name, FirstFree(SlugsInUse(db), baseSlug), None, Free, None);
    if org in db.orgs || Seat(owner, org) in db.members then Attempt(db, Err(Integrity))
    else Attempt(db.(orgs := db.orgs[org := row], members := db.members[Seat(owner, org) := Owner]), Ok(org))
  }

  function Update(db: Db, org: Id, name: Option<string>, logo: Option<string>, actor: Id): Attempt<Db, Id>
    requires org in db.orgs
  {
    if !HasRole(db, actor, org, Admin) then Attempt(db, Err(Forbidden))
    else
      var row := db.orgs[org];
      var saved := row.(name := if name.Some? then name.value else row.name,
                        logo := if logo.Some? then logo else row.logo);
      Attempt(db.(orgs := db.orgs[org := saved]), Ok(org))
  }

  /** Memberships and invitations go with the organization; a subscription row
      still pointing at it makes the request fail. */
  function Delete(db: Db, org: Id, actor: Id): Attempt<Db, Id>
    requires org in db.orgs
  {
    if !HasRole(db, actor, org, Owner) then Attempt(db, Err(Forbidden))
    else if org in db.subs then Attempt(db, Err(Integrity))
    else
      Attempt(db.(orgs := db.orgs - {org},
                  members := map s | s in db.members && s.org != org :: db.members[s],
                  invites := map i | i in db.invites && db.invites[i].org != org :: db.invites[i]),
              Ok(org))
  }

  // ── Members ───────────────────────────────────────────────────────

  function UpdateMemberRole(db: Db, org: Id, target: Id, role: Role, actor: Id): Attempt<Db, Id>
    requires org in db.orgs
  {
    var seat := Seat(target, org);
    if !HasRole(db, actor, org, Admin) then Attempt(db, Err(Forbidden))
    else if seat !in db.members then Attempt(db, Err(NotFound))
    else if db.members[seat] == Owner && !HasRole(db, actor, org, Owner) then Attempt(db, Err(Forbidden))
    else Attempt(db.(members := db.members[seat := role]), Ok(target))
  }

  function RemoveMember(db: Db, org: Id, target: Id, actor: Id): Attempt<Db, Id>
    requires org in db.orgs
  {
    if actor != target && !HasRole(db, actor, org, Admin) then Attempt(db, Err(Forbidden))
    else Attempt(db.(members := db.members - {Seat(target, org)}), Ok(target))
  }

  // ── Invitations ───────────────────────────────────────────────────

  /** The account holding this address, if any, is a member. */
  function AddresseeIsMember(db: Db, email: string, org: Id): Outcome<bool> {
    match OneOrNone(Accounts.WithEmail(db.users, email))
    case ManyRows => Err(MultipleRows)
    case NoRow => Ok(false)
    case OneRow(u) => Ok(Seat(u, org) in db.members)
  }

  function InviteMember(db: Db, org: Id, email: string, role: Role, actor: Id, invite: Id, rawToken: string, now: Time):
    Attempt<Db, Id>
    requires org in db.orgs
  {
    var address := Normalize(email);
    if !HasRole(db, actor, org, Admin) then Attempt(db, Err(Forbidden))
    else
      match OneOrNone(PendingFor(db, address, org))
      case ManyRows => Attempt(db, Err(MultipleRows))
      case OneRow(_) => Attempt(db, Err(Conflict))
      case NoRow =>
        match AddresseeIsMember(db, address, org)
        case Err(e) => Attempt(db, Err(e))
        case Ok(true) => Attempt(db, Err(Conflict))
        case Ok(false) =>
          var row := Invitation(org, address, role, TokenHash(rawToken), actor, Pending, now + INVITATION_TTL);
          if invite in db.invites || WithToken(db, row.token) != {} then Attempt(db, Err(Integrity))
          else Attempt(db.(invites := db.invites[invite := row]), Ok(invite))
  }

  function RevokeInvitation(db: Db, org: Id, invite: Id, actor: Id): Attempt<Db, Id>
    requires org in db.orgs
  {
    if !HasRole(db, actor, org, Admin) then Attempt(db, Err(Forbidden))
    else if invite !in db.invites || db.invites[invite].org != org then Attempt(db, Err(NotFound))
    else if db.invites[invite].status != Pending then Attempt(db, Err(BadRequest))
    else Attempt(db.(invites := db.invites[invite := db.invites[invite].(status := Revoked)]), Ok(invite))
  }

  /** Nothing here looks for an existing membership: only the unique key does. */
  function AcceptInvitation(db: Db, rawToken: string, user: Id, now: Time): Attempt<Db, Id>
    requires user in db.users
  {
    match OneOrNone(WithToken(db, TokenHash(rawToken)))
    case ManyRows => Attempt(db, Err(MultipleRows))
    case NoRow => Attempt(db, Err(BadRequest))
    case OneRow(i) =>
      var row := db.invites[i];
      var seat := Seat(user, row.org);
      if row.status != Pending then Attempt(db, Err(BadRequest))
      else if row.expiresAt < now then
        Attempt(db.(invites := db.invites[i := row.(status := Expired)]), Err(BadRequest))
      else if row.email != db.users[user].email then Attempt(db, Err(Forbidden))
      else if seat in db.members || row.org !in db.orgs then Attempt(db, Err(Integrity))
      else
        Attempt(db.(members := db.members[seat := row.role],
                    invites := db.invites[i := row.(status := Accepted)]),
                Ok(row.org))
  }

  // ── Requests ──────────────────────────────────────────────────────

  datatype OrgStep =
    | DoCreate(actor: Id, org: Id, name: string, baseSlug: string)
    | DoUpdate(actor: Id, org: Id, newName: Option<string>, logo: Option<string>)
    | DoDelete(actor: Id, org: Id)
    | DoUpdateRole(actor: Id, org: Id, target: Id, role: Role)
    | DoRemove(actor: Id, org: Id, target: Id)
    | DoInvite(actor: Id, org: Id, email: string, role: Role, invite: Id, rawToken: string, now: Time)
    | DoRevoke(actor: Id, org: Id, invite: Id)
    | DoAccept(actor: Id, rawToken: string, now: Time)

  /** Authentication and the lookup of the organization, then the service. */
  ghost function OrgRequest(db: Db, step: OrgStep): Attempt<Db, Id> {
    if !Accounts.CurrentUser(db.users, step.actor) then Attempt(db, Err(Unauthorized))
    else
      match step
      case DoAccept(actor, rawToken, now) => AcceptInvitation(db, rawToken, actor, now)
      case DoCreate(actor, org, name, baseSlug) =>
        if !db.users[actor].isVerified then Attempt(db, Err(Forbidden))
        else Create(db, org, name, baseSlug, actor)
      case _ =>
        if step.org !in db.orgs then Attempt(db, Err(NotFound))
        else MemberRequest(db, step)
  }

  ghost function MemberRequest(db: Db, step: OrgStep): Attempt<Db, Id>
    requires !step.DoAccept? && !step.DoCreate?
    requires step.org in db.orgs
  {
    match step
    case DoUpdate(actor, org, name, logo) => Update(db, org, name, logo, actor)
    case DoDelete(actor, org) => Delete(db, org, actor)
    case DoUpdateRole(actor, org, target, role) => UpdateMemberRole(db, org, target, role, actor)
    case DoRemove(actor, org, target) => RemoveMember(db, org, target, actor)
    case DoInvite(actor, org, email, role, invite, rawToken, now) =>
      InviteMember(db, org, email, role, actor, invite, rawToken, now)
    case DoRevoke(actor, org, invite) => RevokeInvitation(db, org, invite, actor)
  }
}
