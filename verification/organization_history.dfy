/** Organizations, memberships and invitations entry by entry: when each request is
    granted, what it writes, and that every run leaves what its requests have written.
    Slugs, plans and subscriptions are in `SlugHistory` and `BillingHistory`. */
module OrganizationHistory {
  import opened Schema
  import opened Text
  import opened Accounts
  import opened MembershipPolicy
  import opened Organizations
  import opened System
  import opened Integrity
  import opened Reachable
  import opened AccountGuards
  import opened Invitations

  // ── When a request is granted ─────────────────────────────────────

  /** An active caller of at least this rank in an organization that exists. */
  predicate ActsAs(db: Db, user: Id, org: Id, minimum: Role) {
    IsActive(db.users, user) && org in db.orgs && HasRole(db, user, org, minimum)
  }

  predicate Founds(db: Db, step: OrgStep) {
    && step.DoCreate? && IsActive(db.users, step.actor) && db.users[step.actor].isVerified
    && step.org !in db.orgs
  }

  predicate ChangesRole(db: Db, step: OrgStep) {
    && step.DoUpdateRole? && ActsAs(db, step.actor, step.org, Admin)
    && Seat(step.target, step.org) in db.members
    && (db.members[Seat(step.target, step.org)] == Owner ==> HasRole(db, step.actor, step.org, Owner))
  }

  predicate Removes(db: Db, step: OrgStep) {
    && step.DoRemove? && IsActive(db.users, step.actor) && step.org in db.orgs
    && (step.actor == step.target || HasRole(db, step.actor, step.org, Admin))
  }

  predicate Deletes(db: Db, step: OrgStep) {
    step.DoDelete? && ActsAs(db, step.actor, step.org, Owner) && step.org !in db.subs
  }

  predicate Updates(db: Db, step: OrgStep) {
    step.DoUpdate? && ActsAs(db, step.actor, step.org, Admin)
  }

  /** Nobody with the address is invited already or is a member. */
  ghost predicate Invitable(db: Db, email: string, org: Id) {
    && (forall i :: !PendingIn(db, i, Normalize(email), org))
    && (forall s :: s in db.members && s.org == org && s.user in db.users ==>
          db.users[s.user].email != Normalize(email))
  }

  predicate FreshInvitation(db: Db, invite: Id, rawToken: string) {
    invite !in db.invites && forall i :: i in db.invites ==> db.invites[i].token != TokenHash(rawToken)
  }

  ghost predicate Invites(db: Db, step: OrgStep) {
    && step.DoInvite? && ActsAs(db, step.actor, step.org, Admin)
    && Invitable(db, step.email, step.org) && FreshInvitation(db, step.invite, step.rawToken)
  }

  ghost predicate Allowed(db: Db, step: OrgStep) {
    match step
    case DoCreate(_, _, _, _) => Founds(db, step)
    case DoUpdate(_, _, _, _) => Updates(db, step)
    case DoDelete(_, _) => Deletes(db, step)
    case DoUpdateRole(_, _, _, _) => ChangesRole(db, step)
    case DoRemove(_, _, _) => Removes(db, step)
    case DoInvite(_, _, _, _, _, _, _) => Invites(db, step)
    case DoRevoke(_, _, i) => Revokes(db, step, i)
    case DoAccept(_, _, _) => exists i :: Accepts(db, step, i)
  }

  lemma PendingLookup(db: Db, email: string, org: Id)
    requires PendingUnique(db) && IsNormal(email)
    ensures OneOrNone(PendingFor(db, email, org)).NoRow? <==> forall i :: !PendingIn(db, i, email, org)
    ensures !OneOrNone(PendingFor(db, email, org)).ManyRows?
  {
    NormalizeIsProjection(email);
    NormalIsFixed(email);
    var found := PendingFor(db, email, org);
    assert forall i :: i in found <==> PendingIn(db, i, email, org);
  }

  predicate SeatedWith(db: Db, s: Seat, email: string, org: Id) {
    s in db.members && s.org == org && s.user in db.users && db.users[s.user].email == email
  }

  lemma AddresseeLookup(db: Db, email: string, org: Id)
    requires EmailsUnique(db.users) && ReferencesExist(db) && IsNormal(email)
    ensures AddresseeIsMember(db, email, org) == Ok(exists s :: SeatedWith(db, s, email, org))
  {
    NormalizeIsProjection(email);
    var holder := OneOrNone(WithEmail(db.users, email));
    AddressLookup(db.users, email, if holder.OneRow? then holder.id else "");
    if holder.OneRow? {
      assert Seat(holder.id, org) in db.members ==> SeatedWith(db, Seat(holder.id, org), email, org);
      forall s | SeatedWith(db, s, email, org) ensures s == Seat(holder.id, org) {
      }
    } else {
      assert forall s :: SeatedWith(db, s, email, org) ==> HoldsAddress(db.users, email, s.user);
    }
  }

  lemma InvitableLookup(db: Db, email: string, org: Id)
    requires StoreOk(db)
    ensures var address := Normalize(email);
            Invitable(db, email, org) <==>
            OneOrNone(PendingFor(db, address, org)).NoRow? && AddresseeIsMember(db, address, org) == Ok(false)
    ensures !OneOrNone(PendingFor(db, Normalize(email), org)).ManyRows?
    ensures AddresseeIsMember(db, Normalize(email), org).Ok?
  {
    NormalizeIsProjection(email);
    PendingLookup(db, Normalize(email), org);
    AddresseeLookup(db, Normalize(email), org);
    assert (forall s :: !SeatedWith(db, s, Normalize(email), org)) <==>
           (forall s :: s in db.members && s.org == org && s.user in db.users ==>
              db.users[s.user].email != Normalize(email)) by {
      assert forall s :: s in db.members && s.org == org && s.user in db.users ==>
          (SeatedWith(db, s, Normalize(email), org) <==> db.users[s.user].email == Normalize(email));
    }
  }

  /** An invitation goes out exactly when an administrator sends it, nobody with the address
      is invited or a member, and its id and token are new. Whether anybody has an account
      with the address plays no part. */
  lemma InviteGrantedExactly(db: Db, step: OrgStep)
    requires StoreOk(db) && step.DoInvite?
    ensures OrgRequest(db, step).outcome.Ok? <==> Invites(db, step)
  {
    InvitableLookup(db, step.email, step.org);
    var found := WithToken(db, TokenHash(step.rawToken));
    assert forall i :: i in found <==> i in db.invites && db.invites[i].token == TokenHash(step.rawToken);
  }

  lemma AcceptGrantedExactly(db: Db, step: OrgStep)
    requires StoreOk(db) && step.DoAccept?
    ensures OrgRequest(db, step).outcome.Ok? <==> exists i :: Accepts(db, step, i)
  {
    if CurrentUser(db.users, step.actor) {
      AcceptSucceedsExactly(db, step.rawToken, step.actor, step.now);
      forall i | Acceptable(db, i, step.rawToken, step.actor, step.now) ensures Accepts(db, step, i) {
      }
    }
  }

  lemma CreateGrantedExactly(db: Db, step: OrgStep)
    requires StoreOk(db) && step.DoCreate?
    ensures OrgRequest(db, step).outcome.Ok? <==> Founds(db, step)
  {
  }

  /** Every organization request succeeds exactly when it is allowed. */
  lemma GrantedExactly(db: Db, step: OrgStep)
    requires StoreOk(db)
    ensures OrgRequest(db, step).outcome.Ok? <==> Allowed(db, step)
  {
    match step
    case DoCreate(_, _, _, _) => CreateGrantedExactly(db, step);
    case DoInvite(_, _, _, _, _, _, _) => InviteGrantedExactly(db, step);
    case DoAccept(_, _, _) => AcceptGrantedExactly(db, step);
    case DoUpdateRole(_, _, _, _) => NamedGrantedExactly(db, step);
    case DoRevoke(_, _, _) => NamedGrantedExactly(db, step);
    case _ => RankedGrantedExactly(db, step);
  }

  lemma NamedGrantedExactly(db: Db, step: OrgStep)
    requires StoreOk(db) && (step.DoUpdateRole? || step.DoRevoke?)
    ensures OrgRequest(db, step).outcome.Ok? <==> Allowed(db, step)
  {
  }

  lemma RankedGrantedExactly(db: Db, step: OrgStep)
    requires step.DoUpdate? || step.DoDelete? || step.DoRemove?
    ensures OrgRequest(db, step).outcome.Ok? <==> Allowed(db, step)
  {
  }

  // ── Why a request is refused ──────────────────────────────────────

  /** A caller whose rank is too low, or who is not the addressee, or not verified. */
  ghost predicate LacksPermission(db: Db, step: OrgStep)
    requires step.actor in db.users
  {
    match step
    case DoCreate(actor, _, _, _) => !db.users[actor].isVerified
    case DoAccept(actor, rawToken, now) =>
      exists i :: i in db.invites && db.invites[i].token == TokenHash(rawToken) && db.invites[i].status == Pending
                  && now <= db.invites[i].expiresAt && db.invites[i].email != db.users[actor].email
    case DoRemove(actor, org, target) => org in db.orgs && actor != target && !HasRole(db, actor, org, Admin)
    case DoDelete(actor, org) => org in db.orgs && !HasRole(db, actor, org, Owner)
    case DoUpdateRole(actor, org, target, _) =>
      org in db.orgs && (!HasRole(db, actor, org, Admin)
                         || (Seat(target, org) in db.members && db.members[Seat(target, org)] == Owner
                             && !HasRole(db, actor, org, Owner)))
    case _ => step.org in db.orgs && !HasRole(db, step.actor, step.org, Admin)
  }

  /** What the request names is not there. */
  predicate NamesNothing(db: Db, step: OrgStep) {
    && !step.DoCreate? && !step.DoAccept?
    && (|| step.org !in db.orgs
        || (step.DoUpdateRole? && HasRole(db, step.actor, step.org, Admin)
            && Seat(step.target, step.org) !in db.members)
        || (step.DoRevoke? && HasRole(db, step.actor, step.org, Admin)
            && (step.invite !in db.invites || db.invites[step.invite].org != step.org)))
  }

  ghost predicate Clashes(db: Db, step: OrgStep) {
    && step.DoInvite? && step.org in db.orgs && HasRole(db, step.actor, step.org, Admin)
    && !Invitable(db, step.email, step.org)
  }

  lemma AcceptRefusal(db: Db, step: OrgStep)
    requires StoreOk(db) && step.DoAccept? && IsActive(db.users, step.actor)
    ensures OrgRequest(db, step).outcome == Err(Forbidden) <==> LacksPermission(db, step)
    ensures OrgRequest(db, step).outcome != Err(NotFound) && OrgRequest(db, step).outcome != Err(Conflict)
    ensures OrgRequest(db, step).outcome != Err(Unauthorized)
  {
    var found := WithToken(db, TokenHash(step.rawToken));
    assert forall i :: i in found <==> i in db.invites && db.invites[i].token == TokenHash(step.rawToken);
    AcceptSucceedsExactly(db, step.rawToken, step.actor, step.now);
  }

  lemma NamedRefusal(db: Db, step: OrgStep)
    requires (step.DoUpdateRole? || step.DoRevoke?) && IsActive(db.users, step.actor)
    ensures OrgRequest(db, step).outcome == Err(Forbidden) <==> LacksPermission(db, step)
    ensures OrgRequest(db, step).outcome == Err(NotFound) <==> NamesNothing(db, step)
    ensures OrgRequest(db, step).outcome != Err(Conflict) && OrgRequest(db, step).outcome != Err(Unauthorized)
  {
  }

  lemma RankedRefusal(db: Db, step: OrgStep)
    requires (step.DoCreate? || step.DoUpdate? || step.DoDelete? || step.DoRemove?) && IsActive(db.users, step.actor)
    ensures OrgRequest(db, step).outcome == Err(Forbidden) <==> LacksPermission(db, step)
    ensures OrgRequest(db, step).outcome == Err(NotFound) <==> NamesNothing(db, step)
    ensures OrgRequest(db, step).outcome != Err(Conflict) && OrgRequest(db, step).outcome != Err(Unauthorized)
  {
  }

  lemma InviteRefusal(db: Db, step: OrgStep)
    requires StoreOk(db) && step.DoInvite? && IsActive(db.users, step.actor)
    ensures OrgRequest(db, step).outcome == Err(Forbidden) <==> LacksPermission(db, step)
    ensures OrgRequest(db, step).outcome == Err(NotFound) <==> NamesNothing(db, step)
    ensures OrgRequest(db, step).outcome == Err(Conflict) <==> Clashes(db, step)
    ensures OrgRequest(db, step).outcome != Err(Unauthorized)
  {
    InvitableLookup(db, step.email, step.org);
  }

  /** Unauthorized, forbidden, not found and conflict say exactly what they should; the
      remaining refusals are bad requests and key violations. */
  lemma RefusedExactly(db: Db, step: OrgStep)
    requires StoreOk(db)
    ensures var outcome := OrgRequest(db, step).outcome;
            && (outcome == Err(Unauthorized) <==> !IsActive(db.users, step.actor))
            && (outcome == Err(Forbidden) <==> IsActive(db.users, step.actor) && LacksPermission(db, step))
            && (outcome == Err(NotFound) <==> IsActive(db.users, step.actor) && NamesNothing(db, step))
            && (outcome == Err(Conflict) <==> IsActive(db.users, step.actor) && Clashes(db, step))
  {
    if IsActive(db.users, step.actor) {
      if step.DoAccept? {
        AcceptRefusal(db, step);
      } else if step.DoInvite? {
        InviteRefusal(db, step);
      } else if step.DoUpdateRole? || step.DoRevoke? {
        NamedRefusal(db, step);
      } else {
        RankedRefusal(db, step);
      }
    }
  }

  // ── What a request writes ─────────────────────────────────────────

  ghost predicate CreateWritten(db: Db, step: OrgStep, after: Db)
    requires step.DoCreate?
  {
    if Founds(db, step) then
      && step.org in after.orgs
      && after.orgs[step.org].name == step.name && after.orgs[step.org].logo == None
      && after == db.(orgs := db.orgs[step.org := after.orgs[step.org]],
                      members := db.members[Seat(step.actor, step.org) := Owner])
    else after == db
  }

  ghost predicate AcceptWritten(db: Db, step: OrgStep, after: Db)
    requires step.DoAccept?
  {
    if exists i :: Accepts(db, step, i) then
      var i :| Accepts(db, step, i);
      after == db.(members := db.members[Seat(step.actor, db.invites[i].org) := db.invites[i].role],
                   invites := db.invites[i := db.invites[i].(status := Accepted)])
    else after == db
  }

  function Replaced(row: Organization, name: Option<string>, logo: Option<string>): Organization {
    var named := match name case Some(n) => row.(name := n) case None => row;
    if logo.Some? then named.(logo := logo) else named
  }

  /** The store after the request: one change if it is allowed, none otherwise. */
  ghost predicate Written(db: Db, step: OrgStep, after: Db) {
    match step
    case DoCreate(_, _, _, _) => CreateWritten(db, step, after)
    case DoAccept(_, _, _) => AcceptWritten(db, step, after)
    case DoUpdate(_, org, newName, logo) =>
      after == if Updates(db, step) then db.(orgs := db.orgs[org := Replaced(db.orgs[org], newName, logo)]) else db
    case DoDelete(_, org) =>
      after == if Deletes(db, step) then
        db.(orgs := db.orgs - {org},
            members := map s | s in db.members && s.org != org :: db.members[s],
            invites := map i | i in db.invites && db.invites[i].org != org :: db.invites[i])
      else db
    case DoUpdateRole(_, org, target, role) =>
      after == if ChangesRole(db, step) then db.(members := db.members[Seat(target, org) := role]) else db
    case DoRemove(_, org, target) =>
      after == if Removes(db, step) then db.(members := db.members - {Seat(target, org)}) else db
    case DoInvite(actor, org, email, role, invite, rawToken, now) =>
      after == if Invites(db, step) then
        db.(invites := db.invites[invite := Invitation(org, Normalize(email), role, TokenHash(rawToken), actor, Pending,
                                                       now + 604800.0)])
      else db
    case DoRevoke(_, _, i) =>
      after == if Revokes(db, step, i) then db.(invites := db.invites[i := db.invites[i].(status := Revoked)]) else db
  }

  lemma DeleteWrites(db: Db, step: OrgStep)
    requires StoreOk(db) && step.DoDelete?
    ensures Written(db, step, Settle(db, OrgRequest(db, step)))
  {
  }

  lemma UpdateWrites(db: Db, step: OrgStep)
    requires step.DoUpdate?
    ensures Written(db, step, Settle(db, OrgRequest(db, step)))
  {
  }

  lemma MemberWrites(db: Db, step: OrgStep)
    requires step.DoUpdateRole? || step.DoRemove?
    ensures Written(db, step, Settle(db, OrgRequest(db, step)))
  {
  }

  lemma RevokeWrites(db: Db, step: OrgStep)
    requires StoreOk(db) && step.DoRevoke?
    ensures Written(db, step, Settle(db, OrgRequest(db, step)))
  {
  }

  lemma InvitationWrites(db: Db, step: OrgStep)
    requires StoreOk(db) && step.DoInvite?
    ensures Written(db, step, Settle(db, OrgRequest(db, step)))
  {
    InviteGrantedExactly(db, step);
    if Invites(db, step) {
      InviteWrites(db, step.org, step.email, step.role, step.actor, step.invite, step.rawToken, step.now);
    }
  }

  lemma CreateWrites(db: Db, step: OrgStep)
    requires StoreOk(db) && step.DoCreate?
    ensures Written(db, step, Settle(db, OrgRequest(db, step)))
  {
  }

  /** Every organization request writes exactly this. */
  lemma RequestWrites(db: Db, step: OrgStep)
    requires StoreOk(db)
    ensures Written(db, step, Settle(db, OrgRequest(db, step)))
  {
    match step
    case DoCreate(_, _, _, _) => CreateWrites(db, step);
    case DoUpdate(_, _, _, _) => UpdateWrites(db, step);
    case DoDelete(_, _) => DeleteWrites(db, step);
    case DoInvite(_, _, _, _, _, _, _) => InvitationWrites(db, step);
    case DoRevoke(_, _, _) => RevokeWrites(db, step);
    case DoAccept(_, _, _) => AcceptStep(db, step);
    case _ => MemberWrites(db, step);
  }

  // ── Memberships, organizations, invitations ───────────────────────

  function RoleIn(db: Db, seat: Seat): Option<Role> {
    if seat in db.members then Some(db.members[seat]) else None
  }

  /** The role the seat has after the request, if it has one. */
  ghost function RoleAfter(db: Db, step: OrgStep, seat: Seat, before: Option<Role>): Option<Role> {
    match step
    case DoCreate(actor, org, _, _) => if Founds(db, step) && seat == Seat(actor, org) then Some(Owner) else before
    case DoAccept(actor, _, _) =>
      if exists i :: Accepts(db, step, i) && db.invites[i].org == seat.org && actor == seat.user then
        var i :| Accepts(db, step, i) && db.invites[i].org == seat.org && actor == seat.user;
        Some(db.invites[i].role)
      else before
    case DoUpdateRole(_, org, target, role) =>
      if ChangesRole(db, step) && seat == Seat(target, org) then Some(role) else before
    case DoRemove(_, org, target) => if Removes(db, step) && seat == Seat(target, org) then None else before
    case DoDelete(_, org) => if Deletes(db, step) && seat.org == org then None else before
    case _ => before
  }

  lemma OneAccepted(db: Db, step: OrgStep)
    requires InvitesWellFormed(db)
    ensures forall i, j :: Accepts(db, step, i) && Accepts(db, step, j) ==> i == j
  {
    forall i, j | Accepts(db, step, i) && Accepts(db, step, j) ensures i == j {
      AcceptsOnlyOne(db, step, i, j);
    }
  }

  lemma WrittenRole(db: Db, step: OrgStep, after: Db, seat: Seat)
    requires InvitesWellFormed(db) && Written(db, step, after)
    ensures RoleIn(after, seat) == RoleAfter(db, step, seat, RoleIn(db, seat))
  {
    OneAccepted(db, step);
  }

  /** The name and logo of an organization. */
  datatype Card = Card(name: string, logo: Option<string>)

  function CardIn(db: Db, org: Id): Option<Card> {
    if org in db.orgs then Some(Card(db.orgs[org].name, db.orgs[org].logo)) else None
  }

  function CardAfter(db: Db, step: OrgStep, org: Id, before: Option<Card>): Option<Card> {
    if step.DoAccept? || step.org != org then before
    else
      match step
      case DoCreate(_, _, name, _) => if Founds(db, step) then Some(Card(name, None)) else before
      case DoDelete(_, _) => if Deletes(db, step) then None else before
      case DoUpdate(_, _, newName, newLogo) =>
        if Updates(db, step) && before.Some? then
          Some(Card(match newName case Some(n) => n case None => before.value.name,
                    if newLogo.Some? then newLogo else before.value.logo))
        else before
      case _ => before
  }

  lemma WrittenCard(db: Db, step: OrgStep, after: Db, org: Id)
    requires Written(db, step, after)
    ensures CardIn(after, org) == CardAfter(db, step, org, CardIn(db, org))
  {
  }

  function InvitationIn(db: Db, i: Id): Option<Invitation> {
    if i in db.invites then Some(db.invites[i]) else None
  }

  ghost function InvitationAfter(db: Db, step: OrgStep, i: Id, before: Option<Invitation>): Option<Invitation> {
    match step
    case DoInvite(actor, org, email, role, invite, rawToken, now) =>
      if Invites(db, step) && invite == i
      then Some(Invitation(org, Normalize(email), role, TokenHash(rawToken), actor, Pending, now + 604800.0))
      else before
    case DoAccept(_, _, _) =>
      if Accepts(db, step, i) && before.Some? then Some(before.value.(status := Accepted)) else before
    case DoRevoke(_, _, _) =>
      if Revokes(db, step, i) && before.Some? then Some(before.value.(status := Revoked)) else before
    case DoDelete(_, org) =>
      if Deletes(db, step) && before.Some? && before.value.org == org then None else before
    case _ => before
  }

  lemma WrittenInvitation(db: Db, step: OrgStep, after: Db, i: Id)
    requires InvitesWellFormed(db) && Written(db, step, after)
    ensures InvitationIn(after, i) == InvitationAfter(db, step, i, InvitationIn(db, i))
  {
    OneAccepted(db, step);
  }

  // ── Whole runs ────────────────────────────────────────────────────

  /** What the requests of a run have left of a seat, of an organization, and of an
      invitation. */
  ghost function LastRole(cfg: Config, steps: seq<Step>, seat: Seat): Option<Role> {
    if steps == [] then None
    else
      var init, last := steps[..|steps| - 1], steps[|steps| - 1];
      if last.Org? then RoleAfter(Run(cfg, EMPTY, init).db, last.org, seat, LastRole(cfg, init, seat))
      else LastRole(cfg, init, seat)
  }

  ghost function LastCard(cfg: Config, steps: seq<Step>, org: Id): Option<Card> {
    if steps == [] then None
    else
      var init, last := steps[..|steps| - 1], steps[|steps| - 1];
      if last.Org? then CardAfter(Run(cfg, EMPTY, init).db, last.org, org, LastCard(cfg, init, org))
      else LastCard(cfg, init, org)
  }

  ghost function LastInvitation(cfg: Config, steps: seq<Step>, i: Id): Option<Invitation> {
    if steps == [] then None
    else
      var init, last := steps[..|steps| - 1], steps[|steps| - 1];
      if last.Org? then InvitationAfter(Run(cfg, EMPTY, init).db, last.org, i, LastInvitation(cfg, init, i))
      else LastInvitation(cfg, init, i)
  }

  lemma OtherStepsKeep(cfg: Config, w: World, step: Step, seat: Seat, org: Id, i: Id)
    requires !step.Org?
    ensures var after := Next(cfg, w, step).db;
            && RoleIn(after, seat) == RoleIn(w.db, seat) && CardIn(after, org) == CardIn(w.db, org)
            && InvitationIn(after, i) == InvitationIn(w.db, i)
  {
    if step.Bill? { BillingRequestFrame(cfg, w.db, step.bill); }
  }

  /** After any run every seat is taken or empty, and the member has the role, as the
      requests of the run say: founding, joining, role changes, removals and deletions. */
  lemma {:induction false} MembershipsMatchHistory(cfg: Config, steps: seq<Step>, seat: Seat)
    ensures RoleIn(Run(cfg, EMPTY, steps).db, seat) == LastRole(cfg, steps, seat)
  {
    if steps != [] {
      var init, last := steps[..|steps| - 1], steps[|steps| - 1];
      MembershipsMatchHistory(cfg, init, seat);
      ReachableStoreOk(cfg, init);
      if last.Org? {
        RequestWrites(Run(cfg, EMPTY, init).db, last.org);
        WrittenRole(Run(cfg, EMPTY, init).db, last.org, Run(cfg, EMPTY, steps).db, seat);
      } else {
        OtherStepsKeep(cfg, Run(cfg, EMPTY, init), last, seat, "", "");
      }
    }
  }

  /** After any run every organization exists, or not, and has its name and logo, as the
      requests of the run say. */
  lemma {:induction false} OrganizationsMatchHistory(cfg: Config, steps: seq<Step>, org: Id)
    ensures CardIn(Run(cfg, EMPTY, steps).db, org) == LastCard(cfg, steps, org)
  {
    if steps != [] {
      var init, last := steps[..|steps| - 1], steps[|steps| - 1];
      OrganizationsMatchHistory(cfg, init, org);
      ReachableStoreOk(cfg, init);
      if last.Org? {
        RequestWrites(Run(cfg, EMPTY, init).db, last.org);
        WrittenCard(Run(cfg, EMPTY, init).db, last.org, Run(cfg, EMPTY, steps).db, org);
      } else {
        OtherStepsKeep(cfg, Run(cfg, EMPTY, init), last, Seat("", ""), org, "");
      }
    }
  }

  /** After any run every invitation is stored, or not, with its terms and status, as the
      requests of the run say. */
  lemma {:induction false} InvitationsMatchHistory(cfg: Config, steps: seq<Step>, i: Id)
    ensures InvitationIn(Run(cfg, EMPTY, steps).db, i) == LastInvitation(cfg, steps, i)
  {
    if steps != [] {
      var init, last := steps[..|steps| - 1], steps[|steps| - 1];
      InvitationsMatchHistory(cfg, init, i);
      ReachableStoreOk(cfg, init);
      if last.Org? {
        RequestWrites(Run(cfg, EMPTY, init).db, last.org);
        WrittenInvitation(Run(cfg, EMPTY, init).db, last.org, Run(cfg, EMPTY, steps).db, i);
      } else {
        OtherStepsKeep(cfg, Run(cfg, EMPTY, init), last, Seat("", ""), "", i);
      }
    }
  }
}
