/** Tenant isolation: the members and invitations of one organization depend only
    on account requests and on the requests addressed to that organization. */
module Tenancy {
  import opened Schema
  import opened Text
  import opened Accounts
  import opened MembershipPolicy
  import opened Organizations
  import opened System
  import opened Reachable
  import opened Invitations

  // ── The projected run ─────────────────────────────────────────────

  /** Accepting is addressed to whichever organization sent the invitation. */
  function Addressee(db: Db, step: OrgStep): Option<Id> {
    if !step.DoAccept? then Some(step.org)
    else
      match OneOrNone(WithToken(db, TokenHash(step.rawToken)))
      case OneRow(i) => Some(db.invites[i].org)
      case _ => None
  }

  /** Deleting an organization is refused while a subscription points at it. */
  predicate RefusedDeletion(db: Db, step: OrgStep) {
    step.DoDelete? && step.org in db.subs
  }

  predicate Kept(db: Db, step: Step, org: Id) {
    step.Account? || (step.Org? && Addressee(db, step.org) == Some(org) && !RefusedDeletion(db, step.org))
  }

  /** What remains of a run when everything but account requests and the requests
      addressed to the organization is left out. Deletions that a subscription stands
      in the way of go as well, since the billing requests that made it do. */
  ghost function Projection(cfg: Config, steps: seq<Step>, org: Id): seq<Step> {
    if steps == [] then []
    else
      var init, last := steps[..|steps| - 1], steps[|steps| - 1];
      Projection(cfg, init, org) + if Kept(Run(cfg, EMPTY, init).db, last, org) then [last] else []
  }

  /** Fresh invitation ids and tokens are not in use by another organization. */
  predicate SuppliedFresh(db: Db, step: Step, org: Id) {
    step.Org? && Addressee(db, step.org) == Some(org) ==>
      match step.org
      case DoInvite(_, _, _, _, invite, rawToken, _) =>
        forall i | i in db.invites && db.invites[i].org != org ::
          i != invite && db.invites[i].token != TokenHash(rawToken)
      case _ => true
  }

  // ── Simulation ────────────────────────────────────────────────────

  /** `b` holds the same accounts as `a` and, of everything else, exactly what
      belongs to the organization; slugs and billing data may differ. */
  ghost predicate SameTenant(a: Db, b: Db, org: Id) {
    && a.users == b.users
    && (org in a.orgs <==> org in b.orgs)
    && (forall s: Seat :: s.org == org ==> (s in a.members <==> s in b.members))
    && (forall s: Seat :: s.org == org && s in a.members ==> a.members[s] == b.members[s])
    && (forall i :: i in b.invites ==> i in a.invites && a.invites[i] == b.invites[i] && b.invites[i].org == org)
    && (forall i :: i in a.invites && a.invites[i].org == org ==> i in b.invites)
    && b.subs == map[]
  }

  /** A request addressed elsewhere leaves the organization alone. */
  lemma ForeignRequest(a: Db, step: OrgStep, b: Db, org: Id)
    requires SameTenant(a, b, org)
    requires Addressee(a, step) != Some(org)
    ensures SameTenant(Settle(a, OrgRequest(a, step)), b, org)
  {
    if CurrentUser(a.users, step.actor) {
      match step
      case DoAccept(_, _, _) => ForeignAccept(a, step, b, org);
      case DoCreate(_, _, _, _) => ForeignCreate(a, step, b, org);
      case _ => if step.org in a.orgs { ForeignMemberRequest(a, step, b, org); }
    }
  }

  lemma ForeignAccept(a: Db, step: OrgStep, b: Db, org: Id)
    requires SameTenant(a, b, org)
    requires step.DoAccept? && step.actor in a.users && Addressee(a, step) != Some(org)
    ensures SameTenant(Settle(a, AcceptInvitation(a, step.rawToken, step.actor, step.now)), b, org)
  {
  }

  lemma ForeignCreate(a: Db, step: OrgStep, b: Db, org: Id)
    requires SameTenant(a, b, org)
    requires step.DoCreate? && step.org != org && CurrentUser(a.users, step.actor)
    ensures SameTenant(Settle(a, OrgRequest(a, step)), b, org)
  {
  }

  lemma ForeignDelete(a: Db, step: OrgStep, b: Db, org: Id)
    requires SameTenant(a, b, org)
    requires step.DoDelete? && step.org in a.orgs && step.org != org
    ensures SameTenant(Settle(a, MemberRequest(a, step)), b, org)
  {
  }

  lemma ForeignInvitation(a: Db, step: OrgStep, b: Db, org: Id)
    requires SameTenant(a, b, org)
    requires (step.DoInvite? || step.DoRevoke?) && step.org in a.orgs && step.org != org
    ensures SameTenant(Settle(a, MemberRequest(a, step)), b, org)
  {
  }

  lemma ForeignMemberRequest(a: Db, step: OrgStep, b: Db, org: Id)
    requires SameTenant(a, b, org)
    requires !step.DoAccept? && !step.DoCreate? && step.org in a.orgs && step.org != org
    ensures SameTenant(Settle(a, MemberRequest(a, step)), b, org)
  {
    if step.DoDelete? {
      ForeignDelete(a, step, b, org);
    } else if step.DoInvite? || step.DoRevoke? {
      ForeignInvitation(a, step, b, org);
    } else {
      match step
      case DoUpdate(_, _, _, _) =>
      case DoUpdateRole(_, _, _, _) =>
      case DoRemove(_, _, _) =>
    }
  }

  lemma SameInsert(a: Db, b: Db, invite: Id, row: Invitation)
    requires SameTenant(a, b, row.org) && invite !in a.invites
    ensures SameTenant(a.(invites := a.invites[invite := row]), b.(invites := b.invites[invite := row]), row.org)
  {
  }

  lemma SameInvite(a: Db, b: Db, step: OrgStep, org: Id)
    requires SameTenant(a, b, org) && org in a.orgs
    requires step.DoInvite? && step.org == org
    requires SuppliedFresh(a, Org(step), org)
    ensures SameTenant(Settle(a, MemberRequest(a, step)), Settle(b, MemberRequest(b, step)), org)
  {
    SameRoles(a, b, step.actor, org);
    SameInviteGuards(a, b, step, org);
    if MemberRequest(a, step).outcome.Ok? {
      InviteWrites(a, org, step.email, step.role, step.actor, step.invite, step.rawToken, step.now);
      InviteWrites(b, org, step.email, step.role, step.actor, step.invite, step.rawToken, step.now);
      SameInsert(a, b, step.invite, MemberRequest(a, step).state.invites[step.invite]);
    }
  }

  lemma SameInviteGuards(a: Db, b: Db, step: OrgStep, org: Id)
    requires SameTenant(a, b, org)
    requires step.DoInvite? && step.org == org
    requires SuppliedFresh(a, Org(step), org)
    ensures var address := Normalize(step.email);
            && PendingFor(a, address, org) == PendingFor(b, address, org)
            && (WithToken(a, TokenHash(step.rawToken)) == {} <==> WithToken(b, TokenHash(step.rawToken)) == {})
            && (step.invite in a.invites <==> step.invite in b.invites)
            && AddresseeIsMember(a, address, org) == AddresseeIsMember(b, address, org)
  {
  }

  lemma SameDelete(a: Db, b: Db, actor: Id, org: Id)
    requires SameTenant(a, b, org) && org in a.orgs && org !in a.subs
    ensures SameTenant(Settle(a, Delete(a, org, actor)), Settle(b, Delete(b, org, actor)), org)
  {
  }

  lemma SameRoles(a: Db, b: Db, user: Id, org: Id)
    requires SameTenant(a, b, org)
    ensures forall minimum :: HasRole(a, user, org, minimum) == HasRole(b, user, org, minimum)
  {
  }

  lemma SameUpdate(a: Db, b: Db, org: Id, name: Option<string>, logo: Option<string>, actor: Id)
    requires SameTenant(a, b, org) && org in a.orgs
    ensures SameTenant(Settle(a, Update(a, org, name, logo, actor)), Settle(b, Update(b, org, name, logo, actor)), org)
  {
    SameRoles(a, b, actor, org);
  }

  lemma SameUpdateRole(a: Db, b: Db, org: Id, target: Id, role: Role, actor: Id)
    requires SameTenant(a, b, org) && org in a.orgs
    ensures SameTenant(Settle(a, UpdateMemberRole(a, org, target, role, actor)),
                       Settle(b, UpdateMemberRole(b, org, target, role, actor)), org)
  {
  }

  lemma SameRemove(a: Db, b: Db, org: Id, target: Id, actor: Id)
    requires SameTenant(a, b, org) && org in a.orgs
    ensures SameTenant(Settle(a, RemoveMember(a, org, target, actor)),
                       Settle(b, RemoveMember(b, org, target, actor)), org)
  {
    SameRoles(a, b, actor, org);
  }

  lemma SameRevoke(a: Db, b: Db, org: Id, invite: Id, actor: Id)
    requires SameTenant(a, b, org) && org in a.orgs
    ensures SameTenant(Settle(a, RevokeInvitation(a, org, invite, actor)),
                       Settle(b, RevokeInvitation(b, org, invite, actor)), org)
  {
  }

  lemma SameMemberRequest(a: Db, b: Db, step: OrgStep, org: Id)
    requires SameTenant(a, b, org) && org in a.orgs
    requires step.DoUpdate? || step.DoUpdateRole? || step.DoRemove? || step.DoRevoke?
    requires step.org == org
    ensures SameTenant(Settle(a, MemberRequest(a, step)), Settle(b, MemberRequest(b, step)), org)
  {
    match step
    case DoUpdate(actor, _, name, logo) => SameUpdate(a, b, org, name, logo, actor);
    case DoUpdateRole(actor, _, target, role) => SameUpdateRole(a, b, org, target, role, actor);
    case DoRemove(actor, _, target) => SameRemove(a, b, org, target, actor);
    case DoRevoke(actor, _, invite) => SameRevoke(a, b, org, invite, actor);
  }

  lemma SameToken(a: Db, b: Db, step: OrgStep, org: Id)
    requires SameTenant(a, b, org)
    requires step.DoAccept? && Addressee(a, step) == Some(org)
    ensures var i := OneOrNone(WithToken(a, TokenHash(step.rawToken)));
            OneOrNone(WithToken(b, TokenHash(step.rawToken))) == i && i.OneRow? && i.id in b.invites
  {
    var found := WithToken(a, TokenHash(step.rawToken));
    var i := OneOrNone(found).id;
    assert i in found;
    assert WithToken(b, TokenHash(step.rawToken)) == {i};
  }

  lemma SameAccept(a: Db, b: Db, step: OrgStep, org: Id)
    requires SameTenant(a, b, org)
    requires step.DoAccept? && step.actor in a.users && Addressee(a, step) == Some(org)
    ensures SameTenant(Settle(a, AcceptInvitation(a, step.rawToken, step.actor, step.now)),
                       Settle(b, AcceptInvitation(b, step.rawToken, step.actor, step.now)), org)
  {
    SameToken(a, b, step, org);
  }

  lemma KeptRequest(a: Db, b: Db, step: OrgStep, org: Id)
    requires SameTenant(a, b, org)
    requires Addressee(a, step) == Some(org) && SuppliedFresh(a, Org(step), org) && !RefusedDeletion(a, step)
    ensures SameTenant(Settle(a, OrgRequest(a, step)), Settle(b, OrgRequest(b, step)), org)
  {
    if CurrentUser(a.users, step.actor) {
      match step
      case DoAccept(_, _, _) => SameAccept(a, b, step, org);
      case DoCreate(_, _, _, _) =>
      case DoInvite(_, _, _, _, _, _, _) => if org in a.orgs { SameInvite(a, b, step, org); }
      case DoDelete(actor, _) => if org in a.orgs { SameDelete(a, b, actor, org); }
      case _ => if org in a.orgs { SameMemberRequest(a, b, step, org); }
    }
  }

  // ── The theorem ───────────────────────────────────────────────────

  lemma {:induction false} ProjectionSimulates(cfg: Config, steps: seq<Step>, org: Id)
    requires forall k :: 0 <= k < |steps| ==> SuppliedFresh(At(cfg, steps, k).db, steps[k], org)
    ensures var full, alone := Run(cfg, EMPTY, steps), Run(cfg, EMPTY, Projection(cfg, steps, org));
            SameTenant(full.db, alone.db, org) && full.Accounts() == alone.Accounts()
  {
    if steps != [] {
      var n := |steps| - 1;
      var init, last := steps[..n], steps[n];
      forall k | 0 <= k < n ensures SuppliedFresh(At(cfg, init, k).db, init[k], org) {
        AtPrefix(cfg, steps, n, k);
      }
      ProjectionSimulates(cfg, init, org);
      var a, b := Run(cfg, EMPTY, init), Run(cfg, EMPTY, Projection(cfg, init, org));
      if Kept(a.db, last, org) {
        assert (Projection(cfg, init, org) + [last])[..|Projection(cfg, init, org)|] == Projection(cfg, init, org);
        assert Run(cfg, EMPTY, Projection(cfg, steps, org)) == Next(cfg, b, last);
        if last.Org? {
          KeptRequest(a.db, b.db, last.org, org);
          OrgRequestFrame(a.db, last.org);
          OrgRequestFrame(b.db, last.org);
        }
      } else {
        assert Projection(cfg, steps, org) == Projection(cfg, init, org);
        DroppedStep(cfg, a, b, last, org);
      }
    }
  }

  lemma DroppedStep(cfg: Config, a: World, b: World, step: Step, org: Id)
    requires SameTenant(a.db, b.db, org) && a.Accounts() == b.Accounts()
    requires !Kept(a.db, step, org)
    ensures var next := Next(cfg, a, step);
            SameTenant(next.db, b.db, org) && next.Accounts() == b.Accounts()
  {
    match step
    case Org(s) =>
      if !RefusedDeletion(a.db, s) { ForeignRequest(a.db, s, b.db, org); }
      OrgRequestFrame(a.db, s);
    case Bill(s) => BillingRequestFrame(cfg, a.db, s);
  }

  /** Replaying only the account requests and the requests addressed to one
      organization gives that organization the same members, with the same roles,
      and the same invitations. */
  lemma TenantsAreIsolated(cfg: Config, steps: seq<Step>, org: Id)
    requires forall k :: 0 <= k < |steps| ==> SuppliedFresh(At(cfg, steps, k).db, steps[k], org)
    ensures var full, alone := Run(cfg, EMPTY, steps).db, Run(cfg, EMPTY, Projection(cfg, steps, org)).db;
            && Roster(full, org) == Roster(alone, org)
            && InvitationsOf(full, org) == InvitationsOf(alone, org)
            && (org in full.orgs <==> org in alone.orgs)
  {
    ProjectionSimulates(cfg, steps, org);
  }
}
