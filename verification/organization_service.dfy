/** The organization service over a database session, proved against module
    `Organizations`. */
module OrganizationServices {
  import opened Schema
  import opened Text
  import opened MembershipPolicy
  import opened Slugs
  import opened DatabaseSession
  import Accounts
  import Organizations

  /** There are no more slugs in use than organizations. */
  lemma {:induction false} SlugCount(db: Db)
    ensures |Organizations.SlugsInUse(db)| <= |db.orgs|
    decreases |db.orgs|
  {
    if db.orgs == map[] {
      assert Organizations.SlugsInUse(db) == {};
    } else {
      var o :| o in db.orgs;
      var rest := db.(orgs := db.orgs - {o});
      assert rest.orgs.Keys == db.orgs.Keys - {o};
      assert |rest.orgs| == |rest.orgs.Keys| < |db.orgs.Keys| == |db.orgs|;
      SlugCount(rest);
      forall s | s in Organizations.SlugsInUse(db)
        ensures s in Organizations.SlugsInUse(rest) || s == db.orgs[o].slug
      {
        var p :| p in db.orgs && db.orgs[p].slug == s;
        assert p == o || (p in rest.orgs && rest.orgs[p].slug == s);
      }
      assert Organizations.SlugsInUse(db) == Organizations.SlugsInUse(rest) + {db.orgs[o].slug};
    }
  }

  class OrganizationService {
    const session: Session

    constructor (session: Session)
      ensures this.session == session
    {
      this.session := session;
    }

    // ── Internal ──────────────────────────────────────────────────────

    method RequireRole(user: Id, org: Id, minimum: Role) returns (r: Outcome<Role>)
      ensures r.Ok? <==> HasRole(session.work, user, org, minimum)
      ensures r.Ok? ==> r.value == session.work.members[Seat(user, org)]
      ensures r.Err? ==> r.error == Forbidden
    {
      var seat := Seat(user, org);
      if seat !in session.work.members {
        return Err(Forbidden);
      }
      var role := session.work.members[seat];
      if Rank(role) < Rank(minimum) {
        return Err(Forbidden);
      }
      return Ok(role);
    }

    /** Tries base, base-1, base-2, ... and stops within one lookup more than there
        are organizations. */
    method UniqueSlug(base: string) returns (slug: string, ghost lookups: nat)
      ensures slug == FirstFree(Organizations.SlugsInUse(session.work), base)
      ensures lookups <= |session.work.orgs| + 1
    {
      ghost var taken := Organizations.SlugsInUse(session.work);
      SlugCount(session.work);
      assert |taken| <= |session.work.orgs|;
      slug := base;
      var counter := 1;
      lookups := 1;
      while exists o | o in session.work.orgs :: session.work.orgs[o].slug == slug
        invariant counter == lookups && slug == Candidate(base, counter - 1)
        invariant forall j: nat :: j < counter - 1 ==> Candidate(base, j) in taken
        invariant counter - 1 <= |taken|
        decreases |taken| - counter
      {
        assert Candidate(base, counter - 1) in taken;
        TakenCandidates(taken, base, counter);
        slug := base + "-" + Decimal(counter);
        counter := counter + 1;
        lookups := lookups + 1;
      }
      FirstFreeIsLeast(taken, base, counter - 1);
    }

    // ── Organizations ─────────────────────────────────────────────────

    method Create(org: Id, name: string, baseSlug: string, owner: Id) returns (r: Outcome<Id>)
      requires owner in session.work.users
      modifies session
      ensures Attempt(session.work, r) == Organizations.Create(old(session.work), org, name, baseSlug, owner)
      ensures session.committed == old(session.committed)
    {
      var slug, _ := UniqueSlug(baseSlug);
      var seat := Seat(owner, org);
      if org in session.work.orgs || seat in session.work.members {
        return Err(Integrity);
      }
      session.work := session.work.(orgs := session.work.orgs[org := Organization(name, slug, None, Free, None)]);
      session.work := session.work.(members := session.work.members[seat := Owner]);
      return Ok(org);
    }

    method Update(org: Id, name: Option<string>, logo: Option<string>, actor: Id) returns (r: Outcome<Id>)
      requires org in session.work.orgs
      modifies session
      ensures Attempt(session.work, r) == Organizations.Update(old(session.work), org, name, logo, actor)
      ensures session.committed == old(session.committed)
    {
      var allowed := RequireRole(actor, org, Admin);
      if allowed.Err? {
        return Err(allowed.error);
      }
      var row := session.work.orgs[org];
      if name.Some? {
        row := row.(name := name.value);
      }
      if logo.Some? {
        row := row.(logo := logo);
      }
      session.work := session.work.(orgs := session.work.orgs[org := row]);
      return Ok(org);
    }

    method Delete(org: Id, actor: Id) returns (r: Outcome<Id>)
      requires org in session.work.orgs
      modifies session
      ensures Attempt(session.work, r) == Organizations.Delete(old(session.work), org, actor)
      ensures session.committed == old(session.committed)
    {
      var allowed := RequireRole(actor, org, Owner);
      if allowed.Err? {
        return Err(allowed.error);
      }
      var db := session.work;
      if org in db.subs {
        return Err(Integrity);
      }
      session.work := db.(orgs := db.orgs - {org},
                          members := map s | s in db.members && s.org != org :: db.members[s],
                          invites := map i | i in db.invites && db.invites[i].org != org :: db.invites[i]);
      return Ok(org);
    }

    // ── Members ───────────────────────────────────────────────────────

    method UpdateMemberRole(org: Id, target: Id, newRole: Role, actor: Id) returns (r: Outcome<Id>)
      requires org in session.work.orgs
      modifies session
      ensures Attempt(session.work, r) == Organizations.UpdateMemberRole(old(session.work), org, target, newRole, actor)
      ensures session.committed == old(session.committed)
    {
      var allowed := RequireRole(actor, org, Admin);
      if allowed.Err? {
        return Err(allowed.error);
      }
      var seat := Seat(target, org);
      if seat !in session.work.members {
        return Err(NotFound);
      }
      if session.work.members[seat] == Owner {
        var owner := RequireRole(actor, org, Owner);
        if owner.Err? {
          return Err(owner.error);
        }
      }
      session.work := session.work.(members := session.work.members[seat := newRole]);
      return Ok(target);
    }

    method RemoveMember(org: Id, target: Id, actor: Id) returns (r: Outcome<Id>)
      requires org in session.work.orgs
      modifies session
      ensures Attempt(session.work, r) == Organizations.RemoveMember(old(session.work), org, target, actor)
      ensures session.committed == old(session.committed)
    {
      if actor != target {
        var allowed := RequireRole(actor, org, Admin);
        if allowed.Err? {
          return Err(allowed.error);
        }
      }
      session.work := session.work.(members := session.work.members - {Seat(target, org)});
      return Ok(target);
    }

    // ── Invitations ───────────────────────────────────────────────────

    method InviteMember(org: Id, email: string, role: Role, actor: Id, invite: Id, rawToken: string, now: Time)
      returns (r: Outcome<Id>)
      requires org in session.work.orgs
      modifies session
      ensures Attempt(session.work, r) ==
              Organizations.InviteMember(old(session.work), org, email, role, actor, invite, rawToken, now)
      ensures session.committed == old(session.committed)
    {
      var allowed := RequireRole(actor, org, Admin);
      if allowed.Err? {
        return Err(allowed.error);
      }
      var address := Normalize(email);
      var existing := OneOrNone(Organizations.PendingFor(session.work, address, org));
      if existing.ManyRows? {
        return Err(MultipleRows);
      }
      if existing.OneRow? {
        return Err(Conflict);
      }
      var existingUser := OneOrNone(Accounts.WithEmail(session.work.users, address));
      if existingUser.ManyRows? {
        return Err(MultipleRows);
      }
      if existingUser.OneRow? && Seat(existingUser.id, org) in session.work.members {
        return Err(Conflict);
      }
      var row := Invitation(org, address, role, TokenHash(rawToken), actor, Pending,
                            now + Organizations.INVITATION_TTL);
      if invite in session.work.invites || Organizations.WithToken(session.work, row.token) != {} {
        return Err(Integrity);
      }
      session.work := session.work.(invites := session.work.invites[invite := row]);
      return Ok(invite);
    }

    method RevokeInvitation(org: Id, invite: Id, actor: Id) returns (r: Outcome<Id>)
      requires org in session.work.orgs
      modifies session
      ensures Attempt(session.work, r) == Organizations.RevokeInvitation(old(session.work), org, invite, actor)
      ensures session.committed == old(session.committed)
    {
      var allowed := RequireRole(actor, org, Admin);
      if allowed.Err? {
        return Err(allowed.error);
      }
      if invite !in session.work.invites || session.work.invites[invite].org != org {
        return Err(NotFound);
      }
      var row := session.work.invites[invite];
      if row.status != Pending {
        return Err(BadRequest);
      }
      session.work := session.work.(invites := session.work.invites[invite := row.(status := Revoked)]);
      return Ok(invite);
    }

    /** An overdue invitation is marked EXPIRED in the session before the request
        fails; closing the session undoes it. */
    method AcceptInvitation(rawToken: string, user: Id, now: Time) returns (r: Outcome<Id>)
      requires user in session.work.users
      modifies session
      ensures Attempt(session.work, r) == Organizations.AcceptInvitation(old(session.work), rawToken, user, now)
      ensures session.committed == old(session.committed)
    {
      var found := OneOrNone(Organizations.WithToken(session.work, TokenHash(rawToken)));
      if found.ManyRows? {
        return Err(MultipleRows);
      }
      if found.NoRow? {
        return Err(BadRequest);
      }
      var row := session.work.invites[found.id];
      if row.status != Pending {
        return Err(BadRequest);
      }
      if row.expiresAt < now {
        session.work := session.work.(invites := session.work.invites[found.id := row.(status := Expired)]);
        return Err(BadRequest);
      }
      if row.email != session.work.users[user].email {
        return Err(Forbidden);
      }
      var seat := Seat(user, row.org);
      if seat in session.work.members || row.org !in session.work.orgs {
        return Err(Integrity);
      }
      session.work := session.work.(members := session.work.members[seat := row.role]);
      session.work := session.work.(invites := session.work.invites[found.id := row.(status := Accepted)]);
      return Ok(row.org);
    }
  }
}
