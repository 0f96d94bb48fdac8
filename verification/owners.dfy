/** Who can become an owner and who can take an owner's place away. The glossary says
    that administrators manage all members except owners; the code protects an owner
    only from a role change by somebody who is not one at that moment. */
module Owners {
  import opened Schema
  import opened Accounts
  import opened MembershipPolicy
  import opened Organizations
  import opened Reachable
  import opened Invitations

  predicate IsOwner(db: Db, user: Id, org: Id) {
    Seat(user, org) in db.members && db.members[Seat(user, org)] == Owner
  }

  ghost predicate HasOwner(db: Db, org: Id) {
    exists u :: IsOwner(db, u, org)
  }

  /** The requests that end this user's ownership. */
  predicate Unseats(db: Db, step: OrgStep, user: Id, org: Id) {
    && CurrentUser(db.users, step.actor) && org in db.orgs && !step.DoAccept? && step.org == org
    && match step
       case DoUpdateRole(actor, _, target, role) => target == user && role != Owner && IsOwner(db, actor, org)
       case DoRemove(actor, _, target) => target == user && (actor == user || HasRole(db, actor, org, Admin))
       case DoDelete(actor, _) => IsOwner(db, actor, org) && org !in db.subs
       case _ => false
  }

  /** An owner stops being one by exactly these requests. */
  lemma OwnershipEndsExactly(db: Db, step: OrgStep, user: Id, org: Id)
    requires IsOwner(db, user, org)
    ensures !IsOwner(Settle(db, OrgRequest(db, step)), user, org) <==> Unseats(db, step, user, org)
  {
  }

  /** Somebody who is not an owner ends another's ownership exactly by removing the
      owner as an administrator: removal has no guard for owners, as a role change does. */
  lemma AdministratorsSpareOwnersExactly(db: Db, step: OrgStep, user: Id, org: Id)
    requires IsOwner(db, user, org) && !IsOwner(db, step.actor, org)
    ensures !IsOwner(Settle(db, OrgRequest(db, step)), user, org) <==>
            && CurrentUser(db.users, step.actor) && org in db.orgs
            && step.DoRemove? && step.org == org && step.target == user
            && Seat(step.actor, org) in db.members && db.members[Seat(step.actor, org)] == Admin
  {
  }

  // ── Becoming an owner ─────────────────────────────────────────────

  /** The requests that make this user an owner: founding, a role change of a member by
      anyone ranked ADMIN or above, oneself included, and accepting such an invitation. */
  ghost predicate Seats(db: Db, step: OrgStep, user: Id, org: Id) {
    && CurrentUser(db.users, step.actor)
    && match step
       case DoCreate(actor, o, _, _) => actor == user && o == org && db.users[actor].isVerified && org !in db.orgs
       case DoUpdateRole(actor, o, target, role) =>
         target == user && o == org && role == Owner && org in db.orgs && HasRole(db, actor, org, Admin)
         && Seat(user, org) in db.members
       case DoAccept(actor, _, _) =>
         actor == user && exists i :: Accepts(db, step, i) && db.invites[i].org == org && db.invites[i].role == Owner
       case _ => false
  }

  lemma RequestSeats(db: Db, step: OrgStep, user: Id, org: Id)
    requires !IsOwner(db, user, org) && CurrentUser(db.users, step.actor)
    requires !step.DoAccept? && !step.DoCreate? && step.org in db.orgs
    ensures IsOwner(Settle(db, MemberRequest(db, step)), user, org) <==> Seats(db, step, user, org)
  {
  }

  lemma AcceptSeats(db: Db, step: OrgStep, user: Id, org: Id)
    requires StoreOk(db) && !IsOwner(db, user, org) && step.DoAccept?
    ensures IsOwner(Settle(db, OrgRequest(db, step)), user, org) <==> Seats(db, step, user, org)
  {
    AcceptStep(db, step);
    if i :| Accepts(db, step, i) {
      forall j | Accepts(db, step, j) ensures j == i {
        AcceptsOnlyOne(db, step, i, j);
      }
    }
  }

  /** Somebody who is no owner becomes one by exactly these requests. */
  lemma OwnershipBeginsExactly(db: Db, step: OrgStep, user: Id, org: Id)
    requires StoreOk(db) && !IsOwner(db, user, org)
    ensures IsOwner(Settle(db, OrgRequest(db, step)), user, org) <==> Seats(db, step, user, org)
  {
    if step.DoAccept? {
      AcceptSeats(db, step, user, org);
    } else if !step.DoCreate? && CurrentUser(db.users, step.actor) && step.org in db.orgs {
      RequestSeats(db, step, user, org);
    }
  }

  /** Two role changes give any administrator any owner's place: the guard looks at the
      role its target has at that moment, and no guard looks at the role given. */
  lemma AdministratorsReplaceOwners(db: Db, admin: Id, owner: Id, org: Id, role: Role)
    requires org in db.orgs && CurrentUser(db.users, admin) && HasRole(db, admin, org, Admin)
    requires IsOwner(db, owner, org) && owner != admin && role != Owner
    ensures var risen := Settle(db, OrgRequest(db, DoUpdateRole(admin, org, admin, Owner)));
            var after := Settle(risen, OrgRequest(risen, DoUpdateRole(admin, org, owner, role)));
            && IsOwner(risen, admin, org) && IsOwner(after, admin, org)
            && after.members[Seat(owner, org)] == role
  {
  }

  // ── The last owner ────────────────────────────────────────────────

  lemma OthersKeepOwnership(db: Db, step: OrgStep, user: Id, org: Id)
    requires StoreOk(db) && org in db.orgs && !IsOwner(db, user, org)
    requires IsOwner(Settle(db, OrgRequest(db, step)), user, org)
    ensures forall v :: IsOwner(db, v, org) ==> IsOwner(Settle(db, OrgRequest(db, step)), v, org)
  {
    forall v | IsOwner(db, v, org) ensures IsOwner(Settle(db, OrgRequest(db, step)), v, org) {
      OwnershipEndsExactly(db, step, v, org);
    }
  }

  /** Whoever loses a place is the only one who does, and nobody gains one. */
  ghost predicate OnlyUnseats(db: Db, after: Db, step: OrgStep, org: Id) {
    && (forall v :: IsOwner(db, v, org) ==> (!IsOwner(after, v, org) <==> Unseats(db, step, v, org)))
    && (forall u, v :: Unseats(db, step, u, org) && Unseats(db, step, v, org) ==> u == v)
    && ((exists v :: IsOwner(after, v, org) && !IsOwner(db, v, org)) ==>
          forall v :: IsOwner(db, v, org) ==> IsOwner(after, v, org))
  }

  lemma LastOneLeft(db: Db, after: Db, step: OrgStep, org: Id)
    requires HasOwner(db, org) && OnlyUnseats(db, after, step, org)
    ensures !HasOwner(after, org) <==>
            exists u :: Unseats(db, step, u, org) && forall v :: IsOwner(db, v, org) <==> v == u
  {
  }

  /** An existing organization is left without an owner by exactly the requests that
      end the ownership of its only owner. */
  lemma LastOwnerLeavesExactly(db: Db, step: OrgStep, org: Id)
    requires StoreOk(db) && HasOwner(db, org)
    requires org in Settle(db, OrgRequest(db, step)).orgs
    ensures !HasOwner(Settle(db, OrgRequest(db, step)), org) <==>
            exists u :: Unseats(db, step, u, org) && forall v :: IsOwner(db, v, org) <==> v == u
  {
    var after := Settle(db, OrgRequest(db, step));
    forall v | IsOwner(db, v, org) ensures !IsOwner(after, v, org) <==> Unseats(db, step, v, org) {
      OwnershipEndsExactly(db, step, v, org);
    }
    forall v | IsOwner(after, v, org) && !IsOwner(db, v, org)
      ensures forall u :: IsOwner(db, u, org) ==> IsOwner(after, u, org)
    {
      OthersKeepOwnership(db, step, v, org);
    }
    DeletionIsNotSurvived(db, step, org);
    LastOneLeft(db, after, step, org);
  }

  lemma DeletionIsNotSurvived(db: Db, step: OrgStep, org: Id)
    requires org in Settle(db, OrgRequest(db, step)).orgs
    ensures forall u, v :: Unseats(db, step, u, org) && Unseats(db, step, v, org) ==> u == v
  {
  }
}
