/** Role ranking and the one permission rule of organizations. */
module MembershipPolicy {
  import opened Schema

  function Rank(role: Role): nat {
    match role
    case Viewer => 0
    case Member => 1
    case Admin => 2
    case Owner => 3
  }

  predicate AtLeast(role: Role, minimum: Role) {
    Rank(role) >= Rank(minimum)
  }

  /** The caller holds a membership of the organization of at least this rank. */
  predicate HasRole(db: Db, user: Id, org: Id, minimum: Role) {
    var seat := Seat(user, org);
    seat in db.members && AtLeast(db.members[seat], minimum)
  }

  /** Ranks order the roles totally: each permission contains all lower ones. */
  lemma RolesAreTotallyOrdered(db: Db, user: Id, org: Id, a: Role, b: Role)
    ensures AtLeast(a, b) || AtLeast(b, a)
    ensures AtLeast(a, b) && AtLeast(b, a) ==> a == b
    ensures AtLeast(a, b) && HasRole(db, user, org, a) ==> HasRole(db, user, org, b)
    ensures !AtLeast(Viewer, Member) && !AtLeast(Member, Admin) && !AtLeast(Admin, Owner)
  {
  }

  /** Every member may read; the roles that permit more, one by one. */
  lemma PermissionsExactly(db: Db, user: Id, org: Id)
    ensures var seat := Seat(user, org);
            && (HasRole(db, user, org, Viewer) <==> seat in db.members)
            && (HasRole(db, user, org, Member) <==> seat in db.members && db.members[seat] != Viewer)
            && (HasRole(db, user, org, Admin) <==> seat in db.members && db.members[seat] in {Admin, Owner})
            && (HasRole(db, user, org, Owner) <==> seat in db.members && db.members[seat] == Owner)
  {
  }
}
