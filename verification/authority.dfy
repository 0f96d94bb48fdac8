/** Administrative authority is never conjured: it starts with the founder and
    passes on only through people who hold it. */
module Authority {
  import opened Schema
  import opened Text
  import opened Accounts
  import opened MembershipPolicy
  import opened Organizations
  import opened System
  import opened Integrity
  import opened Reachable
  import opened Invitations

  // ── Closure ───────────────────────────────────────────────────────

  /** No member and no pending invitation of the organization ranks ADMIN or above. */
  ghost predicate Leaderless(db: Db, org: Id) {
    && org in db.orgs
    && (forall s :: s in db.members && s.org == org ==> !AtLeast(db.members[s], Admin))
    && (forall i :: i in db.invites && db.invites[i].org == org && db.invites[i].status == Pending
                    ==> !AtLeast(db.invites[i].role, Admin))
  }

  lemma LeaderlessStep(db: Db, step: OrgStep, org: Id)
    requires StoreOk(db) && Leaderless(db, org)
    ensures Leaderless(Settle(db, OrgRequest(db, step)), org)
  {
    var after := Settle(db, OrgRequest(db, step));
    if step.DoAccept? {
      AcceptStep(db, step);
    } else if !step.DoCreate? && CurrentUser(db.users, step.actor) && step.org in db.orgs {
      LeaderlessRequest(db, step, org);
    }
  }

  lemma LeaderlessRequest(db: Db, step: OrgStep, org: Id)
    requires Leaderless(db, org)
    requires !step.DoAccept? && !step.DoCreate? && step.org in db.orgs
    ensures Leaderless(Settle(db, MemberRequest(db, step)), org)
  {
  }

  lemma OthersKeepMembers(cfg: Config, w: World, step: Step)
    requires !step.Org?
    ensures var after := Next(cfg, w, step).db;
            && after.members == w.db.members && after.invites == w.db.invites && after.orgs.Keys == w.db.orgs.Keys
  {
    if step.Bill? { BillingRequestFrame(cfg, w.db, step.bill); }
  }

  /** An organization that has lost its last administrator, invited ones included,
      never has one again, and can no longer be deleted. */
  lemma {:induction false} LeaderlessForever(cfg: Config, w: World, steps: seq<Step>, org: Id)
    requires StoreOk(w.db) && Leaderless(w.db, org)
    ensures Leaderless(Run(cfg, w, steps).db, org)
  {
    if steps != [] {
      var init, last := steps[..|steps| - 1], steps[|steps| - 1];
      LeaderlessForever(cfg, w, init, org);
      RunKeepsStore(cfg, w, init);
      var here := Run(cfg, w, init);
      if last.Org? { LeaderlessStep(here.db, last.org, org); } else { OthersKeepMembers(cfg, here, last); }
    }
  }

  // ── Where invitations come from ───────────────────────────────────

  /** The row is the one this request stores, but for its status, and ends seven days
      later. */
  predicate SentAs(step: OrgStep, i: Id, row: Invitation) {
    && step.DoInvite? && step.invite == i
    && row == Invitation(step.org, Normalize(step.email), step.role, TokenHash(step.rawToken), step.actor,
                         row.status, step.now + 604800.0)
  }

  /** The request at step `k`, of someone then ranked ADMIN or above, stored this
      invitation, pending. */
  ghost predicate SentByAdmin(cfg: Config, steps: seq<Step>, k: nat, i: Id, row: Invitation) {
    && k < |steps| && steps[k].Org? && SentAs(steps[k].org, i, row)
    && HasRole(At(cfg, steps, k).db, row.invitedBy, row.org, Admin)
    && i !in At(cfg, steps, k).db.invites
    && i in At(cfg, steps, k + 1).db.invites
    && At(cfg, steps, k + 1).db.invites[i] == row.(status := Pending)
  }

  ghost predicate StoredAt(cfg: Config, steps: seq<Step>, m: nat, i: Id)
    requires m <= |steps|
  {
    i in At(cfg, steps, m).db.invites
  }

  ghost predicate StoredSince(cfg: Config, steps: seq<Step>, n: nat, k: nat, i: Id)
    requires n <= |steps|
  {
    forall m :: k < m <= n ==> StoredAt(cfg, steps, m, i)
  }

  lemma StillStored(cfg: Config, steps: seq<Step>, n: nat, k: nat, i: Id)
    requires n < |steps| && StoredSince(cfg, steps, n, k, i) && StoredAt(cfg, steps, n + 1, i)
    ensures StoredSince(cfg, steps, n + 1, k, i)
  {
    forall m | k < m <= n + 1 ensures StoredAt(cfg, steps, m, i) {
      assert m <= n || m == n + 1;
    }
  }

  /** Sent at step `k`, the invitation has been stored ever since. */
  ghost predicate SentSince(cfg: Config, steps: seq<Step>, n: nat, k: nat, i: Id, row: Invitation)
    requires n <= |steps|
  {
    k < n && SentByAdmin(cfg, steps, k, i, row) && StoredSince(cfg, steps, n, k, i)
  }

  lemma NewInvitation(db: Db, step: OrgStep, i: Id)
    requires StoreOk(db)
    requires i !in db.invites && i in Settle(db, OrgRequest(db, step)).invites
    ensures var row := Settle(db, OrgRequest(db, step)).invites[i];
            SentAs(step, i, row) && row.status == Pending && HasRole(db, row.invitedBy, row.org, Admin)
  {
    if step.DoAccept? {
      AcceptStep(db, step);
    } else if !step.DoCreate? && CurrentUser(db.users, step.actor) && step.org in db.orgs {
      RequestInvites(db, step, i);
    }
  }

  lemma RequestInvites(db: Db, step: OrgStep, i: Id)
    requires !step.DoAccept? && !step.DoCreate? && step.org in db.orgs
    requires i !in db.invites && i in Settle(db, MemberRequest(db, step)).invites
    ensures var row := Settle(db, MemberRequest(db, step)).invites[i];
            SentAs(step, i, row) && row.status == Pending && HasRole(db, row.invitedBy, row.org, Admin)
  {
  }

  /** The step stores this row, or had it already with perhaps another status. */
  lemma NextKeepsTerms(cfg: Config, w: World, step: Step, i: Id)
    requires StoreOk(w.db) && i in Next(cfg, w, step).db.invites
    ensures var row := Next(cfg, w, step).db.invites[i];
            if i in w.db.invites then row == w.db.invites[i].(status := row.status)
            else step.Org? && SentAs(step.org, i, row) && row.status == Pending
                 && HasRole(w.db, row.invitedBy, row.org, Admin)
  {
    match step
    case Account(s) =>
    case Bill(s) => BillingRequestFrame(cfg, w.db, s);
    case Org(s) =>
      if i in w.db.invites { InvitationTransition(w.db, s, i); } else { NewInvitation(w.db, s, i); }
  }

  lemma StillSent(cfg: Config, steps: seq<Step>, n: nat, k: nat, i: Id, row: Invitation, now: Invitation)
    requires n < |steps| && SentSince(cfg, steps, n, k, i, row)
    requires StoredAt(cfg, steps, n + 1, i) && now == row.(status := now.status)
    ensures SentSince(cfg, steps, n + 1, k, i, now)
  {
    StillStored(cfg, steps, n, k, i);
  }

  /** Every stored invitation, whatever its status, was stored by a request of someone
      ranked ADMIN or above at that moment, has been there since, and still has the
      address, role, token and expiry it was sent with. */
  lemma {:induction false} EveryInvitationWasSent(cfg: Config, steps: seq<Step>, n: nat, i: Id)
    requires n <= |steps| && i in At(cfg, steps, n).db.invites
    ensures exists k: nat :: SentSince(cfg, steps, n, k, i, At(cfg, steps, n).db.invites[i])
  {
    if n == 0 {
      NothingAtFirst(cfg, steps);
    } else {
      InvitationStays(cfg, steps, n - 1, i);
      if i in At(cfg, steps, n - 1).db.invites {
        EveryInvitationWasSent(cfg, steps, n - 1, i);
        var before, now := At(cfg, steps, n - 1).db.invites[i], At(cfg, steps, n).db.invites[i];
        var k: nat :| SentSince(cfg, steps, n - 1, k, i, before);
        assert StoredAt(cfg, steps, n, i);
        StillSent(cfg, steps, n - 1, k, i, before, now);
      }
    }
  }

  lemma NothingAtFirst(cfg: Config, steps: seq<Step>)
    ensures At(cfg, steps, 0) == EMPTY
  {
    assert steps[..0] == [];
  }

  lemma InvitationStays(cfg: Config, steps: seq<Step>, n: nat, i: Id)
    requires n < |steps| && i in At(cfg, steps, n + 1).db.invites
    ensures var row := At(cfg, steps, n + 1).db.invites[i];
            if i in At(cfg, steps, n).db.invites then row == At(cfg, steps, n).db.invites[i].(status := row.status)
            else SentSince(cfg, steps, n + 1, n, i, row)
  {
    AtNext(cfg, steps, n);
    ReachableStoreOk(cfg, steps[..n]);
    NextKeepsTerms(cfg, At(cfg, steps, n), steps[n], i);
    assert StoredAt(cfg, steps, n + 1, i);
  }

  // ── Where memberships and authority come from ─────────────────────

  /** At step `k` the user joined: the request met the invitation pending, with its
      token, within the seven days and at the account's own address; an administrator had sent it at
      step `j` and it had been stored since; and the request added the membership. */
  ghost predicate JoinedAt(cfg: Config, steps: seq<Step>, k: nat, user: Id, org: Id, role: Role, j: nat, i: Id) {
    && k < |steps| && steps[k].Org? && steps[k].org.actor == user
    && var db, seat := At(cfg, steps, k).db, Seat(user, org);
       && Accepts(db, steps[k].org, i)
       && db.invites[i].org == org && db.invites[i].role == role
       && SentSince(cfg, steps, k, j, i, db.invites[i])
       && steps[k].org.now <= steps[j].org.now + 604800.0
       && seat !in db.members
       && seat in At(cfg, steps, k + 1).db.members && At(cfg, steps, k + 1).db.members[seat] == role
  }

  /** At step `k` the user founded the organization and became its only member. */
  ghost predicate FoundedAt(cfg: Config, steps: seq<Step>, k: nat, user: Id, org: Id) {
    && k < |steps| && steps[k].Org? && steps[k].org.DoCreate?
    && steps[k].org.actor == user && steps[k].org.org == org
    && org !in At(cfg, steps, k).db.orgs
    && org in At(cfg, steps, k + 1).db.orgs
    && Roster(At(cfg, steps, k + 1).db, org) == map[Seat(user, org) := Owner]
  }

  /** How a request at step `k` brought a membership about. */
  ghost predicate SeatedAt(cfg: Config, steps: seq<Step>, k: nat, seat: Seat) {
    || FoundedAt(cfg, steps, k, seat.user, seat.org)
    || exists role, j: nat, i :: JoinedAt(cfg, steps, k, seat.user, seat.org, role, j, i)
  }

  ghost predicate SeatAt(cfg: Config, steps: seq<Step>, m: nat, seat: Seat)
    requires m <= |steps|
  {
    seat in At(cfg, steps, m).db.members
  }

  /** The membership appeared at step `k` and has lasted since. */
  ghost predicate SeatedSince(cfg: Config, steps: seq<Step>, n: nat, k: nat, seat: Seat)
    requires n <= |steps|
  {
    && k < n && SeatedAt(cfg, steps, k, seat) && !SeatAt(cfg, steps, k, seat)
    && forall m :: k < m <= n ==> SeatAt(cfg, steps, m, seat)
  }

  lemma StillSeated(cfg: Config, steps: seq<Step>, n: nat, k: nat, seat: Seat)
    requires n < |steps| && SeatedSince(cfg, steps, n, k, seat) && SeatAt(cfg, steps, n + 1, seat)
    ensures SeatedSince(cfg, steps, n + 1, k, seat)
  {
    forall m | k < m <= n + 1 ensures SeatAt(cfg, steps, m, seat) {
      assert m <= n || m == n + 1;
    }
  }

  lemma AcceptJoins(cfg: Config, steps: seq<Step>, k: nat, i: Id)
    requires k < |steps| && steps[k].Org? && Accepts(At(cfg, steps, k).db, steps[k].org, i)
    ensures var row := At(cfg, steps, k).db.invites[i];
            exists j: nat :: JoinedAt(cfg, steps, k, steps[k].org.actor, row.org, row.role, j, i)
  {
    AtNext(cfg, steps, k);
    ReachableStoreOk(cfg, steps[..k]);
    AcceptAdds(At(cfg, steps, k).db, steps[k].org, i);
    EveryInvitationWasSent(cfg, steps, k, i);
    var row := At(cfg, steps, k).db.invites[i];
    var j: nat :| SentSince(cfg, steps, k, j, i, row);
    assert JoinedAt(cfg, steps, k, steps[k].org.actor, row.org, row.role, j, i);
  }

  lemma AcceptAdds(db: Db, step: OrgStep, i: Id)
    requires StoreOk(db) && Accepts(db, step, i)
    ensures var seat := Seat(step.actor, db.invites[i].org);
            && seat !in db.members
            && Settle(db, OrgRequest(db, step)).members == db.members[seat := db.invites[i].role]
  {
    AcceptStep(db, step);
    var j :| Accepts(db, step, j);
    forall j | Accepts(db, step, j) ensures j == i {
      AcceptsOnlyOne(db, step, i, j);
    }
  }

  lemma CreateFounds(cfg: Config, steps: seq<Step>, k: nat, org: Id)
    requires k < |steps| && steps[k].Org?
    requires org !in At(cfg, steps, k).db.orgs && org in At(cfg, steps, k + 1).db.orgs
    ensures steps[k].org.DoCreate? && FoundedAt(cfg, steps, k, steps[k].org.actor, org)
  {
    AtNext(cfg, steps, k);
    OnlyCreateAddsOrgs(At(cfg, steps, k).db, steps[k].org, org);
    assert ReferencesExist(At(cfg, steps, k).db) by {
      ReachableStoreOk(cfg, steps[..k]);
    }
  }

  lemma SeatTraced(cfg: Config, steps: seq<Step>, k: nat, seat: Seat)
    requires k < |steps| && steps[k].Org?
    requires !SeatAt(cfg, steps, k, seat) && SeatAt(cfg, steps, k + 1, seat)
    ensures SeatedAt(cfg, steps, k, seat)
  {
    var db, s := At(cfg, steps, k).db, steps[k].org;
    AtNext(cfg, steps, k);
    ReachableStoreOk(cfg, steps[..k]);
    MembershipOrigin(db, s, seat);
    if s.DoCreate? {
      assert seat.org in At(cfg, steps, k + 1).db.orgs by { ReachableStoreOk(cfg, steps[..k + 1]); }
      CreateFounds(cfg, steps, k, seat.org);
    } else {
      var i :| Accepts(db, s, i) && seat == Seat(s.actor, db.invites[i].org);
      AcceptJoins(cfg, steps, k, i);
    }
  }

  /** Whoever is a member at some point of a run became one at an earlier step, and has
      been one since: by founding the organization, or by accepting within seven days a
      pending invitation that an administrator had sent to the member's own address. */
  lemma {:induction false} EveryMembershipIsTraced(cfg: Config, steps: seq<Step>, n: nat, seat: Seat)
    requires n <= |steps| && SeatAt(cfg, steps, n, seat)
    ensures exists k: nat :: SeatedSince(cfg, steps, n, k, seat)
  {
    if n == 0 {
      NothingAtFirst(cfg, steps);
    } else if SeatAt(cfg, steps, n - 1, seat) {
      EveryMembershipIsTraced(cfg, steps, n - 1, seat);
      var k: nat :| SeatedSince(cfg, steps, n - 1, k, seat);
      StillSeated(cfg, steps, n - 1, k, seat);
    } else {
      OnlyOrgStepsSeat(cfg, steps, n - 1, seat);
      SeatTraced(cfg, steps, n - 1, seat);
      assert SeatedSince(cfg, steps, n, n - 1, seat);
    }
  }

  lemma OnlyOrgStepsSeat(cfg: Config, steps: seq<Step>, n: nat, seat: Seat)
    requires n < |steps| && !SeatAt(cfg, steps, n, seat) && SeatAt(cfg, steps, n + 1, seat)
    ensures steps[n].Org?
  {
    AtNext(cfg, steps, n);
    if !steps[n].Org? { OthersKeepMembers(cfg, At(cfg, steps, n), steps[n]); }
  }

  ghost predicate RankedAt(cfg: Config, steps: seq<Step>, m: nat, user: Id, org: Id)
    requires m <= |steps|
  {
    HasRole(At(cfg, steps, m).db, user, org, Admin)
  }

  /** At step `k` this user came to rank ADMIN or above: by founding the organization,
      by a role change somebody then so ranked made, or by accepting an invitation that
      such a person had sent. */
  ghost predicate GrantedAt(cfg: Config, steps: seq<Step>, k: nat, user: Id, org: Id) {
    && k < |steps| && steps[k].Org?
    && !RankedAt(cfg, steps, k, user, org) && RankedAt(cfg, steps, k + 1, user, org)
    && var s := steps[k].org;
       || FoundedAt(cfg, steps, k, user, org)
       || (s.DoUpdateRole? && s.target == user && s.org == org
           && RankedAt(cfg, steps, k, s.actor, org)
           && At(cfg, steps, k + 1).db.members[Seat(user, org)] == s.role)
       || exists role, j: nat, i :: JoinedAt(cfg, steps, k, user, org, role, j, i)
  }

  ghost predicate RankKept(cfg: Config, steps: seq<Step>, n: nat, k: nat, user: Id, org: Id)
    requires n <= |steps|
  {
    forall m :: k < m <= n ==> RankedAt(cfg, steps, m, user, org)
  }

  lemma RankStillKept(cfg: Config, steps: seq<Step>, n: nat, k: nat, user: Id, org: Id)
    requires n < |steps| && RankKept(cfg, steps, n, k, user, org) && RankedAt(cfg, steps, n + 1, user, org)
    ensures RankKept(cfg, steps, n + 1, k, user, org)
  {
    forall m | k < m <= n + 1 ensures RankedAt(cfg, steps, m, user, org) {
      assert m <= n || m == n + 1;
    }
  }

  /** The rank was gained at step `k` and has been kept since. */
  ghost predicate GrantedSince(cfg: Config, steps: seq<Step>, n: nat, k: nat, user: Id, org: Id)
    requires n <= |steps|
  {
    k < n && GrantedAt(cfg, steps, k, user, org) && RankKept(cfg, steps, n, k, user, org)
  }

  lemma StillRanked(cfg: Config, steps: seq<Step>, n: nat, k: nat, user: Id, org: Id)
    requires n < |steps| && GrantedSince(cfg, steps, n, k, user, org) && RankedAt(cfg, steps, n + 1, user, org)
    ensures GrantedSince(cfg, steps, n + 1, k, user, org)
  {
    RankStillKept(cfg, steps, n, k, user, org);
  }

  lemma JustGranted(cfg: Config, steps: seq<Step>, n: nat, user: Id, org: Id)
    requires n < |steps| && GrantedAt(cfg, steps, n, user, org)
    ensures GrantedSince(cfg, steps, n + 1, n, user, org)
  {
    assert RankKept(cfg, steps, n + 1, n, user, org);
  }

  /** How a user can come to rank ADMIN or above in one step. */
  lemma RiseStep(db: Db, step: OrgStep, user: Id, org: Id)
    requires StoreOk(db)
    requires !HasRole(db, user, org, Admin)
    requires HasRole(Settle(db, OrgRequest(db, step)), user, org, Admin)
    ensures || (step.DoCreate? && step.actor == user && step.org == org && org !in db.orgs
                && org in Settle(db, OrgRequest(db, step)).orgs)
            || (step.DoUpdateRole? && step.target == user && step.org == org
                && HasRole(db, step.actor, org, Admin)
                && Settle(db, OrgRequest(db, step)).members[Seat(user, org)] == step.role)
            || (step.DoAccept? && step.actor == user
                && exists i :: Accepts(db, step, i) && db.invites[i].org == org && AtLeast(db.invites[i].role, Admin))
  {
    if step.DoAccept? {
      AcceptStep(db, step);
    } else if !step.DoCreate? && CurrentUser(db.users, step.actor) && step.org in db.orgs {
      RiseRequest(db, step, user, org);
    }
  }

  lemma RiseRequest(db: Db, step: OrgStep, user: Id, org: Id)
    requires !step.DoAccept? && !step.DoCreate? && step.org in db.orgs
    requires !HasRole(db, user, org, Admin)
    requires HasRole(Settle(db, MemberRequest(db, step)), user, org, Admin)
    ensures step.DoUpdateRole? && step.target == user && step.org == org
    ensures HasRole(db, step.actor, org, Admin)
    ensures Settle(db, MemberRequest(db, step)).members[Seat(user, org)] == step.role
  {
  }

  lemma RiseTraced(cfg: Config, steps: seq<Step>, n: nat, user: Id, org: Id)
    requires n < |steps|
    requires !RankedAt(cfg, steps, n, user, org) && RankedAt(cfg, steps, n + 1, user, org)
    ensures GrantedAt(cfg, steps, n, user, org)
  {
    var w := At(cfg, steps, n);
    AtNext(cfg, steps, n);
    if steps[n].Org? {
      ReachableStoreOk(cfg, steps[..n]);
      RiseStep(w.db, steps[n].org, user, org);
      if steps[n].org.DoAccept? {
        var i :| Accepts(w.db, steps[n].org, i) && w.db.invites[i].org == org && AtLeast(w.db.invites[i].role, Admin);
        AcceptJoins(cfg, steps, n, i);
      } else if steps[n].org.DoCreate? {
        CreateFounds(cfg, steps, n, org);
      }
    } else {
      OthersKeepMembers(cfg, w, steps[n]);
      assert false;
    }
  }

  /** Whoever ranks ADMIN or above at some point of a run came to that rank at an earlier
      step, where it was given by founding or by someone so ranked, and has kept it. */
  lemma {:induction false} AuthorityIsGranted(cfg: Config, steps: seq<Step>, n: nat, user: Id, org: Id)
    requires n <= |steps| && RankedAt(cfg, steps, n, user, org)
    ensures exists k: nat :: GrantedSince(cfg, steps, n, k, user, org)
  {
    if n == 0 {
      NothingAtFirst(cfg, steps);
    } else if RankedAt(cfg, steps, n - 1, user, org) {
      AuthorityIsGranted(cfg, steps, n - 1, user, org);
      var k: nat :| GrantedSince(cfg, steps, n - 1, k, user, org);
      StillRanked(cfg, steps, n - 1, k, user, org);
    } else {
      RiseTraced(cfg, steps, n - 1, user, org);
      JustGranted(cfg, steps, n - 1, user, org);
    }
  }
}
