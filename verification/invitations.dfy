/** The life of an invitation over committed states, and where memberships come from. */
module Invitations {
  import opened Schema
  import opened Text
  import opened Accounts
  import opened MembershipPolicy
  import opened Organizations
  import opened System
  import opened Integrity
  import opened Reachable

  // ── Accepting ─────────────────────────────────────────────────────

  /** An invitation that this user, presenting this token now, may accept. */
  predicate Acceptable(db: Db, i: Id, rawToken: string, user: Id, now: Time)
    requires user in db.users
  {
    && i in db.invites
    && db.invites[i].token == TokenHash(rawToken)
    && db.invites[i].status == Pending
    && now <= db.invites[i].expiresAt
    && db.invites[i].email == db.users[user].email
  }

  /** In a reachable store accepting succeeds exactly for an acceptable invitation.
      The operation does not look for an existing membership, yet it never hits
      the user/organization key, and its organization always exists. */
  lemma AcceptSucceedsExactly(db: Db, rawToken: string, user: Id, now: Time)
    requires StoreOk(db) && user in db.users
    ensures var a := AcceptInvitation(db, rawToken, user, now);
            && (a.outcome.Ok? <==> exists i :: Acceptable(db, i, rawToken, user, now))
            && (a.outcome.Err? ==> a.outcome.error == BadRequest || a.outcome.error == Forbidden)
            && (a.outcome.Ok? ==> a.outcome.value in db.orgs && Seat(user, a.outcome.value) !in db.members)
  {
    var found := WithToken(db, TokenHash(rawToken));
    var a := AcceptInvitation(db, rawToken, user, now);
    forall i | Acceptable(db, i, rawToken, user, now)
      ensures a.outcome.Ok?
    {
      assert i in found;
      assert PendingIn(db, i, db.users[user].email, db.invites[i].org);
    }
    assert forall i, j :: i in found && j in found ==> db.invites[i].token == db.invites[j].token;
    if OneOrNone(found).OneRow? {
      var i := OneOrNone(found).id;
      assert i in found;
      assert db.invites[i].status == Pending && db.invites[i].email == db.users[user].email ==>
               PendingIn(db, i, db.users[user].email, db.invites[i].org);
      assert a.outcome.Ok? ==> Acceptable(db, i, rawToken, user, now);
    }
  }

  /** What an accepted invitation writes: one membership, with the invited role. */
  lemma AcceptWrites(db: Db, rawToken: string, user: Id, now: Time, i: Id)
    requires StoreOk(db) && user in db.users
    requires Acceptable(db, i, rawToken, user, now)
    ensures var row := db.invites[i];
            AcceptInvitation(db, rawToken, user, now) ==
            Attempt(db.(members := db.members[Seat(user, row.org) := row.role],
                        invites := db.invites[i := row.(status := Accepted)]), Ok(row.org))
  {
    AcceptSucceedsExactly(db, rawToken, user, now);
    assert i in WithToken(db, TokenHash(rawToken));
  }

  /** What a granted invitation request writes. */
  lemma InviteWrites(db: Db, org: Id, email: string, role: Role, actor: Id, invite: Id, rawToken: string, now: Time)
    requires org in db.orgs
    requires InviteMember(db, org, email, role, actor, invite, rawToken, now).outcome.Ok?
    ensures var row := Invitation(org, Normalize(email), role, TokenHash(rawToken), actor, Pending,
                                  now + INVITATION_TTL);
            InviteMember(db, org, email, role, actor, invite, rawToken, now).state ==
            db.(invites := db.invites[invite := row])
  {
  }

  lemma InvitesKeepStore(db: Db, after: Db)
    requires StoreOk(db) && OrgsOk(after) && after == db.(invites := after.invites)
    ensures StoreOk(after)
  {
  }

  lemma OnlyItsInvitation(db: Db, i: Id, rawToken: string, user: Id, now: Time)
    requires StoreOk(db) && user in db.users
    requires i in db.invites && db.invites[i].token == TokenHash(rawToken)
    ensures AcceptInvitation(db, rawToken, user, now).outcome.Ok? <==> Acceptable(db, i, rawToken, user, now)
  {
    AcceptSucceedsExactly(db, rawToken, user, now);
    assert forall j :: Acceptable(db, j, rawToken, user, now) ==> j == i;
  }

  /** What one call sends the other can use: right after an invitation goes out, a user
      joins with its token exactly by having the invited address and coming within seven
      days (604800 seconds), and joins with the invited role. */
  lemma InviteThenAccept(db: Db, org: Id, email: string, role: Role, actor: Id, invite: Id, rawToken: string, now: Time,
                         user: Id, later: Time)
    requires StoreOk(db) && org in db.orgs && user in db.users
    requires InviteMember(db, org, email, role, actor, invite, rawToken, now).outcome.Ok?
    ensures var sent := InviteMember(db, org, email, role, actor, invite, rawToken, now).state;
            user in sent.users &&
            var joined := AcceptInvitation(sent, rawToken, user, later);
            && (joined.outcome.Ok? <==> db.users[user].email == Normalize(email) && later <= now + 604800.0)
            && (joined.outcome.Ok? ==> joined.outcome.value == org
                                       && joined.state.members == db.members[Seat(user, org) := role])
  {
    var sent := InviteMember(db, org, email, role, actor, invite, rawToken, now).state;
    InviteKeepsOrgs(db, org, email, role, actor, invite, rawToken, now);
    InviteWrites(db, org, email, role, actor, invite, rawToken, now);
    InvitesKeepStore(db, sent);
    OnlyItsInvitation(sent, invite, rawToken, user, later);
    if Acceptable(sent, invite, rawToken, user, later) {
      AcceptWrites(sent, rawToken, user, later, invite);
    }
  }

  // ── One step ──────────────────────────────────────────────────────

  /** The step is a request to accept this invitation that its addressee makes in
      time; it adds the one membership. */
  ghost predicate Accepts(db: Db, step: OrgStep, i: Id) {
    && step.DoAccept? && CurrentUser(db.users, step.actor)
    && Acceptable(db, i, step.rawToken, step.actor, step.now)
  }

  ghost predicate Revokes(db: Db, step: OrgStep, i: Id) {
    && step.DoRevoke? && CurrentUser(db.users, step.actor)
    && step.invite == i && i in db.invites && db.invites[i].org == step.org && db.invites[i].status == Pending
    && HasRole(db, step.actor, step.org, Admin)
  }

  /** A token belongs to one invitation. */
  lemma AcceptsOnlyOne(db: Db, step: OrgStep, i: Id, j: Id)
    requires InvitesWellFormed(db) && Accepts(db, step, i) && Accepts(db, step, j)
    ensures i == j
  {
  }

  lemma AcceptStep(db: Db, step: OrgStep)
    requires StoreOk(db) && step.DoAccept?
    ensures var after := Settle(db, OrgRequest(db, step));
            if exists i :: Accepts(db, step, i) then
              var i :| Accepts(db, step, i);
              && Seat(step.actor, db.invites[i].org) !in db.members
              && after == db.(members := db.members[Seat(step.actor, db.invites[i].org) := db.invites[i].role],
                           invites := db.invites[i := db.invites[i].(status := Accepted)])
            else after == db
  {
    if CurrentUser(db.users, step.actor) {
      AcceptSucceedsExactly(db, step.rawToken, step.actor, step.now);
      forall i | Acceptable(db, i, step.rawToken, step.actor, step.now)
        ensures Accepts(db, step, i)
      {
      }
      if i :| Accepts(db, step, i) {
        var j :| Accepts(db, step, j);
        assert i == j;
        AcceptWrites(db, step.rawToken, step.actor, step.now, i);
        assert OneOrNone(WithToken(db, TokenHash(step.rawToken))) == OneRow(i) by {
          assert i in WithToken(db, TokenHash(step.rawToken));
        }
      }
    }
  }

  lemma MemberRequestTransition(db: Db, step: OrgStep, i: Id)
    requires !step.DoAccept? && !step.DoCreate? && step.org in db.orgs
    requires CurrentUser(db.users, step.actor)
    requires i in db.invites && i in Settle(db, MemberRequest(db, step)).invites
    ensures Settle(db, MemberRequest(db, step)).invites[i] ==
            if Revokes(db, step, i) then db.invites[i].(status := Revoked) else db.invites[i]
  {
  }

  /** A committed invitation changes only by leaving PENDING, to ACCEPTED when its
      addressee accepts it in time or to REVOKED when an administrator revokes it. */
  lemma InvitationTransition(db: Db, step: OrgStep, i: Id)
    requires StoreOk(db) && i in db.invites
    requires i in Settle(db, OrgRequest(db, step)).invites
    ensures Settle(db, OrgRequest(db, step)).invites[i] ==
            if Accepts(db, step, i) then db.invites[i].(status := Accepted)
            else if Revokes(db, step, i) then db.invites[i].(status := Revoked)
            else db.invites[i]
  {
    if step.DoAccept? {
      AcceptStep(db, step);
      forall j | Accepts(db, step, i) && Accepts(db, step, j) ensures i == j {
        AcceptsOnlyOne(db, step, i, j);
      }
    } else if CurrentUser(db.users, step.actor) && !step.DoCreate? && step.org in db.orgs {
      MemberRequestTransition(db, step, i);
    }
  }

  /** A membership appears only by creating the organization, as its owner, or by
      accepting an invitation, with the role it names. */
  lemma MembershipOrigin(db: Db, step: OrgStep, seat: Seat)
    requires StoreOk(db)
    requires seat !in db.members
    requires seat in Settle(db, OrgRequest(db, step)).members
    ensures var role := Settle(db, OrgRequest(db, step)).members[seat];
            || (step.DoCreate? && seat == Seat(step.actor, step.org) && step.org !in db.orgs && role == Owner)
            || (exists i :: Accepts(db, step, i) && seat == Seat(step.actor, db.invites[i].org)
                            && role == db.invites[i].role)
  {
    if step.DoAccept? {
      AcceptStep(db, step);
    } else if !step.DoCreate? && CurrentUser(db.users, step.actor) && step.org in db.orgs {
      RequestsSeatNobody(db, step);
    }
  }

  lemma RequestsSeatNobody(db: Db, step: OrgStep)
    requires !step.DoAccept? && !step.DoCreate? && step.org in db.orgs
    ensures Settle(db, MemberRequest(db, step)).members.Keys <= db.members.Keys
  {
  }

  // ── Whole runs ────────────────────────────────────────────────────

  lemma StepTouchesInvitation(cfg: Config, w: World, step: Step, i: Id)
    requires StoreOk(w.db) && i in w.db.invites && w.db.invites[i].status != Pending
    requires i in Next(cfg, w, step).db.invites
    ensures Next(cfg, w, step).db.invites[i] == w.db.invites[i]
  {
    match step
    case Account(s) =>
    case Org(s) => InvitationTransition(w.db, s, i);
    case Bill(s) => BillingRequestFrame(cfg, w.db, s);
  }

  /** Once out of PENDING an invitation never changes again while it exists. */
  lemma {:induction false} SettledForever(cfg: Config, w: World, steps: seq<Step>, i: Id)
    requires StoreOk(w.db)
    requires forall k :: 0 <= k <= |steps| ==> i in Run(cfg, w, steps[..k]).db.invites
    requires i in w.db.invites && w.db.invites[i].status != Pending
    ensures i in Run(cfg, w, steps).db.invites
    ensures Run(cfg, w, steps).db.invites[i] == w.db.invites[i]
  {
    var n := |steps|;
    assert steps[..n] == steps;
    if n > 0 {
      var init := steps[..n - 1];
      assert forall k :: 0 <= k <= n - 1 ==> init[..k] == steps[..k];
      SettledForever(cfg, w, init, i);
      RunKeepsStore(cfg, w, init);
      StepTouchesInvitation(cfg, Run(cfg, w, init), steps[n - 1], i);
    }
  }

  /** An invitation is used at most once: after its addressee has accepted it, no
      later request accepts it while the row exists. */
  lemma AcceptedAtMostOnce(cfg: Config, w: World, accept: OrgStep, steps: seq<Step>, i: Id)
    requires StoreOk(w.db) && Accepts(w.db, accept, i)
    requires forall k :: 0 <= k <= |steps| ==> i in Run(cfg, Next(cfg, w, Org(accept)), steps[..k]).db.invites
    ensures var later := Run(cfg, Next(cfg, w, Org(accept)), steps).db;
            && i in later.invites
            && later.invites[i] == w.db.invites[i].(status := Accepted)
            && forall again :: !Accepts(later, again, i)
  {
    var first := Next(cfg, w, Org(accept));
    assert i in Run(cfg, first, steps[..0]).db.invites;
    InvitationTransition(w.db, accept, i);
    NextKeepsStore(cfg, w, Org(accept));
    SettledForever(cfg, first, steps, i);
  }
}
