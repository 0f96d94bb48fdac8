/** Members are conserved: an organization has its founder, plus one member per
    accepted invitation, minus one per effective removal. */
module Conservation {
  import opened Schema
  import opened Accounts
  import opened MembershipPolicy
  import opened Organizations
  import opened System
  import opened Reachable
  import opened Invitations

  function MembersOf(db: Db, org: Id): set<Seat> {
    set s | s in db.members && s.org == org
  }

  function AcceptedOf(db: Db, org: Id): set<Id> {
    set i | i in db.invites && db.invites[i].org == org && db.invites[i].status == Accepted
  }

  /** The request is granted and there is a membership to remove. */
  predicate EffectiveRemoval(db: Db, step: OrgStep, org: Id) {
    && step.DoRemove? && step.org == org && org in db.orgs
    && CurrentUser(db.users, step.actor)
    && (step.actor == step.target || HasRole(db, step.actor, org, Admin))
    && Seat(step.target, org) in db.members
  }

  /** Effective removals since the organization was created. */
  ghost function Removals(cfg: Config, steps: seq<Step>, org: Id): nat {
    if steps == [] then 0
    else
      var init, last := steps[..|steps| - 1], steps[|steps| - 1];
      var db := Run(cfg, EMPTY, init).db;
      if org !in db.orgs then 0
      else Removals(cfg, init, org) + if last.Org? && EffectiveRemoval(db, last.org, org) then 1 else 0
  }

  /** The account of one organization's members. */
  ghost predicate Balanced(db: Db, org: Id, removals: nat) {
    |MembersOf(db, org)| + removals == 1 + |AcceptedOf(db, org)|
  }

  lemma SameBalance(db: Db, after: Db, org: Id, removals: nat)
    requires Balanced(db, org, removals)
    requires MembersOf(after, org) == MembersOf(db, org)
    requires AcceptedOf(after, org) == AcceptedOf(db, org)
    ensures Balanced(after, org, removals)
  {
  }

  lemma CreateBalances(db: Db, step: OrgStep, org: Id)
    requires StoreOk(db) && org !in db.orgs
    requires org in Settle(db, OrgRequest(db, step)).orgs
    ensures Balanced(Settle(db, OrgRequest(db, step)), org, 0)
  {
    OnlyCreateAddsOrgs(db, step, org);
    var after := Settle(db, OrgRequest(db, step));
    assert MembersOf(after, org) == {Seat(step.actor, org)};
    assert AcceptedOf(after, org) == {};
  }

  lemma OneFewerMember(db: Db, user: Id, org: Id, removals: nat)
    requires Balanced(db, org, removals)
    ensures Balanced(db.(members := db.members - {Seat(user, org)}), org,
                     removals + if Seat(user, org) in db.members then 1 else 0)
  {
    var seat := Seat(user, org);
    var after := db.(members := db.members - {seat});
    assert AcceptedOf(after, org) == AcceptedOf(db, org);
    if seat in db.members {
      assert MembersOf(db, org) == MembersOf(after, org) + {seat};
      assert seat !in MembersOf(after, org);
    } else {
      assert MembersOf(after, org) == MembersOf(db, org);
    }
  }

  lemma RemoveBalances(db: Db, step: OrgStep, org: Id, removals: nat)
    requires step.DoRemove? && org in db.orgs && step.org == org
    requires CurrentUser(db.users, step.actor)
    requires Balanced(db, org, removals)
    ensures Balanced(Settle(db, MemberRequest(db, step)), org,
                     removals + if EffectiveRemoval(db, step, org) then 1 else 0)
  {
    OneFewerMember(db, step.target, org, removals);
  }

  lemma SeatAdded(db: Db, after: Db, seat: Seat, role: Role, org: Id)
    requires after.members == db.members[seat := role] && seat !in db.members
    ensures |MembersOf(after, org)| == |MembersOf(db, org)| + if seat.org == org then 1 else 0
  {
    if seat.org == org {
      assert MembersOf(after, org) == MembersOf(db, org) + {seat};
    } else {
      assert MembersOf(after, org) == MembersOf(db, org);
    }
  }

  lemma InvitationUsed(db: Db, after: Db, i: Id, org: Id)
    requires i in db.invites && db.invites[i].status == Pending
    requires after.invites == db.invites[i := db.invites[i].(status := Accepted)]
    ensures |AcceptedOf(after, org)| == |AcceptedOf(db, org)| + if db.invites[i].org == org then 1 else 0
  {
    if db.invites[i].org == org {
      assert AcceptedOf(after, org) == AcceptedOf(db, org) + {i};
    } else {
      assert AcceptedOf(after, org) == AcceptedOf(db, org);
    }
  }

  lemma OneMoreMember(db: Db, i: Id, user: Id, org: Id, removals: nat)
    requires i in db.invites && db.invites[i].status == Pending
    requires Seat(user, db.invites[i].org) !in db.members
    requires Balanced(db, org, removals)
    ensures Balanced(db.(members := db.members[Seat(user, db.invites[i].org) := db.invites[i].role],
                         invites := db.invites[i := db.invites[i].(status := Accepted)]), org, removals)
  {
    var row := db.invites[i];
    var after := db.(members := db.members[Seat(user, row.org) := row.role],
                     invites := db.invites[i := row.(status := Accepted)]);
    SeatAdded(db, after, Seat(user, row.org), row.role, org);
    InvitationUsed(db, after, i, org);
  }

  lemma AcceptBalances(db: Db, step: OrgStep, org: Id, removals: nat)
    requires StoreOk(db) && step.DoAccept?
    requires Balanced(db, org, removals)
    ensures Balanced(Settle(db, OrgRequest(db, step)), org, removals)
  {
    AcceptStep(db, step);
    forall i | Accepts(db, step, i) && Seat(step.actor, db.invites[i].org) !in db.members
      ensures Balanced(db.(members := db.members[Seat(step.actor, db.invites[i].org) := db.invites[i].role],
                           invites := db.invites[i := db.invites[i].(status := Accepted)]), org, removals)
    {
      OneMoreMember(db, i, step.actor, org, removals);
    }
  }

  lemma OtherMemberRequest(db: Db, step: OrgStep, org: Id)
    requires !step.DoAccept? && !step.DoCreate? && step.org in db.orgs && org in db.orgs
    requires !((step.DoRemove? || step.DoDelete?) && step.org == org)
    ensures MembersOf(Settle(db, MemberRequest(db, step)), org) == MembersOf(db, org)
    ensures AcceptedOf(Settle(db, MemberRequest(db, step)), org) == AcceptedOf(db, org)
  {
  }

  lemma OtherCreate(db: Db, step: OrgStep, org: Id, removals: nat)
    requires step.DoCreate? && CurrentUser(db.users, step.actor) && org in db.orgs
    requires Balanced(db, org, removals)
    ensures Balanced(Settle(db, OrgRequest(db, step)), org, removals)
  {
    SameBalance(db, Settle(db, OrgRequest(db, step)), org, removals);
  }

  lemma OtherRequestBalances(db: Db, step: OrgStep, org: Id, removals: nat)
    requires org in db.orgs && org in Settle(db, OrgRequest(db, step)).orgs
    requires !step.DoAccept? && !(step.DoRemove? && step.org == org)
    requires Balanced(db, org, removals)
    ensures Balanced(Settle(db, OrgRequest(db, step)), org, removals)
  {
    if CurrentUser(db.users, step.actor) {
      if step.DoCreate? {
        OtherCreate(db, step, org, removals);
      } else if step.org in db.orgs && !(step.DoDelete? && step.org == org) {
        OtherMemberRequest(db, step, org);
        SameBalance(db, Settle(db, MemberRequest(db, step)), org, removals);
      }
    }
  }

  lemma StepBalances(cfg: Config, w: World, step: Step, org: Id, removals: nat)
    requires StoreOk(w.db) && org in w.db.orgs && org in Next(cfg, w, step).db.orgs
    requires Balanced(w.db, org, removals)
    ensures Balanced(Next(cfg, w, step).db, org,
                     removals + if step.Org? && EffectiveRemoval(w.db, step.org, org) then 1 else 0)
  {
    match step
    case Account(s) => SameBalance(w.db, Next(cfg, w, step).db, org, removals);
    case Bill(s) =>
      BillingRequestFrame(cfg, w.db, s);
      SameBalance(w.db, Next(cfg, w, step).db, org, removals);
    case Org(s) => RequestBalances(w.db, s, org, removals);
  }

  lemma RequestBalances(db: Db, step: OrgStep, org: Id, removals: nat)
    requires StoreOk(db) && org in db.orgs && org in Settle(db, OrgRequest(db, step)).orgs
    requires Balanced(db, org, removals)
    ensures Balanced(Settle(db, OrgRequest(db, step)), org,
                     removals + if EffectiveRemoval(db, step, org) then 1 else 0)
  {
    if step.DoAccept? {
      AcceptBalances(db, step, org, removals);
    } else if !(step.DoRemove? && step.org == org) {
      OtherRequestBalances(db, step, org, removals);
    } else if CurrentUser(db.users, step.actor) {
      RemoveBalances(db, step, org, removals);
    }
  }

  /** At every point of every run, for every organization that exists then. */
  lemma {:induction false} MembersAreConserved(cfg: Config, steps: seq<Step>, org: Id)
    requires org in Run(cfg, EMPTY, steps).db.orgs
    ensures Balanced(Run(cfg, EMPTY, steps).db, org, Removals(cfg, steps, org))
  {
    if steps != [] {
      var init, last := steps[..|steps| - 1], steps[|steps| - 1];
      var w := Run(cfg, EMPTY, init);
      ReachableStoreOk(cfg, init);
      if org in w.db.orgs {
        MembersAreConserved(cfg, init, org);
        StepBalances(cfg, w, last, org, Removals(cfg, init, org));
      } else {
        match last
        case Org(s) => CreateBalances(w.db, s, org);
        case Account(s) =>
        case Bill(s) => BillingRequestFrame(cfg, w.db, s);
      }
    }
  }
}
