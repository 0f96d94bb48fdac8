/** The glossary says that all organizational operations go through member validation
    first. Which requests change an organization although their caller is no member. */
module Strangers {
  import opened Schema
  import opened Accounts
  import opened Organizations
  import opened Billing
  import opened System
  import opened Reachable
  import opened Invitations
  import opened BillingHistory
  import opened Commutation

  /** Everything the store holds about one organization. */
  datatype Rows = Rows(org: Option<Organization>, members: map<Seat, Role>, invites: map<Id, Invitation>,
                       sub: Option<Subscription>)

  function RowsOf(db: Db, org: Id): Rows {
    Rows(if org in db.orgs then Some(db.orgs[org]) else None, Roster(db, org), InvitationsOf(db, org),
         if org in db.subs then Some(db.subs[org]) else None)
  }

  predicate IsMember(db: Db, user: Id, org: Id) {
    Seat(user, org) in db.members
  }

  // ── Organization requests ─────────────────────────────────────────

  /** A verified user founds the organization under an unused id. */
  predicate FoundsIt(db: Db, step: OrgStep, org: Id) {
    && step.DoCreate? && step.org == org && org !in db.orgs
    && CurrentUser(db.users, step.actor) && db.users[step.actor].isVerified
  }

  /** The addressee of one of its invitations accepts it in time. */
  ghost predicate JoinsIt(db: Db, step: OrgStep, org: Id) {
    exists i :: Accepts(db, step, i) && db.invites[i].org == org
  }

  lemma MemberRequestByStranger(db: Db, step: OrgStep, org: Id)
    requires !step.DoAccept? && !step.DoCreate? && step.org in db.orgs
    requires !IsMember(db, step.actor, org)
    ensures RowsOf(Settle(db, MemberRequest(db, step)), org) == RowsOf(db, org)
  {
    if step.org == org {
      OwnRequestByStranger(db, step);
    } else {
      ElsewhereRequest(db, step, org);
      UntouchedRows(db, Settle(db, MemberRequest(db, step)), org);
    }
  }

  lemma OwnRequestByStranger(db: Db, step: OrgStep)
    requires !step.DoAccept? && !step.DoCreate? && step.org in db.orgs
    requires !IsMember(db, step.actor, step.org)
    ensures Settle(db, MemberRequest(db, step)) == db
  {
    if step.DoRemove? {
      assert db.members - {Seat(step.actor, step.org)} == db.members;
    }
  }

  /** What is stored about the organization is the same, entry by entry. */
  ghost predicate Untouched(db: Db, after: Db, org: Id) {
    && (org in after.orgs <==> org in db.orgs) && (org in db.orgs ==> after.orgs[org] == db.orgs[org])
    && (org in after.subs <==> org in db.subs) && (org in db.subs ==> after.subs[org] == db.subs[org])
    && (forall s: Seat :: s.org == org ==> (s in after.members <==> s in db.members))
    && (forall s: Seat :: s.org == org && s in db.members ==> after.members[s] == db.members[s])
    && (forall i :: i in after.invites && after.invites[i].org == org ==> i in db.invites)
    && (forall i :: i in db.invites && db.invites[i].org == org ==>
          i in after.invites && after.invites[i] == db.invites[i])
    && (forall i :: i in after.invites && i in db.invites ==>
          (after.invites[i].org == org <==> db.invites[i].org == org))
  }

  lemma UntouchedRows(db: Db, after: Db, org: Id)
    requires Untouched(db, after, org)
    ensures RowsOf(after, org) == RowsOf(db, org)
  {
    assert Roster(after, org) == Roster(db, org);
    assert InvitationsOf(after, org) == InvitationsOf(db, org);
  }

  lemma DeletionElsewhere(db: Db, step: OrgStep, org: Id)
    requires step.DoDelete? && step.org in db.orgs && step.org != org
    ensures Untouched(db, Settle(db, MemberRequest(db, step)), org)
  {
  }

  lemma InvitationElsewhere(db: Db, step: OrgStep, org: Id)
    requires (step.DoInvite? || step.DoRevoke?) && step.org in db.orgs && step.org != org
    ensures Untouched(db, Settle(db, MemberRequest(db, step)), org)
  {
  }

  lemma ElsewhereRequest(db: Db, step: OrgStep, org: Id)
    requires !step.DoAccept? && !step.DoCreate? && step.org in db.orgs && step.org != org
    ensures Untouched(db, Settle(db, MemberRequest(db, step)), org)
  {
    match step
    case DoInvite(_, _, _, _, _, _, _) => InvitationElsewhere(db, step, org);
    case DoRevoke(_, _, _) => InvitationElsewhere(db, step, org);
    case DoDelete(_, _) => DeletionElsewhere(db, step, org);
    case DoUpdate(_, _, _, _) =>
    case DoUpdateRole(_, _, _, _) =>
    case DoRemove(_, _, _) =>
  }

  lemma FoundingRows(db: Db, o: Id, row: Organization, seat: Seat, org: Id)
    requires o !in db.orgs && seat.org == o && seat !in db.members
    ensures var after := db.(orgs := db.orgs[o := row], members := db.members[seat := Owner]);
            RowsOf(after, org) != RowsOf(db, org) <==> o == org
  {
    var after := db.(orgs := db.orgs[o := row], members := db.members[seat := Owner]);
    if o != org { UntouchedRows(db, after, org); }
  }

  lemma CreateByStranger(db: Db, step: OrgStep, org: Id)
    requires StoreOk(db) && step.DoCreate? && CurrentUser(db.users, step.actor)
    ensures RowsOf(Settle(db, OrgRequest(db, step)), org) != RowsOf(db, org) <==> FoundsIt(db, step, org)
  {
    var after, seat := Settle(db, OrgRequest(db, step)), Seat(step.actor, step.org);
    if db.users[step.actor].isVerified && step.org !in db.orgs {
      assert seat !in db.members;
      FoundingRows(db, step.org, after.orgs[step.org], seat, org);
    }
  }

  lemma JoiningRows(db: Db, i: Id, seat: Seat, org: Id)
    requires i in db.invites && seat.org == db.invites[i].org && seat !in db.members
    ensures var row := db.invites[i];
            var after := db.(members := db.members[seat := row.role],
                             invites := db.invites[i := row.(status := Accepted)]);
            RowsOf(after, org) != RowsOf(db, org) <==> row.org == org
  {
    var row := db.invites[i];
    var after := db.(members := db.members[seat := row.role], invites := db.invites[i := row.(status := Accepted)]);
    if row.org != org {
      UntouchedRows(db, after, org);
    } else {
      assert seat in RowsOf(after, org).members && seat !in RowsOf(db, org).members;
    }
  }

  lemma AcceptByStranger(db: Db, step: OrgStep, org: Id)
    requires StoreOk(db) && step.DoAccept?
    ensures RowsOf(Settle(db, OrgRequest(db, step)), org) != RowsOf(db, org) <==> JoinsIt(db, step, org)
  {
    AcceptStep(db, step);
    if i :| Accepts(db, step, i) {
      forall j | Accepts(db, step, j) ensures j == i {
        AcceptsOnlyOne(db, step, i, j);
      }
      JoiningRows(db, i, Seat(step.actor, db.invites[i].org), org);
    }
  }

  /** An organization request of somebody who is no member changes what is stored about
      the organization exactly by founding it or by joining it. */
  lemma StrangersFoundOrJoin(db: Db, step: OrgStep, org: Id)
    requires StoreOk(db) && !IsMember(db, step.actor, org)
    ensures RowsOf(Settle(db, OrgRequest(db, step)), org) != RowsOf(db, org) <==>
            FoundsIt(db, step, org) || JoinsIt(db, step, org)
  {
    if CurrentUser(db.users, step.actor) {
      if step.DoCreate? {
        CreateByStranger(db, step, org);
      } else if step.DoAccept? {
        AcceptByStranger(db, step, org);
      } else if step.org in db.orgs {
        MemberRequestByStranger(db, step, org);
      }
    }
  }

  // ── Billing requests ──────────────────────────────────────────────

  /** Verifying a transaction and canceling a subscription work alike for every active
      account, whatever its memberships. */
  lemma BillingIgnoresMembership(cfg: Config, db: Db, step: BillingStep, other: Id)
    requires !step.DoWebhook?
    requires CurrentUser(db.users, step.actor) && CurrentUser(db.users, other)
    ensures BillingRequest(cfg, db, step.(actor := other)) == BillingRequest(cfg, db, step)
  {
  }

  predicate HasPlan(db: Db, org: Id, plan: Plan) {
    PlanIn(db, org) == Some(plan)
  }

  /** The organization is subscribed on these terms. */
  predicate HasTerms(db: Db, org: Id, terms: Terms) {
    StatusIn(db, org) == Some(Active) && TermsIn(db, org) == Some(terms)
  }

  /** The subscription of the organization was canceled at this instant. */
  predicate HasEnded(db: Db, org: Id, at: Time) {
    StatusIn(db, org) == Some(Canceled) && CancellationIn(db, org) == Some(at)
  }

  ghost predicate VerifyBillsIt(cfg: Config, db: Db, org: Id, actor: Id, answer: Option<Transaction>, now: Time,
                                end: Time)
  {
    && VerifyAllowed(db, actor, answer) && answer.value.org == org
    && var tx := answer.value;
       !(&& CustomerIn(db, org) == Some(Some(tx.customer))
         && HasPlan(db, org, CodePlan(cfg, tx.planCode))
         && (tx.subCode == "" || HasTerms(db, org, Terms(tx.subCode, tx.planCode, now, end))))
  }

  ghost predicate EventBillsIt(cfg: Config, db: Db, org: Id, event: Event, now: Time) {
    match event
    case ChargeSuccess(o, planKey) => o == org && o != "" && !HasPlan(db, org, PlanOfKey(planKey))
    case SubscriptionCreate(o, planCode, subCode, end) =>
      && o == org && o != "" && OnlyItsCode(db, o, subCode)
      && !(HasPlan(db, org, CodePlan(cfg, planCode)) && HasTerms(db, org, Terms(subCode, planCode, now, end)))
    case SubscriptionDisable(o, subCode) =>
      || (o == org && o != "" && !HasPlan(db, org, Free))
      || (HoldsCode(db, org, subCode) && !HasEnded(db, org, now))
    case PaymentFailed(subCode) => HoldsCode(db, org, subCode) && StatusIn(db, org) != Some(PastDue)
    case OtherEvent => false
  }

  /** When a billing request changes an existing organization, read off the request and
      what is stored before it: the request is allowed, it names the organization or a
      code the organization holds, and what it brings is not there already. */
  ghost predicate BillsIt(cfg: Config, db: Db, step: BillingStep, org: Id) {
    && org in db.orgs
    && match step
       case DoVerify(actor, answer, now, end) => VerifyBillsIt(cfg, db, org, actor, answer, now, end)
       case DoCancel(actor, o, providerOk, now) =>
         && o == org && CurrentUser(db.users, actor) && providerOk && org in db.subs
         && !(HasPlan(db, org, Free) && HasEnded(db, org, now))
       case DoWebhook(genuine, event, now) => genuine && EventBillsIt(cfg, db, org, event, now)
  }

  /** The write brings something new to the organization. */
  predicate BringsNew(db: Db, w: Write, org: Id) {
    || (w.org.Some? && w.org.value.0 == org && (org !in db.orgs || w.org.value.1 != db.orgs[org]))
    || (w.sub.Some? && w.sub.value.0 == org && (org !in db.subs || w.sub.value.1 != db.subs[org]))
  }

  lemma VerifyBringsNew(cfg: Config, db: Db, step: BillingStep, org: Id)
    requires StoreOk(db) && step.DoVerify?
    ensures BringsNew(db, WriteOf(cfg, db, step), org) <==> BillsIt(cfg, db, step, org)
  {
    VerifyGrantedExactly(cfg, db, step);
  }

  lemma CancelBringsNew(cfg: Config, db: Db, step: BillingStep, org: Id)
    requires StoreOk(db) && step.DoCancel?
    ensures BringsNew(db, WriteOf(cfg, db, step), org) <==> BillsIt(cfg, db, step, org)
  {
    CancelGrantedExactly(cfg, db, step);
  }

  lemma NamedEventBringsNew(cfg: Config, db: Db, step: BillingStep, org: Id)
    requires StoreOk(db) && step.DoWebhook?
    requires step.event.ChargeSuccess? || step.event.SubscriptionCreate? || step.event.OtherEvent?
    ensures BringsNew(db, WriteOf(cfg, db, step), org) <==> BillsIt(cfg, db, step, org)
  {
  }

  lemma CodeEventBringsNew(cfg: Config, db: Db, step: BillingStep, org: Id)
    requires StoreOk(db) && step.DoWebhook?
    requires step.event.SubscriptionDisable? || step.event.PaymentFailed?
    ensures BringsNew(db, WriteOf(cfg, db, step), org) <==> BillsIt(cfg, db, step, org)
  {
    FindByCode(db, step.event.subCode, org);
  }

  lemma BillsItBringsNew(cfg: Config, db: Db, step: BillingStep, org: Id)
    requires StoreOk(db)
    ensures BringsNew(db, WriteOf(cfg, db, step), org) <==> BillsIt(cfg, db, step, org)
  {
    match step
    case DoVerify(_, _, _, _) => VerifyBringsNew(cfg, db, step, org);
    case DoCancel(_, _, _, _) => CancelBringsNew(cfg, db, step, org);
    case DoWebhook(_, event, _) =>
      if event.SubscriptionDisable? || event.PaymentFailed? {
        CodeEventBringsNew(cfg, db, step, org);
      } else {
        NamedEventBringsNew(cfg, db, step, org);
      }
  }

  lemma NewMeansReached(cfg: Config, db: Db, step: BillingStep, org: Id)
    requires BringsNew(db, WriteOf(cfg, db, step), org)
    ensures Granted(db, step) && Reaches(db, step, org)
  {
    WritesWhereItReaches(cfg, db, step);
  }

  /** A billing request changes what is stored about an organization exactly then. It is
      then granted and names the organization or a code the organization holds. */
  lemma BillingChangesExactly(cfg: Config, db: Db, step: BillingStep, org: Id)
    requires StoreOk(db)
    ensures var after := Settle(db, BillingRequest(cfg, db, step));
            && (RowsOf(after, org) != RowsOf(db, org) <==> BillsIt(cfg, db, step, org))
            && (BillsIt(cfg, db, step, org) ==> Granted(db, step) && Reaches(db, step, org))
  {
    RequestIsWrite(cfg, db, step);
    WriteChanges(db, WriteOf(cfg, db, step), org);
    BillsItBringsNew(cfg, db, step, org);
    if BillsIt(cfg, db, step, org) { NewMeansReached(cfg, db, step, org); }
  }

  lemma SameMembersSameLists(db: Db, after: Db, org: Id)
    requires after.members == db.members && after.invites == db.invites
    ensures Roster(after, org) == Roster(db, org) && InvitationsOf(after, org) == InvitationsOf(db, org)
  {
  }

  lemma WriteChanges(db: Db, w: Write, org: Id)
    ensures RowsOf(Apply(db, w), org) != RowsOf(db, org) <==> BringsNew(db, w, org)
  {
    SameMembersSameLists(db, Apply(db, w), org);
  }

  /** Canceling needs an active caller, a subscription, and the provider's consent, and
      no membership. */
  lemma CancelGrantedExactly(cfg: Config, db: Db, step: BillingStep)
    requires step.DoCancel?
    ensures var a := BillingRequest(cfg, db, step);
            && (a.outcome.Ok? <==> CurrentUser(db.users, step.actor) && step.org in db.orgs && step.org in db.subs
                                   && step.providerOk)
            && (a.outcome.Ok? ==>
                  StatusIn(a.state, step.org) == Some(Canceled) && PlanIn(a.state, step.org) == Some(Free))
  {
  }

  // ── All requests ──────────────────────────────────────────────────

  /** A request whose caller, if it has one, is no member changes what is stored about
      an organization exactly in these cases; account requests never do. */
  lemma StrangersChangeExactly(cfg: Config, w: World, step: Step, org: Id)
    requires StoreOk(w.db)
    requires step.Org? ==> !IsMember(w.db, step.org.actor, org)
    requires step.Bill? && !step.bill.DoWebhook? ==> !IsMember(w.db, step.bill.actor, org)
    ensures RowsOf(Next(cfg, w, step).db, org) != RowsOf(w.db, org) <==>
            match step
            case Account(_) => false
            case Org(s) => FoundsIt(w.db, s, org) || JoinsIt(w.db, s, org)
            case Bill(s) => BillsIt(cfg, w.db, s, org)
  {
    match step
    case Account(_) =>
    case Org(s) => StrangersFoundOrJoin(w.db, s, org);
    case Bill(s) => BillingChangesExactly(cfg, w.db, s, org);
  }
}
