/** Billing invariants, what each service leaves alone, and the invariant of every
    committed state of every run. */
module Reachable {
  import opened Schema
  import opened Accounts
  import opened Organizations
  import opened Billing
  import opened System
  import opened Integrity

  // ── Subscriptions ─────────────────────────────────────────────────

  ghost predicate SubCodesUnique(db: Db) {
    forall a, b :: a in db.subs && b in db.subs && db.subs[a].subCode == db.subs[b].subCode ==> a == b
  }

  ghost predicate CustomersUnique(db: Db) {
    forall a, b :: a in db.orgs && b in db.orgs && db.orgs[a].customer == db.orgs[b].customer
                   && db.orgs[a].customer.Some?
                   ==> a == b
  }

  /** Two of the five statuses are never reached, and a canceled subscription
      carries its cancellation time. */
  predicate SubscriptionOk(sub: Subscription) {
    && (sub.status == Active || sub.status == PastDue || sub.status == Canceled)
    && (sub.status == Canceled ==> sub.canceledAt.Some?)
  }

  ghost predicate SubsOk(db: Db) {
    && SubCodesUnique(db) && CustomersUnique(db)
    && (forall o :: o in db.subs ==> SubscriptionOk(db.subs[o]))
  }

  // ── Frames ────────────────────────────────────────────────────────

  /** Billing writes nothing but plans, customer codes and subscriptions. */
  ghost predicate BillingFrame(db: Db, after: Db) {
    && after.users == db.users && after.members == db.members && after.invites == db.invites
    && after.orgs.Keys == db.orgs.Keys
    && (forall o :: o in db.orgs ==> after.orgs[o].slug == db.orgs[o].slug
                                     && after.orgs[o].name == db.orgs[o].name && after.orgs[o].logo == db.orgs[o].logo)
    && (forall o :: o in db.subs ==> o in after.subs)
    && (forall o :: o in after.subs && o !in db.subs ==> o in db.orgs)
  }

  /** Organization requests write neither accounts, plans, customer codes, nor
      subscriptions, nor the slug of an organization that exists; a new one starts on
      the free plan. */
  ghost predicate OrgFrame(db: Db, after: Db) {
    && after.users == db.users && after.subs == db.subs
    && (forall o :: o in after.orgs ==>
          if o in db.orgs then
            && after.orgs[o].plan == db.orgs[o].plan && after.orgs[o].customer == db.orgs[o].customer
            && after.orgs[o].slug == db.orgs[o].slug
          else after.orgs[o].plan == Free && after.orgs[o].customer == None)
  }

  lemma UpsertFrame(db: Db, org: Id, subCode: string, planCode: string, now: Time, periodEnd: Time)
    ensures BillingFrame(db, Settle(db, Upsert(db, org, subCode, planCode, now, periodEnd)))
  {
  }

  lemma SetPlanFrame(db: Db, after: Db, org: Id, plan: Plan)
    requires BillingFrame(db, after) && org in after.orgs
    ensures BillingFrame(db, SetPlan(after, org, plan))
  {
  }

  lemma CreateEventFrame(cfg: Config, db: Db, org: Id, planCode: string, subCode: string, now: Time, periodEnd: Time)
    ensures BillingFrame(db, Settle(db, OnSubscriptionCreate(cfg, db, org, planCode, subCode, now, periodEnd)))
  {
    UpsertFrame(db, org, subCode, planCode, now, periodEnd);
    var a := Upsert(db, org, subCode, planCode, now, periodEnd);
    if a.outcome.Ok? && org in a.state.orgs {
      SetPlanFrame(db, a.state, org, CodePlan(cfg, planCode));
    }
  }

  lemma VerifyFrame(cfg: Config, db: Db, tx: Transaction, now: Time, periodEnd: Time)
    ensures BillingFrame(db, Settle(db, Verify(cfg, db, tx, now, periodEnd)))
  {
    if tx.org in db.orgs {
      var row := db.orgs[tx.org].(customer := Some(tx.customer), plan := CodePlan(cfg, tx.planCode));
      UpsertFrame(db.(orgs := db.orgs[tx.org := row]), tx.org, tx.subCode, tx.planCode, now, periodEnd);
    }
  }

  lemma CancelFrame(db: Db, org: Id, providerOk: bool, now: Time)
    requires org in db.orgs
    ensures BillingFrame(db, Settle(db, Cancel(db, org, providerOk, now)))
  {
  }

  lemma SavedSubFrame(db: Db, holder: Id, sub: Subscription, org: Id)
    requires holder in db.subs
    ensures BillingFrame(db, EndPlan(db.(subs := db.subs[holder := sub]), org))
    ensures BillingFrame(db, db.(subs := db.subs[holder := sub]))
    ensures BillingFrame(db, EndPlan(db, org))
  {
  }

  lemma DisableEventFrame(db: Db, org: Id, subCode: string, now: Time)
    ensures BillingFrame(db, Settle(db, OnSubscriptionDisable(db, org, subCode, now)))
  {
    var holders := OneOrNone(WithSubCode(db, subCode));
    if holders.OneRow? {
      SavedSubFrame(db, holders.id, db.subs[holders.id].(status := Canceled, canceledAt := Some(now)), org);
    }
  }

  lemma FailedEventFrame(db: Db, subCode: string)
    ensures BillingFrame(db, Settle(db, OnPaymentFailed(db, subCode)))
  {
  }

  lemma EventFrame(cfg: Config, db: Db, event: Event, now: Time)
    ensures BillingFrame(db, Settle(db, OnEvent(cfg, db, event, now)))
  {
    match event
    case ChargeSuccess(_, _) =>
    case SubscriptionCreate(org, planCode, subCode, periodEnd) =>
      CreateEventFrame(cfg, db, org, planCode, subCode, now, periodEnd);
    case SubscriptionDisable(org, subCode) => DisableEventFrame(db, org, subCode, now);
    case PaymentFailed(subCode) => FailedEventFrame(db, subCode);
    case OtherEvent =>
  }

  lemma BillingRequestFrame(cfg: Config, db: Db, step: BillingStep)
    ensures BillingFrame(db, Settle(db, BillingRequest(cfg, db, step)))
  {
    match step
    case DoVerify(_, tx, now, periodEnd) => if tx.Some? { VerifyFrame(cfg, db, tx.value, now, periodEnd); }
    case DoCancel(_, org, providerOk, now) => if org in db.orgs { CancelFrame(db, org, providerOk, now); }
    case DoWebhook(genuine, event, now) => EventFrame(cfg, db, event, now);
  }

  lemma OrgRequestFrame(db: Db, step: OrgStep)
    ensures OrgFrame(db, Settle(db, OrgRequest(db, step)))
  {
  }

  lemma OnlyCreateAddsOrgs(db: Db, step: OrgStep, org: Id)
    requires org !in db.orgs && org in Settle(db, OrgRequest(db, step)).orgs
    ensures step.DoCreate? && step.org == org && CurrentUser(db.users, step.actor)
    ensures Settle(db, OrgRequest(db, step)) == Create(db, org, step.name, step.baseSlug, step.actor).state
  {
  }

  lemma FrameKeepsOrgs(db: Db, after: Db)
    requires OrgsOk(db) && BillingFrame(db, after)
    ensures OrgsOk(after)
  {
    assert forall i, email, org :: PendingIn(after, i, email, org) == PendingIn(db, i, email, org);
  }

  lemma FrameKeepsSubs(db: Db, after: Db)
    requires SubsOk(db) && OrgFrame(db, after)
    ensures SubsOk(after)
  {
  }

  // ── Billing keeps its invariant ───────────────────────────────────

  lemma UpsertKeepsSubs(db: Db, org: Id, subCode: string, planCode: string, now: Time, periodEnd: Time)
    requires SubsOk(db)
    ensures var a := Upsert(db, org, subCode, planCode, now, periodEnd);
            a.outcome.Ok? ==> SubsOk(a.state)
  {
  }

  lemma SetPlanKeepsSubs(db: Db, org: Id, plan: Plan)
    requires SubsOk(db) && org in db.orgs
    ensures SubsOk(SetPlan(db, org, plan))
  {
  }

  /** A status change of a row that keeps its code. */
  lemma SetStatusKeepsSubs(db: Db, org: Id, sub: Subscription)
    requires SubsOk(db) && org in db.subs && sub.subCode == db.subs[org].subCode && SubscriptionOk(sub)
    ensures SubsOk(db.(subs := db.subs[org := sub]))
  {
  }

  lemma VerifyKeepsSubs(cfg: Config, db: Db, tx: Transaction, now: Time, periodEnd: Time)
    requires SubsOk(db)
    ensures SubsOk(Settle(db, Verify(cfg, db, tx, now, periodEnd)))
  {
    var a := Verify(cfg, db, tx, now, periodEnd);
    if a.outcome.Ok? {
      var row := db.orgs[tx.org].(customer := Some(tx.customer), plan := CodePlan(cfg, tx.planCode));
      var saved := db.(orgs := db.orgs[tx.org := row]);
      assert SubsOk(saved);
      UpsertKeepsSubs(saved, tx.org, tx.subCode, tx.planCode, now, periodEnd);
    }
  }

  lemma EventKeepsSubs(cfg: Config, db: Db, event: Event, now: Time)
    requires SubsOk(db)
    ensures SubsOk(Settle(db, OnEvent(cfg, db, event, now)))
  {
    match event
    case ChargeSuccess(org, planKey) =>
      if org in db.orgs { SetPlanKeepsSubs(db, org, PlanOfKey(planKey)); }
    case SubscriptionCreate(org, planCode, subCode, periodEnd) =>
      UpsertKeepsSubs(db, org, subCode, planCode, now, periodEnd);
      var a := Upsert(db, org, subCode, planCode, now, periodEnd);
      if a.outcome.Ok? && org in a.state.orgs { SetPlanKeepsSubs(a.state, org, CodePlan(cfg, planCode)); }
    case SubscriptionDisable(org, subCode) =>
      var holders := OneOrNone(WithSubCode(db, subCode));
      if holders.OneRow? {
        var sub := db.subs[holders.id].(status := Canceled, canceledAt := Some(now));
        SetStatusKeepsSubs(db, holders.id, sub);
        if org in db.orgs { SetPlanKeepsSubs(db.(subs := db.subs[holders.id := sub]), org, Free); }
      } else if holders.NoRow? && org in db.orgs {
        SetPlanKeepsSubs(db, org, Free);
      }
    case PaymentFailed(subCode) =>
      var holders := OneOrNone(WithSubCode(db, subCode));
      if holders.OneRow? {
        SetStatusKeepsSubs(db, holders.id, db.subs[holders.id].(status := PastDue));
      }
    case OtherEvent =>
  }

  lemma CancelKeepsSubs(db: Db, org: Id, providerOk: bool, now: Time)
    requires SubsOk(db) && org in db.orgs
    ensures SubsOk(Settle(db, Cancel(db, org, providerOk, now)))
  {
  }

  lemma BillingKeepsSubs(cfg: Config, db: Db, step: BillingStep)
    requires SubsOk(db)
    ensures SubsOk(Settle(db, BillingRequest(cfg, db, step)))
  {
    match step
    case DoVerify(actor, tx, now, periodEnd) =>
      if tx.Some? { VerifyKeepsSubs(cfg, db, tx.value, now, periodEnd); }
    case DoCancel(actor, org, providerOk, now) =>
      if org in db.orgs { CancelKeepsSubs(db, org, providerOk, now); }
    case DoWebhook(genuine, event, now) => EventKeepsSubs(cfg, db, event, now);
  }

  // ── Every run ─────────────────────────────────────────────────────

  ghost predicate StoreOk(db: Db) {
    UsersOk(db.users) && OrgsOk(db) && SubsOk(db)
  }

  lemma NextKeepsStore(cfg: Config, w: World, step: Step)
    requires StoreOk(w.db)
    ensures StoreOk(Next(cfg, w, step).db)
  {
    match step
    case Account(s) =>
      AccountKeepsUsers(cfg, w.Accounts(), s);
      NewUsersKeepOrgs(w.db, Next(cfg, w, step).db.users);
    case Org(s) =>
      OrgRequestKeepsOrgs(w.db, s);
      OrgRequestFrame(w.db, s);
      FrameKeepsSubs(w.db, Next(cfg, w, step).db);
    case Bill(s) =>
      BillingRequestFrame(cfg, w.db, s);
      FrameKeepsOrgs(w.db, Next(cfg, w, step).db);
      BillingKeepsSubs(cfg, w.db, s);
  }

  /** Every committed state satisfies the invariant, whatever was requested. */
  lemma {:induction false} RunKeepsStore(cfg: Config, w: World, steps: seq<Step>)
    requires StoreOk(w.db)
    ensures StoreOk(Run(cfg, w, steps).db)
  {
    if steps != [] {
      RunKeepsStore(cfg, w, steps[..|steps| - 1]);
      NextKeepsStore(cfg, Run(cfg, w, steps[..|steps| - 1]), steps[|steps| - 1]);
    }
  }

  lemma ReachableStoreOk(cfg: Config, steps: seq<Step>)
    ensures StoreOk(Run(cfg, EMPTY, steps).db)
  {
    RunKeepsStore(cfg, EMPTY, steps);
  }
}
