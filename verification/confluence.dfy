/** One checkout is reported over three channels, each any number of times and in
    any order, among the traffic of other organizations. The outcome is the same. */
module Confluence {
  import opened Schema
  import opened Accounts
  import opened Organizations
  import opened Billing
  import opened System
  import opened Reachable
  import opened BillingHistory

  // ── Plan codes ────────────────────────────────────────────────────

  /** Both paid plans are configured, with different codes. */
  predicate CodesDistinct(cfg: Config) {
    cfg.proCode != "" && cfg.enterpriseCode != "" && cfg.proCode != cfg.enterpriseCode
  }

  /** The reverse map undoes the plan-code map on every paid plan exactly when both
      codes are set and differ. */
  lemma PlanCodesInvert(cfg: Config)
    ensures CodesDistinct(cfg) <==>
            forall plan: Plan :: plan != Free ==> CodePlan(cfg, PlanCode(cfg, plan).value) == plan
  {
    assert CodePlan(cfg, PlanCode(cfg, Pro).value) == Pro <==> cfg.proCode != "" && cfg.proCode != cfg.enterpriseCode;
    assert CodePlan(cfg, PlanCode(cfg, Enterprise).value) == Enterprise <==> cfg.enterpriseCode != "";
  }

  predicate IsCodeOf(cfg: Config, plan: Plan, code: string) {
    code != "" && PlanCode(cfg, plan) == Some(code)
  }

  /** Which plan a code stands for: none of the paid ones unless the code is one of theirs,
      and the dearer one where both have it. */
  lemma CodePlanExactly(cfg: Config, code: string)
    ensures CodePlan(cfg, code) == Free <==> forall plan :: !IsCodeOf(cfg, plan, code)
    ensures CodePlan(cfg, code) == Enterprise <==> code != "" && code == cfg.enterpriseCode
    ensures CodePlan(cfg, code) == Pro ==> code == cfg.proCode
  {
    assert IsCodeOf(cfg, Pro, code) <==> code != "" && code == cfg.proCode;
    assert IsCodeOf(cfg, Enterprise, code) <==> code != "" && code == cfg.enterpriseCode;
    assert forall plan :: IsCodeOf(cfg, plan, code) ==> plan == Pro || plan == Enterprise;
  }

  /** Each plan is found by its own name, and an unknown name means the free one. */
  lemma PlanOfKeyExactly(key: string, plan: Plan)
    ensures PlanOfKey(key) == plan <==> PlanKey(plan) == key || (plan == Free && key !in {"pro", "enterprise"})
    ensures PlanKey(Pro) == "pro" && PlanKey(Enterprise) == "enterprise"
  {
  }

  /** The code configured for one paid plan is set and not shadowed. */
  predicate Configured(cfg: Config, plan: Plan) {
    match plan
    case Free => false
    case Pro => cfg.proCode != "" && cfg.proCode != cfg.enterpriseCode
    case Enterprise => cfg.enterpriseCode != ""
  }

  // ── A checkout and its reports ────────────────────────────────────

  datatype Checkout = Checkout(org: Id, plan: Plan, customer: string, subCode: string)

  predicate Paid(c: Checkout) {
    c.plan != Free && c.org != "" && c.subCode != ""
  }

  function CheckoutCode(cfg: Config, c: Checkout): string
    requires c.plan != Free
  {
    PlanCode(cfg, c.plan).value
  }

  /** A report that carries the subscription. */
  predicate ReportsSubscription(cfg: Config, db: Db, c: Checkout, step: Step)
    requires Paid(c)
  {
    && step.Bill?
    && match step.bill
       case DoVerify(actor, tx, _, _) =>
         CurrentUser(db.users, actor)
         && tx == Some(Transaction(true, c.org, CheckoutCode(cfg, c), c.customer, c.subCode))
       case DoWebhook(genuine, event, _) =>
         genuine && event.SubscriptionCreate? && event.org == c.org
         && event.planCode == CheckoutCode(cfg, c) && event.subCode == c.subCode
       case _ => false
  }

  /** A report that only carries the payment. */
  predicate ReportsPayment(cfg: Config, db: Db, c: Checkout, step: Step)
    requires Paid(c)
  {
    && step.Bill?
    && match step.bill
       case DoVerify(actor, tx, _, _) =>
         CurrentUser(db.users, actor) && tx == Some(Transaction(true, c.org, CheckoutCode(cfg, c), c.customer, ""))
       case DoWebhook(genuine, event, _) => genuine && event == ChargeSuccess(c.org, PlanKey(c.plan))
       case _ => false
  }

  predicate Reports(cfg: Config, db: Db, c: Checkout, step: Step)
    requires Paid(c)
  {
    ReportsSubscription(cfg, db, c, step) || ReportsPayment(cfg, db, c, step)
  }

  /** Everything else that may happen meanwhile: account requests, organization
      requests other than deleting this one, refused billing requests, and billing
      of other organizations under other codes. */
  ghost predicate Elsewhere(cfg: Config, db: Db, c: Checkout, step: Step) {
    match step
    case Account(_) => true
    case Org(s) => !(s.DoDelete? && s.org == c.org)
    case Bill(s) =>
      !Granted(db, s) ||
      match s
      case DoVerify(_, tx, _, _) =>
        tx.Some? && tx.value.org != c.org && tx.value.customer != c.customer && tx.value.subCode != c.subCode
      case DoCancel(_, o, _, _) => o != c.org
      case DoWebhook(_, event, _) =>
        match event
        case ChargeSuccess(o, _) => o != c.org
        case SubscriptionCreate(o, _, subCode, _) => o != c.org && subCode != c.subCode
        case SubscriptionDisable(o, subCode) => o != c.org && subCode != c.subCode
        case PaymentFailed(subCode) => subCode != c.subCode
        case OtherEvent => true
  }

  // ── What the checkout brings about ────────────────────────────────

  /** The organization exists and no other holds this checkout's codes. */
  ghost predicate Clear(db: Db, c: Checkout) {
    c.org in db.orgs && !CustomerTaken(db, c.org, c.customer) && !SubCodeTaken(db, c.org, c.subCode)
  }

  predicate OnPlan(db: Db, c: Checkout) {
    c.org in db.orgs && db.orgs[c.org].plan == c.plan
  }

  predicate Subscribed(cfg: Config, db: Db, c: Checkout)
    requires Paid(c)
  {
    && c.org in db.subs
    && db.subs[c.org].subCode == c.subCode
    && db.subs[c.org].planCode == CheckoutCode(cfg, c)
    && db.subs[c.org].status == Active
  }

  // ── One step ──────────────────────────────────────────────────────

  /** The report is granted and brings about what it says. */
  ghost predicate Takes(cfg: Config, db: Db, c: Checkout, s: BillingStep)
    requires Paid(c)
  {
    var after := Settle(db, BillingRequest(cfg, db, s));
    && Granted(db, s) && Clear(after, c) && OnPlan(after, c)
    && (ReportsSubscription(cfg, db, c, Bill(s)) || Subscribed(cfg, db, c) ==> Subscribed(cfg, after, c))
  }

  lemma ReportGranted(cfg: Config, db: Db, c: Checkout, s: BillingStep)
    requires Paid(c) && Clear(db, c) && Reports(cfg, db, c, Bill(s))
    ensures BillingRequest(cfg, db, s).outcome.Ok? && Granted(db, s)
  {
    GrantedExactly(cfg, db, s);
    TakenMeansHeld(db, c.org, c.subCode);
  }

  lemma CallbackTakes(cfg: Config, db: Db, c: Checkout, s: BillingStep)
    requires Paid(c) && Configured(cfg, c.plan) && Clear(db, c)
    requires Reports(cfg, db, c, Bill(s)) && s.DoVerify?
    ensures Takes(cfg, db, c, s)
  {
    ReportGranted(cfg, db, c, s);
  }

  lemma WebhookTakes(cfg: Config, db: Db, c: Checkout, s: BillingStep)
    requires Paid(c) && Configured(cfg, c.plan) && Clear(db, c)
    requires Reports(cfg, db, c, Bill(s)) && s.DoWebhook?
    ensures Takes(cfg, db, c, s)
  {
    ReportGranted(cfg, db, c, s);
  }

  lemma ReportStep(cfg: Config, db: Db, c: Checkout, s: BillingStep)
    requires Paid(c) && Configured(cfg, c.plan) && Clear(db, c)
    requires Reports(cfg, db, c, Bill(s))
    ensures Takes(cfg, db, c, s)
  {
    if s.DoVerify? { CallbackTakes(cfg, db, c, s); } else { WebhookTakes(cfg, db, c, s); }
  }

  lemma OtherVerify(cfg: Config, db: Db, c: Checkout, tx: Transaction, now: Time, periodEnd: Time)
    requires Paid(c) && Clear(db, c)
    requires tx.org != c.org && tx.customer != c.customer && tx.subCode != c.subCode
    ensures var a := Verify(cfg, db, tx, now, periodEnd);
            a.outcome.Ok? ==>
              Clear(a.state, c) && (OnPlan(db, c) ==> OnPlan(a.state, c))
              && (Subscribed(cfg, db, c) ==> Subscribed(cfg, a.state, c))
  {
  }

  lemma OtherUpsert(cfg: Config, db: Db, c: Checkout, o: Id, planCode: string, subCode: string, now: Time,
                    periodEnd: Time)
    requires Paid(c) && Clear(db, c) && o != c.org && subCode != c.subCode
    ensures var a := Upsert(db, o, subCode, planCode, now, periodEnd);
            a.outcome.Ok? ==>
              Clear(a.state, c) && (OnPlan(db, c) ==> OnPlan(a.state, c))
              && (Subscribed(cfg, db, c) ==> Subscribed(cfg, a.state, c))
  {
  }

  lemma OtherCreate(cfg: Config, db: Db, c: Checkout, o: Id, planCode: string, subCode: string, now: Time,
                    periodEnd: Time)
    requires Paid(c) && Clear(db, c) && o != c.org && subCode != c.subCode
    ensures var a := OnSubscriptionCreate(cfg, db, o, planCode, subCode, now, periodEnd);
            a.outcome.Ok? ==>
              Clear(a.state, c) && (OnPlan(db, c) ==> OnPlan(a.state, c))
              && (Subscribed(cfg, db, c) ==> Subscribed(cfg, a.state, c))
  {
    OtherUpsert(cfg, db, c, o, planCode, subCode, now, periodEnd);
  }

  lemma OtherDisable(cfg: Config, db: Db, c: Checkout, o: Id, subCode: string, now: Time)
    requires Paid(c) && Clear(db, c) && o != c.org && subCode != c.subCode
    ensures var after := OnSubscriptionDisable(db, o, subCode, now).state;
            Clear(after, c) && (OnPlan(db, c) ==> OnPlan(after, c))
            && (Subscribed(cfg, db, c) ==> Subscribed(cfg, after, c))
  {
    var found := OneOrNone(WithSubCode(db, subCode));
    if found.OneRow? {
      assert found.id in WithSubCode(db, subCode);
    }
  }

  lemma OtherFailure(cfg: Config, db: Db, c: Checkout, subCode: string)
    requires Paid(c) && Clear(db, c) && subCode != c.subCode
    ensures var after := OnPaymentFailed(db, subCode).state;
            Clear(after, c) && (OnPlan(db, c) ==> OnPlan(after, c))
            && (Subscribed(cfg, db, c) ==> Subscribed(cfg, after, c))
  {
  }

  lemma OtherBilling(cfg: Config, db: Db, c: Checkout, s: BillingStep)
    requires Paid(c) && Clear(db, c) && Elsewhere(cfg, db, c, Bill(s))
    ensures var after := Settle(db, BillingRequest(cfg, db, s));
            Clear(after, c) && (OnPlan(db, c) ==> OnPlan(after, c))
            && (Subscribed(cfg, db, c) ==> Subscribed(cfg, after, c))
  {
    GrantedExactly(cfg, db, s);
    if Granted(db, s) {
      match s
      case DoVerify(_, tx, now, periodEnd) => OtherVerify(cfg, db, c, tx.value, now, periodEnd);
      case DoCancel(_, _, _, _) =>
      case DoWebhook(_, event, now) =>
        match event
        case ChargeSuccess(_, _) =>
        case SubscriptionCreate(o, planCode, subCode, periodEnd) =>
          OtherCreate(cfg, db, c, o, planCode, subCode, now, periodEnd);
        case SubscriptionDisable(o, subCode) => OtherDisable(cfg, db, c, o, subCode, now);
        case PaymentFailed(subCode) => OtherFailure(cfg, db, c, subCode);
        case OtherEvent =>
    }
  }

  lemma OtherOrgRequest(cfg: Config, db: Db, c: Checkout, s: OrgStep)
    requires Paid(c) && Clear(db, c) && !(s.DoDelete? && s.org == c.org)
    ensures var after := Settle(db, OrgRequest(db, s));
            Clear(after, c) && (OnPlan(db, c) ==> OnPlan(after, c))
            && (Subscribed(cfg, db, c) ==> Subscribed(cfg, after, c))
  {
    OrgRequestFrame(db, s);
  }

  // ── Whole runs ────────────────────────────────────────────────────

  /** Each step of the run either reports the checkout or happens elsewhere. */
  ghost predicate CheckoutRun(cfg: Config, w: World, c: Checkout, steps: seq<Step>)
    requires Paid(c)
  {
    forall k :: 0 <= k < |steps| ==>
      var db := Run(cfg, w, steps[..k]).db;
      Reports(cfg, db, c, steps[k]) || Elsewhere(cfg, db, c, steps[k])
  }

  ghost predicate PaymentSeen(cfg: Config, w: World, c: Checkout, steps: seq<Step>)
    requires Paid(c)
  {
    exists k :: 0 <= k < |steps| && Reports(cfg, Run(cfg, w, steps[..k]).db, c, steps[k])
  }

  ghost predicate SubscriptionSeen(cfg: Config, w: World, c: Checkout, steps: seq<Step>)
    requires Paid(c)
  {
    exists k :: 0 <= k < |steps| && ReportsSubscription(cfg, Run(cfg, w, steps[..k]).db, c, steps[k])
  }

  /** The organization is on the plan once paid; once subscribed, it has one active
      subscription with the checkout's code, and no other organization has that code. */
  ghost predicate Converged(cfg: Config, db: Db, c: Checkout, paid: bool, subscribed: bool)
    requires Paid(c)
  {
    && Clear(db, c)
    && (paid ==> OnPlan(db, c))
    && (subscribed ==> Subscribed(cfg, db, c) && forall o :: HoldsCode(db, o, c.subCode) <==> o == c.org)
  }

  lemma CheckoutStep(cfg: Config, w: World, c: Checkout, step: Step)
    requires Paid(c) && Configured(cfg, c.plan) && Clear(w.db, c)
    requires Reports(cfg, w.db, c, step) || Elsewhere(cfg, w.db, c, step)
    ensures var after := Next(cfg, w, step).db;
            && Clear(after, c)
            && (Reports(cfg, w.db, c, step) || OnPlan(w.db, c) ==> OnPlan(after, c))
            && (ReportsSubscription(cfg, w.db, c, step) || Subscribed(cfg, w.db, c) ==> Subscribed(cfg, after, c))
  {
    if Reports(cfg, w.db, c, step) {
      ReportStep(cfg, w.db, c, step.bill);
    } else {
      match step
      case Account(_) =>
      case Org(s) => OtherOrgRequest(cfg, w.db, c, s);
      case Bill(s) => OtherBilling(cfg, w.db, c, s);
    }
  }

  lemma SeenSplits(cfg: Config, w: World, c: Checkout, init: seq<Step>, last: Step)
    requires Paid(c)
    ensures PaymentSeen(cfg, w, c, init + [last]) <==>
            PaymentSeen(cfg, w, c, init) || Reports(cfg, Run(cfg, w, init).db, c, last)
    ensures SubscriptionSeen(cfg, w, c, init + [last]) <==>
            SubscriptionSeen(cfg, w, c, init) || ReportsSubscription(cfg, Run(cfg, w, init).db, c, last)
  {
    var steps, n := init + [last], |init|;
    assert forall k :: 0 <= k < n ==> init[k] == steps[k] && init[..k] == steps[..k];
    assert steps[..n] == init && steps[n] == last;
  }

  lemma RunSplits(cfg: Config, w: World, c: Checkout, init: seq<Step>, last: Step)
    requires Paid(c) && CheckoutRun(cfg, w, c, init + [last])
    ensures CheckoutRun(cfg, w, c, init)
    ensures var db := Run(cfg, w, init).db; Reports(cfg, db, c, last) || Elsewhere(cfg, db, c, last)
  {
    var steps, n := init + [last], |init|;
    assert forall k :: 0 <= k < n ==> init[k] == steps[k] && init[..k] == steps[..k];
    assert steps[..n] == init && steps[n] == last;
  }

  /** Whatever the order and the number of reports: once one of them has arrived the
      organization is on the plan paid for, and once one that carries it has, on one
      active subscription with the checkout's code, which no other organization has. */
  lemma {:induction false} CheckoutConverges(cfg: Config, w: World, c: Checkout, steps: seq<Step>)
    requires Paid(c) && Configured(cfg, c.plan) && Clear(w.db, c)
    requires CheckoutRun(cfg, w, c, steps)
    ensures Converged(cfg, Run(cfg, w, steps).db, c, PaymentSeen(cfg, w, c, steps), SubscriptionSeen(cfg, w, c, steps))
  {
    if steps != [] {
      var init, last := steps[..|steps| - 1], steps[|steps| - 1];
      assert init + [last] == steps;
      RunSplits(cfg, w, c, init, last);
      CheckoutConverges(cfg, w, c, init);
      SeenSplits(cfg, w, c, init, last);
      CheckoutStep(cfg, Run(cfg, w, init), c, last);
    }
  }

  lemma WebhookPlans(cfg: Config, db: Db, c: Checkout, s: BillingStep)
    requires Paid(c) && Clear(db, c) && Reports(cfg, db, c, Bill(s)) && s.DoWebhook?
    ensures var after := Settle(db, BillingRequest(cfg, db, s));
            && Clear(after, c)
            && after.orgs[c.org].plan == if s.event.ChargeSuccess? then c.plan else CodePlan(cfg, CheckoutCode(cfg, c))
  {
  }

  /** With an unset or shadowed code the same two reports, in two orders, leave the
      organization on two different plans. */
  lemma MisconfiguredPlansDiverge(cfg: Config, w: World, c: Checkout, charge: Step, create: Step)
    requires Paid(c) && Clear(w.db, c) && !Configured(cfg, c.plan)
    requires charge.Bill? && charge.bill.DoWebhook? && charge.bill.event.ChargeSuccess?
    requires create.Bill? && create.bill.DoWebhook? && create.bill.event.SubscriptionCreate?
    requires Reports(cfg, w.db, c, charge) && Reports(cfg, w.db, c, create)
    ensures OnPlan(Run(cfg, w, [create, charge]).db, c)
    ensures !OnPlan(Run(cfg, w, [charge, create]).db, c)
  {
    TwoSteps(cfg, w, charge, create);
    TwoSteps(cfg, w, create, charge);
    WebhookPlans(cfg, w.db, c, charge.bill);
    WebhookPlans(cfg, w.db, c, create.bill);
    WebhookPlans(cfg, Next(cfg, w, charge).db, c, create.bill);
    WebhookPlans(cfg, Next(cfg, w, create).db, c, charge.bill);
  }

  lemma TwoWebhooksAreARun(cfg: Config, w: World, c: Checkout, a: Step, b: Step)
    requires Paid(c) && a.Bill? && a.bill.DoWebhook? && b.Bill? && b.bill.DoWebhook?
    requires Reports(cfg, w.db, c, a) && Reports(cfg, w.db, c, b)
    ensures CheckoutRun(cfg, w, c, [a, b]) && PaymentSeen(cfg, w, c, [a, b])
  {
    var steps := [a, b];
    assert steps[..0] == [];
    assert Reports(cfg, Run(cfg, w, steps[..0]).db, c, steps[0]);
    assert Reports(cfg, Run(cfg, w, steps[..1]).db, c, steps[1]);
  }

  /** A single report as a run. */
  lemma OneReport(cfg: Config, w: World, c: Checkout, report: Step)
    requires Paid(c) && ReportsSubscription(cfg, w.db, c, report)
    ensures CheckoutRun(cfg, w, c, [report])
    ensures PaymentSeen(cfg, w, c, [report]) && SubscriptionSeen(cfg, w, c, [report])
    ensures Run(cfg, w, [report]) == Next(cfg, w, report)
  {
    assert [report][..0] == [];
    assert ReportsSubscription(cfg, Run(cfg, w, [report][..0]).db, c, [report][0]);
  }

  /** With a code of the checkout held by another organization, a report that carries the
      subscription is refused. */
  lemma HeldCodesRefuse(cfg: Config, w: World, c: Checkout, actor: Id, now: Time) returns (report: Step)
    requires Paid(c) && c.org in w.db.orgs && CurrentUser(w.db.users, actor)
    requires !Clear(w.db, c)
    ensures ReportsSubscription(cfg, w.db, c, report) && Next(cfg, w, report).db == w.db
  {
    if CustomerTaken(w.db, c.org, c.customer) {
      var tx := Transaction(true, c.org, CheckoutCode(cfg, c), c.customer, c.subCode);
      report := Bill(DoVerify(actor, Some(tx), now, now));
    } else {
      report := Bill(DoWebhook(true, SubscriptionCreate(c.org, CheckoutCode(cfg, c), c.subCode, now), now));
    }
  }

  /** Whatever its reports, once one has arrived the organization is on the plan. */
  ghost predicate AlwaysOnPlan(cfg: Config, w: World, c: Checkout)
    requires Paid(c)
  {
    forall steps :: CheckoutRun(cfg, w, c, steps) && PaymentSeen(cfg, w, c, steps)
                    ==> OnPlan(Run(cfg, w, steps).db, c)
  }

  /** Whatever its reports, once one has carried the subscription it is stored. */
  ghost predicate AlwaysSubscribed(cfg: Config, w: World, c: Checkout)
    requires Paid(c)
  {
    forall steps :: CheckoutRun(cfg, w, c, steps) && SubscriptionSeen(cfg, w, c, steps)
                    ==> Subscribed(cfg, Run(cfg, w, steps).db, c)
  }

  /** For an organization that is not both on the plan and subscribed already, a paid
      checkout always takes effect, plan and subscription, exactly when the plan's code is
      configured and neither the customer code nor the subscription code is held by
      another organization. Where the plan is missing, it always arrives exactly then. */
  lemma ConvergenceExact(cfg: Config, w: World, c: Checkout, actor: Id, now: Time)
    requires Paid(c) && c.org in w.db.orgs && CurrentUser(w.db.users, actor)
    requires !(OnPlan(w.db, c) && Subscribed(cfg, w.db, c))
    ensures Configured(cfg, c.plan) && Clear(w.db, c) <==> AlwaysOnPlan(cfg, w, c) && AlwaysSubscribed(cfg, w, c)
    ensures !OnPlan(w.db, c) ==> (Configured(cfg, c.plan) && Clear(w.db, c) <==> AlwaysOnPlan(cfg, w, c))
  {
    if !Clear(w.db, c) {
      var report := HeldCodesRefuse(cfg, w, c, actor, now);
      OneReport(cfg, w, c, report);
    } else if !Configured(cfg, c.plan) {
      MisconfiguredIsNotEnough(cfg, w, c, now);
    } else {
      EnoughToConverge(cfg, w, c);
    }
  }

  lemma EnoughToConverge(cfg: Config, w: World, c: Checkout)
    requires Paid(c) && Configured(cfg, c.plan) && Clear(w.db, c)
    ensures AlwaysOnPlan(cfg, w, c) && AlwaysSubscribed(cfg, w, c)
  {
    forall steps | CheckoutRun(cfg, w, c, steps)
      ensures PaymentSeen(cfg, w, c, steps) ==> OnPlan(Run(cfg, w, steps).db, c)
      ensures SubscriptionSeen(cfg, w, c, steps) ==> Subscribed(cfg, Run(cfg, w, steps).db, c)
    {
      CheckoutConverges(cfg, w, c, steps);
    }
  }

  lemma MisconfiguredIsNotEnough(cfg: Config, w: World, c: Checkout, now: Time)
    requires Paid(c) && Clear(w.db, c) && !Configured(cfg, c.plan)
    ensures !AlwaysOnPlan(cfg, w, c)
  {
    var charge := Bill(DoWebhook(true, ChargeSuccess(c.org, PlanKey(c.plan)), now));
    var create := Bill(DoWebhook(true, SubscriptionCreate(c.org, CheckoutCode(cfg, c), c.subCode, now), now));
    TwoWebhooksAreARun(cfg, w, c, charge, create);
    MisconfiguredPlansDiverge(cfg, w, c, charge, create);
  }

  lemma TwoSteps(cfg: Config, w: World, a: Step, b: Step)
    ensures Run(cfg, w, [a, b]) == Next(cfg, Next(cfg, w, a), b)
  {
    assert [a, b][..1] == [a] && [a][..0] == [];
    assert Run(cfg, w, [a]) == Next(cfg, w, a);
  }
}
