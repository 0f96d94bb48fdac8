/** What each billing operation does to organizations and their subscriptions. */
module Billing {
  import opened Schema
  import Accounts

  // ── Plan codes ────────────────────────────────────────────────────

  function PlanCode(cfg: Config, plan: Plan): Option<string> {
    match plan
    case Free => None
    case Pro => Some(cfg.proCode)
    case Enterprise => Some(cfg.enterpriseCode)
  }

  /** The reverse map skips empty codes; of two equal codes the later entry wins;
      an unknown code means the free plan. */
  function CodePlan(cfg: Config, code: string): Plan {
    if code != "" && code == cfg.enterpriseCode then Enterprise
    else if code != "" && code == cfg.proCode then Pro
    else Free
  }

  /** The plan named in a checkout's metadata; an unknown name means free. */
  function PlanOfKey(key: string): Plan {
    if key == "pro" then Pro else if key == "enterprise" then Enterprise else Free
  }

  function PlanKey(plan: Plan): string {
    match plan
    case Free => "free"
    case Pro => "pro"
    case Enterprise => "enterprise"
  }

  // ── Queries and flushes ───────────────────────────────────────────

  function WithSubCode(db: Db, code: string): set<Id> {
    set o | o in db.subs && db.subs[o].subCode == code
  }

  predicate CustomerTaken(db: Db, org: Id, customer: string) {
    exists o | o in db.orgs :: o != org && db.orgs[o].customer == Some(customer)
  }

  predicate SubCodeTaken(db: Db, org: Id, code: string) {
    exists o | o in db.subs :: o != org && db.subs[o].subCode == code
  }

  function SetPlan(db: Db, org: Id, plan: Plan): Db
    requires org in db.orgs
  {
    db.(orgs := db.orgs[org := db.orgs[org].(plan := plan)])
  }

  /** One row per organization, written or added; an existing row keeps its
      cancellation time. Fails on a code another organization holds and on an
      organization that does not exist. */
  function Upsert(db: Db, org: Id, subCode: string, planCode: string, now: Time, periodEnd: Time): Attempt<Db, ()> {
    var canceledAt := if org in db.subs then db.subs[org].canceledAt else None;
    var row := Subscription(subCode, planCode, Active, now, periodEnd, canceledAt);
    if SubCodeTaken(db, org, subCode) || (org !in db.subs && org !in db.orgs) then Attempt(db, Err(Integrity))
    else Attempt(db.(subs := db.subs[org := row]), Ok(()))
  }

  // ── Verify and cancel ─────────────────────────────────────────────

  /** A transaction as the payment provider reports it; missing text is empty. */
  datatype Transaction = Transaction(
    success: bool, org: Id, planCode: string, customer: string, subCode: string)

  function Verify(cfg: Config, db: Db, tx: Transaction, now: Time, periodEnd: Time): Attempt<Db, ()> {
    if !tx.success || tx.org == "" then Attempt(db, Err(BadRequest))
    else if tx.org !in db.orgs then Attempt(db, Err(NotFound))
    else if CustomerTaken(db, tx.org, tx.customer) then Attempt(db, Err(Integrity))
    else
      var row := db.orgs[tx.org].(customer := Some(tx.customer), plan := CodePlan(cfg, tx.planCode));
      var saved := db.(orgs := db.orgs[tx.org := row]);
      if tx.subCode == "" then Attempt(saved, Ok(()))
      else Upsert(saved, tx.org, tx.subCode, tx.planCode, now, periodEnd)
  }

  function Cancel(db: Db, org: Id, providerOk: bool, now: Time): Attempt<Db, ()>
    requires org in db.orgs
  {
    if org !in db.subs then Attempt(db, Err(NotFound))
    else if !providerOk then Attempt(db, Err(ProviderFailed))
    else
      var sub := db.subs[org].(status := Canceled, canceledAt := Some(now));
      Attempt(SetPlan(db.(subs := db.subs[org := sub]), org, Free), Ok(()))
  }

  // ── Webhooks ──────────────────────────────────────────────────────

  /** A webhook body; an empty organization id stands for missing metadata. */
  datatype Event =
    | ChargeSuccess(org: Id, planKey: string)
    | SubscriptionCreate(org: Id, planCode: string, subCode: string, periodEnd: Time)
    | SubscriptionDisable(org: Id, subCode: string)
    | PaymentFailed(subCode: string)
    | OtherEvent

  function OnChargeSuccess(db: Db, org: Id, planKey: string): Attempt<Db, ()> {
    if org == "" || org !in db.orgs then Attempt(db, Ok(()))
    else Attempt(SetPlan(db, org, PlanOfKey(planKey)), Ok(()))
  }

  function OnSubscriptionCreate(cfg: Config, db: Db, org: Id, planCode: string, subCode: string, now: Time,
                                periodEnd: Time): Attempt<Db, ()>
  {
    if org == "" then Attempt(db, Ok(()))
    else
      var upserted := Upsert(db, org, subCode, planCode, now, periodEnd);
      if upserted.outcome.Err? then upserted
      else if org !in upserted.state.orgs then upserted
      else Attempt(SetPlan(upserted.state, org, CodePlan(cfg, planCode)), Ok(()))
  }

  function OnSubscriptionDisable(db: Db, org: Id, subCode: string, now: Time): Attempt<Db, ()> {
    match OneOrNone(WithSubCode(db, subCode))
    case ManyRows => Attempt(db, Err(MultipleRows))
    case NoRow => Attempt(EndPlan(db, org), Ok(()))
    case OneRow(o) =>
      var sub := db.subs[o].(status := Canceled, canceledAt := Some(now));
      Attempt(EndPlan(db.(subs := db.subs[o := sub]), org), Ok(()))
  }

  /** The organization named by the event, if there is one, falls back to free. */
  function EndPlan(db: Db, org: Id): Db {
    if org != "" && org in db.orgs then SetPlan(db, org, Free) else db
  }

  function OnPaymentFailed(db: Db, subCode: string): Attempt<Db, ()> {
    match OneOrNone(WithSubCode(db, subCode))
    case ManyRows => Attempt(db, Err(MultipleRows))
    case NoRow => Attempt(db, Ok(()))
    case OneRow(o) => Attempt(db.(subs := db.subs[o := db.subs[o].(status := PastDue)]), Ok(()))
  }

  function OnEvent(cfg: Config, db: Db, event: Event, now: Time): Attempt<Db, ()> {
    match event
    case ChargeSuccess(org, planKey) => OnChargeSuccess(db, org, planKey)
    case SubscriptionCreate(org, planCode, subCode, periodEnd) =>
      OnSubscriptionCreate(cfg, db, org, planCode, subCode, now, periodEnd)
    case SubscriptionDisable(org, subCode) => OnSubscriptionDisable(db, org, subCode, now)
    case PaymentFailed(subCode) => OnPaymentFailed(db, subCode)
    case OtherEvent => Attempt(db, Ok(()))
  }

  // ── Requests ──────────────────────────────────────────────────────

  datatype BillingStep =
    | DoVerify(actor: Id, tx: Option<Transaction>, now: Time, periodEnd: Time)
    | DoCancel(actor: Id, org: Id, providerOk: bool, now: Time)
    | DoWebhook(genuine: bool, event: Event, now: Time)

  function BillingRequest(cfg: Config, db: Db, step: BillingStep): Attempt<Db, ()> {
    match step
    case DoVerify(actor, tx, now, periodEnd) =>
      if !Accounts.CurrentUser(db.users, actor) then Attempt(db, Err(Unauthorized))
      else if tx.None? then Attempt(db, Err(ProviderFailed))
      else Verify(cfg, db, tx.value, now, periodEnd)
    case DoCancel(actor, org, providerOk, now) =>
      if !Accounts.CurrentUser(db.users, actor) then Attempt(db, Err(Unauthorized))
      else if org !in db.orgs then Attempt(db, Err(NotFound))
      else Cancel(db, org, providerOk, now)
    case DoWebhook(genuine, event, now) =>
      if !genuine then Attempt(db, Err(BadRequest)) else OnEvent(cfg, db, event, now)
  }
}
