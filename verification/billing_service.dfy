/** The billing service over a database session, proved against module `Billing`. */
module BillingServices {
  import opened Schema
  import opened DatabaseSession
  import Billing

  class BillingService {
    const session: Session
    const cfg: Config

    constructor (session: Session, cfg: Config)
      ensures this.session == session && this.cfg == cfg
    {
      this.session, this.cfg := session, cfg;
    }

    // ── Internal ──────────────────────────────────────────────────────

    method SavePlan(org: Id, plan: Plan)
      requires org in session.work.orgs
      modifies session
      ensures session.work == Billing.SetPlan(old(session.work), org, plan)
      ensures session.committed == old(session.committed)
    {
      var row := session.work.orgs[org].(plan := plan);
      session.work := session.work.(orgs := session.work.orgs[org := row]);
    }

    method UpsertSubscriptionRecord(org: Id, subCode: string, planCode: string, now: Time, periodEnd: Time)
      returns (r: Outcome<()>)
      modifies session
      ensures Attempt(session.work, r) == Billing.Upsert(old(session.work), org, subCode, planCode, now, periodEnd)
      ensures session.committed == old(session.committed)
    {
      if Billing.SubCodeTaken(session.work, org, subCode) {
        return Err(Integrity);
      }
      var row := Subscription(subCode, planCode, Active, now, periodEnd, None);
      if org in session.work.subs {
        row := session.work.subs[org];
        row := row.(subCode := subCode, planCode := planCode, status := Active);
        row := row.(periodStart := now, periodEnd := periodEnd);
      } else if org !in session.work.orgs {
        return Err(Integrity);
      }
      session.work := session.work.(subs := session.work.subs[org := row]);
      return Ok(());
    }

    // ── Verify and cancel ─────────────────────────────────────────────

    method VerifyTransaction(tx: Billing.Transaction, now: Time, periodEnd: Time) returns (r: Outcome<()>)
      modifies session
      ensures Attempt(session.work, r) == Billing.Verify(cfg, old(session.work), tx, now, periodEnd)
      ensures session.committed == old(session.committed)
    {
      if !tx.success || tx.org == "" {
        return Err(BadRequest);
      }
      if tx.org !in session.work.orgs {
        return Err(NotFound);
      }
      if Billing.CustomerTaken(session.work, tx.org, tx.customer) {
        return Err(Integrity);
      }
      var row := session.work.orgs[tx.org];
      row := row.(customer := Some(tx.customer));
      row := row.(plan := Billing.CodePlan(cfg, tx.planCode));
      session.work := session.work.(orgs := session.work.orgs[tx.org := row]);
      r := Ok(());
      if tx.subCode != "" {
        r := UpsertSubscriptionRecord(tx.org, tx.subCode, tx.planCode, now, periodEnd);
      }
    }

    method CancelSubscription(org: Id, providerOk: bool, now: Time) returns (r: Outcome<()>)
      requires org in session.work.orgs
      modifies session
      ensures Attempt(session.work, r) == Billing.Cancel(old(session.work), org, providerOk, now)
      ensures session.committed == old(session.committed)
    {
      if org !in session.work.subs {
        return Err(NotFound);
      }
      if !providerOk {
        return Err(ProviderFailed);
      }
      var sub := session.work.subs[org];
      sub := sub.(status := Canceled);
      sub := sub.(canceledAt := Some(now));
      session.work := session.work.(subs := session.work.subs[org := sub]);
      SavePlan(org, Free);
      return Ok(());
    }

    // ── Webhooks ──────────────────────────────────────────────────────

    method OnChargeSuccess(org: Id, planKey: string) returns (r: Outcome<()>)
      modifies session
      ensures Attempt(session.work, r) == Billing.OnChargeSuccess(old(session.work), org, planKey)
      ensures session.committed == old(session.committed)
    {
      if org != "" && org in session.work.orgs {
        SavePlan(org, Billing.PlanOfKey(planKey));
      }
      return Ok(());
    }

    method OnSubscriptionCreate(org: Id, planCode: string, subCode: string, now: Time, periodEnd: Time)
      returns (r: Outcome<()>)
      modifies session
      ensures Attempt(session.work, r) ==
              Billing.OnSubscriptionCreate(cfg, old(session.work), org, planCode, subCode, now, periodEnd)
      ensures session.committed == old(session.committed)
    {
      if org == "" {
        return Ok(());
      }
      var plan := Billing.CodePlan(cfg, planCode);
      r := UpsertSubscriptionRecord(org, subCode, planCode, now, periodEnd);
      if r.Ok? && org in session.work.orgs {
        SavePlan(org, plan);
      }
    }

    method OnSubscriptionDisable(org: Id, subCode: string, now: Time) returns (r: Outcome<()>)
      modifies session
      ensures Attempt(session.work, r) == Billing.OnSubscriptionDisable(old(session.work), org, subCode, now)
      ensures session.committed == old(session.committed)
    {
      var found := OneOrNone(Billing.WithSubCode(session.work, subCode));
      if found.ManyRows? {
        return Err(MultipleRows);
      }
      if found.OneRow? {
        var sub := session.work.subs[found.id];
        sub := sub.(status := Canceled);
        sub := sub.(canceledAt := Some(now));
        session.work := session.work.(subs := session.work.subs[found.id := sub]);
      }
      if org != "" && org in session.work.orgs {
        SavePlan(org, Free);
      }
      return Ok(());
    }

    method OnPaymentFailed(subCode: string) returns (r: Outcome<()>)
      modifies session
      ensures Attempt(session.work, r) == Billing.OnPaymentFailed(old(session.work), subCode)
      ensures session.committed == old(session.committed)
    {
      var found := OneOrNone(Billing.WithSubCode(session.work, subCode));
      if found.ManyRows? {
        return Err(MultipleRows);
      }
      if found.OneRow? {
        var sub := session.work.subs[found.id];
        session.work := session.work.(subs := session.work.subs[found.id := sub.(status := PastDue)]);
      }
      return Ok(());
    }

    /** An unauthenticated body is refused; an unknown event is ignored. */
    method HandleWebhook(genuine: bool, event: Billing.Event, now: Time) returns (r: Outcome<()>)
      modifies session
      ensures genuine ==> Attempt(session.work, r) == Billing.OnEvent(cfg, old(session.work), event, now)
      ensures !genuine ==> r == Err(BadRequest) && session.work == old(session.work)
      ensures session.committed == old(session.committed)
    {
      if !genuine {
        return Err(BadRequest);
      }
      match event
      case ChargeSuccess(org, planKey) => r := OnChargeSuccess(org, planKey);
      case SubscriptionCreate(org, planCode, subCode, periodEnd) =>
        r := OnSubscriptionCreate(org, planCode, subCode, now, periodEnd);
      case SubscriptionDisable(org, subCode) => r := OnSubscriptionDisable(org, subCode, now);
      case PaymentFailed(subCode) => r := OnPaymentFailed(subCode);
      case OtherEvent => r := Ok(());
    }
  }
}
