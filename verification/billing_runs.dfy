/** Two runs of billing from the empty store: a renewed subscription that still carries
    its cancellation time, and a cancellation by somebody who is no member. */
module BillingRuns {
  import opened Schema
  import opened Text
  import opened Accounts
  import opened Billing
  import opened System
  import opened Strangers
  import opened Scenarios

  // ── The requests ──────────────────────────────────────────────────

  /** A subscription code and the plan code it is for. */
  datatype Offer = Offer(code: string, planCode: string)

  function Subscribes(t: Tenant, o: Offer, at: Time): Step {
    Bill(DoWebhook(true, SubscriptionCreate(t.org, o.planCode, o.code, at), at))
  }
  function Disables(t: Tenant, o: Offer, at: Time): Step {
    Bill(DoWebhook(true, SubscriptionDisable(t.org, o.code), at))
  }
  function Cancels(p: Person, t: Tenant, at: Time): Step { Bill(DoCancel(p.id, t.org, true, at)) }

  // ── What they do ──────────────────────────────────────────────────

  /** The only organization, on this plan and with this subscription. */
  function Billed(db: Db, t: Tenant, plan: Plan, sub: Subscription): Db
    requires t.org in db.orgs
  {
    db.(orgs := db.orgs[t.org := db.orgs[t.org].(plan := plan)], subs := map[t.org := sub])
  }

  function Opened(o: Offer, at: Time, canceledAt: Option<Time>): Subscription {
    Subscription(o.code, o.planCode, Active, at, at, canceledAt)
  }

  lemma FirstSubscription(cfg: Config, db: Db, t: Tenant, o: Offer, at: Time)
    requires t.org != "" && t.org in db.orgs && db.subs == map[]
    ensures Settle(db, BillingRequest(cfg, db, Subscribes(t, o, at).bill)) ==
            Billed(db, t, CodePlan(cfg, o.planCode), Opened(o, at, None))
  {
  }

  lemma NextSubscription(cfg: Config, db: Db, t: Tenant, plan: Plan, sub: Subscription, o: Offer, at: Time)
    requires t.org != "" && t.org in db.orgs
    ensures var before := Billed(db, t, plan, sub);
            Settle(before, BillingRequest(cfg, before, Subscribes(t, o, at).bill)) ==
            Billed(db, t, CodePlan(cfg, o.planCode), Opened(o, at, sub.canceledAt))
  {
    var row := Opened(o, at, sub.canceledAt);
    assert map[t.org := sub][t.org := row] == map[t.org := row];
  }

  lemma Disabling(cfg: Config, db: Db, t: Tenant, plan: Plan, sub: Subscription, o: Offer, at: Time)
    requires t.org != "" && t.org in db.orgs && sub.subCode == o.code
    ensures var before := Billed(db, t, plan, sub);
            Settle(before, BillingRequest(cfg, before, Disables(t, o, at).bill)) ==
            Billed(db, t, Free, sub.(status := Canceled, canceledAt := Some(at)))
  {
    var before, row := Billed(db, t, plan, sub), sub.(status := Canceled, canceledAt := Some(at));
    assert WithSubCode(before, o.code) == {t.org};
    assert map[t.org := sub][t.org := row] == map[t.org := row];
  }

  lemma Canceling(cfg: Config, db: Db, q: Person, t: Tenant, plan: Plan, sub: Subscription, at: Time)
    requires t.org in db.orgs && CurrentUser(db.users, q.id)
    ensures var before := Billed(db, t, plan, sub);
            Settle(before, BillingRequest(cfg, before, Cancels(q, t, at).bill)) ==
            Billed(db, t, Free, sub.(status := Canceled, canceledAt := Some(at)))
  {
    var row := sub.(status := Canceled, canceledAt := Some(at));
    assert map[t.org := sub][t.org := row] == map[t.org := row];
  }

  // ── The runs ──────────────────────────────────────────────────────

  function Beginning(p: Person, t: Tenant, o: Offer): seq<Step> {
    Arrival(p) + [Founds(p, t)] + [Subscribes(t, o, 0.0)]
  }

  lemma Begins(cfg: Config, p: Person, t: Tenant, o: Offer)
    requires IsNormal(p.email) && t.org != ""
    ensures Run(cfg, EMPTY, Beginning(p, t, o)).db ==
            Billed(Founded(map[p.id := Confirmed(p)], p, t), t, CodePlan(cfg, o.planCode), Opened(o, 0.0, None))
  {
    var users: Users := map[p.id := Confirmed(p)];
    OneArrives(cfg, p);
    FoundsInRun(cfg, Arrival(p), users, p, t);
    RunExtends(cfg, EMPTY, Arrival(p) + [Founds(p, t)], Subscribes(t, o, 0.0));
    FirstSubscription(cfg, Founded(users, p, t), t, o, 0.0);
  }

  /** A subscription that begins, ends and begins again is ACTIVE and still carries the
      time of its end. */
  lemma RenewedSubscriptionStaysMarked(cfg: Config, p: Person, t: Tenant, o: Offer, end: Time, again: Time)
    requires IsNormal(p.email) && t.org != ""
    ensures var steps := Beginning(p, t, o) + [Disables(t, o, end)] + [Subscribes(t, o, again)];
            Run(cfg, EMPTY, steps).db.subs == map[t.org := Opened(o, again, Some(end))]
  {
    var db, plan := Founded(map[p.id := Confirmed(p)], p, t), CodePlan(cfg, o.planCode);
    Begins(cfg, p, t, o);
    RunExtends(cfg, EMPTY, Beginning(p, t, o), Disables(t, o, end));
    Disabling(cfg, db, t, plan, Opened(o, 0.0, None), o, end);
    RunExtends(cfg, EMPTY, Beginning(p, t, o) + [Disables(t, o, end)], Subscribes(t, o, again));
    NextSubscription(cfg, db, t, Free, Opened(o, 0.0, None).(status := Canceled, canceledAt := Some(end)), o, again);
  }

  /** Somebody who has registered and never joined the organization cancels its
      subscription. */
  lemma StrangerCancels(cfg: Config, p: Person, q: Person, t: Tenant, o: Offer, at: Time)
    requires Distinct(p, q) && t.org != ""
    ensures var steps := Arrivals(p, q) + [Founds(p, t)] + [Subscribes(t, o, 0.0)] + [Cancels(q, t, at)];
            var db := Run(cfg, EMPTY, steps).db;
            !IsMember(db, q.id, t.org) && t.org in db.subs && db.subs[t.org].status == Canceled
  {
    var db, start := Founded(People(p, q), p, t), Arrivals(p, q) + [Founds(p, t)];
    BothArrive(cfg, p, q);
    FoundsInRun(cfg, Arrivals(p, q), People(p, q), p, t);
    RunExtends(cfg, EMPTY, start, Subscribes(t, o, 0.0));
    FirstSubscription(cfg, db, t, o, 0.0);
    RunExtends(cfg, EMPTY, start + [Subscribes(t, o, 0.0)], Cancels(q, t, at));
    Canceling(cfg, db, q, t, CodePlan(cfg, o.planCode), Opened(o, 0.0, None), at);
  }
}
