/** Billing requests that concern different organizations, subscription codes and
    customer codes commute. */
module Commutation {
  import opened Schema
  import opened Billing
  import opened BillingHistory

  // ── What a request names and reaches ──────────────────────────────

  function NamedOrg(step: BillingStep): set<Id> {
    match step
    case DoVerify(_, tx, _, _) => if tx.Some? then {tx.value.org} else {}
    case DoCancel(_, o, _, _) => {o}
    case DoWebhook(_, event, _) =>
      match event
      case ChargeSuccess(o, _) => if o == "" then {} else {o}
      case SubscriptionCreate(o, _, _, _) => if o == "" then {} else {o}
      case SubscriptionDisable(o, _) => if o == "" then {} else {o}
      case _ => {}
  }

  function NamedCode(step: BillingStep): set<string> {
    match step
    case DoVerify(_, tx, _, _) => if tx.Some? && tx.value.subCode != "" then {tx.value.subCode} else {}
    case DoCancel(_, _, _, _) => {}
    case DoWebhook(_, event, _) =>
      match event
      case SubscriptionCreate(_, _, subCode, _) => {subCode}
      case SubscriptionDisable(_, subCode) => {subCode}
      case PaymentFailed(subCode) => {subCode}
      case _ => {}
  }

  function NamedCustomer(step: BillingStep): set<string> {
    if step.DoVerify? && step.tx.Some? then {step.tx.value.customer} else {}
  }

  /** The organizations a request names, and those holding a code it names. */
  predicate Reaches(db: Db, step: BillingStep, org: Id) {
    org in NamedOrg(step) || (org in db.subs && db.subs[org].subCode in NamedCode(step))
  }

  /** The requests reach different organizations, name different codes, and neither
      names a customer code that an organization the other reaches holds. */
  ghost predicate Apart(db: Db, s: BillingStep, t: BillingStep) {
    && (forall o :: !(Reaches(db, s, o) && Reaches(db, t, o)))
    && NamedCode(s) !! NamedCode(t)
    && NamedCustomer(s) !! NamedCustomer(t)
    && (forall o :: o in db.orgs && db.orgs[o].customer.Some? ==>
          !(Reaches(db, t, o) && db.orgs[o].customer.value in NamedCustomer(s))
          && !(Reaches(db, s, o) && db.orgs[o].customer.value in NamedCustomer(t)))
  }

  // ── Requests as local writes ──────────────────────────────────────

  /** At most one organization row and one subscription row. */
  datatype Write = Write(org: Option<(Id, Organization)>, sub: Option<(Id, Subscription)>)

  const NO_WRITE := Write(None, None)

  function Apply(db: Db, write: Write): Db {
    var withOrg := if write.org.Some? then db.(orgs := db.orgs[write.org.value.0 := write.org.value.1]) else db;
    if write.sub.Some? then withOrg.(subs := db.subs[write.sub.value.0 := write.sub.value.1]) else withOrg
  }

  function OrgWrite(db: Db, org: Id, plan: Plan): Option<(Id, Organization)> {
    if org != "" && org in db.orgs then Some((org, db.orgs[org].(plan := plan))) else None
  }

  function SubWrite(db: Db, org: Id, code: string, planCode: string, now: Time, periodEnd: Time):
    Option<(Id, Subscription)>
  {
    Some((org, Subscription(code, planCode, Active, now, periodEnd,
                            if org in db.subs then db.subs[org].canceledAt else None)))
  }

  /** What a granted request writes, in terms of the rows it reaches. */
  ghost function WriteOf(cfg: Config, db: Db, step: BillingStep): Write {
    if !Granted(db, step) then NO_WRITE
    else
      match step
      case DoVerify(_, tx, now, periodEnd) =>
        if tx.None? || tx.value.org !in db.orgs then NO_WRITE
        else
          var row := db.orgs[tx.value.org].(customer := Some(tx.value.customer),
                                            plan := CodePlan(cfg, tx.value.planCode));
          Write(Some((tx.value.org, row)),
                if tx.value.subCode == "" then None
                else SubWrite(db, tx.value.org, tx.value.subCode, tx.value.planCode, now, periodEnd))
      case DoCancel(_, o, _, now) =>
        if o !in db.subs || o !in db.orgs then NO_WRITE
        else Write(Some((o, db.orgs[o].(plan := Free))),
                   Some((o, db.subs[o].(status := Canceled, canceledAt := Some(now)))))
      case DoWebhook(_, event, now) =>
        match event
        case ChargeSuccess(o, planKey) => Write(OrgWrite(db, o, PlanOfKey(planKey)), None)
        case SubscriptionCreate(o, planCode, subCode, periodEnd) =>
          if o == "" then NO_WRITE
          else Write(OrgWrite(db, o, CodePlan(cfg, planCode)), SubWrite(db, o, subCode, planCode, now, periodEnd))
        case SubscriptionDisable(o, subCode) =>
          Write(OrgWrite(db, o, Free), Found(db, subCode, Canceled, Some(now)))
        case PaymentFailed(subCode) => Write(None, Found(db, subCode, PastDue, None))
        case OtherEvent => NO_WRITE
  }

  function Found(db: Db, subCode: string, status: SubscriptionStatus, at: Option<Time>): Option<(Id, Subscription)> {
    match OneOrNone(WithSubCode(db, subCode))
    case OneRow(o) =>
      var sub := db.subs[o].(status := status);
      Some((o, if at.Some? then sub.(canceledAt := at) else sub))
    case _ => None
  }

  lemma EventIsWrite(cfg: Config, db: Db, event: Event, now: Time)
    ensures Settle(db, OnEvent(cfg, db, event, now)) == Apply(db, WriteOf(cfg, db, DoWebhook(true, event, now)))
  {
    GrantedExactly(cfg, db, DoWebhook(true, event, now));
    match event
    case ChargeSuccess(_, _) =>
    case SubscriptionCreate(_, _, _, _) =>
    case SubscriptionDisable(_, _) =>
    case PaymentFailed(_) =>
    case OtherEvent =>
  }

  lemma RequestIsWrite(cfg: Config, db: Db, step: BillingStep)
    ensures Settle(db, BillingRequest(cfg, db, step)) == Apply(db, WriteOf(cfg, db, step))
  {
    GrantedExactly(cfg, db, step);
    match step
    case DoVerify(_, _, _, _) =>
    case DoCancel(_, _, _, _) =>
    case DoWebhook(genuine, event, now) => if genuine { EventIsWrite(cfg, db, event, now); }
  }

  // ── Locality ──────────────────────────────────────────────────────

  /** The two stores look the same to the request. */
  ghost predicate LooksSame(a: Db, b: Db, step: BillingStep) {
    && a.users == b.users && a.orgs.Keys == b.orgs.Keys
    && (forall o :: Reaches(a, step, o) && o in a.orgs ==> a.orgs[o] == b.orgs[o])
    && (forall o :: Reaches(a, step, o) ==> (o in a.subs <==> o in b.subs))
    && (forall o :: Reaches(a, step, o) && o in a.subs ==> a.subs[o] == b.subs[o])
    && (forall o, c :: c in NamedCustomer(step) && o in a.orgs ==>
          (a.orgs[o].customer == Some(c) <==> b.orgs[o].customer == Some(c)))
    && (forall o, c :: c in NamedCode(step) ==> (HoldsCode(a, o, c) <==> HoldsCode(b, o, c)))
  }

  lemma TakenLooksSame(a: Db, b: Db, step: BillingStep)
    requires LooksSame(a, b, step)
    ensures forall o, c :: c in NamedCustomer(step) ==> CustomerTaken(a, o, c) == CustomerTaken(b, o, c)
    ensures forall o, c :: c in NamedCode(step) ==> SubCodeTaken(a, o, c) == SubCodeTaken(b, o, c)
    ensures forall c :: c in NamedCode(step) ==> WithSubCode(a, c) == WithSubCode(b, c)
  {
    forall o, c | c in NamedCode(step)
      ensures SubCodeTaken(a, o, c) == SubCodeTaken(b, o, c)
    {
      TakenMeansHeld(a, o, c);
      TakenMeansHeld(b, o, c);
    }
    forall c | c in NamedCode(step) ensures WithSubCode(a, c) == WithSubCode(b, c) {
      assert forall o :: o in WithSubCode(a, c) <==> HoldsCode(a, o, c);
      assert forall o :: o in WithSubCode(b, c) <==> HoldsCode(b, o, c);
    }
  }

  lemma VerifyIsLocal(cfg: Config, a: Db, b: Db, step: BillingStep)
    requires step.DoVerify? && LooksSame(a, b, step)
    ensures WriteOf(cfg, a, step) == WriteOf(cfg, b, step)
  {
    TakenLooksSame(a, b, step);
    if step.tx.Some? {
      var tx := step.tx.value;
      assert tx.org in NamedOrg(step) && tx.customer in NamedCustomer(step);
      assert tx.subCode != "" ==> tx.subCode in NamedCode(step);
      assert Reaches(a, step, tx.org);
    }
  }

  lemma CodeEventIsLocal(cfg: Config, a: Db, b: Db, step: BillingStep)
    requires step.DoWebhook? && (step.event.SubscriptionDisable? || step.event.PaymentFailed?)
    requires LooksSame(a, b, step)
    ensures WriteOf(cfg, a, step) == WriteOf(cfg, b, step)
  {
    TakenLooksSame(a, b, step);
    var code := step.event.subCode;
    assert code in NamedCode(step);
    var found := OneOrNone(WithSubCode(a, code));
    if found.OneRow? {
      assert found.id in WithSubCode(a, code);
      assert Reaches(a, step, found.id);
    }
    if step.event.SubscriptionDisable? {
      assert step.event.org != "" ==> Reaches(a, step, step.event.org);
    }
  }

  lemma OrgEventIsLocal(cfg: Config, a: Db, b: Db, step: BillingStep)
    requires step.DoWebhook? && (step.event.ChargeSuccess? || step.event.SubscriptionCreate?)
    requires LooksSame(a, b, step)
    ensures WriteOf(cfg, a, step) == WriteOf(cfg, b, step)
  {
    TakenLooksSame(a, b, step);
    assert step.event.org != "" ==> Reaches(a, step, step.event.org);
    if step.event.SubscriptionCreate? {
      assert step.event.subCode in NamedCode(step);
    }
  }

  lemma RequestIsLocal(cfg: Config, a: Db, b: Db, step: BillingStep)
    requires LooksSame(a, b, step)
    ensures WriteOf(cfg, a, step) == WriteOf(cfg, b, step)
  {
    match step
    case DoVerify(_, _, _, _) => VerifyIsLocal(cfg, a, b, step);
    case DoCancel(_, o, _, _) => assert Reaches(a, step, o);
    case DoWebhook(_, event, _) =>
      match event
      case ChargeSuccess(_, _) => OrgEventIsLocal(cfg, a, b, step);
      case SubscriptionCreate(_, _, _, _) => OrgEventIsLocal(cfg, a, b, step);
      case SubscriptionDisable(_, _) => CodeEventIsLocal(cfg, a, b, step);
      case PaymentFailed(_) => CodeEventIsLocal(cfg, a, b, step);
      case OtherEvent =>
  }

  // ── Where a request writes ────────────────────────────────────────

  /** The rows written are reached, and carry no codes but those named or held. */
  predicate WithinReach(db: Db, step: BillingStep, w: Write) {
    && (w.org.Some? ==>
          var (o, row) := w.org.value;
          Reaches(db, step, o) && o in db.orgs
          && (row.customer == db.orgs[o].customer || (row.customer.Some? && row.customer.value in NamedCustomer(step))))
    && (w.sub.Some? ==>
          var (o, sub) := w.sub.value;
          Reaches(db, step, o)
          && (sub.subCode in NamedCode(step) || (o in db.subs && sub.subCode == db.subs[o].subCode)))
  }

  lemma WritesWhereItReaches(cfg: Config, db: Db, step: BillingStep)
    ensures WithinReach(db, step, WriteOf(cfg, db, step))
  {
  }

  lemma ApartKeepsCodes(db: Db, s: BillingStep, w: Write, t: BillingStep, org: Id, code: string)
    requires Apart(db, s, t) && WithinReach(db, s, w) && code in NamedCode(t)
    ensures HoldsCode(db, org, code) <==> HoldsCode(Apply(db, w), org, code)
  {
  }

  lemma ApartKeepsCustomers(db: Db, s: BillingStep, w: Write, t: BillingStep, org: Id, customer: string)
    requires Apart(db, s, t) && WithinReach(db, s, w) && customer in NamedCustomer(t) && org in db.orgs
    ensures db.orgs[org].customer == Some(customer) <==> Apply(db, w).orgs[org].customer == Some(customer)
  {
  }

  /** A request apart from another does not change what the other sees. */
  lemma ApartLooksSame(db: Db, s: BillingStep, w: Write, t: BillingStep)
    requires Apart(db, s, t) && WithinReach(db, s, w)
    ensures LooksSame(db, Apply(db, w), t)
  {
    forall o, c | c in NamedCode(t)
      ensures HoldsCode(db, o, c) <==> HoldsCode(Apply(db, w), o, c)
    {
      ApartKeepsCodes(db, s, w, t, o, c);
    }
    forall o, c | c in NamedCustomer(t) && o in db.orgs
      ensures db.orgs[o].customer == Some(c) <==> Apply(db, w).orgs[o].customer == Some(c)
    {
      ApartKeepsCustomers(db, s, w, t, o, c);
    }
  }

  /** Two requests apart from each other can be served in either order. */
  lemma RequestsCommute(cfg: Config, db: Db, s: BillingStep, t: BillingStep)
    requires Apart(db, s, t)
    ensures var afterS, afterT := Settle(db, BillingRequest(cfg, db, s)), Settle(db, BillingRequest(cfg, db, t));
            Settle(afterS, BillingRequest(cfg, afterS, t)) == Settle(afterT, BillingRequest(cfg, afterT, s))
  {
    var ws, wt := WriteOf(cfg, db, s), WriteOf(cfg, db, t);
    var afterS, afterT := Apply(db, ws), Apply(db, wt);
    RequestIsWrite(cfg, db, s);
    RequestIsWrite(cfg, db, t);
    WritesWhereItReaches(cfg, db, s);
    WritesWhereItReaches(cfg, db, t);
    ApartLooksSame(db, s, ws, t);
    ApartLooksSame(db, t, wt, s);
    RequestIsLocal(cfg, db, afterS, t);
    RequestIsLocal(cfg, db, afterT, s);
    RequestIsWrite(cfg, afterS, t);
    RequestIsWrite(cfg, afterT, s);
    DisjointWrites(db, ws, wt);
  }

  lemma DisjointWrites(db: Db, v: Write, w: Write)
    requires v.org.Some? && w.org.Some? ==> v.org.value.0 != w.org.value.0
    requires v.sub.Some? && w.sub.Some? ==> v.sub.value.0 != w.sub.value.0
    ensures Apply(Apply(db, v), w) == Apply(Apply(db, w), v)
  {
    if v.org.Some? && w.org.Some? {
      UpdatesCommute(db.orgs, v.org.value.0, v.org.value.1, w.org.value.0, w.org.value.1);
    }
    if v.sub.Some? && w.sub.Some? {
      UpdatesCommute(db.subs, v.sub.value.0, v.sub.value.1, w.sub.value.0, w.sub.value.1);
    }
  }

  lemma UpdatesCommute<K, V>(m: map<K, V>, j: K, x: V, k: K, y: V)
    requires j != k
    ensures m[j := x][k := y] == m[k := y][j := x]
  {
  }
}
