/** The plan and the subscription of an organization are a function of the history
    of events: the last one that wrote each of them decides. */
module BillingHistory {
  import opened Schema
  import opened Billing
  import opened System
  import opened Integrity
  import opened Reachable
  import opened AccountGuards
  import opened OrganizationHistory

  // ── When a request is granted ─────────────────────────────────────

  predicate HoldsCode(db: Db, org: Id, subCode: string) {
    org in db.subs && db.subs[org].subCode == subCode
  }

  /** No other organization holds the code. */
  ghost predicate OnlyItsCode(db: Db, org: Id, subCode: string) {
    forall o :: HoldsCode(db, o, subCode) ==> o == org
  }

  ghost predicate OneHolder(db: Db, subCode: string) {
    forall o, p :: HoldsCode(db, o, subCode) && HoldsCode(db, p, subCode) ==> o == p
  }

  lemma TakenMeansHeld(db: Db, org: Id, subCode: string)
    ensures SubCodeTaken(db, org, subCode) <==> !OnlyItsCode(db, org, subCode)
  {
    if SubCodeTaken(db, org, subCode) {
      var o :| o in db.subs && o != org && db.subs[o].subCode == subCode;
      assert HoldsCode(db, o, subCode);
    }
  }

  /** What a verified transaction takes: an active caller, a successful answer for an
      existing organization, and codes no other organization holds. */
  ghost predicate VerifyAllowed(db: Db, actor: Id, answer: Option<Transaction>) {
    && IsActive(db.users, actor) && answer.Some?
    && var tx := answer.value;
       && tx.success && tx.org != "" && tx.org in db.orgs
       && (forall o :: o in db.orgs && o != tx.org ==> db.orgs[o].customer != Some(tx.customer))
       && (tx.subCode != "" ==> OnlyItsCode(db, tx.org, tx.subCode))
  }

  /** An event goes through unless it subscribes an unknown organization, brings a code
      another organization holds, or names a code that several hold. */
  ghost predicate EventAllowed(db: Db, event: Event) {
    match event
    case SubscriptionCreate(org, _, subCode, _) =>
      org == "" || ((org in db.orgs || org in db.subs) && OnlyItsCode(db, org, subCode))
    case SubscriptionDisable(_, subCode) => OneHolder(db, subCode)
    case PaymentFailed(subCode) => OneHolder(db, subCode)
    case _ => true
  }

  /** Canceling takes an active caller, a subscription and the provider's consent. */
  ghost predicate Granted(db: Db, step: BillingStep) {
    match step
    case DoVerify(actor, tx, _, _) => VerifyAllowed(db, actor, tx)
    case DoCancel(actor, org, providerOk, _) =>
      IsActive(db.users, actor) && org in db.orgs && org in db.subs && providerOk
    case DoWebhook(genuine, event, _) => genuine && EventAllowed(db, event)
  }

  /** Verifying a transaction is granted exactly then, whatever the caller's memberships. */
  lemma VerifyGrantedExactly(cfg: Config, db: Db, step: BillingStep)
    requires step.DoVerify?
    ensures BillingRequest(cfg, db, step).outcome.Ok? <==> VerifyAllowed(db, step.actor, step.tx)
  {
    if step.tx.Some? && step.tx.value.org in db.orgs {
      var tx := step.tx.value;
      var row := db.orgs[tx.org].(customer := Some(tx.customer), plan := CodePlan(cfg, tx.planCode));
      assert SubCodeTaken(db.(orgs := db.orgs[tx.org := row]), tx.org, tx.subCode) ==
             SubCodeTaken(db, tx.org, tx.subCode);
      TakenMeansHeld(db, tx.org, tx.subCode);
    }
  }

  lemma CodeLookup(db: Db, subCode: string)
    ensures OneOrNone(WithSubCode(db, subCode)).ManyRows? <==> !OneHolder(db, subCode)
  {
    var found := WithSubCode(db, subCode);
    assert forall o :: o in found <==> HoldsCode(db, o, subCode);
    if |found| > 1 {
      var o :| o in found;
      assert |found - {o}| > 0;
      var p :| p in found - {o};
    }
  }

  /** A billing request succeeds exactly when it is granted. */
  lemma GrantedExactly(cfg: Config, db: Db, step: BillingStep)
    ensures BillingRequest(cfg, db, step).outcome.Ok? <==> Granted(db, step)
  {
    match step
    case DoVerify(_, _, _, _) => VerifyGrantedExactly(cfg, db, step);
    case DoCancel(_, _, _, _) =>
    case DoWebhook(_, event, _) =>
      if event.SubscriptionDisable? || event.PaymentFailed? { CodeLookup(db, event.subCode); }
      if event.SubscriptionCreate? { TakenMeansHeld(db, event.org, event.subCode); }
  }

  /** No answer, or no consent, of the payment provider. */
  predicate ProviderFails(db: Db, step: BillingStep) {
    || (step.DoVerify? && step.tx.None?)
    || (step.DoCancel? && step.org in db.orgs && step.org in db.subs && !step.providerOk)
  }

  /** What the request names is not there. */
  predicate MissesRows(db: Db, step: BillingStep) {
    || (step.DoVerify? && step.tx.Some? && step.tx.value.success && step.tx.value.org != ""
        && step.tx.value.org !in db.orgs)
    || (step.DoCancel? && (step.org !in db.orgs || step.org !in db.subs))
  }

  /** Why a billing request is refused; the remaining refusals are key violations and
      codes that several organizations hold. */
  lemma BillingRefusedExactly(cfg: Config, db: Db, step: BillingStep)
    ensures var outcome := BillingRequest(cfg, db, step).outcome;
            var asked := !step.DoWebhook? && IsActive(db.users, step.actor);
            && (outcome == Err(Unauthorized) <==> !step.DoWebhook? && !IsActive(db.users, step.actor))
            && (outcome == Err(ProviderFailed) <==> asked && ProviderFails(db, step))
            && (outcome == Err(NotFound) <==> asked && MissesRows(db, step))
            && (outcome == Err(BadRequest) <==>
                || (step.DoWebhook? && !step.genuine)
                || (asked && step.DoVerify? && step.tx.Some? && (!step.tx.value.success || step.tx.value.org == "")))
  {
  }

  // ── What one step writes ──────────────────────────────────────────

  /** The plan this step writes for the organization, if it writes one. Charges
      name the plan, every other event only a plan code. */
  ghost function PlanWritten(cfg: Config, db: Db, step: Step, org: Id): Option<Plan> {
    match step
    case Account(_) => None
    case Org(s) =>
      if s.DoCreate? && s.org == org && Founds(db, s) then Some(Free) else None
    case Bill(s) => if Granted(db, s) then BilledPlan(cfg, s, org) else None
  }

  function BilledPlan(cfg: Config, step: BillingStep, org: Id): Option<Plan> {
    match step
    case DoVerify(_, tx, _, _) =>
      if tx.Some? && tx.value.org == org then Some(CodePlan(cfg, tx.value.planCode)) else None
    case DoCancel(_, o, _, _) => if o == org then Some(Free) else None
    case DoWebhook(_, event, _) =>
      match event
      case ChargeSuccess(o, planKey) => if o == org && o != "" then Some(PlanOfKey(planKey)) else None
      case SubscriptionCreate(o, planCode, _, _) => if o == org && o != "" then Some(CodePlan(cfg, planCode)) else None
      case SubscriptionDisable(o, _) => if o == org && o != "" then Some(Free) else None
      case _ => None
  }

  /** The status this step writes: an upsert or a cancellation of the organization,
      or a disable or failure naming the code it holds at that moment. */
  ghost function StatusWritten(cfg: Config, db: Db, step: Step, org: Id): Option<SubscriptionStatus> {
    if !step.Bill? || !Granted(db, step.bill) then None
    else
      match step.bill
      case DoVerify(_, tx, _, _) =>
        if tx.Some? && tx.value.org == org && tx.value.subCode != "" then Some(Active) else None
      case DoCancel(_, o, _, _) => if o == org then Some(Canceled) else None
      case DoWebhook(_, event, _) =>
        match event
        case SubscriptionCreate(o, _, _, _) => if o == org && o != "" then Some(Active) else None
        case SubscriptionDisable(_, subCode) => if HoldsCode(db, org, subCode) then Some(Canceled) else None
        case PaymentFailed(subCode) => if HoldsCode(db, org, subCode) then Some(PastDue) else None
        case _ => None
  }

  /** The instant this step records as a cancellation. */
  ghost function CancellationWritten(cfg: Config, db: Db, step: Step, org: Id): Option<Time> {
    if StatusWritten(cfg, db, step, org) == Some(Canceled) then Some(step.bill.now) else None
  }

  /** What an upsert fixes: the codes and the period. */
  datatype Terms = Terms(subCode: string, planCode: string, start: Time, end: Time)

  ghost function TermsWritten(cfg: Config, db: Db, step: Step, org: Id): Option<Terms> {
    if !step.Bill? || !Granted(db, step.bill) then None
    else
      match step.bill
      case DoVerify(_, tx, now, periodEnd) =>
        if tx.Some? && tx.value.org == org && tx.value.subCode != ""
        then Some(Terms(tx.value.subCode, tx.value.planCode, now, periodEnd)) else None
      case DoWebhook(_, event, now) =>
        if event.SubscriptionCreate? && event.org == org && org != ""
        then Some(Terms(event.subCode, event.planCode, now, event.periodEnd)) else None
      case _ => None
  }

  /** A new organization has no customer code; a verification stores one. */
  ghost function CustomerWritten(cfg: Config, db: Db, step: Step, org: Id): Option<Option<string>> {
    match step
    case Account(_) => None
    case Org(s) => if s.DoCreate? && s.org == org && Founds(db, s) then Some(None) else None
    case Bill(s) => if Granted(db, s) then BilledCustomer(s, org) else None
  }

  function BilledCustomer(step: BillingStep, org: Id): Option<Option<string>> {
    if step.DoVerify? && step.tx.Some? && step.tx.value.org == org then Some(Some(step.tx.value.customer)) else None
  }

  // ── The history read backwards ────────────────────────────────────

  ghost function LastPlan(cfg: Config, steps: seq<Step>, org: Id): Option<Plan> {
    if steps == [] then None
    else
      var init, last := steps[..|steps| - 1], steps[|steps| - 1];
      var written := PlanWritten(cfg, Run(cfg, EMPTY, init).db, last, org);
      if written.Some? then written else LastPlan(cfg, init, org)
  }

  ghost function LastStatus(cfg: Config, steps: seq<Step>, org: Id): Option<SubscriptionStatus> {
    if steps == [] then None
    else
      var init, last := steps[..|steps| - 1], steps[|steps| - 1];
      var written := StatusWritten(cfg, Run(cfg, EMPTY, init).db, last, org);
      if written.Some? then written else LastStatus(cfg, init, org)
  }

  ghost function LastCancellation(cfg: Config, steps: seq<Step>, org: Id): Option<Time> {
    if steps == [] then None
    else
      var init, last := steps[..|steps| - 1], steps[|steps| - 1];
      var written := CancellationWritten(cfg, Run(cfg, EMPTY, init).db, last, org);
      if written.Some? then written else LastCancellation(cfg, init, org)
  }

  ghost function LastTerms(cfg: Config, steps: seq<Step>, org: Id): Option<Terms> {
    if steps == [] then None
    else
      var init, last := steps[..|steps| - 1], steps[|steps| - 1];
      var written := TermsWritten(cfg, Run(cfg, EMPTY, init).db, last, org);
      if written.Some? then written else LastTerms(cfg, init, org)
  }

  ghost function LastCustomer(cfg: Config, steps: seq<Step>, org: Id): Option<Option<string>> {
    if steps == [] then None
    else
      var init, last := steps[..|steps| - 1], steps[|steps| - 1];
      var written := CustomerWritten(cfg, Run(cfg, EMPTY, init).db, last, org);
      if written.Some? then written else LastCustomer(cfg, init, org)
  }

  // ── One step ──────────────────────────────────────────────────────

  function PlanIn(db: Db, org: Id): Option<Plan> {
    if org in db.orgs then Some(db.orgs[org].plan) else None
  }

  function StatusIn(db: Db, org: Id): Option<SubscriptionStatus> {
    if org in db.subs then Some(db.subs[org].status) else None
  }

  function CancellationIn(db: Db, org: Id): Option<Time> {
    if org in db.subs then db.subs[org].canceledAt else None
  }

  function TermsIn(db: Db, org: Id): Option<Terms> {
    if org in db.subs
    then Some(Terms(db.subs[org].subCode, db.subs[org].planCode, db.subs[org].periodStart, db.subs[org].periodEnd))
    else None
  }

  function CustomerIn(db: Db, org: Id): Option<Option<string>> {
    if org in db.orgs then Some(db.orgs[org].customer) else None
  }

  function Or<T>(written: Option<T>, before: Option<T>): Option<T> {
    if written.Some? then written else before
  }

  /** Between two stores the step's writes, and nothing else, are made. */
  ghost predicate SubscriptionWrites(cfg: Config, db: Db, step: Step, after: Db, org: Id) {
    && StatusIn(after, org) == Or(StatusWritten(cfg, db, step, org), StatusIn(db, org))
    && CancellationIn(after, org) == Or(CancellationWritten(cfg, db, step, org), CancellationIn(db, org))
    && TermsIn(after, org) == Or(TermsWritten(cfg, db, step, org), TermsIn(db, org))
  }

  /** With unique codes the row a code finds is the one that holds it. */
  lemma FindByCode(db: Db, subCode: string, org: Id)
    requires SubCodesUnique(db)
    ensures OneOrNone(WithSubCode(db, subCode)) == OneRow(org) <==> HoldsCode(db, org, subCode)
    ensures !OneOrNone(WithSubCode(db, subCode)).ManyRows?
  {
    var found := WithSubCode(db, subCode);
    assert HoldsCode(db, org, subCode) <==> org in found;
    assert forall i, j :: i in found && j in found ==> db.subs[i].subCode == db.subs[j].subCode;
  }

  /** Billing writes to organization rows. */
  ghost predicate OrganizationWrites(cfg: Config, db: Db, step: BillingStep, after: Db, org: Id) {
    org in db.orgs ==>
      && PlanIn(after, org) == Or(BilledPlan(cfg, step, org), PlanIn(db, org))
      && CustomerIn(after, org) == Or(BilledCustomer(step, org), CustomerIn(db, org))
  }

  lemma ChargeWrites(cfg: Config, db: Db, step: BillingStep, org: Id)
    requires step.DoWebhook? && step.event.ChargeSuccess? && Granted(db, step)
    ensures var after := BillingRequest(cfg, db, step).state;
            OrganizationWrites(cfg, db, step, after, org) && SubscriptionWrites(cfg, db, Bill(step), after, org)
  {
    GrantedExactly(cfg, db, step);
  }

  lemma CreateWrites(cfg: Config, db: Db, step: BillingStep, org: Id)
    requires ReferencesExist(db)
    requires step.DoWebhook? && step.event.SubscriptionCreate? && Granted(db, step)
    ensures var after := BillingRequest(cfg, db, step).state;
            OrganizationWrites(cfg, db, step, after, org) && SubscriptionWrites(cfg, db, Bill(step), after, org)
  {
    GrantedExactly(cfg, db, step);
  }

  lemma DisableWrites(cfg: Config, db: Db, step: BillingStep, org: Id)
    requires SubCodesUnique(db)
    requires step.DoWebhook? && step.event.SubscriptionDisable? && Granted(db, step)
    ensures var after := BillingRequest(cfg, db, step).state;
            OrganizationWrites(cfg, db, step, after, org) && SubscriptionWrites(cfg, db, Bill(step), after, org)
  {
    GrantedExactly(cfg, db, step);
    FindByCode(db, step.event.subCode, org);
  }

  lemma FailureWrites(cfg: Config, db: Db, step: BillingStep, org: Id)
    requires SubCodesUnique(db)
    requires step.DoWebhook? && step.event.PaymentFailed? && Granted(db, step)
    ensures var after := BillingRequest(cfg, db, step).state;
            OrganizationWrites(cfg, db, step, after, org) && SubscriptionWrites(cfg, db, Bill(step), after, org)
  {
    GrantedExactly(cfg, db, step);
    FindByCode(db, step.event.subCode, org);
  }

  lemma VerifyWrites(cfg: Config, db: Db, step: BillingStep, org: Id)
    requires step.DoVerify? && Granted(db, step)
    ensures var after := BillingRequest(cfg, db, step).state;
            OrganizationWrites(cfg, db, step, after, org) && SubscriptionWrites(cfg, db, Bill(step), after, org)
  {
    GrantedExactly(cfg, db, step);
  }

  lemma CancelWrites(cfg: Config, db: Db, step: BillingStep, org: Id)
    requires step.DoCancel? && Granted(db, step)
    ensures var after := BillingRequest(cfg, db, step).state;
            OrganizationWrites(cfg, db, step, after, org) && SubscriptionWrites(cfg, db, Bill(step), after, org)
  {
    GrantedExactly(cfg, db, step);
  }

  lemma BillingWrites(cfg: Config, db: Db, step: BillingStep, org: Id)
    requires StoreOk(db) && Granted(db, step)
    ensures var after := BillingRequest(cfg, db, step).state;
            OrganizationWrites(cfg, db, step, after, org) && SubscriptionWrites(cfg, db, Bill(step), after, org)
  {
    match step
    case DoVerify(_, _, _, _) => VerifyWrites(cfg, db, step, org);
    case DoCancel(_, _, _, _) => CancelWrites(cfg, db, step, org);
    case DoWebhook(_, event, _) =>
      match event
      case ChargeSuccess(_, _) => ChargeWrites(cfg, db, step, org);
      case SubscriptionCreate(_, _, _, _) => CreateWrites(cfg, db, step, org);
      case SubscriptionDisable(_, _) => DisableWrites(cfg, db, step, org);
      case PaymentFailed(_) => FailureWrites(cfg, db, step, org);
      case OtherEvent =>
  }

  // ── Whole runs ────────────────────────────────────────────────────

  lemma NextWrites(cfg: Config, w: World, step: Step, org: Id)
    requires StoreOk(w.db)
    ensures var after := Next(cfg, w, step).db;
            && (org in after.orgs ==>
                  && PlanIn(after, org) == Or(PlanWritten(cfg, w.db, step, org), PlanIn(w.db, org))
                  && CustomerIn(after, org) == Or(CustomerWritten(cfg, w.db, step, org), CustomerIn(w.db, org)))
            && SubscriptionWrites(cfg, w.db, step, after, org)
  {
    match step
    case Account(_) =>
    case Org(s) =>
      OrgRequestFrame(w.db, s);
      if s.DoCreate? { CreateGrantedExactly(w.db, s); }
      if org !in w.db.orgs && org in Next(cfg, w, step).db.orgs {
        OnlyCreateAddsOrgs(w.db, s, org);
      }
    case Bill(s) =>
      BillingRequestFrame(cfg, w.db, s);
      GrantedExactly(cfg, w.db, s);
      if Granted(w.db, s) { BillingWrites(cfg, w.db, s, org); }
  }

  /** The plan of an organization is the one its last successful plan-writing step
      wrote, over any history of creations, payments, webhooks and cancellations, and
      its customer code that of its last successful verification. */
  lemma {:induction false} PlanIsLastWritten(cfg: Config, steps: seq<Step>, org: Id)
    requires org in Run(cfg, EMPTY, steps).db.orgs
    ensures LastPlan(cfg, steps, org) == Some(Run(cfg, EMPTY, steps).db.orgs[org].plan)
    ensures LastCustomer(cfg, steps, org) == Some(Run(cfg, EMPTY, steps).db.orgs[org].customer)
  {
    if steps != [] {
      var init, last := steps[..|steps| - 1], steps[|steps| - 1];
      var w := Run(cfg, EMPTY, init);
      ReachableStoreOk(cfg, init);
      NextWrites(cfg, w, last, org);
      if org in w.db.orgs {
        PlanIsLastWritten(cfg, init, org);
      }
    }
  }

  /** An organization has a subscription exactly when something wrote one. Its status
      is the one last written, its codes and period those of the last upsert, and its
      cancellation time that of the last cancellation, which no upsert clears. */
  lemma {:induction false} SubscriptionIsLastWritten(cfg: Config, steps: seq<Step>, org: Id)
    ensures LastStatus(cfg, steps, org) == StatusIn(Run(cfg, EMPTY, steps).db, org)
    ensures LastTerms(cfg, steps, org) == TermsIn(Run(cfg, EMPTY, steps).db, org)
    ensures LastCancellation(cfg, steps, org) == CancellationIn(Run(cfg, EMPTY, steps).db, org)
  {
    if steps != [] {
      var init, last := steps[..|steps| - 1], steps[|steps| - 1];
      ReachableStoreOk(cfg, init);
      NextWrites(cfg, Run(cfg, EMPTY, init), last, org);
      SubscriptionIsLastWritten(cfg, init, org);
    }
  }

  /** After any run an organization has an ACTIVE subscription that carries a cancellation
      time exactly when its status was last written ACTIVE and it was canceled before. */
  lemma ActiveAfterCancellationExactly(cfg: Config, steps: seq<Step>, org: Id)
    ensures var db := Run(cfg, EMPTY, steps).db;
            org in db.subs && db.subs[org].status == Active && db.subs[org].canceledAt.Some? <==>
            LastStatus(cfg, steps, org) == Some(Active) && LastCancellation(cfg, steps, org).Some?
  {
    SubscriptionIsLastWritten(cfg, steps, org);
  }
}
