/** The whole service as a state machine: one committed request per step. */
module System {
  import opened Schema
  import opened Sessions
  import opened Organizations
  import opened Billing

  datatype World = World(db: Db, redis: map<Jwt, Time>, issued: set<Jwt>) {
    function Accounts(): AccountState {
      AccountState(db.users, redis, issued)
    }
  }

  const EMPTY := World(EMPTY_DB, map[], {})

  datatype Step = Account(account: AccountStep) | Org(org: OrgStep) | Bill(bill: BillingStep)

  /** Who makes the request, for requests that need an authenticated caller. */
  function Caller(step: Step): Option<Id> {
    match step
    case Org(s) => Some(s.actor)
    case Bill(s) => if s.DoWebhook? then None else Some(s.actor)
    case Account(s) => if OnOwnRow(s) then Some(s.user) else if s.DoSetActive? then Some(s.admin) else None
  }

  ghost function Next(cfg: Config, w: World, step: Step): World {
    match step
    case Account(s) =>
      var a := AccountRequest(cfg, w.Accounts(), s).0;
      World(w.db.(users := a.users), a.redis, a.issued)
    case Org(s) => w.(db := Settle(w.db, OrgRequest(w.db, s)))
    case Bill(s) => w.(db := Settle(w.db, BillingRequest(cfg, w.db, s)))
  }

  ghost function Run(cfg: Config, w: World, steps: seq<Step>): World {
    if steps == [] then w
    else Next(cfg, Run(cfg, w, steps[..|steps| - 1]), steps[|steps| - 1])
  }

  lemma RunExtends(cfg: Config, w: World, steps: seq<Step>, step: Step)
    ensures Run(cfg, w, steps + [step]) == Next(cfg, Run(cfg, w, steps), step)
  {
    assert (steps + [step])[..|steps|] == steps;
  }

  /** The committed state a run from the empty store has reached before step `k`. */
  ghost function At(cfg: Config, steps: seq<Step>, k: nat): World
    requires k <= |steps|
  {
    Run(cfg, EMPTY, steps[..k])
  }

  lemma AtNext(cfg: Config, steps: seq<Step>, k: nat)
    requires k < |steps|
    ensures At(cfg, steps, k + 1) == Next(cfg, At(cfg, steps, k), steps[k])
  {
    assert steps[..k + 1][..k] == steps[..k];
  }

  /** A flag that is up at one point and down at a later one goes down in between. */
  lemma {:induction false} TurningPoint(flags: seq<bool>, j: nat, k: nat) returns (m: nat)
    requires j < k < |flags| && flags[j] && !flags[k]
    ensures j <= m < k && flags[m] && !flags[m + 1]
    decreases k
  {
    if flags[k - 1] {
      m := k - 1;
    } else {
      m := TurningPoint(flags, j, k - 1);
    }
  }

  /** Prefixes of a run extended by one step reach the same states. */
  lemma AtPrefix(cfg: Config, steps: seq<Step>, j: nat, k: nat)
    requires k <= j <= |steps|
    ensures At(cfg, steps[..j], k) == At(cfg, steps, k)
  {
    assert steps[..j][..k] == steps[..k];
  }
}
