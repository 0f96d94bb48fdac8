/** Deactivated accounts over whole runs: their requests leave no trace, and only an
    administrator brings them back. */
module Deactivation {
  import opened Schema
  import opened Accounts
  import opened Sessions
  import opened System
  import opened Integrity
  import opened Reachable

  predicate Inactive(users: Users, u: Id) {
    u in users && !users[u].isActive
  }

  /** An active superuser activates the account. */
  predicate Activates(users: Users, step: Step, u: Id) {
    && step.Account? && step.account.DoSetActive? && step.account.target == u && step.account.active
    && step.account.superuser && CurrentUser(users, step.account.admin)
  }

  // ── One request ───────────────────────────────────────────────────

  /** Whatever token such a caller still holds, the request changes nothing. */
  lemma InactiveCallerChangesNothing(cfg: Config, w: World, step: Step)
    requires Caller(step).Some? && !CurrentUser(w.db.users, Caller(step).value)
    ensures Next(cfg, w, step) == w
  {
  }

  lemma OwnRowStaysInactive(cfg: Config, s: AccountState, step: AccountStep, u: Id)
    requires OnOwnRow(step) && Inactive(s.users, u)
    ensures Inactive(AccountRequest(cfg, s, step).0.users, u)
  {
    OwnRowSettles(cfg, s, step);
  }

  lemma NewcomerStaysInactive(cfg: Config, s: AccountState, step: AccountStep, u: Id)
    requires (step.DoRegister? || step.DoOAuth?) && Inactive(s.users, u)
    ensures Inactive(AccountRequest(cfg, s, step).0.users, u)
  {
  }

  lemma OneRowStaysInactive(cfg: Config, s: AccountState, step: AccountStep, u: Id)
    requires (step.DoVerifyEmail? || step.DoRequestReset? || step.DoReset?) && Inactive(s.users, u)
    ensures Inactive(AccountRequest(cfg, s, step).0.users, u)
  {
  }

  lemma AccountActivates(cfg: Config, s: AccountState, step: AccountStep, u: Id)
    requires Inactive(s.users, u)
    ensures Inactive(AccountRequest(cfg, s, step).0.users, u) <==> !Activates(s.users, Account(step), u)
  {
    if OnOwnRow(step) {
      OwnRowStaysInactive(cfg, s, step, u);
    } else if OnTokensOnly(step) {
      OthersKeepUsers(cfg, s, step);
    } else if step.DoRegister? || step.DoOAuth? {
      NewcomerStaysInactive(cfg, s, step, u);
    } else if !step.DoSetActive? {
      OneRowStaysInactive(cfg, s, step, u);
    }
  }

  /** A deactivated account becomes active again by exactly these requests. */
  lemma ActivatedExactly(cfg: Config, w: World, step: Step, u: Id)
    requires Inactive(w.db.users, u)
    ensures u in Next(cfg, w, step).db.users
    ensures CurrentUser(Next(cfg, w, step).db.users, u) <==> Activates(w.db.users, step, u)
  {
    match step
    case Account(s) => AccountActivates(cfg, w.Accounts(), s, u);
    case Org(s) => OrgRequestFrame(w.db, s);
    case Bill(s) => BillingRequestFrame(cfg, w.db, s);
  }

  // ── Whole runs ────────────────────────────────────────────────────

  ghost predicate InactiveAt(cfg: Config, steps: seq<Step>, m: nat, u: Id)
    requires m <= |steps|
  {
    Inactive(At(cfg, steps, m).db.users, u)
  }

  /** At step `m` an administrator activates the account, which is deactivated. */
  ghost predicate ActivatedAt(cfg: Config, steps: seq<Step>, m: nat, u: Id) {
    m < |steps| && InactiveAt(cfg, steps, m, u) && !InactiveAt(cfg, steps, m + 1, u)
    && Activates(At(cfg, steps, m).db.users, steps[m], u)
  }

  lemma ReactivationStep(cfg: Config, steps: seq<Step>, m: nat, u: Id)
    requires m < |steps| && InactiveAt(cfg, steps, m, u) && !InactiveAt(cfg, steps, m + 1, u)
    ensures ActivatedAt(cfg, steps, m, u)
  {
    AtNext(cfg, steps, m);
    ActivatedExactly(cfg, At(cfg, steps, m), steps[m], u);
  }

  ghost predicate ActivatedBetween(cfg: Config, steps: seq<Step>, j: nat, k: nat, u: Id) {
    exists m: nat :: j <= m < k && ActivatedAt(cfg, steps, m, u)
  }

  /** An account deactivated at one point of a run and not so at a later one has been
      activated by an administrator in between. */
  lemma OnlyAdministratorsReactivate(cfg: Config, steps: seq<Step>, j: nat, k: nat, u: Id)
    requires j < k <= |steps|
    requires InactiveAt(cfg, steps, j, u) && !InactiveAt(cfg, steps, k, u)
    ensures ActivatedBetween(cfg, steps, j, k, u)
  {
    var flags := seq(|steps| + 1, m requires 0 <= m <= |steps| => InactiveAt(cfg, steps, m, u));
    var m := TurningPoint(flags, j, k);
    ReactivationStep(cfg, steps, m, u);
  }

  /** The run without the requests this account makes. */
  function Without(steps: seq<Step>, u: Id): seq<Step> {
    if steps == [] then []
    else
      var init, last := steps[..|steps| - 1], steps[|steps| - 1];
      Without(init, u) + if Caller(last) == Some(u) then [] else [last]
  }

  lemma WithoutLast(cfg: Config, w: World, init: seq<Step>, last: Step, u: Id)
    ensures Run(cfg, w, Without(init + [last], u)) ==
            if Caller(last) == Some(u) then Run(cfg, w, Without(init, u))
            else Next(cfg, Run(cfg, w, Without(init, u)), last)
  {
    assert (init + [last])[..|init|] == init;
    var kept := Without(init, u);
    if Caller(last) == Some(u) {
      assert kept + [] == kept;
    } else {
      assert (kept + [last])[..|kept|] == kept;
    }
  }

  /** Nothing but a request of the account's own, or one that leaves it deactivated. */
  lemma InactiveStep(cfg: Config, w: World, step: Step, u: Id)
    requires Inactive(w.db.users, u) && !Activates(w.db.users, step, u)
    ensures Inactive(Next(cfg, w, step).db.users, u)
    ensures Caller(step) == Some(u) ==> Next(cfg, w, step) == w
  {
    ActivatedExactly(cfg, w, step, u);
    if Caller(step) == Some(u) {
      InactiveCallerChangesNothing(cfg, w, step);
    }
  }

  /** No step of the run activates the account. */
  ghost predicate NeverActivated(cfg: Config, w: World, steps: seq<Step>, u: Id) {
    steps == [] ||
    var init, last := steps[..|steps| - 1], steps[|steps| - 1];
    NeverActivated(cfg, w, init, u) && !Activates(Run(cfg, w, init).db.users, last, u)
  }

  /** The two runs agree so far and the account is still deactivated. */
  ghost predicate Noise(cfg: Config, w: World, steps: seq<Step>, u: Id) {
    Run(cfg, w, Without(steps, u)) == Run(cfg, w, steps) && Inactive(Run(cfg, w, steps).db.users, u)
  }

  lemma NoiseStep(cfg: Config, w: World, init: seq<Step>, last: Step, u: Id)
    requires Noise(cfg, w, init, u) && !Activates(Run(cfg, w, init).db.users, last, u)
    ensures Noise(cfg, w, init + [last], u)
  {
    WithoutLast(cfg, w, init, last, u);
    RunExtends(cfg, w, init, last);
    InactiveStep(cfg, Run(cfg, w, init), last, u);
  }

  /** Until somebody activates it again, all requests a deactivated account makes can be
      struck from the run: the store, the tokens signed and the revocation list are the
      same, and the account stays deactivated. */
  lemma {:induction false} DeactivatedRequestsAreNoise(cfg: Config, w: World, steps: seq<Step>, u: Id)
    requires Inactive(w.db.users, u) && NeverActivated(cfg, w, steps, u)
    ensures Noise(cfg, w, steps, u)
  {
    if steps == [] {
      assert Noise(cfg, w, steps, u);
    } else {
      var init, last := steps[..|steps| - 1], steps[|steps| - 1];
      assert init + [last] == steps;
      DeactivatedRequestsAreNoise(cfg, w, init, u);
      NoiseStep(cfg, w, init, last, u);
    }
  }
}
