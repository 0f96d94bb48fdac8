/** Stored passwords and reset tokens match the history of requests. */
module Credentials {
  import opened Schema
  import opened Text
  import opened Accounts
  import opened Sessions
  import opened System
  import opened Integrity
  import opened Reachable
  import opened AccountGuards

  // ── What one request writes ───────────────────────────────────────

  /** The password this request gives the account, if it succeeds in giving one. */
  ghost function PasswordWritten(users: Users, step: AccountStep, u: Id): Option<string> {
    match step
    case DoRegister(email, password, user, _, _) => if Registers(users, email, user, u) then Some(password) else None
    case DoReset(rawToken, newPassword) => if OnlyHoldsReset(users, rawToken, u) then Some(newPassword) else None
    case DoChangePassword(user, current, newPassword) =>
      if user == u && IsActive(users, u) && HasPassword(users, u, current) then Some(newPassword) else None
    case _ => None
  }

  /** A reset request for the account that is committed: its mail went out. */
  predicate RequestsReset(users: Users, step: AccountStep, u: Id) {
    step.DoRequestReset? && step.mailSent && HoldsAddress(users, step.email, u)
  }

  ghost predicate CompletesReset(users: Users, step: AccountStep, u: Id) {
    step.DoReset? && OnlyHoldsReset(users, step.rawToken, u)
  }

  // ── The history read backwards ────────────────────────────────────

  ghost function LastPassword(cfg: Config, steps: seq<Step>, u: Id): Option<string> {
    if steps == [] then None
    else
      var init, last := steps[..|steps| - 1], steps[|steps| - 1];
      var users := Run(cfg, EMPTY, init).db.users;
      if last.Account? && PasswordWritten(users, last.account, u).Some?
      then PasswordWritten(users, last.account, u)
      else LastPassword(cfg, init, u)
  }

  /** The token of the latest committed reset request, until it is used. */
  ghost function LiveReset(cfg: Config, steps: seq<Step>, u: Id): Option<string> {
    if steps == [] then None
    else
      var init, last := steps[..|steps| - 1], steps[|steps| - 1];
      var users := Run(cfg, EMPTY, init).db.users;
      if last.Account? && RequestsReset(users, last.account, u) then Some(last.account.rawToken)
      else if last.Account? && CompletesReset(users, last.account, u) then None
      else LiveReset(cfg, init, u)
  }

  // ── One request ───────────────────────────────────────────────────

  function PasswordOf(users: Users, u: Id): Option<PasswordHash> {
    if u in users then users[u].password else None
  }

  function ResetOf(users: Users, u: Id): Option<TokenHash> {
    if u in users then users[u].resetToken else None
  }

  function Hashed(password: Option<string>): Option<PasswordHash> {
    if password.Some? then Some(PasswordHash(password.value)) else None
  }

  function HashedToken(token: Option<string>): Option<TokenHash> {
    if token.Some? then Some(TokenHash(token.value)) else None
  }

  /** Between two user tables exactly the step's writes to the account's password and
      reset token are made. */
  ghost predicate CredentialWrites(users: Users, step: AccountStep, after: Users, u: Id) {
    && PasswordOf(after, u) == (if PasswordWritten(users, step, u).Some? then Hashed(PasswordWritten(users, step, u))
                                else PasswordOf(users, u))
    && ResetOf(after, u) == (if RequestsReset(users, step, u) then Some(TokenHash(step.rawToken))
                             else if CompletesReset(users, step, u) then None else ResetOf(users, u))
  }

  lemma OwnRowWrites(cfg: Config, s: AccountState, step: AccountStep, u: Id)
    requires OnOwnRow(step)
    ensures CredentialWrites(s.users, step, AccountRequest(cfg, s, step).0.users, u)
  {
    OwnRowSettles(cfg, s, step);
    if step.DoChangePassword? && CurrentUser(s.users, step.user) {
      ChangePasswordExactly(s.users, step.user, step.current, step.newPassword);
    }
  }

  lemma OAuthWrites(cfg: Config, s: AccountState, step: AccountStep, u: Id)
    requires step.DoOAuth?
    ensures CredentialWrites(s.users, step, AccountRequest(cfg, s, step).0.users, u)
  {
  }

  lemma ResetWrites(cfg: Config, s: AccountState, step: AccountStep, u: Id)
    requires step.DoReset?
    ensures CredentialWrites(s.users, step, AccountRequest(cfg, s, step).0.users, u)
  {
    ResetExactly(s.users, step.rawToken, step.newPassword, u);
  }

  lemma RequestResetWrites(cfg: Config, s: AccountState, step: AccountStep, u: Id)
    requires EmailsUnique(s.users) && step.DoRequestReset?
    ensures CredentialWrites(s.users, step, AccountRequest(cfg, s, step).0.users, u)
  {
    AddressLookup(s.users, step.email, u);
  }

  lemma RegisterWrites(cfg: Config, s: AccountState, step: AccountStep, u: Id)
    requires UsersOk(s.users) && step.DoRegister?
    ensures CredentialWrites(s.users, step, AccountRequest(cfg, s, step).0.users, u)
  {
    RegisterExactly(s.users, step.email, step.password, step.user, step.rawToken, u);
  }

  lemma OtherWrites(cfg: Config, s: AccountState, step: AccountStep, u: Id)
    requires step.DoVerifyEmail? || step.DoSetActive?
    ensures CredentialWrites(s.users, step, AccountRequest(cfg, s, step).0.users, u)
  {
  }

  lemma RequestWrites(cfg: Config, s: AccountState, step: AccountStep, u: Id)
    requires UsersOk(s.users)
    ensures CredentialWrites(s.users, step, AccountRequest(cfg, s, step).0.users, u)
  {
    if OnOwnRow(step) {
      OwnRowWrites(cfg, s, step, u);
    } else if OnTokensOnly(step) {
      OthersKeepUsers(cfg, s, step);
    } else {
      match step
      case DoRegister(_, _, _, _, _) => RegisterWrites(cfg, s, step, u);
      case DoRequestReset(_, _, _) => RequestResetWrites(cfg, s, step, u);
      case DoReset(_, _) => ResetWrites(cfg, s, step, u);
      case DoOAuth(_, _, _, _, _) => OAuthWrites(cfg, s, step, u);
      case _ => OtherWrites(cfg, s, step, u);
    }
  }

  // ── Whole runs ────────────────────────────────────────────────────

  /** At every point of every run the stored password of an account is the one most
      recently written by a registration, a reset or a change, and its stored reset
      token that of the latest committed request not used since. */
  lemma {:induction false} CredentialsMatchHistory(cfg: Config, steps: seq<Step>, u: Id)
    ensures var users := Run(cfg, EMPTY, steps).db.users;
            && PasswordOf(users, u) == Hashed(LastPassword(cfg, steps, u))
            && ResetOf(users, u) == HashedToken(LiveReset(cfg, steps, u))
  {
    if steps != [] {
      var init, last := steps[..|steps| - 1], steps[|steps| - 1];
      var w := Run(cfg, EMPTY, init);
      CredentialsMatchHistory(cfg, init, u);
      ReachableStoreOk(cfg, init);
      match last
      case Account(s) => RequestWrites(cfg, w.Accounts(), s, u);
      case Org(s) => OrgRequestFrame(w.db, s);
      case Bill(s) => BillingRequestFrame(cfg, w.db, s);
    }
  }

  /** Login lets exactly this account in: its address, active, and the password most
      recently written. */
  lemma LoginAcceptsLastPassword(cfg: Config, steps: seq<Step>, email: string, password: string, u: Id)
    ensures var users := Run(cfg, EMPTY, steps).db.users;
            Login(users, email, password) == Ok(u) <==>
            u in users && users[u].email == Normalize(email) && users[u].isActive
            && LastPassword(cfg, steps, u) == Some(password)
  {
    var users := Run(cfg, EMPTY, steps).db.users;
    CredentialsMatchHistory(cfg, steps, u);
    ReachableStoreOk(cfg, steps);
    LoginExactly(users, email, password, u);
  }

  /** The token is live for this account and for no other. */
  ghost predicate OnlyLive(cfg: Config, steps: seq<Step>, rawToken: string, u: Id) {
    forall v :: LiveReset(cfg, steps, v) == Some(rawToken) <==> v == u
  }

  lemma LiveMeansStored(cfg: Config, steps: seq<Step>, rawToken: string, u: Id)
    ensures HoldsReset(Run(cfg, EMPTY, steps).db.users, rawToken, u) <==> LiveReset(cfg, steps, u) == Some(rawToken)
  {
    CredentialsMatchHistory(cfg, steps, u);
  }

  lemma OnlyLiveIsOnlyStored(cfg: Config, steps: seq<Step>, rawToken: string, u: Id)
    ensures OnlyHoldsReset(Run(cfg, EMPTY, steps).db.users, rawToken, u) <==> OnlyLive(cfg, steps, rawToken, u)
  {
    var users := Run(cfg, EMPTY, steps).db.users;
    forall v ensures HoldsReset(users, rawToken, v) <==> LiveReset(cfg, steps, v) == Some(rawToken) {
      LiveMeansStored(cfg, steps, rawToken, v);
    }
  }

  /** A reset with a token succeeds for an account exactly when the token is live for
      it and for no other. */
  lemma ResetExact(cfg: Config, steps: seq<Step>, rawToken: string, newPassword: string, u: Id)
    ensures ResetPassword(Run(cfg, EMPTY, steps).db.users, rawToken, newPassword).outcome == Ok(u) <==>
            OnlyLive(cfg, steps, rawToken, u)
  {
    ResetExactly(Run(cfg, EMPTY, steps).db.users, rawToken, newPassword, u);
    OnlyLiveIsOnlyStored(cfg, steps, rawToken, u);
  }

  // ── Tokens drawn at random are drawn once ─────────────────────────

  predicate IsResetRequest(step: Step, rawToken: string) {
    step.Account? && step.account.DoRequestReset? && step.account.rawToken == rawToken
  }

  ghost predicate DistinctResetTokens(steps: seq<Step>) {
    forall j, k, t :: 0 <= j < |steps| && 0 <= k < |steps| && IsResetRequest(steps[j], t) && IsResetRequest(steps[k], t)
                      ==> j == k
  }

  ghost predicate UnusedAt(cfg: Config, steps: seq<Step>, m: nat, u: Id)
    requires m < |steps|
  {
    steps[m].Account? ==> !CompletesReset(At(cfg, steps, m).db.users, steps[m].account, u)
  }

  ghost predicate UnusedBetween(cfg: Config, steps: seq<Step>, r: nat, n: nat, u: Id)
    requires n <= |steps|
  {
    forall m :: r < m < n ==> UnusedAt(cfg, steps, m, u)
  }

  lemma UnusedOneMore(cfg: Config, steps: seq<Step>, r: nat, n: nat, u: Id)
    requires 0 < n <= |steps| && UnusedBetween(cfg, steps, r, n - 1, u) && UnusedAt(cfg, steps, n - 1, u)
    ensures UnusedBetween(cfg, steps, r, n, u)
  {
    forall m | r < m < n ensures UnusedAt(cfg, steps, m, u) {
      assert m < n - 1 || m == n - 1;
    }
  }

  /** The request at step `r` issued this token to the account, and no reset of the
      account has succeeded since. */
  ghost predicate IssuedAt(cfg: Config, steps: seq<Step>, n: nat, r: nat, u: Id, rawToken: string)
    requires n <= |steps|
  {
    && r < n && IsResetRequest(steps[r], rawToken)
    && RequestsReset(At(cfg, steps, r).db.users, steps[r].account, u)
    && UnusedBetween(cfg, steps, r, n, u)
  }

  lemma LiveStep(cfg: Config, steps: seq<Step>, n: nat, u: Id, rawToken: string)
    requires 0 < n <= |steps| && LiveReset(cfg, steps[..n], u) == Some(rawToken)
    ensures var users, last := At(cfg, steps, n - 1).db.users, steps[n - 1];
            || (last.Account? && RequestsReset(users, last.account, u) && last.account.rawToken == rawToken)
            || (LiveReset(cfg, steps[..n - 1], u) == Some(rawToken) && UnusedAt(cfg, steps, n - 1, u))
  {
    assert steps[..n][..n - 1] == steps[..n - 1];
  }

  lemma StillIssued(cfg: Config, steps: seq<Step>, n: nat, r: nat, u: Id, rawToken: string)
    requires 0 < n <= |steps| && IssuedAt(cfg, steps, n - 1, r, u, rawToken)
    requires UnusedAt(cfg, steps, n - 1, u)
    ensures IssuedAt(cfg, steps, n, r, u, rawToken)
  {
    UnusedOneMore(cfg, steps, r, n, u);
  }

  lemma {:induction false} LiveTokenWasIssued(cfg: Config, steps: seq<Step>, n: nat, u: Id, rawToken: string)
    requires n <= |steps| && LiveReset(cfg, steps[..n], u) == Some(rawToken)
    ensures exists r: nat :: IssuedAt(cfg, steps, n, r, u, rawToken)
  {
    assert steps[..0] == [];
    if n > 0 {
      LiveStep(cfg, steps, n, u, rawToken);
      if !IssuedAt(cfg, steps, n, n - 1, u, rawToken) {
        LiveTokenWasIssued(cfg, steps, n - 1, u, rawToken);
        var r: nat :| IssuedAt(cfg, steps, n - 1, r, u, rawToken);
        StillIssued(cfg, steps, n, r, u, rawToken);
      }
    }
  }

  lemma LiveTokenHasOneOwner(cfg: Config, steps: seq<Step>, n: nat, u: Id, v: Id, rawToken: string)
    requires n <= |steps| && DistinctResetTokens(steps)
    requires LiveReset(cfg, steps[..n], u) == Some(rawToken) && LiveReset(cfg, steps[..n], v) == Some(rawToken)
    ensures u == v
  {
    LiveTokenWasIssued(cfg, steps, n, u, rawToken);
    LiveTokenWasIssued(cfg, steps, n, v, rawToken);
    var q: nat :| IssuedAt(cfg, steps, n, q, u, rawToken);
    var r: nat :| IssuedAt(cfg, steps, n, r, v, rawToken);
    assert q == r;
    ReachableStoreOk(cfg, steps[..r]);
  }

  /** With tokens that do not repeat, a reset succeeds at a point of a run exactly
      when its token came from the latest committed request of some account and has
      not been used, and then for that account. */
  lemma ResetMatchesHistory(cfg: Config, steps: seq<Step>, n: nat, rawToken: string, newPassword: string)
    requires n <= |steps| && DistinctResetTokens(steps)
    ensures var outcome := ResetPassword(At(cfg, steps, n).db.users, rawToken, newPassword).outcome;
            && (outcome.Ok? <==> exists u :: LiveReset(cfg, steps[..n], u) == Some(rawToken))
            && (outcome.Ok? ==> LiveReset(cfg, steps[..n], outcome.value) == Some(rawToken))
  {
    var outcome := ResetPassword(At(cfg, steps, n).db.users, rawToken, newPassword).outcome;
    if outcome.Ok? {
      ResetExact(cfg, steps[..n], rawToken, newPassword, outcome.value);
      assert LiveReset(cfg, steps[..n], outcome.value) == Some(rawToken);
    }
    if u :| LiveReset(cfg, steps[..n], u) == Some(rawToken) {
      forall v | LiveReset(cfg, steps[..n], v) == Some(rawToken) ensures v == u {
        LiveTokenHasOneOwner(cfg, steps, n, u, v, rawToken);
      }
      ResetExact(cfg, steps[..n], rawToken, newPassword, u);
    }
  }

  /** A reset token works at most once. */
  lemma ResetTokenUsedOnce(cfg: Config, steps: seq<Step>, k: nat, n: nat, u: Id, newPassword: string)
    requires DistinctResetTokens(steps) && k < n <= |steps|
    requires steps[k].Account? && CompletesReset(At(cfg, steps, k).db.users, steps[k].account, u)
    ensures ResetPassword(At(cfg, steps, n).db.users, steps[k].account.rawToken, newPassword).outcome.Err?
  {
    var t := steps[k].account.rawToken;
    assert !UnusedAt(cfg, steps, k, u);
    LiveMeansStored(cfg, steps[..k], t, u);
    LiveTokenWasIssued(cfg, steps, k, u, t);
    var q: nat :| IssuedAt(cfg, steps, k, q, u, t);
    ResetMatchesHistory(cfg, steps, n, t, newPassword);
    forall v | LiveReset(cfg, steps[..n], v) == Some(t) ensures false {
      LiveTokenWasIssued(cfg, steps, n, v, t);
      var r: nat :| IssuedAt(cfg, steps, n, r, v, t);
      assert r == q;
      ReachableStoreOk(cfg, steps[..r]);
    }
  }
}
