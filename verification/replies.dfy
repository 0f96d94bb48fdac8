/** What the account endpoints answer, in terms of the rows, the signed tokens and the
    revocation list, and what the tokens they hand out look like. */
module Replies {
  import opened Schema
  import opened Accounts
  import opened Sessions
  import opened Integrity
  import opened AccountGuards
  import opened AccountHistory
  import opened Issuance

  // ── Token pairs ───────────────────────────────────────────────────

  /** An exchange of a refresh token of this account: signed, in time, not revoked as far
      as Redis can be asked, and the account active. */
  predicate ExchangesFor(cfg: Config, s: AccountState, step: AccountStep, u: Id) {
    && Exchanges(s, step, u) && IsActive(s.users, u)
    && step.now < step.token.exp as real + cfg.leeway
    && !(step.redisUp && step.token in s.redis && step.now < s.redis[step.token])
  }

  lemma NewcomerPair(cfg: Config, s: AccountState, step: AccountStep, u: Id)
    requires UsersOk(s.users) && (step.DoRegister? || step.DoOAuth?)
    ensures HandsOutPair(AccountRequest(cfg, s, step).1, u) <==> Authenticates(cfg, s, step, u)
  {
    if step.DoRegister? {
      RegisterExactly(s.users, step.email, step.password, step.user, step.rawToken, u);
    } else {
      OAuthExactly(s.users, step.provider, step.providerId, step.email, step.user, u);
    }
  }

  lemma LoginPair(cfg: Config, s: AccountState, step: AccountStep, u: Id)
    requires UsersOk(s.users) && step.DoLogin?
    ensures HandsOutPair(AccountRequest(cfg, s, step).1, u) <==> Authenticates(cfg, s, step, u)
  {
    LoginExactly(s.users, step.email, step.password, u);
  }

  lemma TokenPairs(cfg: Config, s: AccountState, step: AccountStep, u: Id)
    requires step.DoRefresh? || step.DoValidateMfa?
    ensures HandsOutPair(AccountRequest(cfg, s, step).1, u) <==>
            Authenticates(cfg, s, step, u) || ExchangesFor(cfg, s, step, u)
  {
  }

  /** A request hands out a token pair for an account exactly when it authenticates the
      account or exchanges a good refresh token of it. */
  lemma PairExactly(cfg: Config, s: AccountState, step: AccountStep, u: Id)
    requires UsersOk(s.users)
    ensures HandsOutPair(AccountRequest(cfg, s, step).1, u) <==>
            Authenticates(cfg, s, step, u) || ExchangesFor(cfg, s, step, u)
  {
    if step.DoRegister? || step.DoOAuth? {
      NewcomerPair(cfg, s, step, u);
    } else if step.DoLogin? {
      LoginPair(cfg, s, step, u);
    } else if step.DoRefresh? || step.DoValidateMfa? {
      TokenPairs(cfg, s, step, u);
    }
  }

  /** A pending token is handed out exactly for a right password under MFA. */
  lemma PendingExactly(cfg: Config, s: AccountState, step: AccountStep, u: Id)
    requires UsersOk(s.users)
    ensures var reply := AccountRequest(cfg, s, step).1;
            reply.MfaPending? && reply.token.sub == u <==>
            step.DoLogin? && LogsIn(s.users, step.email, step.password, u) && s.users[u].mfaEnabled
  {
    if step.DoLogin? { LoginExactly(s.users, step.email, step.password, u); }
  }

  /** When the request runs, where it matters for tokens. */
  function Instant(step: AccountStep): Option<Time> {
    match step
    case DoRegister(_, _, _, _, now) => Some(now)
    case DoLogin(_, _, now) => Some(now)
    case DoRefresh(_, now, _) => Some(now)
    case DoOAuth(_, _, _, _, now) => Some(now)
    case DoValidateMfa(_, _, now) => Some(now)
    case _ => None
  }

  /** Tokens come with their subject, their kind, the whole second they were made in and
      the whole second their lifetime runs out in; and just these are signed. */
  lemma TokensHandedOut(cfg: Config, s: AccountState, step: AccountStep)
    ensures var (after, reply) := AccountRequest(cfg, s, step);
            match reply
            case Pair(access, refresh) =>
              && Instant(step).Some? && access.sub == refresh.sub
              && var now := Instant(step).value;
                 && access == Jwt(access.sub, AccessToken, now.Floor, (now + cfg.accessTtl).Floor)
                 && refresh == Jwt(access.sub, RefreshToken, now.Floor, (now + cfg.refreshTtl).Floor)
                 && after.issued == s.issued + {access, refresh}
            case MfaPending(token) =>
              && Instant(step).Some?
              && var now := Instant(step).value;
                 && token == Jwt(token.sub, MfaPendingToken, now.Floor, (now + 300.0).Floor)
                 && after.issued == s.issued + {token}
            case _ => after.issued == s.issued
  {
  }

  // ── Success and failure without tokens ────────────────────────────

  ghost predicate Completes(cfg: Config, users: Users, step: AccountStep) {
    match step
    case DoLogout(_, _, _) => true
    case DoVerifyEmail(rawToken, mailSent) => mailSent && exists u :: OnlyHoldsVerification(users, rawToken, u)
    case DoRequestReset(email, _, mailSent) => AddressFree(users, email) || mailSent
    case DoReset(rawToken, _) => exists u :: OnlyHoldsReset(users, rawToken, u)
    case DoChangePassword(user, current, _) => IsActive(users, user) && HasPassword(users, user, current)
    case DoDeleteAccount(user) => IsActive(users, user)
    case DoSetActive(admin, superuser, target, _) => IsActive(users, admin) && superuser && target in users
    case DoSetupMfa(user, _) => SetsUp(users, step, user)
    case DoVerifyMfa(user, _, _) => Confirms(cfg, users, step, user)
    case DoDisableMfa(user, _, _) => Disables(cfg, users, step, user)
    case _ => false
  }

  lemma OwnRowCompletes(cfg: Config, s: AccountState, step: AccountStep)
    requires OnOwnRow(step)
    ensures AccountRequest(cfg, s, step).1.Done? <==> Completes(cfg, s.users, step)
  {
    if step.DoChangePassword? && CurrentUser(s.users, step.user) {
      ChangePasswordExactly(s.users, step.user, step.current, step.newPassword);
    }
  }

  lemma TokenCompletes(cfg: Config, s: AccountState, step: AccountStep)
    requires step.DoVerifyEmail? || step.DoReset?
    ensures AccountRequest(cfg, s, step).1.Done? <==> Completes(cfg, s.users, step)
  {
    if step.DoVerifyEmail? {
      var outcome := VerifyEmail(s.users, step.rawToken, step.mailSent).outcome;
      forall u ensures outcome == Ok(u) <==> step.mailSent && OnlyHoldsVerification(s.users, step.rawToken, u) {
        VerifyEmailExactly(s.users, step.rawToken, step.mailSent, u);
      }
      assert outcome.Ok? ==> outcome == Ok(outcome.value);
    } else {
      var outcome := ResetPassword(s.users, step.rawToken, step.newPassword).outcome;
      forall u ensures outcome == Ok(u) <==> OnlyHoldsReset(s.users, step.rawToken, u) {
        ResetExactly(s.users, step.rawToken, step.newPassword, u);
      }
      assert outcome.Ok? ==> outcome == Ok(outcome.value);
    }
  }

  lemma FlagCompletes(cfg: Config, s: AccountState, step: AccountStep)
    requires UsersOk(s.users) && (step.DoRequestReset? || step.DoSetActive?)
    ensures AccountRequest(cfg, s, step).1.Done? <==> Completes(cfg, s.users, step)
  {
    if step.DoRequestReset? { AddressLookup(s.users, step.email, ""); }
  }

  /** A request that hands out nothing succeeds exactly under these conditions. */
  lemma DoneExactly(cfg: Config, s: AccountState, step: AccountStep)
    requires UsersOk(s.users)
    ensures AccountRequest(cfg, s, step).1.Done? <==> Completes(cfg, s.users, step)
  {
    if OnOwnRow(step) {
      OwnRowCompletes(cfg, s, step);
    } else if step.DoVerifyEmail? || step.DoReset? {
      TokenCompletes(cfg, s, step);
    } else if step.DoRequestReset? || step.DoSetActive? {
      FlagCompletes(cfg, s, step);
    }
  }

  lemma ConflictExactly(cfg: Config, s: AccountState, step: AccountStep)
    requires UsersOk(s.users)
    ensures AccountRequest(cfg, s, step).1 == Failed(Conflict) <==>
            step.DoRegister? && !AddressFree(s.users, step.email)
  {
    match step
    case DoRegister(email, password, user, rawToken, _) =>
      RegisterExactly(s.users, email, password, user, rawToken, "");
    case DoLogin(email, password, _) => LoginExactly(s.users, email, password, "");
    case DoOAuth(provider, providerId, email, user, _) => OAuthErrors(s.users, provider, providerId, email, user);
    case DoRequestReset(email, _, _) => AddressLookup(s.users, email, "");
    case _ =>
  }

  lemma AdminFailures(cfg: Config, s: AccountState, step: AccountStep)
    requires UsersOk(s.users) && step.DoSetActive?
    ensures var reply := AccountRequest(cfg, s, step).1;
            && (reply == Failed(Unauthorized) <==> !IsActive(s.users, step.admin))
            && (reply == Failed(Forbidden) <==> IsActive(s.users, step.admin) && !step.superuser)
            && (reply == Failed(NotFound) <==>
                IsActive(s.users, step.admin) && step.superuser && step.target !in s.users)
  {
  }

  /** Why a request fails: an address that is held, for registration; no active account,
      no superuser flag or no such account, for the admin requests; a wrong or inactive
      login, a token that does not exchange, and a code that does not fit a factor that
      is to be disabled, which are the caller's credentials. */
  lemma FailuresExactly(cfg: Config, s: AccountState, step: AccountStep)
    requires UsersOk(s.users)
    ensures var reply := AccountRequest(cfg, s, step).1;
            && (reply == Failed(Conflict) <==> step.DoRegister? && !AddressFree(s.users, step.email))
            && (step.DoSetActive? ==>
                  && (reply == Failed(Unauthorized) <==> !IsActive(s.users, step.admin))
                  && (reply == Failed(Forbidden) <==> IsActive(s.users, step.admin) && !step.superuser)
                  && (reply == Failed(NotFound) <==>
                      IsActive(s.users, step.admin) && step.superuser && step.target !in s.users))
            && ((step.DoLogin? || step.DoRefresh?) && reply.Failed? ==> reply == Failed(Unauthorized))
            && (step.DoDisableMfa? && IsActive(s.users, step.user) && s.users[step.user].mfaEnabled && reply.Failed? ==>
                  reply == Failed(Unauthorized))
  {
    ConflictExactly(cfg, s, step);
    match step
    case DoSetActive(_, _, _, _) => AdminFailures(cfg, s, step);
    case DoLogin(email, password, _) => LoginExactly(s.users, email, password, "");
    case _ =>
  }

  /** Requests on the own row fail for lack of an active account, of the password stored,
      or of a code of the factor to be disabled, and otherwise because the factor is not in
      the state that they need or the code is wrong. */
  lemma OwnRowFailures(cfg: Config, s: AccountState, step: AccountStep)
    requires UsersOk(s.users) && OnOwnRow(step)
    ensures var reply, u := AccountRequest(cfg, s, step).1, step.user;
            && (reply == Failed(Unauthorized) <==>
                || !IsActive(s.users, u)
                || (step.DoChangePassword? && !HasPassword(s.users, u, step.current))
                || (step.DoDisableMfa? && s.users[u].mfaEnabled && !CodeFits(cfg, s.users, u, step.code, step.now)))
            && (reply == Failed(BadRequest) <==>
                && IsActive(s.users, u)
                && (|| (step.DoSetupMfa? && s.users[u].mfaEnabled)
                    || (step.DoVerifyMfa? && !Confirms(cfg, s.users, step, u))
                    || (step.DoDisableMfa? && !s.users[u].mfaEnabled)))
            && (reply.Done? || reply == Failed(Unauthorized) || reply == Failed(BadRequest))
  {
    if step.DoChangePassword? && IsActive(s.users, step.user) {
      ChangePasswordExactly(s.users, step.user, step.current, step.newPassword);
    }
  }

  /** A mail link that no account holds is a bad request. */
  lemma MailLinkFailures(cfg: Config, s: AccountState, step: AccountStep)
    requires step.DoVerifyEmail? || step.DoReset?
    ensures AccountRequest(cfg, s, step).1 == Failed(BadRequest) <==>
            if step.DoVerifyEmail? then forall u :: !HoldsVerification(s.users, step.rawToken, u)
            else forall u :: !HoldsReset(s.users, step.rawToken, u)
  {
    if step.DoVerifyEmail? {
      var found := WithVerificationToken(s.users, TokenHash(step.rawToken));
      assert forall u :: u in found <==> HoldsVerification(s.users, step.rawToken, u);
    } else {
      var found := WithResetToken(s.users, TokenHash(step.rawToken));
      assert forall u :: u in found <==> HoldsReset(s.users, step.rawToken, u);
    }
  }

  lemma OAuthErrors(users: Users, provider: Provider, providerId: string, email: string, user: Id)
    requires UsersOk(users)
    ensures var outcome := OAuthLogin(users, provider, providerId, email, user).outcome;
            outcome.Err? ==> outcome == Err(Integrity)
  {
    IdentityLookup(users, provider, providerId, "");
    AddressLookup(users, email, "");
  }
}
