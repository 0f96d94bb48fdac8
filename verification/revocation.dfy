/** A refresh token that has been logged out stays out, over every later run. */
module Revocation {
  import opened Schema
  import opened Tokens
  import opened Sessions
  import opened System

  /** The token has an entry that lasts until the decoder itself rejects the token. */
  predicate Outlasts(cfg: Config, redis: map<Jwt, Time>, token: Jwt) {
    token in redis && token.exp as real + cfg.leeway <= redis[token]
  }

  /** No request removes an entry, and one that outlasts its token is never rewritten:
      a second logout is refused while the entry is visible and by the decoder after. */
  lemma RequestsKeepEntries(cfg: Config, s: AccountState, step: AccountStep, token: Jwt)
    requires token in s.redis
    ensures var after := AccountRequest(cfg, s, step).0.redis;
            token in after && (Outlasts(cfg, s.redis, token) ==> after[token] == s.redis[token])
  {
  }

  lemma {:induction false} RunKeepsEntry(cfg: Config, w: World, steps: seq<Step>, token: Jwt)
    requires Outlasts(cfg, w.redis, token)
    ensures Outlasts(cfg, Run(cfg, w, steps).redis, token)
  {
    if steps != [] {
      var init, last := steps[..|steps| - 1], steps[|steps| - 1];
      RunKeepsEntry(cfg, w, init, token);
      if last.Account? {
        RequestsKeepEntries(cfg, Run(cfg, w, init).Accounts(), last.account, token);
      }
    }
  }

  /** In this state, at this instant, the token no longer refreshes. */
  predicate Rejected(cfg: Config, w: World, token: Jwt, later: Time) {
    && VerifyRefresh(cfg, w.issued, w.redis, token, later, true).Err?
    && AccountRequest(cfg, w.Accounts(), DoRefresh(token, later, true)).1.Failed?
  }

  lemma OutlastingIsRejected(cfg: Config, w: World, token: Jwt, later: Time)
    requires Outlasts(cfg, w.redis, token)
    ensures Rejected(cfg, w, token, later)
  {
  }

  /** The token is rejected after whatever requests follow and at every instant. */
  ghost predicate RejectedForever(cfg: Config, w: World, token: Jwt, now: Time) {
    forall after, later :: later >= now ==> Rejected(cfg, Run(cfg, w, after), token, later)
  }

  /** A logout that meets a valid refresh token, Redis being reachable, keeps the token
      out over every later run and at every later instant exactly when the decoder's
      leeway is no longer than the part of a second the logout happened into; without
      leeway, always. */
  lemma LoggedOutForever(cfg: Config, before: seq<Step>, token: Jwt, now: Time)
    requires cfg.leeway >= 0.0
    requires var w := Run(cfg, EMPTY, before); VerifyRefresh(cfg, w.issued, w.redis, token, now, true).Ok?
    ensures var w := Next(cfg, Run(cfg, EMPTY, before), Account(DoLogout(token, now, true)));
            RejectedForever(cfg, w, token, now) <==> cfg.leeway <= now - now.Floor as real
  {
    var s := Run(cfg, EMPTY, before);
    var w := Next(cfg, s, Account(DoLogout(token, now, true)));
    RevocationExact(cfg, s.issued, s.redis, token, now);
    if cfg.leeway <= now - now.Floor as real {
      assert Outlasts(cfg, w.redis, token);
      forall after, later | later >= now ensures Rejected(cfg, Run(cfg, w, after), token, later) {
        RunKeepsEntry(cfg, w, after, token);
        OutlastingIsRejected(cfg, Run(cfg, w, after), token, later);
      }
    } else {
      var later: Time :| later >= now && VerifyRefresh(cfg, s.issued, w.redis, token, later, true).Ok?;
      assert Run(cfg, w, []) == w;
      assert !Rejected(cfg, Run(cfg, w, []), token, later);
    }
  }
}
