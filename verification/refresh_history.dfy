/** When a refresh token can be exchanged, in terms of the history of a run. Earlier
    exchanges play no part: these tokens are not single-use. */
module RefreshHistory {
  import opened Schema
  import opened Text
  import opened Accounts
  import opened Tokens
  import opened Sessions
  import opened System
  import opened Scenarios

  /** The logout revokes the token: Redis is up, the token is a signed refresh token in
      time and not revoked at the moment, and it has at least a second left. */
  predicate Revokes(cfg: Config, s: AccountState, step: AccountStep, token: Jwt) {
    && step.DoLogout? && step.token == token && step.redisUp
    && token in s.issued && token.kind == RefreshToken
    && step.now < token.exp as real + cfg.leeway && step.now.Floor < token.exp
    && (token in s.redis ==> s.redis[token] <= step.now)
  }

  /** The whole seconds left of the token, from the instant of the logout on. */
  function EndOf(token: Jwt, now: Time): Time {
    now + (token.exp - now.Floor) as real
  }

  /** Until when the last logout that revoked the token does so. */
  ghost function RevokedUntil(cfg: Config, steps: seq<Step>, token: Jwt): Option<Time> {
    if steps == [] then None
    else
      var init, last := steps[..|steps| - 1], steps[|steps| - 1];
      if last.Account? && Revokes(cfg, Run(cfg, EMPTY, init).Accounts(), last.account, token)
      then Some(EndOf(token, last.account.now))
      else RevokedUntil(cfg, init, token)
  }

  function EntryOf(redis: map<Jwt, Time>, token: Jwt): Option<Time> {
    if token in redis then Some(redis[token]) else None
  }

  lemma RequestWritesEntry(cfg: Config, s: AccountState, step: AccountStep, token: Jwt)
    ensures EntryOf(AccountRequest(cfg, s, step).0.redis, token) ==
            if Revokes(cfg, s, step, token) then Some(EndOf(token, step.now))
            else EntryOf(s.redis, token)
  {
  }

  /** The revocation list of every run is the one its logouts call for. */
  lemma {:induction false} EntriesMatchHistory(cfg: Config, steps: seq<Step>, token: Jwt)
    ensures EntryOf(Run(cfg, EMPTY, steps).redis, token) == RevokedUntil(cfg, steps, token)
  {
    if steps != [] {
      var init, last := steps[..|steps| - 1], steps[|steps| - 1];
      EntriesMatchHistory(cfg, init, token);
      if last.Account? {
        RequestWritesEntry(cfg, Run(cfg, EMPTY, init).Accounts(), last.account, token);
      }
    }
  }

  /** After a run the token is exchanged for a pair exactly when it is a refresh token
      that was signed, it has not expired, no logout of the run revokes it as far as
      Redis can be asked, and its account is active. */
  lemma RefreshExact(cfg: Config, steps: seq<Step>, token: Jwt, now: Time, redisUp: bool)
    ensures var w := Run(cfg, EMPTY, steps);
            AccountRequest(cfg, w.Accounts(), DoRefresh(token, now, redisUp)).1.Pair? <==>
            && token in w.issued && token.kind == RefreshToken && now < token.exp as real + cfg.leeway
            && (redisUp && RevokedUntil(cfg, steps, token).Some? ==> RevokedUntil(cfg, steps, token).value <= now)
            && CurrentUser(w.db.users, token.sub)
  {
    EntriesMatchHistory(cfg, steps, token);
  }

  /** Whether an exchange succeeds does not depend on an earlier exchange of the token. */
  lemma ExchangeLeavesTheNextOne(cfg: Config, w: World, token: Jwt, first: Time, firstUp: bool,
                                 second: Time, secondUp: bool)
    ensures var after := Next(cfg, w, Account(DoRefresh(token, first, firstUp)));
            AccountRequest(cfg, after.Accounts(), DoRefresh(token, second, secondUp)).1.Pair? <==>
            AccountRequest(cfg, w.Accounts(), DoRefresh(token, second, secondUp)).1.Pair?
  {
  }

  /** From the empty store: the refresh token a registration hands out is exchanged
      twice, for any person and any lifetime of a second or more. */
  lemma RefreshTokenUsedTwice(cfg: Config, p: Person)
    requires IsNormal(p.email) && cfg.refreshTtl >= 1.0 && cfg.leeway >= 0.0
    ensures var token, w := Mint(p.id, RefreshToken, 0.0, cfg.refreshTtl), Run(cfg, EMPTY, [] + [Registers(p)]);
            var exchange := DoRefresh(token, 0.0, true);
            && AccountRequest(cfg, w.Accounts(), exchange).1.Pair?
            && AccountRequest(cfg, Next(cfg, w, Account(exchange)).Accounts(), exchange).1.Pair?
  {
    var token, w := Mint(p.id, RefreshToken, 0.0, cfg.refreshTtl), Run(cfg, EMPTY, [] + [Registers(p)]);
    RunExtends(cfg, EMPTY, [], Registers(p));
    RegisterNew(map[], p);
    assert token in w.issued && token.exp >= 1;
    assert AccountRequest(cfg, w.Accounts(), DoRefresh(token, 0.0, true)).1.Pair?;
    ExchangeLeavesTheNextOne(cfg, w, token, 0.0, true, 0.0, true);
  }
}
