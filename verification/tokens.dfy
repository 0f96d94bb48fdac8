/** Signed tokens and the Redis revocation list. Signing is ideal: the decoder
    accepts exactly the tokens this deployment has signed, until they expire. */
module Tokens {
  import opened Schema

  const MFA_PENDING_TTL: Time := 300.0

  /** A token for a subject; its expiry is cut to whole seconds. */
  function Mint(sub: Id, kind: TokenKind, now: Time, ttl: Time): Jwt {
    Jwt(sub, kind, now.Floor, (now + ttl).Floor)
  }

  /** Expired means: `leeway` past the expiry time, or later. */
  predicate Decodes(cfg: Config, issued: set<Jwt>, token: Jwt, now: Time) {
    token in issued && now < token.exp as real + cfg.leeway
  }

  function VerifyToken(cfg: Config, issued: set<Jwt>, token: Jwt, kind: TokenKind, now: Time): Outcome<Id> {
    if Decodes(cfg, issued, token, now) && token.kind == kind then Ok(token.sub) else Err(Unauthorized)
  }

  // ── Revocation ────────────────────────────────────────────────────

  /** A Redis key written at `t` with a time to live is visible before its end. */
  predicate Blacklisted(redis: map<Jwt, Time>, token: Jwt, now: Time, redisUp: bool) {
    redisUp && token in redis && now < redis[token]
  }

  function VerifyRefresh(cfg: Config, issued: set<Jwt>, redis: map<Jwt, Time>, token: Jwt, now: Time, redisUp: bool):
    Outcome<Id>
  {
    if Blacklisted(redis, token, now, redisUp) then Err(Unauthorized)
    else VerifyToken(cfg, issued, token, RefreshToken, now)
  }

  /** Seconds left, counted from the whole second the clock is in. */
  function TtlSeconds(token: Jwt, now: Time): nat {
    if token.exp - now.Floor > 0 then token.exp - now.Floor else 0
  }

  function Revoke(cfg: Config, issued: set<Jwt>, redis: map<Jwt, Time>, token: Jwt, now: Time, redisUp: bool):
    map<Jwt, Time>
  {
    if Decodes(cfg, issued, token, now) && TtlSeconds(token, now) > 0 && redisUp
    then redis[token := now + TtlSeconds(token, now) as real]
    else redis
  }

  function Logout(cfg: Config, issued: set<Jwt>, redis: map<Jwt, Time>, token: Jwt, now: Time, redisUp: bool):
    map<Jwt, Time>
  {
    if VerifyRefresh(cfg, issued, redis, token, now, redisUp).Ok?
    then Revoke(cfg, issued, redis, token, now, redisUp)
    else redis
  }

  // ── Revocation lasts ──────────────────────────────────────────────

  /** The entry a logout writes ends within the second that starts at the expiry. */
  lemma RevocationEnd(cfg: Config, issued: set<Jwt>, redis: map<Jwt, Time>, token: Jwt, now: Time)
    requires VerifyRefresh(cfg, issued, redis, token, now, true).Ok?
    requires cfg.leeway == 0.0
    ensures var r := Logout(cfg, issued, redis, token, now, true);
            token in r && token.exp as real <= r[token] < token.exp as real + 1.0
  {
  }

  /** For any decoder leeway: after a successful logout the token is rejected at
      every instant from then on if and only if the leeway is no longer than the
      part of a second the logout happened into. With the strict rule (no leeway)
      that is always; with a whole second of leeway it is never. */
  lemma RevocationExact(cfg: Config, issued: set<Jwt>, redis: map<Jwt, Time>, token: Jwt, now: Time)
    requires VerifyRefresh(cfg, issued, redis, token, now, true).Ok?
    requires cfg.leeway >= 0.0
    ensures var r := Logout(cfg, issued, redis, token, now, true);
            (forall t: Time :: t >= now ==> VerifyRefresh(cfg, issued, r, token, t, true).Err?)
            <==> cfg.leeway <= now - now.Floor as real
  {
    var r := Logout(cfg, issued, redis, token, now, true);
    if now.Floor < token.exp {
      var end := r[token];
      assert end == token.exp as real + (now - now.Floor as real);
      if now - now.Floor as real < cfg.leeway {
        assert end >= now;
        assert VerifyRefresh(cfg, issued, r, token, end, true).Ok?;
      }
    } else {
      assert r == redis;
      assert VerifyRefresh(cfg, issued, r, token, now, true).Ok?;
    }
  }
}
