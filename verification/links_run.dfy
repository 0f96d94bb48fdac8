/** The mails say that verification and reset links expire. They do not: runs from the
    empty store in which any time at all passes before the link is used. */
module LinksRun {
  import opened Schema
  import opened Text
  import opened Accounts
  import opened Sessions
  import opened System
  import opened Scenarios

  function RequestsReset(p: Person, rawToken: string): Step { Account(DoRequestReset(p.email, rawToken, true)) }

  /** Some request made at the given instant: a login. */
  function Waits(p: Person, until: Time): Step { Account(DoLogin(p.email, p.password, until)) }

  lemma WaitingChangesNothing(cfg: Config, w: World, p: Person, until: Time)
    ensures Next(cfg, w, Waits(p, until)).db == w.db
  {
  }

  lemma Registration(cfg: Config, p: Person)
    requires IsNormal(p.email)
    ensures Run(cfg, EMPTY, [] + [Registers(p)]).db.users == map[p.id := Registered(p)]
  {
    RunExtends(cfg, EMPTY, [], Registers(p));
    RegistrationStep(cfg, EMPTY, p);
  }

  /** Registered at instant 0, confirmed after waiting until any instant. */
  lemma VerificationLinkNeverExpires(cfg: Config, p: Person, until: Time)
    requires IsNormal(p.email)
    ensures var users := Run(cfg, EMPTY, [] + [Registers(p)] + [Waits(p, until)]).db.users;
            VerifyEmail(users, p.rawToken, true).outcome == Ok(p.id)
  {
    Registration(cfg, p);
    RunExtends(cfg, EMPTY, [] + [Registers(p)], Waits(p, until));
    WaitingChangesNothing(cfg, Run(cfg, EMPTY, [] + [Registers(p)]), p, until);
    ConfirmNew(map[p.id := Registered(p)], p);
  }

  function AwaitingReset(p: Person, rawToken: string): User {
    Registered(p).(resetToken := Some(TokenHash(rawToken)))
  }

  lemma ResetRequested(users: Users, p: Person, rawToken: string)
    requires IsNormal(p.email) && users == map[p.id := Registered(p)]
    ensures RequestPasswordReset(users, p.email, rawToken, true) ==
            Attempt(map[p.id := AwaitingReset(p, rawToken)], Ok(Some(p.id)))
  {
    NormalizeIsProjection(p.email);
    assert WithEmail(users, p.email) == {p.id};
    assert users[p.id := AwaitingReset(p, rawToken)] == map[p.id := AwaitingReset(p, rawToken)];
  }

  lemma RequestStep(cfg: Config, w: World, p: Person, rawToken: string)
    requires IsNormal(p.email) && w.db.users == map[p.id := Registered(p)]
    ensures Next(cfg, w, RequestsReset(p, rawToken)).db.users == map[p.id := AwaitingReset(p, rawToken)]
  {
    ResetRequested(w.db.users, p, rawToken);
  }

  lemma ResetFindsTheOne(p: Person, rawToken: string, newPassword: string)
    ensures ResetPassword(map[p.id := AwaitingReset(p, rawToken)], rawToken, newPassword).outcome == Ok(p.id)
  {
    assert WithResetToken(map[p.id := AwaitingReset(p, rawToken)], TokenHash(rawToken)) == {p.id};
  }

  /** A reset requested before waiting until any instant, with a link that then works. */
  lemma ResetLinkNeverExpires(cfg: Config, p: Person, rawToken: string, until: Time, newPassword: string)
    requires IsNormal(p.email)
    ensures var steps := [] + [Registers(p)] + [RequestsReset(p, rawToken)] + [Waits(p, until)];
            ResetPassword(Run(cfg, EMPTY, steps).db.users, rawToken, newPassword).outcome == Ok(p.id)
  {
    var before := [] + [Registers(p)];
    Registration(cfg, p);
    RunExtends(cfg, EMPTY, before, RequestsReset(p, rawToken));
    RequestStep(cfg, Run(cfg, EMPTY, before), p, rawToken);
    RunExtends(cfg, EMPTY, before + [RequestsReset(p, rawToken)], Waits(p, until));
    WaitingChangesNothing(cfg, Run(cfg, EMPTY, before + [RequestsReset(p, rawToken)]), p, until);
    ResetFindsTheOne(p, rawToken, newPassword);
  }
}
