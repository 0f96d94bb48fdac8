/** Beginnings of runs from the empty store: people register and confirm their
    addresses, and one of them founds an organization. */
module Scenarios {
  import opened Schema
  import opened Text
  import opened Accounts
  import opened Slugs
  import opened Organizations
  import opened Sessions
  import opened System

  datatype Person = Person(id: Id, email: string, password: string, rawToken: string)

  /** Two people who can both arrive. */
  predicate Distinct(p: Person, q: Person) {
    && p.id != q.id && p.email != q.email && p.rawToken != q.rawToken
    && IsNormal(p.email) && IsNormal(q.email)
  }

  const ONE := Person("o", "o@x", "p", "v")
  const OTHER := Person("a", "a@x", "q", "w")

  lemma OneAndOther()
    ensures Distinct(ONE, OTHER)
  {
    assert ONE.id[0] != OTHER.id[0] && ONE.email[0] != OTHER.email[0] && ONE.rawToken[0] != OTHER.rawToken[0];
  }

  // ── Accounts ──────────────────────────────────────────────────────

  function Registers(p: Person): Step { Account(DoRegister(p.email, p.password, p.id, p.rawToken, 0.0)) }
  function Confirms(p: Person): Step { Account(DoVerifyEmail(p.rawToken, true)) }

  function Arrival(p: Person): seq<Step> {
    [] + [Registers(p)] + [Confirms(p)]
  }

  function Arrivals(p: Person, q: Person): seq<Step> {
    Arrival(p) + [Registers(q)] + [Confirms(q)]
  }

  function Registered(p: Person): User {
    User(p.email, Some(PasswordHash(p.password)), true, false, Some(TokenHash(p.rawToken)), None,
         Local, None, false, None)
  }

  function Confirmed(p: Person): User {
    Registered(p).(isVerified := true, verificationToken := None)
  }

  lemma RegisterNew(users: Users, p: Person)
    requires IsNormal(p.email) && p.id !in users
    requires forall v :: v in users ==> users[v].email != p.email
    ensures Register(users, p.email, p.password, p.id, p.rawToken) == Attempt(users[p.id := Registered(p)], Ok(p.id))
  {
    NormalizeIsProjection(p.email);
    assert WithEmail(users, p.email) == {};
  }

  lemma RegistrationStep(cfg: Config, w: World, p: Person)
    requires IsNormal(p.email) && p.id !in w.db.users
    requires forall v :: v in w.db.users ==> w.db.users[v].email != p.email
    ensures Next(cfg, w, Registers(p)).db == w.db.(users := w.db.users[p.id := Registered(p)])
  {
    RegisterNew(w.db.users, p);
  }

  lemma ConfirmNew(users: Users, p: Person)
    requires p.id in users && users[p.id] == Registered(p)
    requires forall v :: v in users && v != p.id ==> users[v].verificationToken != Some(TokenHash(p.rawToken))
    ensures VerifyEmail(users, p.rawToken, true) == Attempt(users[p.id := Confirmed(p)], Ok(p.id))
  {
    assert WithVerificationToken(users, TokenHash(p.rawToken)) == {p.id};
  }

  lemma ConfirmationStep(cfg: Config, w: World, p: Person)
    requires p.id in w.db.users && w.db.users[p.id] == Registered(p)
    requires forall v :: v in w.db.users && v != p.id ==> w.db.users[v].verificationToken == None
    ensures Next(cfg, w, Confirms(p)).db == w.db.(users := w.db.users[p.id := Confirmed(p)])
  {
    ConfirmNew(w.db.users, p);
  }

  /** Nobody has this id or address, and no verification token is waiting. */
  predicate NewTo(users: Users, p: Person) {
    && IsNormal(p.email) && p.id !in users
    && (forall v :: v in users ==> users[v].email != p.email)
    && (forall v :: v in users ==> users[v].verificationToken == None)
  }

  lemma Arrives(cfg: Config, w: World, p: Person)
    requires NewTo(w.db.users, p)
    ensures Next(cfg, Next(cfg, w, Registers(p)), Confirms(p)).db ==
            w.db.(users := w.db.users[p.id := Confirmed(p)])
  {
    var next := Next(cfg, w, Registers(p));
    RegistrationStep(cfg, w, p);
    ConfirmationStep(cfg, next, p);
    assert next.db.users[p.id := Confirmed(p)] == w.db.users[p.id := Confirmed(p)];
  }

  lemma ArrivesInRun(cfg: Config, before: seq<Step>, p: Person)
    requires NewTo(Run(cfg, EMPTY, before).db.users, p)
    ensures var db := Run(cfg, EMPTY, before).db;
            Run(cfg, EMPTY, before + [Registers(p)] + [Confirms(p)]).db == db.(users := db.users[p.id := Confirmed(p)])
  {
    RunExtends(cfg, EMPTY, before, Registers(p));
    RunExtends(cfg, EMPTY, before + [Registers(p)], Confirms(p));
    Arrives(cfg, Run(cfg, EMPTY, before), p);
  }

  function People(p: Person, q: Person): Users {
    map[p.id := Confirmed(p)][q.id := Confirmed(q)]
  }

  lemma OneArrives(cfg: Config, p: Person)
    requires IsNormal(p.email)
    ensures Run(cfg, EMPTY, Arrival(p)).db == EMPTY_DB.(users := map[p.id := Confirmed(p)])
  {
    ArrivesInRun(cfg, [], p);
  }

  lemma BothArrive(cfg: Config, p: Person, q: Person)
    requires Distinct(p, q)
    ensures Run(cfg, EMPTY, Arrivals(p, q)).db == EMPTY_DB.(users := People(p, q))
  {
    OneArrives(cfg, p);
    ArrivesInRun(cfg, Arrival(p), q);
  }

  // ── An organization ───────────────────────────────────────────────

  datatype Tenant = Tenant(org: Id, name: string, slug: string)

  function Founds(p: Person, t: Tenant): Step { Org(DoCreate(p.id, t.org, t.name, t.slug)) }

  function Founded(users: Users, p: Person, t: Tenant): Db {
    Db(users, map[t.org := Organization(t.name, t.slug, None, Free, None)], map[Seat(p.id, t.org) := Owner],
       map[], map[])
  }

  lemma FoundingStep(users: Users, p: Person, t: Tenant)
    requires p.id in users && users[p.id] == Confirmed(p)
    ensures var db := EMPTY_DB.(users := users);
            Settle(db, OrgRequest(db, Founds(p, t).org)) == Founded(users, p, t)
  {
    assert SlugsInUse(EMPTY_DB.(users := users)) == {};
    FirstFreeIsLeast({}, t.slug, 0);
  }

  lemma FoundsInRun(cfg: Config, before: seq<Step>, users: Users, p: Person, t: Tenant)
    requires Run(cfg, EMPTY, before).db == EMPTY_DB.(users := users)
    requires p.id in users && users[p.id] == Confirmed(p)
    ensures Run(cfg, EMPTY, before + [Founds(p, t)]).db == Founded(users, p, t)
  {
    RunExtends(cfg, EMPTY, before, Founds(p, t));
    FoundingStep(users, p, t);
  }
}
