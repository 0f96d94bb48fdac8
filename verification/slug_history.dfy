/** Slugs over whole runs. */
module SlugHistory {
  import opened Schema
  import opened Accounts
  import opened Slugs
  import opened Organizations
  import opened System
  import opened Integrity
  import opened Reachable

  /** No request changes the slug of an organization. */
  lemma SlugStep(cfg: Config, w: World, step: Step, org: Id)
    requires org in w.db.orgs && org in Next(cfg, w, step).db.orgs
    ensures Next(cfg, w, step).db.orgs[org].slug == w.db.orgs[org].slug
  {
    match step
    case Account(s) =>
    case Org(s) => OrgRequestFrame(w.db, s);
    case Bill(s) => BillingRequestFrame(cfg, w.db, s);
  }

  lemma {:induction false} SlugsNeverChange(cfg: Config, w: World, steps: seq<Step>, org: Id, other: Id)
    requires StoreOk(w.db)
    requires forall k :: 0 <= k <= |steps| ==> org in Run(cfg, w, steps[..k]).db.orgs
    requires org in w.db.orgs
    ensures var after := Run(cfg, w, steps).db;
            && org in after.orgs && after.orgs[org].slug == w.db.orgs[org].slug
            && (other in after.orgs && other != org ==> after.orgs[other].slug != after.orgs[org].slug)
  {
    var n := |steps|;
    assert steps[..n] == steps;
    RunKeepsStore(cfg, w, steps);
    if n > 0 {
      var init := steps[..n - 1];
      assert forall k :: 0 <= k <= n - 1 ==> init[..k] == steps[..k];
      SlugsNeverChange(cfg, w, init, org, other);
      SlugStep(cfg, Run(cfg, w, init), steps[n - 1], org);
    }
  }

  /** The first `n` candidates are taken and nothing else: the next one comes next. */
  lemma NextCandidate(taken: set<string>, base: string, n: nat)
    requires forall j: nat :: j < n ==> Candidate(base, j) in taken
    requires forall s :: s in taken ==> exists j: nat :: j < n && s == Candidate(base, j)
    ensures FirstFree(taken, base) == Candidate(base, n)
  {
    if Candidate(base, n) in taken {
      var j: nat :| j < n && Candidate(base, n) == Candidate(base, j);
      CandidateInjective(base, n, j);
    }
    FirstFreeIsLeast(taken, base, n);
  }

  /** A verified user founds an organization under a fresh id. */
  datatype Founding = Founding(actor: Id, org: Id, name: string)

  function Requests(foundings: seq<Founding>, base: string): (steps: seq<Step>)
    ensures |steps| == |foundings|
  {
    if foundings == [] then []
    else
      var last := foundings[|foundings| - 1];
      Requests(foundings[..|foundings| - 1], base) + [Org(DoCreate(last.actor, last.org, last.name, base))]
  }

  /** The store holds exactly these organizations, with slugs base, base-1, ... */
  ghost predicate Founded(db: Db, foundings: seq<Founding>, base: string) {
    && (forall k :: 0 <= k < |foundings| ==> foundings[k].org in db.orgs)
    && (forall k :: 0 <= k < |foundings| ==> db.orgs[foundings[k].org].slug == Candidate(base, k))
    && (forall o :: o in db.orgs ==> exists k :: 0 <= k < |foundings| && foundings[k].org == o)
  }

  lemma NextSlug(db: Db, before: seq<Founding>, base: string)
    requires Founded(db, before, base)
    ensures FirstFree(SlugsInUse(db), base) == Candidate(base, |before|)
  {
    var taken := SlugsInUse(db);
    forall j: nat | j < |before| ensures Candidate(base, j) in taken {
      assert db.orgs[before[j].org].slug == Candidate(base, j);
    }
    NextCandidate(taken, base, |before|);
  }

  lemma ExtendFounded(db: Db, after: Db, before: seq<Founding>, next: Founding, base: string)
    requires Founded(db, before, base) && next.org !in db.orgs && next.org in after.orgs
    requires after.orgs == db.orgs[next.org := after.orgs[next.org]]
    requires after.orgs[next.org].slug == Candidate(base, |before|)
    ensures Founded(after, before + [next], base)
  {
    var all := before + [next];
    forall k | 0 <= k < |all| ensures all[k].org in after.orgs && after.orgs[all[k].org].slug == Candidate(base, k) {
      assert k < |before| ==> before[k].org in db.orgs;
    }
    forall o | o in after.orgs ensures exists k :: 0 <= k < |all| && all[k].org == o {
      if o == next.org {
        assert all[|before|].org == o;
      } else {
        var k :| 0 <= k < |before| && before[k].org == o;
        assert all[k].org == o;
      }
    }
  }

  lemma RequestsExtend(cfg: Config, w: World, before: seq<Founding>, next: Founding, base: string)
    ensures Run(cfg, w, Requests(before + [next], base)) ==
            Next(cfg, Run(cfg, w, Requests(before, base)), Org(DoCreate(next.actor, next.org, next.name, base)))
  {
  }

  lemma FoundOne(db: Db, before: seq<Founding>, next: Founding, base: string)
    requires ReferencesExist(db) && Founded(db, before, base)
    requires CurrentUser(db.users, next.actor) && db.users[next.actor].isVerified
    requires forall f :: f in before ==> f.org != next.org
    ensures var after := Settle(db, OrgRequest(db, DoCreate(next.actor, next.org, next.name, base)));
            after.users == db.users && Founded(after, before + [next], base)
  {
    NextSlug(db, before, base);
    assert next.org !in db.orgs by {
      assert forall k :: 0 <= k < |before| ==> before[k] in before;
    }
    ExtendFounded(db, Create(db, next.org, next.name, base, next.actor).state, before, next, base);
  }

  /** The run of these requests leaves exactly these organizations and slugs. */
  ghost predicate FoundedBy(cfg: Config, w: World, foundings: seq<Founding>, base: string) {
    var after := Run(cfg, w, Requests(foundings, base)).db;
    after.users == w.db.users && Founded(after, foundings, base)
  }

  lemma FoundNext(cfg: Config, w: World, before: seq<Founding>, next: Founding, base: string)
    requires StoreOk(w.db)
    requires CurrentUser(w.db.users, next.actor) && w.db.users[next.actor].isVerified
    requires forall f :: f in before ==> f.org != next.org
    requires FoundedBy(cfg, w, before, base)
    ensures FoundedBy(cfg, w, before + [next], base)
  {
    var here := Run(cfg, w, Requests(before, base));
    assert ReferencesExist(here.db) by {
      RunKeepsStore(cfg, w, Requests(before, base));
    }
    RequestsExtend(cfg, w, before, next, base);
    FoundOne(here.db, before, next, base);
  }

  /** Verified users found organizations under ids that do not repeat. */
  ghost predicate Foundable(users: Users, foundings: seq<Founding>) {
    foundings == [] ||
    var init, last := foundings[..|foundings| - 1], foundings[|foundings| - 1];
    && Foundable(users, init) && CurrentUser(users, last.actor) && users[last.actor].isVerified
    && forall f :: f in init ==> f.org != last.org
  }

  /** `n` organizations founded on one base slug in a store without organizations
      get exactly base, base-1, ..., base-(n-1). */
  lemma {:induction false} SlugsAreConsecutive(cfg: Config, w: World, foundings: seq<Founding>, base: string)
    requires StoreOk(w.db) && w.db.orgs == map[]
    requires Foundable(w.db.users, foundings)
    ensures FoundedBy(cfg, w, foundings, base)
  {
    if foundings != [] {
      var init, last := foundings[..|foundings| - 1], foundings[|foundings| - 1];
      assert init + [last] == foundings;
      SlugsAreConsecutive(cfg, w, init, base);
      FoundNext(cfg, w, init, last, base);
    }
  }
}
