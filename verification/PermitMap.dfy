/** The map of semaphores: whom its entries belong to and how many there can be. */
module PermitMap {
  import opened Prelude
  import opened PrincipalPermits

  // ----- invariants -----

  /** Entries belong to known principals and share no semaphore. */
  ghost predicate TableOk(principals: set<Id>, permits: map<Id, Id>, made: set<Id>) {
    && permits.Keys <= principals
    && (forall p, q :: p in permits && q in permits && permits[p] == permits[q] ==> p == q)
    && (forall p :: p in permits ==> permits[p] in made)
  }

  ghost predicate RequestOk(principals: set<Id>, q: Request, made: set<Id>) {
    && q.principal in principals
    && (q.pc.Found? || q.pc.Holding? ==> q.pc.semaphore in made)
  }

  ghost predicate Inv(c: Config, principals: set<Id>, s: State) {
    && |s.requests.Keys| <= c.maxConnections
    && TableOk(principals, s.permits, s.made)
    && (forall r :: r in s.requests ==> RequestOk(principals, s.requests[r], s.made))
  }

  lemma AdmittedOk(c: Config, principals: set<Id>, permits: map<Id, Id>, busy: set<Id>, p: Id, m: Id, made: set<Id>)
    requires TableOk(principals, permits, made) && p in principals && m !in made
    ensures TableOk(principals, Admitted(c, permits, busy, p, m), made + {m})
  {
  }

  lemma GotoKeys(s: State, r: Id, pc: Pc)
    requires r in s.requests
    ensures Goto(s, r, pc).Keys == s.requests.Keys
  {
  }

  lemma RequestsCounted(c: Config, s: State, e: Event)
    requires Enabled(c, s, e) && |s.requests.Keys| <= c.maxConnections
    ensures |Apply(c, s, e).requests.Keys| <= c.maxConnections
  {
    var t := Apply(c, s, e);
    if e.Arrive? {
      assert t.requests.Keys == s.requests.Keys + {e.request};
    } else if e.Leave? {
      assert t.requests.Keys == s.requests.Keys - {e.request};
    } else {
      GotoKeys(s, e.request, t.requests[e.request].pc);
      assert t.requests == Goto(s, e.request, t.requests[e.request].pc);
    }
  }

  lemma InvKept(c: Config, principals: set<Id>, s: State, e: Event)
    requires Inv(c, principals, s) && Enabled(c, s, e) && (e.Arrive? ==> e.principal in principals)
    ensures Inv(c, principals, Apply(c, s, e))
  {
    RequestsCounted(c, s, e);
    match e
    case Arrive(_, _) =>
    case ReadHit(_) =>
    case ReadMiss(_) =>
    case Create(r, m) =>
      assert RequestOk(principals, s.requests[r], s.made);
      AdmittedOk(c, principals, s.permits, Busy(s), s.requests[r].principal, m, s.made);
    case Acquire(_) =>
    case Leave(_) =>
  }

  // ----- the size of the map -----

  /** Counting by an injection into a set. */
  lemma {:induction false} CountInto(a: set<Id>, f: map<Id, Id>, b: set<Id>)
    requires a <= f.Keys
    requires forall x :: x in a ==> f[x] in b
    requires forall x, y :: x in a && y in a && f[x] == f[y] ==> x == y
    ensures |a| <= |b|
  {
    if a != {} {
      var x :| x in a;
      CountInto(a - {x}, f, b - {f[x]});
    }
  }

  function BusyPrincipals(permits: map<Id, Id>, busy: set<Id>): set<Id> {
    set p | p in permits && permits[p] in busy
  }

  /** Busy entries are at most as many as the requests that hold a permit. */
  lemma BusyEntries(c: Config, principals: set<Id>, s: State, r: Id)
    requires Inv(c, principals, s) && IsAt(s, r, Missed)
    ensures |BusyPrincipals(s.permits, Busy(s))| < |s.requests.Keys|
  {
    var a := BusyPrincipals(s.permits, Busy(s));
    var f := map p | p in a :: HolderOf(s, s.permits[p]);
    CountInto(a, f, s.requests.Keys - {r});
  }

  ghost function HolderOf(s: State, semaphore: Id): (r: Id)
    requires semaphore in Busy(s)
    ensures r in s.requests && s.requests[r].pc == Holding(semaphore)
  {
    var r :| r in s.requests && s.requests[r].pc == Holding(semaphore);
    r
  }

  ghost predicate SizeOk(c: Config, permits: map<Id, Id>) {
    |permits.Keys| <= c.maxPrincipals || |permits.Keys| <= c.maxConnections
  }

  lemma AdmittedSize(c: Config, permits: map<Id, Id>, busy: set<Id>, p: Id, m: Id)
    requires |BusyPrincipals(permits, busy)| < c.maxConnections
    ensures SizeOk(c, Admitted(c, permits, busy, p, m))
  {
    var after := Admitted(c, permits, busy, p, m);
    if |permits.Keys| >= c.maxPrincipals {
      assert after.Keys == BusyPrincipals(permits, busy) + {p};
    } else {
      assert after.Keys == permits.Keys + {p};
    }
  }

  lemma SizeKept(c: Config, principals: set<Id>, s: State, e: Event)
    requires Inv(c, principals, s) && Enabled(c, s, e) && SizeOk(c, s.permits)
    ensures SizeOk(c, Apply(c, s, e).permits)
  {
    if e.Create? {
      BusyEntries(c, principals, s, e.request);
      AdmittedSize(c, s.permits, Busy(s), s.requests[e.request].principal, e.semaphore);
    }
  }

  /** In every run the map of semaphores never outgrows the larger of the two limits. */
  lemma {:induction false} MapIsBounded(c: Config, principals: set<Id>, ss: seq<State>, es: seq<Event>, k: nat)
    requires Run(c, principals, ss, es) && k < |ss|
    ensures Inv(c, principals, ss[k]) && SizeOk(c, ss[k].permits)
  {
    if k > 0 {
      assert Steps(c, principals, ss[k - 1], es[k - 1], ss[k - 1 + 1]);
      MapIsBounded(c, principals, ss, es, k - 1);
      InvKept(c, principals, ss[k - 1], es[k - 1]);
      SizeKept(c, principals, ss[k - 1], es[k - 1]);
    }
  }
}
