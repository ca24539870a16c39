/** The converse: outside the safe configurations some run exceeds a principal's limit. */
module PermitOvershoot {
  import opened Prelude
  import opened PrincipalPermits
  import opened PermitBound

  /** `t` is the last state of some run. */
  ghost predicate Reach(c: Config, principals: set<Id>, t: State) {
    exists ss, es :: Run(c, principals, ss, es) && ss[|es|] == t
  }

  lemma ReachStep(c: Config, principals: set<Id>, t: State, e: Event)
    requires Reach(c, principals, t) && Enabled(c, t, e) && (e.Arrive? ==> e.principal in principals)
    ensures Reach(c, principals, Apply(c, t, e))
  {
    var ss, es :| Run(c, principals, ss, es) && ss[|es|] == t;
    var longer, events := ss + [Apply(c, t, e)], es + [e];
    forall i | 0 <= i < |events|
      ensures Steps(c, principals, longer[i], events[i], longer[i + 1])
    {
      if i < |es| {
        assert longer[i] == ss[i] && events[i] == es[i] && longer[i + 1] == ss[i + 1];
        assert Steps(c, principals, ss[i], es[i], ss[i + 1]);
      }
    }
    assert Run(c, principals, longer, events);
  }

  lemma ReachInit(c: Config, principals: set<Id>)
    ensures Reach(c, principals, INIT)
  {
    assert Run(c, principals, [INIT], []);
  }

  lemma {:induction false} UpperBound(a: set<Id>) returns (n: int)
    ensures forall x :: x in a ==> x.n < n
  {
    if a == {} {
      n := 0;
    } else {
      var x :| x in a;
      n := UpperBound(a - {x});
      n := if n <= x.n then x.n + 1 else n;
    }
  }

  lemma Unused(a: set<Id>) returns (x: Id)
    ensures x !in a
  {
    var n := UpperBound(a);
    x := Id(n);
  }

  /** Principals that come and go leave idle semaphores behind, up to the limit. */
  lemma {:induction false} Fill(c: Config, principals: set<Id>, q: set<Id>) returns (t: State)
    requires c.Valid() && q <= principals && |q| < c.maxPrincipals
    ensures Reach(c, principals, t) && t.requests == map[] && t.permits.Keys == q
  {
    if q == {} {
      ReachInit(c, principals);
      t := INIT;
    } else {
      var p :| p in q;
      var s := Fill(c, principals, q - {p});
      t := Visit(c, principals, s, p);
    }
  }

  lemma Visit(c: Config, principals: set<Id>, s: State, p: Id) returns (t: State)
    requires c.Valid() && p in principals && Reach(c, principals, s)
    requires s.requests == map[] && p !in s.permits && |s.permits.Keys| < c.maxPrincipals
    ensures Reach(c, principals, t) && t.requests == map[] && t.permits.Keys == s.permits.Keys + {p}
  {
    var m := Unused(s.made);
    var r := Id(0);
    ReachStep(c, principals, s, Arrive(r, p));
    var s1 := Apply(c, s, Arrive(r, p));
    ReachStep(c, principals, s1, ReadMiss(r));
    var s2 := Apply(c, s1, ReadMiss(r));
    ReachStep(c, principals, s2, Create(r, m));
    var s3 := Apply(c, s2, Create(r, m));
    ReachStep(c, principals, s3, Leave(r));
    t := Apply(c, s3, Leave(r));
    assert t.requests.Keys == {};
  }

  /** One request holds the evicted semaphore `old`, the others the current one. */
  ghost predicate Split(s: State, p: Id, first: Id, evicted: Id, current: Id) {
    && evicted != current && s.permits == map[p := current]
    && first in s.requests && s.requests[first] == Request(p, Holding(evicted))
    && forall r :: r in s.requests && r != first ==> s.requests[r] == Request(p, Holding(current))
  }

  /** Two requests of `p`, at these points. */
  ghost predicate Two(s: State, p: Id, a: Pc, b: Pc) {
    && s.requests.Keys == {Id(1), Id(2)}
    && s.requests[Id(1)] == Request(p, a) && s.requests[Id(2)] == Request(p, b)
  }

  lemma BothMiss(c: Config, principals: set<Id>, s: State, p: Id) returns (t: State)
    requires c.maxConnections >= 2 && p in principals && Reach(c, principals, s)
    requires s.requests == map[] && p !in s.permits
    ensures Reach(c, principals, t)
    ensures t.permits == s.permits && t.made == s.made && Two(t, p, Missed, Missed)
  {
    var x, y := Id(1), Id(2);
    ReachStep(c, principals, s, Arrive(x, p));
    var s1 := Apply(c, s, Arrive(x, p));
    assert s1.requests.Keys == {x};
    ReachStep(c, principals, s1, Arrive(y, p));
    var s2 := Apply(c, s1, Arrive(y, p));
    ReachStep(c, principals, s2, ReadMiss(x));
    var s3 := Apply(c, s2, ReadMiss(x));
    ReachStep(c, principals, s3, ReadMiss(y));
    t := Apply(c, s3, ReadMiss(y));
  }

  lemma AdmittedWhenFull(c: Config, permits: map<Id, Id>, p: Id, m: Id)
    requires |permits.Keys| >= c.maxPrincipals
    ensures Admitted(c, permits, {}, p, m) == map[p := m]
  {
  }

  lemma CreateFirst(c: Config, s: State, p: Id, evicted: Id)
    requires Two(s, p, Missed, Missed) && p !in s.permits && |s.permits.Keys| + 1 == c.maxPrincipals && evicted !in s.made
    ensures var t := Apply(c, s, Create(Id(1), evicted));
            Two(t, p, Found(evicted), Missed) && |t.permits.Keys| == c.maxPrincipals && Busy(t) == {} && t.made == s.made + {evicted}
  {
    var t := Apply(c, s, Create(Id(1), evicted));
    assert t.permits.Keys == s.permits.Keys + {p};
  }

  /** The second of two requests that missed together evicts what the first has just created. */
  lemma CreateSecond(c: Config, s: State, p: Id, evicted: Id, current: Id)
    requires Two(s, p, Found(evicted), Missed) && |s.permits.Keys| == c.maxPrincipals && Busy(s) == {} && current !in s.made
    ensures var t := Apply(c, s, Create(Id(2), current));
            Two(t, p, Found(evicted), Found(current)) && t.permits == map[p := current]
  {
    AdmittedWhenFull(c, s.permits, p, current);
  }

  lemma TakeAndLeave(c: Config, principals: set<Id>, s: State, p: Id, evicted: Id, current: Id) returns (t: State)
    requires c.Valid() && Reach(c, principals, s) && evicted != current
    requires Two(s, p, Found(evicted), Found(current)) && s.permits == map[p := current]
    ensures Reach(c, principals, t) && Split(t, p, Id(1), evicted, current) && |t.requests.Keys| == 1
  {
    assert Holders(s, evicted) == {};
    ReachStep(c, principals, s, Acquire(Id(1)));
    var s1 := Apply(c, s, Acquire(Id(1)));
    ReachStep(c, principals, s1, Leave(Id(2)));
    t := Apply(c, s1, Leave(Id(2)));
    assert t.requests.Keys == {Id(1)};
  }

  lemma SplitPrincipal(c: Config, principals: set<Id>, s: State, p: Id, evicted: Id, current: Id) returns (t: State)
    requires c.Valid() && c.maxConnections >= 2 && p in principals && Reach(c, principals, s)
    requires s.requests == map[] && p !in s.permits && |s.permits.Keys| + 1 == c.maxPrincipals
    requires evicted !in s.made && current !in s.made + {evicted}
    ensures Reach(c, principals, t) && Split(t, p, Id(1), evicted, current) && |t.requests.Keys| == 1
  {
    var s1 := BothMiss(c, principals, s, p);
    ReachStep(c, principals, s1, Create(Id(1), evicted));
    CreateFirst(c, s1, p, evicted);
    var s2 := Apply(c, s1, Create(Id(1), evicted));
    ReachStep(c, principals, s2, Create(Id(2), current));
    CreateSecond(c, s2, p, evicted, current);
    t := TakeAndLeave(c, principals, Apply(c, s2, Create(Id(2), current)), p, evicted, current);
  }

  /** Filling the current semaphore to its limit then exceeds the principal's. */
  lemma {:induction false} Pile(c: Config, principals: set<Id>, s: State, p: Id, first: Id, evicted: Id, current: Id)
    returns (t: State)
    requires p in principals && Reach(c, principals, s) && Split(s, p, first, evicted, current)
    requires |s.requests.Keys| <= c.maxInFlight + 1 && c.maxInFlight < c.maxConnections
    ensures Reach(c, principals, t) && |InFlight(t, p)| > c.maxInFlight
    decreases c.maxInFlight + 1 - |s.requests.Keys|
  {
    assert InFlight(s, p) == s.requests.Keys;
    if |s.requests.Keys| == c.maxInFlight + 1 {
      t := s;
    } else {
      var s3 := OneMore(c, principals, s, p, first, evicted, current);
      t := Pile(c, principals, s3, p, first, evicted, current);
    }
  }

  lemma OneMore(c: Config, principals: set<Id>, s: State, p: Id, first: Id, evicted: Id, current: Id) returns (t: State)
    requires p in principals && Reach(c, principals, s) && Split(s, p, first, evicted, current)
    requires |s.requests.Keys| <= c.maxInFlight < c.maxConnections
    ensures Reach(c, principals, t) && Split(t, p, first, evicted, current)
    ensures |t.requests.Keys| == |s.requests.Keys| + 1
  {
    var r := Unused(s.requests.Keys);
    ReachStep(c, principals, s, Arrive(r, p));
    var s1 := Apply(c, s, Arrive(r, p));
    ReachStep(c, principals, s1, ReadHit(r));
    var s2 := Apply(c, s1, ReadHit(r));
    assert Holders(s2, current) == s.requests.Keys - {first};
    ReachStep(c, principals, s2, Acquire(r));
    t := Apply(c, s2, Acquire(r));
    assert t.requests.Keys == s.requests.Keys + {r};
  }

  lemma Subset(a: set<Id>, p: Id, n: nat) returns (q: set<Id>)
    requires p in a && n < |a|
    ensures q <= a - {p} && |q| == n
  {
    if n == 0 {
      q := {};
    } else {
      var smaller := Subset(a, p, n - 1);
      assert |a - {p}| == |a| - 1;
      if a - {p} <= smaller {
        SubsetSize(a - {p}, smaller);
      }
      var x :| x in a - {p} && x !in smaller;
      q := smaller + {x};
    }
  }

  lemma Overshoot(c: Config, principals: set<Id>) returns (t: State, p: Id)
    requires c.Valid() && !Safe(c, principals)
    ensures Reach(c, principals, t) && |InFlight(t, p)| > c.maxInFlight
  {
    p :| p in principals;
    var q := Subset(principals, p, c.maxPrincipals - 1);
    var s := Fill(c, principals, q);
    var evicted := Unused(s.made);
    var current := Unused(s.made + {evicted});
    var s1 := SplitPrincipal(c, principals, s, p, evicted, current);
    t := Pile(c, principals, s1, p, Id(1), evicted, current);
  }

  /**
   The per-principal limit holds in every run exactly when fewer principals than
   `maxPrincipals` ever ask, so that nothing is evicted, or the global limit is no higher.
   */
  lemma BoundHoldsIff(c: Config, principals: set<Id>)
    requires c.Valid()
    ensures (forall t, p :: Reach(c, principals, t) ==> |InFlight(t, p)| <= c.maxInFlight) <==> Safe(c, principals)
  {
    if Safe(c, principals) {
      forall t, p | Reach(c, principals, t)
        ensures |InFlight(t, p)| <= c.maxInFlight
      {
        var ss, es :| Run(c, principals, ss, es) && ss[|es|] == t;
        SafeBound(c, principals, ss, es, |es|, p);
      }
    } else {
      var t, p := Overshoot(c, principals);
    }
  }
}
