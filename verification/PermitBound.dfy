/** When the per-principal limit holds: exactly. */
module PermitBound {
  import opened Prelude
  import opened PrincipalPermits
  import opened PermitMap

  // ----- one semaphore never lets through too many -----

  ghost predicate SemaphoresOk(c: Config, s: State) {
    forall m :: |Holders(s, m)| <= c.maxInFlight
  }

  lemma SemaphoreKept(c: Config, s: State, e: Event, m: Id)
    requires SemaphoresOk(c, s) && Enabled(c, s, e)
    ensures |Holders(Apply(c, s, e), m)| <= c.maxInFlight
  {
    var t := Apply(c, s, e);
    if e.Acquire? && s.requests[e.request].pc.semaphore == m {
      assert Holders(t, m) == Holders(s, m) + {e.request};
    } else {
      SubsetSize(Holders(t, m), Holders(s, m));
    }
  }

  lemma {:induction false} RunSemaphores(c: Config, principals: set<Id>, ss: seq<State>, es: seq<Event>, k: nat)
    requires Run(c, principals, ss, es) && k < |ss|
    ensures SemaphoresOk(c, ss[k])
  {
    if k == 0 {
      assert forall m :: Holders(INIT, m) == {};
    } else {
      assert Steps(c, principals, ss[k - 1], es[k - 1], ss[k - 1 + 1]);
      RunSemaphores(c, principals, ss, es, k - 1);
      forall m
        ensures |Holders(ss[k], m)| <= c.maxInFlight
      {
        SemaphoreKept(c, ss[k - 1], es[k - 1], m);
      }
    }
  }

  /** Whoever found or holds a semaphore has the one the map names for its principal. */
  ghost predicate Current(s: State) {
    forall r :: r in s.requests && (s.requests[r].pc.Found? || s.requests[r].pc.Holding?) ==>
      var p := s.requests[r].principal;
      p in s.permits && s.permits[p] == s.requests[r].pc.semaphore
  }

  lemma CurrentBounds(c: Config, s: State, p: Id)
    requires Current(s) && SemaphoresOk(c, s)
    ensures |InFlight(s, p)| <= c.maxInFlight
  {
    if p in s.permits {
      assert InFlight(s, p) <= Holders(s, s.permits[p]);
      SubsetSize(InFlight(s, p), Holders(s, s.permits[p]));
    } else {
      assert InFlight(s, p) == {};
    }
  }

  /** Every step keeps it, except an eviction that drops a semaphore found but not yet taken. */
  lemma CurrentKept(c: Config, s: State, e: Event)
    requires Current(s) && Enabled(c, s, e)
    requires e.Create? ==> |s.permits.Keys| < c.maxPrincipals || forall r :: r in s.requests ==> !s.requests[r].pc.Found?
    ensures Current(Apply(c, s, e))
  {
    match e
    case Arrive(_, _) =>
    case ReadHit(_) =>
    case ReadMiss(_) =>
    case Create(_, _) =>
    case Acquire(_) =>
    case Leave(_) =>
  }

  // ----- finding and taking as one step -----

  /** Whoever finds a semaphore acts next: it takes a permit or leaves. */
  ghost predicate Fused(es: seq<Event>) {
    forall i :: 0 <= i < |es| - 1 && (es[i].ReadHit? || es[i].Create?) ==>
      es[i + 1] == Acquire(es[i].request) || es[i + 1] == Leave(es[i].request)
  }

  ghost predicate FoundActsNext(s: State, es: seq<Event>, k: nat) {
    forall r :: r in s.requests && s.requests[r].pc.Found? && k < |es| ==> es[k] == Acquire(r) || es[k] == Leave(r)
  }

  lemma NextActs(c: Config, s: State, es: seq<Event>, k: nat)
    requires k < |es| && Enabled(c, s, es[k]) && Fused(es) && FoundActsNext(s, es, k)
    ensures FoundActsNext(Apply(c, s, es[k]), es, k + 1)
  {
    match es[k]
    case Arrive(_, _) =>
    case ReadHit(_) =>
    case ReadMiss(_) =>
    case Create(_, _) =>
    case Acquire(_) =>
    case Leave(_) =>
  }

  lemma {:induction false} FusedCurrent(c: Config, principals: set<Id>, ss: seq<State>, es: seq<Event>, k: nat)
    requires Run(c, principals, ss, es) && k < |ss| && Fused(es)
    ensures Current(ss[k]) && FoundActsNext(ss[k], es, k)
  {
    if k > 0 {
      assert Steps(c, principals, ss[k - 1], es[k - 1], ss[k - 1 + 1]);
      FusedCurrent(c, principals, ss, es, k - 1);
      CurrentKept(c, ss[k - 1], es[k - 1]);
      NextActs(c, ss[k - 1], es, k - 1);
    }
  }

  /** With lookup and acquisition as one step no principal ever exceeds its limit, despite eviction. */
  lemma FusedBound(c: Config, principals: set<Id>, ss: seq<State>, es: seq<Event>, k: nat, p: Id)
    requires Run(c, principals, ss, es) && k < |ss| && Fused(es)
    ensures |InFlight(ss[k], p)| <= c.maxInFlight
  {
    FusedCurrent(c, principals, ss, es, k);
    RunSemaphores(c, principals, ss, es, k);
    CurrentBounds(c, ss[k], p);
  }

  // ----- finding and taking as two steps -----

  /** The limit cannot be exceeded: eviction never happens, or the global limit is low enough. */
  predicate Safe(c: Config, principals: set<Id>) {
    |principals| < c.maxPrincipals || c.maxConnections <= c.maxInFlight
  }

  lemma {:induction false} RoomyCurrent(c: Config, principals: set<Id>, ss: seq<State>, es: seq<Event>, k: nat)
    requires Run(c, principals, ss, es) && k < |ss| && |principals| < c.maxPrincipals
    ensures Current(ss[k])
  {
    if k > 0 {
      assert Steps(c, principals, ss[k - 1], es[k - 1], ss[k - 1 + 1]);
      RoomyCurrent(c, principals, ss, es, k - 1);
      MapIsBounded(c, principals, ss, es, k - 1);
      SubsetSize(ss[k - 1].permits.Keys, principals);
      CurrentKept(c, ss[k - 1], es[k - 1]);
    }
  }

  lemma SafeBound(c: Config, principals: set<Id>, ss: seq<State>, es: seq<Event>, k: nat, p: Id)
    requires Run(c, principals, ss, es) && k < |ss| && Safe(c, principals)
    ensures |InFlight(ss[k], p)| <= c.maxInFlight
  {
    if |principals| < c.maxPrincipals {
      RoomyCurrent(c, principals, ss, es, k);
      RunSemaphores(c, principals, ss, es, k);
      CurrentBounds(c, ss[k], p);
    } else {
      MapIsBounded(c, principals, ss, es, k);
      SubsetSize(InFlight(ss[k], p), ss[k].requests.Keys);
    }
  }
}
