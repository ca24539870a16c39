/**
 What the live store accepts, decided by its own order of events, and when that agrees with
 what a restart would accept.
 */
module AuthorityLive {
  import opened Prelude
  import opened AuthorityRecords
  import opened AuthorityPersist
  import opened AuthorityTheorems

  /** `r` is enrolled and the only record with its hash. */
  ghost predicate Holds(s: State, r: Record) {
    r in s.store && !r.revoked && r.hash in s.used && forall q :: q in s.store && q.hash == r.hash ==> q == r
  }

  lemma HoldsStep(s: State, e: Event, r: Record)
    requires Enabled(s, e) && Holds(s, r) && r.expires > Apply(s, e).now
    requires !e.Crash? && e != RevokeInner(r.principal)
    ensures Holds(Apply(s, e), r)
  {
    var t := Apply(s, e);
    if e.Enroll? || e.EnrollRefused? {
      InCompacted(s.store, s.now, r);
    } else if e.RevokeInner? {
      InMarked(s.store, e.principal, r);
    }
    forall q | q in t.store && q.hash == r.hash
      ensures q == r
    {
      if e.Enroll? || e.EnrollRefused? {
        InCompacted(s.store, s.now, q);
      } else if e.RevokeInner? {
        InMarked(s.store, e.principal, q);
      }
    }
  }

  /** Enrollment `n` of `r`, with no crash from there to `k`. */
  ghost predicate EnrolledAt(ss: seq<State>, es: seq<Event>, n: nat, k: nat, r: Record) {
    && Run(ss, es) && Steps(ss, es, n) && es[n] == Enroll(r) && n < k < |ss|
    && forall m :: n < m < k ==> !es[m].Crash?
  }

  ghost predicate RevokedBetween(es: seq<Event>, n: nat, k: nat, principal: Id) {
    exists m :: n < m < k && m < |es| && es[m] == RevokeInner(principal)
  }

  lemma HoldsAtFirst(ss: seq<State>, es: seq<Event>, n: nat, r: Record)
    requires Run(ss, es) && Steps(ss, es, n) && es[n] == Enroll(r)
    ensures Holds(ss[n + 1], r)
  {
    RunHashes(ss, es, n);
    forall q | q in ss[n + 1].store && q.hash == r.hash
      ensures q == r
    {
      InCompacted(ss[n].store, ss[n].now, q);
    }
  }

  /** Until it expires, the record is held or its hash is dead, as no revoke or some revoke has passed. */
  lemma {:induction false} HeldOrDead(ss: seq<State>, es: seq<Event>, n: nat, k: nat, r: Record)
    requires EnrolledAt(ss, es, n, k, r) && r.expires > ss[k].now
    ensures if RevokedBetween(es, n, k, r.principal) then r.hash in ss[k].dead else Holds(ss[k], r)
    decreases k
  {
    if k == n + 1 {
      HoldsAtFirst(ss, es, n, r);
    } else {
      assert Steps(ss, es, k - 1) && EnrolledAt(ss, es, n, k - 1, r);
      ClockMonotone(ss, es, k - 1, k);
      HeldOrDead(ss, es, n, k - 1, r);
      if !RevokedBetween(es, n, k - 1, r.principal) && es[k - 1] != RevokeInner(r.principal) {
        assert !RevokedBetween(es, n, k, r.principal);
        HoldsStep(ss[k - 1], es[k - 1], r);
      } else {
        assert RevokedBetween(es, n, k, r.principal);
      }
    }
  }

  /**
   Until a crash or its expiry, the live store accepts an enrolled token exactly when no
   revoke of its principal has run its live half since the enrollment.
   */
  lemma LiveIff(ss: seq<State>, es: seq<Event>, n: nat, k: nat, r: Record)
    requires EnrolledAt(ss, es, n, k, r) && r.expires > ss[k].now
    ensures Authenticates(ss[k], r.hash) <==> !RevokedBetween(es, n, k, r.principal)
  {
    HeldOrDead(ss, es, n, k, r);
    RunGone(ss, es, k, r.hash);
  }

  // ----- one issue and one revoke -----

  /** Where an issue enrolls, takes the mutex and returns, and where a revoke marks the live store and does the same. */
  datatype Race = Race(enroll: nat, issue: nat, issued: nat, mark: nat, revoke: nat, revoked: nat)

  /** An issue of `r` and the only revoke of its principal; both return Ok before `k`, and nothing crashes meanwhile. */
  ghost predicate Both(ss: seq<State>, es: seq<Event>, c: Race, k: nat, r: Record) {
    && EnrolledAt(ss, es, c.enroll, k, r) && r.expires > ss[k].now
    && Persists(ss, es, c.issue, c.issued) && es[c.issue] == IssueLock(r) && c.issued < k
    && Persists(ss, es, c.revoke, c.revoked) && es[c.revoke] == RevokeLock(r.principal) && c.revoked < k
    && c.mark < k && es[c.mark] == RevokeInner(r.principal)
    && (forall m :: 0 <= m < k && es[m] == RevokeInner(r.principal) ==> m == c.mark)
    && (forall m :: 0 <= m < k && es[m] == RevokeLock(r.principal) ==> m == c.revoke)
  }

  lemma BothDecide(ss: seq<State>, es: seq<Event>, c: Race, k: nat, v: Dir, r: Record)
    requires Both(ss, es, c, k, r) && v in ss[k].disk.views
    ensures Authenticates(ss[k], r.hash) <==> c.mark < c.enroll
    ensures r in On(ss[k], v) <==> c.revoke < c.issue
  {
    LiveIff(ss, es, c.enroll, k, r);
    RestartFollowsMutexOrder(ss, es, c.issue, c.issued, c.revoke, c.revoked, k, v, r);
    assert RevokedBetween(es, c.enroll, k, r.principal) <==> c.enroll < c.mark;
  }

  /**
   The live store and a restart agree about the token exactly when the two operations reached
   the live store and the mutex in the same order.
   */
  lemma LiveAndRestartAgreeIff(ss: seq<State>, es: seq<Event>, c: Race, k: nat, v: Dir, r: Record)
    requires Both(ss, es, c, k, r) && v in ss[k].disk.views
    ensures (Authenticates(ss[k], r.hash) <==> r in On(ss[k], v))
       <==> (c.mark < c.enroll <==> c.revoke < c.issue)
  {
    BothDecide(ss, es, c, k, v, r);
  }

  /** A revoke ends a token, in the live store and for every restart, exactly when it comes second in both places. */
  lemma RevokeEndsTokenIff(ss: seq<State>, es: seq<Event>, c: Race, k: nat, r: Record)
    requires Both(ss, es, c, k, r)
    ensures !Authenticates(ss[k], r.hash) && (forall v :: v in ss[k].disk.views ==> r !in On(ss[k], v))
       <==> c.enroll < c.mark && c.issue < c.revoke
  {
    RunHashes(ss, es, k);
    forall v | v in ss[k].disk.views
      ensures Authenticates(ss[k], r.hash) <==> c.mark < c.enroll
      ensures r in On(ss[k], v) <==> c.revoke < c.issue
    {
      BothDecide(ss, es, c, k, v, r);
    }
    assert ss[k].disk.live in ss[k].disk.views;
  }

  /** A revoke that has yet to take the mutex has run its live half. */
  lemma {:induction false} RevokingBegan(ss: seq<State>, es: seq<Event>, k: nat, principal: Id)
    requires Run(ss, es) && k < |ss| && principal in ss[k].revoking
    ensures exists m :: 0 <= m < k && es[m] == RevokeInner(principal)
  {
    if k > 0 {
      assert Steps(ss, es, k - 1);
      if es[k - 1] != RevokeInner(principal) {
        RevokingBegan(ss, es, k - 1, principal);
      }
    }
  }

  /** And then the token is never accepted again, whatever happens next, restarts included. */
  lemma EndedForever(ss: seq<State>, es: seq<Event>, c: Race, k: nat, later: nat, r: Record)
    requires Both(ss, es, c, k, r) && c.enroll < c.mark && c.issue < c.revoke && c.revoked < later < |ss|
    ensures !Authenticates(ss[later], r.hash)
  {
    var x, a := c.mark, c.revoke;
    assert Steps(ss, es, a) && Steps(ss, es, x);
    RevokingBegan(ss, es, a, r.principal);
    assert ss[a].lock.Unlocked? && c.issued < a;
    ClockMonotone(ss, es, a, k);
    ClockMonotone(ss, es, x, k);
    IssuedSurvives(ss, es, c.issue, c.issued, a, r);
    assert EnrolledAt(ss, es, c.enroll, x, r) && !RevokedBetween(es, c.enroll, x, r.principal);
    HeldOrDead(ss, es, c.enroll, x, r);
    RevokedNeverAuthenticates(ss, es, x, a, c.revoked, later, r);
  }

  // ----- expiry -----

  /** Whatever carries the hash of `r` expires with it. */
  ghost predicate Fixed(s: State, r: Record) {
    && r.hash in s.used && r.hash != s.startup.hash
    && forall q: Record :: q.hash == r.hash && (q in s.store || q in s.pending || Listed(s, q)) ==> q.expires == r.expires
  }

  lemma FixedStep(s: State, e: Event, r: Record)
    requires HashesOk(s) && Enabled(s, e) && Fixed(s, r)
    ensures Fixed(Apply(s, e), r)
  {
    var t := Apply(s, e);
    forall q: Record | q.hash == r.hash && (q in t.store || q in t.pending || Listed(t, q))
      ensures q.expires == r.expires
    {
      if Listed(t, q) {
        ListedOrigin(s, e, q);
      } else if q in t.store {
        ExpiryOrigin(s, e, q);
      }
    }
  }

  /** Where a record of the live store has its expiry from. */
  lemma ExpiryOrigin(s: State, e: Event, q: Record)
    requires Enabled(s, e) && q in Apply(s, e).store
    ensures || (exists p :: p in s.store && p.hash == q.hash && p.expires == q.expires)
            || e == Enroll(q) || q == s.startup || Listed(Apply(s, e), q)
  {
    match e
    case Enroll(_) => InCompacted(s.store, s.now, q);
    case EnrollRefused => InCompacted(s.store, s.now, q);
    case RevokeInner(p) => InMarked(s.store, p, q);
    case _ =>
  }

  lemma FixedAtFirst(ss: seq<State>, es: seq<Event>, n: nat, r: Record)
    requires Run(ss, es) && Steps(ss, es, n) && es[n] == Enroll(r)
    ensures Fixed(ss[n + 1], r)
  {
    RunHashes(ss, es, n);
    forall q: Record | q.hash == r.hash && (q in ss[n + 1].store || q in ss[n + 1].pending || Listed(ss[n + 1], q))
      ensures q == r
    {
      assert RecordOk(ss[n], q);
      if Listed(ss[n + 1], q) {
        ListedOrigin(ss[n], es[n], q);
      } else if q in ss[n + 1].store {
        InCompacted(ss[n].store, ss[n].now, q);
      }
    }
  }

  lemma {:induction false} FixedForever(ss: seq<State>, es: seq<Event>, n: nat, k: nat, r: Record)
    requires Run(ss, es) && Steps(ss, es, n) && es[n] == Enroll(r) && n < k < |ss|
    ensures Fixed(ss[k], r)
    decreases k
  {
    if k == n + 1 {
      FixedAtFirst(ss, es, n, r);
    } else {
      assert Steps(ss, es, k - 1);
      FixedForever(ss, es, n, k - 1, r);
      RunHashes(ss, es, k - 1);
      FixedStep(ss[k - 1], es[k - 1], r);
    }
  }

  /** An expired token is never accepted, restarts included. */
  lemma ExpiredNeverAuthenticates(ss: seq<State>, es: seq<Event>, n: nat, k: nat, r: Record)
    requires Run(ss, es) && Steps(ss, es, n) && es[n] == Enroll(r) && n < k < |ss| && r.expires <= ss[k].now
    ensures !Authenticates(ss[k], r.hash)
  {
    FixedForever(ss, es, n, k, r);
  }
}
