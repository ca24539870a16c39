/** What issue, revoke and reload guarantee in every run, and where they do not. */
module AuthorityTheorems {
  import opened Prelude
  import opened AuthorityRecords
  import opened AuthorityPersist

  lemma {:induction false} RunHashes(ss: seq<State>, es: seq<Event>, k: nat)
    requires Run(ss, es) && k < |ss|
    ensures HashesOk(ss[k]) && StoreOk(ss[k]) && forall r, q :: SameHash(ss[k], r, q)
  {
    if k > 0 {
      assert Steps(ss, es, k - 1);
      RunHashes(ss, es, k - 1);
      HashesKept(ss[k - 1], es[k - 1]);
      StoreKept(ss[k - 1], es[k - 1]);
      forall r, q
        ensures SameHash(ss[k], r, q)
      {
        SameHashKept(ss[k - 1], es[k - 1], r, q);
      }
    }
  }

  /** In every run a crash finds no file or a whole one, so `open` never sets the list aside. */
  lemma NeverTorn(ss: seq<State>, es: seq<Event>, k: nat, v: Dir)
    requires Run(ss, es) && k < |ss| && v in ss[k].disk.views
    ensures !IsTorn(AfterCrash(ss[k].disk.files), v)
  {
    RunHashes(ss, es, k);
    assert PathOk(ss[k], v);
  }

  /** Event `m` renamed a list into place, or is the sync `j` that completed one. */
  ghost predicate Wrote(ss: seq<State>, es: seq<Event>, j: nat, m: nat, list: seq<Record>) {
    m < |es| && m < |ss| && (m == j || es[m].Rename?) && ss[m].mem == list
  }

  /** Every list a crash can leave after a persist returned Ok is that persist's list or a later one's. */
  lemma {:induction false} NoOlderThanLastOk(ss: seq<State>, es: seq<Event>, j: nat, k: nat, v: Dir)
    requires Run(ss, es) && j < k < |ss| && es[j].DirSync? && v in ss[k].disk.views
    ensures exists m :: j <= m < k && Wrote(ss, es, j, m, On(ss[k], v))
    decreases k
  {
    assert Steps(ss, es, k - 1);
    RunHashes(ss, es, k - 1);
    if k == j + 1 {
      assert Wrote(ss, es, j, j, On(ss[k], v));
    } else {
      ViewOrigin(ss[k - 1], es[k - 1], v);
      if es[k - 1].Rename? && On(ss[k], v) == ss[k - 1].mem {
        assert Wrote(ss, es, j, k - 1, On(ss[k], v));
      } else {
        var w :| w in ss[k - 1].disk.views && On(ss[k], v) == On(ss[k - 1], w);
        NoOlderThanLastOk(ss, es, j, k - 1, w);
      }
    }
  }

  lemma {:induction false} RunGone(ss: seq<State>, es: seq<Event>, k: nat, h: Id)
    requires Run(ss, es) && k < |ss|
    ensures GoneOk(ss[k], h) && DeadOk(ss[k], h)
  {
    if k > 0 {
      assert Steps(ss, es, k - 1);
      RunGone(ss, es, k - 1, h);
      RunHashes(ss, es, k - 1);
      GoneKept(ss[k - 1], es[k - 1], h);
      DeadKept(ss[k - 1], es[k - 1], h);
    }
  }

  lemma {:induction false} RunKept(ss: seq<State>, es: seq<Event>, k: nat, r: Record)
    requires Run(ss, es) && k < |ss|
    ensures KeptOk(ss[k], r)
  {
    if k > 0 {
      assert Steps(ss, es, k - 1);
      RunKept(ss, es, k - 1, r);
      RunHashes(ss, es, k - 1);
      KeptKept(ss[k - 1], es[k - 1], r);
    }
  }

  // ----- one holding of the mutex -----

  /** Event `i` takes the mutex and event `j` returns Ok from the same `persist`. */
  ghost predicate Persists(ss: seq<State>, es: seq<Event>, i: nat, j: nat) {
    && Run(ss, es) && i < j < |es|
    && (es[i].IssueLock? || es[i].RevokeLock?)
    && es[j].DirSync?
    && forall k :: i < k <= j ==> ss[k].lock.Persisting?
  }

  lemma {:induction false} HeldList(ss: seq<State>, es: seq<Event>, i: nat, j: nat, k: nat)
    requires Persists(ss, es, i, j) && i < k <= j
    ensures ss[k].mem == ss[i + 1].mem
    ensures ss[i + 1].pushed <= ss[k].pushed
    decreases k
  {
    if k > i + 1 {
      assert Steps(ss, es, k - 1);
      HeldList(ss, es, i, j, k - 1);
    }
  }

  lemma {:induction false} GoneForever(ss: seq<State>, es: seq<Event>, i: nat, j: nat, h: Id)
    requires Run(ss, es) && i <= j < |ss| && h in ss[i].gone
    ensures h in ss[j].gone
    ensures h in ss[i].dead ==> h in ss[j].dead
    decreases j
  {
    if i < j {
      assert Steps(ss, es, j - 1);
      GoneForever(ss, es, i, j - 1, h);
      RunGone(ss, es, j - 1, h);
      RunHashes(ss, es, j - 1);
      GoneKept(ss[j - 1], es[j - 1], h);
      DeadKept(ss[j - 1], es[j - 1], h);
    }
  }

  /**
   A record on the list when a revoke of its principal took the mutex is on no list after
   that revoke returned Ok: not in memory, and not in anything any later crash can leave.
   */
  lemma RevokedStaysOut(ss: seq<State>, es: seq<Event>, i: nat, j: nat, k: nat, r: Record)
    requires Persists(ss, es, i, j) && j < k < |ss|
    requires es[i] == RevokeLock(r.principal) && r in ss[i].mem
    ensures r.hash in ss[j + 1].gone
    ensures forall q :: Listed(ss[k], q) ==> q.hash != r.hash
  {
    RunHashes(ss, es, i);
    assert RecordOk(ss[i], r) && Steps(ss, es, i) && Steps(ss, es, j);
    forall q | q in ss[i + 1].mem
      ensures q.hash != r.hash
    {
      AfterRevoke(ss[i].mem, r.principal, ss[i].now, q);
      assert SameHash(ss[i], r, q);
    }
    HeldList(ss, es, i, j, j);
    GoneForever(ss, es, j + 1, k, r.hash);
    RunGone(ss, es, k, r.hash);
  }

  lemma {:induction false} ClockMonotone(ss: seq<State>, es: seq<Event>, i: nat, j: nat)
    requires Run(ss, es) && i <= j < |ss|
    ensures ss[i].now <= ss[j].now
    decreases j
  {
    if i < j {
      assert Steps(ss, es, j - 1);
      ClockMonotone(ss, es, i, j - 1);
    }
  }

  lemma KeptStep(ss: seq<State>, es: seq<Event>, k: nat, r: Record)
    requires Run(ss, es) && Steps(ss, es, k)
    requires r in ss[k].kept && r.expires > ss[k + 1].now && es[k] != RevokeLock(r.principal)
    ensures r in ss[k + 1].kept
  {
    RunHashes(ss, es, k);
    RunKept(ss, es, k, r);
    KeptKept(ss[k], es[k], r);
  }

  lemma {:induction false} KeptWhile(ss: seq<State>, es: seq<Event>, i: nat, j: nat, r: Record)
    requires Run(ss, es) && i <= j < |ss| && r in ss[i].kept && r.expires > ss[j].now
    requires forall k :: i <= k < j ==> es[k] != RevokeLock(r.principal)
    ensures r in ss[j].kept
    decreases j
  {
    if i < j {
      assert Steps(ss, es, j - 1);
      ClockMonotone(ss, es, j - 1, j);
      KeptWhile(ss, es, i, j - 1, r);
      KeptStep(ss, es, j - 1, r);
    }
  }

  /**
   A record whose issue returned Ok is, until it expires or a revoke of its principal takes
   the mutex, on the list in memory and on every list a crash can leave.
   */
  lemma IssuedSurvives(ss: seq<State>, es: seq<Event>, i: nat, j: nat, k: nat, r: Record)
    requires Persists(ss, es, i, j) && j < k < |ss|
    requires es[i] == IssueLock(r) && r.expires > ss[k].now
    requires forall m :: j < m < k ==> es[m] != RevokeLock(r.principal)
    ensures r in ss[k].mem && forall v :: v in ss[k].disk.views ==> r in On(ss[k], v)
  {
    ClockMonotone(ss, es, i, k);
    RunHashes(ss, es, i);
    assert RecordOk(ss[i], r) && Steps(ss, es, i) && Steps(ss, es, j);
    AfterIssue(ss[i].mem, r, ss[i].now, r);
    HeldList(ss, es, i, j, j);
    KeptWhile(ss, es, j + 1, k, r);
    RunKept(ss, es, k, r);
  }

  /**
   Of an issue and a revoke of the same principal that both returned Ok, the order in which
   they took the mutex alone decides what a restart finds: the record is gone from every
   crash state if the issue came first and present in every one if it came second. When the
   token was enrolled, or rejected by the live store, plays no part.
   */
  lemma RestartFollowsMutexOrder(ss: seq<State>, es: seq<Event>, i: nat, j: nat, a: nat, b: nat, k: nat, v: Dir, r: Record)
    requires Persists(ss, es, i, j) && es[i] == IssueLock(r)
    requires Persists(ss, es, a, b) && es[a] == RevokeLock(r.principal)
    requires j < k < |ss| && b < k && v in ss[k].disk.views && r.expires > ss[k].now
    requires forall m :: 0 <= m < k && es[m] == RevokeLock(r.principal) ==> m == a
    ensures r in On(ss[k], v) <==> a < i
    ensures (exists q :: q in On(ss[k], v) && q.hash == r.hash) <==> a < i
  {
    assert Steps(ss, es, a);
    if a < i {
      IssuedSurvives(ss, es, i, j, k, r);
    } else {
      assert ss[a].lock.Unlocked? && j < a;
      ClockMonotone(ss, es, a, k);
      IssuedSurvives(ss, es, i, j, a, r);
      RevokedStaysOut(ss, es, a, b, k, r);
      forall q | q in On(ss[k], v)
        ensures q.hash != r.hash
      {
        assert Listed(ss[k], q);
      }
    }
  }

  // ----- authentication -----

  /** `authenticate` in the live store: the first record with the hash decides. */
  function Matched(store: seq<Record>, h: Id): (out: Option<Record>)
    ensures out.Some? ==> out.value in store && out.value.hash == h
    ensures out.None? ==> forall r :: r in store ==> r.hash != h
  {
    if store == [] then None
    else if store[0].hash == h then Some(store[0])
    else Matched(store[1..], h)
  }

  predicate Authenticates(s: State, h: Id) {
    var m := Matched(s.store, h);
    m.Some? && Alive(m.value, s.now)
  }

  /**
   A token that was enrolled before the live half of a revoke and listed before its locked
   half never authenticates once the revoke has returned Ok, whatever happens next,
   restarts included.
   */
  lemma RevokedNeverAuthenticates(ss: seq<State>, es: seq<Event>, a: nat, i: nat, j: nat, k: nat, r: Record)
    requires Persists(ss, es, i, j) && a < i && j < k < |ss|
    requires es[a] == RevokeInner(r.principal) && es[i] == RevokeLock(r.principal)
    requires (exists q :: q in ss[a].store && q.hash == r.hash && q.principal == r.principal) && r in ss[i].mem
    requires forall m :: a < m < j ==> !es[m].Crash?
    ensures !Authenticates(ss[k], r.hash)
  {
    RevokedStaysOut(ss, es, i, j, k, r);
    DeadSoFar(ss, es, a, j + 1, r.hash);
    GoneForever(ss, es, j + 1, k, r.hash);
    RunGone(ss, es, k, r.hash);
  }

  lemma {:induction false} DeadSoFar(ss: seq<State>, es: seq<Event>, a: nat, k: nat, h: Id)
    requires Run(ss, es) && a < k < |ss| && es[a].RevokeInner?
    requires exists q :: q in ss[a].store && q.hash == h && q.principal == es[a].principal
    requires forall m :: a < m < k ==> !es[m].Crash?
    ensures h in ss[k].dead
    decreases k
  {
    if a + 1 < k {
      assert Steps(ss, es, k - 1);
      DeadSoFar(ss, es, a, k - 1, h);
    }
  }

  /** A restart keeps exactly the records of the list it finds that are neither revoked nor expired. */
  lemma ReopenKeepsTheLive(s: State, v: Dir, r: Record)
    ensures r in Reopened(s, v).mem <==> r in Loaded(AfterCrash(s.disk.files), v) && !r.revoked && r.expires > s.now
    ensures r in Reopened(s, v).store && r != s.startup ==> !r.revoked && r.expires > s.now
  {
    InCompacted(Loaded(AfterCrash(s.disk.files), v), s.now, r);
  }

  /** A surviving record authenticates right after a restart exactly when it fits beside the startup credential. */
  lemma ReloadedAuthenticatesIff(ss: seq<State>, es: seq<Event>, k: nat, v: Dir, r: Record)
    requires Run(ss, es) && k < |ss| && v in ss[k].disk.views
    requires r in ss[k].kept && r.expires > ss[k].now
    ensures var t := Reopened(ss[k], v);
            && r in t.mem
            && (Authenticates(t, r.hash) <==> r in t.mem[..Fitting(t.capacity, 1, |t.mem|)])
  {
    RunHashes(ss, es, k);
    RunKept(ss, es, k, r);
    var s, e := ss[k], Crash(v);
    var t := Reopened(s, v);
    assert t == Apply(s, e);
    HashesKept(s, e);
    KeptKept(s, e, r);
    assert RecordOk(s, r) && RecordOk(t, r);
    var m := Matched(t.store, r.hash);
    if m.Some? {
      assert m.value in t.mem;
      SameHashKept(s, e, m.value, r);
    }
  }
}
