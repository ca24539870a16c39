/**
 Two runs in which the orders at the live store and at the mutex differ: a revoked token that a
 restart brings back, and a revoked token that is accepted until a restart.
 */
module AuthorityRevokeRace {
  import opened Prelude
  import opened AuthorityRecords
  import opened AuthorityPersist
  import opened AuthorityTheorems

  ghost predicate Reaches(s: State, es: seq<Event>, t: State)
    decreases |es|
  {
    if es == [] then s == t else Enabled(s, es[0]) && Reaches(Apply(s, es[0]), es[1..], t)
  }

  lemma {:induction false} ReachesThen(s: State, a: seq<Event>, t: State, b: seq<Event>, u: State)
    requires Reaches(s, a, t) && Reaches(t, b, u)
    ensures Reaches(s, a + b, u)
    decreases |a|
  {
    if a == [] {
      assert a + b == b;
    } else {
      ReachesThen(Apply(s, a[0]), a[1..], t, b, u);
      assert (a + b)[1..] == a[1..] + b;
    }
  }

  lemma ReachesStep(s: State, e: Event)
    requires Enabled(s, e)
    ensures Reaches(s, [e], Apply(s, e))
  {
    assert [e][1..] == [];
  }

  /** What the rest of the story needs to know of a quiet server. */
  ghost predicate Quiet(t: State, s: State, mem: seq<Record>) {
    && t.lock == Unlocked && t.mem == mem
    && t.now == s.now && t.startup == s.startup && t.capacity == s.capacity
    && t.disk.live.path.Some? && t.disk.live.tmp.None? && t.disk.live in t.disk.views
    && t.disk.live.path.value in t.disk.files
    && t.disk.files[t.disk.live.path.value] == File(Whole(mem), true)
  }

  /** A `persist` that nothing disturbs. */
  lemma PersistReaches(s: State, f: Id) returns (es: seq<Event>, t: State)
    requires At(s, Compacting) && s.lock.json == s.mem
    requires s.disk.live.tmp.None? && f !in s.disk.files
    ensures Reaches(s, es, t) && Quiet(t, s, s.mem)
    ensures t.store == s.store && t.pending == s.pending && t.revoking == s.revoking
    ensures t.disk.files.Keys == s.disk.files.Keys + {f}
  {
    var s1 := Apply(s, Create(f));
    var s2 := Apply(s1, Write);
    var s3 := Apply(s2, Sync);
    var s4 := Apply(s3, Rename);
    t := Apply(s4, DirSync);
    es := [Create(f), Write, Sync, Rename, DirSync];
    assert es[4..][1..] == [] && es[3..][1..] == es[4..] && es[2..][1..] == es[3..] && es[1..][1..] == es[2..];
    assert Reaches(s4, es[4..], t);
    assert Reaches(s3, es[3..], t);
    assert Reaches(s2, es[2..], t);
    assert Reaches(s1, es[1..], t);
  }

  ghost predicate Fits(s: State, r: Record) {
    && Init(s) && s.capacity >= 2 && r.hash != s.startup.hash
    && !r.revoked && r.expires > s.now && !s.startup.revoked && s.startup.expires > s.now
  }

  /** The token is enrolled, then its principal is revoked in the live store. */
  lemma EnrollThenRevokeInner(s: State, r: Record) returns (es: seq<Event>, t: State)
    requires Fits(s, r)
    ensures Reaches(s, es, t)
    ensures t == s.(store := t.store, pending := {r}, used := t.used, revoking := {r.principal}, dead := t.dead)
    ensures t.store == [MarkedOne(s.startup, r.principal), r.(revoked := true)]
  {
    CompactedLength(s.store, s.now);
    assert s.store[0] in s.store && Compacted(s.store, s.now) == s.store;
    var s1 := Apply(s, Enroll(r));
    assert s1.store == [s.startup, r];
    t := Apply(s1, RevokeInner(r.principal));
    es := [Enroll(r)] + [RevokeInner(r.principal)];
    ReachesStep(s, Enroll(r));
    ReachesStep(s1, RevokeInner(r.principal));
    ReachesThen(s, [Enroll(r)], s1, [RevokeInner(r.principal)], t);
  }

  /** Then the revoke takes the mutex and persists. */
  lemma EnrollThenRevoke(s: State, r: Record) returns (es: seq<Event>, t: State)
    requires Fits(s, r)
    ensures Reaches(s, es, t) && Quiet(t, s, [])
    ensures t.pending == {r} && t.store == [MarkedOne(s.startup, r.principal), r.(revoked := true)]
    ensures t.disk.files.Keys == {Id(0)}
  {
    var first, s2 := EnrollThenRevokeInner(s, r);
    var e := RevokeLock(r.principal);
    var s3 := Apply(s2, e);
    assert Marked([], r.principal) == [] && s3.mem == [];
    ReachesStep(s2, e);
    ReachesThen(s, first, s2, [e], s3);
    var persist;
    persist, t := PersistReaches(s3, Id(0));
    es := first + [e] + persist;
    ReachesThen(s, first + [e], s3, persist, t);
  }

  /** Then the issue takes the mutex and persists. */
  lemma IssueAfter(s: State, t: State, r: Record) returns (es: seq<Event>, u: State)
    requires Fits(s, r) && Quiet(t, s, []) && t.pending == {r} && t.disk.files.Keys == {Id(0)}
    ensures Reaches(t, es, u) && Quiet(u, s, [r]) && u.store == t.store
  {
    var t1 := Apply(t, IssueLock(r));
    CompactedLength([r], t.now);
    assert [] + [r] == [r] && t1.mem == [r];
    ReachesStep(t, IssueLock(r));
    var persist;
    persist, u := PersistReaches(t1, Id(1));
    es := [IssueLock(r)] + persist;
    ReachesThen(t, [IssueLock(r)], t1, persist, u);
  }

  lemma RestartAccepts(s: State, u: State, r: Record)
    requires Fits(s, r) && Quiet(u, s, [r])
    ensures Authenticates(Reopened(u, u.disk.live), r.hash)
  {
    var after := Reopened(u, u.disk.live);
    CompactedLength([r], u.now);
    assert after.mem == [r];
    assert after.store == [s.startup, r] && after.store[1..] == [r];
  }

  /**
   For every token: it is enrolled, its principal is revoked and that revoke returns Ok
   before the issue takes the mutex; the live store then rejects the token, and a restart
   accepts it again.
   */
  lemma RevokedTokenReturns(s: State, r: Record) returns (es: seq<Event>, before: State)
    requires Fits(s, r)
    ensures Reaches(s, es, before) && Enabled(before, Crash(before.disk.live))
    ensures !Authenticates(before, r.hash)
    ensures Authenticates(Apply(before, Crash(before.disk.live)), r.hash)
  {
    var first, t := EnrollThenRevoke(s, r);
    var second, u := IssueAfter(s, t, r);
    ReachesThen(s, first, t, second, u);
    es, before := first + second, u;
    assert before.store[1..] == [r.(revoked := true)];
    RestartAccepts(s, u, r);
  }

  // ----- the other way round -----

  /** The principal is revoked in the live store, then the token is enrolled. */
  lemma RevokeInnerThenEnroll(s: State, r: Record) returns (es: seq<Event>, t: State)
    requires Fits(s, r)
    ensures Reaches(s, es, t)
    ensures t == s.(store := t.store, pending := {r}, used := t.used, revoking := {r.principal}, dead := t.dead)
    ensures t.store == [r] || t.store == [s.startup, r]
  {
    var p := r.principal;
    var s1 := Apply(s, RevokeInner(p));
    assert s1.store == [MarkedOne(s.startup, p)];
    assert s1.store[..0] == [] && Compacted([], s.now) == [];
    t := Apply(s1, Enroll(r));
    es := [RevokeInner(p)] + [Enroll(r)];
    ReachesStep(s, RevokeInner(p));
    ReachesStep(s1, Enroll(r));
    ReachesThen(s, [RevokeInner(p)], s1, [Enroll(r)], t);
  }

  /** A lock event and the `persist` that follows it. */
  lemma LockAndPersist(s: State, e: Event, mem: seq<Record>, f: Id) returns (es: seq<Event>, t: State)
    requires Enabled(s, e) && (e.IssueLock? || e.RevokeLock?) && Apply(s, e).mem == mem
    requires s.disk.live.tmp.None? && f !in s.disk.files
    ensures Reaches(s, es, t) && Quiet(t, s, mem) && t.store == s.store
    ensures t.revoking == Apply(s, e).revoking && t.disk.files.Keys == s.disk.files.Keys + {f}
  {
    var s1 := Apply(s, e);
    ReachesStep(s, e);
    var persist;
    persist, t := PersistReaches(s1, f);
    es := [e] + persist;
    ReachesThen(s, [e], s1, persist, t);
  }

  /** Then the issue takes the mutex before the revoke does, and both persist. */
  lemma IssueThenRevokeLock(s: State, t: State, r: Record) returns (es: seq<Event>, u: State)
    requires Fits(s, r) && t.lock == Unlocked && t.mem == [] && t.pending == {r} && t.revoking == {r.principal}
    requires t.now == s.now && t.startup == s.startup && t.capacity == s.capacity && t.disk == s.disk
    ensures Reaches(t, es, u) && Quiet(u, s, []) && u.store == t.store
  {
    CompactedLength([r], t.now);
    assert [] + [r] == [r];
    var first, t1 := LockAndPersist(t, IssueLock(r), [r], Id(0));
    var gone := Compacted(Marked([r], r.principal), t1.now);
    assert Marked([r], r.principal)[..0] == [] && Compacted([], t1.now) == [] && gone == [];
    var second;
    second, u := LockAndPersist(t1, RevokeLock(r.principal), [], Id(1));
    es := first + second;
    ReachesThen(t, first, t1, second, u);
  }

  /**
   For every token: its principal is revoked in the live store, then it is enrolled, and the
   issue takes the mutex before the revoke. Both return Ok; the live store goes on accepting
   the token, and only a restart rejects it.
   */
  lemma LiveTokenOutlivesRevoke(s: State, r: Record) returns (es: seq<Event>, before: State)
    requires Fits(s, r)
    ensures Reaches(s, es, before) && Enabled(before, Crash(before.disk.live))
    ensures Authenticates(before, r.hash)
    ensures !Authenticates(Apply(before, Crash(before.disk.live)), r.hash)
  {
    var first, t := RevokeInnerThenEnroll(s, r);
    var second, u := IssueThenRevokeLock(s, t, r);
    ReachesThen(s, first, t, second, u);
    es, before := first + second, u;
    assert t.store == [s.startup, r] ==> t.store[1..] == [r];
    RestartRejects(s, u, r);
  }

  lemma RestartRejects(s: State, u: State, r: Record)
    requires Fits(s, r) && Quiet(u, s, [])
    ensures !Authenticates(Reopened(u, u.disk.live), r.hash)
  {
    var after := Reopened(u, u.disk.live);
    assert after.mem == [];
    assert after.store == [s.startup] && after.store[1..] == [];
  }
}
