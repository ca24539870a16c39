/**
 Which published artifacts outlive crashes: exactly those that were there at some sync of
 the session directory, or in the state that some crash left.
 */
module ArtifactDurability {
  import opened Prelude
  import opened ArtifactStore
  import opened ArtifactSafety
  import opened ArtifactTasks
  import opened ArtifactTheorems
  import opened ArtifactFinalize

  // ----- durability -----

  /** Published in every directory state that a crash may leave. */
  ghost predicate Durable(s: State, id: ArtifactId) {
    forall v :: v in s.views ==> Final(id) in v
  }

  lemma DurableKept(s: State, e: Event, id: ArtifactId)
    requires Enabled(s, e) && s.live in s.views && Durable(s, id)
    ensures Durable(Apply(s, e), id)
  {
    if !e.Crash? {
      EventChanges(s, e);
    }
  }

  lemma {:induction false} DurableForever(ss: seq<State>, es: seq<Event>, i: nat, j: nat, id: ArtifactId)
    requires Run(ss, es) && i <= j < |ss| && Durable(ss[i], id)
    ensures Durable(ss[j], id)
    decreases j
  {
    if i < j {
      assert Steps(ss, es, j - 1);
      DurableForever(ss, es, i, j - 1, id);
      RunInv(ss, es, j - 1);
      DurableKept(ss[j - 1], es[j - 1], id);
    }
  }

  /** The put or finalizer that an event completes with a directory sync after publication. */
  predicate CommitsAt(s: State, e: Event, id: ArtifactId) {
    || (e.OnPut? && (e.action.NewSynced? || e.action.OldSynced?) && e.nonce in s.puts && s.puts[e.nonce].artifact == id)
    || (e.OnFin? && (e.step.FinNewSynced? || e.step.FinOldSynced?) && e.key in s.fins && s.fins[e.key].artifact == id)
  }

  /** The sync that completes a commit makes the artifact durable. */
  lemma CommitIsDurable(s: State, e: Event, id: ArtifactId)
    requires Inv(s) && Enabled(s, e) && CommitsAt(s, e, id)
    ensures DigestOf(s, id).Some? && Durable(Apply(s, e), id)
  {
    if e.OnPut? {
      assert PutOk(s, e.nonce);
    } else {
      assert FinOk(s, e.key);
    }
  }

  /**
   Once a commit or a finalize has synced the session directory after publication, `get`
   returns exactly the bytes put, at every later time and after any crashes.
   */
  lemma CommittedForever(ss: seq<State>, es: seq<Event>, i: nat, j: nat, id: ArtifactId)
    requires Run(ss, es) && i < j < |ss| && CommitsAt(ss[i], es[i], id)
    ensures DigestOf(ss[i], id).Some?
    ensures Durable(ss[j], id)
    ensures Get(ss[j].trees, ss[j].live, id) == Some(DigestOf(ss[i], id).value.of)
  {
    RunInv(ss, es, i);
    assert Steps(ss, es, i);
    CommitIsDurable(ss[i], es[i], id);
    MeaningForever(ss, es, i, j, id);
    DurableForever(ss, es, i + 1, j, id);
    RunInv(ss, es, j);
    PublishedIsWhole(ss, es, j, ss[j].live, id, DigestOf(ss[j], id).value, 0);
  }

  // ----- the exact condition -----

  /** Event `m` syncs the directory while the artifact is published, or is a crash that leaves it published. */
  ghost predicate Anchors(ss: seq<State>, es: seq<Event>, m: int, id: ArtifactId) {
    && Steps(ss, es, m)
    && if es[m].Crash? then Final(id) in es[m].view
       else ChangeOf(ss[m], es[m]).DirSynced? && Final(id) in ss[m].live
  }

  ghost predicate Anchored(ss: seq<State>, es: seq<Event>, k: nat, id: ArtifactId) {
    exists m :: 0 <= m < k && Anchors(ss, es, m, id)
  }

  lemma AnchorMakesDurable(ss: seq<State>, es: seq<Event>, m: nat, id: ArtifactId)
    requires Run(ss, es) && Anchors(ss, es, m, id)
    ensures Durable(ss[m + 1], id)
  {
    if !es[m].Crash? {
      EventChanges(ss[m], es[m]);
    }
  }

  /** Nothing else makes an artifact durable: other events keep every state a crash could leave. */
  lemma OnlyAnchorsMakeDurable(ss: seq<State>, es: seq<Event>, m: nat, id: ArtifactId)
    requires Run(ss, es) && Steps(ss, es, m) && Durable(ss[m + 1], id)
    ensures Durable(ss[m], id) || Anchors(ss, es, m, id)
  {
    if !es[m].Crash? {
      EventChanges(ss[m], es[m]);
    }
  }

  /** In every run an artifact is in all crash states exactly when an earlier event anchored it. */
  lemma {:induction false} DurableIff(ss: seq<State>, es: seq<Event>, k: nat, id: ArtifactId)
    requires Run(ss, es) && k < |ss|
    ensures Durable(ss[k], id) <==> Anchored(ss, es, k, id)
  {
    if m :| 0 <= m < k && Anchors(ss, es, m, id) {
      AnchorMakesDurable(ss, es, m, id);
      DurableForever(ss, es, m + 1, k, id);
    } else if k == 0 {
      assert map[] in ss[0].views;
    } else {
      assert Steps(ss, es, k - 1);
      DurableIff(ss, es, k - 1, id);
      if Durable(ss[k], id) {
        OnlyAnchorsMakeDurable(ss, es, k - 1, id);
      }
    }
  }

  /**
   A published artifact outlives every crash from now on if and only if the directory was
   synced while it was published, or a crash already left it published.
   */
  lemma SurvivesIff(ss: seq<State>, es: seq<Event>, k: nat, id: ArtifactId)
    requires Run(ss, es) && k < |ss| && Final(id) in ss[k].live
    ensures Anchored(ss, es, k, id) <==> forall v :: Enabled(ss[k], Crash(v)) ==>
              Get(Apply(ss[k], Crash(v)).trees, v, id) == Get(ss[k].trees, ss[k].live, id)
  {
    DurableIff(ss, es, k, id);
    RunInv(ss, es, k);
    forall v | v in ss[k].views && Final(id) in v
      ensures Get(AfterCrash(ss[k].trees), v, id) == Get(ss[k].trees, ss[k].live, id)
    {
      PublishedIsWhole(ss, es, k, v, id, Digest([]), 0);
      PublishedIsWhole(ss, es, k, ss[k].live, id, Digest([]), 0);
    }
    PublishedIsWhole(ss, es, k, ss[k].live, id, Digest([]), 0);
    forall v | v in ss[k].views && Final(id) !in v
      ensures Enabled(ss[k], Crash(v)) && Get(Apply(ss[k], Crash(v)).trees, v, id).None?
    {
    }
  }

  // ----- what callers may rely on -----

  /** A call that returns Ok without a sync of its own: a put that finds the artifact, a finalizer that finds no staging. */
  ghost predicate EndsSilently(ss: seq<State>, es: seq<Event>, k: int, id: ArtifactId) {
    && Steps(ss, es, k)
    && (|| (es[k].OnPut? && es[k].action.LookHit? && ss[k].puts[es[k].nonce].artifact == id)
        || (es[k].OnFin? && es[k].step.FinRemoveGone? && ss[k].fins[es[k].key].artifact == id))
  }

  /** A silent Ok is kept by every crash exactly when an event before it anchored the artifact. */
  lemma SilentOkIff(ss: seq<State>, es: seq<Event>, k: nat, id: ArtifactId)
    requires Run(ss, es) && EndsSilently(ss, es, k, id)
    ensures Final(id) in ss[k + 1].live
    ensures Durable(ss[k + 1], id) <==> Anchored(ss, es, k, id)
  {
    DurableIff(ss, es, k, id);
    RunInv(ss, es, k);
    if es[k].OnFin? {
      assert FinOk(ss[k], es[k].key);
    }
  }

  /** A put of an artifact that was published when the put began is durable, because a put begins with a sync. */
  lemma PublishedBeforePut(ss: seq<State>, es: seq<Event>, i: nat, k: nat, n: Id, p: Put)
    requires Run(ss, es) && Steps(ss, es, i) && i < k < |ss|
    requires es[i] == Begin(n, p) && Final(p.artifact) in ss[i].live
    ensures Durable(ss[k], p.artifact)
  {
    assert Anchors(ss, es, i, p.artifact);
    DurableIff(ss, es, k, p.artifact);
  }

  /**
   A put that finds its artifact and returns Ok is kept by every crash if and only if the
   artifact was published when the put began, or another call synced it in between.
   */
  lemma PutHitIff(ss: seq<State>, es: seq<Event>, i: nat, k: nat, n: Id, p: Put)
    requires Run(ss, es) && Steps(ss, es, i) && Steps(ss, es, k) && i < k
    requires es[i] == Begin(n, p) && es[k] == OnPut(n, LookHit) && ss[k].puts[n].artifact == p.artifact
    ensures Durable(ss[k + 1], p.artifact)
       <==> Final(p.artifact) in ss[i].live || exists m :: i < m < k && Anchors(ss, es, m, p.artifact)
  {
    SilentOkIff(ss, es, k, p.artifact);
    RunInv(ss, es, i);
    DurableIff(ss, es, i, p.artifact);
    if Final(p.artifact) in ss[i].live {
      PublishedBeforePut(ss, es, i, k + 1, n, p);
    }
  }

  // ----- an Ok that a crash takes back -----

  /**
   Whenever a content-addressed put is about to rename, a second put of the same bytes that
   starts now finds the published directory and returns Ok without a sync; a crash before
   the first put's sync then loses the artifact.
   */
  lemma EarlyOkCanVanish(ss: seq<State>, es: seq<Event>, k: nat, n: Id, j: Id) returns (s1: State, s2: State, s3: State)
    requires Run(ss, es) && k < |ss| && n in ss[k].puts && j !in ss[k].used
    requires var p := ss[k].puts[n]; p.pc == Publish && Final(p.artifact) !in ss[k].live && p.artifact.Content?
    ensures Enabled(ss[k], Begin(j, ss[k].puts[n].(pc := Look))) && s1 == Apply(ss[k], Begin(j, ss[k].puts[n].(pc := Look)))
    ensures Enabled(s1, OnPut(n, Rename)) && s2 == Apply(s1, OnPut(n, Rename))
    ensures Enabled(s2, OnPut(j, LookHit)) && s3 == Apply(s2, OnPut(j, LookHit))
    ensures Get(s3.trees, s3.live, ss[k].puts[n].artifact) == Some(ss[k].puts[n].bytes)
    ensures Enabled(s3, Crash(ss[k].live)) && !Durable(s3, ss[k].puts[n].artifact)
    ensures Get(Apply(s3, Crash(ss[k].live)).trees, ss[k].live, ss[k].puts[n].artifact) == None
  {
    RunInv(ss, es, k);
    var s, p := ss[k], ss[k].puts[n];
    assert PutOk(s, n);
    s1 := Apply(s, Begin(j, p.(pc := Look)));
    assert s1.puts[n] == p && s1.puts[j] == p.(pc := Look) && s1.live == s.live && s1.trees == s.trees;
    s2 := RenameNow(s1, n, j);
    s3 := Apply(s2, OnPut(j, LookHit));
  }

  /** After the rename the second put finds the directory, while a crash may still leave the old state. */
  lemma RenameNow(s: State, n: Id, j: Id) returns (t: State)
    requires n in s.puts && j in s.puts && j != n && s.puts[n].pc == Publish && s.puts[j] == s.puts[n].(pc := Look)
    requires var p := s.puts[n]; Has(s, Staging(p.artifact, n)) && Good(s, TreeAt(s, Staging(p.artifact, n)), p.artifact)
    requires var p := s.puts[n]; Final(p.artifact) !in s.live && DigestOf(s, p.artifact) == Some(Digest(p.bytes))
    requires s.live in s.views
    ensures Enabled(s, OnPut(n, Rename)) && t == Apply(s, OnPut(n, Rename))
    ensures Enabled(t, OnPut(j, LookHit)) && s.live in t.views
    ensures Get(t.trees, t.live, s.puts[n].artifact) == Some(s.puts[n].bytes)
  {
    t := Apply(s, OnPut(n, Rename));
    assert t.puts[j] == s.puts[j] && t.trees == s.trees;
  }

  /**
   A put that fails to sync after its rename returns an error. Finalizing its nonce then
   returns Ok without a sync, and any crash state from before the rename loses the artifact,
   although it was published before the finalizer began.
   */
  lemma FinalizeOkCanVanish(ss: seq<State>, es: seq<Event>, k: nat, n: Id, key: Id, v: Dir)
    returns (s2: State, s4: State)
    requires Run(ss, es) && k < |ss| && n in ss[k].puts && key !in ss[k].fins && v in ss[k].views
    requires ss[k].puts[n].pc == SyncNew && Final(ss[k].puts[n].artifact) !in v
    ensures Enabled(ss[k], OnPut(n, Fault)) && Enabled(Apply(ss[k], OnPut(n, Fault)), OnPut(n, DropNothing))
    ensures s2 == Apply(Apply(ss[k], OnPut(n, Fault)), OnPut(n, DropNothing))
    ensures var p := ss[k].puts[n]; Final(p.artifact) in s2.live && Finalized(s2, key, FinOf(n, p), s4)
    ensures Get(s4.trees, s4.live, ss[k].puts[n].artifact) == Some(ss[k].puts[n].bytes)
    ensures Enabled(s4, Crash(v)) && Get(Apply(s4, Crash(v)).trees, v, ss[k].puts[n].artifact) == None
  {
    RunInv(ss, es, k);
    var s, p := ss[k], ss[k].puts[n];
    assert PutOk(s, n) && ViewOk(s, s.live) && FinalOk(s, s.live, p.artifact);
    s2 := GivesUp(s, n);
    s4 := FinalizesSilently(s2, key, FinOf(n, p));
  }

  function FinOf(n: Id, p: Put): Fin {
    Fin(p.artifact, n, Digest(p.bytes), |p.bytes|, Remove)
  }

  lemma GivesUp(s: State, n: Id) returns (t: State)
    requires n in s.puts && s.puts[n].pc == SyncNew && Staging(s.puts[n].artifact, n) !in s.live
    ensures PutEnabled(s, n, Fault) && PutEnabled(PutStep(s, n, Fault), n, DropNothing)
    ensures t == PutStep(PutStep(s, n, Fault), n, DropNothing) && t == s.(puts := s.puts - {n})
  {
    var s1 := s.(puts := s.puts[n := s.puts[n].(pc := DropTree)]);
    assert PutStep(s, n, Fault) == s1;
    t := s.(puts := s.puts - {n});
    assert s1.puts - {n} == s.puts - {n};
  }

  // ----- a prepared artifact -----

  /** In every crash state the staging directory is there. */
  ghost predicate Prepared(s: State, n: Id) {
    n in s.puts && s.puts[n].pc == Ready ==> forall v :: v in s.views ==> Staging(s.puts[n].artifact, n) in v
  }

  lemma PreparedByPut(s: State, k: Id, a: PutEvent, n: Id)
    requires Inv(s) && PutEnabled(s, k, a) && Prepared(s, n)
    ensures Prepared(PutStep(s, k, a), n)
  {
    assert PutOk(s, n) && PutOk(s, k) && s.live in s.views;
  }

  lemma PreparedKept(s: State, e: Event, n: Id)
    requires Inv(s) && Enabled(s, e) && Prepared(s, n)
    ensures Prepared(Apply(s, e), n)
  {
    assert PutOk(s, n) && s.live in s.views;
    if e.OnPut? {
      PreparedByPut(s, e.nonce, e.action, n);
    } else if e.OnFin? {
      assert FinOk(s, e.key);
    }
  }

  /** A pending artifact that was handed out has its staging directory in every crash state until it is committed. */
  lemma {:induction false} PendingIsDurable(ss: seq<State>, es: seq<Event>, k: nat, n: Id, v: Dir)
    requires Run(ss, es) && k < |ss| && n in ss[k].puts && ss[k].puts[n].pc == Ready && v in ss[k].views
    ensures Staging(ss[k].puts[n].artifact, n) in v && Staging(ss[k].puts[n].artifact, n) in ss[k].live
  {
    RunPrepared(ss, es, k, n);
    RunInv(ss, es, k);
  }

  lemma {:induction false} RunPrepared(ss: seq<State>, es: seq<Event>, k: nat, n: Id)
    requires Run(ss, es) && k < |ss|
    ensures Prepared(ss[k], n)
  {
    if k > 0 {
      assert Steps(ss, es, k - 1);
      RunPrepared(ss, es, k - 1, n);
      RunInv(ss, es, k - 1);
      PreparedKept(ss[k - 1], es[k - 1], n);
    }
  }
}
