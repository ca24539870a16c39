/** Invariants of artifact publication over every event. */
module ArtifactSafety {
  import opened Prelude
  import opened ArtifactStore

  // ----- what an event does to the file system -----

  function ChangeOf(s: State, e: Event): Change
    requires Enabled(s, e) && !e.Crash?
  {
    match e
    case Begin(_, _) => DirSynced
    case OnPut(k, a) => ChangeOfPut(s, k, a)
    case OnFin(k, a) => ChangeOfFin(s, k, a)
    case Sweep(n, x, y) => SetTree(n, Part(TreeAt(s, n), x, y))
    case SweepName(n) => Unlinked(n)
    case _ => Nothing
  }

  /** Every event but a crash makes one allowed change to the file system. */
  lemma EventChanges(s: State, e: Event)
    requires Enabled(s, e) && !e.Crash?
    ensures Allowed(s, ChangeOf(s, e))
    ensures var c, t := ChangeOf(s, e), Apply(s, e);
            t.trees == Trees(s, c) && t.live == Live(s, c) && t.views == Views(s, c)
  {
    match e
    case Begin(_, _) =>
    case OnPut(_, _) =>
    case FinalizePresent(_, _) =>
    case FinalizeStaged(_, _) =>
    case OnFin(_, _) =>
    case Sweep(_, _, _) =>
    case SweepName(_) =>
    case Booted =>
  }

  // ----- trees and names -----

  ghost predicate Incomplete(t: Tree) {
    t.payload.None? || t.manifest.None?
  }

  /** A published directory is whole, and nothing that is still being built or removed shares it. */
  ghost predicate FinalOk(s: State, v: Dir, id: ArtifactId) {
    Final(id) in v ==>
      && v[Final(id)] in s.trees
      && Good(s, s.trees[v[Final(id)]], id)
      && forall n :: n in s.live && n.Staging? ==> s.live[n] != v[Final(id)]
  }

  /** A staging directory has one name, and if its nonce was handed out it is whole or recognizably incomplete. */
  ghost predicate StagingOk(s: State, v: Dir, n: Name) {
    n.Staging? && n in v ==>
      && n.nonce in s.used
      && v[n] in s.trees
      && (n.nonce in s.announced ==> Good(s, s.trees[v[n]], n.artifact) || Incomplete(s.trees[v[n]]))
      && forall m :: m in s.live && m.Staging? && s.live[m] == v[n] ==> m == n
  }

  /** Distinct names in one directory state have distinct directories. */
  ghost predicate Injective(v: Dir) {
    forall n, m :: n in v && m in v && v[n] == v[m] ==> n == m
  }

  ghost predicate ViewOk(s: State, v: Dir) {
    && Injective(v)
    && (forall id :: FinalOk(s, v, id))
    && (forall n :: StagingOk(s, v, n))
  }

  ghost predicate TreesOk(s: State) {
    && s.live in s.views
    && forall v :: v in s.views ==> ViewOk(s, v)
  }

  /** What makes a change harmless. */
  ghost predicate Harmless(s: State, c: Change)
    requires Allowed(s, c)
  {
    match c
    case SetTree(n, t) => n.nonce in s.announced ==> Good(s, t, n.artifact) || Incomplete(t)
    case Published(n) => Has(s, n) && Good(s, TreeAt(s, n), n.artifact)
    case Made(n, _) => n.nonce in s.used && n.nonce !in s.announced
    case _ => true
  }

  /** A state after a change; the other fields may differ as long as no drawn id or meaning is lost. */
  ghost predicate Moved(s: State, c: Change, t: State) {
    && Allowed(s, c)
    && t.trees == Trees(s, c) && t.live == Live(s, c) && t.views == Views(s, c)
    && s.used <= t.used
    && forall u :: u in s.meant ==> u in t.meant && t.meant[u] == s.meant[u]
  }

  ghost predicate Changed(s: State, c: Change, t: State) {
    Moved(s, c, t) && t.announced == s.announced
  }

  lemma OldViewKept(s: State, c: Change, t: State, v: Dir)
    requires TreesOk(s) && Changed(s, c, t) && Harmless(s, c) && v in s.views
    ensures ViewOk(t, v)
  {
    assert ViewOk(s, v) && ViewOk(s, s.live);
    forall id
      ensures FinalOk(t, v, id)
    {
      assert FinalOk(s, v, id);
      OldFinalKept(s, c, t, v, id);
    }
    forall n
      ensures StagingOk(t, v, n)
    {
      assert StagingOk(s, v, n);
      OldStagingKept(s, c, t, v, n);
    }
  }

  lemma OldFinalKept(s: State, c: Change, t: State, v: Dir, id: ArtifactId)
    requires FinalOk(s, v, id) && Changed(s, c, t)
    ensures FinalOk(t, v, id)
  {
    match c
    case Nothing =>
    case DirSynced =>
    case SetTree(_, _) =>
    case Unlinked(_) =>
    case Published(_) =>
    case Made(_, _) =>
  }

  lemma OldStagingKept(s: State, c: Change, t: State, v: Dir, n: Name)
    requires StagingOk(s, v, n) && Changed(s, c, t) && Harmless(s, c)
    ensures StagingOk(t, v, n)
  {
    match c
    case Nothing =>
    case DirSynced =>
    case SetTree(_, _) =>
    case Unlinked(_) =>
    case Published(_) =>
    case Made(_, _) =>
  }

  lemma NewViewOk(s: State, c: Change, t: State)
    requires TreesOk(s) && Changed(s, c, t) && Harmless(s, c)
    ensures ViewOk(t, t.live)
  {
    assert ViewOk(s, s.live);
    OldViewKept(s, c, t, s.live);
    forall n | n in s.live
      ensures s.live[n] in s.trees
    {
      LiveInTrees(s, n);
    }
    forall id
      ensures FinalOk(t, t.live, id)
    {
      assert FinalOk(t, s.live, id) && FinalOk(s, s.live, id);
      NewFinalOk(s, c, t, id);
    }
    forall n
      ensures StagingOk(t, t.live, n)
    {
      assert StagingOk(t, s.live, n) && StagingOk(s, s.live, n);
      NewStagingOk(s, c, t, n);
    }
    assert Injective(t.live) by {
      NewInjective(s, c, t);
    }
  }

  lemma NewFinalOk(s: State, c: Change, t: State, id: ArtifactId)
    requires Changed(s, c, t) && Harmless(s, c) && Injective(s.live)
    requires FinalOk(t, s.live, id)
    ensures FinalOk(t, t.live, id)
  {
    match c
    case Nothing =>
    case DirSynced =>
    case SetTree(_, _) =>
    case Unlinked(_) =>
    case Published(_) =>
    case Made(_, _) =>
  }

  lemma NewStagingOk(s: State, c: Change, t: State, n: Name)
    requires Changed(s, c, t) && Harmless(s, c) && Injective(s.live)
    requires StagingOk(t, s.live, n) && (forall m :: m in s.live ==> s.live[m] in s.trees)
    ensures StagingOk(t, t.live, n)
  {
    match c
    case Nothing =>
    case DirSynced =>
    case SetTree(_, _) =>
    case Unlinked(_) =>
    case Published(_) =>
    case Made(_, _) =>
  }

  lemma NewInjective(s: State, c: Change, t: State)
    requires Changed(s, c, t) && Injective(s.live) && (forall m :: m in s.live ==> s.live[m] in s.trees)
    ensures Injective(t.live)
  {
    match c
    case Nothing =>
    case DirSynced =>
    case SetTree(_, _) =>
    case Unlinked(_) =>
    case Published(_) =>
    case Made(_, _) =>
  }

  lemma LiveInTrees(s: State, n: Name)
    requires TreesOk(s) && n in s.live
    ensures s.live[n] in s.trees
  {
    assert ViewOk(s, s.live);
    match n
    case Final(id) => assert FinalOk(s, s.live, id);
    case Staging(_, _) => assert StagingOk(s, s.live, n);
  }

  lemma TreesKept(s: State, c: Change, t: State)
    requires TreesOk(s) && Changed(s, c, t) && Harmless(s, c)
    ensures TreesOk(t)
  {
    NewViewOk(s, c, t);
    forall v | v in t.views
      ensures ViewOk(t, v)
    {
      if v in s.views {
        OldViewKept(s, c, t, v);
      }
    }
  }

  /** After a crash the chosen directory state is the only one. */
  lemma TreesSurvive(s: State, t: State, v: Dir)
    requires TreesOk(s) && v in s.views
    requires t.trees == AfterCrash(s.trees) && t.live == v && t.views == {v}
    requires t.used == s.used && t.announced == s.announced && t.meant == s.meant
    ensures TreesOk(t)
  {
    assert ViewOk(s, v);
    forall id
      ensures FinalOk(t, v, id)
    {
      assert FinalOk(s, v, id);
    }
    forall n
      ensures StagingOk(t, v, n)
    {
      assert StagingOk(s, v, n);
    }
  }
}
