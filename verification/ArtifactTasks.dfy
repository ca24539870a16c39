/** What each put and each finalizer knows about the file system, in every run. */
module ArtifactTasks {
  import opened Prelude
  import opened ArtifactStore
  import opened ArtifactSafety

  /** What a put has done so far. */
  ghost predicate StageOk(s: State, k: Id, p: Put) {
    var n, f := Staging(p.artifact, k), Final(p.artifact);
    var payload, manifest := Some(Payload(p.extension, p.bytes)), Some(Manifest(p.extension, Digest(p.bytes), |p.bytes|));
    match p.pc
    case Look => n !in s.live && k !in s.announced
    case Mkdir => n !in s.live && k !in s.announced
    case WritePayload => Has(s, n) && TreeAt(s, n) == EMPTY && k !in s.announced
    case WriteManifest => Has(s, n) && TreeAt(s, n) == Tree(payload, None, false) && k !in s.announced
    case Seal => Has(s, n) && TreeAt(s, n) == Tree(payload, manifest, false) && k !in s.announced
    case Announce => Has(s, n) && TreeAt(s, n) == Tree(payload, manifest, true) && k !in s.announced
    case Ready => k in s.announced && Has(s, n) && Good(s, TreeAt(s, n), p.artifact)
    case Publish => k in s.announced && Has(s, n) && Good(s, TreeAt(s, n), p.artifact)
    case SyncNew => k in s.announced && n !in s.live && f in s.live
    case Compare => Has(s, n) && Good(s, TreeAt(s, n), p.artifact) && f in s.live
    case Remove => Has(s, n) && Good(s, TreeAt(s, n), p.artifact) && f in s.live
    case RemoveName => Has(s, n) && f in s.live
    case SyncOld => n !in s.live && f in s.live
    case DropTree => true
    case DropName => true
  }

  ghost predicate PutOk(s: State, k: Id) {
    k in s.puts ==>
      var p := s.puts[k];
      && k in s.used
      && DigestOf(s, p.artifact) == Some(Digest(p.bytes))
      && (forall v, m :: v in s.views && m in v && m.Staging? && m.nonce == k ==> m == Staging(p.artifact, k))
      && StageOk(s, k, p)
  }

  /** The states of a put that a finalizer can be in. */
  predicate Finalizes(pc: PutPc) {
    pc.Publish? || pc.SyncNew? || pc.Compare? || pc.Remove? || pc.RemoveName? || pc.SyncOld?
  }

  /** What a finalizer has established: its artifact is published, or its staging directory is whole. */
  ghost predicate FinOk(s: State, k: Id) {
    k in s.fins ==>
      var q := s.fins[k];
      var n, f := Staging(q.artifact, q.nonce), Final(q.artifact);
      && q.nonce in s.announced && q.nonce !in s.puts && Finalizes(q.pc)
      && DigestOf(s, q.artifact) == Some(q.digest) && q.length == |q.digest.of|
      && (f in s.live || (q.pc == Publish && Has(s, n) && Good(s, TreeAt(s, n), q.artifact)))
      && (q.pc == SyncNew || q.pc == SyncOld ==> n !in s.live)
  }

  ghost predicate Inv(s: State) {
    && TreesOk(s)
    && (forall k :: PutOk(s, k))
    && (forall k :: FinOk(s, k))
    && (s.booting ==> s.puts == map[] && s.fins == map[])
    && s.announced <= s.used
    && s.meant.Keys <= s.used
  }

  // ----- changes by someone else -----

  predicate About(c: Change, n: Name) {
    match c
    case Nothing => false
    case DirSynced => false
    case SetTree(m, _) => m == n
    case Unlinked(m) => m == n
    case Published(m) => m == n
    case Made(m, _) => m == n
  }

  lemma ForeignTree(s: State, c: Change, t: State, n: Name)
    requires TreesOk(s) && Moved(s, c, t) && n.Staging? && !About(c, n)
    ensures Has(s, n) <==> Has(t, n)
    ensures n in s.live <==> n in t.live
    ensures Has(s, n) ==> TreeAt(t, n) == TreeAt(s, n)
  {
    assert ViewOk(s, s.live) && StagingOk(s, s.live, n);
    match c
    case Nothing =>
    case DirSynced =>
    case SetTree(_, _) =>
    case Unlinked(_) =>
    case Published(_) =>
    case Made(_, _) =>
  }

  lemma FinalStays(s: State, c: Change, t: State, id: ArtifactId)
    requires Moved(s, c, t) && Final(id) in s.live
    ensures Final(id) in t.live && t.live[Final(id)] == s.live[Final(id)]
  {
    match c
    case Nothing =>
    case DirSynced =>
    case SetTree(_, _) =>
    case Unlinked(_) =>
    case Published(_) =>
    case Made(_, _) =>
  }

  /** No change gives nonce `k` a name it did not have, unless it makes that name. */
  lemma NamesOfNonce(s: State, c: Change, t: State, k: Id, n: Name)
    requires s.live in s.views && Moved(s, c, t)
    requires forall v, m :: v in s.views && m in v && m.Staging? && m.nonce == k ==> m == n
    requires c.Made? && c.name.nonce == k ==> c.name == n
    ensures forall v, m :: v in t.views && m in v && m.Staging? && m.nonce == k ==> m == n
  {
    forall v, m | v in t.views && m in v && m.Staging? && m.nonce == k
      ensures m == n
    {
      match c
      case Nothing =>
      case DirSynced =>
      case SetTree(_, _) =>
      case Unlinked(_) => assert v in s.views || m in s.live;
      case Published(_) => assert v in s.views || m in s.live;
      case Made(_, _) => assert v in s.views || m == c.name || m in s.live;
    }
  }

  lemma PutForeign(s: State, c: Change, t: State, k: Id)
    requires TreesOk(s) && Moved(s, c, t) && PutOk(s, k)
    requires k in t.puts ==> k in s.puts && s.puts[k] == t.puts[k] && !About(c, Staging(s.puts[k].artifact, k))
    requires c.Made? ==> c.name.nonce != k
    requires k in t.announced <==> k in s.announced
    ensures PutOk(t, k)
  {
    if k in t.puts {
      var p := s.puts[k];
      var n := Staging(p.artifact, k);
      ForeignTree(s, c, t, n);
      if Final(p.artifact) in s.live {
        FinalStays(s, c, t, p.artifact);
      }
      NamesOfNonce(s, c, t, k, n);
    }
  }

  lemma FinForeign(s: State, c: Change, t: State, k: Id)
    requires TreesOk(s) && Moved(s, c, t) && FinOk(s, k)
    requires k in t.fins ==> k in s.fins && s.fins[k] == t.fins[k] && s.fins[k].nonce !in t.puts
    requires s.announced <= t.announced
    requires k in s.fins && About(c, Staging(s.fins[k].artifact, s.fins[k].nonce)) ==>
               Final(s.fins[k].artifact) in t.live && !c.Made?
    ensures FinOk(t, k)
  {
    if k in t.fins {
      var q := s.fins[k];
      var n := Staging(q.artifact, q.nonce);
      if Final(q.artifact) in s.live {
        FinalStays(s, c, t, q.artifact);
      }
      if !About(c, n) {
        ForeignTree(s, c, t, n);
      }
    }
  }

  // ----- a put's own step -----

  lemma PutHarmless(s: State, k: Id, a: PutEvent)
    requires Inv(s) && PutEnabled(s, k, a)
    ensures Allowed(s, ChangeOfPut(s, k, a)) && Harmless(s, ChangeOfPut(s, k, a))
  {
    assert PutOk(s, k);
    var n := Staging(s.puts[k].artifact, k);
    assert ViewOk(s, s.live) && StagingOk(s, s.live, n);
  }

  /** A put never gains a second staging name, and its published directory stays. */
  ghost predicate NamesKept(s: State, k: Id, p: Put, t: State) {
    && (forall v, m :: v in t.views && m in v && m.Staging? && m.nonce == k ==> m == Staging(p.artifact, k))
    && FinalKept(s, t, p.artifact)
  }

  ghost predicate FinalKept(s: State, t: State, id: ArtifactId) {
    Final(id) in s.live ==> Final(id) in t.live
  }

  lemma PutNames(s: State, k: Id, a: PutEvent)
    requires Inv(s) && PutEnabled(s, k, a)
    ensures NamesKept(s, k, s.puts[k], PutStep(s, k, a))
  {
    assert PutOk(s, k);
    PutHarmless(s, k, a);
    var c, t := ChangeOfPut(s, k, a), PutStep(s, k, a);
    NamesOfNonce(s, c, t, k, Staging(s.puts[k].artifact, k));
    if Final(s.puts[k].artifact) in s.live {
      FinalStays(s, c, t, s.puts[k].artifact);
    }
  }

  lemma PutLooks(s: State, k: Id, a: PutEvent, t: State)
    requires PutEnabled(s, k, a) && t == PutStep(s, k, a)
    requires a.LookHit? || a.LookMiss? || a.MakeDir?
    requires StageOk(s, k, s.puts[k]) && DigestOf(s, s.puts[k].artifact) == Some(Digest(s.puts[k].bytes))
    requires FinalKept(s, t, s.puts[k].artifact)
    ensures k in t.puts ==> StageOk(t, k, t.puts[k])
  {
    match a
    case LookHit =>
    case LookMiss =>
    case MakeDir(_) =>
  }

  lemma PutBuilds(s: State, k: Id, a: PutEvent, t: State)
    requires PutEnabled(s, k, a) && t == PutStep(s, k, a)
    requires a.PayloadWritten? || a.ManifestWritten? || a.Sealed?
    requires StageOk(s, k, s.puts[k]) && DigestOf(s, s.puts[k].artifact) == Some(Digest(s.puts[k].bytes))
    requires FinalKept(s, t, s.puts[k].artifact)
    ensures k in t.puts ==> StageOk(t, k, t.puts[k])
  {
    match a
    case PayloadWritten =>
    case ManifestWritten =>
    case Sealed =>
  }

  lemma PutAnnounces(s: State, k: Id, a: PutEvent, t: State)
    requires PutEnabled(s, k, a) && t == PutStep(s, k, a)
    requires a.Announced? || a.Validate? || a.Rename?
    requires StageOk(s, k, s.puts[k]) && DigestOf(s, s.puts[k].artifact) == Some(Digest(s.puts[k].bytes))
    requires FinalKept(s, t, s.puts[k].artifact)
    ensures k in t.puts ==> StageOk(t, k, t.puts[k])
  {
    match a
    case Announced =>
    case Validate =>
    case Rename =>
  }

  lemma PutPublishes(s: State, k: Id, a: PutEvent, t: State)
    requires PutEnabled(s, k, a) && t == PutStep(s, k, a)
    requires a.RenameBlocked? || a.NewSynced? || a.Compared?
    requires StageOk(s, k, s.puts[k]) && DigestOf(s, s.puts[k].artifact) == Some(Digest(s.puts[k].bytes))
    requires FinalKept(s, t, s.puts[k].artifact)
    ensures k in t.puts ==> StageOk(t, k, t.puts[k])
  {
    match a
    case RenameBlocked =>
    case NewSynced =>
    case Compared =>
  }

  lemma PutRemoves(s: State, k: Id, a: PutEvent, t: State)
    requires PutEnabled(s, k, a) && t == PutStep(s, k, a)
    requires a.TreeRemoved? || a.NameRemoved? || a.OldSynced? || a.Fault?
    requires StageOk(s, k, s.puts[k]) && DigestOf(s, s.puts[k].artifact) == Some(Digest(s.puts[k].bytes))
    requires FinalKept(s, t, s.puts[k].artifact)
    ensures k in t.puts ==> StageOk(t, k, t.puts[k])
  {
    match a
    case TreeRemoved(_, _) =>
    case NameRemoved =>
    case OldSynced =>
    case Fault =>
  }

  lemma PutDrops(s: State, k: Id, a: PutEvent, t: State)
    requires PutEnabled(s, k, a) && t == PutStep(s, k, a)
    requires a.DropTreeRemoved? || a.DropNameRemoved? || a.DropNothing? || a.DropGaveUp?
    requires StageOk(s, k, s.puts[k]) && DigestOf(s, s.puts[k].artifact) == Some(Digest(s.puts[k].bytes))
    requires FinalKept(s, t, s.puts[k].artifact)
    ensures k in t.puts ==> StageOk(t, k, t.puts[k])
  {
    match a
    case DropTreeRemoved(_, _) =>
    case DropNameRemoved =>
    case DropNothing =>
    case DropGaveUp =>
  }

  lemma PutStage(s: State, k: Id, a: PutEvent, t: State)
    requires PutEnabled(s, k, a) && t == PutStep(s, k, a)
    requires StageOk(s, k, s.puts[k]) && DigestOf(s, s.puts[k].artifact) == Some(Digest(s.puts[k].bytes))
    requires FinalKept(s, t, s.puts[k].artifact)
    ensures k in t.puts ==> StageOk(t, k, t.puts[k])
  {
    if a.LookHit? || a.LookMiss? || a.MakeDir? {
      PutLooks(s, k, a, t);
    } else if a.PayloadWritten? || a.ManifestWritten? || a.Sealed? {
      PutBuilds(s, k, a, t);
    } else if a.Announced? || a.Validate? || a.Rename? {
      PutAnnounces(s, k, a, t);
    } else if a.RenameBlocked? || a.NewSynced? || a.Compared? {
      PutPublishes(s, k, a, t);
    } else if a.TreeRemoved? || a.NameRemoved? || a.OldSynced? || a.Fault? {
      PutRemoves(s, k, a, t);
    } else {
      PutDrops(s, k, a, t);
    }
  }

  lemma PutOwn(s: State, k: Id, a: PutEvent)
    requires Inv(s) && PutEnabled(s, k, a)
    ensures PutOk(PutStep(s, k, a), k)
  {
    assert PutOk(s, k);
    PutNames(s, k, a);
    PutStage(s, k, a, PutStep(s, k, a));
  }

  // ----- a finalizer's own step -----

  lemma FinHarmless(s: State, k: Id, a: FinEvent)
    requires Inv(s) && FinEnabled(s, k, a)
    ensures Allowed(s, ChangeOfFin(s, k, a)) && Harmless(s, ChangeOfFin(s, k, a))
  {
    assert FinOk(s, k);
    var n := Staging(s.fins[k].artifact, s.fins[k].nonce);
    assert ViewOk(s, s.live) && StagingOk(s, s.live, n);
  }

  lemma FinOwn(s: State, k: Id, a: FinEvent)
    requires FinOk(s, k) && FinEnabled(s, k, a)
    ensures FinOk(FinStep(s, k, a), k)
  {
    if Final(s.fins[k].artifact) in s.live {
      FinalStays(s, ChangeOfFin(s, k, a), FinStep(s, k, a), s.fins[k].artifact);
    }
    match a
    case FinRename =>
    case FinBlocked =>
    case FinNewSynced =>
    case FinCompared =>
    case FinTreeRemoved(_, _) =>
    case FinNameRemoved =>
    case FinRemoveGone =>
    case FinOldSynced =>
    case FinFault =>
  }

  lemma FinStarts(s: State, e: Event)
    requires Inv(s) && Enabled(s, e) && (e.FinalizePresent? || e.FinalizeStaged?)
    ensures FinOk(Apply(s, e), e.key)
  {
    assert ViewOk(s, s.live);
    assert FinalOk(s, s.live, e.fin.artifact);
    assert StagingOk(s, s.live, Staging(e.fin.artifact, e.fin.nonce));
  }

  // ----- every event -----

  /** Handing out a nonce is sound once its directory is sealed and its name synced. */
  lemma AnnounceKept(s: State, k: Id)
    requires Inv(s) && PutEnabled(s, k, Announced)
    ensures TreesOk(PutStep(s, k, Announced))
  {
    var t := PutStep(s, k, Announced);
    var n := Staging(s.puts[k].artifact, k);
    assert PutOk(s, k) && ViewOk(s, s.live);
    TreesKept(s, DirSynced, t.(announced := s.announced));
    forall id
      ensures FinalOk(t, t.live, id)
    {
      assert FinalOk(s, s.live, id);
    }
    forall m
      ensures StagingOk(t, t.live, m)
    {
      assert StagingOk(s, s.live, m);
    }
  }

  lemma TreesAfter(s: State, e: Event)
    requires Inv(s) && Enabled(s, e)
    ensures TreesOk(Apply(s, e))
  {
    var t := Apply(s, e);
    match e
    case Begin(_, _) => TreesKept(s, DirSynced, t);
    case OnPut(k, a) =>
      PutHarmless(s, k, a);
      if a.Announced? {
        AnnounceKept(s, k);
      } else {
        TreesKept(s, ChangeOfPut(s, k, a), t);
      }
    case FinalizePresent(_, _) => TreesKept(s, Nothing, t);
    case FinalizeStaged(_, _) => TreesKept(s, Nothing, t);
    case OnFin(k, a) =>
      FinHarmless(s, k, a);
      TreesKept(s, ChangeOfFin(s, k, a), t);
    case Crash(v) => TreesSurvive(s, t, v);
    case Sweep(n, x, y) =>
      assert ViewOk(s, s.live) && StagingOk(s, s.live, n);
      TreesKept(s, SetTree(n, Part(TreeAt(s, n), x, y)), t);
    case SweepName(n) => TreesKept(s, Unlinked(n), t);
    case Booted => TreesKept(s, Nothing, t);
  }

  lemma PutBesidePut(s: State, j: Id, a: PutEvent, k: Id)
    requires Inv(s) && PutEnabled(s, j, a) && j != k
    ensures PutOk(PutStep(s, j, a), k)
  {
    assert PutOk(s, k);
    PutHarmless(s, j, a);
    PutForeign(s, ChangeOfPut(s, j, a), PutStep(s, j, a), k);
  }

  lemma PutBesideFin(s: State, j: Id, a: FinEvent, k: Id)
    requires Inv(s) && FinEnabled(s, j, a)
    ensures PutOk(FinStep(s, j, a), k)
  {
    assert FinOk(s, j) && PutOk(s, k);
    FinHarmless(s, j, a);
    PutForeign(s, ChangeOfFin(s, j, a), FinStep(s, j, a), k);
  }

  lemma PutAfter(s: State, e: Event, k: Id)
    requires Inv(s) && Enabled(s, e)
    ensures PutOk(Apply(s, e), k)
  {
    var t := Apply(s, e);
    assert PutOk(s, k);
    match e
    case Begin(j, p) =>
      if j == k {
        PutBegins(s, j, p);
      } else {
        PutForeign(s, DirSynced, t, k);
      }
    case OnPut(j, a) =>
      if j == k {
        PutOwn(s, k, a);
      } else {
        PutBesidePut(s, j, a, k);
      }
    case FinalizePresent(_, _) => PutForeign(s, Nothing, t, k);
    case FinalizeStaged(_, _) => PutForeign(s, Nothing, t, k);
    case OnFin(j, a) => PutBesideFin(s, j, a, k);
    case Crash(_) =>
    case Sweep(_, _, _) =>
    case SweepName(_) =>
    case Booted =>
  }

  lemma PutBegins(s: State, k: Id, p: Put)
    requires Inv(s) && Enabled(s, Begin(k, p))
    ensures PutOk(Apply(s, Begin(k, p)), k)
  {
    assert ViewOk(s, s.live);
    forall m | m in s.live && m.Staging?
      ensures m.nonce != k
    {
      assert StagingOk(s, s.live, m);
    }
  }

  lemma FinAfter(s: State, e: Event, k: Id)
    requires Inv(s) && Enabled(s, e)
    ensures FinOk(Apply(s, e), k)
  {
    var t := Apply(s, e);
    assert FinOk(s, k);
    match e
    case Begin(_, _) => FinForeign(s, DirSynced, t, k);
    case OnPut(j, a) =>
      PutHarmless(s, j, a);
      FinForeign(s, ChangeOfPut(s, j, a), t, k);
    case FinalizePresent(j, _) =>
      if j == k {
        FinStarts(s, e);
      } else {
        FinForeign(s, Nothing, t, k);
      }
    case FinalizeStaged(j, _) =>
      if j == k {
        FinStarts(s, e);
      } else {
        FinForeign(s, Nothing, t, k);
      }
    case OnFin(j, a) =>
      if j == k {
        FinOwn(s, k, a);
      } else {
        FinBesideFin(s, j, a, k);
      }
    case Crash(v) =>
    case Sweep(_, _, _) =>
    case SweepName(_) =>
    case Booted =>
  }

  /** Two finalizers of one nonce: one removes staging only after the artifact is published. */
  lemma FinBesideFin(s: State, j: Id, a: FinEvent, k: Id)
    requires Inv(s) && FinEnabled(s, j, a) && j != k
    ensures FinOk(FinStep(s, j, a), k)
  {
    assert FinOk(s, j) && FinOk(s, k);
    FinHarmless(s, j, a);
    if Final(s.fins[j].artifact) in s.live {
      FinalStays(s, ChangeOfFin(s, j, a), FinStep(s, j, a), s.fins[j].artifact);
    }
    FinForeign(s, ChangeOfFin(s, j, a), FinStep(s, j, a), k);
  }

  lemma InvKept(s: State, e: Event)
    requires Inv(s) && Enabled(s, e)
    ensures Inv(Apply(s, e))
  {
    var t := Apply(s, e);
    TreesAfter(s, e);
    forall k
      ensures PutOk(t, k) && FinOk(t, k)
    {
      PutAfter(s, e, k);
      FinAfter(s, e, k);
    }
    SmallKept(s, e);
  }

  lemma SmallKept(s: State, e: Event)
    requires Inv(s) && Enabled(s, e)
    ensures var t := Apply(s, e);
            && (t.booting ==> t.puts == map[] && t.fins == map[])
            && t.announced <= t.used && t.meant.Keys <= t.used
  {
    match e
    case Begin(_, _) =>
    case OnPut(k, _) => assert PutOk(s, k);
    case FinalizePresent(_, _) =>
    case FinalizeStaged(_, _) =>
    case OnFin(_, _) =>
    case Crash(_) =>
    case Sweep(_, _, _) =>
    case SweepName(_) =>
    case Booted =>
  }
}
