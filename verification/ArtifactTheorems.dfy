/** What artifact publication guarantees in every run. */
module ArtifactTheorems {
  import opened Prelude
  import opened ArtifactStore
  import opened ArtifactSafety
  import opened ArtifactTasks

  lemma {:induction false} RunInv(ss: seq<State>, es: seq<Event>, k: nat)
    requires Run(ss, es) && k < |ss|
    ensures Inv(ss[k])
  {
    if k > 0 {
      assert Steps(ss, es, k - 1);
      RunInv(ss, es, k - 1);
      InvKept(ss[k - 1], es[k - 1]);
    }
  }

  /** A directory validates exactly when it holds the bytes of the digest and the manifest that goes with them. */
  lemma ValidatesExactly(t: Tree, d: Digest, length: nat)
    ensures Validates(t, d, length) <==>
              && t.payload.Some? && t.payload.value.bytes == d.of && length == |d.of|
              && t.manifest == Some(Manifest(t.payload.value.extension, d, length))
  {
  }

  /**
   In every run and after a crash at any step, a published directory validates for exactly
   one digest and length, those of the bytes that were put, and `get` returns those bytes.
   */
  lemma PublishedIsWhole(ss: seq<State>, es: seq<Event>, k: nat, v: Dir, id: ArtifactId, d: Digest, length: nat)
    requires Run(ss, es) && k < |ss| && v in ss[k].views && Final(id) in v
    ensures v[Final(id)] in AfterCrash(ss[k].trees)
    ensures Validates(AfterCrash(ss[k].trees)[v[Final(id)]], d, length)
       <==> DigestOf(ss[k], id) == Some(d) && length == |d.of|
    ensures DigestOf(ss[k], id).Some?
    ensures Get(AfterCrash(ss[k].trees), v, id) == Some(DigestOf(ss[k], id).value.of)
    ensures Get(ss[k].trees, v, id) == Some(DigestOf(ss[k], id).value.of)
  {
    RunInv(ss, es, k);
    assert ViewOk(ss[k], v) && FinalOk(ss[k], v, id);
  }

  /** No step of any put, finalizer or sweep changes or removes a published directory. */
  lemma PublishedNeverChanges(s: State, e: Event, id: ArtifactId)
    requires Inv(s) && Enabled(s, e) && !e.Crash? && Final(id) in s.live
    ensures var t := Apply(s, e);
            && Final(id) in t.live && t.live[Final(id)] == s.live[Final(id)]
            && s.live[Final(id)] in s.trees && s.live[Final(id)] in t.trees
            && t.trees[t.live[Final(id)]] == s.trees[s.live[Final(id)]]
  {
    EventChanges(s, e);
    assert ViewOk(s, s.live) && FinalOk(s, s.live, id);
  }

  lemma MeaningKept(s: State, e: Event, id: ArtifactId)
    requires Inv(s) && Enabled(s, e) && DigestOf(s, id).Some?
    ensures DigestOf(Apply(s, e), id) == DigestOf(s, id)
  {
    match e
    case Begin(_, _) =>
    case OnPut(_, _) =>
    case FinalizePresent(_, _) =>
    case FinalizeStaged(_, _) =>
    case OnFin(_, _) =>
    case Crash(_) =>
    case Sweep(_, _, _) =>
    case SweepName(_) =>
    case Booted =>
  }

  lemma {:induction false} MeaningForever(ss: seq<State>, es: seq<Event>, i: nat, j: nat, id: ArtifactId)
    requires Run(ss, es) && i <= j < |ss| && DigestOf(ss[i], id).Some?
    ensures DigestOf(ss[j], id) == DigestOf(ss[i], id)
    decreases j
  {
    if i < j {
      assert Steps(ss, es, j - 1);
      MeaningForever(ss, es, i, j - 1, id);
      RunInv(ss, es, j - 1);
      MeaningKept(ss[j - 1], es[j - 1], id);
    }
  }

  // ----- concurrent commits -----

  /** Steps left to a put that meets no I/O error. */
  function Rank(pc: PutPc): nat {
    match pc
    case Look => 13
    case Mkdir => 12
    case WritePayload => 11
    case WriteManifest => 10
    case Seal => 9
    case Announce => 8
    case Ready => 7
    case Publish => 6
    case Compare => 5
    case Remove => 4
    case RemoveName => 3
    case SyncOld => 2
    case SyncNew => 1
    case DropTree => 0
    case DropName => 0
  }

  predicate IsFailure(a: PutEvent) {
    a.Fault? || a.DropTreeRemoved? || a.DropNameRemoved? || a.DropNothing? || a.DropGaveUp?
  }

  /** The step that carries a put on when no I/O error comes in between. */
  function Onward(s: State, n: Id, inode: Id): PutEvent
    requires n in s.puts
  {
    var f := Final(s.puts[n].artifact);
    match s.puts[n].pc
    case Look => if f in s.live then LookHit else LookMiss
    case Mkdir => MakeDir(inode)
    case WritePayload => PayloadWritten
    case WriteManifest => ManifestWritten
    case Seal => Sealed
    case Announce => Announced
    case Ready => Validate
    case Publish => if f in s.live then RenameBlocked else Rename
    case Compare => Compared
    case Remove => TreeRemoved(false, false)
    case RemoveName => NameRemoved
    case SyncOld => OldSynced
    case _ => NewSynced
  }

  lemma OnwardEnabled(s: State, n: Id, inode: Id)
    requires PutOk(s, n) && n in s.puts && Rank(s.puts[n].pc) > 0 && inode !in s.trees
    requires FinalOk(s, s.live, s.puts[n].artifact)
    ensures PutEnabled(s, n, Onward(s, n, inode))
  {
  }

  lemma OnwardRank(s: State, n: Id, a: PutEvent)
    requires PutEnabled(s, n, a) && !IsFailure(a) && NextPc(a).Some?
    ensures 0 < Rank(NextPc(a).value) < Rank(s.puts[n].pc)
  {
  }

  /**
   A put that meets no I/O error always has a successful next step, whatever the others do:
   neither validation nor the refused rename ever fails it. Each such step brings it nearer
   its end.
   */
  lemma PutSucceeds(ss: seq<State>, es: seq<Event>, k: nat, n: Id, inode: Id)
    requires Run(ss, es) && k < |ss| && n in ss[k].puts && Rank(ss[k].puts[n].pc) > 0
    requires inode !in ss[k].trees
    ensures exists a :: PutEnabled(ss[k], n, a) && !IsFailure(a)
    ensures forall a :: PutEnabled(ss[k], n, a) && !IsFailure(a) && NextPc(a).Some? ==>
              0 < Rank(NextPc(a).value) < Rank(ss[k].puts[n].pc)
  {
    RunInv(ss, es, k);
    assert PutOk(ss[k], n) && ViewOk(ss[k], ss[k].live) && FinalOk(ss[k], ss[k].live, ss[k].puts[n].artifact);
    OnwardEnabled(ss[k], n, inode);
    assert !IsFailure(Onward(ss[k], n, inode));
    forall a | PutEnabled(ss[k], n, a) && !IsFailure(a) && NextPc(a).Some?
      ensures 0 < Rank(NextPc(a).value) < Rank(ss[k].puts[n].pc)
    {
      OnwardRank(ss[k], n, a);
    }
  }

  /** When a put returns Ok its artifact is published with its bytes and its staging directory is gone. */
  lemma PutEndsPublished(ss: seq<State>, es: seq<Event>, k: nat, n: Id)
    requires Run(ss, es) && Steps(ss, es, k) && es[k].OnPut? && es[k].nonce == n
    requires NextPc(es[k].action).None? && !IsFailure(es[k].action)
    ensures var p, t := ss[k].puts[n], ss[k + 1];
            Get(t.trees, t.live, p.artifact) == Some(p.bytes) && Staging(p.artifact, n) !in t.live
  {
    RunInv(ss, es, k);
    RunInv(ss, es, k + 1);
    assert PutOk(ss[k], n);
    var p := ss[k].puts[n];
    MeaningKept(ss[k], es[k], p.artifact);
    PublishedIsWhole(ss, es, k + 1, ss[k + 1].live, p.artifact, Digest([]), 0);
  }

  /** Nor does a put that failed leave its staging directory, unless removing it failed too. */
  lemma FailedPutLeavesNothing(ss: seq<State>, es: seq<Event>, k: nat, n: Id)
    requires Run(ss, es) && Steps(ss, es, k) && es[k].OnPut? && es[k].nonce == n
    requires NextPc(es[k].action).None? && !es[k].action.DropGaveUp?
    ensures Staging(ss[k].puts[n].artifact, n) !in ss[k + 1].live && n !in ss[k + 1].puts
  {
    RunInv(ss, es, k);
    assert PutOk(ss[k], n);
  }

  ghost predicate NoFailures(es: seq<Event>, k: nat)
    requires k <= |es|
  {
    forall i :: 0 <= i < k ==> !es[i].Crash? && !(es[i].OnPut? && es[i].action.Fault?)
  }

  /**
   Without crashes and I/O errors every staging directory belongs to a put that is still
   running; so once all have returned, nothing but published directories is left.
   */
  lemma {:induction false} NoStagingLeft(ss: seq<State>, es: seq<Event>, k: nat)
    requires Run(ss, es) && k < |ss| && NoFailures(es, k)
    ensures forall n :: n in ss[k].live && n.Staging? ==> n.nonce in ss[k].puts
    ensures forall n :: n in ss[k].puts ==> Rank(ss[k].puts[n].pc) > 0
    ensures ss[k].puts == map[] ==> forall n :: n in ss[k].live ==> n.Final?
  {
    if k > 0 {
      assert Steps(ss, es, k - 1);
      NoStagingLeft(ss, es, k - 1);
      RunInv(ss, es, k - 1);
      TidyStep(ss[k - 1], es[k - 1]);
    }
  }

  ghost predicate Tidy(s: State) {
    && (forall n :: n in s.live && n.Staging? ==> n.nonce in s.puts)
    && (forall n :: n in s.puts ==> Rank(s.puts[n].pc) > 0)
  }

  lemma EndsClean(s: State, k: Id, a: PutEvent)
    requires PutOk(s, k) && PutEnabled(s, k, a) && NextPc(a).None? && Rank(s.puts[k].pc) > 0
    ensures Staging(s.puts[k].artifact, k) !in s.live
  {
  }

  lemma StagingOrigin(s: State, c: Change, t: State, m: Name)
    requires Moved(s, c, t) && m.Staging? && m in t.live
    ensures m in s.live || (c.Made? && c.name == m)
  {
  }

  /** A put that ends well has no staging directory left; one that goes on keeps its own. */
  lemma TidyPut(s: State, k: Id, a: PutEvent, m: Name)
    requires Inv(s) && PutEnabled(s, k, a) && Tidy(s) && !a.Fault?
    requires m in PutStep(s, k, a).live && m.Staging?
    ensures m.nonce in PutStep(s, k, a).puts
  {
    assert PutOk(s, k);
    PutHarmless(s, k, a);
    StagingOrigin(s, ChangeOfPut(s, k, a), PutStep(s, k, a), m);
    if NextPc(a).None? {
      EndsClean(s, k, a);
    }
  }

  lemma TidyRank(s: State, k: Id, a: PutEvent, n: Id)
    requires PutEnabled(s, k, a) && Tidy(s) && !a.Fault? && n in PutStep(s, k, a).puts
    ensures Rank(PutStep(s, k, a).puts[n].pc) > 0
  {
    if n == k {
      OnwardRank(s, k, a);
    }
  }

  lemma TidyStep(s: State, e: Event)
    requires Inv(s) && Enabled(s, e) && Tidy(s)
    requires !e.Crash? && !(e.OnPut? && e.action.Fault?)
    ensures Tidy(Apply(s, e))
  {
    match e
    case Begin(_, _) =>
    case OnPut(k, a) =>
      forall m | m in PutStep(s, k, a).live && m.Staging?
        ensures m.nonce in PutStep(s, k, a).puts
      {
        TidyPut(s, k, a, m);
      }
      forall n | n in PutStep(s, k, a).puts
        ensures Rank(PutStep(s, k, a).puts[n].pc) > 0
      {
        TidyRank(s, k, a, n);
      }
    case FinalizePresent(_, _) =>
    case FinalizeStaged(_, _) =>
    case OnFin(_, _) => EventChanges(s, e);
    case Sweep(_, _, _) =>
    case SweepName(_) =>
    case Booted =>
  }

  // ----- whole runs -----

  /** How many of the events `[i, k)` are steps of put `n`. */
  function OwnSteps(es: seq<Event>, n: Id, i: nat, k: nat): nat
    requires i <= k <= |es|
  {
    if i == k then 0
    else OwnSteps(es, n, i, k - 1) + if es[k - 1].OnPut? && es[k - 1].nonce == n then 1 else 0
  }

  /** Put `n` begins with event `i`, and until `k` it meets no I/O error and no crash comes. */
  ghost predicate Undisturbed(ss: seq<State>, es: seq<Event>, n: Id, i: nat, k: nat) {
    && Steps(ss, es, i) && es[i].Begin? && es[i].nonce == n && i < k <= |es|
    && forall m :: i < m < k ==> !es[m].Crash? && es[m] != OnPut(n, Fault)
  }

  /** The steps that put `n` has left if it meets no I/O error; none once it is over. */
  function Left(s: State, n: Id): nat {
    if n in s.puts then Rank(s.puts[n].pc) else 0
  }

  ghost predicate OnItsWay(s: State, n: Id) {
    n in s.used && (n in s.puts ==> Rank(s.puts[n].pc) > 0)
  }

  lemma LeftAfter(s: State, e: Event, n: Id)
    requires Enabled(s, e) && !e.Crash? && e != OnPut(n, Fault) && OnItsWay(s, n)
    ensures OnItsWay(Apply(s, e), n) && Left(Apply(s, e), n) <= Left(s, n)
    ensures e.OnPut? && e.nonce == n ==> Left(Apply(s, e), n) < Left(s, n) && !IsFailure(e.action)
  {
    if e.OnPut? {
      LeftAfterStep(s, e.nonce, e.action, n);
    }
  }

  lemma LeftAfterStep(s: State, k: Id, a: PutEvent, n: Id)
    requires PutEnabled(s, k, a) && OnItsWay(s, n) && (k == n ==> !a.Fault?)
    ensures OnItsWay(PutStep(s, k, a), n) && Left(PutStep(s, k, a), n) <= Left(s, n)
    ensures k == n ==> Left(PutStep(s, k, a), n) < Left(s, n) && !IsFailure(a)
  {
    if k == n && NextPc(a).Some? {
      OnwardRank(s, n, a);
    }
  }

  /**
   However the others interleave, a put that meets no I/O error makes at most thirteen steps
   of its own, none of them a failure: its steps so far and those it has left stay within
   thirteen. With `PutSucceeds`, which gives it a next step, it returns Ok.
   */
  lemma {:induction false} PutReturns(ss: seq<State>, es: seq<Event>, n: Id, i: nat, k: nat)
    requires Run(ss, es) && Undisturbed(ss, es, n, i, k)
    ensures OwnSteps(es, n, i + 1, k) + Left(ss[k], n) <= 13 && OnItsWay(ss[k], n)
    ensures forall m :: i < m < k && es[m].OnPut? && es[m].nonce == n ==> !IsFailure(es[m].action)
    decreases k
  {
    if k > i + 1 {
      assert Steps(ss, es, k - 1) && Undisturbed(ss, es, n, i, k - 1);
      PutReturns(ss, es, n, i, k - 1);
      LeftAfter(ss[k - 1], es[k - 1], n);
    } else {
      assert Rank(Look) == 13;
    }
  }
}
