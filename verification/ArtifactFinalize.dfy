/** Recovery with `finalize_staged`: what its Ok means, what repeating it does, and that it ends. */
module ArtifactFinalize {
  import opened Prelude
  import opened ArtifactStore
  import opened ArtifactSafety
  import opened ArtifactTasks
  import opened ArtifactTheorems

  /** For a published artifact `finalize_staged` accepts exactly its own digest and length. */
  lemma FinalizeAccepts(ss: seq<State>, es: seq<Event>, k: nat, key: Id, q: Fin)
    requires Run(ss, es) && k < |ss| && Final(q.artifact) in ss[k].live
    requires !ss[k].booting && key !in ss[k].fins && q.nonce in ss[k].announced && q.nonce !in ss[k].puts
    ensures Enabled(ss[k], FinalizePresent(key, q)) <==>
              DigestOf(ss[k], q.artifact) == Some(q.digest) && q.length == |q.digest.of|
  {
    RunInv(ss, es, k);
    assert ViewOk(ss[k], ss[k].live) && FinalOk(ss[k], ss[k].live, q.artifact);
  }

  // ----- what Ok means -----

  predicate EndsOk(a: FinEvent) {
    a.FinNewSynced? || a.FinOldSynced? || a.FinRemoveGone?
  }

  /** Published with the bytes that `q` names, and no staging directory of that nonce to come back. */
  ghost predicate Done(s: State, q: Fin) {
    && !s.booting && q.nonce in s.announced && q.nonce in s.used && q.nonce !in s.puts
    && Final(q.artifact) in s.live && Get(s.trees, s.live, q.artifact) == Some(q.digest.of)
    && DigestOf(s, q.artifact) == Some(q.digest) && q.length == |q.digest.of|
    && Staging(q.artifact, q.nonce) !in s.live
  }

  /** When a finalizer returns Ok its artifact is published with its bytes and its staging directory is gone. */
  lemma FinEndsPublished(ss: seq<State>, es: seq<Event>, k: nat, key: Id)
    requires Run(ss, es) && Steps(ss, es, k) && es[k].OnFin? && es[k].key == key && EndsOk(es[k].step)
    ensures Done(ss[k + 1], ss[k].fins[key])
  {
    RunInv(ss, es, k);
    assert FinOk(ss[k], key);
    PublishedIsWhole(ss, es, k + 1, ss[k + 1].live, ss[k].fins[key].artifact, Digest([]), 0) by {
      RunInv(ss, es, k + 1);
    }
  }

  lemma GoneKept(s: State, e: Event, id: ArtifactId, n: Id)
    requires Enabled(s, e) && !e.Crash?
    requires n in s.used && n !in s.puts && Staging(id, n) !in s.live
    ensures var t := Apply(s, e); n in t.used && n !in t.puts && Staging(id, n) !in t.live
  {
    EventChanges(s, e);
    if Staging(id, n) in Apply(s, e).live {
      StagingOrigin(s, ChangeOf(s, e), Apply(s, e), Staging(id, n));
    }
  }

  ghost predicate NoCrash(es: seq<Event>, i: nat, k: nat)
    requires k <= |es|
  {
    forall m :: i <= m < k ==> !es[m].Crash?
  }

  lemma {:induction false} GoneForever(ss: seq<State>, es: seq<Event>, i: nat, k: nat, id: ArtifactId, n: Id)
    requires Run(ss, es) && i <= k < |ss| && NoCrash(es, i, k)
    requires n in ss[i].used && n !in ss[i].puts && Staging(id, n) !in ss[i].live
    ensures n in ss[k].used && n !in ss[k].puts && Staging(id, n) !in ss[k].live
    decreases k
  {
    if i < k {
      assert Steps(ss, es, k - 1);
      GoneForever(ss, es, i, k - 1, id, n);
      GoneKept(ss[k - 1], es[k - 1], id, n);
    }
  }

  lemma {:induction false} AwakeAndAnnounced(ss: seq<State>, es: seq<Event>, i: nat, k: nat, n: Id)
    requires Run(ss, es) && i <= k < |ss| && NoCrash(es, i, k) && !ss[i].booting && n in ss[i].announced
    ensures !ss[k].booting && n in ss[k].announced
    decreases k
  {
    if i < k {
      assert Steps(ss, es, k - 1);
      AwakeAndAnnounced(ss, es, i, k - 1, n);
    }
  }

  lemma {:induction false} PublishedForever(ss: seq<State>, es: seq<Event>, i: nat, k: nat, id: ArtifactId)
    requires Run(ss, es) && i <= k < |ss| && NoCrash(es, i, k) && Final(id) in ss[i].live
    ensures Final(id) in ss[k].live
    decreases k
  {
    if i < k {
      assert Steps(ss, es, k - 1);
      PublishedForever(ss, es, i, k - 1, id);
      RunInv(ss, es, k - 1);
      PublishedNeverChanges(ss[k - 1], es[k - 1], id);
    }
  }

  /** Without a crash, what an Ok meant stays so. */
  lemma DoneForever(ss: seq<State>, es: seq<Event>, i: nat, k: nat, q: Fin)
    requires Run(ss, es) && i <= k < |ss| && NoCrash(es, i, k) && Done(ss[i], q)
    ensures Done(ss[k], q)
  {
    GoneForever(ss, es, i, k, q.artifact, q.nonce);
    AwakeAndAnnounced(ss, es, i, k, q.nonce);
    PublishedForever(ss, es, i, k, q.artifact);
    MeaningForever(ss, es, i, k, q.artifact);
    RunInv(ss, es, k);
    PublishedIsWhole(ss, es, k, ss[k].live, q.artifact, q.digest, q.length);
  }

  // ----- repeating it -----

  /** The finalizer `q` starts in `s` and returns Ok in `t` without having changed the file system. */
  ghost predicate Finalized(s: State, key: Id, q: Fin, t: State) {
    && Enabled(s, FinalizePresent(key, q))
    && Enabled(Apply(s, FinalizePresent(key, q)), OnFin(key, FinRemoveGone))
    && t == Apply(Apply(s, FinalizePresent(key, q)), OnFin(key, FinRemoveGone))
  }

  lemma FinalizesSilently(s: State, key: Id, q: Fin) returns (t: State)
    requires !s.booting && key !in s.fins && q.nonce in s.announced && q.nonce !in s.puts
    requires Has(s, Final(q.artifact)) && Validates(TreeAt(s, Final(q.artifact)), q.digest, q.length)
    requires Staging(q.artifact, q.nonce) !in s.live
    ensures Finalized(s, key, q, t) && t == s
  {
    var s1 := Apply(s, FinalizePresent(key, q));
    t := Apply(s1, OnFin(key, FinRemoveGone));
    assert t.fins == s.fins;
  }

  /**
   Once a finalizer has returned Ok, then until a crash the same call is accepted again at any
   time and returns Ok with nothing changed.
   */
  lemma FinalizeAgain(ss: seq<State>, es: seq<Event>, i: nat, k: nat, key: Id, again: Id)
    requires Run(ss, es) && Steps(ss, es, i) && es[i].OnFin? && es[i].key == key && EndsOk(es[i].step)
    requires i < k < |ss| && NoCrash(es, i, k) && again !in ss[k].fins
    ensures Finalized(ss[k], again, ss[i].fins[key], ss[k])
  {
    var q := ss[i].fins[key];
    FinEndsPublished(ss, es, i, key);
    DoneForever(ss, es, i + 1, k, q);
    RunInv(ss, es, k);
    FinalizeAccepts(ss, es, k, again, q);
    var t := FinalizesSilently(ss[k], again, q);
  }

  /** In between others, too: no later step of any finalizer of that nonce touches a directory entry or a file. */
  lemma NothingLeftToDo(ss: seq<State>, es: seq<Event>, i: nat, k: nat, key: Id, again: Id)
    requires Run(ss, es) && Steps(ss, es, i) && es[i].OnFin? && es[i].key == key && EndsOk(es[i].step)
    requires i < k && Steps(ss, es, k) && NoCrash(es, i, k) && es[k].OnFin? && es[k].key == again
    requires ss[k].fins[again].artifact == ss[i].fins[key].artifact && ss[k].fins[again].nonce == ss[i].fins[key].nonce
    ensures ss[k + 1].live == ss[k].live && ss[k + 1].trees == ss[k].trees
  {
    FinEndsPublished(ss, es, i, key);
    DoneForever(ss, es, i + 1, k, ss[i].fins[key]);
  }

  // ----- it ends -----

  lemma FinOnward(s: State, key: Id) returns (a: FinEvent)
    requires FinOk(s, key) && key in s.fins && FinalOk(s, s.live, s.fins[key].artifact)
    requires Staging(s.fins[key].artifact, s.fins[key].nonce) in s.live ==>
               Has(s, Staging(s.fins[key].artifact, s.fins[key].nonce))
    ensures FinEnabled(s, key, a) && !a.FinFault?
  {
    var q := s.fins[key];
    var n, f := Staging(q.artifact, q.nonce), Final(q.artifact);
    match q.pc
    case Publish => a := if f in s.live then FinBlocked else FinRename;
    case SyncNew => a := FinNewSynced;
    case Compare => a := FinCompared;
    case Remove => a := if n in s.live then FinTreeRemoved(false, false) else FinRemoveGone;
    case RemoveName => a := if n in s.live then FinNameRemoved else FinRemoveGone;
    case _ => a := FinOldSynced;
  }

  /** A finalizer that meets no I/O error always has a next step, whatever the others do. */
  lemma FinSucceeds(ss: seq<State>, es: seq<Event>, k: nat, key: Id)
    requires Run(ss, es) && k < |ss| && key in ss[k].fins
    ensures exists a :: FinEnabled(ss[k], key, a) && !a.FinFault?
  {
    RunInv(ss, es, k);
    var s, q := ss[k], ss[k].fins[key];
    assert FinOk(s, key) && ViewOk(s, s.live) && FinalOk(s, s.live, q.artifact);
    assert StagingOk(s, s.live, Staging(q.artifact, q.nonce));
    var a := FinOnward(s, key);
  }

  function OwnFinSteps(es: seq<Event>, key: Id, i: nat, k: nat): nat
    requires i <= k <= |es|
  {
    if i == k then 0
    else OwnFinSteps(es, key, i, k - 1) + if es[k - 1].OnFin? && es[k - 1].key == key then 1 else 0
  }

  predicate Starts(e: Event, key: Id) {
    (e.FinalizePresent? || e.FinalizeStaged?) && e.key == key
  }

  /** The finalizer `key` starts with event `i`, and until `k` it meets no I/O error and no crash comes. */
  ghost predicate FinUndisturbed(ss: seq<State>, es: seq<Event>, key: Id, i: nat, k: nat) {
    && Steps(ss, es, i) && Starts(es[i], key) && i < k <= |es|
    && forall m :: i < m < k ==> !es[m].Crash? && es[m] != OnFin(key, FinFault) && !Starts(es[m], key)
  }

  function FinLeft(s: State, key: Id): nat {
    if key in s.fins then Rank(s.fins[key].pc) else 0
  }

  lemma FinLeftAfter(s: State, e: Event, key: Id)
    requires Enabled(s, e) && !e.Crash? && e != OnFin(key, FinFault) && !Starts(e, key)
    requires key in s.fins ==> Rank(s.fins[key].pc) > 0
    ensures FinLeft(Apply(s, e), key) <= FinLeft(s, key)
    ensures e.OnFin? && e.key == key ==> FinLeft(Apply(s, e), key) < FinLeft(s, key)
  {
  }

  lemma FinRanked(ss: seq<State>, es: seq<Event>, k: nat, key: Id)
    requires Run(ss, es) && k < |ss| && key in ss[k].fins
    ensures Rank(ss[k].fins[key].pc) > 0
  {
    RunInv(ss, es, k);
    assert FinOk(ss[k], key);
  }

  /** However the others interleave, a finalizer that meets no I/O error makes at most six steps of its own. */
  lemma {:induction false} FinReturns(ss: seq<State>, es: seq<Event>, key: Id, i: nat, k: nat)
    requires Run(ss, es) && FinUndisturbed(ss, es, key, i, k)
    ensures OwnFinSteps(es, key, i + 1, k) + FinLeft(ss[k], key) <= 6
    decreases k
  {
    if k > i + 1 {
      assert Steps(ss, es, k - 1) && FinUndisturbed(ss, es, key, i, k - 1);
      FinReturns(ss, es, key, i, k - 1);
      if key in ss[k - 1].fins {
        FinRanked(ss, es, k - 1, key);
      }
      FinLeftAfter(ss[k - 1], es[k - 1], key);
    } else {
      assert Rank(Publish) == 6 && Rank(Remove) == 4;
    }
  }

  // ----- after a restart -----

  predicate Sweeps(e: Event) {
    e.Sweep? || e.SweepName?
  }

  /** A sweep step removes at most its own staging entry, and `SweepName` does remove it. */
  lemma SweepStep(s: State, e: Event)
    requires Enabled(s, e) && Sweeps(e)
    ensures e.name.Staging? && Apply(s, e).live == (if e.SweepName? then s.live - {e.name} else s.live)
    ensures Apply(s, e).booting == s.booting
  {
  }

  /** Once the sweep has come to a staging entry, it is gone; nothing else is. */
  lemma {:induction false} SweptAway(ss: seq<State>, es: seq<Event>, i: nat, k: nat, n: Name)
    requires Run(ss, es) && i <= k < |ss| && forall m :: i <= m < k ==> Sweeps(es[m])
    ensures n in ss[k].live <==> n in ss[i].live && forall m :: i <= m < k ==> es[m] != SweepName(n)
    decreases k
  {
    if i < k {
      assert Steps(ss, es, k - 1);
      SweptAway(ss, es, i, k - 1, n);
      SweepStep(ss[k - 1], es[k - 1]);
    }
  }

  /** A sweep that comes to every staging entry of a booting state leaves exactly the published entries. */
  lemma SweepLeavesPublished(ss: seq<State>, es: seq<Event>, i: nat, k: nat)
    requires Run(ss, es) && i <= k < |ss| && forall m :: i <= m < k ==> Sweeps(es[m])
    requires forall n :: n in ss[i].live && n.Staging? ==> exists m :: i <= m < k && es[m] == SweepName(n)
    ensures forall n :: n in ss[k].live <==> n in ss[i].live && n.Final?
  {
    forall n
      ensures n in ss[k].live <==> n in ss[i].live && n.Final?
    {
      SweptAway(ss, es, i, k, n);
      if m :| i <= m < k && es[m] == SweepName(n) {
        assert Steps(ss, es, m);
      }
    }
  }

  /**
   When the boot sweep has removed every staging directory, nothing prepared before it can be
   published any more: `finalize_staged` of an earlier nonce succeeds only if the artifact is
   published already, and then it changes nothing.
   */
  lemma SweptOnlyPublished(ss: seq<State>, es: seq<Event>, b: nat, k: nat, key: Id, q: Fin)
    requires Run(ss, es) && Steps(ss, es, b) && es[b] == Booted && forall m :: m in ss[b].live ==> m.Final?
    requires b < k < |ss| && NoCrash(es, b, k) && q.nonce in ss[b].announced
    ensures !Enabled(ss[k], FinalizeStaged(key, q))
    ensures Enabled(ss[k], FinalizePresent(key, q)) ==> Finalized(ss[k], key, q, ss[k])
  {
    RunInv(ss, es, b);
    GoneForever(ss, es, b, k, q.artifact, q.nonce);
    if Enabled(ss[k], FinalizePresent(key, q)) {
      var t := FinalizesSilently(ss[k], key, q);
    }
  }
}
