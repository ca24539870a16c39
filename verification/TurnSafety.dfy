/** What every step of a prompt turn keeps, and what holds in all its runs. */
module TurnSafety {
  import opened Prelude
  import opened PromptTurn

  // ----- the inductive invariant -----

  predicate LeaseInv(t: Turn) {
    && (t.core.active <==> t.leases != map[])
    && (forall p, q :: p in t.leases && q in t.leases ==> p == q)
    && (forall p :: p in t.leases ==> t.leases[p] < t.core.channels)
    && (forall p :: p in t.leases ==>
          t.core.cancel == Some(t.leases[p]) || (t.core.cancel.None? && t.core.closed && Cancelled(t, p)))
    && (!t.core.active ==> t.core.cancel.None?)
    && (t.core.closed ==> forall p :: p in t.leases ==> Cancelled(t, p))
    && (forall ch :: ch in t.core.signalled ==> ch < t.core.channels)
    && t.leases.Keys !! t.unannounced
  }

  /** A parked task has a lease that will notify, a notify on its way, or one it has not consumed. */
  predicate WakeUpPending(t: Turn, seen: int) {
    t.leases != map[] || t.unannounced != {} || seen < t.core.notifications
  }

  predicate WaitInv(t: Turn) {
    && (forall w :: w in t.waiters && t.waiters[w].Parked? ==> WakeUpPending(t, t.waiters[w].seen))
    && (forall w :: w in t.waiters && (t.waiters[w].Parked? || t.waiters[w].Armed?) ==>
          t.waiters[w].seen <= t.core.notifications)
  }

  predicate Inv(t: Turn) {
    LeaseInv(t) && WaitInv(t)
  }

  lemma LeaseInvKept(t: Turn, e: Event)
    requires LeaseInv(t) && Enabled(t, e)
    ensures LeaseInv(Apply(t, e))
  {
    var t' := Apply(t, e);
    match e
    case Begin(p) =>
      if BeginResult(t.core).Ok? {
        assert t.leases == map[];
        assert p in t'.leases;
      }
    case DropState(p) =>
      forall q | q in t.leases
        ensures q == p
      {
      }
      assert t'.leases == map[];
    case _ =>
  }

  lemma WaitInvKept(t: Turn, e: Event)
    requires Inv(t) && Enabled(t, e)
    ensures WaitInv(Apply(t, e))
  {
    var t' := Apply(t, e);
    match e
    case Begin(p) =>
      if BeginResult(t.core).Ok? {
        assert p in t'.leases;
      }
    case DropState(p) => assert p in t'.unannounced;
    case _ =>
  }

  lemma {:induction false} RunInv(ts: seq<Turn>, es: seq<Event>, k: nat)
    requires Run(ts, es) && k < |ts|
    ensures Inv(ts[k])
  {
    if k > 0 {
      assert Steps(ts, es, k - 1);
      RunInv(ts, es, k - 1);
      LeaseInvKept(ts[k - 1], es[k - 1]);
      WaitInvKept(ts[k - 1], es[k - 1]);
    }
  }

  lemma AtMostOneKey(m: map<Id, int>)
    requires forall p, q :: p in m && q in m ==> p == q
    ensures |m| <= 1 && (m != map[] <==> |m| == 1)
  {
    if p :| p in m {
      assert m.Keys == {p};
      assert |m| == |m.Keys|;
    }
  }

  /** In all runs at most one lease is outstanding, and it exists exactly while the turn is active. */
  lemma AtMostOneLease(ts: seq<Turn>, es: seq<Event>, k: nat)
    requires Run(ts, es) && k < |ts|
    ensures |ts[k].leases| <= 1
    ensures ts[k].core.active <==> |ts[k].leases| == 1
  {
    RunInv(ts, es, k);
    AtMostOneKey(ts[k].leases);
  }

  /** Once closed, a turn stays closed, admits no further lease, and every lease left sees cancellation. */
  lemma {:induction false} ClosedForever(ts: seq<Turn>, es: seq<Event>, i: nat, j: nat)
    requires Run(ts, es) && i <= j < |ts|
    requires ts[i].core.closed
    ensures ts[j].core.closed
    ensures ts[j].leases.Keys <= ts[i].leases.Keys
    ensures forall p :: p in ts[j].leases ==> Cancelled(ts[j], p)
    decreases j
  {
    RunInv(ts, es, j);
    if i < j {
      assert Steps(ts, es, j - 1);
      ClosedForever(ts, es, i, j - 1);
    }
  }

  /**
   A cancellation seen by a lease was sent while that very lease was outstanding: some
   `cancel` or `close` ran strictly between the lease's `begin` and the moment it is seen.
   */
  lemma {:induction false} CancelNeverReachesALaterTurn(ts: seq<Turn>, es: seq<Event>, b: nat, j: nat, p: Id)
    requires Run(ts, es) && b < j < |ts|
    requires es[b] == Begin(p) && BeginResult(ts[b].core).Ok?
    requires forall k :: b < k <= j ==> p in ts[k].leases
    requires Cancelled(ts[j], p)
    ensures exists k :: b < k < j && (es[k] == Cancel || es[k] == Close)
    decreases j
  {
    RunInv(ts, es, b);
    RunInv(ts, es, j - 1);
    assert Steps(ts, es, j - 1);
    if j == b + 1 {
      assert false;
    } else if es[j - 1] == Cancel || es[j - 1] == Close {
    } else {
      assert p in ts[j - 1].leases;
      assert ts[j].leases[p] == ts[j - 1].leases[p];
      CancelNeverReachesALaterTurn(ts, es, b, j - 1, p);
    }
  }

  /** A lease keeps its channel, and one step signals it exactly when that step is a cancel or a close. */
  lemma SignalStep(t: Turn, e: Event, p: Id)
    requires LeaseInv(t) && Enabled(t, e) && p in t.leases && p in Apply(t, e).leases
    ensures Apply(t, e).leases[p] == t.leases[p]
    ensures Cancelled(Apply(t, e), p) <==> Cancelled(t, p) || e == Cancel || e == Close
  {
  }

  lemma NotYetCancelled(t: Turn, p: Id)
    requires LeaseInv(t) && Enabled(t, Begin(p)) && BeginResult(t.core).Ok?
    ensures p in Apply(t, Begin(p)).leases && !Cancelled(Apply(t, Begin(p)), p)
  {
  }

  /** The lease of `p` was granted by event `b` and is held through state `j`. */
  ghost predicate HeldFrom(ts: seq<Turn>, es: seq<Event>, b: nat, j: nat, p: Id) {
    && Run(ts, es) && b < j < |ts| && es[b] == Begin(p) && BeginResult(ts[b].core).Ok?
    && forall k :: b < k <= j ==> p in ts[k].leases
  }

  /** A lease sees cancellation exactly when a cancel or a close ran since it was granted. */
  lemma {:induction false} CancelledIff(ts: seq<Turn>, es: seq<Event>, b: nat, j: nat, p: Id)
    requires HeldFrom(ts, es, b, j, p)
    ensures Cancelled(ts[j], p) <==> exists k :: b < k < j && (es[k] == Cancel || es[k] == Close)
    decreases j
  {
    RunInv(ts, es, j - 1);
    assert Steps(ts, es, j - 1);
    if j == b + 1 {
      NotYetCancelled(ts[b], p);
    } else {
      assert p in ts[j - 1].leases && p in ts[j].leases && HeldFrom(ts, es, b, j - 1, p);
      CancelledIff(ts, es, b, j - 1, p);
      SignalStep(ts[j - 1], es[j - 1], p);
    }
  }

  /** A parked waiter is never stranded, although the notification happens outside the lock. */
  lemma NoLostWakeUp(ts: seq<Turn>, es: seq<Event>, k: nat, w: Id)
    requires Run(ts, es) && k < |ts|
    requires w in ts[k].waiters && ts[k].waiters[w].Parked?
    ensures || (exists p :: p in ts[k].leases)
            || (exists p :: Enabled(ts[k], DropNotify(p)))
            || Enabled(ts[k], Wake(w))
  {
    RunInv(ts, es, k);
    var t := ts[k];
    if t.leases != map[] {
      var p :| p in t.leases;
      assert p in t.leases;
    } else if t.unannounced != {} {
      var p :| p in t.unannounced;
      assert Enabled(t, DropNotify(p));
    }
  }

  // ----- a closed turn drains: `wait_idle` returns -----

  /** The steps that carry a closed turn towards `w` returning. */
  predicate Progress(e: Event, w: Id) {
    e.DropState? || e.DropNotify? || e == Arm(w) || e == Check(w) || e == Wake(w)
  }

  /** Notifications still to come from leases and drops of a closed turn. */
  function Owed(t: Turn): nat {
    |t.leases| + |t.unannounced|
  }

  function Unseen(t: Turn, seen: int): nat {
    if seen < t.core.notifications then 1 else 0
  }

  function WaiterRank(t: Turn, w: Id): nat
    requires w in t.waiters
  {
    match t.waiters[w]
    case AtHead => 3 * Owed(t) + 3
    case Armed(seen) => 3 * (Owed(t) + Unseen(t, seen)) + 2
    case Parked(seen) => 3 * (Owed(t) + Unseen(t, seen)) + 1
    case Returned => 0
  }

  function Rank(t: Turn, w: Id): nat
    requires w in t.waiters
  {
    WaiterRank(t, w) + 2 * |t.leases| + |t.unannounced|
  }

  /** While `w` has not returned, some step towards its return is enabled. */
  lemma WaiterCanProgress(t: Turn, w: Id)
    requires Inv(t) && w in t.waiters && t.waiters[w] != Returned
    ensures exists e :: Progress(e, w) && Enabled(t, e)
  {
    match t.waiters[w]
    case AtHead => assert Enabled(t, Arm(w)) && Progress(Arm(w), w);
    case Armed(_) => assert Enabled(t, Check(w)) && Progress(Check(w), w);
    case Parked(seen) =>
      if t.leases != map[] {
        var p :| p in t.leases;
        assert Enabled(t, DropState(p)) && Progress(DropState(p), w);
      } else if t.unannounced != {} {
        var p :| p in t.unannounced;
        assert Enabled(t, DropNotify(p)) && Progress(DropNotify(p), w);
      } else {
        assert Enabled(t, Wake(w)) && Progress(Wake(w), w);
      }
  }

  lemma DropSizes(t: Turn, p: Id)
    requires LeaseInv(t)
    ensures p in t.leases ==>
              && |t.leases - {p}| == |t.leases| - 1
              && |t.unannounced + {p}| == |t.unannounced| + 1
    ensures p in t.unannounced ==> |t.unannounced - {p}| == |t.unannounced| - 1
  {
    if p in t.leases {
      assert (t.leases - {p}).Keys == t.leases.Keys - {p};
      assert |t.leases - {p}| == |(t.leases - {p}).Keys| && |t.leases| == |t.leases.Keys|;
    }
  }

  /** `t2` is at least as close to `w` returning as `t1`, and strictly closer if `strict`. */
  ghost predicate Closer(t1: Turn, t2: Turn, w: Id, strict: bool) {
    && w in t1.waiters && w in t2.waiters
    && Rank(t2, w) <= Rank(t1, w)
    && (strict ==> Rank(t2, w) < Rank(t1, w))
  }

  lemma DropStateDrains(t: Turn, p: Id, w: Id)
    requires LeaseInv(t) && p in t.leases && w in t.waiters
    ensures Closer(t, Apply(t, DropState(p)), w, true)
  {
    DropSizes(t, p);
    assert Owed(Apply(t, DropState(p))) == Owed(t);
  }

  lemma DropNotifyDrains(t: Turn, p: Id, w: Id)
    requires LeaseInv(t) && p in t.unannounced && w in t.waiters
    ensures Closer(t, Apply(t, DropNotify(p)), w, true)
  {
    DropSizes(t, p);
    assert Owed(Apply(t, DropNotify(p))) == Owed(t) - 1;
  }

  lemma WaiterDrains(t: Turn, e: Event, w: Id)
    requires Enabled(t, e) && (e.Arm? || e.Check? || e.Wake?) && w in t.waiters
    ensures Closer(t, Apply(t, e), w, e.w == w)
  {
    assert Owed(Apply(t, e)) == Owed(t);
  }

  /**
   On a closed turn no step of any handler moves `w` away from returning, and every step
   towards it uses up rank.
   */
  lemma ClosedTurnDrains(t: Turn, e: Event, w: Id)
    requires Inv(t) && t.core.closed && Enabled(t, e)
    requires w in t.waiters && e != Enter(w)
    ensures Closer(t, Apply(t, e), w, Progress(e, w))
  {
    match e
    case DropState(p) => DropStateDrains(t, p, w);
    case DropNotify(p) => DropNotifyDrains(t, p, w);
    case Arm(_) => WaiterDrains(t, e, w);
    case Check(_) => WaiterDrains(t, e, w);
    case Wake(_) => WaiterDrains(t, e, w);
    case Begin(_) =>
    case Cancel =>
    case Close =>
    case Enter(_) =>
  }

  function ProgressCount(es: seq<Event>, w: Id): nat {
    if es == [] then 0
    else ProgressCount(es[..|es| - 1], w) + if Progress(es[|es| - 1], w) then 1 else 0
  }

  lemma DrainStep(ts: seq<Turn>, es: seq<Event>, i: nat, k: nat, w: Id)
    requires Run(ts, es) && i <= k < |es|
    requires ts[i].core.closed && w in ts[k].waiters && es[k] != Enter(w)
    ensures Closer(ts[k], ts[k + 1], w, Progress(es[k], w))
  {
    assert Steps(ts, es, k);
    RunInv(ts, es, k);
    ClosedForever(ts, es, i, k);
    ClosedTurnDrains(ts[k], es[k], w);
  }

  /** From `ts[i]` on, the steps towards `w` returning are paid for by rank. */
  ghost predicate Bounded(ts: seq<Turn>, es: seq<Event>, i: nat, j: nat, w: Id)
    requires i <= j < |ts| == |es| + 1
  {
    && w in ts[i].waiters && w in ts[j].waiters
    && ProgressCount(es[i..j], w) + Rank(ts[j], w) <= Rank(ts[i], w)
  }

  lemma BoundedStep(ts: seq<Turn>, es: seq<Event>, i: nat, k: nat, w: Id)
    requires i <= k < |es| && |ts| == |es| + 1
    requires Bounded(ts, es, i, k, w)
    requires Closer(ts[k], ts[k + 1], w, Progress(es[k], w))
    ensures Bounded(ts, es, i, k + 1, w)
  {
    var seg := es[i..k + 1];
    assert seg[..|seg| - 1] == es[i..k];
    assert seg[|seg| - 1] == es[k];
  }

  /**
   Whole runs: after a turn is closed, a task in `wait_idle` returns within `Rank` steps
   towards it, however the other handlers interleave, and until then such a step is enabled.
   */
  lemma {:induction false} WaitIdleReturns(ts: seq<Turn>, es: seq<Event>, i: nat, j: nat, w: Id)
    requires Run(ts, es) && i <= j < |ts|
    requires ts[i].core.closed && w in ts[i].waiters
    requires forall k :: i <= k < j ==> es[k] != Enter(w)
    ensures Bounded(ts, es, i, j, w)
    ensures ts[j].waiters[w] == Returned || exists e :: Progress(e, w) && Enabled(ts[j], e)
    decreases j
  {
    if i < j {
      WaitIdleReturns(ts, es, i, j - 1, w);
      DrainStep(ts, es, i, j - 1, w);
      BoundedStep(ts, es, i, j - 1, w);
    } else {
      assert es[i..j] == [];
    }
    if ts[j].waiters[w] != Returned {
      RunInv(ts, es, j);
      WaiterCanProgress(ts[j], w);
    }
  }
}
