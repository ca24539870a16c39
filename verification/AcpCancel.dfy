/** What `session/cancel`, a close and the cleanup tell the prompts of a session, and what follows. */
module AcpCancel {
  import opened Prelude
  import opened AcpServer
  import opened AcpSafety
  import opened AcpPrompts
  import opened AcpPages
  import opened AcpStory
  import opened AcpNavigation
  import PT = PromptTurn
  import TurnSafety

  /** The event sends the session's current lease its cancellation. */
  predicate Signals(s: Server, e: Event, sid: Id) {
    || e == OnCancel(sid)
    || (e == OnClose(CloseTurn) && s.holder.Retiring? && s.holder.sid == sid)
    || e == OnCleanup(CloseOne(sid))
  }

  predicate LeaseSees(turns: map<Id, PT.Turn>, sid: Id, pid: Id) {
    sid in turns && pid in turns[sid].leases && PT.Cancelled(turns[sid], pid)
  }

  predicate Sound(turns: map<Id, PT.Turn>, sid: Id, pid: Id) {
    sid in turns && TurnSafety.LeaseInv(turns[sid]) && pid in turns[sid].leases
  }

  lemma FireSignals(turns: map<Id, PT.Turn>, x: Id, e: PT.Event, sid: Id, pid: Id)
    requires Sound(turns, sid, pid) && pid in Fire(turns, x, e)[sid].leases
    ensures LeaseSees(Fire(turns, x, e), sid, pid)
       <==> LeaseSees(turns, sid, pid) || (x == sid && (e == PT.Cancel || e == PT.Close))
    ensures Sound(Fire(turns, x, e), sid, pid)
  {
    if x == sid && PT.Enabled(turns[sid], e) {
      TurnSafety.SignalStep(turns[sid], e, pid);
      TurnSafety.LeaseInvKept(turns[sid], e);
    }
  }

  lemma EnterAllSignals(turns: map<Id, PT.Turn>, claimed: set<Id>, sid: Id, pid: Id)
    requires Sound(turns, sid, pid)
    ensures LeaseSees(EnterAll(turns, claimed), sid, pid) <==> LeaseSees(turns, sid, pid)
  {
  }

  lemma CloseSignals(s: Server, e: CloseEvent, sid: Id, pid: Id)
    requires CloseEnabled(s, e) && Sound(s.turns, sid, pid) && Sound(CloseApply(s, e).turns, sid, pid)
    ensures LeaseSees(CloseApply(s, e).turns, sid, pid) <==> LeaseSees(s.turns, sid, pid) || Signals(s, OnClose(e), sid)
  {
    if e.CloseTurn? {
      FireSignals(s.turns, s.holder.sid, PT.Close, sid, pid);
      FireSignals(Fire(s.turns, s.holder.sid, PT.Close), s.holder.sid, PT.Enter(WAITER), sid, pid);
    } else if e.CloseWait? {
      FireSignals(s.turns, s.holder.sid, e.step, sid, pid);
    }
  }

  lemma CleanupSignals(s: Server, e: CleanEvent, sid: Id, pid: Id)
    requires CleanEnabled(s, e) && Sound(s.turns, sid, pid) && Sound(CleanApply(s, e).turns, sid, pid)
    ensures LeaseSees(CleanApply(s, e).turns, sid, pid) <==> LeaseSees(s.turns, sid, pid) || Signals(s, OnCleanup(e), sid)
  {
    if e.CloseOne? {
      FireSignals(s.turns, e.sid, PT.Close, sid, pid);
    } else if e.SpawnAll? {
      EnterAllSignals(s.turns, s.holder.k.claimed, sid, pid);
    } else if e.CleanWait? {
      FireSignals(s.turns, e.sid, e.step, sid, pid);
    }
  }

  lemma PromptSignals(s: Server, x: Id, a: PromptAction, sid: Id, pid: Id)
    requires PromptEnabled(s, x, a) && Sound(s.turns, sid, pid) && Sound(PromptApply(s, x, a).turns, sid, pid)
    ensures LeaseSees(PromptApply(s, x, a).turns, sid, pid) <==> LeaseSees(s.turns, sid, pid)
  {
    var f := EffectOf(s, x, a);
    if !a.Look? {
      EffectTurn(s, x, a);
    }
    if f.turn.Some? {
      FireSignals(s.turns, Actor(s, x, a), f.turn.value, sid, pid);
    }
  }

  lemma NewSignals(s: Server, e: NewEvent, sid: Id, pid: Id)
    requires NewEnabled(s, e) && SessionOk(s, sid) && Sound(s.turns, sid, pid)
    ensures LeaseSees(NewApply(s, e).turns, sid, pid) <==> LeaseSees(s.turns, sid, pid)
  {
  }

  lemma OwnerSound(s: Server, pid: Id, sid: Id)
    requires Inv(s) && Owns(s, pid, sid)
    ensures Sound(s.turns, sid, pid) && (SeesCancel(s, pid) <==> LeaseSees(s.turns, sid, pid))
  {
    assert SessionOk(s, sid) && PairOk(s, pid, sid) && PromptHome(s, pid);
  }

  function Next(s: Server, e: Event): Server {
    if Enabled(s, e) then Apply(s, e) else s
  }

  /** A lease holder comes to see cancellation exactly by these events. */
  lemma SignalsStep(s: Server, e: Event, pid: Id, sid: Id)
    requires Inv(s) && Inv(Next(s, e)) && Enabled(s, e) && Owns(s, pid, sid) && Owns(Next(s, e), pid, sid)
    ensures SeesCancel(Next(s, e), pid) <==> SeesCancel(s, pid) || Signals(s, e, sid)
  {
    OwnerSound(s, pid, sid);
    OwnerSound(Next(s, e), pid, sid);
    assert SessionOk(s, sid);
    match e
    case OnNew(n) => NewSignals(s, n, sid, pid);
    case OnClose(c) => CloseSignals(s, c, sid, pid);
    case OnCleanup(k) => CleanupSignals(s, k, sid, pid);
    case OnPrompt(x, a) => PromptSignals(s, x, a, sid, pid);
    case OnReply(_, _) =>
    case OnCancel(x) => FireSignals(s.turns, x, PT.Cancel, sid, pid);
  }

  /** A live session can be cancelled at any time, and then every prompt that holds its lease sees the cancellation. */
  lemma CancelIsSeen(ss: seq<Server>, es: seq<Event>, k: nat, sid: Id, pid: Id)
    requires Run(ss, es) && k < |ss| && sid in ss[k].sessions && Owns(ss[k], pid, sid)
    ensures Enabled(ss[k], OnCancel(sid))
    ensures var t := Apply(ss[k], OnCancel(sid)); Owns(t, pid, sid) && SeesCancel(t, pid)
  {
    RunInv(ss, es, k);
    InvKept(ss[k], OnCancel(sid));
    SignalsStep(ss[k], OnCancel(sid), pid, sid);
  }

  lemma FreshLease(ss: seq<Server>, es: seq<Event>, b: nat, pid: Id)
    requires Run(ss, es) && Happens(ss, es, b, OnPrompt(pid, BeginOk))
    ensures pid in ss[b].prompts && Owns(ss[b + 1], pid, ss[b].prompts[pid].sid) && !SeesCancel(ss[b + 1], pid)
  {
    var sid := ss[b].prompts[pid].sid;
    RunInv(ss, es, b);
    RunInv(ss, es, b + 1);
    BeginsAt(ss, es, b, pid);
    OwnerSound(ss[b + 1], pid, sid);
    assert SessionOk(ss[b], sid) && PairOk(ss[b], pid, sid) && PromptHome(ss[b], pid);
    TurnSafety.NotYetCancelled(ss[b].turns[sid], pid);
  }

  /** An event since `begin` cancelled the lease. */
  ghost predicate SignalledBetween(ss: seq<Server>, es: seq<Event>, b: nat, k: nat, sid: Id) {
    exists m :: b < m < k && m < |ss| && m < |es| && Signals(ss[m], es[m], sid)
  }

  lemma {:induction false} SeesCancelSince(ss: seq<Server>, es: seq<Event>, b: nat, k: nat, pid: Id, sid: Id)
    requires Run(ss, es) && b < k < |ss| && OwnsThrough(ss, b + 1, k, pid, sid) && !SeesCancel(ss[b + 1], pid)
    ensures SeesCancel(ss[k], pid) <==> SignalledBetween(ss, es, b, k, sid)
    decreases k
  {
    if b + 1 < k {
      assert Owns(ss[k - 1], pid, sid) && Owns(ss[k], pid, sid);
      SeesCancelSince(ss, es, b, k - 1, pid, sid);
      SeesCancelStep(ss, es, k - 1, pid, sid);
      SignalledLater(ss, es, b, k - 1, sid);
    }
  }

  lemma SignalledLater(ss: seq<Server>, es: seq<Event>, b: nat, k: nat, sid: Id)
    requires b < k < |ss| && k < |es|
    ensures SignalledBetween(ss, es, b, k + 1, sid) <==> SignalledBetween(ss, es, b, k, sid) || Signals(ss[k], es[k], sid)
  {
  }

  /** While a prompt holds its lease it sees cancellation exactly when its session was cancelled or closed since `begin`. */
  lemma SeesCancelIff(ss: seq<Server>, es: seq<Event>, b: nat, k: nat, pid: Id)
    requires Run(ss, es) && Happens(ss, es, b, OnPrompt(pid, BeginOk)) && b < k < |ss|
    requires pid in ss[b].prompts && Owns(ss[k], pid, ss[b].prompts[pid].sid)
    ensures SeesCancel(ss[k], pid) <==> SignalledBetween(ss, es, b, k, ss[b].prompts[pid].sid)
  {
    FreshLease(ss, es, b, pid);
    OwnedAllAlong(ss, es, b + 1, k, pid, ss[b].prompts[pid].sid);
    SeesCancelSince(ss, es, b, k, pid, ss[b].prompts[pid].sid);
  }

  lemma SeesCancelStep(ss: seq<Server>, es: seq<Event>, k: nat, pid: Id, sid: Id)
    requires Run(ss, es) && k < |es| && Owns(ss[k], pid, sid) && Owns(ss[k + 1], pid, sid)
    ensures SeesCancel(ss[k + 1], pid) <==> SeesCancel(ss[k], pid) || Signals(ss[k], es[k], sid)
  {
    assert Steps(ss, es, k);
    RunInv(ss, es, k);
    RunInv(ss, es, k + 1);
    SignalsStep(ss[k], es[k], pid, sid);
  }

  /** The calls that a prompt awaits inline, without a task of their own. */
  predicate Inline(kind: CallKind) {
    kind.Navigate? || kind.Retry? || kind.Context? || kind.Evidence?
  }

  /** Once its session was cancelled or closed, a prompt starts none of them. */
  lemma NothingStartsAfterCancel(ss: seq<Server>, es: seq<Event>, b: nat, k: nat, pid: Id, kind: CallKind)
    requires Run(ss, es) && Happens(ss, es, b, OnPrompt(pid, BeginOk)) && b < k < |ss|
    requires Asks(ss, es, k, pid, kind) && Inline(kind)
    ensures !SignalledBetween(ss, es, b, k, ss[b].prompts[pid].sid)
  {
    AskerOwns(ss, es, k, pid, kind);
    SameSession(ss, es, b, k, pid);
    SeesCancelIff(ss, es, b, k, pid);
  }

  lemma SameSession(ss: seq<Server>, es: seq<Event>, b: nat, k: nat, pid: Id)
    requires Run(ss, es) && b < k < |ss| && pid in ss[b].prompts && pid in ss[k].prompts
    ensures ss[k].prompts[pid].sid == ss[b].prompts[pid].sid
  {
    NeverBack(ss, es, b, k, pid);
  }

  lemma Starters(s: Server, pid: Id, p: Prompt, a: PromptAction)
    requires ActionEnabled(s, pid, p, a)
    ensures ActionEffect(s, pid, p, a).starts.Some? ==> a.AskRuntime? || a.Issue? || a.OpenNew? || a.SubmitClose?
  {
  }

  lemma InlineAction(s: Server, pid: Id, p: Prompt, a: PromptAction, kind: CallKind)
    requires ActionEnabled(s, pid, p, a) && (a.AskRuntime? || a.Issue? || a.OpenNew? || a.SubmitClose?)
    requires ActionEffect(s, pid, p, a).starts == Some(kind) && Inline(kind)
    ensures HoldsLease(p.stage) && MayStart(s, pid, kind)
  {
  }

  lemma AskerOwns(ss: seq<Server>, es: seq<Event>, k: nat, pid: Id, kind: CallKind)
    requires Asks(ss, es, k, pid, kind) && Inline(kind)
    ensures pid in ss[k].prompts && Owns(ss[k], pid, ss[k].prompts[pid].sid) && !SeesCancel(ss[k], pid)
  {
    AsksEffect(ss, es, k, pid, kind);
    Starters(ss[k], pid, ss[k].prompts[pid], es[k].a);
    InlineAction(ss[k], pid, ss[k].prompts[pid], es[k].a, kind);
  }

  predicate GivesUp(a: PromptAction) {
    a.CancelBeforeCall? || a.CancelSpawned? || a.CancelInline?
  }

  lemma GivesUpFrom(s: Server, pid: Id, a: PromptAction)
    requires PromptEnabled(s, pid, a) && GivesUp(a)
    ensures pid in s.prompts && HoldsLease(s.prompts[pid].stage) && SeesCancel(s, pid)
  {
  }

  /** A prompt gives up only if its session was cancelled or closed since its `begin`. */
  lemma GivesUpOnlyIfCancelled(ss: seq<Server>, es: seq<Event>, b: nat, k: nat, pid: Id, a: PromptAction)
    requires Run(ss, es) && Happens(ss, es, b, OnPrompt(pid, BeginOk)) && b < k
    requires Happens(ss, es, k, OnPrompt(pid, a)) && GivesUp(a)
    ensures pid in ss[b].prompts && SignalledBetween(ss, es, b, k, ss[b].prompts[pid].sid)
  {
    GivesUpFrom(ss[k], pid, a);
    CancelledSince(ss, es, b, k, pid);
  }

  lemma CancelledSince(ss: seq<Server>, es: seq<Event>, b: nat, k: nat, pid: Id)
    requires Run(ss, es) && Happens(ss, es, b, OnPrompt(pid, BeginOk)) && b < k < |ss|
    requires pid in ss[k].prompts && HoldsLease(ss[k].prompts[pid].stage) && SeesCancel(ss[k], pid)
    ensures pid in ss[b].prompts && SignalledBetween(ss, es, b, k, ss[b].prompts[pid].sid)
  {
    SameSession(ss, es, b, k, pid);
    SeesCancelIff(ss, es, b, k, pid);
  }

  /** A prompt is refused only if its session is closed or another prompt holds the lease. */
  lemma RefusedOnlyWhenBusy(ss: seq<Server>, es: seq<Event>, k: nat, pid: Id)
    requires Run(ss, es) && Happens(ss, es, k, OnPrompt(pid, BeginRefused))
    ensures var sid := ss[k].prompts[pid].sid;
            (sid in ss[k].turns && ss[k].turns[sid].core.closed) || exists x :: x != pid && Owns(ss[k], x, sid)
  {
    RunInv(ss, es, k);
    Occupied(ss[k], pid);
  }

  lemma Occupied(s: Server, pid: Id)
    requires Inv(s) && pid in s.prompts && s.prompts[pid].stage.Looked? && !BeginsTurn(s, s.prompts[pid])
    ensures var sid := s.prompts[pid].sid;
            (sid in s.turns && s.turns[sid].core.closed) || exists x :: x != pid && Owns(s, x, sid)
  {
    var sid := s.prompts[pid].sid;
    assert PromptHome(s, pid) && SessionOk(s, sid);
    if !s.turns[sid].core.closed {
      var x :| x in s.turns[sid].leases;
      assert PairOk(s, x, sid);
    }
  }

  // ----- calls that must not be dropped -----

  /** The calls whose outcome must not be lost, whatever happens to the prompt. */
  predicate MustBeAwaited(kind: CallKind) {
    kind.OpenPage? || kind.Intent? || kind.Checkpoint? || kind.Recover?
  }

  lemma EndsAnswered(s: Server, pid: Id, p: Prompt, a: PromptAction, c: Id)
    requires ActionEnabled(s, pid, p, a) && ActionEffect(s, pid, p, a).ends == Some(c) && c in s.calls
    requires MustBeAwaited(s.calls[c].kind) && (p.stage.Closing? ==> Awaits(CallAt(s, p.stage), ClosePage))
    ensures s.calls[c].reply.Some?
  {
  }

  ghost predicate RepliedAt(ss: seq<Server>, es: seq<Event>, n: int, c: Id) {
    Steps(ss, es, n) && es[n].OnReply? && es[n].call == c
  }

  /** The call is still there, with its reply if it was given, or was answered before it ended. */
  ghost predicate Awaited(ss: seq<Server>, es: seq<Event>, i: nat, k: nat, c: Id, kind: CallKind)
    requires k < |ss|
  {
    || (c in ss[k].calls && ss[k].calls[c].kind == kind
        && (ss[k].calls[c].reply.Some? ==> exists n :: i < n < k && RepliedAt(ss, es, n, c)))
    || (c !in ss[k].calls && c.n < ss[k].nextCall && exists n :: i < n < k && RepliedAt(ss, es, n, c))
  }

  /** The call is gone only if it was answered, and otherwise as it was. */
  predicate Stays(s: Server, s': Server, c: Id)
    requires c in s.calls
  {
    if c in s'.calls then s'.calls[c] == s.calls[c] else s.calls[c].reply.Some?
  }

  lemma LeavesByAction(s: Server, x: Id, a: PromptAction, c: Id)
    requires PromptEnabled(s, x, a) && c in s.calls && MustBeAwaited(s.calls[c].kind) && CallOk(s, c) && OnCallOk(s, x)
    ensures Stays(s, PromptApply(s, x, a), c)
  {
    if !a.Look? {
      var f := ActionEffect(s, x, s.prompts[x], a);
      ActionFits(s, x, a);
      if f.ends == Some(c) {
        EndsAnswered(s, x, s.prompts[x], a, c);
      }
    }
  }

  lemma CallLeaves(s: Server, e: Event, c: Id)
    requires Inv(s) && Enabled(s, e) && c in s.calls && MustBeAwaited(s.calls[c].kind)
    ensures if e.OnReply? && e.call == c
            then c in Apply(s, e).calls && Apply(s, e).calls[c].kind == s.calls[c].kind
            else Stays(s, Apply(s, e), c)
  {
    assert CallOk(s, c);
    if e.OnPrompt? {
      assert OnCallOk(s, e.pid);
      LeavesByAction(s, e.pid, e.a, c);
    } else if !e.OnReply? {
      ElsewhereFrame(s, e, c);
    }
  }

  lemma CallStaysGone(s: Server, e: Event, c: Id)
    requires Enabled(s, e) && c !in s.calls && c.n < s.nextCall
    ensures c !in Apply(s, e).calls && c.n < Apply(s, e).nextCall
  {
    if !e.OnPrompt? && !e.OnReply? {
      ElsewhereFrame(s, e, c);
    }
  }

  lemma AwaitedStep(ss: seq<Server>, es: seq<Event>, i: nat, k: nat, c: Id, kind: CallKind)
    requires Run(ss, es) && i < k < |es| && Awaited(ss, es, i, k, c, kind) && MustBeAwaited(kind)
    ensures Awaited(ss, es, i, k + 1, c, kind)
  {
    assert Steps(ss, es, k);
    RunInv(ss, es, k);
    assert CallOk(ss[k], c);
    if c in ss[k].calls {
      CallLeaves(ss[k], es[k], c);
      CallCounted(ss, es, k);
      if RepliedAt(ss, es, k, c) {
        assert i < k < k + 1;
      }
    } else {
      CallStaysGone(ss[k], es[k], c);
    }
  }

  lemma CallCounted(ss: seq<Server>, es: seq<Event>, k: nat)
    requires Run(ss, es) && k < |es|
    ensures ss[k].nextCall <= ss[k + 1].nextCall
  {
    assert Steps(ss, es, k);
    if !es[k].OnPrompt? && !es[k].OnReply? {
      ElsewhereFrame(ss[k], es[k], Id(0));
    }
  }

  lemma {:induction false} RunAwaited(ss: seq<Server>, es: seq<Event>, i: nat, k: nat, c: Id, kind: CallKind)
    requires Run(ss, es) && i < k < |ss| && MustBeAwaited(kind) && Awaited(ss, es, i, i + 1, c, kind)
    ensures Awaited(ss, es, i, k, c, kind)
    decreases k
  {
    if k > i + 1 {
      RunAwaited(ss, es, i, k - 1, c, kind);
      AwaitedStep(ss, es, i, k - 1, c, kind);
    }
  }

  lemma JustAsked(ss: seq<Server>, es: seq<Event>, i: nat, pid: Id, kind: CallKind)
    requires Asks(ss, es, i, pid, kind)
    ensures var c := Id(ss[i].nextCall);
            && c in ss[i + 1].calls && ss[i + 1].calls[c] == Call(pid, ss[i + 1].calls[c].sid, kind, None)
            && c.n < ss[i + 1].nextCall
  {
    AsksEffect(ss, es, i, pid, kind);
  }

  /**
   A prompt, cancelled or not, releases its lease only after the runtime has answered each
   page opening, intent, checkpoint and recovery that the prompt asked for.
   */
  lemma ReleasedOnlyWhenAnswered(ss: seq<Server>, es: seq<Event>, i: nat, k: nat, pid: Id, kind: CallKind)
    requires Run(ss, es) && Asks(ss, es, i, pid, kind) && MustBeAwaited(kind)
    requires i < k && Happens(ss, es, k, OnPrompt(pid, Release))
    ensures exists n :: i < n < k && RepliedAt(ss, es, n, Id(ss[i].nextCall))
  {
    var c := Id(ss[i].nextCall);
    JustAsked(ss, es, i, pid, kind);
    NoCallAtRelease(ss, es, k, pid, c);
    EndsBefore(ss, es, i, k, c, pid, kind);
  }

  lemma EndsBefore(ss: seq<Server>, es: seq<Event>, i: nat, k: nat, c: Id, pid: Id, kind: CallKind)
    requires Run(ss, es) && i < k < |ss| && MustBeAwaited(kind)
    requires c in ss[i + 1].calls && ss[i + 1].calls[c] == Call(pid, ss[i + 1].calls[c].sid, kind, None)
    requires c.n < ss[i + 1].nextCall && (c in ss[k].calls ==> ss[k].calls[c].pid != pid)
    ensures exists n :: i < n < k && RepliedAt(ss, es, n, c)
  {
    RunAwaited(ss, es, i, k, c, kind);
    CallKeepsPrompt(ss, es, i + 1, k, c, pid);
  }

  lemma NoCallAtRelease(ss: seq<Server>, es: seq<Event>, k: nat, pid: Id, c: Id)
    requires Run(ss, es) && Happens(ss, es, k, OnPrompt(pid, Release))
    ensures c in ss[k].calls ==> ss[k].calls[c].pid != pid
  {
    RunInv(ss, es, k);
    assert CallOk(ss[k], c);
  }

  /** A call belongs to the same prompt as long as it is there. */
  lemma {:induction false} CallKeepsPrompt(ss: seq<Server>, es: seq<Event>, i: nat, k: nat, c: Id, pid: Id)
    requires Run(ss, es) && i <= k < |ss| && c.n < ss[i].nextCall && (c in ss[i].calls ==> ss[i].calls[c].pid == pid)
    ensures c.n < ss[k].nextCall && (c in ss[k].calls ==> ss[k].calls[c].pid == pid)
    decreases k
  {
    if i < k {
      CallKeepsPrompt(ss, es, i, k - 1, c, pid);
      CallCounted(ss, es, k - 1);
      if c in ss[k].calls {
        OwnerStaysAt(ss, es, k - 1, c);
      }
    }
  }

  lemma OwnerStaysAt(ss: seq<Server>, es: seq<Event>, k: nat, c: Id)
    requires Run(ss, es) && k < |es| && c.n < ss[k].nextCall && c in ss[k + 1].calls
    ensures c in ss[k].calls && ss[k + 1].calls[c].pid == ss[k].calls[c].pid
  {
    assert Steps(ss, es, k);
    OwnerStays(ss[k], es[k], c);
  }

  lemma OwnerStays(s: Server, e: Event, c: Id)
    requires Enabled(s, e) && c.n < s.nextCall && c in Apply(s, e).calls
    ensures c in s.calls && Apply(s, e).calls[c].pid == s.calls[c].pid
  {
    if !e.OnPrompt? && !e.OnReply? {
      ElsewhereFrame(s, e, c);
    }
  }
}
