/**
 Leases, runtime calls and prompts of the ACP gateway: every outstanding lease belongs to
 one running prompt, and every runtime call in flight belongs to a prompt that holds the
 lease of its session.
 */
module AcpPrompts {
  import opened Prelude
  import opened AcpServer
  import opened AcpSafety
  import PT = PromptTurn

  // ----- leases and prompts -----

  predicate Owns(s: Server, pid: Id, sid: Id) {
    pid in s.prompts && s.prompts[pid].sid == sid && HoldsLease(s.prompts[pid].stage)
  }

  predicate Announces(s: Server, pid: Id, sid: Id) {
    pid in s.prompts && s.prompts[pid].sid == sid && s.prompts[pid].stage.Announcing?
  }

  /** A turn's leases are exactly the prompts past `begin` and before the drop of their lease. */
  predicate PairOk(s: Server, pid: Id, sid: Id) {
    sid in s.turns ==>
      && (pid in s.turns[sid].leases <==> Owns(s, pid, sid))
      && (pid in s.turns[sid].unannounced <==> Announces(s, pid, sid))
  }

  predicate PromptHome(s: Server, pid: Id) {
    pid in s.prompts ==> s.prompts[pid].sid in s.turns && pid in s.log.prompted
  }

  /** The leases of one turn are the same in both states. */
  predicate SameLeases(t: PT.Turn, t': PT.Turn) {
    t'.leases == t.leases && t'.unannounced == t.unannounced
  }

  /** What no handler but a prompt changes: prompts, runtime calls and pages. */
  ghost predicate PromptsUntouched(s: Server, s': Server) {
    && s'.prompts == s.prompts && s'.calls == s.calls && s'.nextCall == s.nextCall
    && s'.log.prompted == s.log.prompted && s'.log.pages == s.log.pages
    && s'.log.closeSubmitted == s.log.closeSubmitted
    && s'.log.recorded == s.log.recorded && s'.log.orphaned == s.log.orphaned
  }

  lemma FireKeepsLeases(turns: map<Id, PT.Turn>, x: Id, e: PT.Event, sid: Id)
    requires sid in turns && !e.Begin? && !e.DropState? && !e.DropNotify?
    ensures sid in Fire(turns, x, e) && SameLeases(turns[sid], Fire(turns, x, e)[sid])
  {
  }

  /** Elsewhere sessions are only taken away, or inserted without a page under a new id. */
  predicate SessionsShrink(s: Server, s': Server, sid: Id) {
    sid in s'.sessions ==>
      (sid in s.sessions && s'.sessions[sid] == s.sessions[sid]) || (s'.sessions[sid].None? && sid !in s.turns)
  }

  /** What a step of a lifecycle handler leaves of one session's leases and page. */
  predicate SessionFrame(s: Server, s': Server, sid: Id) {
    && (sid in s.turns ==> sid in s'.turns && SameLeases(s.turns[sid], s'.turns[sid]))
    && (sid in s'.turns && sid !in s.turns ==> s'.turns[sid] == PT.INIT)
    && SessionsShrink(s, s', sid)
  }

  lemma NewFrame(s: Server, e: NewEvent, sid: Id)
    requires NewEnabled(s, e)
    ensures PromptsUntouched(s, NewApply(s, e)) && NewApply(s, e).log.deleteIssued >= s.log.deleteIssued
    ensures SessionOk(s, sid) ==> SessionFrame(s, NewApply(s, e), sid)
    ensures !NewApply(s, e).holder.Cleaning?
  {
  }

  lemma CloseFrame(s: Server, e: CloseEvent, sid: Id)
    requires CloseEnabled(s, e)
    ensures PromptsUntouched(s, CloseApply(s, e)) && CloseApply(s, e).log.deleteIssued >= s.log.deleteIssued
    ensures SessionFrame(s, CloseApply(s, e), sid) && !CloseApply(s, e).holder.Cleaning?
  {
    if sid in s.turns && e.CloseTurn? {
      FireKeepsLeases(s.turns, s.holder.sid, PT.Close, sid);
      FireKeepsLeases(Fire(s.turns, s.holder.sid, PT.Close), s.holder.sid, PT.Enter(WAITER), sid);
    }
    if sid in s.turns && e.CloseWait? {
      FireKeepsLeases(s.turns, s.holder.sid, e.step, sid);
    }
  }

  lemma CleanupFrame(s: Server, e: CleanEvent, sid: Id)
    requires CleanEnabled(s, e)
    ensures PromptsUntouched(s, CleanApply(s, e)) && CleanApply(s, e).log.deleteIssued >= s.log.deleteIssued
    ensures SessionFrame(s, CleanApply(s, e), sid)
  {
    if sid in s.turns && e.CloseOne? {
      FireKeepsLeases(s.turns, e.sid, PT.Close, sid);
    }
    if sid in s.turns && e.CleanWait? {
      FireKeepsLeases(s.turns, e.sid, e.step, sid);
    }
  }

  /** Every step but a prompt's own and a runtime reply. */
  predicate Elsewhere(e: Event) {
    !e.OnPrompt? && !e.OnReply?
  }

  lemma ElsewhereFrame(s: Server, e: Event, sid: Id)
    requires Enabled(s, e) && Elsewhere(e)
    ensures PromptsUntouched(s, Apply(s, e)) && Apply(s, e).log.deleteIssued >= s.log.deleteIssued
    ensures SessionOk(s, sid) ==> SessionFrame(s, Apply(s, e), sid)
  {
    match e
    case OnNew(n) => NewFrame(s, n, sid);
    case OnClose(c) => CloseFrame(s, c, sid);
    case OnCleanup(k) => CleanupFrame(s, k, sid);
    case OnCancel(x) =>
      if sid in s.turns {
        FireKeepsLeases(s.turns, x, PT.Cancel, sid);
      }
  }

  // ----- the shape of prompt effects -----

  /** A prompt's stage and its turn operation go together. */
  predicate LeaseShape(pid: Id, p: Prompt, f: Effect) {
    && (f.next.Some? ==> f.next.value.sid == p.sid)
    && match f.turn
       case None =>
         if f.next.None? then p.stage.Looked?
         else HoldsLease(p.stage) && HoldsLease(f.next.value.stage)
       case Some(e) =>
         || (e == PT.Begin(pid) && p.stage.Looked? && f.next.Some? && HoldsLease(f.next.value.stage))
         || (e == PT.DropState(pid) && HoldsLease(p.stage) && f.next.Some? && f.next.value.stage.Announcing?)
         || (e == PT.DropNotify(pid) && p.stage.Announcing? && f.next.None?)
  }

  /** A prompt's stage names exactly the runtime call it waits for. */
  predicate CallShape(s: Server, p: Prompt, f: Effect) {
    match f.starts
    case Some(kind) =>
      && !OnCall(p.stage) && HoldsLease(p.stage) && f.ends.None? && f.next.Some?
      && (if kind == ClosePage then f.next.value.stage == Closing(Id(s.nextCall))
          else f.next.value.stage == Waiting(Id(s.nextCall)))
    case None =>
      match f.ends
      case Some(call) => OnCall(p.stage) && call == p.stage.call && f.next.Some? && !OnCall(f.next.value.stage)
      case None =>
        if f.next.Some? && OnCall(f.next.value.stage) then
          && p.stage.Waiting? && f.next.value.stage == Draining(p.stage.call)
          && p.stage.call in s.calls && Spawned(s.calls[p.stage.call].kind)
        else !OnCall(p.stage)
  }

  lemma CallShapes(s: Server, pid: Id, p: Prompt, a: PromptAction)
    requires ActionEnabled(s, pid, p, a)
    ensures CallShape(s, p, ActionEffect(s, pid, p, a))
  {
  }

  lemma LeaseShapes(s: Server, pid: Id, p: Prompt, a: PromptAction)
    requires ActionEnabled(s, pid, p, a)
    ensures LeaseShape(pid, p, ActionEffect(s, pid, p, a))
    ensures a.BeginOk? ==> BeginsTurn(s, p)
    ensures ActionEffect(s, pid, p, a).turn == Some(PT.Begin(pid)) ==> a.BeginOk?
  {
  }

  // ----- leases follow prompts -----

  /** `f` is an effect of prompt `x` that fits its stage. */
  predicate Fits(s: Server, x: Id, f: Effect) {
    && x in s.prompts && LeaseShape(x, s.prompts[x], f) && CallShape(s, s.prompts[x], f)
    && (f.turn == Some(PT.Begin(x)) ==> BeginsTurn(s, s.prompts[x]))
  }

  lemma ActionFits(s: Server, x: Id, a: PromptAction)
    requires PromptEnabled(s, x, a) && !a.Look?
    ensures Fits(s, x, EffectOf(s, x, a))
  {
    CallShapes(s, x, s.prompts[x], a);
    LeaseShapes(s, x, s.prompts[x], a);
  }

  /** The turn a prompt's effect leaves behind. */
  lemma EffectLeases(s: Server, x: Id, f: Effect, pid: Id, sid: Id)
    requires Fits(s, x, f) && SessionOk(s, sid) && sid in s.turns && PairOk(s, x, sid)
    ensures var t := Perform(s, x, s.prompts[x].sid, f);
            && sid in t.turns
            && (pid != x || s.prompts[x].sid != sid ==>
                  (pid in t.turns[sid].leases <==> pid in s.turns[sid].leases)
                  && (pid in t.turns[sid].unannounced <==> pid in s.turns[sid].unannounced))
  {
    if f.turn.Some? && s.prompts[x].sid == sid {
      assert PT.Enabled(s.turns[sid], f.turn.value);
    }
  }

  lemma OwnPair(s: Server, x: Id, f: Effect, sid: Id)
    requires Fits(s, x, f) && SessionOk(s, sid) && PairOk(s, x, sid) && s.prompts[x].sid == sid
    ensures PairOk(Perform(s, x, sid, f), x, sid)
  {
    if f.turn.Some? && sid in s.turns {
      assert PT.Enabled(s.turns[sid], f.turn.value);
    }
  }

  lemma PairByEffect(s: Server, x: Id, f: Effect, pid: Id, sid: Id)
    requires Fits(s, x, f)
    requires SessionOk(s, sid) && PairOk(s, pid, sid) && PairOk(s, x, sid)
    ensures PairOk(Perform(s, x, s.prompts[x].sid, f), pid, sid)
  {
    if pid == x && s.prompts[x].sid == sid {
      OwnPair(s, x, f, sid);
    } else if sid in s.turns {
      EffectLeases(s, x, f, pid, sid);
    }
  }

  lemma PairByPrompt(s: Server, x: Id, a: PromptAction, pid: Id, sid: Id)
    requires PromptEnabled(s, x, a)
    requires SessionOk(s, sid) && PairOk(s, pid, sid) && PairOk(s, x, sid)
    ensures PairOk(PromptApply(s, x, a), pid, sid)
  {
    if !a.Look? {
      ActionFits(s, x, a);
      PairByEffect(s, x, EffectOf(s, x, a), pid, sid);
    }
  }

  lemma PairKept(s: Server, e: Event, pid: Id, sid: Id)
    requires Enabled(s, e)
    requires SessionOk(s, sid) && PairOk(s, pid, sid) && PromptHome(s, pid)
    requires e.OnPrompt? ==> PairOk(s, e.pid, sid)
    ensures PairOk(Apply(s, e), pid, sid)
  {
    if e.OnPrompt? {
      PairByPrompt(s, e.pid, e.a, pid, sid);
    } else if Elsewhere(e) {
      ElsewhereFrame(s, e, sid);
    }
  }

  lemma HomeByEffect(s: Server, x: Id, f: Effect, pid: Id)
    requires Fits(s, x, f) && PromptHome(s, pid)
    ensures PromptHome(Perform(s, x, s.prompts[x].sid, f), pid)
  {
  }

  lemma HomeByPrompt(s: Server, x: Id, a: PromptAction, pid: Id)
    requires PromptEnabled(s, x, a) && PromptHome(s, pid)
    requires a.Look? ==> SessionOk(s, a.sid)
    ensures PromptHome(PromptApply(s, x, a), pid)
  {
    if a.Look? {
      assert Placed(s, a.sid);
    } else {
      ActionFits(s, x, a);
      HomeByEffect(s, x, EffectOf(s, x, a), pid);
    }
  }

  lemma HomeKept(s: Server, e: Event, pid: Id)
    requires Enabled(s, e) && PromptHome(s, pid)
    requires forall sid :: SessionOk(s, sid)
    ensures PromptHome(Apply(s, e), pid)
  {
    if e.OnPrompt? {
      HomeByPrompt(s, e.pid, e.a, pid);
    } else if Elsewhere(e) {
      ElsewhereFrame(s, e, if pid in s.prompts then s.prompts[pid].sid else pid);
    }
  }

  // ----- calls follow prompts -----

  /** A runtime call in flight belongs to a prompt of the same session that waits for it. */
  predicate CallOk(s: Server, c: Id) {
    c in s.calls ==>
      && c.n < s.nextCall
      && var call := s.calls[c];
      && Owns(s, call.pid, call.sid)
      && OnCall(s.prompts[call.pid].stage) && s.prompts[call.pid].stage.call == c
  }

  /** A prompt that waits for a call has that call, and only spawned calls are drained. */
  predicate OnCallOk(s: Server, pid: Id) {
    pid in s.prompts && OnCall(s.prompts[pid].stage) ==>
      && var stage := s.prompts[pid].stage;
      && stage.call in s.calls && s.calls[stage.call].pid == pid
      && (stage.Draining? ==> Spawned(s.calls[stage.call].kind))
      && (stage.Closing? <==> s.calls[stage.call].kind == ClosePage)
  }

  lemma CallByEffect(s: Server, x: Id, f: Effect, c: Id)
    requires Fits(s, x, f) && CallOk(s, c) && OnCallOk(s, x)
    ensures CallOk(Perform(s, x, s.prompts[x].sid, f), c)
  {
  }

  lemma OnCallByEffect(s: Server, x: Id, f: Effect, pid: Id)
    requires Fits(s, x, f) && OnCallOk(s, pid) && OnCallOk(s, x)
    requires pid in s.prompts && OnCall(s.prompts[pid].stage) ==> CallOk(s, s.prompts[pid].stage.call)
    ensures OnCallOk(Perform(s, x, s.prompts[x].sid, f), pid)
  {
  }

  lemma CallsKept(s: Server, e: Event, c: Id)
    requires Enabled(s, e) && CallOk(s, c)
    requires e.OnPrompt? ==> OnCallOk(s, e.pid)
    ensures CallOk(Apply(s, e), c)
  {
    if e.OnPrompt? {
      if !e.a.Look? {
        ActionFits(s, e.pid, e.a);
        CallByEffect(s, e.pid, EffectOf(s, e.pid, e.a), c);
      }
    } else if Elsewhere(e) {
      ElsewhereFrame(s, e, c);
    }
  }

  lemma OnCallKept(s: Server, e: Event, pid: Id)
    requires Enabled(s, e) && OnCallOk(s, pid)
    requires e.OnPrompt? ==> OnCallOk(s, e.pid)
    requires pid in s.prompts && OnCall(s.prompts[pid].stage) ==> CallOk(s, s.prompts[pid].stage.call)
    ensures OnCallOk(Apply(s, e), pid)
  {
    if e.OnPrompt? {
      if !e.a.Look? {
        ActionFits(s, e.pid, e.a);
        OnCallByEffect(s, e.pid, EffectOf(s, e.pid, e.a), pid);
      }
    } else if Elsewhere(e) {
      ElsewhereFrame(s, e, pid);
    }
  }

  // ----- the whole invariant -----

  ghost predicate Inv(s: Server) {
    && (forall sid :: SessionOk(s, sid))
    && (forall pid, sid :: PairOk(s, pid, sid))
    && (forall pid :: PromptHome(s, pid))
    && (forall c :: CallOk(s, c))
    && (forall pid :: OnCallOk(s, pid))
  }

  lemma InvKept(s: Server, e: Event)
    requires Inv(s) && Enabled(s, e)
    ensures Inv(Apply(s, e))
  {
    var s' := Apply(s, e);
    forall sid ensures SessionOk(s', sid) { SessionKept(s, e, sid); }
    forall pid, sid ensures PairOk(s', pid, sid) { PairKept(s, e, pid, sid); }
    forall pid ensures PromptHome(s', pid) { HomeKept(s, e, pid); }
    forall c ensures CallOk(s', c) { CallsKept(s, e, c); }
    forall pid ensures OnCallOk(s', pid) { OnCallKept(s, e, pid); }
  }

  lemma {:induction false} RunInv(ss: seq<Server>, es: seq<Event>, k: nat)
    requires Run(ss, es) && k < |ss|
    ensures Inv(ss[k])
  {
    if k > 0 {
      assert Steps(ss, es, k - 1);
      RunInv(ss, es, k - 1);
      InvKept(ss[k - 1], es[k - 1]);
    }
  }
}
