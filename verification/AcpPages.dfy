/**
 What becomes of the pages that prompts open: no page is lost while its prompt holds the
 lease, a page that existed before the prompt is never closed by it, and a page is displaced
 exactly by a prompt that began with a stale page.
 */
module AcpPages {
  import opened Prelude
  import opened AcpServer
  import opened AcpSafety
  import opened AcpPrompts
  import PT = PromptTurn

  // ----- the page a prompt works on -----

  /** The call a stage waits for, as the runtime sees it. */
  function CallAt(s: Server, stage: Stage): Option<Call> {
    if OnCall(stage) && stage.call in s.calls then Some(s.calls[stage.call]) else None
  }

  predicate Awaits(c: Option<Call>, kind: CallKind) {
    c.Some? && c.value.kind == kind
  }

  predicate Announced(c: Option<Call>, page: Id) {
    c.Some? && c.value.reply == Some(NewPage(page))
  }

  /** The prompt has a page in hand that it has neither stored nor given up. */
  predicate Carrying(p: Prompt, c: Option<Call>) {
    p.stage.HavePage? || p.stage.Abandon? || p.stage.Arrived? || (p.stage.Waiting? && Awaits(c, Navigate))
  }

  predicate NeverOwns(stage: Stage) {
    || stage.Looked? || stage.Begun? || stage.Evidenced? || stage.HaveTarget?
    || stage.Asking? || stage.Approved?
  }

  /** How `hand`, `own` and `snapshot` fit the stage. */
  predicate HandOk(p: Prompt, c: Option<Call>) {
    && (p.own ==> p.snapshot.None?)
    && (Carrying(p, c) ==> p.hand.Some? && (!p.own ==> p.hand == p.snapshot))
    && (p.stage.Abandon? ==> p.own)
    && (Awaits(c, OpenPage) ==> p.snapshot.None? && !p.own)
    && (p.own && OnCall(p.stage) ==> Awaits(c, Navigate) || Awaits(c, ClosePage))
    && (NeverOwns(p.stage) ==> !p.own)
    && (c.Some? && c.value.reply.Some? && c.value.reply.value.NewPage? ==> c.value.kind == OpenPage)
  }

  /** The page is in the prompt's hands: it carries it, or the reply that names it is waiting. */
  predicate InHand(p: Prompt, c: Option<Call>, page: Id) {
    (p.own && Carrying(p, c) && p.hand == Some(page)) || Announced(c, page)
  }

  /** The prompt has not yet stored a page for its session. */
  predicate Undecided(p: Prompt, c: Option<Call>) {
    || p.stage.Begun? || p.stage.HavePage? || p.stage.Arrived?
    || (p.stage.Waiting? && (Awaits(c, OpenPage) || Awaits(c, Navigate)))
  }

  /** The call the acting prompt waits for after its effect. */
  function CallNext(s: Server, pid: Id, p: Prompt, f: Effect): Option<Call> {
    if f.next.None? || f.ends.Some? then None
    else if f.starts.Some? then Some(Call(pid, p.sid, f.starts.value, None))
    else CallAt(s, f.next.value.stage)
  }

  /** What an effect does with pages. */
  predicate PageShape(s: Server, pid: Id, p: Prompt, f: Effect) {
    && (f.closes.Some? ==>
          p.stage.Abandon? && f.closes == p.hand && f.starts == Some(ClosePage)
          && f.next.Some? && f.next.value.stage.Closing?)
    && (f.records.Some? ==>
          p.stage.Arrived? && f.records == p.hand && p.sid in s.sessions
          && f.next.Some? && f.next.value.stage.FindTarget?)
    && (f.next.Some? ==>
          && f.next.value.snapshot == p.snapshot
          && f.next.value.atBegin == (if f.turn == Some(PT.Begin(pid)) then PageOf(s, p.sid) else p.atBegin)
          && (Undecided(f.next.value, CallNext(s, pid, p, f)) ==>
                Undecided(p, CallAt(s, p.stage)) || f.turn == Some(PT.Begin(pid))))
  }

  lemma PageShapes(s: Server, pid: Id, p: Prompt, a: PromptAction)
    requires ActionEnabled(s, pid, p, a)
    ensures PageShape(s, pid, p, ActionEffect(s, pid, p, a))
  {
  }

  /** After a reply, or a decision about the page that does not wait for one. */
  predicate Answers(a: PromptAction) {
    a.Observe? || a.Drained? || a.CloseDone? || a.Record? || a.RecordGone? || a.TargetFound? || a.TargetGone?
  }

  lemma HandByAnswer(s: Server, pid: Id, p: Prompt, a: PromptAction)
    requires ActionEnabled(s, pid, p, a) && HandOk(p, CallAt(s, p.stage)) && Answers(a)
    ensures var f := ActionEffect(s, pid, p, a);
            f.next.Some? ==> HandOk(f.next.value, CallNext(s, pid, p, f))
  {
  }

  lemma HandByDecision(s: Server, pid: Id, p: Prompt, a: PromptAction)
    requires ActionEnabled(s, pid, p, a) && HandOk(p, CallAt(s, p.stage)) && !Answers(a)
    ensures var f := ActionEffect(s, pid, p, a);
            f.next.Some? ==> HandOk(f.next.value, CallNext(s, pid, p, f))
  {
  }

  /** A page leaves a prompt's hands only by being stored, closed, or left to a session being deleted. */
  lemma HandOnward(s: Server, pid: Id, p: Prompt, a: PromptAction, page: Id)
    requires ActionEnabled(s, pid, p, a) && HandOk(p, CallAt(s, p.stage))
    requires InHand(p, CallAt(s, p.stage), page)
    requires p.stage.Closing? ==> Awaits(CallAt(s, p.stage), ClosePage)
    ensures var f := ActionEffect(s, pid, p, a);
            || (f.next.Some? && InHand(f.next.value, CallNext(s, pid, p, f), page))
            || f.closes == Some(page) || f.records == Some(page) || p.sid !in s.sessions
  {
  }

  /** A page enters a prompt's hands only through the reply of its own call. */
  lemma HandBackward(s: Server, pid: Id, p: Prompt, a: PromptAction, page: Id)
    requires ActionEnabled(s, pid, p, a) && HandOk(p, CallAt(s, p.stage))
    ensures var f := ActionEffect(s, pid, p, a);
            f.next.Some? && InHand(f.next.value, CallNext(s, pid, p, f), page) ==>
              InHand(p, CallAt(s, p.stage), page)
  {
  }

  // ----- the invariant -----

  predicate HandsOk(s: Server, pid: Id) {
    pid in s.prompts ==> HandOk(s.prompts[pid], CallAt(s, s.prompts[pid].stage))
  }

  predicate Holding(s: Server, pid: Id, page: Id) {
    pid in s.prompts && InHand(s.prompts[pid], CallAt(s, s.prompts[pid].stage), page)
  }

  /** The page was opened by this prompt and has been neither stored nor closed. */
  predicate Fresh(s: Server, pid: Id, page: Id) {
    && pid in s.prompts && page in s.log.pages && s.log.pages[page] == Opening(s.prompts[pid].sid, pid)
    && page !in s.log.recorded && page !in s.log.closeSubmitted
  }

  predicate HandFresh(s: Server, pid: Id, page: Id) {
    Holding(s, pid, page) ==> Fresh(s, pid, page)
  }

  predicate LogOk(s: Server, page: Id) {
    && (page in s.log.recorded || page in s.log.closeSubmitted ==> page in s.log.pages)
    && !(page in s.log.recorded && page in s.log.closeSubmitted)
    && (page in s.log.pages ==>
          var o := s.log.pages[page];
          && o.pid in s.log.prompted && o.sid in s.turns
          && (o.pid in s.prompts ==> s.prompts[o.pid].sid == o.sid && !s.prompts[o.pid].stage.Looked?))
  }

  predicate StoredOk(s: Server, sid: Id) {
    PageOf(s, sid).Some? ==> PageOf(s, sid).value in s.log.recorded
  }

  /** Pages a prompt saw before it began were stored, and opened by somebody else. */
  predicate SeenOk(s: Server, pid: Id) {
    pid in s.prompts ==>
      var p := s.prompts[pid];
      && (p.snapshot.Some? ==> p.snapshot.value in s.log.recorded)
      && (p.atBegin.Some? ==>
            && p.atBegin.value in s.log.recorded && p.atBegin.value in s.log.pages
            && s.log.pages[p.atBegin.value].pid != pid)
  }

  /** Until a lease holder stores a page, its session has the page it had at `begin`. */
  predicate ViewOk(s: Server, pid: Id) {
    pid in s.prompts && Undecided(s.prompts[pid], CallAt(s, s.prompts[pid].stage)) ==>
      s.prompts[pid].sid in s.sessions ==> s.sessions[s.prompts[pid].sid] == s.prompts[pid].atBegin
  }

  /** Stored as its session's page, closed, or of a session taken for deletion. */
  predicate Settled(s: Server, page: Id)
    requires page in s.log.pages
  {
    || page in s.log.closeSubmitted
    || s.log.pages[page].sid !in s.sessions
    || s.sessions[s.log.pages[page].sid] == Some(page)
  }

  predicate PageOk(s: Server, page: Id) {
    page in s.log.pages ==>
      var o := s.log.pages[page];
      || Holding(s, o.pid, page)
      || Settled(s, page)
      || (page in s.log.orphaned && !Owns(s, o.pid, o.sid))
  }

  ghost predicate PagesInv(s: Server) {
    && (forall pid :: HandsOk(s, pid) && SeenOk(s, pid) && ViewOk(s, pid))
    && (forall pid, page :: HandFresh(s, pid, page))
    && (forall page :: LogOk(s, page) && PageOk(s, page))
    && (forall sid :: StoredOk(s, sid))
  }

  // ----- prompt steps -----

  /** The acting prompt's call after the step. */
  lemma CallNextOk(s: Server, x: Id, f: Effect)
    requires Fits(s, x, f) && f.next.Some?
    ensures CallAt(Perform(s, x, s.prompts[x].sid, f), f.next.value.stage) == CallNext(s, x, s.prompts[x], f)
  {
  }

  /** A step of one prompt does not touch another prompt or its call. */
  lemma OtherPrompt(s: Server, x: Id, f: Effect, pid: Id)
    requires Fits(s, x, f) && pid != x && OnCallOk(s, x) && OnCallOk(s, pid)
    requires pid in s.prompts && OnCall(s.prompts[pid].stage) ==> CallOk(s, s.prompts[pid].stage.call)
    ensures var s' := Perform(s, x, s.prompts[x].sid, f);
            && (pid in s'.prompts <==> pid in s.prompts)
            && (pid in s.prompts ==>
                  && s'.prompts[pid] == s.prompts[pid]
                  && CallAt(s', s'.prompts[pid].stage) == CallAt(s, s.prompts[pid].stage))
  {
  }

  predicate Proper(s: Server, x: Id, f: Effect) {
    && Fits(s, x, f)
    && PageShape(s, x, s.prompts[x], f)
    && (f.next.Some? ==> HandOk(f.next.value, CallNext(s, x, s.prompts[x], f)))
  }

  predicate ProperAt(s: Server, x: Id, f: Effect, page: Id)
    requires x in s.prompts
  {
    var p := s.prompts[x];
    var after := f.next.Some? && InHand(f.next.value, CallNext(s, x, p, f), page);
    && (after ==> Holding(s, x, page))
    && (Holding(s, x, page) ==>
          after || f.closes == Some(page) || f.records == Some(page) || p.sid !in s.sessions)
  }

  lemma ActionProper(s: Server, x: Id, a: PromptAction)
    requires PromptEnabled(s, x, a) && !a.Look? && HandsOk(s, x)
    ensures Proper(s, x, EffectOf(s, x, a))
  {
    ActionFits(s, x, a);
    PageShapes(s, x, s.prompts[x], a);
    if Answers(a) {
      HandByAnswer(s, x, s.prompts[x], a);
    } else {
      HandByDecision(s, x, s.prompts[x], a);
    }
  }

  lemma ActionProperAt(s: Server, x: Id, a: PromptAction, page: Id)
    requires PromptEnabled(s, x, a) && !a.Look? && HandsOk(s, x) && OnCallOk(s, x)
    ensures ProperAt(s, x, EffectOf(s, x, a), page)
  {
    HandBackward(s, x, s.prompts[x], a, page);
    if Holding(s, x, page) {
      HandOnward(s, x, s.prompts[x], a, page);
    }
  }

  function After(s: Server, x: Id, f: Effect): Server
    requires x in s.prompts
  {
    Perform(s, x, s.prompts[x].sid, f)
  }

  lemma HandsByEffect(s: Server, x: Id, f: Effect)
    requires Proper(s, x, f)
    ensures HandsOk(After(s, x, f), x)
  {
    if f.next.Some? {
      CallNextOk(s, x, f);
    }
  }

  lemma SeenByEffect(s: Server, x: Id, f: Effect)
    requires Proper(s, x, f) && SeenOk(s, x) && StoredOk(s, s.prompts[x].sid)
    requires PageOf(s, s.prompts[x].sid).Some? ==> LogOk(s, PageOf(s, s.prompts[x].sid).value)
    ensures SeenOk(After(s, x, f), x)
  {
  }

  lemma ViewByEffect(s: Server, x: Id, f: Effect)
    requires Proper(s, x, f) && ViewOk(s, x)
    ensures ViewOk(After(s, x, f), x)
  {
    if f.next.Some? {
      CallNextOk(s, x, f);
    }
  }

  /** Storing a page changes only the view of the lease holder itself. */
  lemma ViewOfOther(s: Server, x: Id, f: Effect, pid: Id)
    requires Proper(s, x, f) && pid != x && ViewOk(s, pid) && OnCallOk(s, x) && OnCallOk(s, pid)
    requires pid in s.prompts && OnCall(s.prompts[pid].stage) ==> CallOk(s, s.prompts[pid].stage.call)
    requires pid in s.prompts ==> SessionOk(s, s.prompts[pid].sid) && PromptHome(s, pid)
    requires pid in s.prompts ==> PairOk(s, pid, s.prompts[pid].sid) && PairOk(s, x, s.prompts[pid].sid)
    ensures ViewOk(After(s, x, f), pid)
  {
    OtherPrompt(s, x, f, pid);
    if pid in s.prompts && s.prompts[pid].sid == s.prompts[x].sid && f.records.Some? {
      assert !HoldsLease(s.prompts[pid].stage);
    }
  }

  lemma FreshByEffect(s: Server, x: Id, f: Effect, page: Id)
    requires Proper(s, x, f) && ProperAt(s, x, f, page) && HandFresh(s, x, page)
    ensures HandFresh(After(s, x, f), x, page)
  {
    if f.next.Some? {
      CallNextOk(s, x, f);
    }
  }

  /** A page that a prompt closes is one it opened itself and never stored. */
  lemma ClosesOwnPage(s: Server, x: Id, f: Effect)
    requires Proper(s, x, f) && HandsOk(s, x) && f.closes.Some? && HandFresh(s, x, f.closes.value)
    ensures Fresh(s, x, f.closes.value)
  {
    assert Carrying(s.prompts[x], CallAt(s, s.prompts[x].stage));
  }

  /** A page that a prompt stores is one it opened itself, or one that was stored before. */
  lemma StoresOwnOrStored(s: Server, x: Id, f: Effect)
    requires Proper(s, x, f) && HandsOk(s, x) && SeenOk(s, x)
    requires f.records.Some? && HandFresh(s, x, f.records.value)
    ensures if s.prompts[x].own then Fresh(s, x, f.records.value) else f.records.value in s.log.recorded
  {
    assert Carrying(s.prompts[x], CallAt(s, s.prompts[x].stage));
  }

  /** The facts about the acting prompt that its effect on pages relies on. */
  predicate ActorOk(s: Server, x: Id, f: Effect) {
    && Proper(s, x, f) && HandsOk(s, x) && SeenOk(s, x) && ViewOk(s, x) && OnCallOk(s, x)
    && (f.closes.Some? ==> Fresh(s, x, f.closes.value))
    && (f.records.Some? ==>
          if s.prompts[x].own then Fresh(s, x, f.records.value) else f.records.value in s.log.recorded)
  }

  lemma FreshOfOther(s: Server, x: Id, f: Effect, pid: Id, page: Id)
    requires ActorOk(s, x, f) && pid != x && HandFresh(s, pid, page) && OnCallOk(s, pid)
    requires pid in s.prompts && OnCall(s.prompts[pid].stage) ==> CallOk(s, s.prompts[pid].stage.call)
    ensures HandFresh(After(s, x, f), pid, page)
  {
    OtherPrompt(s, x, f, pid);
  }

  lemma LogByEffect(s: Server, x: Id, f: Effect, page: Id)
    requires ActorOk(s, x, f) && LogOk(s, page)
    ensures LogOk(After(s, x, f), page)
  {
  }

  lemma StoredByEffect(s: Server, x: Id, f: Effect, sid: Id)
    requires Proper(s, x, f) && StoredOk(s, sid)
    ensures StoredOk(After(s, x, f), sid)
  {
  }

  /** A page opened by another prompt. */
  lemma PageOfOther(s: Server, x: Id, f: Effect, page: Id)
    requires ActorOk(s, x, f) && PageOk(s, page) && LogOk(s, page)
    requires page in s.log.pages && s.log.pages[page].pid != x
    requires var o := s.log.pages[page];
             && OnCallOk(s, o.pid) && SessionOk(s, o.sid) && PairOk(s, o.pid, o.sid) && PairOk(s, x, o.sid)
             && (o.pid in s.prompts && OnCall(s.prompts[o.pid].stage) ==> CallOk(s, s.prompts[o.pid].stage.call))
    ensures PageOk(After(s, x, f), page)
  {
    var o := s.log.pages[page];
    OtherPrompt(s, x, f, o.pid);
    if f.records.Some? && s.prompts[x].sid == o.sid {
      assert !Owns(s, o.pid, o.sid);
    }
  }

  /** A page opened by the acting prompt itself. */
  lemma PageOfActor(s: Server, x: Id, f: Effect, page: Id)
    requires ActorOk(s, x, f) && PageOk(s, page) && LogOk(s, page) && ProperAt(s, x, f, page)
    requires page in s.log.pages && s.log.pages[page].pid == x
    ensures PageOk(After(s, x, f), page)
  {
    if f.next.Some? {
      CallNextOk(s, x, f);
    }
    if f.records.Some? && s.sessions[s.prompts[x].sid] == Some(page) {
      assert false;
    }
  }

  // ----- the other steps -----

  lemma LookKeepsPages(s: Server, x: Id, a: PromptAction)
    requires PagesInv(s) && PromptEnabled(s, x, a) && a.Look?
    ensures PagesInv(PromptApply(s, x, a))
  {
    var s' := PromptApply(s, x, a);
    assert StoredOk(s, a.sid);
    forall pid ensures HandsOk(s', pid) && SeenOk(s', pid) && ViewOk(s', pid) {
      assert HandsOk(s, pid) && SeenOk(s, pid) && ViewOk(s, pid);
    }
    forall pid, page ensures HandFresh(s', pid, page) { assert HandFresh(s, pid, page); }
    forall page ensures LogOk(s', page) && PageOk(s', page) { assert LogOk(s, page) && PageOk(s, page); }
    forall sid ensures StoredOk(s', sid) { assert StoredOk(s, sid); }
  }

  /** A reply reaches the prompt that waits for the call, and nobody else. */
  lemma ReplyReaches(s: Server, call: Id, reply: Reply, pid: Id)
    requires ReplyEnabled(s, call, reply) && CallOk(s, call) && OnCallOk(s, pid)
    ensures var s' := ReplyApply(s, call, reply);
            && s'.prompts == s.prompts
            && (pid in s.prompts ==>
                  var c, c' := CallAt(s, s.prompts[pid].stage), CallAt(s', s.prompts[pid].stage);
                  if s.calls[call].pid == pid then
                    c == Some(s.calls[call]) && c' == Some(s.calls[call].(reply := Some(reply)))
                  else c' == c)
  {
  }

  lemma ReplyKeepsHands(s: Server, call: Id, reply: Reply, pid: Id)
    requires ReplyEnabled(s, call, reply) && CallOk(s, call) && OnCallOk(s, pid)
    requires HandsOk(s, pid) && SeenOk(s, pid) && ViewOk(s, pid)
    ensures var s' := ReplyApply(s, call, reply);
            HandsOk(s', pid) && SeenOk(s', pid) && ViewOk(s', pid)
  {
    ReplyReaches(s, call, reply, pid);
  }

  lemma ReplyKeepsFresh(s: Server, call: Id, reply: Reply, pid: Id, page: Id)
    requires ReplyEnabled(s, call, reply) && CallOk(s, call) && OnCallOk(s, pid)
    requires HandFresh(s, pid, page) && LogOk(s, page)
    ensures HandFresh(ReplyApply(s, call, reply), pid, page)
  {
    ReplyReaches(s, call, reply, pid);
  }

  lemma ReplyKeepsPage(s: Server, call: Id, reply: Reply, page: Id)
    requires ReplyEnabled(s, call, reply) && CallOk(s, call) && OnCallOk(s, s.calls[call].pid)
    requires LogOk(s, page) && PageOk(s, page)
    requires page in s.log.pages ==> OnCallOk(s, s.log.pages[page].pid)
    requires PromptHome(s, s.calls[call].pid)
    ensures LogOk(ReplyApply(s, call, reply), page) && PageOk(ReplyApply(s, call, reply), page)
  {
    ReplyReaches(s, call, reply, s.calls[call].pid);
    if page in s.log.pages {
      ReplyReaches(s, call, reply, s.log.pages[page].pid);
    }
  }

  lemma ReplyKeepsPages(s: Server, call: Id, reply: Reply)
    requires Inv(s) && PagesInv(s) && ReplyEnabled(s, call, reply)
    ensures PagesInv(ReplyApply(s, call, reply))
  {
    var s' := ReplyApply(s, call, reply);
    forall pid ensures HandsOk(s', pid) && SeenOk(s', pid) && ViewOk(s', pid) {
      ReplyKeepsHands(s, call, reply, pid);
    }
    forall pid, page ensures HandFresh(s', pid, page) { ReplyKeepsFresh(s, call, reply, pid, page); }
    forall page ensures LogOk(s', page) && PageOk(s', page) { ReplyKeepsPage(s, call, reply, page); }
    forall sid ensures StoredOk(s', sid) { assert StoredOk(s, sid); }
  }

  lemma UntouchedKeepsPages(s: Server, s': Server)
    requires PagesInv(s) && PromptsUntouched(s, s')
    requires forall sid :: SessionsShrink(s, s', sid)
    requires forall sid :: sid in s.turns ==> sid in s'.turns
    requires forall pid :: PromptHome(s, pid)
    ensures PagesInv(s')
  {
    forall pid ensures HandsOk(s', pid) && SeenOk(s', pid) && ViewOk(s', pid) {
      assert HandsOk(s, pid) && SeenOk(s, pid) && ViewOk(s, pid) && PromptHome(s, pid);
      if pid in s.prompts {
        assert SessionsShrink(s, s', s.prompts[pid].sid);
      }
    }
    forall pid, page ensures HandFresh(s', pid, page) { assert HandFresh(s, pid, page); }
    forall page ensures LogOk(s', page) && PageOk(s', page) {
      assert LogOk(s, page) && PageOk(s, page);
      if page in s.log.pages {
        assert SessionsShrink(s, s', s.log.pages[page].sid);
      }
    }
    forall sid ensures StoredOk(s', sid) { assert StoredOk(s, sid) && SessionsShrink(s, s', sid); }
  }

  lemma ElsewhereKeepsPages(s: Server, e: Event)
    requires Inv(s) && PagesInv(s) && Enabled(s, e) && Elsewhere(e)
    ensures PagesInv(Apply(s, e))
  {
    var s' := Apply(s, e);
    ElsewhereFrame(s, e, Id(0));
    forall sid ensures SessionsShrink(s, s', sid) && (sid in s.turns ==> sid in s'.turns) {
      ElsewhereFrame(s, e, sid);
      assert SessionOk(s, sid);
    }
    UntouchedKeepsPages(s, s');
  }

  lemma ActionActorOk(s: Server, x: Id, a: PromptAction)
    requires Inv(s) && PagesInv(s) && PromptEnabled(s, x, a) && !a.Look?
    ensures ActorOk(s, x, EffectOf(s, x, a))
  {
    assert HandsOk(s, x) && OnCallOk(s, x) && SeenOk(s, x) && ViewOk(s, x);
    var f := EffectOf(s, x, a);
    ActionProper(s, x, a);
    if f.closes.Some? {
      assert HandFresh(s, x, f.closes.value);
      ClosesOwnPage(s, x, f);
    }
    if f.records.Some? {
      assert HandFresh(s, x, f.records.value);
      StoresOwnOrStored(s, x, f);
    }
  }

  /** Everything the pages of one prompt rely on. */
  predicate PromptPagesOk(s: Server, pid: Id) {
    HandsOk(s, pid) && SeenOk(s, pid) && ViewOk(s, pid)
  }

  lemma ActorKept(s: Server, x: Id, f: Effect)
    requires PagesInv(s) && ActorOk(s, x, f)
    ensures PromptPagesOk(After(s, x, f), x)
  {
    HandsByEffect(s, x, f);
    var page := PageOf(s, s.prompts[x].sid);
    assert StoredOk(s, s.prompts[x].sid) && (page.Some? ==> LogOk(s, page.value));
    SeenByEffect(s, x, f);
    ViewByEffect(s, x, f);
  }

  lemma OtherKept(s: Server, x: Id, f: Effect, pid: Id)
    requires Inv(s) && ActorOk(s, x, f) && pid != x && PromptPagesOk(s, pid)
    ensures PromptPagesOk(After(s, x, f), pid)
  {
    assert OnCallOk(s, pid) && PromptHome(s, pid);
    if pid in s.prompts {
      assert SessionOk(s, s.prompts[pid].sid);
      assert PairOk(s, pid, s.prompts[pid].sid) && PairOk(s, x, s.prompts[pid].sid);
    }
    OtherPrompt(s, x, f, pid);
    ViewOfOther(s, x, f, pid);
  }

  lemma ActionKeepsPrompt(s: Server, x: Id, a: PromptAction, pid: Id)
    requires Inv(s) && PagesInv(s) && PromptEnabled(s, x, a) && !a.Look?
    ensures PromptPagesOk(PromptApply(s, x, a), pid)
  {
    ActionActorOk(s, x, a);
    assert PromptPagesOk(s, pid);
    if pid == x {
      ActorKept(s, x, EffectOf(s, x, a));
    } else {
      OtherKept(s, x, EffectOf(s, x, a), pid);
    }
  }

  lemma ActionKeepsFresh(s: Server, x: Id, a: PromptAction, pid: Id, page: Id)
    requires Inv(s) && PagesInv(s) && PromptEnabled(s, x, a) && !a.Look?
    ensures HandFresh(PromptApply(s, x, a), pid, page)
  {
    ActionActorOk(s, x, a);
    assert HandFresh(s, pid, page) && OnCallOk(s, pid);
    if pid == x {
      ActionProperAt(s, x, a, page);
      FreshByEffect(s, x, EffectOf(s, x, a), page);
    } else {
      FreshOfOther(s, x, EffectOf(s, x, a), pid, page);
    }
  }

  lemma ActionKeepsPage(s: Server, x: Id, a: PromptAction, page: Id)
    requires Inv(s) && PagesInv(s) && PromptEnabled(s, x, a) && !a.Look?
    ensures LogOk(PromptApply(s, x, a), page) && PageOk(PromptApply(s, x, a), page)
  {
    ActionActorOk(s, x, a);
    var f := EffectOf(s, x, a);
    assert LogOk(s, page) && PageOk(s, page);
    LogByEffect(s, x, f, page);
    if page in s.log.pages {
      if s.log.pages[page].pid == x {
        ActionProperAt(s, x, a, page);
        PageOfActor(s, x, f, page);
      } else {
        ActionKeepsOther(s, x, a, page);
      }
    }
  }

  lemma ActionKeepsOther(s: Server, x: Id, a: PromptAction, page: Id)
    requires Inv(s) && PagesInv(s) && PromptEnabled(s, x, a) && !a.Look?
    requires page in s.log.pages && s.log.pages[page].pid != x
    ensures PageOk(PromptApply(s, x, a), page)
  {
    var o := s.log.pages[page];
    ActionActorOk(s, x, a);
    assert LogOk(s, page) && PageOk(s, page);
    assert OnCallOk(s, o.pid) && SessionOk(s, o.sid) && PairOk(s, o.pid, o.sid) && PairOk(s, x, o.sid);
    PageOfOther(s, x, EffectOf(s, x, a), page);
  }

  lemma PagesKept(s: Server, e: Event)
    requires Inv(s) && PagesInv(s) && Enabled(s, e)
    ensures PagesInv(Apply(s, e))
  {
    if e.OnPrompt? {
      if e.a.Look? {
        LookKeepsPages(s, e.pid, e.a);
      } else {
        ActionKeepsPages(s, e.pid, e.a);
      }
    } else if e.OnReply? {
      ReplyKeepsPages(s, e.call, e.reply);
    } else {
      ElsewhereKeepsPages(s, e);
    }
  }

  lemma ActionKeepsPages(s: Server, x: Id, a: PromptAction)
    requires Inv(s) && PagesInv(s) && PromptEnabled(s, x, a) && !a.Look?
    ensures PagesInv(PromptApply(s, x, a))
  {
    var s' := PromptApply(s, x, a);
    forall pid ensures HandsOk(s', pid) && SeenOk(s', pid) && ViewOk(s', pid) { ActionKeepsPrompt(s, x, a, pid); }
    forall pid, page ensures HandFresh(s', pid, page) { ActionKeepsFresh(s, x, a, pid, page); }
    forall page ensures LogOk(s', page) && PageOk(s', page) { ActionKeepsPage(s, x, a, page); }
    forall sid ensures StoredOk(s', sid) {
      ActionActorOk(s, x, a);
      assert StoredOk(s, sid);
      StoredByEffect(s, x, EffectOf(s, x, a), sid);
    }
  }

  lemma {:induction false} RunPages(ss: seq<Server>, es: seq<Event>, k: nat)
    requires Run(ss, es) && k < |ss|
    ensures PagesInv(ss[k])
  {
    if k > 0 {
      assert Steps(ss, es, k - 1);
      RunPages(ss, es, k - 1);
      RunInv(ss, es, k - 1);
      PagesKept(ss[k - 1], es[k - 1]);
    }
  }

  // ----- what holds in every run -----

  /**
   No page is lost: when a prompt lets go of its lease, every page it opened is stored as
   its session's page, has had its close submitted, or belongs to a session that is no
   longer live.
   */
  lemma NoPageLost(ss: seq<Server>, es: seq<Event>, k: nat, pid: Id, page: Id)
    requires Run(ss, es) && Happens(ss, es, k, OnPrompt(pid, Release))
    requires page in ss[k].log.pages && ss[k].log.pages[page].pid == pid
    ensures Settled(ss[k], page)
    ensures ss[k].log.pages[page].sid !in ss[k].sessions ==>
              var sid := ss[k].log.pages[page].sid;
              || ClaimedBy(ss[k].holder, sid) || sid in ss[k].retired
              || sid in ss[k].log.deleted || sid in ss[k].log.abandoned
  {
    SettledAtRelease(ss, es, k, pid, page);
    if ss[k].log.pages[page].sid !in ss[k].sessions {
      OwnerKnown(ss, es, k, page);
    }
  }

  lemma SettledAtRelease(ss: seq<Server>, es: seq<Event>, k: nat, pid: Id, page: Id)
    requires Run(ss, es) && Happens(ss, es, k, OnPrompt(pid, Release))
    requires page in ss[k].log.pages && ss[k].log.pages[page].pid == pid
    ensures Settled(ss[k], page)
  {
    RunPages(ss, es, k);
    assert PageOk(ss[k], page) && LogOk(ss[k], page);
  }

  /** The session of an opened page is live, being cleaned up, retired, deleted or abandoned. */
  lemma OwnerKnown(ss: seq<Server>, es: seq<Event>, k: nat, page: Id)
    requires Run(ss, es) && k < |ss| && page in ss[k].log.pages && ss[k].log.pages[page].sid !in ss[k].sessions
    ensures var sid := ss[k].log.pages[page].sid;
            || ClaimedBy(ss[k].holder, sid) || sid in ss[k].retired
            || sid in ss[k].log.deleted || sid in ss[k].log.abandoned
  {
    RunPages(ss, es, k);
    RunInv(ss, es, k);
    assert PageOk(ss[k], page) && LogOk(ss[k], page);
    assert SessionOk(ss[k], ss[k].log.pages[page].sid);
  }

  /** A prompt submits the close of a page only if it opened that page itself and nobody stored it. */
  lemma ClosesOnlyItsOwnPage(ss: seq<Server>, es: seq<Event>, k: nat, pid: Id)
    requires Run(ss, es) && Happens(ss, es, k, OnPrompt(pid, SubmitClose))
    ensures Fresh(ss[k], pid, ss[k].prompts[pid].hand.value)
  {
    RunPages(ss, es, k);
    RunInv(ss, es, k);
    ActionActorOk(ss[k], pid, SubmitClose);
  }

  /** A page that is, or was, some session's page never has its close submitted. */
  lemma StoredPagesStayOpen(ss: seq<Server>, es: seq<Event>, k: nat, page: Id)
    requires Run(ss, es) && k < |ss|
    ensures !(page in ss[k].log.recorded && page in ss[k].log.closeSubmitted)
    ensures (exists sid :: PageOf(ss[k], sid) == Some(page)) ==> page in ss[k].log.recorded
  {
    RunPages(ss, es, k);
    assert LogOk(ss[k], page);
    forall sid | PageOf(ss[k], sid) == Some(page)
      ensures page in ss[k].log.recorded
    {
      assert StoredOk(ss[k], sid);
    }
  }

  /**
   Storing a page displaces another page exactly when the prompt's snapshot, taken before
   `begin`, was stale: the session already had a page at `begin`, and a different one.
   */
  lemma DisplacesIffStale(ss: seq<Server>, es: seq<Event>, k: nat, pid: Id)
    requires Run(ss, es) && Happens(ss, es, k, OnPrompt(pid, Record))
    ensures var p := ss[k].prompts[pid];
            && ss[k + 1].log.orphaned == ss[k].log.orphaned + Displaced(PageOf(ss[k], p.sid), p.hand)
            && (Displaced(PageOf(ss[k], p.sid), p.hand) != {} <==> p.atBegin.Some? && p.atBegin != p.snapshot)
  {
    RunPages(ss, es, k);
    RunInv(ss, es, k);
    ActionActorOk(ss[k], pid, Record);
    var p := ss[k].prompts[pid];
    assert Undecided(p, CallAt(ss[k], p.stage));
    assert StoredOk(ss[k], p.sid);
  }
}
