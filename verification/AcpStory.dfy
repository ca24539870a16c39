/**
 The story of one prompt, told by the events and replies of a run: why it may store a page,
 ask for an intent, or retry with the user's consent.
 */
module AcpStory {
  import opened Prelude
  import opened AcpServer
  import opened AcpPrompts
  import opened AcpPages

  // ----- one prompt and its call -----

  datatype Seen = Seen(p: Prompt, c: Option<Call>)

  function SeenOf(s: Server, pid: Id): Option<Seen> {
    if pid in s.prompts then Some(Seen(s.prompts[pid], CallAt(s, s.prompts[pid].stage))) else None
  }

  /** What the prompt and its call are after an event. */
  function Moved(s: Server, e: Event, pid: Id): Option<Seen>
    requires Enabled(s, e)
  {
    if e.OnPrompt? && e.pid == pid then
      var f := EffectOf(s, pid, e.a);
      if e.a.Look? then Some(Seen(f.next.value, None))
      else if f.next.Some? then Some(Seen(f.next.value, CallNext(s, pid, s.prompts[pid], f)))
      else None
    else if e.OnReply? && s.calls[e.call].pid == pid && pid in s.prompts then
      Some(Seen(s.prompts[pid], Some(s.calls[e.call].(reply := Some(e.reply)))))
    else SeenOf(s, pid)
  }

  lemma OwnMove(s: Server, a: PromptAction, pid: Id)
    requires Inv(s) && PromptEnabled(s, pid, a) && !a.Look?
    ensures SeenOf(PromptApply(s, pid, a), pid) == Moved(s, OnPrompt(pid, a), pid)
  {
    ActionFits(s, pid, a);
    var f := EffectOf(s, pid, a);
    if f.next.Some? {
      CallNextOk(s, pid, f);
    }
  }

  lemma OthersMove(s: Server, x: Id, a: PromptAction, pid: Id)
    requires Inv(s) && PromptEnabled(s, x, a) && x != pid
    ensures SeenOf(PromptApply(s, x, a), pid) == SeenOf(s, pid)
  {
    if !a.Look? {
      ActionFits(s, x, a);
      assert OnCallOk(s, x) && OnCallOk(s, pid);
      OtherPrompt(s, x, EffectOf(s, x, a), pid);
    }
  }

  lemma Moves(s: Server, e: Event, pid: Id)
    requires Inv(s) && Enabled(s, e)
    ensures SeenOf(Apply(s, e), pid) == Moved(s, e, pid)
  {
    if e.OnPrompt? {
      if e.pid != pid {
        OthersMove(s, e.pid, e.a, pid);
      } else if !e.a.Look? {
        OwnMove(s, e.a, pid);
      }
    } else if e.OnReply? {
      assert CallOk(s, e.call) && OnCallOk(s, pid);
      ReplyReaches(s, e.call, e.reply, pid);
    } else {
      ElsewhereFrame(s, e, Id(0));
    }
  }

  lemma MovesAt(ss: seq<Server>, es: seq<Event>, k: nat, pid: Id)
    requires Run(ss, es) && Steps(ss, es, k)
    ensures SeenOf(ss[k + 1], pid) == Moved(ss[k], es[k], pid)
  {
    RunInv(ss, es, k);
    Moves(ss[k], es[k], pid);
  }

  // ----- what events tell -----

  /** Event `l` is the prompt's look at its session, which had this page. */
  ghost predicate LookedAt(ss: seq<Server>, es: seq<Event>, l: int, pid: Id, sid: Id, page: Option<Id>) {
    Happens(ss, es, l, OnPrompt(pid, Look(sid))) && sid in ss[l].sessions && ss[l].sessions[sid] == page
  }

  /** Event `n` is the runtime's reply to a call of this kind that the prompt made. */
  ghost predicate AnsweredAt(ss: seq<Server>, es: seq<Event>, n: int, pid: Id, kind: CallKind, reply: Reply) {
    && Steps(ss, es, n) && es[n].OnReply? && es[n].reply == reply && es[n].call in ss[n].calls
    && ss[n].calls[es[n].call].pid == pid && ss[n].calls[es[n].call].kind == kind
  }

  /** Event `o` gave the prompt its page: the session's page, seen before `begin` and reused, or one the runtime opened. */
  ghost predicate Obtains(ss: seq<Server>, es: seq<Event>, o: int, pid: Id, sid: Id, page: Id) {
    || (Happens(ss, es, o, OnPrompt(pid, ReusePage)) && exists l :: 0 <= l < o && LookedAt(ss, es, l, pid, sid, Some(page)))
    || AnsweredAt(ss, es, o, pid, OpenPage, NewPage(page))
  }

  ghost predicate Looks(ss: seq<Server>, es: seq<Event>, k: nat, pid: Id, sid: Id, page: Option<Id>) {
    exists l :: 0 <= l < k && LookedAt(ss, es, l, pid, sid, page)
  }

  ghost predicate Answered(ss: seq<Server>, es: seq<Event>, k: nat, pid: Id, kind: CallKind, reply: Reply) {
    exists n :: 0 <= n < k && AnsweredAt(ss, es, n, pid, kind, reply)
  }

  ghost predicate Obtained(ss: seq<Server>, es: seq<Event>, k: nat, pid: Id, sid: Id, page: Id) {
    exists o :: 0 <= o < k && Obtains(ss, es, o, pid, sid, page)
  }

  /** The prompt got the page, and later its navigation was answered so. */
  ghost predicate Navigated(ss: seq<Server>, es: seq<Event>, k: nat, pid: Id, sid: Id, page: Id, reply: Reply) {
    exists o, n :: 0 <= o < n < k && Obtains(ss, es, o, pid, sid, page) && AnsweredAt(ss, es, n, pid, Navigate, reply)
  }

  ghost predicate TargetAt(ss: seq<Server>, es: seq<Event>, m: int, pid: Id, sid: Id, page: Option<Id>) {
    Happens(ss, es, m, OnPrompt(pid, TargetFound)) && sid in ss[m].sessions && ss[m].sessions[sid] == page && page.Some?
  }

  /** The prompt took its session's page as its target. */
  ghost predicate Targeted(ss: seq<Server>, es: seq<Event>, k: nat, pid: Id, sid: Id, page: Option<Id>) {
    exists m :: 0 <= m < k && TargetAt(ss, es, m, pid, sid, page)
  }

  /** The intent was refused for lack of vision consent, and then the user granted it. */
  ghost predicate Consented(ss: seq<Server>, es: seq<Event>, k: nat, pid: Id) {
    exists g, m :: 0 <= g < m < k && AnsweredAt(ss, es, g, pid, Intent, Gated)
                   && Happens(ss, es, m, OnPrompt(pid, Permission(true)))
  }

  /** The runtime gave evidence and no error. */
  ghost predicate Attested(ss: seq<Server>, es: seq<Event>, k: nat, pid: Id) {
    exists r :: r != Error && Answered(ss, es, k, pid, Evidence, r)
  }

  // ----- the invariant -----

  predicate Navigating(v: Seen) {
    v.p.stage.Waiting? && Awaits(v.c, Navigate)
  }

  predicate HasReply(v: Seen) {
    v.c.Some? && v.c.value.reply.Some?
  }

  ghost predicate PageTale(ss: seq<Server>, es: seq<Event>, k: nat, pid: Id, v: Seen) {
    && Looks(ss, es, k, pid, v.p.sid, v.p.snapshot)
    && (v.p.stage.HavePage? || Navigating(v) ==>
          v.p.hand.Some? && Obtained(ss, es, k, pid, v.p.sid, v.p.hand.value))
    && (Navigating(v) && HasReply(v) ==>
          v.p.hand.Some? && Navigated(ss, es, k, pid, v.p.sid, v.p.hand.value, v.c.value.reply.value))
    && (v.p.stage.Arrived? ==>
          v.p.hand.Some? && Navigated(ss, es, k, pid, v.p.sid, v.p.hand.value, Completed))
  }

  ghost predicate CallTale(ss: seq<Server>, es: seq<Event>, k: nat, pid: Id, v: Seen) {
    && (HasReply(v) ==> Answered(ss, es, k, pid, v.c.value.kind, v.c.value.reply.value))
    && (v.p.stage.HaveTarget? ==> Targeted(ss, es, k, pid, v.p.sid, v.p.hand))
    && (v.p.stage.Evidenced? ==> Attested(ss, es, k, pid))
    && (v.p.stage.Asking? ==> Answered(ss, es, k, pid, Intent, Gated))
    && (v.p.stage.Approved? ==> Consented(ss, es, k, pid))
  }

  lemma PageTaleLater(ss: seq<Server>, es: seq<Event>, k: nat, pid: Id, v: Seen)
    requires PageTale(ss, es, k, pid, v)
    ensures PageTale(ss, es, k + 1, pid, v)
  {
  }

  lemma CallTaleLater(ss: seq<Server>, es: seq<Event>, k: nat, pid: Id, v: Seen)
    requires CallTale(ss, es, k, pid, v)
    ensures CallTale(ss, es, k + 1, pid, v)
  {
    if v.p.stage.Evidenced? {
      var r :| r != Error && Answered(ss, es, k, pid, Evidence, r);
      assert Answered(ss, es, k + 1, pid, Evidence, r);
    }
  }

  /** Where the stages that the story tells of come from. */
  predicate PageOrigin(p: Prompt, c: Option<Call>, a: PromptAction, v: Seen) {
    && v.p.sid == p.sid && v.p.snapshot == p.snapshot
    && (v.p.stage.HavePage? ==>
          || (a.ReusePage? && v.p.hand == p.snapshot && p.snapshot.Some?)
          || (Awaits(c, OpenPage) && c.value.reply.Some? && c.value.reply.value.NewPage?
              && v.p.hand == Some(c.value.reply.value.page)))
    && (Navigating(v) ==> p.stage.HavePage? && v.p.hand == p.hand && !HasReply(v))
    && (v.p.stage.Arrived? ==> Navigating(Seen(p, c)) && c.value.reply == Some(Completed) && v.p.hand == p.hand)
  }

  lemma PageOrigins(s: Server, pid: Id, p: Prompt, a: PromptAction)
    requires ActionEnabled(s, pid, p, a)
    ensures var f := ActionEffect(s, pid, p, a);
            f.next.Some? ==> PageOrigin(p, CallAt(s, p.stage), a, Seen(f.next.value, CallNext(s, pid, p, f)))
  {
  }

  predicate CallOrigin(s: Server, p: Prompt, c: Option<Call>, a: PromptAction, v: Seen) {
    && (HasReply(v) ==> v.c == c)
    && (v.p.stage.HaveTarget? ==> a.TargetFound? && p.sid in s.sessions && v.p.hand == s.sessions[p.sid] && v.p.hand.Some?)
    && (v.p.stage.Evidenced? ==> Awaits(c, Evidence) && c.value.reply.Some? && c.value.reply.value != Error)
    && (v.p.stage.Asking? ==> Awaits(c, Intent) && c.value.reply == Some(Gated))
    && (v.p.stage.Approved? ==> p.stage.Asking? && a == Permission(true))
  }

  lemma CallOrigins(s: Server, pid: Id, p: Prompt, a: PromptAction)
    requires ActionEnabled(s, pid, p, a)
    ensures var f := ActionEffect(s, pid, p, a);
            f.next.Some? ==> CallOrigin(s, p, CallAt(s, p.stage), a, Seen(f.next.value, CallNext(s, pid, p, f)))
  {
  }

  lemma LookTells(ss: seq<Server>, es: seq<Event>, k: nat, pid: Id, v: Seen)
    requires Steps(ss, es, k) && es[k].OnPrompt? && es[k].pid == pid && es[k].a.Look?
    requires Moved(ss[k], es[k], pid) == Some(v)
    ensures PageTale(ss, es, k + 1, pid, v) && CallTale(ss, es, k + 1, pid, v)
  {
    assert LookedAt(ss, es, k, pid, v.p.sid, v.p.snapshot);
  }

  lemma ReplyTells(ss: seq<Server>, es: seq<Event>, k: nat, pid: Id, u: Seen, v: Seen)
    requires Steps(ss, es, k) && es[k].OnReply? && ss[k].calls[es[k].call].pid == pid
    requires u.c == Some(ss[k].calls[es[k].call]) && v == Seen(u.p, Some(u.c.value.(reply := Some(es[k].reply))))
    requires PageTale(ss, es, k, pid, u) && CallTale(ss, es, k, pid, u)
    ensures PageTale(ss, es, k + 1, pid, v) && CallTale(ss, es, k + 1, pid, v)
  {
    CallTaleLater(ss, es, k, pid, u);
    assert AnsweredAt(ss, es, k, pid, v.c.value.kind, es[k].reply);
    if Navigating(u) {
      var o :| 0 <= o < k && Obtains(ss, es, o, pid, u.p.sid, u.p.hand.value);
      assert 0 <= o < k < k + 1;
    }
  }

  lemma ActionTellsPage(ss: seq<Server>, es: seq<Event>, k: nat, pid: Id, u: Seen, v: Seen)
    requires Steps(ss, es, k) && es[k].OnPrompt? && es[k].pid == pid && PageOrigin(u.p, u.c, es[k].a, v)
    requires PageTale(ss, es, k, pid, u) && CallTale(ss, es, k, pid, u)
    ensures PageTale(ss, es, k + 1, pid, v)
  {
    if v.p.stage.HavePage? {
      if es[k].a.ReusePage? && v.p.hand == u.p.snapshot && u.p.snapshot.Some? {
        assert Happens(ss, es, k, OnPrompt(pid, ReusePage));
        assert Obtains(ss, es, k, pid, v.p.sid, v.p.hand.value);
      } else {
        var n :| 0 <= n < k && AnsweredAt(ss, es, n, pid, OpenPage, NewPage(v.p.hand.value));
        assert Obtains(ss, es, n, pid, v.p.sid, v.p.hand.value);
      }
    }
  }

  lemma ActionTellsCall(ss: seq<Server>, es: seq<Event>, k: nat, pid: Id, u: Seen, v: Seen)
    requires Steps(ss, es, k) && es[k].OnPrompt? && es[k].pid == pid && u.p.sid == v.p.sid
    requires CallOrigin(ss[k], u.p, u.c, es[k].a, v) && CallTale(ss, es, k, pid, u)
    ensures CallTale(ss, es, k + 1, pid, v)
  {
    if v.p.stage.HaveTarget? {
      assert TargetAt(ss, es, k, pid, v.p.sid, v.p.hand);
    }
    if v.p.stage.Evidenced? {
      assert Answered(ss, es, k + 1, pid, Evidence, u.c.value.reply.value);
    }
    if v.p.stage.Approved? {
      var g :| 0 <= g < k && AnsweredAt(ss, es, g, pid, Intent, Gated);
      assert Happens(ss, es, k, OnPrompt(pid, Permission(true)));
    }
  }

  ghost predicate Told(ss: seq<Server>, es: seq<Event>, k: nat, pid: Id)
    requires k < |ss|
  {
    SeenOf(ss[k], pid).Some? ==>
      PageTale(ss, es, k, pid, SeenOf(ss[k], pid).value) && CallTale(ss, es, k, pid, SeenOf(ss[k], pid).value)
  }

  lemma ToldStep(ss: seq<Server>, es: seq<Event>, k: nat, pid: Id)
    requires Run(ss, es) && Steps(ss, es, k) && Told(ss, es, k, pid) && SeenOf(ss[k + 1], pid).Some?
    ensures Told(ss, es, k + 1, pid)
  {
    MovesAt(ss, es, k, pid);
    var v := SeenOf(ss[k + 1], pid).value;
    if es[k].OnPrompt? && es[k].pid == pid {
      if es[k].a.Look? {
        LookTells(ss, es, k, pid, v);
      } else {
        var u := SeenOf(ss[k], pid).value;
        PageOrigins(ss[k], pid, u.p, es[k].a);
        CallOrigins(ss[k], pid, u.p, es[k].a);
        ActionTellsPage(ss, es, k, pid, u, v);
        ActionTellsCall(ss, es, k, pid, u, v);
      }
    } else {
      ToldElsewhere(ss, es, k, pid, v);
    }
  }

  lemma ToldElsewhere(ss: seq<Server>, es: seq<Event>, k: nat, pid: Id, v: Seen)
    requires Run(ss, es) && Steps(ss, es, k) && Told(ss, es, k, pid) && Moved(ss[k], es[k], pid) == Some(v)
    requires !(es[k].OnPrompt? && es[k].pid == pid)
    ensures PageTale(ss, es, k + 1, pid, v) && CallTale(ss, es, k + 1, pid, v)
  {
    var u := SeenOf(ss[k], pid).value;
    if es[k].OnReply? && ss[k].calls[es[k].call].pid == pid {
      RunInv(ss, es, k);
      assert CallOk(ss[k], es[k].call) && OnCallOk(ss[k], pid);
      ReplyTells(ss, es, k, pid, u, v);
    } else {
      PageTaleLater(ss, es, k, pid, u);
      CallTaleLater(ss, es, k, pid, u);
    }
  }

  lemma {:induction false} RunTold(ss: seq<Server>, es: seq<Event>, k: nat, pid: Id)
    requires Run(ss, es) && k < |ss|
    ensures Told(ss, es, k, pid)
  {
    if k > 0 && SeenOf(ss[k], pid).Some? {
      assert Steps(ss, es, k - 1);
      RunTold(ss, es, k - 1, pid);
      ToldStep(ss, es, k - 1, pid);
    }
  }

  // ----- what holds in every run -----

  /**
   A prompt stores a page only after the runtime opened that page for it, or it saw it as its
   session's page and reused it, and after that completed its navigation; and it stores
   exactly that page.
   */
  lemma StoresOnlyAfterNavigation(ss: seq<Server>, es: seq<Event>, k: nat, pid: Id)
    requires Run(ss, es) && Happens(ss, es, k, OnPrompt(pid, Record))
    ensures var p := ss[k].prompts[pid];
            && p.hand.Some? && Navigated(ss, es, k, pid, p.sid, p.hand.value, Completed)
            && p.sid in ss[k + 1].sessions && ss[k + 1].sessions[p.sid] == p.hand
  {
    RunTold(ss, es, k, pid);
  }

  /** Event `k` makes prompt `pid` ask the runtime for a call of this kind. */
  ghost predicate Asks(ss: seq<Server>, es: seq<Event>, k: int, pid: Id, kind: CallKind) {
    && Steps(ss, es, k) && es[k].OnPrompt? && es[k].pid == pid && ss[k + 1].nextCall == ss[k].nextCall + 1
    && Id(ss[k].nextCall) in ss[k + 1].calls && ss[k + 1].calls[Id(ss[k].nextCall)].kind == kind
  }

  /** The stage from which a call of a kind is made. */
  lemma AskedFrom(s: Server, pid: Id, p: Prompt, a: PromptAction)
    requires ActionEnabled(s, pid, p, a)
    ensures match ActionEffect(s, pid, p, a).starts
            case Some(Navigate) => p.stage.HavePage?
            case Some(Intent) => p.stage.HaveTarget?
            case Some(Retry) => p.stage.Approved?
            case Some(Checkpoint) => p.stage.Evidenced?
            case Some(OpenPage) => p.snapshot.None?
            case _ => true
  {
  }

  /**
   Why a prompt asks the runtime for what it does: a page only if its session had none when
   it looked, a navigation of a page it got, an intent on its session's page, a checkpoint
   after evidence, and a retry after the consent was asked for and granted.
   */
  lemma CallsHaveCause(ss: seq<Server>, es: seq<Event>, k: nat, pid: Id, kind: CallKind)
    requires Run(ss, es) && Asks(ss, es, k, pid, kind)
    ensures kind.OpenPage? ==> exists sid :: Looks(ss, es, k, pid, sid, None)
    ensures kind.Navigate? ==> exists sid, page :: Obtained(ss, es, k, pid, sid, page)
    ensures kind.Intent? ==> exists sid, page :: Targeted(ss, es, k, pid, sid, Some(page))
    ensures kind.Checkpoint? ==> Attested(ss, es, k, pid)
    ensures kind.Retry? ==> Consented(ss, es, k, pid)
  {
    RunTold(ss, es, k, pid);
    AsksEffect(ss, es, k, pid, kind);
    var p := ss[k].prompts[pid];
    AskedFrom(ss[k], pid, p, es[k].a);
    if kind.Navigate? {
      assert Obtained(ss, es, k, pid, p.sid, p.hand.value);
    }
    if kind.Intent? {
      var m :| 0 <= m < k && TargetAt(ss, es, m, pid, p.sid, p.hand);
      assert Targeted(ss, es, k, pid, p.sid, Some(p.hand.value));
    }
    if kind.OpenPage? {
      assert Looks(ss, es, k, pid, p.sid, None);
    }
  }

  lemma AsksEffect(ss: seq<Server>, es: seq<Event>, k: nat, pid: Id, kind: CallKind)
    requires Asks(ss, es, k, pid, kind)
    ensures !es[k].a.Look? && ActionEffect(ss[k], pid, ss[k].prompts[pid], es[k].a).starts == Some(kind)
  {
  }

  // ----- what follows an answer -----

  /** The reply that the prompt takes with an `Observe`, and what it may do next. */
  predicate Decided(kind: CallKind, reply: Reply, p: Prompt, q: Prompt) {
    match kind
    case Intent => q.stage == if reply == Gated then Asking else Finished
    case Navigate => q.stage == if reply == Completed then Arrived else if p.own then Abandon else Finished
    case Evidence => q.stage == if reply == Error then Finished else Evidenced
    case OpenPage =>
      if reply.NewPage? then q.stage == HavePage && q.hand == Some(reply.page) && q.own else q.stage == Finished
    case _ => q.stage == Finished
  }

  /**
   An answer decides what the prompt does next: it asks the user exactly after a gated intent,
   lands exactly after a completed navigation, goes on to a checkpoint exactly after evidence,
   and navigates the page that was opened for it; otherwise it closes its page or finishes.
   */
  lemma AnswerDecides(ss: seq<Server>, es: seq<Event>, k: nat, pid: Id)
    requires Run(ss, es) && Happens(ss, es, k, OnPrompt(pid, Observe))
    ensures pid in ss[k].prompts && pid in ss[k + 1].prompts
    ensures var p := ss[k].prompts[pid];
            && p.stage.Waiting? && p.stage.call in ss[k].calls && ss[k].calls[p.stage.call].reply.Some?
            && Decided(ss[k].calls[p.stage.call].kind, ss[k].calls[p.stage.call].reply.value, p, ss[k + 1].prompts[pid])
  {
    MovesAt(ss, es, k, pid);
  }

  /** The user's answer decides whether the prompt may retry or is finished. */
  lemma ConsentDecides(ss: seq<Server>, es: seq<Event>, k: nat, pid: Id, granted: bool)
    requires Run(ss, es) && Happens(ss, es, k, OnPrompt(pid, Permission(granted)))
    ensures pid in ss[k + 1].prompts && ss[k + 1].prompts[pid].stage == if granted then Approved else Finished
  {
    MovesAt(ss, es, k, pid);
  }

  /** What a prompt asks for next in these stages, unless a cancellation is visible. */
  lemma AsksNext(s: Server, pid: Id)
    requires pid in s.prompts && !SeesCancel(s, pid)
    ensures var stage := s.prompts[pid].stage;
            stage.HavePage? || stage.HaveTarget? || stage.Approved? || stage.Evidenced? ==>
              && PromptEnabled(s, pid, Issue)
              && EffectOf(s, pid, Issue).starts == Some(match stage
                                                        case HavePage => Navigate
                                                        case HaveTarget => Intent
                                                        case Approved => Retry
                                                        case _ => Checkpoint)
  {
  }

  /** The target is the session's page: found exactly if there is one, else gone. */
  lemma TargetDecides(s: Server, pid: Id)
    requires pid in s.prompts && s.prompts[pid].stage.FindTarget?
    ensures PromptEnabled(s, pid, TargetFound) <==> PageOf(s, s.prompts[pid].sid).Some?
    ensures PromptEnabled(s, pid, TargetGone) <==> PageOf(s, s.prompts[pid].sid).None?
  {
  }
}
