/**
 A navigation that fails or is cancelled leaves nothing behind: the prompt closes the page it
 opened, and its session keeps the page it had at `begin`.
 */
module AcpNavigation {
  import opened Prelude
  import opened AcpServer
  import opened AcpSafety
  import opened AcpPrompts
  import opened AcpPages
  import opened AcpStory

  // ----- a prompt only goes forward -----

  function CallPhase(kind: CallKind): nat {
    match kind
    case Navigate => 4
    case Checkpoint => 4
    case Intent => 8
    case Retry => 11
    case _ => 2
  }

  /** How far a prompt has come. */
  function Phase(v: Seen): nat {
    match v.p.stage
    case Looked => 0
    case Begun => 1
    case Waiting(_) => if v.c.Some? then CallPhase(v.c.value.kind) else 2
    case HavePage => 3
    case Evidenced => 3
    case Arrived => 5
    case FindTarget => 6
    case HaveTarget => 7
    case Asking => 9
    case Approved => 10
    case Draining(_) => 12
    case Abandon => 13
    case Closing(_) => 14
    case Finished => 15
    case Announcing => 16
  }

  lemma EachActionOnward(s: Server, pid: Id, p: Prompt, a: PromptAction)
    requires ActionEnabled(s, pid, p, a)
    ensures var f := ActionEffect(s, pid, p, a);
            f.next.Some? ==>
              && f.next.value.sid == p.sid
              && Phase(Seen(f.next.value, CallNext(s, pid, p, f))) > Phase(Seen(p, CallAt(s, p.stage)))
  {
  }

  lemma Onwards(s: Server, e: Event, pid: Id)
    requires Inv(s) && Enabled(s, e) && pid in s.prompts && pid in Apply(s, e).prompts
    ensures var u, v := SeenOf(s, pid).value, SeenOf(Apply(s, e), pid).value;
            && v.p.sid == u.p.sid && Phase(u) <= Phase(v)
            && (e.OnPrompt? && e.pid == pid ==> Phase(u) < Phase(v))
  {
    Moves(s, e, pid);
    assert PromptHome(s, pid);
    if e.OnPrompt? && e.pid == pid {
      EachActionOnward(s, pid, s.prompts[pid], e.a);
    } else if e.OnReply? && s.calls[e.call].pid == pid {
      assert CallOk(s, e.call) && OnCallOk(s, pid);
    }
  }

  lemma PromptedForever(s: Server, e: Event, pid: Id)
    requires Enabled(s, e)
    ensures pid in s.log.prompted ==> pid in Apply(s, e).log.prompted
    ensures pid in s.log.prompted && pid !in s.prompts ==> pid !in Apply(s, e).prompts
  {
    if e.OnNew? || e.OnClose? || e.OnCleanup? || e.OnCancel? {
      ElsewhereFrame(s, e, pid);
    }
  }

  /** A prompt that is there before and after was there all the time, and has not gone back. */
  lemma {:induction false} NeverBack(ss: seq<Server>, es: seq<Event>, i: nat, k: nat, pid: Id)
    requires Run(ss, es) && i <= k < |ss| && pid in ss[i].prompts
    ensures pid in ss[k].log.prompted
    ensures pid in ss[k].prompts ==>
              && ss[k].prompts[pid].sid == ss[i].prompts[pid].sid
              && Phase(SeenOf(ss[i], pid).value) <= Phase(SeenOf(ss[k], pid).value)
              && (i < k ==> pid in ss[k - 1].prompts)
    decreases k
  {
    RunInv(ss, es, i);
    assert PromptHome(ss[i], pid);
    if i < k {
      assert Steps(ss, es, k - 1);
      NeverBack(ss, es, i, k - 1, pid);
      RunInv(ss, es, k - 1);
      PromptedForever(ss[k - 1], es[k - 1], pid);
      if pid in ss[k].prompts {
        Onwards(ss[k - 1], es[k - 1], pid);
      }
    }
  }

  function PhaseAt(s: Server, pid: Id): nat {
    if pid in s.prompts then Phase(SeenOf(s, pid).value) else 0
  }

  /** What is further on comes later. */
  lemma FurtherIsLater(ss: seq<Server>, es: seq<Event>, i: nat, k: nat, pid: Id)
    requires Run(ss, es) && i < |ss| && k < |ss| && pid in ss[i].prompts && pid in ss[k].prompts
    requires PhaseAt(ss[i], pid) < PhaseAt(ss[k], pid)
    ensures i < k
  {
    if k <= i {
      NeverBack(ss, es, k, i, pid);
    }
  }

  // ----- the end of a failed navigation -----

  /** A navigation of the prompt was answered with something else than completion, or given up because of a cancel. */
  ghost predicate NavigationFails(ss: seq<Server>, es: seq<Event>, n: int, pid: Id) {
    || (exists r :: r != Completed && AnsweredAt(ss, es, n, pid, Navigate, r))
    || (Happens(ss, es, n, OnPrompt(pid, CancelInline)) && pid in ss[n].prompts && Navigating(SeenOf(ss[n], pid).value))
    || (Happens(ss, es, n, OnPrompt(pid, CancelBeforeCall)) && pid in ss[n].prompts && ss[n].prompts[pid].stage.HavePage?)
  }

  /** The prompt waits with an answer that is no completion, or is on its way out. */
  predicate Doomed(v: Seen) {
    Phase(v) >= 13 || (Navigating(v) && HasReply(v) && v.c.value.reply != Some(Completed))
  }

  predicate IsDoomed(s: Server, pid: Id) {
    pid in s.prompts && Doomed(SeenOf(s, pid).value)
  }

  lemma DoomedAction(s: Server, pid: Id, p: Prompt, a: PromptAction)
    requires ActionEnabled(s, pid, p, a) && Doomed(Seen(p, CallAt(s, p.stage)))
    ensures var f := ActionEffect(s, pid, p, a);
            f.next.Some? ==> Doomed(Seen(f.next.value, CallNext(s, pid, p, f)))
  {
  }

  lemma DoomedKept(s: Server, e: Event, pid: Id)
    requires Inv(s) && Enabled(s, e) && pid in s.prompts && pid in Apply(s, e).prompts
    requires Doomed(SeenOf(s, pid).value)
    ensures Doomed(SeenOf(Apply(s, e), pid).value)
  {
    Moves(s, e, pid);
    assert PromptHome(s, pid);
    if e.OnPrompt? && e.pid == pid {
      DoomedAction(s, pid, s.prompts[pid], e.a);
    } else if e.OnReply? && s.calls[e.call].pid == pid {
      assert CallOk(s, e.call) && OnCallOk(s, pid);
    }
  }

  lemma CancelDooms(s: Server, pid: Id, p: Prompt, a: PromptAction)
    requires ActionEnabled(s, pid, p, a)
    requires (a.CancelInline? && Navigating(Seen(p, CallAt(s, p.stage)))) || (a.CancelBeforeCall? && p.stage.HavePage?)
    ensures var f := ActionEffect(s, pid, p, a);
            f.next.Some? && Phase(Seen(f.next.value, CallNext(s, pid, p, f))) >= 13
  {
  }

  lemma FailureDooms(ss: seq<Server>, es: seq<Event>, n: nat, pid: Id)
    requires Run(ss, es) && NavigationFails(ss, es, n, pid)
    ensures pid in ss[n].prompts && pid in ss[n + 1].prompts
    ensures PhaseAt(ss[n], pid) <= 4 && IsDoomed(ss[n + 1], pid)
  {
    RunInv(ss, es, n);
    MovesAt(ss, es, n, pid);
    if r :| r != Completed && AnsweredAt(ss, es, n, pid, Navigate, r) {
      assert CallOk(ss[n], es[n].call) && OnCallOk(ss[n], pid);
    } else {
      CancelDooms(ss[n], pid, ss[n].prompts[pid], es[n].a);
    }
  }

  lemma {:induction false} StaysDoomed(ss: seq<Server>, es: seq<Event>, i: nat, k: nat, pid: Id)
    requires Run(ss, es) && i <= k < |ss| && IsDoomed(ss[i], pid) && pid in ss[k].prompts
    ensures IsDoomed(ss[k], pid)
    decreases k
  {
    if i < k {
      assert Steps(ss, es, k - 1);
      NeverBack(ss, es, i, k, pid);
      StaysDoomed(ss, es, i, k - 1, pid);
      RunInv(ss, es, k - 1);
      DoomedKept(ss[k - 1], es[k - 1], pid);
    }
  }

  /** The prompt leaves the stage `Arrived`: it stores its page, or finds that its session is gone. */
  predicate Lands(a: PromptAction) {
    a.Record? || a.RecordGone?
  }

  ghost predicate LandsAt(ss: seq<Server>, es: seq<Event>, r: int, pid: Id) {
    Steps(ss, es, r) && es[r].OnPrompt? && es[r].pid == pid && Lands(es[r].a)
  }

  lemma LandsFrom(ss: seq<Server>, es: seq<Event>, r: nat, pid: Id)
    requires Run(ss, es) && LandsAt(ss, es, r, pid)
    ensures pid in ss[r].prompts && pid in ss[r + 1].prompts
    ensures PhaseAt(ss[r], pid) == 5 && !IsDoomed(ss[r], pid) && PhaseAt(ss[r + 1], pid) > 5
  {
    RunInv(ss, es, r);
    MovesAt(ss, es, r, pid);
  }

  lemma AroundFailure(ss: seq<Server>, es: seq<Event>, n: nat, r: nat, pid: Id)
    requires Run(ss, es) && n + 1 < |ss| && r < |ss| && pid in ss[n].prompts && pid in ss[r].prompts
    requires PhaseAt(ss[n], pid) <= 4 && IsDoomed(ss[n + 1], pid)
    ensures PhaseAt(ss[r], pid) <= 4 || IsDoomed(ss[r], pid)
  {
    if n < r {
      StaysDoomed(ss, es, n + 1, r, pid);
    } else {
      NeverBack(ss, es, r, n, pid);
    }
  }

  lemma NeverLandsFrom(ss: seq<Server>, es: seq<Event>, n: nat, r: nat, pid: Id)
    requires Run(ss, es) && n + 1 < |ss| && pid in ss[n].prompts
    requires PhaseAt(ss[n], pid) <= 4 && IsDoomed(ss[n + 1], pid)
    ensures !LandsAt(ss, es, r, pid)
  {
    if LandsAt(ss, es, r, pid) {
      LandsFrom(ss, es, r, pid);
      AroundFailure(ss, es, n, r, pid);
    }
  }

  /** A prompt whose navigation failed never stores a page. */
  lemma NeverLands(ss: seq<Server>, es: seq<Event>, n: nat, r: nat, pid: Id)
    requires Run(ss, es) && NavigationFails(ss, es, n, pid)
    ensures !LandsAt(ss, es, r, pid)
  {
    FailureDooms(ss, es, n, pid);
    NeverLandsFrom(ss, es, n, r, pid);
  }

  // ----- its pages -----

  /** A page leaves a prompt's hands only by being closed, or when the prompt lands. */
  lemma HandOnwardBy(s: Server, pid: Id, p: Prompt, a: PromptAction, page: Id)
    requires ActionEnabled(s, pid, p, a) && HandOk(p, CallAt(s, p.stage))
    requires InHand(p, CallAt(s, p.stage), page)
    requires p.stage.Closing? ==> Awaits(CallAt(s, p.stage), ClosePage)
    ensures var f := ActionEffect(s, pid, p, a);
            || (f.next.Some? && InHand(f.next.value, CallNext(s, pid, p, f), page))
            || f.closes == Some(page) || Lands(a)
  {
  }

  predicate Opened(s: Server, page: Id, pid: Id) {
    page in s.log.pages && s.log.pages[page].pid == pid
  }

  ghost predicate Landed(ss: seq<Server>, es: seq<Event>, k: nat, pid: Id) {
    exists r :: 0 <= r < k && LandsAt(ss, es, r, pid)
  }

  /** An opened page is in its prompt's hands, closed, or its prompt has landed. */
  ghost predicate Fate(ss: seq<Server>, es: seq<Event>, k: nat, pid: Id, page: Id)
    requires k < |ss|
  {
    Opened(ss[k], page, pid) ==>
      Holding(ss[k], pid, page) || page in ss[k].log.closeSubmitted || Landed(ss, es, k, pid)
  }

  lemma FateByOwn(ss: seq<Server>, es: seq<Event>, k: nat, pid: Id, page: Id)
    requires Run(ss, es) && Steps(ss, es, k) && Fate(ss, es, k, pid, page) && Opened(ss[k], page, pid)
    requires es[k].OnPrompt? && es[k].pid == pid && !es[k].a.Look?
    ensures Fate(ss, es, k + 1, pid, page)
  {
    MovesAt(ss, es, k, pid);
    RunPages(ss, es, k);
    RunInv(ss, es, k);
    assert HandsOk(ss[k], pid) && OnCallOk(ss[k], pid);
    if LandsAt(ss, es, k, pid) {
      assert Landed(ss, es, k + 1, pid);
    } else if Landed(ss, es, k, pid) {
      var r :| 0 <= r < k && LandsAt(ss, es, r, pid);
      assert Landed(ss, es, k + 1, pid);
    } else if Holding(ss[k], pid, page) {
      HandOnwardBy(ss[k], pid, ss[k].prompts[pid], es[k].a, page);
    }
  }

  lemma FateByReply(s: Server, call: Id, reply: Reply, pid: Id, page: Id)
    requires Inv(s) && ReplyEnabled(s, call, reply) && Opened(ReplyApply(s, call, reply), page, pid)
    ensures Opened(s, page, pid) || Holding(ReplyApply(s, call, reply), pid, page)
    ensures Holding(s, pid, page) ==> Holding(ReplyApply(s, call, reply), pid, page)
  {
    assert CallOk(s, call) && OnCallOk(s, pid);
    ReplyReaches(s, call, reply, pid);
  }

  lemma FateElsewhere(s: Server, e: Event, pid: Id, page: Id)
    requires Inv(s) && Enabled(s, e) && !e.OnReply? && !(e.OnPrompt? && e.pid == pid && !e.a.Look?)
    ensures Opened(Apply(s, e), page, pid) ==> Opened(s, page, pid)
    ensures page in s.log.closeSubmitted ==> page in Apply(s, e).log.closeSubmitted
    ensures pid in s.log.prompted && Holding(s, pid, page) ==> Holding(Apply(s, e), pid, page)
  {
    Moves(s, e, pid);
    assert PromptHome(s, pid);
    if !e.OnPrompt? {
      ElsewhereFrame(s, e, pid);
    }
  }

  lemma FateStep(ss: seq<Server>, es: seq<Event>, k: nat, pid: Id, page: Id)
    requires Run(ss, es) && Steps(ss, es, k) && Fate(ss, es, k, pid, page)
    ensures Fate(ss, es, k + 1, pid, page)
  {
    RunInv(ss, es, k);
    RunPages(ss, es, k);
    assert LogOk(ss[k], page) && PromptHome(ss[k], pid);
    if Opened(ss[k + 1], page, pid) {
      if es[k].OnReply? {
        FateByReply(ss[k], es[k].call, es[k].reply, pid, page);
      } else if es[k].OnPrompt? && es[k].pid == pid && !es[k].a.Look? {
        FateByOwn(ss, es, k, pid, page);
      } else {
        FateElsewhere(ss[k], es[k], pid, page);
      }
      if Landed(ss, es, k, pid) {
        var r :| 0 <= r < k && LandsAt(ss, es, r, pid);
        assert Landed(ss, es, k + 1, pid);
      }
    }
  }

  lemma {:induction false} RunFate(ss: seq<Server>, es: seq<Event>, k: nat, pid: Id, page: Id)
    requires Run(ss, es) && k < |ss|
    ensures Fate(ss, es, k, pid, page)
  {
    if k > 0 {
      assert Steps(ss, es, k - 1);
      RunFate(ss, es, k - 1, pid, page);
      FateStep(ss, es, k - 1, pid, page);
    }
  }

  // ----- its session's page -----

  /** Nobody else stores a page while a prompt holds the lease. */
  lemma OnlyHolderStores(s: Server, e: Event, pid: Id, sid: Id)
    requires Inv(s) && PagesInv(s) && Enabled(s, e) && Owns(s, pid, sid) && e != OnPrompt(pid, Record)
    requires sid in Apply(s, e).sessions
    ensures sid in s.sessions && Apply(s, e).sessions[sid] == s.sessions[sid]
  {
    assert PromptHome(s, pid) && SessionOk(s, sid) && PairOk(s, pid, sid);
    if e.OnPrompt? {
      if !e.a.Look? {
        ActionActorOk(s, e.pid, e.a);
        assert PairOk(s, e.pid, sid);
      }
    } else if !e.OnReply? {
      ElsewhereFrame(s, e, sid);
    }
  }

  ghost predicate OwnsThrough(ss: seq<Server>, i: nat, k: nat, pid: Id, sid: Id)
    requires k < |ss|
  {
    forall m :: i <= m <= k ==> Owns(ss[m], pid, sid)
  }

  lemma {:induction false} PageStays(ss: seq<Server>, es: seq<Event>, i: nat, k: nat, pid: Id, sid: Id)
    requires Run(ss, es) && i <= k < |ss| && OwnsThrough(ss, i, k, pid, sid)
    requires forall m :: i <= m < k ==> es[m] != OnPrompt(pid, Record)
    requires sid in ss[k].sessions
    ensures sid in ss[i].sessions && ss[k].sessions[sid] == ss[i].sessions[sid]
    decreases k
  {
    if i < k {
      assert Steps(ss, es, k - 1) && Owns(ss[k - 1], pid, sid);
      RunInv(ss, es, k - 1);
      RunPages(ss, es, k - 1);
      OnlyHolderStores(ss[k - 1], es[k - 1], pid, sid);
      PageStays(ss, es, i, k - 1, pid, sid);
    }
  }

  lemma BeginsAt(ss: seq<Server>, es: seq<Event>, b: nat, pid: Id)
    requires Run(ss, es) && Happens(ss, es, b, OnPrompt(pid, BeginOk))
    ensures pid in ss[b].prompts && Owns(ss[b + 1], pid, ss[b].prompts[pid].sid) && ss[b + 1].sessions == ss[b].sessions
    ensures PhaseAt(ss[b], pid) == 0
  {
    RunInv(ss, es, b);
    MovesAt(ss, es, b, pid);
  }

  lemma ReleasesAt(ss: seq<Server>, es: seq<Event>, k: nat, pid: Id)
    requires Happens(ss, es, k, OnPrompt(pid, Release))
    ensures pid in ss[k].prompts && Owns(ss[k], pid, ss[k].prompts[pid].sid) && PhaseAt(ss[k], pid) == 15
  {
  }

  /** A prompt that has begun and still owns its lease has owned it all the time. */
  lemma {:induction false} OwnedAllAlong(ss: seq<Server>, es: seq<Event>, i: nat, k: nat, pid: Id, sid: Id)
    requires Run(ss, es) && i <= k < |ss| && Owns(ss[i], pid, sid) && Owns(ss[k], pid, sid)
    ensures OwnsThrough(ss, i, k, pid, sid)
  {
    forall m | i <= m <= k
      ensures Owns(ss[m], pid, sid)
    {
      PresentBetween(ss, es, i, m, k, pid);
      NeverBack(ss, es, i, m, pid);
      NeverBack(ss, es, m, k, pid);
    }
  }

  lemma {:induction false} PresentBetween(ss: seq<Server>, es: seq<Event>, i: nat, m: nat, k: nat, pid: Id)
    requires Run(ss, es) && i <= m <= k < |ss| && pid in ss[i].prompts && pid in ss[k].prompts
    ensures pid in ss[m].prompts
    decreases k
  {
    if m < k {
      NeverBack(ss, es, i, k, pid);
      PresentBetween(ss, es, i, m, k - 1, pid);
    }
  }

  lemma OwnedSinceBegin(ss: seq<Server>, es: seq<Event>, b: nat, k: nat, pid: Id)
    requires Run(ss, es) && Happens(ss, es, b, OnPrompt(pid, BeginOk)) && Happens(ss, es, k, OnPrompt(pid, Release))
    ensures b < k && pid in ss[b].prompts && OwnsThrough(ss, b + 1, k, pid, ss[b].prompts[pid].sid)
    ensures ss[b + 1].sessions == ss[b].sessions
  {
    BeginsAt(ss, es, b, pid);
    ReleasesAt(ss, es, k, pid);
    FurtherIsLater(ss, es, b, k, pid);
    NeverBack(ss, es, b, k, pid);
    OwnedAllAlong(ss, es, b + 1, k, pid, ss[b].prompts[pid].sid);
  }

  ghost predicate StoredAt(ss: seq<Server>, es: seq<Event>, r: int, pid: Id, page: Option<Id>) {
    Happens(ss, es, r, OnPrompt(pid, Record)) && pid in ss[r].prompts && ss[r].prompts[pid].hand == page
  }

  lemma StoredStays(ss: seq<Server>, es: seq<Event>, r: nat, k: nat, pid: Id, sid: Id)
    requires Run(ss, es) && r < k < |ss| && es[r] == OnPrompt(pid, Record) && OwnsThrough(ss, r, k, pid, sid)
    requires forall m :: r < m < k ==> es[m] != OnPrompt(pid, Record)
    requires sid in ss[k].sessions
    ensures StoredAt(ss, es, r, pid, ss[k].sessions[sid])
  {
    assert Owns(ss[r], pid, sid);
    StoresIt(ss, es, r, pid, sid);
    PageStays(ss, es, r + 1, k, pid, sid);
  }

  lemma StoresIt(ss: seq<Server>, es: seq<Event>, r: nat, pid: Id, sid: Id)
    requires Run(ss, es) && r < |es| && es[r] == OnPrompt(pid, Record) && Owns(ss[r], pid, sid)
    ensures sid in ss[r + 1].sessions && StoredAt(ss, es, r, pid, ss[r + 1].sessions[sid])
  {
    assert Steps(ss, es, r);
    StoresOnlyAfterNavigation(ss, es, r, pid);
  }

  /**
   At its release a prompt leaves its session the page it stored, or else the page that the
   session had at `begin`, if the session is still there.
   */
  lemma PageAtRelease(ss: seq<Server>, es: seq<Event>, b: nat, k: nat, pid: Id)
    requires Run(ss, es) && Happens(ss, es, b, OnPrompt(pid, BeginOk)) && Happens(ss, es, k, OnPrompt(pid, Release))
    ensures b < k && pid in ss[b].prompts
    ensures var sid := ss[b].prompts[pid].sid;
            sid in ss[k].sessions ==>
              if exists r :: b < r < k && es[r] == OnPrompt(pid, Record)
              then exists r :: b < r < k && StoredAt(ss, es, r, pid, ss[k].sessions[sid])
              else ss[k].sessions[sid] == PageOf(ss[b], sid)
  {
    OwnedSinceBegin(ss, es, b, k, pid);
    var sid := ss[b].prompts[pid].sid;
    if sid in ss[k].sessions {
      if r :| b < r < k && es[r] == OnPrompt(pid, Record) {
        var last := LastRecord(es, b, k, pid, r);
        StoredStays(ss, es, last, k, pid, sid);
      } else {
        PageStays(ss, es, b + 1, k, pid, sid);
      }
    }
  }

  lemma {:induction false} LastRecord(es: seq<Event>, b: nat, k: nat, pid: Id, r: nat) returns (last: nat)
    requires b < r < k <= |es| && es[r] == OnPrompt(pid, Record)
    ensures b < last < k && es[last] == OnPrompt(pid, Record)
    ensures forall m :: last < m < k ==> es[m] != OnPrompt(pid, Record)
    decreases k
  {
    if es[k - 1] == OnPrompt(pid, Record) {
      last := k - 1;
    } else {
      last := LastRecord(es, b, k - 1, pid, r);
    }
  }

  // ----- the theorem -----

  /**
   When a prompt's navigation was not completed or was cancelled, then at its release every
   page it opened has had its close submitted, and its session, if still there, has the page
   it had at `begin`.
   */
  lemma FailedNavigationLeavesNothing(ss: seq<Server>, es: seq<Event>, b: nat, n: nat, k: nat, pid: Id)
    requires Run(ss, es) && Happens(ss, es, b, OnPrompt(pid, BeginOk)) && Happens(ss, es, k, OnPrompt(pid, Release))
    requires NavigationFails(ss, es, n, pid)
    ensures forall page :: Opened(ss[k], page, pid) ==> page in ss[k].log.closeSubmitted
    ensures var sid := ss[b].prompts[pid].sid;
            sid in ss[k].sessions ==> ss[k].sessions[sid] == PageOf(ss[b], sid)
  {
    forall page | Opened(ss[k], page, pid)
      ensures page in ss[k].log.closeSubmitted
    {
      ClosedUnlessLanded(ss, es, n, k, pid, page);
    }
    PageAtRelease(ss, es, b, k, pid);
    NeverStores(ss, es, n, pid);
  }

  lemma NeverStores(ss: seq<Server>, es: seq<Event>, n: nat, pid: Id)
    requires Run(ss, es) && NavigationFails(ss, es, n, pid)
    ensures forall r :: 0 <= r < |es| ==> es[r] != OnPrompt(pid, Record)
  {
    forall r | 0 <= r < |es|
      ensures es[r] != OnPrompt(pid, Record)
    {
      assert Steps(ss, es, r);
      NeverLands(ss, es, n, r, pid);
    }
  }

  lemma ClosedUnlessLanded(ss: seq<Server>, es: seq<Event>, n: nat, k: nat, pid: Id, page: Id)
    requires Run(ss, es) && NavigationFails(ss, es, n, pid) && Happens(ss, es, k, OnPrompt(pid, Release))
    requires Opened(ss[k], page, pid)
    ensures page in ss[k].log.closeSubmitted
  {
    RunFate(ss, es, k, pid, page);
    EmptyHanded(ss, es, k, pid, page);
    if r :| 0 <= r < k && LandsAt(ss, es, r, pid) {
      NeverLands(ss, es, n, r, pid);
    }
  }

  lemma EmptyHanded(ss: seq<Server>, es: seq<Event>, k: nat, pid: Id, page: Id)
    requires Happens(ss, es, k, OnPrompt(pid, Release))
    ensures !Holding(ss[k], pid, page)
  {
  }
}
