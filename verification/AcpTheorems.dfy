/** What the ACP session protocol guarantees in every run. */
module AcpTheorems {
  import opened Prelude
  import opened AcpServer
  import opened AcpSafety
  import opened AcpPrompts

  /**
   In every run each created runtime session is in exactly one place: the live map, the
   retired map, the hands of the lifecycle-lock holder, the deleted ones, or the ones whose
   delete failed at shutdown. So it is deleted at most once.
   */
  lemma ExactlyOnePlace(ss: seq<Server>, es: seq<Event>, k: nat, sid: Id)
    requires Run(ss, es) && k < |ss|
    ensures sid in ss[k].log.created ==> Places(ss[k], sid) == 1
    ensures sid !in ss[k].log.created ==> Places(ss[k], sid) == 0
    ensures ss[k].log.deleted[sid] <= 1
  {
    RunSessions(ss, es, k, sid);
  }

  /** Event `k` asks the runtime to delete `sid`. */
  ghost predicate IssuesDelete(ss: seq<Server>, es: seq<Event>, k: int, sid: Id) {
    && Steps(ss, es, k)
    && (|| (es[k] == OnClose(CloseIssue) && ss[k].holder.sid == sid)
        || es[k] == OnCleanup(CleanIssue(sid)))
  }

  /**
   A delete is asked for only when the session's turn is closed, no lease is outstanding
   and no runtime call of any of its prompts is in flight.
   */
  lemma DeleteOnlyWhenQuiet(ss: seq<Server>, es: seq<Event>, k: nat, sid: Id)
    requires Run(ss, es) && IssuesDelete(ss, es, k, sid)
    ensures IsIdle(ss[k], sid)
    ensures forall c :: c in ss[k].calls ==> ss[k].calls[c].sid != sid
  {
    RunSessions(ss, es, k, sid);
    IdleHasNoCalls(ss, es, k, sid);
  }

  lemma IdleHasNoCalls(ss: seq<Server>, es: seq<Event>, k: nat, sid: Id)
    requires Run(ss, es) && k < |ss| && IsIdle(ss[k], sid)
    ensures forall c :: c in ss[k].calls ==> ss[k].calls[c].sid != sid
  {
    RunInv(ss, es, k);
    forall c | c in ss[k].calls
      ensures ss[k].calls[c].sid != sid
    {
      assert CallOk(ss[k], c);
      assert PairOk(ss[k], ss[k].calls[c].pid, sid);
    }
  }

  lemma {:induction false} DeleteIssuedForever(ss: seq<Server>, es: seq<Event>, i: nat, j: nat, sid: Id)
    requires Run(ss, es) && i < j < |ss| && IssuesDelete(ss, es, i, sid)
    ensures sid in ss[j].log.deleteIssued
    decreases j
  {
    if i + 1 < j {
      assert Steps(ss, es, j - 1);
      DeleteIssuedForever(ss, es, i, j - 1, sid);
      DeleteIssuedKept(ss[j - 1], es[j - 1], sid);
    }
  }

  lemma DeleteIssuedKept(s: Server, e: Event, sid: Id)
    requires Enabled(s, e) && sid in s.log.deleteIssued
    ensures sid in Apply(s, e).log.deleteIssued
  {
    match e
    case OnNew(n) => NewFrame(s, n, sid);
    case OnClose(c) => CloseFrame(s, c, sid);
    case OnCleanup(k) => CleanupFrame(s, k, sid);
    case OnPrompt(_, _) =>
    case OnReply(_, _) =>
    case OnCancel(_) =>
  }

  /** From then on the session never has a lease or a runtime call in flight again. */
  lemma NothingAfterDelete(ss: seq<Server>, es: seq<Event>, i: nat, j: nat, sid: Id, pid: Id)
    requires Run(ss, es) && i < j < |ss| && IssuesDelete(ss, es, i, sid)
    ensures IsIdle(ss[j], sid)
    ensures forall c :: c in ss[j].calls ==> ss[j].calls[c].sid != sid
    ensures !Owns(ss[j], pid, sid)
  {
    DeleteIssuedForever(ss, es, i, j, sid);
    RunInv(ss, es, j);
    assert SessionOk(ss[j], sid);
    IdleHasNoCalls(ss, es, j, sid);
    assert PairOk(ss[j], pid, sid);
  }

  // ----- after cleanup -----

  predicate Empty(s: Server) {
    s.shuttingDown && s.sessions == map[] && s.retired == map[]
  }

  /** What a cleanup in progress has already emptied. */
  predicate CleaningOk(s: Server) {
    s.holder.Cleaning? ==>
      && (s.holder.k.Flagged? ==> s.shuttingDown)
      && (s.holder.k.HalfDrained? ==> s.shuttingDown && s.sessions == map[])
      && (s.holder.k.Shutting? || s.holder.k.Joining? ==> Empty(s))
  }

  /** Both maps are empty, and no handler is in a position to fill them. */
  predicate Quiet(s: Server) {
    && Empty(s)
    && match s.holder
       case Free => true
       case Creating(n) => n.Checking?
       case Retiring(_, c) => c.LookLive? || c.LookRetired?
       case Cleaning(k) =>
         match k
         case HalfDrained(claimed) => claimed == {}
         case Shutting(claimed, _) => claimed == {}
         case Joining(work) => work == map[]
         case _ => true
  }

  lemma CleaningByCleanup(s: Server, e: CleanEvent)
    requires CleaningOk(s) && CleanEnabled(s, e)
    ensures CleaningOk(CleanApply(s, e))
  {
    match e
    case StartCleanup =>
    case SetFlag =>
    case DrainLive =>
    case DrainRetired =>
    case CloseOne(_) =>
    case SpawnAll =>
    case CleanWait(_, _) =>
    case CleanIssue(_) =>
    case CleanDeleted(_) =>
    case CleanRefused(_) =>
    case FinishCleanup =>
  }

  lemma CleaningKept(s: Server, e: Event)
    requires CleaningOk(s) && Enabled(s, e)
    ensures CleaningOk(Apply(s, e))
  {
    match e
    case OnNew(n) => NewFrame(s, n, Id(0));
    case OnClose(c) => CloseFrame(s, c, Id(0));
    case OnCleanup(k) => CleaningByCleanup(s, k);
    case OnPrompt(pid, a) => PromptFrame(s, pid, Actor(s, pid, a), EffectOf(s, pid, a));
    case OnReply(_, _) =>
    case OnCancel(_) =>
  }

  lemma QuietByClose(s: Server, e: CloseEvent)
    requires Quiet(s) && CloseEnabled(s, e)
    ensures Quiet(CloseApply(s, e)) && CloseApply(s, e).log.created == s.log.created
  {
  }

  lemma QuietByCleanup(s: Server, e: CleanEvent)
    requires Quiet(s) && CleanEnabled(s, e)
    ensures Quiet(CleanApply(s, e)) && CleanApply(s, e).log.created == s.log.created
  {
  }

  lemma QuietKept(s: Server, e: Event)
    requires Quiet(s) && Enabled(s, e)
    ensures Quiet(Apply(s, e)) && Apply(s, e).log.created == s.log.created
  {
    match e
    case OnNew(_) =>
    case OnClose(c) => QuietByClose(s, c);
    case OnCleanup(k) => QuietByCleanup(s, k);
    case OnPrompt(pid, a) => PromptFrame(s, pid, Actor(s, pid, a), EffectOf(s, pid, a));
    case OnReply(_, _) =>
    case OnCancel(_) =>
  }

  lemma {:induction false} RunCleaning(ss: seq<Server>, es: seq<Event>, k: nat)
    requires Run(ss, es) && k < |ss|
    ensures CleaningOk(ss[k])
  {
    if k > 0 {
      assert Steps(ss, es, k - 1);
      RunCleaning(ss, es, k - 1);
      CleaningKept(ss[k - 1], es[k - 1]);
    }
  }

  /**
   Once a cleanup has finished, both maps stay empty forever, no session is created again,
   and every session ever created has been deleted or its delete has failed.
   */
  lemma {:induction false} CleanupIsFinal(ss: seq<Server>, es: seq<Event>, i: nat, j: nat, sid: Id)
    requires Run(ss, es) && i < j < |ss| && Happens(ss, es, i, OnCleanup(FinishCleanup))
    ensures Quiet(ss[j])
    ensures ss[j].log.created == ss[i].log.created
    ensures sid in ss[j].log.created ==> ss[j].log.deleted[sid] == 1 || sid in ss[j].log.abandoned
    decreases j
  {
    assert Steps(ss, es, j - 1);
    if i + 1 == j {
      RunCleaning(ss, es, i);
    } else {
      CleanupIsFinal(ss, es, i, j - 1, sid);
      QuietKept(ss[j - 1], es[j - 1]);
    }
    ExactlyOnePlace(ss, es, j, sid);
  }
}
