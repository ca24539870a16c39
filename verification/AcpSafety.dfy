/**
 Where every runtime session of the ACP gateway is, over every interleaving of its
 handlers. The invariant is stated session by session, so each step is checked against one
 arbitrary session.
 */
module AcpSafety {
  import opened Prelude
  import opened AcpServer
  import PT = PromptTurn
  import TurnSafety

  // ----- the place of a runtime session -----

  function Bit(b: bool): int {
    if b then 1 else 0
  }

  /** The lifecycle-lock holder has taken the session out of the maps, or not yet put it in. */
  predicate ClaimedBy(h: Holder, sid: Id) {
    match h
    case Free => false
    case Creating(n) => n.Made? && n.sid == sid
    case Retiring(x, c) => x == sid && !c.LookLive? && !c.LookRetired?
    case Cleaning(k) =>
      match k
      case HalfDrained(claimed) => sid in claimed
      case Shutting(claimed, _) => sid in claimed
      case Joining(work) => sid in work && !work[sid].Joined?
      case _ => false
  }

  /** How many places hold the session, counting every successful delete. */
  function Places(s: Server, sid: Id): int {
    Bit(sid in s.sessions) + Bit(sid in s.retired) + Bit(ClaimedBy(s.holder, sid))
    + s.log.deleted[sid] + Bit(sid in s.log.abandoned)
  }

  ghost predicate Placed(s: Server, sid: Id) {
    Places(s, sid) == Bit(sid in s.log.created)
  }

  lemma PlacedByNew(s: Server, e: NewEvent, sid: Id)
    requires Placed(s, sid) && NewEnabled(s, e)
    ensures Placed(NewApply(s, e), sid)
  {
    match e
    case StartNew =>
    case CheckShutdown =>
    case CreateOk(_) =>
    case CreateFailed =>
    case InsertSession =>
  }

  /** The events of a close up to the one that takes the session out of its map. */
  predicate Searching(e: CloseEvent) {
    e.StartClose? || e.TakeLive? || e.MissLive? || e.TakeRetired? || e.MissRetired?
  }

  lemma PlacedBySearch(s: Server, e: CloseEvent, sid: Id)
    requires Placed(s, sid) && CloseEnabled(s, e) && Searching(e)
    ensures Placed(CloseApply(s, e), sid)
  {
  }

  lemma PlacedByClose(s: Server, e: CloseEvent, sid: Id)
    requires Placed(s, sid) && CloseEnabled(s, e)
    ensures Placed(CloseApply(s, e), sid)
  {
    if Searching(e) {
      PlacedBySearch(s, e, sid);
    }
  }

  /** The events of a cleanup up to the one that starts its tasks. */
  predicate Gathering(e: CleanEvent) {
    e.StartCleanup? || e.SetFlag? || e.DrainLive? || e.DrainRetired? || e.CloseOne? || e.SpawnAll?
  }

  lemma PlacedByGathering(s: Server, e: CleanEvent, sid: Id)
    requires Placed(s, sid) && CleanEnabled(s, e) && Gathering(e)
    ensures Placed(CleanApply(s, e), sid)
  {
  }

  lemma PlacedByJoining(s: Server, e: CleanEvent, sid: Id)
    requires Placed(s, sid) && CleanEnabled(s, e) && !Gathering(e)
    ensures Placed(CleanApply(s, e), sid)
  {
  }

  lemma PlacedByCleanup(s: Server, e: CleanEvent, sid: Id)
    requires Placed(s, sid) && CleanEnabled(s, e)
    ensures Placed(CleanApply(s, e), sid)
  {
    if Gathering(e) {
      PlacedByGathering(s, e, sid);
    } else {
      PlacedByJoining(s, e, sid);
    }
  }

  lemma PlacedKept(s: Server, e: Event, sid: Id)
    requires Placed(s, sid) && Enabled(s, e)
    ensures Placed(Apply(s, e), sid)
  {
    match e
    case OnNew(n) => PlacedByNew(s, n, sid);
    case OnClose(c) => PlacedByClose(s, c, sid);
    case OnCleanup(k) => PlacedByCleanup(s, k, sid);
    case OnPrompt(pid, a) => PromptKeepsPlaces(s, pid, a, sid);
    case OnReply(_, _) =>
    case OnCancel(_) =>
  }

  lemma PromptKeepsPlaces(s: Server, pid: Id, a: PromptAction, sid: Id)
    requires PromptEnabled(s, pid, a)
    ensures sid in PromptApply(s, pid, a).sessions <==> sid in s.sessions
    ensures Places(PromptApply(s, pid, a), sid) == Places(s, sid)
    ensures PromptApply(s, pid, a).log.created == s.log.created
  {
    PromptFrame(s, pid, Actor(s, pid, a), EffectOf(s, pid, a));
  }

  /** A prompt touches neither the lifecycle state nor the runtime's session log. */
  lemma PromptFrame(s: Server, pid: Id, sid: Id, f: Effect)
    ensures var s' := Perform(s, pid, sid, f);
            && s'.holder == s.holder && s'.retired == s.retired && s'.shuttingDown == s.shuttingDown
            && s'.log.created == s.log.created && s'.log.deleted == s.log.deleted
            && s'.log.deleteIssued == s.log.deleteIssued && s'.log.abandoned == s.log.abandoned
            && s'.sessions.Keys == s.sessions.Keys
  {
  }

  // ----- the turn of a session -----

  /** Only a closed turn is waited for, and once the wait is over no lease is left. */
  ghost predicate TurnOk(t: PT.Turn) {
    && TurnSafety.Inv(t)
    && (forall w :: w in t.waiters ==> w == WAITER && t.core.closed)
    && (WAITER in t.waiters && t.waiters[WAITER] == PT.Returned ==> t.leases == map[])
  }

  /** The turn operations the server performs, with what it knows when it performs them. */
  predicate Allowed(t: PT.Turn, e: PT.Event) {
    match e
    case Enter(w) => w == WAITER && t.core.closed
    case Arm(w) => w == WAITER
    case Check(w) => w == WAITER
    case Wake(w) => w == WAITER
    case _ => true
  }

  /** A sound turn has become a sound turn; closed and idle are kept. */
  ghost predicate Onward(t: PT.Turn, t': PT.Turn) {
    && TurnOk(t')
    && (t.core.closed ==> t'.core.closed)
    && (t.core.closed && t.leases == map[] ==> t'.leases == map[])
  }

  lemma WaitersKept(t: PT.Turn, e: PT.Event)
    requires TurnOk(t) && PT.Enabled(t, e) && Allowed(t, e)
    ensures forall w :: w in PT.Apply(t, e).waiters ==> w == WAITER && PT.Apply(t, e).core.closed
    ensures t.core.closed ==> PT.Apply(t, e).core.closed
  {
  }

  lemma IdleKept(t: PT.Turn, e: PT.Event)
    requires TurnOk(t) && PT.Enabled(t, e) && Allowed(t, e)
    ensures t.core.closed && t.leases == map[] ==> PT.Apply(t, e).leases == map[]
    ensures var t' := PT.Apply(t, e);
            WAITER in t'.waiters && t'.waiters[WAITER] == PT.Returned ==> t'.leases == map[]
  {
    if e.DropState? {
      assert e.p in t.leases;
      forall q | q in t.leases
        ensures q == e.p
      {
      }
    }
  }

  lemma TurnStepOk(t: PT.Turn, e: PT.Event)
    requires TurnOk(t) && PT.Enabled(t, e) && Allowed(t, e)
    ensures Onward(t, PT.Apply(t, e))
  {
    TurnSafety.LeaseInvKept(t, e);
    TurnSafety.WaitInvKept(t, e);
    WaitersKept(t, e);
    IdleKept(t, e);
  }

  lemma FireOk(turns: map<Id, PT.Turn>, x: Id, e: PT.Event, sid: Id)
    requires sid in turns && TurnOk(turns[sid])
    requires x == sid ==> Allowed(turns[sid], e)
    ensures sid in Fire(turns, x, e) && Onward(turns[sid], Fire(turns, x, e)[sid])
  {
    if x == sid && PT.Enabled(turns[sid], e) {
      TurnStepOk(turns[sid], e);
    }
  }

  lemma EnterAllOk(turns: map<Id, PT.Turn>, claimed: set<Id>, sid: Id)
    requires sid in turns && TurnOk(turns[sid])
    requires sid in claimed ==> turns[sid].core.closed
    ensures sid in EnterAll(turns, claimed) && Onward(turns[sid], EnterAll(turns, claimed)[sid])
  {
    if sid in claimed && PT.Enabled(turns[sid], PT.Enter(WAITER)) {
      TurnStepOk(turns[sid], PT.Enter(WAITER));
    }
  }

  // ----- what closing and deleting has established -----

  predicate IsClosed(s: Server, sid: Id) {
    sid in s.turns && s.turns[sid].core.closed
  }

  predicate IsIdle(s: Server, sid: Id) {
    IsClosed(s, sid) && s.turns[sid].leases == map[]
  }

  predicate HolderOk(s: Server, sid: Id) {
    match s.holder
    case Retiring(x, c) =>
      x == sid ==>
        && (c.AwaitIdle? ==> IsClosed(s, sid))
        && (c.AwaitDelete? || c.DeleteFailed? ==> sid in s.log.deleteIssued)
    case Cleaning(k) =>
      && (k.Shutting? ==>
            (sid in k.open ==> sid in k.claimed) && (sid in k.claimed && sid !in k.open ==> IsClosed(s, sid)))
      && (k.Joining? && sid in k.work ==>
            IsClosed(s, sid) && (k.work[sid].Pending? || sid in s.log.deleteIssued))
    case _ => true
  }

  predicate NewBorn(h: Holder, sid: Id) {
    h.Creating? && h.n.Made? && h.n.sid == sid
  }

  ghost predicate TurnThere(s: Server, sid: Id) {
    && (sid in s.turns <==> sid in s.log.created && !NewBorn(s.holder, sid))
    && (sid in s.turns ==> TurnOk(s.turns[sid]))
  }

  /** A delete was issued only for a turn that is closed and without a lease, forever after. */
  ghost predicate DeletesOk(s: Server, sid: Id) {
    && (sid in s.log.deleteIssued ==> IsIdle(s, sid))
    && (sid in s.retired || sid in s.log.deleted || sid in s.log.abandoned ==> sid in s.log.deleteIssued)
    && (sid in s.sessions ==> sid !in s.log.deleteIssued)
    && HolderOk(s, sid)
  }

  ghost predicate SessionOk(s: Server, sid: Id) {
    Placed(s, sid) && TurnThere(s, sid) && DeletesOk(s, sid)
  }

  lemma NewKeepsSessions(s: Server, e: NewEvent, sid: Id)
    requires SessionOk(s, sid) && NewEnabled(s, e)
    ensures TurnThere(NewApply(s, e), sid) && DeletesOk(NewApply(s, e), sid)
  {
    match e
    case StartNew =>
    case CheckShutdown =>
    case CreateOk(_) =>
    case CreateFailed =>
    case InsertSession =>
  }

  lemma CloseTurnKeepsSessions(s: Server, e: CloseEvent, sid: Id)
    requires SessionOk(s, sid) && CloseEnabled(s, e) && (e.CloseTurn? || e.CloseWait?)
    ensures TurnThere(CloseApply(s, e), sid) && DeletesOk(CloseApply(s, e), sid)
  {
    if sid in s.turns {
      if e.CloseTurn? {
        FireOk(s.turns, s.holder.sid, PT.Close, sid);
        FireOk(Fire(s.turns, s.holder.sid, PT.Close), s.holder.sid, PT.Enter(WAITER), sid);
      } else {
        FireOk(s.turns, s.holder.sid, e.step, sid);
      }
    }
  }

  lemma CloseKeepsSessions(s: Server, e: CloseEvent, sid: Id)
    requires SessionOk(s, sid) && CloseEnabled(s, e) && !e.CloseTurn? && !e.CloseWait?
    ensures TurnThere(CloseApply(s, e), sid) && DeletesOk(CloseApply(s, e), sid)
  {
    match e
    case StartClose(_) =>
    case TakeLive =>
    case MissLive =>
    case TakeRetired =>
    case MissRetired =>
    case CloseIssue =>
    case CloseDeleted =>
    case CloseRefused =>
    case Retire =>
  }

  lemma GatheringKeepsSessions(s: Server, e: CleanEvent, sid: Id)
    requires SessionOk(s, sid) && CleanEnabled(s, e) && Gathering(e)
    ensures TurnThere(CleanApply(s, e), sid) && DeletesOk(CleanApply(s, e), sid)
  {
    if e.CloseOne? && sid in s.turns {
      FireOk(s.turns, e.sid, PT.Close, sid);
    }
    if e.SpawnAll? && sid in s.turns {
      EnterAllOk(s.turns, s.holder.k.claimed, sid);
    }
  }

  lemma JoiningKeepsSessions(s: Server, e: CleanEvent, sid: Id)
    requires SessionOk(s, sid) && CleanEnabled(s, e) && !Gathering(e)
    ensures TurnThere(CleanApply(s, e), sid) && DeletesOk(CleanApply(s, e), sid)
  {
    if e.CleanWait? && sid in s.turns {
      FireOk(s.turns, e.sid, e.step, sid);
    }
  }

  lemma CleanupKeepsSessions(s: Server, e: CleanEvent, sid: Id)
    requires SessionOk(s, sid) && CleanEnabled(s, e)
    ensures TurnThere(CleanApply(s, e), sid) && DeletesOk(CleanApply(s, e), sid)
  {
    if Gathering(e) {
      GatheringKeepsSessions(s, e, sid);
    } else {
      JoiningKeepsSessions(s, e, sid);
    }
  }

  /** Prompts perform only lease operations on turns. */
  lemma EffectTurn(s: Server, pid: Id, a: PromptAction)
    requires PromptEnabled(s, pid, a)
    ensures var f := EffectOf(s, pid, a);
            f.turn.Some? ==> f.turn.value.Begin? || f.turn.value.DropState? || f.turn.value.DropNotify?
  {
  }

  lemma PromptKeepsSessions(s: Server, pid: Id, a: PromptAction, sid: Id)
    requires SessionOk(s, sid) && PromptEnabled(s, pid, a)
    ensures SessionOk(PromptApply(s, pid, a), sid)
  {
    var f := EffectOf(s, pid, a);
    PromptFrame(s, pid, Actor(s, pid, a), f);
    EffectTurn(s, pid, a);
    if sid in s.turns && f.turn.Some? {
      FireOk(s.turns, Actor(s, pid, a), f.turn.value, sid);
    }
  }

  lemma SessionKept(s: Server, e: Event, sid: Id)
    requires SessionOk(s, sid) && Enabled(s, e)
    ensures SessionOk(Apply(s, e), sid)
  {
    PlacedKept(s, e, sid);
    match e
    case OnNew(n) => NewKeepsSessions(s, n, sid);
    case OnClose(c) =>
      if c.CloseTurn? || c.CloseWait? {
        CloseTurnKeepsSessions(s, c, sid);
      } else {
        CloseKeepsSessions(s, c, sid);
      }
    case OnCleanup(k) => CleanupKeepsSessions(s, k, sid);
    case OnPrompt(pid, a) => PromptKeepsSessions(s, pid, a, sid);
    case OnReply(_, _) =>
    case OnCancel(x) =>
      if sid in s.turns {
        FireOk(s.turns, x, PT.Cancel, sid);
      }
  }

  lemma {:induction false} RunSessions(ss: seq<Server>, es: seq<Event>, k: nat, sid: Id)
    requires Run(ss, es) && k < |ss|
    ensures SessionOk(ss[k], sid)
  {
    if k > 0 {
      assert Steps(ss, es, k - 1);
      RunSessions(ss, es, k - 1, sid);
      SessionKept(ss[k - 1], es[k - 1], sid);
    }
  }
}
