/**
 A run in which a stored page is displaced: two prompts read the session's page before
 either begins; the second one then opens a page of its own and stores it over the first
 one's page, which stays open with nobody left to close it.
 */
module AcpStaleRun {
  import opened Prelude
  import opened AcpServer
  import PT = PromptTurn

  const SID := Id(1)
  const FIRST := Id(10)
  const SECOND := Id(11)
  const LOST := Id(100)
  const KEPT := Id(101)

  /** `s` is the last state of some run. */
  ghost predicate Reached(s: Server) {
    exists ss, es :: Run(ss, es) && ss[|es|] == s
  }

  lemma Then(s: Server, e: Event, s': Server)
    requires Reached(s) && Enabled(s, e) && s' == Apply(s, e)
    ensures Reached(s')
  {
    var ss, es :| Run(ss, es) && ss[|es|] == s;
    var longer, events := ss + [s'], es + [e];
    forall i | 0 <= i < |events|
      ensures Steps(longer, events, i)
    {
      assert i < |es| ==> Steps(ss, es, i);
    }
    assert Run(longer, events);
  }

  // ----- the states the run passes through -----

  function Session(page: Option<Id>, turn: PT.Turn, prompts: map<Id, Prompt>, calls: map<Id, Call>,
                   next: int, log: Log): Server
  {
    Server(map[SID := page], map[], false, Free, map[SID := turn], prompts, calls, next, log)
  }

  function At(stage: Stage): Prompt {
    Prompt(SID, None, None, None, false, stage)
  }

  const LOG := Log({SID}, {}, multiset{}, {}, {FIRST, SECOND}, map[], {}, {}, {})
  const BOTH_LOOKED := Session(None, PT.INIT, map[FIRST := At(Looked), SECOND := At(Looked)], map[], 0, LOG)

  lemma Setup()
    ensures Reached(BOTH_LOOKED)
  {
    var s1 := INIT.(holder := Creating(Checking));
    var s2 := INIT.(holder := Creating(Calling));
    var s3 := INIT.(holder := Creating(Made(SID)), log := INIT.log.(created := {SID}));
    var s4 := s3.(holder := Free, sessions := map[SID := None], turns := map[SID := PT.INIT]);
    var s5 := s4.(prompts := map[FIRST := At(Looked)], log := s4.log.(prompted := {FIRST}));
    assert Run([INIT], []);
    Then(INIT, OnNew(StartNew), s1);
    Then(s1, OnNew(CheckShutdown), s2);
    Then(s2, OnNew(CreateOk(SID)), s3);
    Then(s3, OnNew(InsertSession), s4);
    Then(s4, OnPrompt(FIRST, Look(SID)), s5);
    Then(s5, OnPrompt(SECOND, Look(SID)), BOTH_LOOKED);
  }

  /** The session while prompt `pid` holds the lease, with no call in flight. */
  function Busy(base: Server, pid: Id, p: Prompt): Server {
    base.(prompts := base.prompts[pid := p])
  }

  /** Issues the call of one stage: `OpenNew` or `Issue`. */
  predicate Calls(s: Server, pid: Id, p: Prompt, a: PromptAction, kind: CallKind) {
    && pid in s.prompts && s.prompts[pid] == p && p.sid == SID && pid in s.log.prompted
    && s.calls == map[]
    && PromptEnabled(s, pid, a) && EffectOf(s, pid, a) == Issuing(s, p, kind)
    && p.stage != Waiting(Id(s.nextCall))
  }

  function Answered(s: Server, pid: Id, p: Prompt, kind: CallKind, reply: Reply): Server {
    Busy(s, pid, AfterReply(p.(stage := Waiting(Id(s.nextCall))), kind, reply)).(
      nextCall := s.nextCall + 1,
      log := s.log.(pages := PagesAfter(s.log.pages, Call(pid, SID, kind, None), reply)))
  }

  function Called(s: Server, pid: Id, p: Prompt, kind: CallKind, reply: Option<Reply>): Server {
    Busy(s, pid, p.(stage := Waiting(Id(s.nextCall)))).(
      calls := map[Id(s.nextCall) := Call(pid, SID, kind, reply)], nextCall := s.nextCall + 1)
  }

  lemma Asks(s: Server, pid: Id, p: Prompt, a: PromptAction, kind: CallKind)
    requires Reached(s) && Calls(s, pid, p, a, kind)
    ensures Reached(Called(s, pid, p, kind, None))
  {
    Then(s, OnPrompt(pid, a), Called(s, pid, p, kind, None));
  }

  lemma Takes(s: Server, pid: Id, p: Prompt, kind: CallKind, reply: Reply)
    requires pid in s.log.prompted && p.sid == SID && s.calls == map[]
    requires Reached(Called(s, pid, p, kind, Some(reply)).(log := Answered(s, pid, p, kind, reply).log))
    ensures Reached(Answered(s, pid, p, kind, reply))
  {
    var s2 := Called(s, pid, p, kind, Some(reply)).(log := Answered(s, pid, p, kind, reply).log);
    Then(s2, OnPrompt(pid, Observe), Answered(s, pid, p, kind, reply));
  }

  /** One runtime call: issued, answered, and its answer taken. */
  lemma RoundTrip(s: Server, pid: Id, p: Prompt, a: PromptAction,
                  kind: CallKind, reply: Reply)
    requires Reached(s) && Calls(s, pid, p, a, kind)
    requires kind == OpenPage ==> reply.NewPage? && reply.page !in s.log.pages
    requires kind != OpenPage ==> reply.Completed?
    ensures Reached(Answered(s, pid, p, kind, reply))
  {
    Asks(s, pid, p, a, kind);
    Replies(s, pid, p, kind, reply);
    Takes(s, pid, p, kind, reply);
  }

  lemma Replies(s: Server, pid: Id, p: Prompt, kind: CallKind, reply: Reply)
    requires Reached(Called(s, pid, p, kind, None)) && pid in s.log.prompted && p.sid == SID && s.calls == map[]
    requires kind == OpenPage ==> reply.NewPage? && reply.page !in s.log.pages
    requires kind != OpenPage ==> reply.Completed?
    ensures Reached(Called(s, pid, p, kind, Some(reply)).(log := Answered(s, pid, p, kind, reply).log))
  {
    var s2 := Called(s, pid, p, kind, Some(reply)).(log := Answered(s, pid, p, kind, reply).log);
    Then(Called(s, pid, p, kind, None), OnReply(Id(s.nextCall), reply), s2);
  }

  /** A session with no lease outstanding and no call in flight, and a prompt that has looked. */
  predicate Ready(s: Server, pid: Id) {
    && SID in s.turns && SID in s.sessions && s.calls == map[]
    && PT.Enabled(s.turns[SID], PT.Begin(pid)) && PT.BeginResult(s.turns[SID].core).Ok?
    && s.turns[SID].core.channels !in s.turns[SID].core.signalled
    && pid in s.prompts && s.prompts[pid] == At(Looked) && pid in s.log.prompted
  }

  /** The session's page and turn. */
  function PageNow(s: Server): Option<Id> {
    if SID in s.sessions then s.sessions[SID] else None
  }

  function TurnNow(s: Server): PT.Turn {
    if SID in s.turns then s.turns[SID] else PT.INIT
  }

  function BegunTurn(t: PT.Turn, pid: Id): PT.Turn {
    if PT.Enabled(t, PT.Begin(pid)) then PT.Apply(t, PT.Begin(pid)) else t
  }

  function Began(s: Server, pid: Id): Server {
    Busy(s, pid, At(Begun).(atBegin := PageNow(s))).(turns := s.turns[SID := BegunTurn(TurnNow(s), pid)])
  }

  /** The session after `pid` has opened `page`. */
  function Opened(s: Server, pid: Id, page: Id): Server {
    Busy(Began(s, pid), pid, Prompt(SID, None, PageNow(s), Some(page), true, HavePage)).(
      nextCall := s.nextCall + 1, log := s.log.(pages := s.log.pages[page := Opening(SID, pid)]))
  }

  /** The session after `pid` has also navigated and stored it. */
  function Stored(s: Server, pid: Id, page: Id): Server {
    Busy(Opened(s, pid, page), pid, Prompt(SID, None, PageNow(s), Some(page), true, FindTarget)).(
      sessions := s.sessions[SID := Some(page)],
      nextCall := s.nextCall + 2,
      log := s.log.(pages := s.log.pages[page := Opening(SID, pid)],
                    recorded := s.log.recorded + {page},
                    orphaned := s.log.orphaned + Displaced(PageNow(s), Some(page))))
  }

  lemma Opens(s: Server, pid: Id, page: Id)
    requires Reached(s) && Ready(s, pid) && page !in s.log.pages
    ensures Reached(Opened(s, pid, page))
  {
    var s1, p1 := Began(s, pid), At(Begun).(atBegin := s.sessions[SID]);
    Then(s, OnPrompt(pid, BeginOk), s1);
    RoundTrip(s1, pid, p1, OpenNew, OpenPage, NewPage(page));
    assert Answered(s1, pid, p1, OpenPage, NewPage(page)) == Opened(s, pid, page);
  }

  function Arriving(s: Server, pid: Id, page: Id): Server {
    Busy(Opened(s, pid, page), pid, Prompt(SID, None, PageNow(s), Some(page), true, Arrived)).(
      nextCall := s.nextCall + 2)
  }

  lemma Navigates(s: Server, pid: Id, page: Id)
    requires Ready(s, pid) && page !in s.log.pages && Reached(Opened(s, pid, page))
    ensures Reached(Arriving(s, pid, page))
  {
    var s2, p2 := Opened(s, pid, page), Prompt(SID, None, s.sessions[SID], Some(page), true, HavePage);
    RoundTrip(s2, pid, p2, Issue, Navigate, Completed);
    assert Answered(s2, pid, p2, Navigate, Completed) == Arriving(s, pid, page);
  }

  lemma Stores(s: Server, pid: Id, page: Id)
    requires Ready(s, pid) && page !in s.log.pages && Reached(Opened(s, pid, page))
    ensures Reached(Stored(s, pid, page))
  {
    Navigates(s, pid, page);
    Then(Arriving(s, pid, page), OnPrompt(pid, Record), Stored(s, pid, page));
  }

  // ----- the prompt that stored a page finishes -----

  /** The prompt has found its target page. */
  function Aimed(s: Server, pid: Id, page: Id): Server {
    Busy(Stored(s, pid, page), pid, Prompt(SID, None, PageNow(s), Some(page), false, HaveTarget))
  }

  function Acted(s: Server, pid: Id, page: Id): Server {
    Busy(Stored(s, pid, page), pid, Prompt(SID, None, PageNow(s), Some(page), false, Finished)).(
      nextCall := s.nextCall + 3)
  }

  function DroppedTurn(t: PT.Turn, pid: Id): PT.Turn {
    t.(core := PT.NotifyCore(PT.DropCore(PT.BeginCore(t.core))))
  }

  function Left(s: Server, pid: Id, page: Id): Server {
    Acted(s, pid, page).(prompts := s.prompts - {pid}, turns := s.turns[SID := DroppedTurn(TurnNow(s), pid)])
  }

  lemma Aims(s: Server, pid: Id, page: Id)
    requires Ready(s, pid) && Reached(Stored(s, pid, page))
    ensures Reached(Aimed(s, pid, page))
  {
    Then(Stored(s, pid, page), OnPrompt(pid, TargetFound), Aimed(s, pid, page));
  }

  lemma Acts(s: Server, pid: Id, page: Id)
    requires Ready(s, pid) && Reached(Aimed(s, pid, page))
    ensures Reached(Acted(s, pid, page))
  {
    var s1, p1 := Aimed(s, pid, page), Prompt(SID, None, s.sessions[SID], Some(page), false, HaveTarget);
    RoundTrip(s1, pid, p1, Issue, Intent, Completed);
    assert Answered(s1, pid, p1, Intent, Completed) == Acted(s, pid, page);
  }

  function Releasing(s: Server, pid: Id, page: Id): Server {
    Busy(Acted(s, pid, page), pid, Prompt(SID, None, PageNow(s), Some(page), false, Announcing)).(
      turns := s.turns[SID := ReleasedTurn(TurnNow(s), pid)])
  }

  function ReleasedTurn(t: PT.Turn, pid: Id): PT.Turn {
    t.(core := PT.DropCore(PT.BeginCore(t.core)), unannounced := t.unannounced + {pid})
  }

  lemma TurnReleased(t: PT.Turn, pid: Id)
    requires PT.Enabled(t, PT.Begin(pid)) && PT.BeginResult(t.core).Ok?
    ensures var t1 := PT.Apply(t, PT.Begin(pid));
            PT.Enabled(t1, PT.DropState(pid)) && PT.Apply(t1, PT.DropState(pid)) == ReleasedTurn(t, pid)
    ensures var t2 := ReleasedTurn(t, pid);
            PT.Enabled(t2, PT.DropNotify(pid)) && PT.Apply(t2, PT.DropNotify(pid)) == DroppedTurn(t, pid)
  {
    assert PT.Apply(t, PT.Begin(pid)).leases - {pid} == t.leases;
    assert t.unannounced + {pid} - {pid} == t.unannounced;
  }

  lemma LetsGo(s: Server, pid: Id, p: Prompt, t: PT.Turn)
    requires Reached(s) && pid in s.prompts && s.prompts[pid] == p && p.sid == SID && p.stage == Finished
    requires pid in s.log.prompted
    requires SID in s.turns && PT.Enabled(s.turns[SID], PT.DropState(pid)) && PT.Apply(s.turns[SID], PT.DropState(pid)) == t
    ensures Reached(Busy(s, pid, p.(stage := Announcing)).(turns := s.turns[SID := t]))
  {
    Then(s, OnPrompt(pid, Release), Busy(s, pid, p.(stage := Announcing)).(turns := s.turns[SID := t]));
  }

  lemma Releases(s: Server, pid: Id, page: Id)
    requires Ready(s, pid) && Reached(Acted(s, pid, page))
    ensures Reached(Releasing(s, pid, page))
  {
    TurnReleased(s.turns[SID], pid);
    LetsGo(Acted(s, pid, page), pid, Prompt(SID, None, PageNow(s), Some(page), false, Finished), ReleasedTurn(TurnNow(s), pid));
    assert Acted(s, pid, page).turns[SID := ReleasedTurn(TurnNow(s), pid)] == s.turns[SID := ReleasedTurn(TurnNow(s), pid)];
  }

  lemma LeavesNothing(s: Server, pid: Id, page: Id)
    requires Ready(s, pid)
    ensures Releasing(s, pid, page).prompts - {pid} == s.prompts - {pid}
    ensures Fire(Releasing(s, pid, page).turns, SID, PT.DropNotify(pid))
         == s.turns[SID := DroppedTurn(s.turns[SID], pid)]
  {
    TurnReleased(s.turns[SID], pid);
  }

  lemma Leaves(s: Server, pid: Id, page: Id)
    requires Ready(s, pid) && Reached(Releasing(s, pid, page))
    ensures Reached(Left(s, pid, page))
  {
    LeavesNothing(s, pid, page);
    Then(Releasing(s, pid, page), OnPrompt(pid, Announce), Left(s, pid, page));
  }

  /** The first prompt opens a page, stores it and finishes; the second still has its old snapshot. */
  lemma FirstPrompt()
    ensures Reached(Left(BOTH_LOOKED, FIRST, LOST))
  {
    Setup();
    Opens(BOTH_LOOKED, FIRST, LOST);
    Stores(BOTH_LOOKED, FIRST, LOST);
    Aims(BOTH_LOOKED, FIRST, LOST);
    Acts(BOTH_LOOKED, FIRST, LOST);
    Releases(BOTH_LOOKED, FIRST, LOST);
    Leaves(BOTH_LOOKED, FIRST, LOST);
  }

  /**
   Some run reaches a state with a live session and a page of it that is open, that no
   prompt works on, whose close was never submitted, and that is not the session's page.
   */
  lemma StalePromptLosesAPage()
    ensures exists s :: Reached(s) && Abandoned(s, LOST)
  {
    FirstPrompt();
    var s := Left(BOTH_LOOKED, FIRST, LOST);
    Opens(s, SECOND, KEPT);
    Stores(s, SECOND, KEPT);
    assert Abandoned(Stored(s, SECOND, KEPT), LOST);
  }

  predicate Abandoned(s: Server, page: Id) {
    && page in s.log.pages && page in s.log.recorded && page !in s.log.closeSubmitted
    && s.log.pages[page].sid in s.sessions && s.sessions[s.log.pages[page].sid] != Some(page)
    && s.log.pages[page].pid !in s.prompts
    && forall pid :: pid in s.prompts ==> s.prompts[pid].hand != Some(page) && s.prompts[pid].snapshot != Some(page)
  }
}
