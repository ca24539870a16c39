/**
 The ACP gateway's session protocol as a state machine over every interleaving of its
 handlers: `session/new`, `session/prompt`, `session/cancel`, `session/close` and the
 cleanup that runs when the client disconnects.

 A step is one section between awaits: a locked access to `sessions` or
 `retired_sessions`, one turn operation, issuing one runtime call, or one reply of the
 runtime. The holder of the lifecycle lock is unique, so its progress is a single value;
 prompts run without that lock, any number at a time. A handler that still waits for the
 lifecycle lock has done nothing, so it needs no state.
 */
module AcpServer {
  import opened Prelude
  import PT = PromptTurn

  // ----- runtime calls -----

  datatype CallKind =
    Context | Evidence | Checkpoint | Recover | OpenPage | Navigate | ClosePage | Intent | Retry

  /** Calls moved into their own task, which outlives a cancelled wait. */
  predicate Spawned(kind: CallKind) {
    kind in {Checkpoint, Recover, OpenPage, Intent}
  }

  /** `Gated` is the failure that may be retried with a one-shot vision consent. */
  datatype Reply = Completed | Gated | Other | Error | NewPage(page: Id)

  datatype Call = Call(pid: Id, sid: Id, kind: CallKind, reply: Option<Reply>)

  // ----- handlers -----

  /** Where a prompt stands. Every stage but `Looked` and `Announcing` holds the lease. */
  datatype Stage =
    | Looked
    | Begun
    | Waiting(call: Id)
    | Draining(call: Id)
    | HavePage
    | Abandon
    | Closing(call: Id)
    | Arrived
    | FindTarget
    | HaveTarget
    | Evidenced
    | Asking
    | Approved
    | Finished
    | Announcing

  /**
   `snapshot` is the page read from `sessions` before `begin`; `atBegin` is what `sessions`
   held at the instant `begin` succeeded; `hand` is the page the prompt works on, and
   `own` says that this prompt opened it.
   */
  datatype Prompt = Prompt(
    sid: Id,
    snapshot: Option<Id>,
    atBegin: Option<Id>,
    hand: Option<Id>,
    own: bool,
    stage: Stage)

  predicate HoldsLease(stage: Stage) {
    stage != Looked && stage != Announcing
  }

  predicate OnCall(stage: Stage) {
    stage.Waiting? || stage.Draining? || stage.Closing?
  }

  datatype CleanTask = Pending | Deleting | Joined

  /** `new_session`: before the shutdown check, during `create_session`, before the insertion. */
  datatype NewStage = Checking | Calling | Made(sid: Id)

  /** `close_session`, from the first lookup to the answer of `delete_session`. */
  datatype CloseStage =
    | LookLive
    | LookRetired
    | Taken(page: Option<Id>)
    | AwaitIdle(page: Option<Id>)
    | AwaitDelete(page: Option<Id>)
    | DeleteFailed(page: Option<Id>)

  /** `cleanup_sessions`; `open` are the claimed sessions whose turn is still to be closed. */
  datatype CleanStage =
    | Started
    | Flagged
    | HalfDrained(claimed: set<Id>)
    | Shutting(claimed: set<Id>, open: set<Id>)
    | Joining(work: map<Id, CleanTask>)

  /** The progress of the handler that holds the lifecycle lock. */
  datatype Holder =
    | Free
    | Creating(n: NewStage)
    | Retiring(sid: Id, c: CloseStage)
    | Cleaning(k: CleanStage)

  datatype Opening = Opening(sid: Id, pid: Id)

  /** What the runtime was asked for and answered, and what became of each page. */
  datatype Log = Log(
    created: set<Id>,
    deleteIssued: set<Id>,
    deleted: multiset<Id>,
    abandoned: set<Id>,
    prompted: set<Id>,
    pages: map<Id, Opening>,
    closeSubmitted: set<Id>,
    recorded: set<Id>,
    orphaned: set<Id>)

  datatype Server = Server(
    sessions: map<Id, Option<Id>>,
    retired: map<Id, Option<Id>>,
    shuttingDown: bool,
    holder: Holder,
    turns: map<Id, PT.Turn>,
    prompts: map<Id, Prompt>,
    calls: map<Id, Call>,
    nextCall: int,
    log: Log)

  const INIT := Server(
    map[], map[], false, Free, map[], map[], map[], 0,
    Log({}, {}, multiset{}, {}, {}, map[], {}, {}, {}))

  // ----- events -----

  datatype NewEvent =
    StartNew | CheckShutdown | CreateOk(created: Id) | CreateFailed | InsertSession

  datatype CloseEvent =
    | StartClose(sid: Id)
    | TakeLive
    | MissLive
    | TakeRetired
    | MissRetired
    | CloseTurn
    | CloseWait(step: PT.Event)
    | CloseIssue
    | CloseDeleted
    | CloseRefused
    | Retire

  datatype CleanEvent =
    | StartCleanup
    | SetFlag
    | DrainLive
    | DrainRetired
    | CloseOne(sid: Id)
    | SpawnAll
    | CleanWait(sid: Id, step: PT.Event)
    | CleanIssue(sid: Id)
    | CleanDeleted(sid: Id)
    | CleanRefused(sid: Id)
    | FinishCleanup

  datatype PromptAction =
    | Look(sid: Id)
    | BeginOk
    | BeginRefused
    | Reject
    | AskRuntime(kind: CallKind)
    | ReusePage
    | OpenNew
    | KeepPage
    | Issue
    | SubmitClose
    | CancelBeforeCall
    | CancelSpawned
    | CancelInline
    | Observe
    | Drained
    | CloseDone
    | Record
    | RecordGone
    | TargetFound
    | TargetGone
    | Permission(granted: bool)
    | Release
    | Announce

  datatype Event =
    | OnNew(n: NewEvent)
    | OnClose(c: CloseEvent)
    | OnCleanup(k: CleanEvent)
    | OnPrompt(pid: Id, a: PromptAction)
    | OnReply(call: Id, reply: Reply)
    | OnCancel(sid: Id)

  // ----- shared moves -----

  /** The lifecycle holder is the only task that waits for a turn to become idle. */
  const WAITER := Id(0)

  predicate WaitStep(e: PT.Event) {
    e == PT.Arm(WAITER) || e == PT.Check(WAITER) || e == PT.Wake(WAITER)
  }

  /** Runs one turn operation of session `sid`. */
  function Fire(turns: map<Id, PT.Turn>, sid: Id, e: PT.Event): map<Id, PT.Turn> {
    if sid in turns && PT.Enabled(turns[sid], e) then turns[sid := PT.Apply(turns[sid], e)] else turns
  }

  predicate TurnIdle(s: Server, sid: Id) {
    sid in s.turns && WAITER in s.turns[sid].waiters && s.turns[sid].waiters[WAITER] == PT.Returned
  }

  predicate SeesCancel(s: Server, pid: Id) {
    && pid in s.prompts
    && var sid := s.prompts[pid].sid;
    && sid in s.turns && pid in s.turns[sid].leases && PT.Cancelled(s.turns[sid], pid)
  }

  // ----- session/new -----

  predicate NewEnabled(s: Server, e: NewEvent) {
    match e
    case StartNew => s.holder.Free?
    case CheckShutdown => s.holder.Creating? && s.holder.n.Checking?
    case CreateOk(sid) => s.holder.Creating? && s.holder.n.Calling? && sid !in s.log.created
    case CreateFailed => s.holder.Creating? && s.holder.n.Calling?
    case InsertSession => s.holder.Creating? && s.holder.n.Made?
  }

  function NewApply(s: Server, e: NewEvent): Server
    requires NewEnabled(s, e)
  {
    match e
    case StartNew => s.(holder := Creating(Checking))
    case CheckShutdown => s.(holder := if s.shuttingDown then Free else Creating(Calling))
    case CreateOk(sid) =>
      s.(holder := Creating(Made(sid)), log := s.log.(created := s.log.created + {sid}))
    case CreateFailed => s.(holder := Free)
    case InsertSession =>
      s.(sessions := s.sessions[s.holder.n.sid := None],
         turns := s.turns[s.holder.n.sid := PT.INIT],
         holder := Free)
  }

  // ----- session/close -----

  predicate CloseEnabled(s: Server, e: CloseEvent) {
    match e
    case StartClose(_) => s.holder.Free?
    case TakeLive => s.holder.Retiring? && s.holder.c.LookLive? && s.holder.sid in s.sessions
    case MissLive => s.holder.Retiring? && s.holder.c.LookLive? && s.holder.sid !in s.sessions
    case TakeRetired => s.holder.Retiring? && s.holder.c.LookRetired? && s.holder.sid in s.retired
    case MissRetired => s.holder.Retiring? && s.holder.c.LookRetired? && s.holder.sid !in s.retired
    case CloseTurn => s.holder.Retiring? && s.holder.c.Taken?
    case CloseWait(step) => s.holder.Retiring? && s.holder.c.AwaitIdle? && WaitStep(step)
    case CloseIssue => s.holder.Retiring? && s.holder.c.AwaitIdle? && TurnIdle(s, s.holder.sid)
    case CloseDeleted => s.holder.Retiring? && s.holder.c.AwaitDelete?
    case CloseRefused => s.holder.Retiring? && s.holder.c.AwaitDelete?
    case Retire => s.holder.Retiring? && s.holder.c.DeleteFailed?
  }

  function CloseApply(s: Server, e: CloseEvent): Server
    requires CloseEnabled(s, e)
  {
    match e
    case StartClose(sid) => s.(holder := Retiring(sid, LookLive))
    case TakeLive =>
      s.(sessions := s.sessions - {s.holder.sid},
         holder := Retiring(s.holder.sid, Taken(s.sessions[s.holder.sid])))
    case MissLive => s.(holder := Retiring(s.holder.sid, LookRetired))
    case TakeRetired =>
      s.(retired := s.retired - {s.holder.sid},
         holder := Retiring(s.holder.sid, Taken(s.retired[s.holder.sid])))
    case MissRetired => s.(holder := Free)
    case CloseTurn =>
      s.(turns := Fire(Fire(s.turns, s.holder.sid, PT.Close), s.holder.sid, PT.Enter(WAITER)),
         holder := Retiring(s.holder.sid, AwaitIdle(s.holder.c.page)))
    case CloseWait(step) => s.(turns := Fire(s.turns, s.holder.sid, step))
    case CloseIssue =>
      s.(holder := Retiring(s.holder.sid, AwaitDelete(s.holder.c.page)),
         log := s.log.(deleteIssued := s.log.deleteIssued + {s.holder.sid}))
    case CloseDeleted =>
      s.(holder := Free, log := s.log.(deleted := s.log.deleted + multiset{s.holder.sid}))
    case CloseRefused => s.(holder := Retiring(s.holder.sid, DeleteFailed(s.holder.c.page)))
    case Retire => s.(retired := s.retired[s.holder.sid := s.holder.c.page], holder := Free)
  }

  // ----- cleanup after disconnect -----

  predicate Working(s: Server, sid: Id, task: CleanTask) {
    && s.holder.Cleaning? && s.holder.k.Joining?
    && sid in s.holder.k.work && s.holder.k.work[sid] == task
  }

  predicate CleanEnabled(s: Server, e: CleanEvent) {
    match e
    case StartCleanup => s.holder.Free?
    case SetFlag => s.holder.Cleaning? && s.holder.k.Started?
    case DrainLive => s.holder.Cleaning? && s.holder.k.Flagged?
    case DrainRetired => s.holder.Cleaning? && s.holder.k.HalfDrained?
    case CloseOne(sid) => s.holder.Cleaning? && s.holder.k.Shutting? && sid in s.holder.k.open
    case SpawnAll => s.holder.Cleaning? && s.holder.k.Shutting? && s.holder.k.open == {}
    case CleanWait(sid, step) => Working(s, sid, Pending) && WaitStep(step)
    case CleanIssue(sid) => Working(s, sid, Pending) && TurnIdle(s, sid)
    case CleanDeleted(sid) => Working(s, sid, Deleting)
    case CleanRefused(sid) => Working(s, sid, Deleting)
    case FinishCleanup =>
      && s.holder.Cleaning? && s.holder.k.Joining?
      && forall sid :: sid in s.holder.k.work ==> s.holder.k.work[sid].Joined?
  }

  function EnterAll(turns: map<Id, PT.Turn>, claimed: set<Id>): map<Id, PT.Turn> {
    map sid | sid in turns ::
      if sid in claimed && PT.Enabled(turns[sid], PT.Enter(WAITER))
      then PT.Apply(turns[sid], PT.Enter(WAITER)) else turns[sid]
  }

  function CleanApply(s: Server, e: CleanEvent): Server
    requires CleanEnabled(s, e)
  {
    match e
    case StartCleanup => s.(holder := Cleaning(Started))
    case SetFlag => s.(shuttingDown := true, holder := Cleaning(Flagged))
    case DrainLive => s.(sessions := map[], holder := Cleaning(HalfDrained(s.sessions.Keys)))
    case DrainRetired =>
      var claimed := s.holder.k.claimed + s.retired.Keys;
      s.(retired := map[], holder := Cleaning(Shutting(claimed, claimed)))
    case CloseOne(sid) =>
      s.(turns := Fire(s.turns, sid, PT.Close),
         holder := Cleaning(Shutting(s.holder.k.claimed, s.holder.k.open - {sid})))
    case SpawnAll =>
      s.(turns := EnterAll(s.turns, s.holder.k.claimed),
         holder := Cleaning(Joining(map sid | sid in s.holder.k.claimed :: Pending)))
    case CleanWait(sid, step) => s.(turns := Fire(s.turns, sid, step))
    case CleanIssue(sid) =>
      s.(holder := Cleaning(Joining(s.holder.k.work[sid := Deleting])),
         log := s.log.(deleteIssued := s.log.deleteIssued + {sid}))
    case CleanDeleted(sid) =>
      s.(holder := Cleaning(Joining(s.holder.k.work[sid := Joined])),
         log := s.log.(deleted := s.log.deleted + multiset{sid}))
    case CleanRefused(sid) =>
      s.(holder := Cleaning(Joining(s.holder.k.work[sid := Joined])),
         log := s.log.(abandoned := s.log.abandoned + {sid}))
    case FinishCleanup => s.(holder := Free)
  }

  // ----- prompts -----

  /** The next runtime call of a stage that is about to make one. */
  function NextCall(stage: Stage): Option<CallKind> {
    match stage
    case HavePage => Some(Navigate)
    case Evidenced => Some(Checkpoint)
    case HaveTarget => Some(Intent)
    case Approved => Some(Retry)
    case _ => None
  }

  /** `PromptLease::wait` does not start an inline call once cancellation is visible. */
  predicate MayStart(s: Server, pid: Id, kind: CallKind) {
    Spawned(kind) || !SeesCancel(s, pid)
  }

  predicate Replied(s: Server, call: Id) {
    call in s.calls && s.calls[call].reply.Some?
  }

  /** Leaving a navigation that did not complete: only a page this prompt opened is closed. */
  function AfterFailedNavigation(p: Prompt): Prompt {
    p.(stage := if p.own then Abandon else Finished)
  }

  function AfterReply(p: Prompt, kind: CallKind, reply: Reply): Prompt {
    match kind
    case Evidence => p.(stage := if reply.Error? then Finished else Evidenced)
    case OpenPage =>
      if reply.NewPage? then p.(hand := Some(reply.page), own := true, stage := HavePage)
      else p.(stage := Finished)
    case Navigate => if reply.Completed? then p.(stage := Arrived) else AfterFailedNavigation(p)
    case Intent => p.(stage := if reply.Gated? then Asking else Finished)
    case _ => p.(stage := Finished)
  }

  function AfterDrain(p: Prompt, kind: CallKind, reply: Reply): Prompt {
    if kind == OpenPage && reply.NewPage?
    then p.(hand := Some(reply.page), own := true, stage := Abandon)
    else p.(stage := Finished)
  }

  function AfterInlineCancel(p: Prompt, kind: CallKind): Prompt {
    if kind == Navigate then AfterFailedNavigation(p) else p.(stage := Finished)
  }

  predicate BeginsTurn(s: Server, p: Prompt) {
    p.sid in s.turns && PT.BeginResult(s.turns[p.sid].core).Ok?
  }

  predicate ActionEnabled(s: Server, pid: Id, p: Prompt, a: PromptAction) {
    match a
    case Look(_) => false
    case BeginOk => p.stage.Looked? && BeginsTurn(s, p)
    case BeginRefused => p.stage.Looked? && !BeginsTurn(s, p)
    case Reject => p.stage.Begun?
    case AskRuntime(kind) =>
      p.stage.Begun? && (kind.Context? || kind.Evidence? || kind.Recover?) && MayStart(s, pid, kind)
    case ReusePage => p.stage.Begun? && p.snapshot.Some?
    case OpenNew => p.stage.Begun? && p.snapshot.None?
    case KeepPage => p.stage.Begun?
    case Issue => NextCall(p.stage).Some? && MayStart(s, pid, NextCall(p.stage).value)
    case SubmitClose => p.stage.Abandon? && p.hand.Some?
    case CancelBeforeCall =>
      SeesCancel(s, pid) && (p.stage.Begun? || p.stage.HavePage? || p.stage.Asking? || p.stage.Approved?)
    case CancelSpawned =>
      SeesCancel(s, pid) && p.stage.Waiting? && p.stage.call in s.calls && Spawned(s.calls[p.stage.call].kind)
    case CancelInline =>
      SeesCancel(s, pid) && p.stage.Waiting? && p.stage.call in s.calls && !Spawned(s.calls[p.stage.call].kind)
    case Observe => p.stage.Waiting? && Replied(s, p.stage.call)
    case Drained => p.stage.Draining? && Replied(s, p.stage.call)
    case CloseDone => p.stage.Closing?
    case Record => p.stage.Arrived? && p.hand.Some? && p.sid in s.sessions
    case RecordGone => p.stage.Arrived? && p.sid !in s.sessions
    case TargetFound => p.stage.FindTarget? && p.sid in s.sessions && s.sessions[p.sid].Some?
    case TargetGone => p.stage.FindTarget? && (p.sid in s.sessions ==> s.sessions[p.sid].None?)
    case Permission(_) => p.stage.Asking?
    case Release => p.stage.Finished?
    case Announce => p.stage.Announcing?
  }

  predicate PromptEnabled(s: Server, pid: Id, a: PromptAction) {
    if a.Look? then pid !in s.log.prompted && pid !in s.prompts && a.sid in s.sessions
    else pid in s.prompts && ActionEnabled(s, pid, s.prompts[pid], a)
  }

  /**
   What one prompt action does: the prompt afterwards (none when it has answered), the turn
   operation, the runtime call it issues or ends, the page whose close it submits, and the
   page it stores as its session's page.
   */
  datatype Effect = Effect(
    next: Option<Prompt>,
    turn: Option<PT.Event>,
    starts: Option<CallKind>,
    ends: Option<Id>,
    closes: Option<Id>,
    records: Option<Id>)

  function Go(p: Prompt): Effect {
    Effect(Some(p), None, None, None, None, None)
  }

  function Issuing(s: Server, p: Prompt, kind: CallKind): Effect {
    Go(p.(stage := Waiting(Id(s.nextCall)))).(starts := Some(kind))
  }

  function Ending(call: Id, p: Prompt): Effect {
    Go(p).(ends := Some(call))
  }

  const GONE := Effect(None, None, None, None, None, None)

  function ActionEffect(s: Server, pid: Id, p: Prompt, a: PromptAction): Effect
    requires ActionEnabled(s, pid, p, a)
  {
    match a
    case BeginOk =>
      Go(p.(stage := Begun, atBegin := if p.sid in s.sessions then s.sessions[p.sid] else None)).(
        turn := Some(PT.Begin(pid)))
    case BeginRefused => GONE
    case Reject => Go(p.(stage := Finished))
    case AskRuntime(kind) => Issuing(s, p, kind)
    case ReusePage => Go(p.(hand := p.snapshot, own := false, stage := HavePage))
    case OpenNew => Issuing(s, p, OpenPage)
    case KeepPage => Go(p.(stage := FindTarget))
    case Issue => Issuing(s, p, NextCall(p.stage).value)
    case SubmitClose =>
      Go(p.(stage := Closing(Id(s.nextCall)))).(starts := Some(ClosePage), closes := p.hand)
    case CancelBeforeCall =>
      Go(if p.stage.HavePage? then AfterFailedNavigation(p) else p.(stage := Finished))
    case CancelSpawned => Go(p.(stage := Draining(p.stage.call)))
    case CancelInline => Ending(p.stage.call, AfterInlineCancel(p, s.calls[p.stage.call].kind))
    case Observe =>
      Ending(p.stage.call, AfterReply(p, s.calls[p.stage.call].kind, s.calls[p.stage.call].reply.value))
    case Drained =>
      Ending(p.stage.call, AfterDrain(p, s.calls[p.stage.call].kind, s.calls[p.stage.call].reply.value))
    case CloseDone => Ending(p.stage.call, p.(stage := Finished))
    case Record => Go(p.(stage := FindTarget)).(records := p.hand)
    case RecordGone => Go(p.(stage := FindTarget))
    case TargetFound => Go(p.(hand := s.sessions[p.sid], own := false, stage := HaveTarget))
    case TargetGone => Go(p.(stage := Finished))
    case Permission(granted) => Go(p.(stage := if granted then Approved else Finished))
    case Release => Go(p.(stage := Announcing)).(turn := Some(PT.DropState(pid)))
    case Announce => GONE.(turn := Some(PT.DropNotify(pid)))
  }

  function EffectOf(s: Server, pid: Id, a: PromptAction): Effect
    requires PromptEnabled(s, pid, a)
  {
    if a.Look? then Go(Prompt(a.sid, s.sessions[a.sid], None, None, false, Looked))
    else ActionEffect(s, pid, s.prompts[pid], a)
  }

  function Just(page: Option<Id>): set<Id> {
    if page.Some? then {page.value} else {}
  }

  /** Storing `page` over a different page leaves that page unreachable. */
  function Displaced(before: Option<Id>, page: Option<Id>): set<Id> {
    if page.Some? && before.Some? && before != page then {before.value} else {}
  }

  function TurnsAfter(s: Server, sid: Id, f: Effect): map<Id, PT.Turn> {
    if f.turn.Some? then Fire(s.turns, sid, f.turn.value) else s.turns
  }

  function CallsAfter(s: Server, pid: Id, sid: Id, f: Effect): map<Id, Call> {
    if f.starts.Some? then s.calls[Id(s.nextCall) := Call(pid, sid, f.starts.value, None)]
    else if f.ends.Some? then s.calls - {f.ends.value}
    else s.calls
  }

  function PromptsAfter(s: Server, pid: Id, f: Effect): map<Id, Prompt> {
    if f.next.Some? then s.prompts[pid := f.next.value] else s.prompts - {pid}
  }

  function PageOf(s: Server, sid: Id): Option<Id> {
    if sid in s.sessions then s.sessions[sid] else None
  }

  function SessionsAfter(s: Server, sid: Id, f: Effect): map<Id, Option<Id>> {
    if f.records.Some? && sid in s.sessions then s.sessions[sid := f.records] else s.sessions
  }

  /** Carries out an effect of prompt `pid` of session `sid`. */
  function Perform(s: Server, pid: Id, sid: Id, f: Effect): Server {
    s.(turns := TurnsAfter(s, sid, f),
       calls := CallsAfter(s, pid, sid, f),
       nextCall := if f.starts.Some? then s.nextCall + 1 else s.nextCall,
       prompts := PromptsAfter(s, pid, f),
       sessions := SessionsAfter(s, sid, f),
       log := s.log.(
         prompted := s.log.prompted + {pid},
         closeSubmitted := s.log.closeSubmitted + Just(f.closes),
         recorded := s.log.recorded + Just(f.records),
         orphaned := s.log.orphaned + Displaced(PageOf(s, sid), f.records)))
  }

  function Actor(s: Server, pid: Id, a: PromptAction): Id
    requires PromptEnabled(s, pid, a)
  {
    if a.Look? then a.sid else s.prompts[pid].sid
  }

  function PromptApply(s: Server, pid: Id, a: PromptAction): Server
    requires PromptEnabled(s, pid, a)
  {
    Perform(s, pid, Actor(s, pid, a), EffectOf(s, pid, a))
  }

  // ----- the whole machine -----

  /** Only opening a page can answer with a page, and the runtime never reuses a page id. */
  predicate ReplyEnabled(s: Server, call: Id, reply: Reply) {
    && call in s.calls
    && s.calls[call].reply.None?
    && (reply.NewPage? ==> s.calls[call].kind == OpenPage && reply.page !in s.log.pages)
    && (s.calls[call].kind == OpenPage ==> reply.NewPage? || reply.Error?)
  }

  function ReplyApply(s: Server, call: Id, reply: Reply): Server
    requires ReplyEnabled(s, call, reply)
  {
    s.(calls := s.calls[call := s.calls[call].(reply := Some(reply))],
       log := s.log.(pages := PagesAfter(s.log.pages, s.calls[call], reply)))
  }

  function PagesAfter(pages: map<Id, Opening>, c: Call, reply: Reply): map<Id, Opening> {
    if reply.NewPage? then pages[reply.page := Opening(c.sid, c.pid)] else pages
  }

  predicate Enabled(s: Server, e: Event) {
    match e
    case OnNew(n) => NewEnabled(s, n)
    case OnClose(c) => CloseEnabled(s, c)
    case OnCleanup(k) => CleanEnabled(s, k)
    case OnPrompt(pid, a) => PromptEnabled(s, pid, a)
    case OnReply(call, reply) => ReplyEnabled(s, call, reply)
    case OnCancel(sid) => sid in s.sessions
  }

  function Apply(s: Server, e: Event): Server
    requires Enabled(s, e)
  {
    match e
    case OnNew(n) => NewApply(s, n)
    case OnClose(c) => CloseApply(s, c)
    case OnCleanup(k) => CleanApply(s, k)
    case OnPrompt(pid, a) => PromptApply(s, pid, a)
    case OnReply(call, reply) => ReplyApply(s, call, reply)
    case OnCancel(sid) => s.(turns := Fire(s.turns, sid, PT.Cancel))
  }

  ghost predicate Run(ss: seq<Server>, es: seq<Event>) {
    && |ss| == |es| + 1
    && ss[0] == INIT
    && forall i :: 0 <= i < |es| ==> Steps(ss, es, i)
  }

  /** Event `i` leads from state `i` to the next. */
  ghost predicate Steps(ss: seq<Server>, es: seq<Event>, i: int) {
    0 <= i < |es| && i + 1 < |ss| && Enabled(ss[i], es[i]) && ss[i + 1] == Apply(ss[i], es[i])
  }

  /** Event `k` of the run is `e`. */
  ghost predicate Happens(ss: seq<Server>, es: seq<Event>, k: int, e: Event) {
    Steps(ss, es, k) && es[k] == e
  }
}
