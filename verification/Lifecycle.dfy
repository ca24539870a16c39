/**
 The gateway's connection lifecycle: spawns, stops and drains interleave; the task set is
 behind a mutex, the stop flag and the live counter are not.
 */
module Lifecycle {
  import opened Prelude

  /** Who holds the task mutex, and how far a spawn has come. */
  datatype Holder = Free | SpawnLocked | SpawnCleared | SpawnEntered | Draining

  /** `finished` are tasks that ended but were not joined yet; `drained` records that a drain has returned. */
  datatype State = State(
    stop: bool,
    holder: Holder,
    running: set<Id>,
    finished: set<Id>,
    live: int,
    drained: bool)

  const INIT := State(false, Free, {}, {}, 0, false)

  datatype Event =
    | Stop
    | SpawnLock
    | SpawnClear
    | SpawnRefuse
    | SpawnEnter
    | SpawnTask(task: Id)
    | TaskEnd(task: Id)
    | Reap(task: Id)
    | DrainLock
    | DrainDone

  predicate Enabled(s: State, e: Event) {
    match e
    case Stop => true
    case SpawnLock => s.holder == Free
    case SpawnClear => s.holder == SpawnLocked && !s.stop
    case SpawnRefuse => s.holder == SpawnLocked && s.stop
    case SpawnEnter => s.holder == SpawnCleared
    case SpawnTask(t) => s.holder == SpawnEntered && t !in s.running && t !in s.finished
    case TaskEnd(t) => t in s.running
    case Reap(t) => (s.holder == SpawnLocked || s.holder == Draining) && t in s.finished
    case DrainLock => s.holder == Free && s.stop
    case DrainDone => s.holder == Draining && s.running == {} && s.finished == {}
  }

  function Apply(s: State, e: Event): State
    requires Enabled(s, e)
  {
    match e
    case Stop => s.(stop := true)
    case SpawnLock => s.(holder := SpawnLocked)
    case SpawnClear => s.(holder := SpawnCleared)
    case SpawnRefuse => s.(holder := Free)
    case SpawnEnter => s.(holder := SpawnEntered, live := s.live + 1)
    case SpawnTask(t) => s.(holder := Free, running := s.running + {t})
    case TaskEnd(t) => s.(running := s.running - {t}, finished := s.finished + {t}, live := s.live - 1)
    case Reap(t) => s.(finished := s.finished - {t})
    case DrainLock => s.(holder := Draining)
    case DrainDone => s.(holder := Free, drained := true)
  }

  ghost predicate Run(ss: seq<State>, es: seq<Event>) {
    && |ss| == |es| + 1
    && ss[0] == INIT
    && forall i :: 0 <= i < |es| ==> Enabled(ss[i], es[i]) && ss[i + 1] == Apply(ss[i], es[i])
  }

  /** The guards alive: one per running task, and one between entering and spawning. */
  function Guards(s: State): nat {
    |s.running| + if s.holder == SpawnEntered then 1 else 0
  }

  ghost predicate Inv(s: State) {
    && s.live == Guards(s)
    && (s.drained ==> s.stop && s.running == {} && s.holder != SpawnCleared && s.holder != SpawnEntered)
    && (s.holder == Draining ==> s.stop)
  }

  lemma InvKept(s: State, e: Event)
    requires Inv(s) && Enabled(s, e)
    ensures Inv(Apply(s, e))
  {
    match e
    case Stop =>
    case SpawnLock =>
    case SpawnClear =>
    case SpawnRefuse =>
    case SpawnEnter =>
    case SpawnTask(_) =>
    case TaskEnd(t) => assert s.running == (s.running - {t}) + {t};
    case Reap(_) =>
    case DrainLock =>
    case DrainDone =>
  }

  /** At every step of every run the counter equals the number of live guards. */
  lemma {:induction false} CounterIsExact(ss: seq<State>, es: seq<Event>, k: nat)
    requires Run(ss, es) && k < |ss|
    ensures Inv(ss[k]) && ss[k].live == Guards(ss[k])
  {
    if k > 0 {
      CounterIsExact(ss, es, k - 1);
      InvKept(ss[k - 1], es[k - 1]);
    }
  }

  lemma {:induction false} DrainedStays(ss: seq<State>, es: seq<Event>, i: nat, j: nat)
    requires Run(ss, es) && i <= j < |ss| && ss[i].drained
    ensures ss[j].drained
    decreases j
  {
    if i < j {
      DrainedStays(ss, es, i, j - 1);
    }
  }

  /** Once a drain has returned no task is running, the counter is 0, and no spawn ever starts one again. */
  lemma AfterDrain(ss: seq<State>, es: seq<Event>, i: nat, j: nat)
    requires Run(ss, es) && i < j < |ss| && es[i].DrainDone?
    ensures ss[j].running == {} && ss[j].live == 0
    ensures j < |es| ==> !es[j].SpawnTask? && !es[j].SpawnEnter? && !es[j].SpawnClear?
  {
    DrainedStays(ss, es, i + 1, j);
    CounterIsExact(ss, es, j);
  }

  lemma {:induction false} StoppedBefore(ss: seq<State>, es: seq<Event>, k: nat)
    requires Run(ss, es) && k < |ss| && ss[k].stop
    ensures exists m :: 0 <= m < k && es[m] == Stop
  {
    if k > 0 && es[k - 1] != Stop {
      StoppedBefore(ss, es, k - 1);
    }
  }

  /** A spawn is refused, and a drain begins, only after a stop; and without a stop a spawn goes through. */
  lemma RefusedOnlyAfterStop(ss: seq<State>, es: seq<Event>, k: nat)
    requires Run(ss, es) && k < |es|
    ensures es[k] == SpawnRefuse || es[k] == DrainLock ==> exists m :: 0 <= m < k && es[m] == Stop
    ensures ss[k].holder == SpawnLocked && (forall m :: 0 <= m < k ==> es[m] != Stop) ==> Enabled(ss[k], SpawnClear)
  {
    if ss[k].stop {
      StoppedBefore(ss, es, k);
    }
  }
}
