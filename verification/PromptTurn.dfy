/**
 One ACP session's prompt turn: the mutex-protected `PromptTurnState`, the watch channel
 of the current lease, the `idle` notification, and every handler that touches them.

 Each mutex-protected section of the source is one step. `Core` is the shared memory of a
 turn; `Turn` adds the handlers around it: the leases handed out, the leases whose drop has
 left the mutex but not yet called `notify_waiters`, and the tasks inside `wait_idle`.
 */
module PromptTurn {
  import opened Prelude

  datatype BeginError = Active | Closed

  /** `cancel` names the channel whose sender is stored; `signalled` are the channels that carry `true`. */
  datatype Core = Core(
    active: bool,
    closed: bool,
    cancel: Option<int>,
    channels: int,
    signalled: set<int>,
    notifications: int)

  const NEW_CORE := Core(false, false, None, 0, {}, 0)

  function Send(c: Core): Core {
    if c.cancel.Some? then c.(signalled := c.signalled + {c.cancel.value}) else c
  }

  function BeginResult(c: Core): Result<int, BeginError> {
    if c.closed then Err(Closed) else if c.active then Err(Active) else Ok(c.channels)
  }

  function BeginCore(c: Core): Core {
    if c.closed || c.active then c
    else c.(active := true, cancel := Some(c.channels), channels := c.channels + 1)
  }

  function CancelCore(c: Core): Core {
    if c.closed then Send(c).(cancel := None) else Send(c)
  }

  function CloseCore(c: Core): Core {
    Send(c.(closed := true))
  }

  function DropCore(c: Core): Core {
    c.(active := false, cancel := None)
  }

  function NotifyCore(c: Core): Core {
    c.(notifications := c.notifications + 1)
  }

  /** The source's object: its methods are the mutex-protected sections, run in place. */
  class SharedTurn {
    var active: bool
    var closed: bool
    var cancel: Option<int>
    var channels: int
    var signalled: set<int>
    var notifications: int

    function View(): Core
      reads this
    {
      Core(active, closed, cancel, channels, signalled, notifications)
    }

    constructor ()
      ensures View() == NEW_CORE
    {
      active, closed, cancel := false, false, None;
      channels, signalled, notifications := 0, {}, 0;
    }

    method Begin() returns (r: Result<int, BeginError>)
      modifies this
      ensures View() == BeginCore(old(View()))
      ensures r == BeginResult(old(View()))
      ensures r == if old(closed) then Err(Closed) else if old(active) then Err(Active) else Ok(old(channels))
      ensures r.Ok? ==> active && !closed && cancel == Some(r.value) && r.value < channels
      ensures r.Err? ==> View() == old(View())
      ensures signalled == old(signalled) && notifications == old(notifications)
    {
      if closed {
        return Err(Closed);
      }
      if active {
        return Err(Active);
      }
      var channel := channels;
      channels := channels + 1;
      active := true;
      cancel := Some(channel);
      r := Ok(channel);
    }

    method Cancel()
      modifies this
      ensures View() == CancelCore(old(View()))
      ensures signalled == old(signalled) + if old(cancel).Some? then {old(cancel).value} else {}
      ensures cancel == (if closed then None else old(cancel)) && closed == old(closed) && active == old(active)
    {
      if cancel.Some? {
        signalled := signalled + {cancel.value};
      }
      if closed {
        cancel := None;
      }
    }

    method Close()
      modifies this
      ensures View() == CloseCore(old(View()))
      ensures signalled == old(signalled) + if old(cancel).Some? then {old(cancel).value} else {}
      ensures closed && cancel == old(cancel) && active == old(active)
    {
      closed := true;
      if cancel.Some? {
        signalled := signalled + {cancel.value};
      }
    }

    /** The locked part of `Drop for PromptLease`. */
    method DropLease()
      modifies this
      ensures View() == DropCore(old(View()))
      ensures !active && cancel.None? && closed == old(closed) && signalled == old(signalled)
    {
      active := false;
      cancel := None;
    }

    /** The part of `Drop for PromptLease` that runs after the lock is released. */
    method NotifyWaiters()
      modifies this
      ensures View() == NotifyCore(old(View()))
    {
      notifications := notifications + 1;
    }
  }

  /**
   A task inside `wait_idle`: at the loop head, holding a `notified` future created when
   `seen` notifications had happened, suspended on that future, or back from the call.
   */
  datatype Wait = AtHead | Armed(seen: int) | Parked(seen: int) | Returned

  datatype Turn = Turn(
    core: Core,
    leases: map<Id, int>,
    unannounced: set<Id>,
    waiters: map<Id, Wait>)

  datatype Event =
    | Begin(p: Id)
    | Cancel
    | Close
    | DropState(p: Id)
    | DropNotify(p: Id)
    | Enter(w: Id)
    | Arm(w: Id)
    | Check(w: Id)
    | Wake(w: Id)

  const INIT := Turn(NEW_CORE, map[], {}, map[])

  predicate Enabled(t: Turn, e: Event) {
    match e
    case Begin(p) => p !in t.leases && p !in t.unannounced
    case Cancel => true
    case Close => true
    case DropState(p) => p in t.leases
    case DropNotify(p) => p in t.unannounced
    case Enter(w) => w in t.waiters ==> t.waiters[w] == Returned
    case Arm(w) => w in t.waiters && t.waiters[w] == AtHead
    case Check(w) => w in t.waiters && t.waiters[w].Armed?
    case Wake(w) =>
      w in t.waiters && t.waiters[w].Parked? && t.waiters[w].seen < t.core.notifications
  }

  function Apply(t: Turn, e: Event): Turn
    requires Enabled(t, e)
  {
    match e
    case Begin(p) =>
      var r := BeginResult(t.core);
      t.(core := BeginCore(t.core), leases := if r.Ok? then t.leases[p := r.value] else t.leases)
    case Cancel => t.(core := CancelCore(t.core))
    case Close => t.(core := CloseCore(t.core))
    case DropState(p) =>
      t.(core := DropCore(t.core), leases := t.leases - {p}, unannounced := t.unannounced + {p})
    case DropNotify(p) =>
      t.(core := NotifyCore(t.core), unannounced := t.unannounced - {p})
    case Enter(w) => t.(waiters := t.waiters[w := AtHead])
    case Arm(w) => t.(waiters := t.waiters[w := Armed(t.core.notifications)])
    case Check(w) =>
      t.(waiters := t.waiters[w := if t.core.active then Parked(t.waiters[w].seen) else Returned])
    case Wake(w) => t.(waiters := t.waiters[w := AtHead])
  }

  /** A lease sees cancellation when its channel carries `true`. */
  predicate Cancelled(t: Turn, p: Id)
    requires p in t.leases
  {
    t.leases[p] in t.core.signalled
  }

  // ----- runs -----

  ghost predicate Run(ts: seq<Turn>, es: seq<Event>) {
    && |ts| == |es| + 1
    && ts[0] == INIT
    && forall i :: 0 <= i < |es| ==> Steps(ts, es, i)
  }

  /** Event `i` leads from state `i` to the next. */
  ghost predicate Steps(ts: seq<Turn>, es: seq<Event>, i: int) {
    0 <= i < |es| && i + 1 < |ts| && Enabled(ts[i], es[i]) && ts[i + 1] == Apply(ts[i], es[i])
  }
}
