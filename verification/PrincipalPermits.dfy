/**
 Per-principal admission: a global permit, then the principal's semaphore found or created
 in a shared map that evicts idle semaphores, then a permit of that semaphore. Finding the
 semaphore and taking its permit are two steps, with anything in between.
 */
module PrincipalPermits {
  import opened Prelude

  datatype Config = Config(maxConnections: nat, maxPrincipals: nat, maxInFlight: nat) {
    /** What configuration validation demands. */
    predicate Valid() {
      maxConnections > 0 && maxPrincipals > 0 && maxInFlight > 0
    }
  }

  /** A request holds a global permit from arrival to departure. */
  datatype Pc = Arrived | Missed | Found(semaphore: Id) | Holding(semaphore: Id)

  datatype Request = Request(principal: Id, pc: Pc)

  /** `made` are all semaphores ever created. */
  datatype State = State(requests: map<Id, Request>, permits: map<Id, Id>, made: set<Id>)

  const INIT := State(map[], map[], {})

  function Holders(s: State, semaphore: Id): set<Id> {
    set r | r in s.requests && s.requests[r].pc == Holding(semaphore)
  }

  /** The requests of `principal` that were let through. */
  function InFlight(s: State, principal: Id): set<Id> {
    set r | r in s.requests && s.requests[r].principal == principal && s.requests[r].pc.Holding?
  }

  datatype Event =
    | Arrive(request: Id, principal: Id)
    | ReadHit(request: Id)
    | ReadMiss(request: Id)
    | Create(request: Id, semaphore: Id)
    | Acquire(request: Id)
    | Leave(request: Id)

  predicate IsAt(s: State, r: Id, pc: Pc) {
    r in s.requests && s.requests[r].pc == pc
  }

  predicate Enabled(c: Config, s: State, e: Event) {
    match e
    case Arrive(r, _) => r !in s.requests && |s.requests.Keys| < c.maxConnections
    case ReadHit(r) => IsAt(s, r, Arrived) && s.requests[r].principal in s.permits
    case ReadMiss(r) => IsAt(s, r, Arrived) && s.requests[r].principal !in s.permits
    case Create(r, m) => IsAt(s, r, Missed) && m !in s.made
    case Acquire(r) =>
      r in s.requests && s.requests[r].pc.Found? && |Holders(s, s.requests[r].pc.semaphore)| < c.maxInFlight
    case Leave(r) => r in s.requests
  }

  /** The map as the write lock leaves it: idle semaphores evicted when full, the principal's present. */
  function Admitted(c: Config, permits: map<Id, Id>, busy: set<Id>, principal: Id, m: Id): map<Id, Id> {
    var kept := if |permits.Keys| >= c.maxPrincipals then map p | p in permits && permits[p] in busy :: permits[p] else permits;
    if principal in kept then kept else kept[principal := m]
  }

  /** The shared map, as `acquire_principal_permit` changes it under the write lock. */
  class PermitTable {
    const config: Config
    var permits: map<Id, Id>

    constructor (config: Config)
      ensures this.config == config && permits == map[]
    {
      this.config := config;
      permits := map[];
    }

    method GetOrCreate(principal: Id, busy: set<Id>, m: Id) returns (semaphore: Id)
      modifies this`permits
      ensures permits == Admitted(config, old(permits), busy, principal, m)
      ensures principal in permits && semaphore == permits[principal]
    {
      if |permits.Keys| >= config.maxPrincipals {
        permits := map p | p in permits && permits[p] in busy :: permits[p];
      }
      if principal !in permits {
        permits := permits[principal := m];
      }
      semaphore := permits[principal];
    }
  }

  function Busy(s: State): set<Id> {
    set r | r in s.requests && s.requests[r].pc.Holding? :: s.requests[r].pc.semaphore
  }

  function Goto(s: State, r: Id, pc: Pc): map<Id, Request>
    requires r in s.requests
  {
    s.requests[r := s.requests[r].(pc := pc)]
  }

  function Apply(c: Config, s: State, e: Event): State
    requires Enabled(c, s, e)
  {
    match e
    case Arrive(r, p) => s.(requests := s.requests[r := Request(p, Arrived)])
    case ReadHit(r) => s.(requests := Goto(s, r, Found(s.permits[s.requests[r].principal])))
    case ReadMiss(r) => s.(requests := Goto(s, r, Missed))
    case Create(r, m) =>
      var p := s.requests[r].principal;
      var permits := Admitted(c, s.permits, Busy(s), p, m);
      State(Goto(s, r, Found(permits[p])), permits, s.made + {m})
    case Acquire(r) => s.(requests := Goto(s, r, Holding(s.requests[r].pc.semaphore)))
    case Leave(r) => s.(requests := s.requests - {r})
  }

  ghost predicate Steps(c: Config, principals: set<Id>, s: State, e: Event, t: State) {
    Enabled(c, s, e) && t == Apply(c, s, e) && (e.Arrive? ==> e.principal in principals)
  }

  /** Runs in which every request comes from one of `principals`. */
  ghost predicate Run(c: Config, principals: set<Id>, ss: seq<State>, es: seq<Event>) {
    && |ss| == |es| + 1
    && ss[0] == INIT
    && forall i :: 0 <= i < |es| ==> Steps(c, principals, ss[i], es[i], ss[i + 1])
  }
}
