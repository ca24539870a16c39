/** The cache of one authenticated runtime per principal: bounded, least recently used out first. */
module RuntimeBinding {
  import opened Prelude

  datatype Handle = Handle(principal: Id, capabilities: set<Id>, token: Id, expires: int)

  /** A runtime remembers for whom it was built; `serial` tells two builds apart. */
  datatype Runtime = Runtime(principal: Id, capabilities: set<Id>, serial: Id)

  datatype Entry = Entry(handle: Handle, runtime: Runtime, lastUsed: int)

  type Entries = map<Id, Entry>

  /** One call: the handle, the wall clock, the revoked tokens, the monotonic clock and what a build would make. */
  datatype Call = Call(handle: Handle, now: int, revoked: set<Id>, instant: int, serial: Id)

  predicate IsValid(h: Handle, c: Call) {
    h.token !in c.revoked && h.expires > c.now
  }

  function Built(c: Call): Runtime {
    Runtime(c.handle.principal, c.handle.capabilities, c.serial)
  }

  predicate Hits(e: Entries, c: Call) {
    var p := c.handle.principal;
    p in e && e[p].handle.capabilities == c.handle.capabilities && IsValid(e[p].handle, c)
  }

  function LiveOnly(e: Entries, c: Call): Entries {
    map p | p in e && IsValid(e[p].handle, c) :: e[p]
  }

  predicate Oldest(e: Entries, v: Id) {
    v in e && forall p :: p in e ==> e[v].lastUsed <= e[p].lastUsed
  }

  function Stored(e: Entries, c: Call): Entries {
    e[c.handle.principal := Entry(c.handle, Built(c), c.instant)]
  }

  /** What a call may do to the entries and return. */
  ghost predicate Step(capacity: nat, e: Entries, c: Call, after: Entries, r: Runtime) {
    var p := c.handle.principal;
    var live := LiveOnly(e, c);
    if Hits(e, c) then
      after == e[p := e[p].(lastUsed := c.instant)] && r == e[p].runtime
    else
      && r == Built(c)
      && if |live.Keys| < capacity then after == Stored(live, c)
         else exists v :: Oldest(live, v) && after == Stored(live - {v}, c)
  }

  ghost predicate EntryOk(p: Id, e: Entry) {
    e.handle.principal == p && e.runtime.principal == p && e.runtime.capabilities == e.handle.capabilities
  }

  /** Bounded, and every entry serves the principal and the capabilities it was built for. */
  ghost predicate CacheOk(capacity: nat, e: Entries) {
    |e.Keys| <= capacity && forall p :: p in e ==> EntryOk(p, e[p])
  }

  class RuntimeBindingCache {
    const capacity: nat
    var entries: Entries

    ghost predicate Valid()
      reads this
    {
      capacity >= 1 && CacheOk(capacity, entries)
    }

    constructor (limit: nat)
      ensures Valid() && capacity == (if limit >= 1 then limit else 1) && entries == map[]
    {
      capacity := if limit >= 1 then limit else 1;
      entries := map[];
    }

    method OldestOf(e: Entries) returns (v: Id)
      requires e.Keys != {}
      ensures Oldest(e, v)
    {
      v :| v in e;
      var rest := e.Keys - {v};
      while rest != {}
        invariant v in e && rest <= e.Keys
        invariant forall p :: p in e && p !in rest ==> e[v].lastUsed <= e[p].lastUsed
        decreases |rest|
      {
        var q :| q in rest;
        if e[q].lastUsed < e[v].lastUsed {
          v := q;
        }
        rest := rest - {q};
      }
    }

    /** `bind`: the runtime returned was built for this principal with exactly these capabilities. */
    method Bind(c: Call) returns (r: Runtime)
      requires Valid()
      modifies this`entries
      ensures Valid() && Step(capacity, old(entries), c, entries, r)
      ensures r.principal == c.handle.principal && r.capabilities == c.handle.capabilities
      ensures c.handle.principal in entries && entries[c.handle.principal].runtime == r
    {
      var p := c.handle.principal;
      if Hits(entries, c) {
        entries := entries[p := entries[p].(lastUsed := c.instant)];
        r := entries[p].runtime;
      } else {
        entries := LiveOnly(entries, c);
        if |entries.Keys| >= capacity {
          var v := OldestOf(entries);
          entries := entries - {v};
        }
        entries := Stored(entries, c);
        r := Built(c);
      }
      StepSize(capacity, old(entries), c, entries, r);
      StepKept(capacity, old(entries), c, entries, r);
    }
  }

  lemma StoredSize(e: Entries, c: Call)
    ensures |Stored(e, c).Keys| <= |e.Keys| + 1
  {
    assert Stored(e, c).Keys == e.Keys + {c.handle.principal};
  }

  /** No call makes the cache outgrow its capacity. */
  lemma StepSize(capacity: nat, e: Entries, c: Call, after: Entries, r: Runtime)
    requires capacity >= 1 && |e.Keys| <= capacity && Step(capacity, e, c, after, r)
    ensures |after.Keys| <= capacity
  {
    var live := LiveOnly(e, c);
    SubsetSize(live.Keys, e.Keys);
    if Hits(e, c) {
      assert after.Keys == e.Keys;
    } else if |live.Keys| < capacity {
      StoredSize(live, c);
    } else {
      var v :| Oldest(live, v) && after == Stored(live - {v}, c);
      assert (live - {v}).Keys == live.Keys - {v};
      StoredSize(live - {v}, c);
    }
  }

  /** A call returns a runtime of its own principal and capabilities, and so do all later ones. */
  lemma StepKept(capacity: nat, e: Entries, c: Call, after: Entries, r: Runtime)
    requires Step(capacity, e, c, after, r) && forall p :: p in e ==> EntryOk(p, e[p])
    ensures forall p :: p in after ==> EntryOk(p, after[p])
    ensures r.principal == c.handle.principal && r.capabilities == c.handle.capabilities
  {
    if Hits(e, c) {
      assert EntryOk(c.handle.principal, e[c.handle.principal]);
    }
  }

  // ----- runs -----

  /** Calls at strictly later instants, starting from an empty cache. */
  ghost predicate Run(capacity: nat, es: seq<Entries>, cs: seq<Call>, rs: seq<Runtime>) {
    && capacity >= 1 && |es| == |cs| + 1 && |rs| == |cs| && es[0] == map[]
    && (forall i, j :: 0 <= i < j < |cs| ==> Earlier(cs, i, j))
    && forall i :: 0 <= i < |cs| ==> Steps(capacity, es, cs, rs, i)
  }

  predicate Earlier(cs: seq<Call>, i: int, j: int) {
    0 <= i < j < |cs| && cs[i].instant < cs[j].instant
  }

  ghost predicate Steps(capacity: nat, es: seq<Entries>, cs: seq<Call>, rs: seq<Runtime>, i: int) {
    0 <= i < |cs| && i + 1 < |es| && i < |rs| && Step(capacity, es[i], cs[i], es[i + 1], rs[i])
  }

  lemma StepAt(capacity: nat, es: seq<Entries>, cs: seq<Call>, rs: seq<Runtime>, i: nat)
    requires Run(capacity, es, cs, rs) && i < |cs|
    ensures Step(capacity, es[i], cs[i], es[i + 1], rs[i])
  {
    assert Steps(capacity, es, cs, rs, i);
  }

  /** In every run the cache is bounded and serves everyone their own. */
  lemma {:induction false} RunOk(capacity: nat, es: seq<Entries>, cs: seq<Call>, rs: seq<Runtime>, k: nat)
    requires Run(capacity, es, cs, rs) && k < |es|
    ensures CacheOk(capacity, es[k])
  {
    if k > 0 {
      RunOk(capacity, es, cs, rs, k - 1);
      StepAt(capacity, es, cs, rs, k - 1);
      StepSize(capacity, es[k - 1], cs[k - 1], es[k], rs[k - 1]);
      StepKept(capacity, es[k - 1], cs[k - 1], es[k], rs[k - 1]);
    }
  }

  lemma ServedRightly(capacity: nat, es: seq<Entries>, cs: seq<Call>, rs: seq<Runtime>, k: nat)
    requires Run(capacity, es, cs, rs) && k < |cs|
    ensures rs[k].principal == cs[k].handle.principal && rs[k].capabilities == cs[k].handle.capabilities
  {
    RunOk(capacity, es, cs, rs, k);
    StepAt(capacity, es, cs, rs, k);
    StepKept(capacity, es[k], cs[k], es[k + 1], rs[k]);
  }

  // ----- who a runtime was built for -----

  /** Call `i` built this runtime, for this handle. */
  predicate BuiltAt(cs: seq<Call>, i: int, h: Handle, r: Runtime) {
    0 <= i < |cs| && h == cs[i].handle && r == Runtime(h.principal, h.capabilities, cs[i].serial)
  }

  /** Every entry has the handle and the runtime of one call of its principal. */
  ghost predicate Traced(e: Entries, cs: seq<Call>, k: nat) {
    forall p :: p in e ==> exists i :: 0 <= i < k && BuiltAt(cs, i, e[p].handle, e[p].runtime) && cs[i].handle.principal == p
  }

  lemma TracedStep(capacity: nat, e: Entries, cs: seq<Call>, k: nat, after: Entries, r: Runtime)
    requires k < |cs| && Traced(e, cs, k) && Step(capacity, e, cs[k], after, r)
    ensures Traced(after, cs, k + 1)
  {
    var p := cs[k].handle.principal;
    StepCaches(capacity, e, cs[k], after, r);
    if !Hits(e, cs[k]) {
      assert BuiltAt(cs, k, after[p].handle, after[p].runtime);
    } else {
      var i :| 0 <= i < k && BuiltAt(cs, i, e[p].handle, e[p].runtime) && cs[i].handle.principal == p;
      assert BuiltAt(cs, i, after[p].handle, after[p].runtime);
    }
  }

  lemma {:induction false} RunTraced(capacity: nat, es: seq<Entries>, cs: seq<Call>, rs: seq<Runtime>, k: nat)
    requires Run(capacity, es, cs, rs) && k < |es|
    ensures Traced(es[k], cs, k)
  {
    if k > 0 {
      RunTraced(capacity, es, cs, rs, k - 1);
      StepAt(capacity, es, cs, rs, k - 1);
      TracedStep(capacity, es[k - 1], cs, k - 1, es[k], rs[k - 1]);
    }
  }

  /**
   No call gets a runtime of a dead handle: what a call with a valid handle gets was built by
   a call of the same principal and capabilities whose handle is neither revoked nor expired
   now.
   */
  lemma NeverADeadHandle(capacity: nat, es: seq<Entries>, cs: seq<Call>, rs: seq<Runtime>, k: nat)
    requires Run(capacity, es, cs, rs) && k < |cs|
    requires cs[k].handle.token !in cs[k].revoked && cs[k].handle.expires > cs[k].now
    ensures exists i :: 0 <= i <= k && BuiltAt(cs, i, cs[i].handle, rs[k])
                        && cs[i].handle.principal == cs[k].handle.principal
                        && cs[i].handle.capabilities == cs[k].handle.capabilities
                        && cs[i].handle.token !in cs[k].revoked && cs[i].handle.expires > cs[k].now
  {
    var p := cs[k].handle.principal;
    RunTraced(capacity, es, cs, rs, k);
    StepAt(capacity, es, cs, rs, k);
    if Hits(es[k], cs[k]) {
      var i :| 0 <= i < k && BuiltAt(cs, i, es[k][p].handle, es[k][p].runtime) && cs[i].handle.principal == p;
      assert BuiltAt(cs, i, cs[i].handle, rs[k]);
    } else {
      assert BuiltAt(cs, k, cs[k].handle, rs[k]);
    }
  }

  /**
   A call gets a new runtime exactly when its principal has no entry, or one with other
   capabilities, or one whose handle is revoked or expired; otherwise it gets the entry's.
   */
  lemma BuildsIff(capacity: nat, es: seq<Entries>, cs: seq<Call>, rs: seq<Runtime>, k: nat)
    requires Run(capacity, es, cs, rs) && k < |cs|
    ensures var p, c := cs[k].handle.principal, cs[k];
            if || p !in es[k] || es[k][p].handle.capabilities != c.handle.capabilities
               || es[k][p].handle.token in c.revoked || es[k][p].handle.expires <= c.now
            then rs[k] == Runtime(p, c.handle.capabilities, c.serial)
            else rs[k] == es[k][p].runtime
  {
    StepAt(capacity, es, cs, rs, k);
  }

  /** A call that gets a new runtime leaves no entry with a revoked or expired handle but possibly its own. */
  lemma BuildingSweepsTheDead(capacity: nat, es: seq<Entries>, cs: seq<Call>, rs: seq<Runtime>, k: nat, q: Id)
    requires Run(capacity, es, cs, rs) && k < |cs| && q in es[k + 1] && q != cs[k].handle.principal
    requires var p, c := cs[k].handle.principal, cs[k];
             || p !in es[k] || es[k][p].handle.capabilities != c.handle.capabilities
             || es[k][p].handle.token in c.revoked || es[k][p].handle.expires <= c.now
    ensures es[k + 1][q].handle.token !in cs[k].revoked && es[k + 1][q].handle.expires > cs[k].now
  {
    StepAt(capacity, es, cs, rs, k);
  }

  /** An entry that a call of someone else makes disappear was dead, or the oldest of a full cache. */
  lemma EvictedWhy(capacity: nat, e: Entries, c: Call, after: Entries, r: Runtime, p: Id)
    requires Step(capacity, e, c, after, r) && p in e && p != c.handle.principal
    ensures p in after ==> after[p] == e[p]
    ensures p !in after ==> !IsValid(e[p].handle, c) || (|LiveOnly(e, c).Keys| >= capacity && Oldest(LiveOnly(e, c), p))
  {
  }

  /** The principals that called after call `i` and before call `j`. */
  function Callers(cs: seq<Call>, i: nat, j: nat): set<Id>
    requires i < j <= |cs|
  {
    set k | i < k < j :: cs[k].handle.principal
  }

  /** Every entry was last used by some call of its own principal. */
  ghost predicate Stamped(e: Entries, cs: seq<Call>, j: nat)
    requires j <= |cs|
  {
    forall q :: q in e ==> exists m :: 0 <= m < j && cs[m].instant == e[q].lastUsed && cs[m].handle.principal == q
  }

  /** A call leaves its own principal's entry with the runtime it returned, just used. */
  lemma StepCaches(capacity: nat, e: Entries, c: Call, after: Entries, r: Runtime)
    requires Step(capacity, e, c, after, r)
    ensures var p := c.handle.principal;
            && p in after && after[p].runtime == r && after[p].lastUsed == c.instant
            && after[p].handle.capabilities == c.handle.capabilities
    ensures forall q :: q in after && q != c.handle.principal ==> q in e && after[q] == e[q]
  {
  }

  lemma {:induction false} RunStamped(capacity: nat, es: seq<Entries>, cs: seq<Call>, rs: seq<Runtime>, j: nat)
    requires Run(capacity, es, cs, rs) && j < |es|
    ensures Stamped(es[j], cs, j)
  {
    if j > 0 {
      RunStamped(capacity, es, cs, rs, j - 1);
      StepAt(capacity, es, cs, rs, j - 1);
      StampedStep(capacity, es[j - 1], cs, j - 1, es[j], rs[j - 1]);
    }
  }

  lemma StampedStep(capacity: nat, e: Entries, cs: seq<Call>, j: nat, after: Entries, r: Runtime)
    requires j < |cs| && Stamped(e, cs, j) && Step(capacity, e, cs[j], after, r)
    ensures Stamped(after, cs, j + 1)
  {
    StepCaches(capacity, e, cs[j], after, r);
  }

  /** The caller is not replacing a live entry of its own. */
  predicate NotSwapping(e: Entries, c: Call) {
    c.handle.principal in LiveOnly(e, c) ==> Hits(e, c)
  }

  /** Apart from the entry used by call `i`, which is the oldest, all live entries belong to later callers. */
  lemma OthersCalled(capacity: nat, es: seq<Entries>, cs: seq<Call>, rs: seq<Runtime>, i: nat, j: nat)
    requires Run(capacity, es, cs, rs) && i < j < |cs|
    requires var p := cs[i].handle.principal; p in es[j] && es[j][p].lastUsed == cs[i].instant
    requires Oldest(LiveOnly(es[j], cs[j]), cs[i].handle.principal)
    ensures LiveOnly(es[j], cs[j]).Keys - {cs[i].handle.principal} <= Callers(cs, i, j + 1)
  {
    var p, live := cs[i].handle.principal, LiveOnly(es[j], cs[j]);
    RunStamped(capacity, es, cs, rs, j);
    forall x | x in live && x != p
      ensures x in Callers(cs, i, j + 1)
    {
      var m :| 0 <= m < j && cs[m].instant == es[j][x].lastUsed && cs[m].handle.principal == x;
      assert m < i ==> Earlier(cs, m, i);
      assert m > i;
    }
  }

  /** If the entry used by call `i` is the oldest of a full cache, then many others have called since. */
  lemma OldestMeansCallers(capacity: nat, es: seq<Entries>, cs: seq<Call>, rs: seq<Runtime>, i: nat, j: nat)
    requires Run(capacity, es, cs, rs) && i < j < |cs|
    requires var p := cs[i].handle.principal; p in es[j] && es[j][p].lastUsed == cs[i].instant
    requires !Hits(es[j], cs[j]) && cs[j].handle.principal != cs[i].handle.principal
    requires Oldest(LiveOnly(es[j], cs[j]), cs[i].handle.principal)
    ensures |LiveOnly(es[j], cs[j]).Keys| <= |Callers(cs, i, j + 1)| + 1
    ensures NotSwapping(es[j], cs[j]) ==> |LiveOnly(es[j], cs[j]).Keys| <= |Callers(cs, i, j + 1)|
  {
    var p, q, live := cs[i].handle.principal, cs[j].handle.principal, LiveOnly(es[j], cs[j]);
    OthersCalled(capacity, es, cs, rs, i, j);
    assert q == cs[j].handle.principal && q in Callers(cs, i, j + 1);
    SubsetSize((live.Keys - {p}) + {q}, Callers(cs, i, j + 1));
    assert |live.Keys - {p}| == |live.Keys| - 1;
    assert q in live || |(live.Keys - {p}) + {q}| == |live.Keys|;
    assert q in live ==> (live.Keys - {p}) + {q} == live.Keys - {p};
  }

  /** After call `i` and before call `j` only others call, and the entry's handle stays valid. */
  ghost predicate Undisturbed(es: seq<Entries>, cs: seq<Call>, i: nat, j: nat)
    requires |es| == |cs| + 1 && i < j <= |cs|
  {
    var p := cs[i].handle.principal;
    && p in es[i + 1]
    && forall k :: i < k < j ==> cs[k].handle.principal != p && IsValid(es[i + 1][p].handle, cs[k])
  }

  ghost predicate NobodySwaps(es: seq<Entries>, cs: seq<Call>, i: nat, j: nat)
    requires |es| == |cs| + 1 && i < j <= |cs|
  {
    forall k :: i < k < j ==> NotSwapping(es[k], cs[k])
  }

  /** There is room for the others who call between `i` and `j`, and for one more if any of them swaps its own entry. */
  ghost predicate Room(capacity: nat, es: seq<Entries>, cs: seq<Call>, i: nat, j: nat)
    requires |es| == |cs| + 1 && i < j <= |cs|
  {
    || |Callers(cs, i, j)| + 1 < capacity
    || (|Callers(cs, i, j)| < capacity && NobodySwaps(es, cs, i, j))
  }

  /** An entry survives one call of someone else while there is room. */
  lemma StaysOneMore(capacity: nat, es: seq<Entries>, cs: seq<Call>, rs: seq<Runtime>, i: nat, j: nat, entry: Entry)
    requires Run(capacity, es, cs, rs) && i < j < |cs|
    requires var p := cs[i].handle.principal; p in es[j] && es[j][p] == entry && cs[j].handle.principal != p
    requires entry.lastUsed == cs[i].instant && IsValid(entry.handle, cs[j]) && Room(capacity, es, cs, i, j + 1)
    ensures var p := cs[i].handle.principal; p in es[j + 1] && es[j + 1][p] == entry
  {
    var p := cs[i].handle.principal;
    StepAt(capacity, es, cs, rs, j);
    EvictedWhy(capacity, es[j], cs[j], es[j + 1], rs[j], p);
    if p !in es[j + 1] {
      OldestMeansCallers(capacity, es, cs, rs, i, j);
      assert false;
    }
  }

  lemma RoomSooner(capacity: nat, es: seq<Entries>, cs: seq<Call>, i: nat, j: nat)
    requires |es| == |cs| + 1 && i < j < |cs| && Room(capacity, es, cs, i, j + 1)
    ensures Room(capacity, es, cs, i, j)
  {
    SubsetSize(Callers(cs, i, j), Callers(cs, i, j + 1));
  }

  lemma UndisturbedSooner(es: seq<Entries>, cs: seq<Call>, i: nat, j: nat)
    requires |es| == |cs| + 1 && i < j < |cs| && Undisturbed(es, cs, i, j + 1)
    ensures Undisturbed(es, cs, i, j)
    ensures var p := cs[i].handle.principal; cs[j].handle.principal != p && IsValid(es[i + 1][p].handle, cs[j])
  {
  }

  /**
   Least recently used, over whole runs: the runtime that call `i` got stays cached as long
   as its handle is valid and, counting the other principals that have called since, fewer
   than `capacity - 1` have; or fewer than `capacity`, if none of them swapped its own entry.
   */
  lemma {:induction false} StaysCached(capacity: nat, es: seq<Entries>, cs: seq<Call>, rs: seq<Runtime>, i: nat, j: nat)
    requires Run(capacity, es, cs, rs) && i < j <= |cs| && Undisturbed(es, cs, i, j) && Room(capacity, es, cs, i, j)
    ensures var p := cs[i].handle.principal; p in es[j] && es[j][p] == es[i + 1][p]
    decreases j
  {
    if j > i + 1 {
      UndisturbedSooner(es, cs, i, j - 1);
      RoomSooner(capacity, es, cs, i, j - 1);
      StaysCached(capacity, es, cs, rs, i, j - 1);
      StepAt(capacity, es, cs, rs, i);
      StepCaches(capacity, es[i], cs[i], es[i + 1], rs[i]);
      StaysOneMore(capacity, es, cs, rs, i, j - 1, es[i + 1][cs[i].handle.principal]);
    }
  }

  /** So a repeated call with the same capabilities gets the identical runtime. */
  lemma SameRuntime(capacity: nat, es: seq<Entries>, cs: seq<Call>, rs: seq<Runtime>, i: nat, j: nat)
    requires Run(capacity, es, cs, rs) && i < j < |cs| && Undisturbed(es, cs, i, j) && Room(capacity, es, cs, i, j)
    requires cs[j].handle.principal == cs[i].handle.principal && cs[j].handle.capabilities == cs[i].handle.capabilities
    requires IsValid(es[i + 1][cs[i].handle.principal].handle, cs[j])
    ensures rs[j] == rs[i]
  {
    StaysCached(capacity, es, cs, rs, i, j);
    StepAt(capacity, es, cs, rs, i);
    StepCaches(capacity, es[i], cs[i], es[i + 1], rs[i]);
    assert Hits(es[j], cs[j]);
    StepAt(capacity, es, cs, rs, j);
  }

  // ----- evictions that no room was needed for -----

  /** A live entry of someone else is lost, although all live entries and the caller's would fit. */
  ghost predicate LosesNeedlessly(capacity: nat, e: Entries, c: Call, after: Entries) {
    && |LiveOnly(e, c).Keys + {c.handle.principal}| <= capacity
    && exists p :: p in LiveOnly(e, c) && p != c.handle.principal && p !in after
  }

  /** The caller swaps a live entry of its own in a full cache, and that entry is not the oldest. */
  predicate SwapsWhileFull(capacity: nat, e: Entries, c: Call) {
    !NotSwapping(e, c) && |LiveOnly(e, c).Keys| >= capacity && !Oldest(LiveOnly(e, c), c.handle.principal)
  }

  predicate DistinctStamps(e: Entries) {
    forall p, q :: p in e && q in e && p != q ==> e[p].lastUsed != e[q].lastUsed
  }

  lemma StepNeedlessIff(capacity: nat, e: Entries, c: Call, after: Entries, r: Runtime)
    requires CacheOk(capacity, e) && DistinctStamps(e) && Step(capacity, e, c, after, r)
    ensures LosesNeedlessly(capacity, e, c, after) <==> SwapsWhileFull(capacity, e, c)
  {
    var p, live := c.handle.principal, LiveOnly(e, c);
    SubsetSize(live.Keys, e.Keys);
    if p in live {
      assert live.Keys + {p} == live.Keys;
    } else {
      assert |live.Keys + {p}| == |live.Keys| + 1;
    }
    if !Hits(e, c) && |live.Keys| >= capacity {
      var v :| Oldest(live, v) && after == Stored(live - {v}, c);
      assert Oldest(live, p) ==> p == v;
      assert v in live && (v != p ==> v !in after);
    }
  }

  /** Then the cache is left with one entry fewer than it may have. */
  lemma NeedlessEviction(capacity: nat, e: Entries, c: Call, after: Entries, r: Runtime, p: Id)
    requires CacheOk(capacity, e) && Step(capacity, e, c, after, r)
    requires !NotSwapping(e, c) && |LiveOnly(e, c).Keys| == capacity
    requires p in LiveOnly(e, c) && p != c.handle.principal
    requires forall q :: q in LiveOnly(e, c) && q != p ==> e[p].lastUsed < e[q].lastUsed
    ensures p !in after && |after.Keys| == capacity - 1
  {
    var live := LiveOnly(e, c);
    var v :| Oldest(live, v) && after == Stored(live - {v}, c);
    assert v == p;
    assert after.Keys == live.Keys - {p};
  }

  lemma RunDistinct(capacity: nat, es: seq<Entries>, cs: seq<Call>, rs: seq<Runtime>, k: nat)
    requires Run(capacity, es, cs, rs) && k < |es|
    ensures DistinctStamps(es[k])
  {
    RunStamped(capacity, es, cs, rs, k);
    forall p, q | p in es[k] && q in es[k] && p != q
      ensures es[k][p].lastUsed != es[k][q].lastUsed
    {
      var m :| 0 <= m < k && cs[m].instant == es[k][p].lastUsed && cs[m].handle.principal == p;
      var n :| 0 <= n < k && cs[n].instant == es[k][q].lastUsed && cs[n].handle.principal == q;
      assert m < n ==> Earlier(cs, m, n);
      assert n < m ==> Earlier(cs, n, m);
    }
  }

  /**
   In every run a call loses a live entry of someone else without need exactly when the
   caller swaps its own live entry, the cache is full, and its own is not the oldest.
   */
  lemma NeedlessIff(capacity: nat, es: seq<Entries>, cs: seq<Call>, rs: seq<Runtime>, k: nat)
    requires Run(capacity, es, cs, rs) && k < |cs|
    ensures LosesNeedlessly(capacity, es[k], cs[k], es[k + 1]) <==> SwapsWhileFull(capacity, es[k], cs[k])
  {
    RunOk(capacity, es, cs, rs, k);
    RunDistinct(capacity, es, cs, rs, k);
    StepAt(capacity, es, cs, rs, k);
    StepNeedlessIff(capacity, es[k], cs[k], es[k + 1], rs[k]);
  }

  function Only(c: Call): Entries {
    Stored(map[], c)
  }

  /** In a cache of two, a caller that comes back with other capabilities evicts the one other entry. */
  lemma NeedlessRun(h: Handle, g: Handle, caps: set<Id>, now: int, x: Id, y: Id, z: Id)
    returns (es: seq<Entries>, cs: seq<Call>, rs: seq<Runtime>)
    requires h.principal != g.principal && caps != g.capabilities && h.expires > now && g.expires > now
    ensures Run(2, es, cs, rs) && |cs| == 3
    ensures cs[0].handle == h && cs[1].handle == g && cs[2].handle == g.(capabilities := caps)
    ensures h.principal in es[2] && h.principal !in es[3] && LosesNeedlessly(2, es[2], cs[2], es[3])
  {
    var c0, c1 := Call(h, now, {}, 0, x), Call(g, now, {}, 1, y);
    var c2 := Call(g.(capabilities := caps), now, {}, 2, z);
    FirstCall(c0);
    SecondCall(c0, c1);
    ThirdCall(c0, c1, c2);
    es, cs, rs := ThreeCalls(2, Only(c0), Stored(Only(c0), c1), Only(c2), c0, c1, c2);
  }

  lemma ThreeCalls(capacity: nat, e1: Entries, e2: Entries, e3: Entries, c0: Call, c1: Call, c2: Call)
    returns (es: seq<Entries>, cs: seq<Call>, rs: seq<Runtime>)
    requires capacity >= 1 && c0.instant < c1.instant < c2.instant
    requires Step(capacity, map[], c0, e1, Built(c0)) && Step(capacity, e1, c1, e2, Built(c1))
    requires Step(capacity, e2, c2, e3, Built(c2))
    ensures Run(capacity, es, cs, rs) && es == [map[], e1, e2, e3] && cs == [c0, c1, c2]
  {
    es, cs, rs := [map[], e1, e2, e3], [c0, c1, c2], [Built(c0), Built(c1), Built(c2)];
    forall i, j | 0 <= i < j < |cs|
      ensures Earlier(cs, i, j)
    {
    }
  }

  lemma FirstCall(c: Call)
    ensures Step(2, map[], c, Only(c), Built(c))
  {
    assert LiveOnly(map[], c) == map[];
  }

  lemma SecondCall(c: Call, d: Call)
    requires c.handle.principal != d.handle.principal && IsValid(c.handle, d)
    ensures Step(2, Only(c), d, Stored(Only(c), d), Built(d))
  {
    assert LiveOnly(Only(c), d) == Only(c);
    assert Only(c).Keys == {c.handle.principal};
  }

  lemma ThirdCall(c: Call, d: Call, f: Call)
    requires c.handle.principal != d.handle.principal && f.handle.principal == d.handle.principal
    requires f.handle.capabilities != d.handle.capabilities && c.instant < d.instant
    requires IsValid(c.handle, f) && IsValid(d.handle, f)
    ensures Step(2, Stored(Only(c), d), f, Only(f), Built(f))
    ensures LosesNeedlessly(2, Stored(Only(c), d), f, Only(f))
  {
    var e, p := Stored(Only(c), d), c.handle.principal;
    assert LiveOnly(e, f) == e;
    assert e.Keys == {p, f.handle.principal};
    assert Oldest(e, p) && Stored(e - {p}, f) == Only(f);
    assert e.Keys + {f.handle.principal} == e.Keys;
    assert p in LiveOnly(e, f) && p !in Only(f);
  }
}
