/**
 The gateway's table of opaque identifiers: seven families, each binding an identifier to
 something internal of one runtime session and generation, and the events that announce a
 generation change.
 */
module IdentifierMap {
  import opened Prelude

  datatype Family = BrowserContext | Target | CdpSession | ExecutionContext | Frame | NetworkRequest | Download

  datatype Binding = Binding(internal: Id, session: Option<Id>, generation: nat)

  type Table = map<Id, Binding>

  /** One announcement: the identifier of this family is gone. */
  datatype CdpEvent = CdpEvent(family: Family, id: Id)

  // ----- one table -----

  /** No two identifiers stand for the same thing. */
  ghost predicate Unique(t: Table) {
    forall i, j :: i in t && j in t && t[i] == t[j] ==> i == j
  }

  predicate IsStale(b: Binding, session: Id, current: nat) {
    b.session == Some(session) && b.generation != current
  }

  function StaleIds(t: Table, session: Id, current: nat): set<Id> {
    set i | i in t && IsStale(t[i], session, current)
  }

  function Retained(t: Table, session: Id, current: nat): Table {
    map i | i in t && (t[i].session != Some(session) || t[i].generation == current) :: t[i]
  }

  /** Removal takes exactly the stale identifiers and leaves every other binding alone. */
  lemma RemovedAreStale(t: Table, session: Id, current: nat, i: Id)
    ensures i in t && i !in Retained(t, session, current) <==> i in StaleIds(t, session, current)
    ensures i in Retained(t, session, current) ==> i in t && Retained(t, session, current)[i] == t[i]
    ensures i in StaleIds(t, session, current) <==> i in t && t[i].session == Some(session) && t[i].generation != current
    ensures i in t && t[i].session != Some(session) ==> i in Retained(t, session, current)
    ensures StaleIds(Retained(t, session, current), session, current) == {}
    ensures Unique(t) ==> Unique(Retained(t, session, current))
  {
  }

  /** `bind`: finds the identifier of a binding or gives it the drawn one. */
  method Bind(t: Table, drawn: Id, b: Binding) returns (after: Table, id: Id)
    requires drawn !in t
    ensures id in after && after[id] == b
    ensures (exists i :: i in t && t[i] == b) ==> after == t
    ensures !(exists i :: i in t && t[i] == b) ==> after == t[drawn := b] && id == drawn
    ensures Unique(t) ==> Unique(after)
  {
    if i :| i in t && t[i] == b {
      return t, i;
    }
    after, id := t[drawn := b], drawn;
  }

  /** Binding twice gives the same identifier and changes nothing the second time. */
  method BindTwice(t: Table, drawn: Id, again: Id, b: Binding) returns (once: Table, twice: Table, id: Id, same: Id)
    requires drawn !in t && again !in t && again != drawn && Unique(t)
    ensures twice == once && same == id
  {
    once, id := Bind(t, drawn, b);
    twice, same := Bind(once, again, b);
  }

  /** Adopting an identifier keeps the table unique exactly when no other one has that binding. */
  lemma AdoptKeepsUniqueIff(t: Table, adopted: Id, b: Binding)
    requires Unique(t)
    ensures Unique(t[adopted := b]) <==> forall i :: i in t && t[i] == b ==> i == adopted
  {
    var after := t[adopted := b];
    if Unique(after) {
      forall i | i in t && t[i] == b
        ensures i == adopted
      {
        assert i in after && after[i] == b && after[adopted] == b;
      }
    }
  }

  /** A target that was already bound gets a second identifier when another one is adopted for it. */
  lemma AdoptedTwice(a: Id, z: Id, b: Binding)
    requires a != z
    ensures Unique(map[a := b]) && !Unique(map[a := b][z := b])
  {
    var after := map[a := b][z := b];
    assert a in after && z in after && after[a] == after[z];
  }

  // ----- sorted listings -----

  ghost predicate Ascending(s: seq<Id>) {
    forall i, j :: 0 <= i < j < |s| ==> s[i].n < s[j].n
  }

  lemma InsertedAt(s: seq<Id>, k: nat, x: Id)
    requires k <= |s| && Ascending(s)
    requires forall i :: 0 <= i < k ==> s[i].n < x.n
    requires k < |s| ==> x.n < s[k].n
    ensures Ascending(s[..k] + [x] + s[k..])
  {
    var r := s[..k] + [x] + s[k..];
    forall i, j | 0 <= i < j < |r|
      ensures r[i].n < r[j].n
    {
      assert r[i] == if i < k then s[i] else if i == k then x else s[i - 1];
      assert r[j] == if j < k then s[j] else if j == k then x else s[j - 1];
    }
  }

  method InsertSorted(s: seq<Id>, x: Id) returns (r: seq<Id>)
    requires Ascending(s) && x !in s
    ensures Ascending(r) && (set y | y in r) == (set y | y in s) + {x}
  {
    var k := 0;
    while k < |s| && s[k].n < x.n
      invariant 0 <= k <= |s| && forall i :: 0 <= i < k ==> s[i].n < x.n
    {
      k := k + 1;
    }
    assert k < |s| ==> s[k] in s && s[k] != x;
    InsertedAt(s, k, x);
    r := s[..k] + [x] + s[k..];
    assert s == s[..k] + s[k..];
  }

  /** The stale identifiers of one table, each once and in order. */
  method SortedStale(t: Table, session: Id, current: nat) returns (s: seq<Id>)
    ensures Ascending(s) && (set x | x in s) == StaleIds(t, session, current)
    ensures forall i :: i in s <==> i in t && t[i].session == Some(session) && t[i].generation != current
  {
    s := [];
    var rest := StaleIds(t, session, current);
    while rest != {}
      invariant Ascending(s) && rest <= StaleIds(t, session, current)
      invariant (set x | x in s) == StaleIds(t, session, current) - rest
      decreases |rest|
    {
      var x :| x in rest;
      assert x !in (set y | y in s);
      s := InsertSorted(s, x);
      rest := rest - {x};
    }
    assert (set x | x in s) == StaleIds(t, session, current);
    forall i
      ensures i in s <==> i in t && t[i].session == Some(session) && t[i].generation != current
    {
      assert i in s <==> i in (set x | x in s);
      assert i in StaleIds(t, session, current) <==> i in t && IsStale(t[i], session, current);
    }
  }

  // ----- announcements -----

  /** The place of a family in the announcements: a target goes after its frames and sessions. */
  function Order(f: Family): nat {
    match f
    case NetworkRequest => 0
    case Download => 1
    case ExecutionContext => 2
    case Frame => 3
    case CdpSession => 4
    case Target => 5
    case BrowserContext => 6
  }

  predicate Before(a: CdpEvent, b: CdpEvent) {
    Order(a.family) < Order(b.family) || (a.family == b.family && a.id.n < b.id.n)
  }

  /** By family in order, each family's identifiers in order; so no event comes twice. */
  ghost predicate InOrder(es: seq<CdpEvent>) {
    forall i, j :: 0 <= i < j < |es| ==> Before(es[i], es[j])
  }

  ghost predicate NoRepeats(es: seq<CdpEvent>) {
    forall i, j :: 0 <= i < j < |es| ==> es[i] != es[j]
  }

  lemma InOrderNoRepeats(es: seq<CdpEvent>)
    requires InOrder(es)
    ensures NoRepeats(es)
  {
    forall i, j | 0 <= i < j < |es|
      ensures es[i] != es[j]
    {
      assert Before(es[i], es[j]);
    }
  }

  /** A target is announced only after all frames, execution contexts and sessions. */
  ghost predicate TargetsLast(es: seq<CdpEvent>) {
    forall i, j :: 0 <= i < j < |es| && (es[i].family.Target? || es[i].family.BrowserContext?) ==>
      es[j].family.Target? || es[j].family.BrowserContext?
  }

  lemma InOrderTargetsLast(es: seq<CdpEvent>)
    requires InOrder(es)
    ensures TargetsLast(es)
  {
    forall i, j | 0 <= i < j < |es| && (es[i].family.Target? || es[i].family.BrowserContext?)
      ensures es[j].family.Target? || es[j].family.BrowserContext?
    {
      assert Before(es[i], es[j]);
    }
  }

  lemma {:induction false} NoRepeatsSize(es: seq<CdpEvent>)
    requires NoRepeats(es)
    ensures |set e | e in es| == |es|
  {
    if es != [] {
      var last, rest := es[|es| - 1], es[..|es| - 1];
      NoRepeatsSize(rest);
      assert (set e | e in es) == (set e | e in rest) + {last};
    }
  }

  /** Adds one family's events after all earlier families'. */
  method Append(es: seq<CdpEvent>, f: Family, ids: seq<Id>) returns (r: seq<CdpEvent>)
    requires InOrder(es) && Ascending(ids)
    requires forall e :: e in es ==> Order(e.family) < Order(f)
    ensures InOrder(r)
    ensures forall e :: e in r ==> Order(e.family) <= Order(f)
    ensures forall g, i :: CdpEvent(g, i) in r <==> CdpEvent(g, i) in es || (g == f && i in ids)
  {
    r := es;
    for k := 0 to |ids|
      invariant |r| == |es| + k && r[..|es|] == es
      invariant forall j :: 0 <= j < k ==> r[|es| + j] == CdpEvent(f, ids[j])
    {
      r := r + [CdpEvent(f, ids[k])];
    }
    AppendOrder(es, f, ids, r);
    forall e | e in r
      ensures Order(e.family) <= Order(f)
    {
      assert CdpEvent(e.family, e.id) in r;
    }
  }

  lemma AppendOrder(es: seq<CdpEvent>, f: Family, ids: seq<Id>, r: seq<CdpEvent>)
    requires InOrder(es) && Ascending(ids) && (forall e :: e in es ==> Order(e.family) < Order(f))
    requires |r| == |es| + |ids| && r[..|es|] == es
    requires forall j :: 0 <= j < |ids| ==> r[|es| + j] == CdpEvent(f, ids[j])
    ensures InOrder(r)
    ensures forall g, i :: CdpEvent(g, i) in r <==> CdpEvent(g, i) in es || (g == f && i in ids)
  {
    forall i, j | 0 <= i < j < |r|
      ensures Before(r[i], r[j])
    {
      assert i < |es| ==> r[i] == es[i];
      assert j < |es| ==> r[j] == es[j];
      assert i >= |es| ==> r[i] == CdpEvent(f, ids[i - |es|]);
      assert j >= |es| ==> r[j] == CdpEvent(f, ids[j - |es|]);
    }
    forall g, i
      ensures CdpEvent(g, i) in r <==> CdpEvent(g, i) in es || (g == f && i in ids)
    {
      var e := CdpEvent(g, i);
      if e in r {
        var k :| 0 <= k < |r| && r[k] == e;
        assert k < |es| ==> r[..|es|][k] == e;
        assert k >= |es| ==> r[|es| + (k - |es|)] == CdpEvent(f, ids[k - |es|]);
      }
      if e in es {
        var k :| 0 <= k < |es| && es[k] == e;
        assert r[..|es|][k] == r[k];
      }
      if g == f && i in ids {
        var k :| 0 <= k < |ids| && ids[k] == i;
        assert r[|es| + k] == e;
      }
    }
  }

  lemma FirstListed(es: seq<CdpEvent>)
    ensures es == [] || es[0] in es
  {
  }

  class IdentifierMap {
    var browserContexts: Table
    var targets: Table
    var cdpSessions: Table
    var executionContexts: Table
    var frames: Table
    var networkRequests: Table
    var downloads: Table

    constructor ()
      ensures forall f :: TableOf(f) == map[]
    {
      browserContexts, targets, cdpSessions, executionContexts := map[], map[], map[], map[];
      frames, networkRequests, downloads := map[], map[], map[];
    }

    function TableOf(f: Family): Table
      reads this
    {
      match f
      case BrowserContext => browserContexts
      case Target => targets
      case CdpSession => cdpSessions
      case ExecutionContext => executionContexts
      case Frame => frames
      case NetworkRequest => networkRequests
      case Download => downloads
    }

    /** In every family one identifier per binding. */
    ghost predicate AllUnique()
      reads this
    {
      forall f :: Unique(TableOf(f))
    }

    method SetTable(f: Family, t: Table)
      modifies this
      ensures TableOf(f) == t
      ensures forall g :: g != f ==> TableOf(g) == old(TableOf(g))
    {
      match f {
        case BrowserContext => browserContexts := t;
        case Target => targets := t;
        case CdpSession => cdpSessions := t;
        case ExecutionContext => executionContexts := t;
        case Frame => frames := t;
        case NetworkRequest => networkRequests := t;
        case Download => downloads := t;
      }
    }

    /** `bind_family`: the identifier resolves back to what was bound, and uniqueness is kept. */
    method BindFamily(f: Family, session: Id, internal: Id, generation: nat, drawn: Id) returns (id: Id)
      requires drawn !in TableOf(f)
      modifies this
      ensures id in TableOf(f) && TableOf(f)[id] == Binding(internal, Some(session), generation)
      ensures TableOf(f) == old(TableOf(f)) || TableOf(f) == old(TableOf(f))[drawn := Binding(internal, Some(session), generation)]
      ensures (exists i :: i in old(TableOf(f)) && old(TableOf(f))[i] == Binding(internal, Some(session), generation)) ==>
                TableOf(f) == old(TableOf(f))
      ensures forall g :: g != f ==> TableOf(g) == old(TableOf(g))
      ensures old(AllUnique()) ==> AllUnique()
    {
      var t;
      t, id := Bind(TableOf(f), drawn, Binding(internal, Some(session), generation));
      SetTable(f, t);
    }

    /** `resolve_family`. */
    function ResolveFamily(f: Family, id: Id): Option<Id>
      reads this
    {
      if id in TableOf(f) then Some(TableOf(f)[id].internal) else None
    }

    /** What was bound resolves back, in its own family and for as long as nothing removes it. */
    method BindAndResolve(f: Family, session: Id, internal: Id, generation: nat, drawn: Id, other: Family, before: Id)
      returns (id: Id, found: Option<Id>)
      requires drawn !in TableOf(f)
      modifies this
      ensures found == Some(internal) && found == ResolveFamily(f, id)
      ensures old(ResolveFamily(other, before)).Some? ==> ResolveFamily(other, before) == old(ResolveFamily(other, before))
    {
      id := BindFamily(f, session, internal, generation, drawn);
      found := ResolveFamily(f, id);
    }

    method AdoptTarget(adopted: Id, session: Id, page: Id, generation: nat)
      modifies this
      ensures targets == old(targets)[adopted := Binding(page, Some(session), generation)]
      ensures forall g :: g != Target ==> TableOf(g) == old(TableOf(g))
    {
      targets := targets[adopted := Binding(page, Some(session), generation)];
    }

    /** Announces exactly the stale identifiers of every family, each once, in family order. */
    method GenerationEvents(session: Id, current: nat) returns (es: seq<CdpEvent>)
      ensures InOrder(es) && NoRepeats(es) && TargetsLast(es)
      ensures forall f, i :: CdpEvent(f, i) in es <==> i in StaleIds(TableOf(f), session, current)
      ensures forall f, i :: CdpEvent(f, i) in es <==>
                i in TableOf(f) && TableOf(f)[i].session == Some(session) && TableOf(f)[i].generation != current
    {
      es := [];
      var ids := SortedStale(networkRequests, session, current);
      es := Append(es, NetworkRequest, ids);
      ids := SortedStale(downloads, session, current);
      es := Append(es, Download, ids);
      ids := SortedStale(executionContexts, session, current);
      es := Append(es, ExecutionContext, ids);
      ids := SortedStale(frames, session, current);
      es := Append(es, Frame, ids);
      ids := SortedStale(cdpSessions, session, current);
      es := Append(es, CdpSession, ids);
      ids := SortedStale(targets, session, current);
      es := Append(es, Target, ids);
      ids := SortedStale(browserContexts, session, current);
      es := Append(es, BrowserContext, ids);
      InOrderNoRepeats(es);
      InOrderTargetsLast(es);
    }

    method RemoveFrom(f: Family, session: Id, current: nat)
      modifies this
      ensures TableOf(f) == Retained(old(TableOf(f)), session, current)
      ensures forall g :: g != f ==> TableOf(g) == old(TableOf(g))
    {
      SetTable(f, Retained(TableOf(f), session, current));
    }

    method RemoveGeneration(session: Id, current: nat)
      modifies this
      ensures forall f :: TableOf(f) == Retained(old(TableOf(f)), session, current)
      ensures forall f, i :: i in old(TableOf(f)) ==>
                (i !in TableOf(f) <==> old(TableOf(f))[i].session == Some(session) && old(TableOf(f))[i].generation != current)
      ensures forall f, i :: i in TableOf(f) && TableOf(f)[i].session == Some(session) ==>
                TableOf(f)[i].generation == current
    {
      RemoveFrom(CdpSession, session, current);
      RemoveFrom(Target, session, current);
      RemoveFrom(BrowserContext, session, current);
      RemoveFrom(ExecutionContext, session, current);
      RemoveFrom(Frame, session, current);
      RemoveFrom(NetworkRequest, session, current);
      RemoveFrom(Download, session, current);
      forall f
        ensures TableOf(f) == Retained(old(TableOf(f)), session, current)
      {
        match f
        case BrowserContext =>
        case Target =>
        case CdpSession =>
        case ExecutionContext =>
        case Frame =>
        case NetworkRequest =>
        case Download =>
      }
    }

    /**
     A generation change as the server makes it. Per family the announced identifiers are
     exactly the removed ones, each once; other bindings are untouched; and announcing the
     same change again says nothing.
     */
    method ChangeGeneration(session: Id, current: nat) returns (es: seq<CdpEvent>, again: seq<CdpEvent>)
      modifies this
      ensures InOrder(es) && NoRepeats(es) && TargetsLast(es)
      ensures forall f, i :: i in old(TableOf(f)) ==>
                (CdpEvent(f, i) in es <==> old(TableOf(f))[i].session == Some(session) && old(TableOf(f))[i].generation != current)
      ensures forall f, i :: i in TableOf(f) && TableOf(f)[i].session == Some(session) ==>
                TableOf(f)[i].generation == current
      ensures forall f, i :: CdpEvent(f, i) in es <==> i in old(TableOf(f)) && i !in TableOf(f)
      ensures forall f, i :: i in TableOf(f) ==> i in old(TableOf(f)) && TableOf(f)[i] == old(TableOf(f))[i]
      ensures forall f, i :: i in old(TableOf(f)) && old(TableOf(f))[i].session != Some(session) ==> i in TableOf(f)
      ensures old(AllUnique()) ==> AllUnique()
      ensures again == []
    {
      es := GenerationEvents(session, current);
      RemoveGeneration(session, current);
      again := GenerationEvents(session, current);
      forall f, i
        ensures i !in StaleIds(TableOf(f), session, current)
      {
        RemovedAreStale(old(TableOf(f)), session, current, i);
      }
      forall e
        ensures e !in again
      {
        assert e == CdpEvent(e.family, e.id);
      }
      FirstListed(again);
    }
  }

  // ----- the gateway's side -----

  const MAX_QUEUED_EVENTS := 1024

  datatype CdpError = MethodNotFound | InvalidParams | RuntimeFailure

  /** The announcements that a change to generation `current` owes. */
  ghost function Owed(m: IdentifierMap, session: Id, current: nat): set<CdpEvent>
    reads m
  {
    set f: Family, i | i in StaleIds(m.TableOf(f), session, current) :: CdpEvent(f, i)
  }

  lemma AllOwed(m: IdentifierMap, session: Id, current: nat, es: seq<CdpEvent>)
    requires NoRepeats(es)
    requires forall f, i :: CdpEvent(f, i) in es <==> i in StaleIds(m.TableOf(f), session, current)
    ensures Owed(m, session, current) == (set e | e in es) && |Owed(m, session, current)| == |es|
  {
    forall e
      ensures e in es <==> e in Owed(m, session, current)
    {
      assert e == CdpEvent(e.family, e.id);
    }
    assert Owed(m, session, current) == set e | e in es;
    NoRepeatsSize(es);
  }

  /** Every announcement owed passes the registry and the capabilities. */
  ghost predicate NoneRefused(owed: set<CdpEvent>, refusal: Family -> Option<CdpError>) {
    forall e :: e in owed ==> refusal(e.family).None?
  }

  /** `error` refuses an announcement owed, and none of an earlier family is refused. */
  ghost predicate FirstRefused(owed: set<CdpEvent>, refusal: Family -> Option<CdpError>, error: CdpError) {
    exists e :: e in owed && refusal(e.family) == Some(error)
                && forall d :: d in owed && Order(d.family) < Order(e.family) ==> refusal(d.family).None?
  }

  lemma FamiliesInOrder(es: seq<CdpEvent>)
    requires InOrder(es)
    ensures forall i, j :: 0 <= i <= j < |es| ==> Order(es[i].family) <= Order(es[j].family)
  {
    forall i, j | 0 <= i < j < |es|
      ensures Order(es[i].family) <= Order(es[j].family)
    {
      assert Before(es[i], es[j]);
    }
  }

  /** The first refusal among the announcements, in their order. */
  method FirstRefusal(es: seq<CdpEvent>, refusal: Family -> Option<CdpError>) returns (r: Option<CdpError>)
    requires InOrder(es)
    ensures r.None? <==> NoneRefused((set e | e in es), refusal)
    ensures r.Some? ==> FirstRefused((set e | e in es), refusal, r.value)
  {
    FamiliesInOrder(es);
    for k := 0 to |es|
      invariant forall i :: 0 <= i < k ==> refusal(es[i].family).None?
    {
      if refusal(es[k].family).Some? {
        assert es[k] in es;
        return refusal(es[k].family);
      }
    }
    r := None;
  }

  class Gateway {
    const identifiers: IdentifierMap
    var events: seq<CdpEvent>
    var generations: map<Id, nat>

    constructor (map0: IdentifierMap)
      ensures identifiers == map0 && events == [] && generations == map[]
    {
      identifiers, events, generations := map0, [], map[];
    }

    /**
     `replace_generation`, given how the handle's check and the registry's and capabilities'
     checks of each kind of event turn out. It succeeds exactly when the handle is valid, no
     announcement owed is refused and all fit in the queue. Then it queues exactly the
     announcements owed, each once, and owes nothing more; when it fails nothing changes.
     */
    method ReplaceGeneration(session: Id, current: nat, handle: Option<CdpError>, refusal: Family -> Option<CdpError>)
      returns (r: Result<(), CdpError>)
      modifies this, identifiers
      ensures r.Ok? <==> && handle.None?
                         && NoneRefused(old(Owed(identifiers, session, current)), refusal)
                         && |old(events)| + |old(Owed(identifiers, session, current))| <= MAX_QUEUED_EVENTS
      ensures handle.Some? ==> r == Err(handle.value)
      ensures handle.None? && r.Err? && NoneRefused(old(Owed(identifiers, session, current)), refusal) ==>
                r.error == RuntimeFailure
      ensures handle.None? && !NoneRefused(old(Owed(identifiers, session, current)), refusal) ==>
                r.Err? && FirstRefused(old(Owed(identifiers, session, current)), refusal, r.error)
      ensures r.Err? ==> events == old(events) && generations == old(generations)
      ensures r.Err? ==> forall f :: identifiers.TableOf(f) == old(identifiers.TableOf(f))
      ensures r.Ok? ==> |events| >= |old(events)| && events[..|old(events)|] == old(events)
      ensures r.Ok? ==> NoRepeats(events[|old(events)|..]) && InOrder(events[|old(events)|..])
      ensures r.Ok? ==> forall f, i :: CdpEvent(f, i) in events[|old(events)|..]
                                  <==> i in old(identifiers.TableOf(f)) && i !in identifiers.TableOf(f)
      ensures r.Ok? ==> forall f :: identifiers.TableOf(f) == Retained(old(identifiers.TableOf(f)), session, current)
      ensures r.Ok? ==> forall f, i :: i in old(identifiers.TableOf(f)) ==>
                (i !in identifiers.TableOf(f) <==>
                   old(identifiers.TableOf(f))[i].session == Some(session) && old(identifiers.TableOf(f))[i].generation != current)
      ensures r.Ok? ==> forall f, i :: i in identifiers.TableOf(f) && identifiers.TableOf(f)[i].session == Some(session) ==>
                identifiers.TableOf(f)[i].generation == current
      ensures r.Ok? ==> Owed(identifiers, session, current) == {} && generations == old(generations)[session := current]
    {
      if handle.Some? {
        return Err(handle.value);
      }
      var teardown := identifiers.GenerationEvents(session, current);
      AllOwed(identifiers, session, current, teardown);
      var refused := FirstRefusal(teardown, refusal);
      if refused.Some? {
        return Err(refused.value);
      }
      if |events| + |teardown| > MAX_QUEUED_EVENTS {
        return Err(RuntimeFailure);
      }
      events := events + teardown;
      identifiers.RemoveGeneration(session, current);
      generations := generations[session := current];
      r := Ok(());
    }
  }
}
