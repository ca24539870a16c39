/** The record list behind the persistent authority: marking, compaction and restoration. */
module AuthorityRecords {
  import opened Prelude

  datatype Record = Record(hash: Id, principal: Id, capabilities: seq<Id>, expires: int, revoked: bool)

  predicate Alive(r: Record, now: int) {
    !r.revoked && r.expires > now
  }

  /** The live records, in order. */
  function Compacted(rs: seq<Record>, now: int): seq<Record> {
    if rs == [] then [] else
      var last := rs[|rs| - 1];
      Compacted(rs[..|rs| - 1], now) + if Alive(last, now) then [last] else []
  }

  function MarkedOne(r: Record, principal: Id): Record {
    if r.principal == principal then r.(revoked := true) else r
  }

  function Marked(rs: seq<Record>, principal: Id): seq<Record> {
    seq(|rs|, i requires 0 <= i < |rs| => MarkedOne(rs[i], principal))
  }

  lemma {:induction false} InCompacted(rs: seq<Record>, now: int, r: Record)
    ensures r in Compacted(rs, now) <==> r in rs && Alive(r, now)
  {
    if rs != [] {
      InCompacted(rs[..|rs| - 1], now, r);
      assert rs == rs[..|rs| - 1] + [rs[|rs| - 1]];
    }
  }

  lemma InMarked(rs: seq<Record>, principal: Id, r: Record)
    ensures r.revoked || r.principal == principal || (r in Marked(rs, principal) <==> r in rs)
    ensures r in Marked(rs, principal) && !r.revoked ==> r.principal != principal
    ensures r in Marked(rs, principal) ==> exists q :: q in rs && MarkedOne(q, principal) == r
  {
    if r in rs && r.principal != principal {
      var i :| 0 <= i < |rs| && rs[i] == r;
      assert Marked(rs, principal)[i] == r;
    }
    if r in Marked(rs, principal) {
      var i :| 0 <= i < |rs| && Marked(rs, principal)[i] == r;
      assert rs[i] in rs;
    }
  }

  /** What a revoke leaves of a list: exactly the live records of other principals. */
  lemma AfterRevoke(rs: seq<Record>, principal: Id, now: int, r: Record)
    ensures r in Compacted(Marked(rs, principal), now) <==> r in rs && Alive(r, now) && r.principal != principal
  {
    InCompacted(Marked(rs, principal), now, r);
    InMarked(rs, principal, r);
  }

  /** What an issue leaves of a list: its live records and the new one. */
  lemma AfterIssue(rs: seq<Record>, added: Record, now: int, r: Record)
    ensures r in Compacted(rs + [added], now) <==> (r in rs || r == added) && Alive(r, now)
  {
    InCompacted(rs + [added], now, r);
  }

  lemma {:induction false} CompactedLength(rs: seq<Record>, now: int)
    ensures |Compacted(rs, now)| <= |rs|
    ensures (forall r :: r in rs ==> Alive(r, now)) ==> Compacted(rs, now) == rs
  {
    if rs != [] {
      CompactedLength(rs[..|rs| - 1], now);
      assert rs == rs[..|rs| - 1] + [rs[|rs| - 1]];
      assert rs[|rs| - 1] in rs;
    }
  }

  /** The list that the mutex of the persistent authority guards. */
  class RecordList {
    var records: seq<Record>

    constructor (loaded: seq<Record>)
      ensures records == loaded
    {
      records := loaded;
    }

    /** `compact`: keeps the live records, in order. */
    method Compact(now: int)
      modifies this
      ensures records == Compacted(old(records), now)
    {
      var kept, i := [], 0;
      while i < |records|
        invariant i <= |records| && records == old(records)
        invariant kept == Compacted(records[..i], now)
      {
        assert records[..i + 1][..i] == records[..i];
        if Alive(records[i], now) {
          kept := kept + [records[i]];
        }
        i := i + 1;
      }
      assert records[..i] == records;
      records := kept;
    }

    method Mark(principal: Id)
      modifies this
      ensures records == Marked(old(records), principal)
    {
      var i := 0;
      while i < |records|
        invariant i <= |records| == |old(records)|
        invariant forall k :: 0 <= k < i ==> records[k] == MarkedOne(old(records)[k], principal)
        invariant forall k :: i <= k < |records| ==> records[k] == old(records)[k]
      {
        if records[i].principal == principal {
          records := records[i := records[i].(revoked := true)];
        }
        i := i + 1;
      }
    }

    /** The locked part of `revoke`, up to the list that is serialized. */
    method Revoke(principal: Id, now: int)
      modifies this
      ensures records == Compacted(Marked(old(records), principal), now)
    {
      Mark(principal);
      Compact(now);
    }

    /** The locked part of `issue`, up to the list that is serialized. */
    method Issue(added: Record, now: int)
      modifies this
      ensures records == Compacted(old(records) + [added], now)
    {
      records := records + [added];
      Compact(now);
    }
  }

  // ----- the live store -----

  datatype EnrollError = Expired | Exhausted

  /** `enroll_hash` on the store's list: the new list, and whether the record got in. */
  function Enrolled(store: seq<Record>, capacity: nat, r: Record, now: int): (out: (seq<Record>, Option<EnrollError>)) {
    if r.expires <= now then (store, Some(Expired))
    else if |Compacted(store, now)| >= capacity then (Compacted(store, now), Some(Exhausted))
    else (Compacted(store, now) + [r], None)
  }

  /** The restored prefix of a record list: as many as fit beside what the store holds. */
  function Fitting(capacity: nat, held: nat, n: nat): nat {
    if held + n <= capacity then n else if held <= capacity then capacity - held else 0
  }

  /** Nothing that is held or restored expires while the loop runs. */
  ghost predicate Steady(store: seq<Record>, records: seq<Record>, clock: seq<int>) {
    forall i, r :: 0 <= i < |clock| && (r in store || r in records) ==> Alive(r, clock[i])
  }

  /**
   The restoring loop of `open`, with the clock read once per record. Nothing but the given
   records gets in and the store never outgrows its capacity; it fails only on a record that
   expired by its turn; and if nothing expires meanwhile the store gains exactly the longest
   fitting prefix, a full store being no error.
   */
  method Restore(store: seq<Record>, capacity: nat, records: seq<Record>, clock: seq<int>)
    returns (out: Result<seq<Record>, EnrollError>)
    requires |clock| == |records|
    ensures out.Err? ==> exists i :: 0 <= i < |records| && records[i].expires <= clock[i]
    ensures out.Ok? ==> |out.value| <= |store| || |out.value| <= capacity
    ensures out.Ok? ==> forall r :: r in out.value ==> r in store || r in records
    ensures Steady(store, records, clock) ==> out == Ok(store + records[..Fitting(capacity, |store|, |records|)])
  {
    var live := store;
    for i := 0 to |records|
      invariant |live| <= |store| || |live| <= capacity
      invariant forall r :: r in live ==> r in store || r in records
      invariant Steady(store, records, clock) ==> i <= Fitting(capacity, |store|, |records|) && live == store + records[..i]
    {
      CompactedLength(live, clock[i]);
      forall r | r in Compacted(live, clock[i])
        ensures r in live
      {
        InCompacted(live, clock[i], r);
      }
      var (next, error) := Enrolled(live, capacity, records[i], clock[i]);
      if error == Some(Exhausted) {
        return Ok(next);
      }
      if error == Some(Expired) {
        assert records[i] in records;
        return Err(Expired);
      }
      live := next;
    }
    assert records[..|records|] == records;
    out := Ok(live);
  }
}
