/**
 Issue, revoke, crash and reload of the persistent authority, as one state machine. The
 file system keeps a set of directory states that a crash may leave; a file that was never
 synced comes back torn.
 */
module AuthorityPersist {
  import opened Prelude
  import opened AuthorityRecords

  // ----- the disk -----

  datatype Content = Torn | Whole(records: seq<Record>)

  datatype File = File(content: Content, synced: bool)

  datatype Dir = Dir(path: Option<Id>, tmp: Option<Id>)

  /** `live` is what the process sees; `views` are the states a crash may leave. */
  datatype Disk = Disk(files: map<Id, File>, live: Dir, views: set<Dir>)

  /** The record list that `open` reads: a missing file is the empty list, a torn one is set aside. */
  function Loaded(files: map<Id, File>, d: Dir): seq<Record> {
    if d.path.Some? && d.path.value in files && files[d.path.value].content.Whole?
    then files[d.path.value].content.records
    else []
  }

  function AfterCrash(files: map<Id, File>): map<Id, File> {
    map f | f in files :: if files[f].synced then files[f] else File(Torn, false)
  }

  predicate IsTorn(files: map<Id, File>, d: Dir) {
    d.path.Some? && !(d.path.value in files && files[d.path.value].content.Whole?)
  }

  // ----- the server -----

  datatype Pc = Compacting | Created | Written | Synced | Renamed

  /** Who holds the record mutex: `json` is the list being persisted. */
  datatype Lock = Unlocked | Persisting(pc: Pc, json: seq<Record>)

  /**
   `pending` are records enrolled by an `issue` that has not taken the mutex; `revoking` are
   principals whose `revoke` has not. The last five fields only record history: every hash
   drawn, every hash pushed to the list, the records whose survival is promised, the hashes
   whose absence from disk is, and the hashes the live store rejects for good.
   */
  datatype State = State(
    now: int,
    startup: Record,
    capacity: nat,
    store: seq<Record>,
    pending: set<Record>,
    revoking: set<Id>,
    mem: seq<Record>,
    lock: Lock,
    disk: Disk,
    used: set<Id>,
    pushed: set<Id>,
    kept: set<Record>,
    gone: set<Id>,
    dead: set<Id>)

  datatype Event =
    | Tick(now: int)
    | Enroll(record: Record)
    | EnrollRefused
    | RevokeInner(principal: Id)
    | IssueLock(record: Record)
    | RevokeLock(principal: Id)
    | Create(file: Id)
    | Write
    | Sync
    | Rename
    | DirSync
    | Fail
    | Crash(view: Dir)

  function Hashes(rs: seq<Record>): set<Id> {
    set r | r in rs :: r.hash
  }

  predicate At(s: State, pc: Pc) {
    s.lock.Persisting? && s.lock.pc == pc
  }

  predicate Enabled(s: State, e: Event) {
    match e
    case Tick(now) => s.now <= now
    case Enroll(r) => r.hash !in s.used && !r.revoked && Enrolled(s.store, s.capacity, r, s.now).1.None?
    case EnrollRefused => true
    case RevokeInner(_) => true
    case IssueLock(r) => s.lock.Unlocked? && r in s.pending
    case RevokeLock(p) => s.lock.Unlocked? && p in s.revoking
    case Create(f) =>
      At(s, Compacting) && if s.disk.live.tmp.Some? then f == s.disk.live.tmp.value else f !in s.disk.files
    case Write => At(s, Created) && s.disk.live.tmp.Some?
    case Sync => At(s, Written) && s.disk.live.tmp.Some? && s.disk.live.tmp.value in s.disk.files
    case Rename => At(s, Synced) && s.disk.live.tmp.Some?
    case DirSync => At(s, Renamed)
    case Fail => s.lock.Persisting?
    case Crash(v) => v in s.disk.views
  }

  /** Changes of the live store only. */
  function StoreStep(s: State, e: Event): State
    requires Enabled(s, e)
  {
    match e
    case Tick(now) => s.(now := now)
    case Enroll(r) => s.(store := Enrolled(s.store, s.capacity, r, s.now).0,
                         pending := s.pending + {r},
                         used := s.used + {r.hash})
    case EnrollRefused => s.(store := Compacted(s.store, s.now))
    case RevokeInner(p) => s.(store := Marked(s.store, p),
                              revoking := s.revoking + {p},
                              dead := s.dead + (set r | r in s.store && r.principal == p :: r.hash))
    case _ => s
  }

  /** Taking the mutex: the list is changed, compacted and serialized without a gap. */
  function LockStep(s: State, e: Event): State
    requires Enabled(s, e)
  {
    match e
    case IssueLock(r) =>
      s.(mem := Compacted(s.mem + [r], s.now),
         lock := Persisting(Compacting, Compacted(s.mem + [r], s.now)),
         pending := s.pending - {r},
         pushed := s.pushed + {r.hash})
    case RevokeLock(p) =>
      s.(mem := Compacted(Marked(s.mem, p), s.now),
         lock := Persisting(Compacting, Compacted(Marked(s.mem, p), s.now)),
         revoking := s.revoking - {p},
         kept := (set r | r in s.kept && r.principal != p))
    case _ => s
  }

  /** One step of `persist`. */
  function DiskStep(s: State, e: Event): State
    requires Enabled(s, e)
  {
    match e
    case Create(f) =>
      var dir := s.disk.live.(tmp := Some(f));
      s.(lock := s.lock.(pc := Created),
         disk := Disk(s.disk.files[f := File(Torn, false)], dir, s.disk.views + {dir}))
    case Write =>
      s.(lock := s.lock.(pc := Written),
         disk := s.disk.(files := s.disk.files[s.disk.live.tmp.value := File(Whole(s.lock.json), false)]))
    case Sync =>
      var f := s.disk.live.tmp.value;
      s.(lock := s.lock.(pc := Synced),
         disk := s.disk.(files := s.disk.files[f := File(s.disk.files[f].content, true)]))
    case Rename =>
      var dir := Dir(s.disk.live.tmp, None);
      s.(lock := s.lock.(pc := Renamed), disk := s.disk.(live := dir, views := s.disk.views + {dir}))
    case DirSync =>
      s.(lock := Unlocked,
         disk := s.disk.(views := {s.disk.live}),
         kept := (set r | r in s.mem),
         gone := s.gone + (s.pushed - Hashes(s.mem)))
    case Fail => s.(lock := Unlocked)
    case _ => s
  }

  /** A crash in directory state `v`, then `open` with the startup credential enrolled. */
  function Reopened(s: State, v: Dir): State {
    var files := AfterCrash(s.disk.files);
    var dir := if IsTorn(files, v) then v.(path := None) else v;
    var mem := Compacted(Loaded(files, v), s.now);
    s.(store := [s.startup] + mem[..Fitting(s.capacity, 1, |mem|)],
       pending := {},
       revoking := {},
       mem := mem,
       lock := Unlocked,
       disk := Disk(files, dir, {dir}),
       kept := (set r | r in Loaded(files, v)),
       dead := s.gone)
  }

  function Apply(s: State, e: Event): State
    requires Enabled(s, e)
  {
    match e
    case Tick(_) => StoreStep(s, e)
    case Enroll(_) => StoreStep(s, e)
    case EnrollRefused => StoreStep(s, e)
    case RevokeInner(_) => StoreStep(s, e)
    case IssueLock(_) => LockStep(s, e)
    case RevokeLock(_) => LockStep(s, e)
    case Crash(v) => Reopened(s, v)
    case _ => DiskStep(s, e)
  }

  /** A first boot: no file yet and only the startup credential enrolled. */
  predicate Init(s: State) {
    && s.store == [s.startup] && s.pending == {} && s.revoking == {} && s.mem == []
    && s.lock == Unlocked && s.disk == Disk(map[], Dir(None, None), {Dir(None, None)})
    && s.used == {s.startup.hash} && s.pushed == {} && s.kept == {} && s.gone == {} && s.dead == {}
  }

  ghost predicate Run(ss: seq<State>, es: seq<Event>) {
    && |ss| == |es| + 1
    && Init(ss[0])
    && forall i :: 0 <= i < |es| ==> Steps(ss, es, i)
  }

  /** Event `i` leads from state `i` to the next. */
  ghost predicate Steps(ss: seq<State>, es: seq<Event>, i: int) {
    0 <= i < |es| && i + 1 < |ss| && Enabled(ss[i], es[i]) && ss[i + 1] == Apply(ss[i], es[i])
  }

  // ----- what every step keeps -----

  /** The file behind a directory state's path is whole, synced and not the one being written. */
  ghost predicate PathOk(s: State, v: Dir) {
    v.path.Some? ==>
      && v.path.value in s.disk.files
      && s.disk.files[v.path.value].synced
      && s.disk.files[v.path.value].content.Whole?
      && v.path != s.disk.live.tmp
      && v.path != v.tmp
  }

  ghost predicate TmpOk(s: State) {
    var tmp := s.disk.live.tmp;
    && (tmp.Some? ==> tmp.value in s.disk.files)
    && (s.lock.Persisting? ==>
          && (s.lock.pc in {Created, Written, Synced} ==> tmp.Some?)
          && (s.lock.pc in {Written, Synced} ==> s.disk.files[tmp.value].content == Whole(s.lock.json))
          && (s.lock.pc == Synced ==> s.disk.files[tmp.value].synced)
          && (s.lock.pc == Renamed ==> s.disk.live.path.Some? && Loaded(s.disk.files, s.disk.live) == s.lock.json))
  }

  ghost predicate DiskOk(s: State) {
    && s.disk.live in s.disk.views
    && (forall v :: v in s.disk.views ==> PathOk(s, v))
    && (forall v :: v in s.disk.views && v.tmp.Some? ==> v.tmp.value in s.disk.files)
    && TmpOk(s)
    && (s.lock.Persisting? ==> s.lock.json == s.mem)
  }

  lemma DiskKept(s: State, e: Event)
    requires DiskOk(s) && Enabled(s, e)
    ensures DiskOk(Apply(s, e))
  {
    match e
    case Tick(_) =>
    case Enroll(_) =>
    case EnrollRefused =>
    case RevokeInner(_) =>
    case IssueLock(_) =>
    case RevokeLock(_) =>
    case Create(_) =>
    case Write =>
    case Sync =>
    case Rename =>
    case DirSync =>
    case Fail =>
    case Crash(_) =>
  }

  /** What `v` would load if a crash left it. */
  function On(s: State, v: Dir): seq<Record> {
    Loaded(s.disk.files, v)
  }

  /** Every list a crash may leave after a step was there before, or is the one just renamed into place. */
  lemma ViewOrigin(s: State, e: Event, after: Dir)
    requires DiskOk(s) && Enabled(s, e) && after in Apply(s, e).disk.views
    ensures (e.Rename? && On(Apply(s, e), after) == s.mem)
         || exists v :: v in s.disk.views && On(Apply(s, e), after) == On(s, v)
  {
    var t := Apply(s, e);
    match e
    case Tick(_) =>
      assert On(t, after) == On(s, after);
    case Enroll(_) =>
      assert On(t, after) == On(s, after);
    case EnrollRefused =>
      assert On(t, after) == On(s, after);
    case RevokeInner(_) =>
      assert On(t, after) == On(s, after);
    case IssueLock(_) =>
      assert On(t, after) == On(s, after);
    case RevokeLock(_) =>
      assert On(t, after) == On(s, after);
    case Create(f) =>
      var v := if after in s.disk.views then after else s.disk.live;
      assert PathOk(s, v) && On(t, after) == On(s, v);
    case Write =>
      assert PathOk(s, after) && On(t, after) == On(s, after);
    case Sync =>
      assert PathOk(s, after) && On(t, after) == On(s, after);
    case Rename =>
      assert after in s.disk.views ==> On(t, after) == On(s, after);
    case DirSync =>
      assert On(t, after) == On(s, after);
    case Fail =>
      assert On(t, after) == On(s, after);
    case Crash(v) =>
      assert PathOk(s, v) && On(t, after) == On(s, v);
  }

  /** Record `r` is on some list: the one in memory or one a crash may leave. */
  ghost predicate Listed(s: State, r: Record) {
    r in s.mem || exists v :: v in s.disk.views && r in On(s, v)
  }

  /** A step lists nothing new except the record an issue pushes, and a revoke drops its principal's from memory. */
  lemma ListedOrigin(s: State, e: Event, r: Record)
    requires DiskOk(s) && Enabled(s, e) && Listed(Apply(s, e), r)
    ensures Listed(s, r) || (e == IssueLock(r) && !r.revoked)
  {
    var t := Apply(s, e);
    if v :| v in t.disk.views && r in On(t, v) {
      ViewOrigin(s, e, v);
    } else {
      match e
      case IssueLock(added) => AfterIssue(s.mem, added, s.now, r);
      case RevokeLock(p) => AfterRevoke(s.mem, p, s.now, r);
      case Crash(v) => InCompacted(On(t, v), s.now, r);
      case _ =>
    }
  }

  // ----- hashes -----

  ghost predicate RecordOk(s: State, r: Record) {
    && (Listed(s, r) ==> !r.revoked && r.hash in s.pushed)
    && (r in s.pending ==> !r.revoked && r.hash in s.used && r.hash !in s.pushed)
  }

  ghost predicate HashesOk(s: State) {
    && DiskOk(s)
    && s.pushed <= s.used && s.startup.hash in s.used && s.startup.hash !in s.pushed
    && (forall r :: RecordOk(s, r))
    && (forall r, q :: r in s.pending && q in s.pending && r.hash == q.hash ==> r == q)
    && (forall r :: r in s.pending ==> r.hash != s.startup.hash)
  }

  lemma RecordKept(s: State, e: Event, r: Record)
    requires HashesOk(s) && Enabled(s, e)
    ensures RecordOk(Apply(s, e), r)
  {
    var t := Apply(s, e);
    assert RecordOk(s, r);
    if Listed(t, r) {
      ListedOrigin(s, e, r);
    }
    match e
    case Enroll(_) =>
    case IssueLock(q) =>
      assert RecordOk(s, q);
    case _ =>
  }

  lemma HashesKept(s: State, e: Event)
    requires HashesOk(s) && Enabled(s, e)
    ensures HashesOk(Apply(s, e))
  {
    DiskKept(s, e);
    forall r
      ensures RecordOk(Apply(s, e), r)
    {
      RecordKept(s, e, r);
    }
    match e
    case Enroll(q) =>
      forall r | r in s.pending
        ensures r.hash != q.hash
      {
        assert RecordOk(s, r);
      }
    case IssueLock(q) =>
      assert RecordOk(s, q);
    case _ =>
  }

  /** A hash names one record. */
  ghost predicate SameHash(s: State, r: Record, q: Record) {
    Listed(s, r) && Listed(s, q) && r.hash == q.hash ==> r == q
  }

  lemma SameHashKept(s: State, e: Event, r: Record, q: Record)
    requires HashesOk(s) && Enabled(s, e) && SameHash(s, r, q)
    ensures SameHash(Apply(s, e), r, q)
  {
    if Listed(Apply(s, e), r) && Listed(Apply(s, e), q) {
      ListedOrigin(s, e, r);
      ListedOrigin(s, e, q);
      assert RecordOk(s, r) && RecordOk(s, q);
    }
  }

  // ----- promises -----

  ghost predicate GoneOk(s: State, h: Id) {
    h in s.gone ==> h in s.pushed && forall r :: Listed(s, r) ==> r.hash != h
  }

  lemma GoneKept(s: State, e: Event, h: Id)
    requires HashesOk(s) && Enabled(s, e) && GoneOk(s, h)
    ensures GoneOk(Apply(s, e), h)
    ensures h in s.gone ==> h in Apply(s, e).gone
  {
    var t := Apply(s, e);
    if h in t.gone {
      forall r | Listed(t, r)
        ensures r.hash != h
      {
        ListedOrigin(s, e, r);
        assert RecordOk(s, r);
        if h !in s.gone {
          assert e.DirSync? && r in s.mem;
        }
      }
    }
  }

  ghost predicate KeptOk(s: State, r: Record) {
    r in s.kept && r.expires > s.now ==>
      r in s.mem && forall v :: v in s.disk.views ==> r in On(s, v)
  }

  lemma KeptKept(s: State, e: Event, r: Record)
    requires HashesOk(s) && Enabled(s, e) && KeptOk(s, r)
    ensures KeptOk(Apply(s, e), r)
    ensures r in s.kept && r.expires > Apply(s, e).now && e != RevokeLock(r.principal) ==> r in Apply(s, e).kept
  {
    var t := Apply(s, e);
    assert RecordOk(s, r);
    match e
    case IssueLock(q) => AfterIssue(s.mem, q, s.now, r);
    case RevokeLock(p) => AfterRevoke(s.mem, p, s.now, r);
    case Crash(v) =>
      assert PathOk(s, v) && On(t, v) == On(s, v);
      InCompacted(On(t, v), s.now, r);
    case _ =>
    if r in t.kept && r.expires > t.now {
      forall v | v in t.disk.views
        ensures r in On(t, v)
      {
        ViewOrigin(s, e, v);
      }
    }
  }

  /** The live store holds drawn hashes only, each for one principal. */
  ghost predicate StoreOk(s: State) {
    && (forall r :: r in s.store ==> r.hash in s.used)
    && (forall r, q :: r in s.store && q in s.store && r.hash == q.hash ==> r.principal == q.principal)
  }

  /** Where a record of the live store comes from. */
  ghost predicate FromStore(s: State, e: Event, r: Record)
    requires Enabled(s, e)
  {
    || (exists q :: q in s.store && q.hash == r.hash && q.principal == r.principal
                    && (q.revoked ==> r.revoked) && (e == RevokeInner(q.principal) ==> r.revoked))
    || e == Enroll(r)
    || (e.Crash? && (r == s.startup || r in Apply(s, e).mem))
  }

  lemma StoreOrigin(s: State, e: Event, r: Record)
    requires Enabled(s, e) && r in Apply(s, e).store
    ensures FromStore(s, e, r)
  {
    match e
    case Enroll(q) => InCompacted(s.store, s.now, r);
    case EnrollRefused => InCompacted(s.store, s.now, r);
    case RevokeInner(p) => InMarked(s.store, p, r);
    case _ =>
  }

  lemma StoreHashKept(s: State, e: Event, r: Record)
    requires HashesOk(s) && StoreOk(s) && Enabled(s, e) && r in Apply(s, e).store
    ensures r.hash in Apply(s, e).used && FromStore(s, e, r)
    ensures e.Crash? && r in Apply(s, e).mem ==> r.hash in s.pushed
  {
    StoreOrigin(s, e, r);
    if e.Crash? && r in Apply(s, e).mem {
      ListedOrigin(s, e, r);
      assert RecordOk(s, r);
    }
  }

  lemma StorePairKept(s: State, e: Event, r: Record, q: Record)
    requires HashesOk(s) && SameHash(s, r, q) && StoreOk(s) && Enabled(s, e)
    requires r in Apply(s, e).store && q in Apply(s, e).store && r.hash == q.hash
    ensures r.principal == q.principal
  {
    StoreHashKept(s, e, r);
    StoreHashKept(s, e, q);
    SameHashKept(s, e, r, q);
  }

  lemma StoreKept(s: State, e: Event)
    requires HashesOk(s) && (forall r, q :: SameHash(s, r, q)) && StoreOk(s) && Enabled(s, e)
    ensures StoreOk(Apply(s, e))
  {
    var t := Apply(s, e);
    forall r | r in t.store
      ensures r.hash in t.used
    {
      StoreHashKept(s, e, r);
    }
    forall r, q | r in t.store && q in t.store && r.hash == q.hash
      ensures r.principal == q.principal
    {
      assert SameHash(s, r, q);
      StorePairKept(s, e, r, q);
    }
  }

  ghost predicate DeadOk(s: State, h: Id) {
    h in s.dead ==> h in s.used && forall r :: r in s.store && r.hash == h ==> r.revoked
  }

  lemma DeadKept(s: State, e: Event, h: Id)
    requires HashesOk(s) && StoreOk(s) && Enabled(s, e) && DeadOk(s, h) && GoneOk(s, h)
    ensures DeadOk(Apply(s, e), h)
    ensures h in s.dead && h in s.gone ==> h in Apply(s, e).dead
  {
    var t := Apply(s, e);
    if h in t.dead {
      forall r | r in t.store && r.hash == h
        ensures r.revoked
      {
        StoreOrigin(s, e, r);
        if e.Crash? && r in t.mem {
          ListedOrigin(s, e, r);
        }
      }
    }
  }
}
