/**
 Publication of artifacts in one session directory, as a state machine of concurrent puts,
 finalizers, crashes and boot sweeps. A directory change is durable once the session
 directory is synced; until then a crash may leave any directory state since the last sync.
 */
module ArtifactStore {
  import opened Prelude

  type Bytes = seq<bv8>

  /** SHA-256, taken to be injective. */
  datatype Digest = Digest(of: Bytes)

  datatype ArtifactId = Content(digest: Digest) | Uuid(id: Id)

  datatype Payload = Payload(extension: Id, bytes: Bytes)

  datatype Manifest = Manifest(extension: Id, digest: Digest, length: nat)

  /** An artifact directory; `sealed` once its files and its entries are synced. */
  datatype Tree = Tree(payload: Option<Payload>, manifest: Option<Manifest>, sealed: bool)

  const EMPTY := Tree(None, None, false)

  datatype Name = Final(artifact: ArtifactId) | Staging(artifact: ArtifactId, nonce: Id)

  type Dir = map<Name, Id>

  /** `validate_directory`. */
  predicate Validates(t: Tree, digest: Digest, length: nat) {
    && t.manifest.Some? && t.manifest.value.digest == digest && t.manifest.value.length == length
    && t.payload.Some? && t.payload.value.extension == t.manifest.value.extension
    && |t.payload.value.bytes| == length && Digest(t.payload.value.bytes) == digest
  }

  /** `get` on one directory state. */
  function Get(trees: map<Id, Tree>, d: Dir, id: ArtifactId): Option<Bytes> {
    if Final(id) in d && d[Final(id)] in trees
    then
      var t := trees[d[Final(id)]];
      if t.manifest.Some? && t.payload.Some? && t.payload.value.extension == t.manifest.value.extension
      then Some(t.payload.value.bytes)
      else None
    else None
  }

  // ----- processes -----

  datatype PutPc =
    | Look          // session directory synced, final path not yet looked for
    | Mkdir         // final path absent, staging directory not yet made
    | WritePayload
    | WriteManifest
    | Seal
    | Announce      // tree sealed, staging name not yet durable
    | Ready         // a pending artifact is held
    | Publish       // staging validated, rename next
    | SyncNew       // renamed, directory sync next
    | Compare       // rename refused because the final path exists
    | Remove        // final path validated, staging to be removed
    | RemoveName    // staging partly removed
    | SyncOld       // staging removed, directory sync next
    | DropTree      // failed or abandoned, staging to be removed
    | DropName

  datatype Put = Put(artifact: ArtifactId, extension: Id, bytes: Bytes, pc: PutPc)

  /** A finalizer uses the publishing and removing states only. */
  datatype Fin = Fin(artifact: ArtifactId, nonce: Id, digest: Digest, length: nat, pc: PutPc)

  /**
   `puts` is keyed by staging nonce. `used` are the nonces and UUIDs drawn, `announced` the
   nonces handed out with a pending artifact, and `meant` is what each UUID stands for.
   */
  datatype State = State(
    trees: map<Id, Tree>,
    live: Dir,
    views: set<Dir>,
    puts: map<Id, Put>,
    fins: map<Id, Fin>,
    booting: bool,
    used: set<Id>,
    announced: set<Id>,
    meant: map<Id, Digest>)

  datatype PutEvent =
    | LookHit | LookMiss
    | MakeDir(inode: Id) | PayloadWritten | ManifestWritten | Sealed | Announced
    | Validate | Rename | RenameBlocked | NewSynced
    | Compared | TreeRemoved(payload: bool, manifest: bool) | NameRemoved | OldSynced
    | Fault | DropTreeRemoved(payload: bool, manifest: bool) | DropNameRemoved | DropNothing | DropGaveUp

  datatype FinEvent =
    | FinRename | FinBlocked | FinNewSynced | FinCompared
    | FinTreeRemoved(payload: bool, manifest: bool) | FinNameRemoved | FinRemoveGone | FinOldSynced | FinFault

  datatype Event =
    | Begin(nonce: Id, put: Put)
    | OnPut(nonce: Id, action: PutEvent)
    | FinalizePresent(key: Id, fin: Fin)
    | FinalizeStaged(key: Id, fin: Fin)
    | OnFin(key: Id, step: FinEvent)
    | Crash(view: Dir)
    | Sweep(name: Name, payload: bool, manifest: bool)
    | SweepName(name: Name)
    | Booted

  function DigestOf(s: State, id: ArtifactId): Option<Digest> {
    match id
    case Content(d) => Some(d)
    case Uuid(u) => if u in s.meant then Some(s.meant[u]) else None
  }

  /** A tree that was sealed with the whole of artifact `id`. */
  predicate Good(s: State, t: Tree, id: ArtifactId) {
    && t.sealed && t.payload.Some?
    && t.manifest == Some(Manifest(t.payload.value.extension, Digest(t.payload.value.bytes), |t.payload.value.bytes|))
    && DigestOf(s, id) == Some(Digest(t.payload.value.bytes))
  }

  function Part(t: Tree, payload: bool, manifest: bool): Tree {
    Tree(if payload then t.payload else None, if manifest then t.manifest else None, t.sealed && payload && manifest)
  }

  predicate Has(s: State, n: Name) {
    n in s.live && s.live[n] in s.trees
  }

  function TreeAt(s: State, n: Name): Tree
    requires Has(s, n)
  {
    s.trees[s.live[n]]
  }

  // ----- changes of the file system -----

  datatype Change =
    | Nothing
    | DirSynced
    | SetTree(name: Name, tree: Tree)
    | Unlinked(name: Name)
    | Published(name: Name)
    | Made(name: Name, inode: Id)

  predicate Allowed(s: State, c: Change) {
    match c
    case Nothing => true
    case DirSynced => true
    case SetTree(n, _) => n.Staging? && Has(s, n)
    case Unlinked(n) => n.Staging? && n in s.live
    case Published(n) => n.Staging? && n in s.live && Final(n.artifact) !in s.live
    case Made(n, inode) => n.Staging? && n !in s.live && inode !in s.trees
  }

  function Trees(s: State, c: Change): map<Id, Tree>
    requires Allowed(s, c)
  {
    match c
    case SetTree(n, t) => s.trees[s.live[n] := t]
    case Made(_, inode) => s.trees[inode := EMPTY]
    case _ => s.trees
  }

  function Live(s: State, c: Change): Dir
    requires Allowed(s, c)
  {
    match c
    case Unlinked(n) => s.live - {n}
    case Published(n) => (s.live - {n})[Final(n.artifact) := s.live[n]]
    case Made(n, inode) => s.live[n := inode]
    case _ => s.live
  }

  function Views(s: State, c: Change): set<Dir>
    requires Allowed(s, c)
  {
    match c
    case Nothing => s.views
    case DirSynced => {s.live}
    case SetTree(_, _) => s.views
    case _ => s.views + {Live(s, c)}
  }

  function Perform(s: State, c: Change): State
    requires Allowed(s, c)
  {
    s.(trees := Trees(s, c), live := Live(s, c), views := Views(s, c))
  }

  // ----- one put -----

  predicate PutEnabled(s: State, k: Id, a: PutEvent) {
    && k in s.puts
    && var p := s.puts[k];
       var n, f := Staging(p.artifact, k), Final(p.artifact);
       match a
       case LookHit => p.pc == Look && Has(s, f) && Validates(TreeAt(s, f), Digest(p.bytes), |p.bytes|)
       case LookMiss => p.pc == Look && f !in s.live
       case MakeDir(inode) => p.pc == Mkdir && n !in s.live && inode !in s.trees
       case PayloadWritten => p.pc == WritePayload && Has(s, n)
       case ManifestWritten => p.pc == WriteManifest && Has(s, n)
       case Sealed => p.pc == Seal && Has(s, n)
       case Announced => p.pc == Announce
       case Validate => p.pc == Ready && Has(s, n) && Validates(TreeAt(s, n), Digest(p.bytes), |p.bytes|)
       case Rename => p.pc == Publish && n in s.live && f !in s.live
       case RenameBlocked => p.pc == Publish && f in s.live
       case NewSynced => p.pc == SyncNew
       case Compared => p.pc == Compare && Has(s, f) && Validates(TreeAt(s, f), Digest(p.bytes), |p.bytes|)
       case TreeRemoved(_, _) => p.pc == Remove && Has(s, n)
       case NameRemoved => p.pc == RemoveName && n in s.live
       case OldSynced => p.pc == SyncOld
       case Fault => p.pc != DropTree && p.pc != DropName
       case DropTreeRemoved(_, _) => p.pc == DropTree && Has(s, n)
       case DropNameRemoved => p.pc == DropName && n in s.live
       case DropNothing => (p.pc == DropTree || p.pc == DropName) && n !in s.live
       case DropGaveUp => p.pc == DropTree || p.pc == DropName
  }

  function ChangeOfPut(s: State, k: Id, a: PutEvent): Change
    requires PutEnabled(s, k, a)
  {
    var p := s.puts[k];
    var n := Staging(p.artifact, k);
    match a
    case MakeDir(inode) => Made(n, inode)
    case PayloadWritten => SetTree(n, TreeAt(s, n).(payload := Some(Payload(p.extension, p.bytes))))
    case ManifestWritten => SetTree(n, TreeAt(s, n).(manifest := Some(Manifest(p.extension, Digest(p.bytes), |p.bytes|))))
    case Sealed => SetTree(n, TreeAt(s, n).(sealed := true))
    case Announced => DirSynced
    case Rename => Published(n)
    case NewSynced => DirSynced
    case TreeRemoved(x, y) => SetTree(n, Part(TreeAt(s, n), x, y))
    case NameRemoved => Unlinked(n)
    case OldSynced => DirSynced
    case DropTreeRemoved(x, y) => SetTree(n, Part(TreeAt(s, n), x, y))
    case DropNameRemoved => Unlinked(n)
    case _ => Nothing
  }

  /** Where a put goes next; `None` when it is over. */
  function NextPc(a: PutEvent): Option<PutPc> {
    match a
    case LookHit => None
    case LookMiss => Some(Mkdir)
    case MakeDir(_) => Some(WritePayload)
    case PayloadWritten => Some(WriteManifest)
    case ManifestWritten => Some(Seal)
    case Sealed => Some(Announce)
    case Announced => Some(Ready)
    case Validate => Some(Publish)
    case Rename => Some(SyncNew)
    case RenameBlocked => Some(Compare)
    case NewSynced => None
    case Compared => Some(Remove)
    case TreeRemoved(_, _) => Some(RemoveName)
    case NameRemoved => Some(SyncOld)
    case OldSynced => None
    case Fault => Some(DropTree)
    case DropTreeRemoved(_, _) => Some(DropName)
    case DropNameRemoved => None
    case DropNothing => None
    case DropGaveUp => None
  }

  function PutStep(s: State, k: Id, a: PutEvent): State
    requires PutEnabled(s, k, a)
  {
    Perform(s, ChangeOfPut(s, k, a)).(
      puts := if NextPc(a).Some? then s.puts[k := s.puts[k].(pc := NextPc(a).value)] else s.puts - {k},
      announced := s.announced + if a.Announced? then {k} else {})
  }

  // ----- one finalizer -----

  predicate FinEnabled(s: State, k: Id, a: FinEvent) {
    && k in s.fins
    && var q := s.fins[k];
       var n, f := Staging(q.artifact, q.nonce), Final(q.artifact);
       match a
       case FinRename => q.pc == Publish && n in s.live && f !in s.live
       case FinBlocked => q.pc == Publish && f in s.live
       case FinNewSynced => q.pc == SyncNew
       case FinCompared => q.pc == Compare && Has(s, f) && Validates(TreeAt(s, f), q.digest, q.length)
       case FinTreeRemoved(_, _) => q.pc == Remove && Has(s, n)
       case FinNameRemoved => q.pc == RemoveName && n in s.live
       case FinRemoveGone => (q.pc == Remove || q.pc == RemoveName) && n !in s.live
       case FinOldSynced => q.pc == SyncOld
       case FinFault => true
  }

  function ChangeOfFin(s: State, k: Id, a: FinEvent): Change
    requires FinEnabled(s, k, a)
  {
    var n := Staging(s.fins[k].artifact, s.fins[k].nonce);
    match a
    case FinRename => Published(n)
    case FinNewSynced => DirSynced
    case FinTreeRemoved(x, y) => SetTree(n, Part(TreeAt(s, n), x, y))
    case FinNameRemoved => Unlinked(n)
    case FinOldSynced => DirSynced
    case _ => Nothing
  }

  function NextFinPc(a: FinEvent): Option<PutPc> {
    match a
    case FinRename => Some(SyncNew)
    case FinBlocked => Some(Compare)
    case FinCompared => Some(Remove)
    case FinTreeRemoved(_, _) => Some(RemoveName)
    case FinNameRemoved => Some(SyncOld)
    case _ => None
  }

  function FinStep(s: State, k: Id, a: FinEvent): State
    requires FinEnabled(s, k, a)
  {
    Perform(s, ChangeOfFin(s, k, a)).(
      fins := if NextFinPc(a).Some? then s.fins[k := s.fins[k].(pc := NextFinPc(a).value)] else s.fins - {k})
  }

  // ----- the whole machine -----

  /** A put is content-addressed or draws a new UUID. */
  predicate Addressed(s: State, k: Id, p: Put) {
    match p.artifact
    case Content(d) => d == Digest(p.bytes)
    case Uuid(u) => u !in s.used && u != k
  }

  predicate Enabled(s: State, e: Event) {
    match e
    case Begin(k, p) =>
      !s.booting && k !in s.used && p.pc == Look && Addressed(s, k, p)
    case OnPut(k, a) => PutEnabled(s, k, a)
    case FinalizePresent(k, q) =>
      && !s.booting && k !in s.fins && q.nonce in s.announced && q.nonce !in s.puts
      && Has(s, Final(q.artifact)) && Validates(TreeAt(s, Final(q.artifact)), q.digest, q.length)
    case FinalizeStaged(k, q) =>
      && !s.booting && k !in s.fins && q.nonce in s.announced && q.nonce !in s.puts
      && Final(q.artifact) !in s.live && Has(s, Staging(q.artifact, q.nonce))
      && Validates(TreeAt(s, Staging(q.artifact, q.nonce)), q.digest, q.length)
    case OnFin(k, a) => FinEnabled(s, k, a)
    case Crash(v) => v in s.views
    case Sweep(n, _, _) => s.booting && n.Staging? && Has(s, n)
    case SweepName(n) => s.booting && n.Staging? && n in s.live
    case Booted => s.booting
  }

  function AfterCrash(trees: map<Id, Tree>): map<Id, Tree> {
    map i | i in trees :: if trees[i].sealed then trees[i] else EMPTY
  }

  function Apply(s: State, e: Event): State
    requires Enabled(s, e)
  {
    match e
    case Begin(k, p) =>
      Perform(s, DirSynced).(puts := s.puts[k := p],
                             used := s.used + {k} + if p.artifact.Uuid? then {p.artifact.id} else {},
                             meant := if p.artifact.Uuid? then s.meant[p.artifact.id := Digest(p.bytes)] else s.meant)
    case OnPut(k, a) => PutStep(s, k, a)
    case FinalizePresent(k, q) => s.(fins := s.fins[k := q.(pc := Remove)])
    case FinalizeStaged(k, q) => s.(fins := s.fins[k := q.(pc := Publish)])
    case OnFin(k, a) => FinStep(s, k, a)
    case Crash(v) =>
      s.(trees := AfterCrash(s.trees), live := v, views := {v}, puts := map[], fins := map[], booting := true)
    case Sweep(n, x, y) => Perform(s, SetTree(n, Part(TreeAt(s, n), x, y)))
    case SweepName(n) => Perform(s, Unlinked(n))
    case Booted => s.(booting := false)
  }

  const INIT := State(map[], map[], {map[]}, map[], map[], false, {}, {}, map[])

  ghost predicate Run(ss: seq<State>, es: seq<Event>) {
    && |ss| == |es| + 1
    && ss[0] == INIT
    && forall i :: 0 <= i < |es| ==> Steps(ss, es, i)
  }

  /** Event `i` leads from state `i` to the next. */
  ghost predicate Steps(ss: seq<State>, es: seq<Event>, i: int) {
    0 <= i < |es| && i + 1 < |ss| && Enabled(ss[i], es[i]) && ss[i + 1] == Apply(ss[i], es[i])
  }
}
