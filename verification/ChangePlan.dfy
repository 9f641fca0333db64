/** Local change detection and the commit plan built from it. */
module ChangePlan {
  import opened Basics
  import opened Ordering

  datatype FileType = Note | Attachment | AiWiki | AiIndex | AiAgents
  datatype Status = Active | Deleted | ConflictCopy
  datatype Meta = Meta(blob: string, size: nat, mtime: nat)
  datatype FileRecord = FileRecord(id: string, path: string, kind: FileType, status: Status, updatedAt: nat, hash: Option<Hash>,
                                   revision: Option<nat>, source: Option<string>, meta: Option<Meta>)
  datatype Document = Document(vault: string, updatedAt: nat, files: seq<FileRecord>)
  datatype Tombstone = Tombstone(id: string, revision: Option<nat>, at: nat, deleteSeq: nat, lastPath: string, device: Option<string>)

  datatype File = File(bytes: Bytes, mtime: nat)
  type Workspace = map<string, File>

  datatype ChangeKind = Modified | Missing | Untracked
  datatype Change = Change(kind: ChangeKind, path: string, id: Option<string>, fileType: FileType, status: Option<Status>, hash: Option<Hash>)

  /** Rules about paths and names the planner calls: lock files, never-synced places, types by path, new ids, blob ids. */
  datatype Env = Env(volatile: string -> bool, hidden: string -> bool, typeOf: string -> FileType,
                     newId: string -> string, blobFor: Hash -> string)

  datatype Error = Unsupported | NothingToSubmit | Unreadable | UnknownFile | RenameMismatch | PathOccupied | Drifted
  datatype Attempt<T> = Ok(value: T) | Err(error: Error)

  // Detection.

  predicate Tracked(env: Env, r: FileRecord) {
    r.status != Deleted && !env.volatile(r.path)
  }

  function HashAt(ws: Workspace, path: string): Option<Hash> {
    if path in ws then Some(Sha256(ws[path].bytes)) else None
  }

  /** How a tracked file differs from its record. */
  function ChangeOf(ws: Workspace, r: FileRecord): Option<Change> {
    if r.path !in ws then Some(Change(Missing, r.path, Some(r.id), r.kind, Some(r.status), r.hash))
    else if HashAt(ws, r.path) == r.hash then None
    else Some(Change(Modified, r.path, Some(r.id), r.kind, Some(r.status), HashAt(ws, r.path)))
  }

  function RecordChanges(env: Env, ws: Workspace, files: seq<FileRecord>): seq<Change> {
    if files == [] then []
    else
      var r := files[|files| - 1];
      RecordChanges(env, ws, files[..|files| - 1])
      + if Tracked(env, r) && ChangeOf(ws, r).Some? then [ChangeOf(ws, r).value] else []
  }

  predicate TrackedPath(env: Env, files: seq<FileRecord>, path: string) {
    exists r :: r in files && Tracked(env, r) && r.path == path
  }

  predicate IsUntracked(env: Env, ws: Workspace, files: seq<FileRecord>, path: string) {
    path in ws && !env.hidden(path) && !env.volatile(path) && !TrackedPath(env, files, path)
  }

  function UntrackedChange(env: Env, ws: Workspace, path: string): Change {
    Change(Untracked, path, None, env.typeOf(path), None, HashAt(ws, path))
  }

  predicate ChangeLeq(a: Change, b: Change) {
    if a.path != b.path then StrLeq(a.path, b.path)
    else if a.kind != b.kind then a.kind.Missing? || (a.kind.Modified? && b.kind.Untracked?)
    else StrLeq(if a.id.Some? then a.id.value else "", if b.id.Some? then b.id.value else "")
  }

  /** `paths` walks the untracked files of the workspace, each once, in whatever order. */
  ghost predicate WalkOf(env: Env, ws: Workspace, files: seq<FileRecord>, paths: seq<string>) {
    NoDup(paths) && forall p :: p in paths <==> IsUntracked(env, ws, files, p)
  }

  function UntrackedChanges(env: Env, ws: Workspace, paths: seq<string>): seq<Change> {
    Map((p: string) => UntrackedChange(env, ws, p), paths)
  }

  function ChangesFrom(env: Env, ws: Workspace, files: seq<FileRecord>, paths: seq<string>): seq<Change> {
    Sort(RecordChanges(env, ws, files) + UntrackedChanges(env, ws, paths), ChangeLeq)
  }

  /** What detection reports. */
  ghost predicate Detected(env: Env, ws: Workspace, files: seq<FileRecord>, changes: seq<Change>) {
    exists paths :: WalkOf(env, ws, files, paths) && changes == ChangesFrom(env, ws, files, paths)
  }

  // Matching renames.

  datatype Key = Key(hash: Hash, kind: FileType)
  datatype Rename = Rename(id: string, target: Change)

  function ActiveRecord(files: seq<FileRecord>, id: string): Option<FileRecord> {
    if files == [] then None
    else if files[|files| - 1].status.Active? && files[|files| - 1].id == id then Some(files[|files| - 1])
    else ActiveRecord(files[..|files| - 1], id)
  }

  function MissingKey(files: seq<FileRecord>, c: Change): Option<Key> {
    if c.kind.Missing? && c.hash.Some? && c.id.Some? && ActiveRecord(files, c.id.value).Some?
    then Some(Key(c.hash.value, ActiveRecord(files, c.id.value).value.kind)) else None
  }

  function UntrackedKey(c: Change): Option<Key> {
    if c.kind.Untracked? && c.hash.Some? then Some(Key(c.hash.value, c.fileType)) else None
  }

  function MissingWith(files: seq<FileRecord>, changes: seq<Change>, key: Key): (r: seq<Change>)
    ensures forall c :: c in r <==> c in changes && MissingKey(files, c) == Some(key)
  {
    if changes == [] then []
    else
      var c := changes[|changes| - 1];
      assert changes == changes[..|changes| - 1] + [c];
      MissingWith(files, changes[..|changes| - 1], key) + if MissingKey(files, c) == Some(key) then [c] else []
  }

  function UntrackedWith(changes: seq<Change>, key: Key): (r: seq<Change>)
    ensures forall c :: c in r <==> c in changes && UntrackedKey(c) == Some(key)
  {
    if changes == [] then []
    else
      var c := changes[|changes| - 1];
      assert changes == changes[..|changes| - 1] + [c];
      UntrackedWith(changes[..|changes| - 1], key) + if UntrackedKey(c) == Some(key) then [c] else []
  }

  /** The keys of missing files, in order of first appearance. */
  function MissingKeys(files: seq<FileRecord>, changes: seq<Change>): (ks: seq<Key>)
    ensures NoDup(ks)
    ensures forall k :: k in ks <==> exists c :: c in changes && MissingKey(files, c) == Some(k)
  {
    if changes == [] then []
    else
      var c := changes[|changes| - 1];
      assert changes == changes[..|changes| - 1] + [c];
      var ks := MissingKeys(files, changes[..|changes| - 1]);
      match MissingKey(files, c)
      case None => ks
      case Some(k) => if k in ks then ks else ks + [k]
  }

  function PutRename(rs: seq<Rename>, r: Rename): seq<Rename> {
    if rs == [] then [r]
    else if rs[0].id == r.id then [r] + rs[1..]
    else [rs[0]] + PutRename(rs[1..], r)
  }

  /** A rename is read off a key with exactly one missing and one untracked file. */
  function RenamesFor(files: seq<FileRecord>, changes: seq<Change>, keys: seq<Key>): seq<Rename> {
    if keys == [] then []
    else
      var key := keys[|keys| - 1];
      var rs := RenamesFor(files, changes, keys[..|keys| - 1]);
      var missing, untracked := MissingWith(files, changes, key), UntrackedWith(changes, key);
      if |missing| == 1 && |untracked| == 1 && missing[0].id.Some? && missing[0].path != untracked[0].path
      then PutRename(rs, Rename(missing[0].id.value, untracked[0]))
      else rs
  }

  function MatchRenames(files: seq<FileRecord>, changes: seq<Change>): seq<Rename> {
    RenamesFor(files, changes, MissingKeys(files, changes))
  }

  predicate RenameLeq(a: Rename, b: Rename) {
    if a.target.path == b.target.path then StrLeq(a.id, b.id) else StrLeq(a.target.path, b.target.path)
  }

  // The plan.

  /** The planner's working state. */
  datatype State = State(doc: Document, content: map<string, Bytes>, tombstones: seq<Tombstone>, deleteSeq: nat)

  function IdsOf(changes: seq<Change>, kind: ChangeKind): set<string> {
    set c | c in changes && c.kind == kind && c.id.Some? :: c.id.value
  }

  predicate IsUnsupported(c: Change) {
    !c.kind.Untracked? && (c.status != Some(Active) || c.id.None?)
  }

  function MetaAt(env: Env, f: File): Meta {
    Meta(env.blobFor(Sha256(f.bytes)), |f.bytes|, f.mtime)
  }

  function ModifiedRecord(env: Env, f: File, r: FileRecord): FileRecord {
    r.(updatedAt := f.mtime, hash := Some(Sha256(f.bytes)), meta := Some(MetaAt(env, f)))
  }

  /** The files with their modified records refreshed, and the bytes read for them. */
  function Refresh(env: Env, ws: Workspace, files: seq<FileRecord>, ids: set<string>, st: State): Attempt<State>
    decreases |files|
  {
    if files == [] then Ok(st)
    else
      var r := files[0];
      if r.id !in ids then Refresh(env, ws, files[1..], ids, st.(doc := st.doc.(files := st.doc.files + [r])))
      else if r.path !in ws then Err(Unreadable)
      else
        var f := ws[r.path];
        Refresh(env, ws, files[1..], ids,
                st.(doc := st.doc.(files := st.doc.files + [ModifiedRecord(env, f, r)],
                                   updatedAt := if st.doc.updatedAt < f.mtime then f.mtime else st.doc.updatedAt),
                    content := st.content[r.id := f.bytes]))
  }

  predicate Occupied(files: seq<FileRecord>, path: string, ignored: Option<string>) {
    exists r :: r in files && Some(r.id) != ignored && r.status != Deleted && r.path == path
  }

  function Max(a: nat, b: nat): nat {
    if a < b then b else a
  }

  function LastRecord(files: seq<FileRecord>, id: string): Option<FileRecord> {
    if files == [] then None
    else if files[|files| - 1].id == id then Some(files[|files| - 1])
    else LastRecord(files[..|files| - 1], id)
  }

  function RenamedRecord(env: Env, f: File, path: string, at: nat, r: FileRecord): FileRecord {
    var blob := if r.meta.Some? && r.meta.value.blob != "" then r.meta.value.blob else env.blobFor(Sha256(f.bytes));
    r.(path := path, updatedAt := at, hash := Some(Sha256(f.bytes)), meta := Some(Meta(blob, |f.bytes|, f.mtime)))
  }

  function Renaming(env: Env, f: File, path: string, at: nat): FileRecord -> FileRecord {
    (r: FileRecord) => RenamedRecord(env, f, path, at, r)
  }

  /** The records with those of one id rewritten. */
  function Rewrite(files: seq<FileRecord>, id: string, g: FileRecord -> FileRecord): (r: seq<FileRecord>)
    ensures |r| == |files|
    ensures forall i :: 0 <= i < |files| ==> r[i] == if files[i].id == id then g(files[i]) else files[i]
  {
    if files == [] then [] else [if files[0].id == id then g(files[0]) else files[0]] + Rewrite(files[1..], id, g)
  }

  /** What a rename leaves. */
  function RenameStep(env: Env, st: State, e: Rename, f: File, current: FileRecord): State {
    var at := Max(Max(st.doc.updatedAt, current.updatedAt), f.mtime) + 1;
    st.(doc := st.doc.(files := Rewrite(st.doc.files, e.id, Renaming(env, f, e.target.path, at)), updatedAt := at),
        content := st.content[e.id := f.bytes])
  }

  function RenameOne(env: Env, ws: Workspace, files: seq<FileRecord>, st: State, e: Rename): Attempt<State> {
    var current := LastRecord(files, e.id);
    if current.None? then Err(UnknownFile)
    else if e.target.path !in ws then Err(Unreadable)
    else
      var f := ws[e.target.path];
      if Some(Sha256(f.bytes)) != current.value.hash then Err(RenameMismatch)
      else if Occupied(st.doc.files, e.target.path, Some(e.id)) then Err(PathOccupied)
      else Ok(RenameStep(env, st, e, f, current.value))
  }

  function RenameAll(env: Env, ws: Workspace, files: seq<FileRecord>, st: State, rs: seq<Rename>): Attempt<State>
    decreases |rs|
  {
    if rs == [] then Ok(st)
    else
      match RenameOne(env, ws, files, st, rs[0])
      case Err(e) => Err(e)
      case Ok(t) => RenameAll(env, ws, files, t, rs[1..])
  }

  function Deletion(at: nat): FileRecord -> FileRecord {
    (r: FileRecord) => r.(status := Deleted, updatedAt := at, source := None)
  }

  function DeleteOne(st: State, r: FileRecord, device: Option<string>): State {
    var at := Max(st.doc.updatedAt, r.updatedAt) + 1;
    var target := LastRecord(st.doc.files, r.id);
    State(st.doc.(files := Rewrite(st.doc.files, r.id, Deletion(at)), updatedAt := at), st.content,
          st.tombstones + [Tombstone(r.id, None, at, st.deleteSeq + 1, if target.Some? then target.value.path else r.path, device)],
          st.deleteSeq + 1)
  }

  function DeleteAll(st: State, files: seq<FileRecord>, ids: set<string>, device: Option<string>): State
    decreases |files|
  {
    if files == [] then st
    else DeleteAll(if files[0].id in ids then DeleteOne(st, files[0], device) else st, files[1..], ids, device)
  }

  function AddedRecord(env: Env, f: File, c: Change): FileRecord {
    FileRecord(env.newId(c.path), c.path, c.fileType, Active, f.mtime, Some(Sha256(f.bytes)), None, None, Some(MetaAt(env, f)))
  }

  function AddStep(env: Env, st: State, f: File, c: Change): State {
    var added := AddedRecord(env, f, c);
    st.(doc := st.doc.(files := Rewrite(st.doc.files, added.id, (r: FileRecord) => added) + [added], updatedAt := f.mtime),
        content := st.content[added.id := f.bytes])
  }

  function AddOne(env: Env, ws: Workspace, st: State, c: Change): Attempt<State> {
    if c.path !in ws then Err(Unreadable)
    else if Occupied(st.doc.files, c.path, None) then Err(PathOccupied)
    else Ok(AddStep(env, st, ws[c.path], c))
  }

  function AddAll(env: Env, ws: Workspace, st: State, changes: seq<Change>, consumed: set<string>): Attempt<State>
    decreases |changes|
  {
    if changes == [] then Ok(st)
    else if !changes[0].kind.Untracked? || changes[0].path in consumed then AddAll(env, ws, st, changes[1..], consumed)
    else
      match AddOne(env, ws, st, changes[0])
      case Err(e) => Err(e)
      case Ok(t) => AddAll(env, ws, t, changes[1..], consumed)
  }

  /** Every active file not read yet must still be what its record says. */
  function CheckAll(ws: Workspace, st: State, files: seq<FileRecord>): Attempt<State>
    decreases |files|
  {
    if files == [] then Ok(st)
    else
      var r := files[0];
      if !r.status.Active? || r.id in st.content then CheckAll(ws, st, files[1..])
      else if r.path !in ws then Err(Unreadable)
      else if HashAt(ws, r.path) != r.hash then Err(Drifted)
      else CheckAll(ws, st.(content := st.content[r.id := ws[r.path].bytes]), files[1..])
  }

  function Consumed(rs: seq<Rename>): set<string> {
    set r | r in rs :: r.target.path
  }

  function RenamedIds(rs: seq<Rename>): set<string> {
    set r | r in rs :: r.id
  }

  function Planned(env: Env, ws: Workspace, doc: Document, changes: seq<Change>, tombstones: seq<Tombstone>,
                   deleteSeq: nat, device: Option<string>): Attempt<State> {
    if exists c :: c in changes && IsUnsupported(c) then Err(Unsupported)
    else if changes == [] && !exists t :: t in tombstones && t.revision.None? then Err(NothingToSubmit)
    else
      var renames := MatchRenames(doc.files, changes);
      match Refresh(env, ws, doc.files, IdsOf(changes, Modified), State(doc.(files := []), map[], tombstones, deleteSeq))
      case Err(e) => Err(e)
      case Ok(refreshed) =>
        match RenameAll(env, ws, doc.files, refreshed, Sort(renames, RenameLeq))
        case Err(e) => Err(e)
        case Ok(renamed) =>
          var deleted := DeleteAll(renamed, doc.files, IdsOf(changes, Missing) - RenamedIds(renames), device);
          match AddAll(env, ws, deleted, changes, Consumed(renames))
          case Err(e) => Err(e)
          case Ok(added) => CheckAll(ws, added, added.doc.files)
  }
}
