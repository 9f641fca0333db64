/** The stages of planning: what the working document and the content map are after each. */
module ChangeStages {
  import opened Basics
  import opened Ordering
  import opened ChangePlan
  import opened ChangeFacts

  /** A workspace, the document it is compared with, and what detection reported. */
  datatype Scene = Scene(env: Env, ws: Workspace, files: seq<FileRecord>, changes: seq<Change>)

  /** Generated ids are new and differ from path to path. */
  ghost predicate FreshIds(x: Scene) {
    && (forall p, r :: p in x.ws && r in x.files ==> x.env.newId(p) != r.id)
    && (forall p, q :: p in x.ws && q in x.ws && x.env.newId(p) == x.env.newId(q) ==> p == q)
  }

  ghost predicate SceneOk(x: Scene) {
    UniqueIds(x.files) && Detected(x.env, x.ws, x.files, x.changes) && FreshIds(x)
  }

  /** How far the plan has got: which records were refreshed, renamed and deleted, which files were added. */
  datatype Done = Done(modified: set<string>, renamed: seq<Rename>, deleted: set<string>, added: seq<Change>)

  /** `s` is the record `r` brought up to date with its file: time, content, blob id and size. */
  predicate UpToDate(env: Env, ws: Workspace, r: FileRecord, s: FileRecord) {
    && r.path in ws
    && var f := ws[r.path];
       s == r.(updatedAt := f.mtime, hash := Some(Sha256(f.bytes)), meta := Some(Meta(env.blobFor(Sha256(f.bytes)), |f.bytes|, f.mtime)))
  }

  /** `s` is the record `r` moved to the file at `path`: with its content, size and time, under the blob id it has, if any, at a
      later time than record and file. */
  predicate MovedTo(env: Env, ws: Workspace, r: FileRecord, path: string, s: FileRecord) {
    && path in ws
    && var f := ws[path];
       && s.meta.Some? && s.meta.value.size == |f.bytes| && s.meta.value.mtime == f.mtime
       && (r.meta.Some? && r.meta.value.blob != "" ==> s.meta.value.blob == r.meta.value.blob)
       && (r.meta.None? || r.meta.value.blob == "" ==> s.meta.value.blob == env.blobFor(Sha256(f.bytes)))
       && s == r.(path := path, updatedAt := s.updatedAt, hash := Some(Sha256(f.bytes)), meta := s.meta)
       && s.updatedAt > r.updatedAt && s.updatedAt > f.mtime
  }

  /** `s` is the record `r` marked deleted at a later time, no longer the copy of another file. */
  predicate MarkedDeleted(r: FileRecord, s: FileRecord) {
    s == r.(status := Deleted, updatedAt := s.updatedAt, source := None) && s.updatedAt > r.updatedAt
  }

  /** What record `r` has become. */
  ghost predicate Becomes(env: Env, ws: Workspace, d: Done, r: FileRecord, s: FileRecord) {
    && s.id == r.id && s.kind == r.kind
    && (r.id in d.modified ==> UpToDate(env, ws, r, s))
    && (forall e :: e in d.renamed && e.id == r.id ==> MovedTo(env, ws, r, e.target.path, s))
    && (r.id in d.deleted ==> MarkedDeleted(r, s))
    && (r.id !in d.modified && r.id !in d.deleted && r.id !in RenamedIds(d.renamed) ==> s == r)
  }

  ghost predicate IsAdded(x: Scene, c: Change, s: FileRecord) {
    && c.path in x.ws
    && var f := x.ws[c.path];
       s == FileRecord(x.env.newId(c.path), c.path, c.fileType, Active, f.mtime, Some(Sha256(f.bytes)), None, None,
                       Some(Meta(x.env.blobFor(Sha256(f.bytes)), |f.bytes|, f.mtime)))
  }

  ghost predicate FilesOk(x: Scene, d: Done, files: seq<FileRecord>) {
    && |files| == |x.files| + |d.added|
    && (forall k :: 0 <= k < |x.files| ==> Becomes(x.env, x.ws, d, x.files[k], files[k]))
    && (forall j :: 0 <= j < |d.added| ==> IsAdded(x, d.added[j], files[|x.files| + j]))
  }

  function AddedIds(x: Scene, added: seq<Change>): set<string> {
    set c | c in added :: x.env.newId(c.path)
  }

  /** The content map holds exactly the touched files, each with the bytes at its path. */
  ghost predicate ContentOk(x: Scene, d: Done, st: State) {
    && st.content.Keys == d.modified + RenamedIds(d.renamed) + AddedIds(x, d.added)
    && Reads(x.ws, st)
  }

  ghost predicate Reads(ws: Workspace, st: State) {
    forall s :: s in st.doc.files && s.id in st.content ==>
      s.path in ws && st.content[s.id] == ws[s.path].bytes && s.hash == HashAt(ws, s.path) && s.status == Active
  }

  ghost predicate StageOk(x: Scene, d: Done, st: State) {
    FilesOk(x, d, st.doc.files) && ContentOk(x, d, st)
  }

  // Refreshing.

  /** Every record to refresh is active and has a file. */
  ghost predicate Refreshable(ws: Workspace, files: seq<FileRecord>, ids: set<string>) {
    forall r :: r in files && r.id in ids ==> r.path in ws && r.status.Active?
  }

  ghost predicate RefreshedFiles(env: Env, ws: Workspace, files: seq<FileRecord>, ids: set<string>, after: seq<FileRecord>) {
    && |after| == |files|
    && forall k :: 0 <= k < |files| ==>
         var r, s := files[k], after[k];
         if r.id in ids then UpToDate(env, ws, r, s) else s == r
  }

  ghost predicate HasId(files: seq<FileRecord>, id: string) {
    exists r :: r in files && r.id == id
  }

  ghost predicate Refreshed(env: Env, ws: Workspace, files: seq<FileRecord>, ids: set<string>, st: State) {
    && RefreshedFiles(env, ws, files, ids, st.doc.files)
    && (forall id :: id in st.content <==> id in ids && HasId(files, id))
    && Reads(ws, st)
  }

  function RefreshStep(env: Env, ws: Workspace, r: FileRecord, ids: set<string>, st: State): State {
    if r.id !in ids || r.path !in ws then st.(doc := st.doc.(files := st.doc.files + [r]))
    else
      var f := ws[r.path];
      st.(doc := st.doc.(files := st.doc.files + [ModifiedRecord(env, f, r)],
                         updatedAt := if st.doc.updatedAt < f.mtime then f.mtime else st.doc.updatedAt),
          content := st.content[r.id := f.bytes])
  }

  lemma {:induction false} RefreshAll(env: Env, ws: Workspace, files: seq<FileRecord>, i: nat, ids: set<string>, st: State)
    requires i <= |files| && UniqueIds(files) && Refreshable(ws, files, ids) && Refreshed(env, ws, files[..i], ids, st)
    ensures var r := Refresh(env, ws, files[i..], ids, st);
            r.Ok? && Refreshed(env, ws, files, ids, r.value) && r.value.tombstones == st.tombstones && r.value.deleteSeq == st.deleteSeq
    decreases |files| - i
  {
    if i == |files| {
      assert files[..i] == files && files[i..] == [];
    } else {
      var r := files[i];
      assert files[i..][0] == r && files[i..][1..] == files[i + 1..] && r in files;
      RefreshNext(env, ws, files, i, ids, st);
      hide Refreshed, UniqueIds, Refreshable, ModifiedRecord;
      RefreshAll(env, ws, files, i + 1, ids, RefreshStep(env, ws, r, ids, st));
    }
  }

  lemma RefreshNext(env: Env, ws: Workspace, files: seq<FileRecord>, i: nat, ids: set<string>, st: State)
    requires i < |files| && UniqueIds(files) && Refreshable(ws, files, ids) && Refreshed(env, ws, files[..i], ids, st)
    ensures Refreshed(env, ws, files[..i + 1], ids, RefreshStep(env, ws, files[i], ids, st))
    ensures files[i].id in ids ==> files[i].path in ws
  {
    var r, t := files[i], RefreshStep(env, ws, files[i], ids, st);
    assert r in files && files[..i + 1] == files[..i] + [r];
    assert RefreshedFiles(env, ws, files[..i + 1], ids, t.doc.files);
    forall id
      ensures HasId(files[..i + 1], id) <==> HasId(files[..i], id) || id == r.id
    {
      assert forall q :: q in files[..i + 1] <==> q in files[..i] || q == r;
    }
    RefreshReads(env, ws, files, i, ids, st);
    hide Reads, RefreshedFiles, HasId, UniqueIds;
  }

  lemma SameIds(env: Env, ws: Workspace, files: seq<FileRecord>, ids: set<string>, after: seq<FileRecord>)
    requires RefreshedFiles(env, ws, files, ids, after)
    ensures |after| == |files| && forall k :: 0 <= k < |files| ==> after[k].id == files[k].id
  {
  }

  lemma RefreshReads(env: Env, ws: Workspace, files: seq<FileRecord>, i: nat, ids: set<string>, st: State)
    requires i < |files| && UniqueIds(files) && Refreshable(ws, files, ids) && Refreshed(env, ws, files[..i], ids, st)
    ensures Reads(ws, RefreshStep(env, ws, files[i], ids, st))
  {
    hide RefreshedFiles;
    var r, t := files[i], RefreshStep(env, ws, files[i], ids, st);
    assert r in files;
    SameIds(env, ws, files[..i], ids, st.doc.files);
    forall s | s in t.doc.files && s.id in t.content
      ensures s.path in ws && t.content[s.id] == ws[s.path].bytes && s.hash == HashAt(ws, s.path) && s.status == Active
    {
      if s in st.doc.files {
        var k :| 0 <= k < |st.doc.files| && st.doc.files[k] == s;
        assert s.id == files[..i][k].id == files[k].id != r.id;
      } else {
        assert s.id == r.id;
        assert !HasId(files[..i], r.id) by { assert forall k :: 0 <= k < i ==> files[..i][k].id != r.id; }
      }
    }
  }

  // Renaming.

  lemma RewriteFiles(x: Scene, d: Done, files: seq<FileRecord>, id: string, g: FileRecord -> FileRecord, e: Done)
    requires FilesOk(x, d, files) && FreshIds(x) && UniqueIds(x.files) && d.added == [] && e.added == []
    requires forall r :: r in x.files && r.id != id ==> forall s :: Becomes(x.env, x.ws, d, r, s) ==> Becomes(x.env, x.ws, e, r, s)
    requires forall r, s :: r in x.files && r.id == id && Becomes(x.env, x.ws, d, r, s) ==> Becomes(x.env, x.ws, e, r, g(s))
    ensures FilesOk(x, e, Rewrite(files, id, g))
  {
    hide Becomes;
    var after := Rewrite(files, id, g);
    forall k | 0 <= k < |x.files|
      ensures Becomes(x.env, x.ws, e, x.files[k], after[k])
    {
      assert x.files[k] in x.files && Becomes(x.env, x.ws, d, x.files[k], files[k]);
      SameId(x.env, x.ws, d, x.files[k], files[k]);
    }
  }

  lemma SameId(env: Env, ws: Workspace, d: Done, r: FileRecord, s: FileRecord)
    requires Becomes(env, ws, d, r, s)
    ensures s.id == r.id
  {
  }

  /** A rename that is still to be done. */
  ghost predicate Pending(x: Scene, d: Done, e: Rename) {
    && GoodRename(x.env, x.ws, x.files, x.changes, e) && e.id !in d.modified
    && forall f :: f in d.renamed ==> f.id != e.id && f.target.path != e.target.path
  }

  /** No live record sits on a path that was untracked and that nothing was renamed to or added at. */
  lemma PathFree(x: Scene, d: Done, files: seq<FileRecord>, path: string)
    requires FilesOk(x, d, files) && IsUntracked(x.env, x.ws, x.files, path)
    requires forall f :: f in d.renamed ==> f.target.path != path
    requires forall c :: c in d.added ==> c.path != path
    ensures forall s :: s in files && s.status != Deleted ==> s.path != path
  {
    forall s | s in files && s.status != Deleted
      ensures s.path != path
    {
      var k :| 0 <= k < |files| && files[k] == s;
      if k < |x.files| {
        var r := x.files[k];
        assert r in x.files && Becomes(x.env, x.ws, d, r, s);
        if r.id in RenamedIds(d.renamed) {
          var f :| f in d.renamed && f.id == r.id;
        } else {
          assert s.path == path ==> Tracked(x.env, r);
        }
      } else {
        var j := k - |x.files|;
        assert d.added[j] in d.added && IsAdded(x, d.added[j], files[|x.files| + j]);
      }
    }
  }

  lemma RenamedKeys(rs: seq<Rename>, e: Rename)
    ensures RenamedIds(rs + [e]) == RenamedIds(rs) + {e.id}
  {
  }

  /** The record a rename is about. */
  lemma RenameSource(x: Scene, d: Done, e: Rename) returns (r: FileRecord)
    requires UniqueIds(x.files) && Pending(x, d, e)
    ensures r in x.files && r.id == e.id && r.status.Active? && LastRecord(x.files, e.id) == Some(r)
    ensures e.target.path in x.ws && r.hash == HashAt(x.ws, e.target.path)
    ensures forall q :: q in x.files && q.id == e.id ==> q == r
  {
    r :| r in x.files && r.id == e.id && r.status.Active? && Tracked(x.env, r) && r.path !in x.ws && r.hash == e.target.hash && r.kind == e.target.fileType;
    LastRecordIs(x.files, r);
    hide LastRecord, TrackedPath, UniqueIds;
    forall q | q in x.files && q.id == e.id
      ensures q == r
    {
      SameRecord(x.files, q, r);
    }
  }

  lemma RenameSucceeds(x: Scene, d: Done, st: State, e: Rename, r: FileRecord)
    requires FilesOk(x, d, st.doc.files) && d.added == [] && Pending(x, d, e) && LastRecord(x.files, e.id) == Some(r)
    requires e.target.path in x.ws && r.hash == HashAt(x.ws, e.target.path)
    ensures RenameOne(x.env, x.ws, x.files, st, e) == Ok(RenameStep(x.env, st, e, x.ws[e.target.path], r))
  {
    assert IsUntracked(x.env, x.ws, x.files, e.target.path);
    PathFree(x, d, st.doc.files, e.target.path);
    hide FilesOk, LastRecord, Rewrite, IsUntracked, Pending;
    assert !Occupied(st.doc.files, e.target.path, Some(e.id));
  }

  lemma StageParts(x: Scene, d: Done, st: State)
    requires SceneOk(x) && StageOk(x, d, st)
    ensures UniqueIds(x.files) && Detected(x.env, x.ws, x.files, x.changes) && FreshIds(x) && FilesOk(x, d, st.doc.files) && Reads(x.ws, st)
    ensures st.content.Keys == d.modified + RenamedIds(d.renamed) + AddedIds(x, d.added)
  {
  }

  lemma RenameStage(x: Scene, d: Done, st: State, e: Rename)
    requires SceneOk(x) && StageOk(x, d, st) && d.deleted == {} && d.added == [] && Pending(x, d, e)
    ensures var t := RenameOne(x.env, x.ws, x.files, st, e);
            && t.Ok? && StageOk(x, d.(renamed := d.renamed + [e]), t.value)
            && t.value.tombstones == st.tombstones && t.value.deleteSeq == st.deleteSeq
  {
    hide *;
    StageParts(x, d, st);
    var r := RenameSource(x, d, e);
    var f := x.ws[e.target.path];
    RenameSucceeds(x, d, st, e, r);
    NotYetRenamed(x, d, e);
    RenameFiles(x, d, st, e, f, r);
    RenameReads(x, d, st, e, f, r);
    RenameKeys(x, d, st, e, f, r);
  }

  lemma NotYetRenamed(x: Scene, d: Done, e: Rename)
    requires Pending(x, d, e)
    ensures e.id !in d.modified && e.id !in RenamedIds(d.renamed) && (forall g :: g in d.renamed ==> g.id != e.id)
  {
  }

  lemma RenameKeys(x: Scene, d: Done, st: State, e: Rename, f: File, r: FileRecord)
    requires st.content.Keys == d.modified + RenamedIds(d.renamed) + AddedIds(x, d.added) && d.added == []
    requires Reads(x.ws, RenameStep(x.env, st, e, f, r)) && FilesOk(x, d.(renamed := d.renamed + [e]), RenameStep(x.env, st, e, f, r).doc.files)
    ensures StageOk(x, d.(renamed := d.renamed + [e]), RenameStep(x.env, st, e, f, r))
    ensures RenameStep(x.env, st, e, f, r).tombstones == st.tombstones && RenameStep(x.env, st, e, f, r).deleteSeq == st.deleteSeq
  {
    hide FilesOk, Reads, Rewrite, RenamedIds;
    RenamedKeys(d.renamed, e);
  }

  lemma RenameFiles(x: Scene, d: Done, st: State, e: Rename, f: File, r: FileRecord)
    requires UniqueIds(x.files) && FreshIds(x) && FilesOk(x, d, st.doc.files) && d.deleted == {} && d.added == []
    requires r in x.files && r.id == e.id && r.status.Active? && e.id !in d.modified && forall g :: g in d.renamed ==> g.id != e.id
    requires forall q :: q in x.files && q.id == e.id ==> q == r
    requires e.target.path in x.ws && f == x.ws[e.target.path]
    ensures FilesOk(x, d.(renamed := d.renamed + [e]), RenameStep(x.env, st, e, f, r).doc.files)
  {
    var after := d.(renamed := d.renamed + [e]);
    var at := Max(Max(st.doc.updatedAt, r.updatedAt), f.mtime) + 1;
    var g := Renaming(x.env, f, e.target.path, at);
    RenamedKeys(d.renamed, e);
    forall q, s | q in x.files && q.id != e.id && Becomes(x.env, x.ws, d, q, s)
      ensures Becomes(x.env, x.ws, after, q, s)
    {
    }
    RenamedBecomes(x, d, e, f, at, r);
    hide Becomes, FilesOk, RenamedIds, UniqueIds, FreshIds, Renaming;
    RewriteFiles(x, d, st.doc.files, e.id, g, after);
  }

  lemma RenamedBecomes(x: Scene, d: Done, e: Rename, f: File, at: nat, r: FileRecord)
    requires d.deleted == {} && d.added == [] && e.target.path in x.ws && f == x.ws[e.target.path]
    requires r.id == e.id && e.id !in d.modified && forall g :: g in d.renamed ==> g.id != e.id
    requires at > r.updatedAt && at > f.mtime
    ensures forall s :: Becomes(x.env, x.ws, d, r, s) ==> Becomes(x.env, x.ws, d.(renamed := d.renamed + [e]), r, Renaming(x.env, f, e.target.path, at)(s))
  {
    NotRenamed(d.renamed, e.id);
    RenamedKeys(d.renamed, e);
    hide RenamedIds;
  }

  lemma NotRenamed(rs: seq<Rename>, id: string)
    requires forall f :: f in rs ==> f.id != id
    ensures id !in RenamedIds(rs)
  {
  }

  lemma RenameReads(x: Scene, d: Done, st: State, e: Rename, f: File, r: FileRecord)
    requires FilesOk(x, d, st.doc.files) && d.deleted == {} && d.added == [] && Reads(x.ws, st)
    requires e.target.path in x.ws && f == x.ws[e.target.path]
    requires r.status.Active? && (forall q :: q in x.files && q.id == e.id ==> q == r) && e.id !in d.modified && e.id !in RenamedIds(d.renamed)
    ensures Reads(x.ws, RenameStep(x.env, st, e, f, r))
  {
    hide FilesOk, RenamedIds, Becomes, Rewrite;
    var t := RenameStep(x.env, st, e, f, r);
    FilesLength(x, d, st.doc.files);
    forall s | s in t.doc.files && s.id in t.content
      ensures s.path in x.ws && t.content[s.id] == x.ws[s.path].bytes && s.hash == HashAt(x.ws, s.path) && s.status == Active
    {
      var k :| 0 <= k < |t.doc.files| && t.doc.files[k] == s;
      assert x.files[k] in x.files && st.doc.files[k] in st.doc.files;
      BecomesAt(x, d, st.doc.files, k);
      if x.files[k].id == e.id { UntouchedAt(x, d, x.files[k], st.doc.files[k]); }
    }
  }

  lemma FilesLength(x: Scene, d: Done, files: seq<FileRecord>)
    requires FilesOk(x, d, files)
    ensures |files| == |x.files| + |d.added|
  {
  }

  lemma BecomesAt(x: Scene, d: Done, files: seq<FileRecord>, k: nat)
    requires FilesOk(x, d, files) && k < |x.files|
    ensures k < |files| && Becomes(x.env, x.ws, d, x.files[k], files[k]) && files[k].id == x.files[k].id
  {
  }

  lemma UntouchedAt(x: Scene, d: Done, r: FileRecord, s: FileRecord)
    requires Becomes(x.env, x.ws, d, r, s) && r.id !in d.modified && r.id !in d.deleted && r.id !in RenamedIds(d.renamed)
    ensures s == r
  {
  }

  /** Renames that are all still to be done, for different files and onto different paths. */
  ghost predicate AllPending(x: Scene, d: Done, rs: seq<Rename>) {
    && (forall e :: e in rs ==> Pending(x, d, e))
    && (forall i, j :: 0 <= i < j < |rs| ==> rs[i].id != rs[j].id && rs[i].target.path != rs[j].target.path)
  }

  lemma NextPending(x: Scene, d: Done, rs: seq<Rename>)
    requires rs != [] && AllPending(x, d, rs)
    ensures Pending(x, d, rs[0]) && AllPending(x, d.(renamed := d.renamed + [rs[0]]), rs[1..])
  {
    hide GoodRename;
    var next := d.(renamed := d.renamed + [rs[0]]);
    forall f | f in rs[1..]
      ensures Pending(x, next, f)
    {
      var i :| 0 <= i < |rs[1..]| && rs[1..][i] == f;
      assert rs[i + 1] == f && f in rs;
    }
  }

  /** All the renames succeed, one after another. */
  lemma {:induction false} RenameStages(x: Scene, d: Done, st: State, rs: seq<Rename>)
    requires SceneOk(x) && StageOk(x, d, st) && d.deleted == {} && d.added == [] && AllPending(x, d, rs)
    ensures var t := RenameAll(x.env, x.ws, x.files, st, rs);
            && t.Ok? && StageOk(x, d.(renamed := d.renamed + rs), t.value)
            && t.value.tombstones == st.tombstones && t.value.deleteSeq == st.deleteSeq
    decreases |rs|
  {
    hide SceneOk, StageOk, AllPending, Pending, RenameOne;
    if rs == [] {
      assert d.renamed + rs == d.renamed;
    } else {
      NextPending(x, d, rs);
      RenameStage(x, d, st, rs[0]);
      assert d.renamed + [rs[0]] + rs[1..] == d.renamed + rs;
      RenameStages(x, d.(renamed := d.renamed + [rs[0]]), RenameOne(x.env, x.ws, x.files, st, rs[0]).value, rs[1..]);
    }
  }

  // Deleting.

  lemma UniqueAfter(x: Scene, d: Done, files: seq<FileRecord>)
    requires UniqueIds(x.files) && FreshIds(x) && FilesOk(x, d, files)
    requires forall c :: c in d.added ==> c.path in x.ws
    requires forall i, j :: 0 <= i < j < |d.added| ==> d.added[i].path != d.added[j].path
    ensures UniqueIds(files)
  {
    hide Becomes;
    forall i, j | 0 <= i < j < |files|
      ensures files[i].id != files[j].id
    {
      if i < |x.files| { BecomesAt(x, d, files, i); }
      if j < |x.files| { BecomesAt(x, d, files, j); }
      if j >= |x.files| { assert IsAdded(x, d.added[j - |x.files|], files[|x.files| + (j - |x.files|)]); }
      if i >= |x.files| { assert IsAdded(x, d.added[i - |x.files|], files[|x.files| + (i - |x.files|)]); }
    }
  }

  function Doomed(files: seq<FileRecord>, ids: set<string>): seq<FileRecord> {
    if files == [] then [] else (if files[0].id in ids then [files[0]] else []) + Doomed(files[1..], ids)
  }

  /** The tombstones written for `rs`: numbered on from `from`, pending a revision, each with its last path. */
  ghost predicate Buried(ts: seq<Tombstone>, rs: seq<FileRecord>, from: nat, device: Option<string>) {
    && |ts| == |rs|
    && forall i :: 0 <= i < |rs| ==>
         && ts[i].id == rs[i].id && ts[i].lastPath == rs[i].path && ts[i].revision == None && ts[i].deleteSeq == from + 1 + i
         && ts[i].device == device && ts[i].at > rs[i].updatedAt
  }

  lemma DeleteFiles(x: Scene, d: Done, st: State, r: FileRecord, at: nat)
    requires UniqueIds(x.files) && FreshIds(x) && FilesOk(x, d, st.doc.files) && d.added == []
    requires r in x.files && r.id !in d.modified && r.id !in RenamedIds(d.renamed) && at > r.updatedAt
    ensures FilesOk(x, d.(deleted := d.deleted + {r.id}), Rewrite(st.doc.files, r.id, Deletion(at)))
  {
    var after := d.(deleted := d.deleted + {r.id});
    forall q, s | q in x.files && q.id != r.id && Becomes(x.env, x.ws, d, q, s)
      ensures Becomes(x.env, x.ws, after, q, s)
    {
    }
    forall q, s | q in x.files && q.id == r.id && Becomes(x.env, x.ws, d, q, s)
      ensures Becomes(x.env, x.ws, after, q, Deletion(at)(s))
    {
      SameRecord(x.files, q, r);
      DeletedBecomes(x, d, q, s, at);
    }
    hide Becomes, FilesOk, RenamedIds, UniqueIds, FreshIds, Deletion;
    RewriteFiles(x, d, st.doc.files, r.id, Deletion(at), after);
  }

  lemma DeletedBecomes(x: Scene, d: Done, q: FileRecord, s: FileRecord, at: nat)
    requires Becomes(x.env, x.ws, d, q, s) && q.id !in d.modified && q.id !in RenamedIds(d.renamed)
    requires at > q.updatedAt
    ensures Becomes(x.env, x.ws, d.(deleted := d.deleted + {q.id}), q, Deletion(at)(s))
  {
    assert forall e :: e in d.renamed ==> e.id in RenamedIds(d.renamed);
    hide RenamedIds;
  }

  lemma DeleteReads(ws: Workspace, st: State, id: string, at: nat)
    requires Reads(ws, st) && id !in st.content
    ensures Reads(ws, st.(doc := st.doc.(files := Rewrite(st.doc.files, id, Deletion(at)), updatedAt := at)))
  {
    var files := Rewrite(st.doc.files, id, Deletion(at));
    forall s | s in files && s.id in st.content
      ensures s in st.doc.files
    {
      var k :| 0 <= k < |files| && files[k] == s;
      assert st.doc.files[k] in st.doc.files;
    }
    hide Rewrite;
  }

  lemma DeletePath(x: Scene, d: Done, st: State, k: nat)
    requires UniqueIds(x.files) && FreshIds(x) && FilesOk(x, d, st.doc.files) && d.added == []
    requires k < |x.files| && x.files[k].id !in d.modified && x.files[k].id !in RenamedIds(d.renamed)
    ensures var t := LastRecord(st.doc.files, x.files[k].id);
            t.Some? && t.value.path == x.files[k].path
  {
    var r := x.files[k];
    UniqueAfter(x, d, st.doc.files);
    BecomesAt(x, d, st.doc.files, k);
    var s := st.doc.files[k];
    assert s in st.doc.files && s.path == r.path;
    LastRecordIs(st.doc.files, s);
    hide FilesOk, LastRecord, RenamedIds, UniqueIds, FreshIds;
  }

  lemma DeleteStage(x: Scene, d: Done, st: State, k: nat, device: Option<string>)
    requires SceneOk(x) && StageOk(x, d, st) && d.added == [] && k < |x.files|
    requires x.files[k].id !in d.modified && x.files[k].id !in RenamedIds(d.renamed)
    ensures var t := DeleteOne(st, x.files[k], device);
            && StageOk(x, d.(deleted := d.deleted + {x.files[k].id}), t) && t.deleteSeq == st.deleteSeq + 1
            && |t.tombstones| == |st.tombstones| + 1 && t.tombstones[..|st.tombstones|] == st.tombstones
            && Buried([t.tombstones[|st.tombstones|]], [x.files[k]], st.deleteSeq, device)
  {
    hide *;
    var r := x.files[k];
    var t := DeleteOne(st, r, device);
    StageParts(x, d, st);
    DeleteShape(st, r, device);
    AtLeast(st.doc.updatedAt, r.updatedAt);
    DeleteFiles(x, d, st, r, Max(st.doc.updatedAt, r.updatedAt) + 1);
    Unread(x, d, st, r.id);
    DeleteReads(x.ws, st, r.id, Max(st.doc.updatedAt, r.updatedAt) + 1);
    DeletePath(x, d, st, k);
    ReadsSame(x.ws, st.(doc := st.doc.(files := t.doc.files, updatedAt := t.doc.updatedAt)), t);
    MakeStage(x, d.(deleted := d.deleted + {r.id}), t);
    BuriedOne(t.tombstones[|st.tombstones|], r, st.deleteSeq, device);
  }

  lemma AtLeast(a: nat, b: nat)
    ensures Max(a, b) >= a && Max(a, b) >= b
  {
  }

  lemma DeleteShape(st: State, r: FileRecord, device: Option<string>)
    ensures var t := DeleteOne(st, r, device);
            var at := Max(st.doc.updatedAt, r.updatedAt) + 1;
            && t.doc == st.doc.(files := Rewrite(st.doc.files, r.id, Deletion(at)), updatedAt := at)
            && t.content == st.content && t.deleteSeq == st.deleteSeq + 1
            && |t.tombstones| == |st.tombstones| + 1 && t.tombstones[..|st.tombstones|] == st.tombstones
            && var b := t.tombstones[|st.tombstones|];
               && b.id == r.id && b.revision == None && b.deleteSeq == st.deleteSeq + 1 && b.device == device && b.at == at
               && (LastRecord(st.doc.files, r.id).Some? ==> b.lastPath == LastRecord(st.doc.files, r.id).value.path)
  {
  }

  lemma Unread(x: Scene, d: Done, st: State, id: string)
    requires st.content.Keys == d.modified + RenamedIds(d.renamed) + AddedIds(x, d.added) && d.added == []
    requires id !in d.modified && id !in RenamedIds(d.renamed)
    ensures id !in st.content
  {
  }

  lemma BuriedOne(b: Tombstone, r: FileRecord, from: nat, device: Option<string>)
    requires b.id == r.id && b.lastPath == r.path && b.revision == None && b.deleteSeq == from + 1 && b.device == device && b.at > r.updatedAt
    ensures Buried([b], [r], from, device)
  {
  }

  lemma MakeStage(x: Scene, d: Done, st: State)
    requires FilesOk(x, d, st.doc.files) && Reads(x.ws, st)
    requires st.content.Keys == d.modified + RenamedIds(d.renamed) + AddedIds(x, d.added)
    ensures StageOk(x, d, st)
  {
  }

  lemma ReadsSame(ws: Workspace, s: State, t: State)
    requires Reads(ws, s) && t.doc.files == s.doc.files && t.content == s.content
    ensures Reads(ws, t)
  {
  }

  function IdsUpTo(files: seq<FileRecord>, i: nat, ids: set<string>): set<string>
    requires i <= |files|
  {
    set k | 0 <= k < i && files[k].id in ids :: files[k].id
  }

  lemma BuriedMore(a: seq<Tombstone>, b: seq<Tombstone>, r: FileRecord, rest: seq<FileRecord>, from: nat, device: Option<string>)
    requires Buried(a, [r], from, device) && Buried(b, rest, from + 1, device)
    ensures Buried(a + b, [r] + rest, from, device)
  {
  }

  lemma NoneBuried(ts: seq<Tombstone>, from: nat, device: Option<string>)
    ensures Buried(ts[|ts|..], [], from, device)
  {
  }

  /** One tombstone, then the rest. */
  lemma BuriedAfter(a: seq<Tombstone>, b: seq<Tombstone>, c: seq<Tombstone>, r: FileRecord, rest: seq<FileRecord>, from: nat, device: Option<string>)
    requires |b| == |a| + 1 && |b| <= |c| && b[..|a|] == a && c[..|b|] == b
    requires Buried([b[|a|]], [r], from, device) && Buried(c[|b|..], rest, from + 1, device)
    ensures c[..|a|] == a && Buried(c[|a|..], [r] + rest, from, device)
  {
    BuriedMore([b[|a|]], c[|b|..], r, rest, from, device);
    hide Buried;
    assert c[|a|] == c[..|b|][|a|];
    assert c[|a|..] == [b[|a|]] + c[|b|..];
    assert c[..|a|] == c[..|b|][..|a|];
  }

  /** All the deletions, in document order, each with its own tombstone. */
  lemma {:induction false} DeleteStages(x: Scene, d: Done, st: State, i: nat, ids: set<string>, device: Option<string>)
    requires SceneOk(x) && i <= |x.files| && StageOk(x, d, st) && d.added == [] && d.deleted == IdsUpTo(x.files, i, ids)
    requires ids !! d.modified && ids !! RenamedIds(d.renamed)
    ensures var t := DeleteAll(st, x.files[i..], ids, device);
            && StageOk(x, d.(deleted := IdsUpTo(x.files, |x.files|, ids)), t)
            && t.deleteSeq == st.deleteSeq + |Doomed(x.files[i..], ids)|
            && |t.tombstones| >= |st.tombstones| && t.tombstones[..|st.tombstones|] == st.tombstones
            && Buried(t.tombstones[|st.tombstones|..], Doomed(x.files[i..], ids), st.deleteSeq, device)
    decreases |x.files| - i
  {
    hide SceneOk, StageOk, DeleteOne, RenamedIds, Buried;
    if i < |x.files| {
      var r := x.files[i];
      assert x.files[i..][0] == r && x.files[i..][1..] == x.files[i + 1..];
      NextIds(x.files, i, ids);
      if r.id in ids {
        var t := DeleteOne(st, r, device);
        DeleteStage(x, d, st, i, device);
        DeleteStages(x, d.(deleted := d.deleted + {r.id}), t, i + 1, ids, device);
        var u := DeleteAll(t, x.files[i + 1..], ids, device);
        BuriedAfter(st.tombstones, t.tombstones, u.tombstones, r, Doomed(x.files[i + 1..], ids), st.deleteSeq, device);
      } else {
        DeleteStages(x, d, st, i + 1, ids, device);
        assert Doomed(x.files[i..], ids) == Doomed(x.files[i + 1..], ids);
      }
    } else {
      NoneBuried(st.tombstones, st.deleteSeq, device);
    }
    hide IdsUpTo;
  }

  lemma NextIds(files: seq<FileRecord>, i: nat, ids: set<string>)
    requires i < |files|
    ensures IdsUpTo(files, i + 1, ids) == IdsUpTo(files, i, ids) + if files[i].id in ids then {files[i].id} else {}
  {
  }

  // Adding.

  /** The untracked files that are not rename targets, in the order of the change set. */
  function Additions(changes: seq<Change>, consumed: set<string>): seq<Change> {
    if changes == [] then []
    else
      var c := changes[|changes| - 1];
      Additions(changes[..|changes| - 1], consumed) + if c.kind.Untracked? && c.path !in consumed then [c] else []
  }

  lemma {:induction false} AdditionsAre(changes: seq<Change>, consumed: set<string>)
    ensures forall c :: c in Additions(changes, consumed) <==> c in changes && c.kind.Untracked? && c.path !in consumed
  {
    if changes != [] {
      assert changes == changes[..|changes| - 1] + [changes[|changes| - 1]];
      AdditionsAre(changes[..|changes| - 1], consumed);
    }
  }

  lemma AddReads(x: Scene, st: State, c: Change, f: File)
    requires Reads(x.ws, st) && c.path in x.ws && f == x.ws[c.path]
    requires forall s :: s in st.doc.files ==> s.id != x.env.newId(c.path)
    ensures Reads(x.ws, AddStep(x.env, st, f, c))
    ensures AddStep(x.env, st, f, c).doc.files == st.doc.files + [AddedRecord(x.env, f, c)]
  {
    var added := AddedRecord(x.env, f, c);
    assert forall i :: 0 <= i < |st.doc.files| ==> st.doc.files[i] in st.doc.files;
    assert Rewrite(st.doc.files, added.id, (r: FileRecord) => added) == st.doc.files;
  }

  lemma AddFiles(x: Scene, d: Done, st: State, c: Change, f: File)
    requires FilesOk(x, d, st.doc.files) && c.path in x.ws && f == x.ws[c.path]
    ensures FilesOk(x, d.(added := d.added + [c]), st.doc.files + [AddedRecord(x.env, f, c)])
  {
    var after := d.(added := d.added + [c]);
    var files := st.doc.files + [AddedRecord(x.env, f, c)];
    forall k | 0 <= k < |x.files|
      ensures Becomes(x.env, x.ws, after, x.files[k], files[k])
    {
      BecomesAt(x, d, st.doc.files, k);
    }
    hide Becomes;
  }

  lemma IdFree(x: Scene, d: Done, files: seq<FileRecord>, path: string)
    requires FilesOk(x, d, files) && FreshIds(x) && path in x.ws
    requires forall c :: c in d.added ==> c.path != path && c.path in x.ws
    ensures forall s :: s in files ==> s.id != x.env.newId(path)
  {
    hide Becomes;
    forall s | s in files
      ensures s.id != x.env.newId(path)
    {
      var k :| 0 <= k < |files| && files[k] == s;
      if k < |x.files| {
        BecomesAt(x, d, files, k);
        assert x.files[k] in x.files;
      } else {
        assert d.added[k - |x.files|] in d.added && IsAdded(x, d.added[k - |x.files|], files[|x.files| + (k - |x.files|)]);
      }
    }
  }

  lemma AddedKeys(x: Scene, added: seq<Change>, c: Change)
    ensures AddedIds(x, added + [c]) == AddedIds(x, added) + {x.env.newId(c.path)}
  {
  }

  lemma AddStage(x: Scene, d: Done, st: State, c: Change)
    requires SceneOk(x) && StageOk(x, d, st) && IsUntracked(x.env, x.ws, x.files, c.path)
    requires forall f :: f in d.renamed ==> f.target.path != c.path
    requires forall a :: a in d.added ==> a.path != c.path && a.path in x.ws
    ensures var t := AddOne(x.env, x.ws, st, c);
            t.Ok? && StageOk(x, d.(added := d.added + [c]), t.value) && t.value.tombstones == st.tombstones && t.value.deleteSeq == st.deleteSeq
  {
    hide *;
    StageParts(x, d, st);
    PathFree(x, d, st.doc.files, c.path);
    UntrackedInside(x, c.path);
    IdFree(x, d, st.doc.files, c.path);
    AddSucceeds(x, st, c);
    AddReads(x, st, c, x.ws[c.path]);
    AddFiles(x, d, st, c, x.ws[c.path]);
    AddShape(x.env, st, x.ws[c.path], c);
    AddedKeys(x, d.added, c);
    MakeStage(x, d.(added := d.added + [c]), AddStep(x.env, st, x.ws[c.path], c));
  }

  lemma UntrackedInside(x: Scene, path: string)
    requires IsUntracked(x.env, x.ws, x.files, path)
    ensures path in x.ws
  {
  }

  lemma AddSucceeds(x: Scene, st: State, c: Change)
    requires c.path in x.ws && forall s :: s in st.doc.files && s.status != Deleted ==> s.path != c.path
    ensures AddOne(x.env, x.ws, st, c) == Ok(AddStep(x.env, st, x.ws[c.path], c))
  {
    hide Rewrite;
    assert !Occupied(st.doc.files, c.path, None);
  }

  lemma AddShape(env: Env, st: State, f: File, c: Change)
    ensures var t := AddStep(env, st, f, c);
            t.content.Keys == st.content.Keys + {env.newId(c.path)} && t.tombstones == st.tombstones && t.deleteSeq == st.deleteSeq
  {
    hide Rewrite;
  }

  /** An untracked change, seen from the changes before it. */
  lemma UntrackedAt(x: Scene, i: nat)
    requires SceneOk(x) && i < |x.changes| && x.changes[i].kind.Untracked?
    ensures IsUntracked(x.env, x.ws, x.files, x.changes[i].path)
    ensures forall c :: c in x.changes[..i] && c.kind.Untracked? ==> c.path != x.changes[i].path && c.path in x.ws
  {
    hide *;
    ReportedShape(x, x.changes[i]);
    forall c | c in x.changes[..i] && c.kind.Untracked?
      ensures c.path != x.changes[i].path && c.path in x.ws
    {
      ReportedShape(x, c);
      UntrackedInside(x, c.path);
      Earlier(x, i, c);
    }
  }

  lemma ReportedShape(x: Scene, c: Change)
    requires SceneOk(x) && c in x.changes && c.kind.Untracked?
    ensures IsUntracked(x.env, x.ws, x.files, c.path) && c == UntrackedChange(x.env, x.ws, c.path)
  {
    DetectedExactly(x.env, x.ws, x.files, x.changes);
    hide SceneOk, Detected, IsUntracked, UniqueIds, FreshIds, NoDup;
    assert IsChange(x.env, x.ws, x.files, c);
  }

  lemma Earlier(x: Scene, i: nat, c: Change)
    requires SceneOk(x) && i < |x.changes| && c in x.changes[..i] && c.kind.Untracked? && x.changes[i].kind.Untracked?
    ensures c.path != x.changes[i].path
  {
    DetectedExactly(x.env, x.ws, x.files, x.changes);
    var k :| 0 <= k < i && x.changes[k] == c;
    hide Detected, UniqueIds, FreshIds;
    SameUntracked(x, c, x.changes[i]);
  }

  lemma SameUntracked(x: Scene, c: Change, d: Change)
    requires SceneOk(x) && c in x.changes && d in x.changes && c.kind.Untracked? && d.kind.Untracked?
    ensures c.path == d.path ==> c == d
  {
    hide Detected, UniqueIds, FreshIds;
    if c.path == d.path { OneUntrackedEach(x.env, x.ws, x.files, x.changes, c, d); }
  }

  /** All the additions succeed, one after another. */
  lemma {:induction false} AddStages(x: Scene, d: Done, st: State, i: nat, consumed: set<string>)
    requires SceneOk(x) && i <= |x.changes| && StageOk(x, d, st) && consumed == Consumed(d.renamed)
    requires d.added == Additions(x.changes[..i], consumed)
    ensures var t := AddAll(x.env, x.ws, st, x.changes[i..], consumed);
            && t.Ok? && StageOk(x, d.(added := Additions(x.changes, consumed)), t.value)
            && t.value.tombstones == st.tombstones && t.value.deleteSeq == st.deleteSeq
    decreases |x.changes| - i
  {
    hide SceneOk, StageOk, AddOne;
    if i == |x.changes| {
      assert x.changes[..i] == x.changes;
    } else {
      var c := x.changes[i];
      assert x.changes[i..][0] == c && x.changes[i..][1..] == x.changes[i + 1..];
      assert x.changes[..i + 1][..i] == x.changes[..i] && x.changes[..i + 1][i] == c;
      if c.kind.Untracked? && c.path !in consumed {
        UntrackedAt(x, i);
        AdditionsAre(x.changes[..i], consumed);
        hide Additions, IsUntracked, Consumed;
        NotConsumed(d.renamed, c.path);
        AddStage(x, d, st, c);
        AddStages(x, d.(added := d.added + [c]), AddOne(x.env, x.ws, st, c).value, i + 1, consumed);
      } else {
        AddStages(x, d, st, i + 1, consumed);
      }
    }
    hide Additions, Consumed, IsUntracked;
  }

  lemma NotConsumed(rs: seq<Rename>, path: string)
    requires path !in Consumed(rs)
    ensures forall f :: f in rs ==> f.target.path != path
  {
  }

  // Checking.

  /** The file is still what its record says. */
  predicate Steady(ws: Workspace, r: FileRecord) {
    r.path in ws && HashAt(ws, r.path) == r.hash
  }

  ghost predicate AllSteady(ws: Workspace, st: State, files: seq<FileRecord>) {
    forall r :: r in files && r.status.Active? && r.id !in st.content ==> Steady(ws, r)
  }

  ghost predicate HasActive(files: seq<FileRecord>, id: string) {
    exists r :: r in files && r.status.Active? && r.id == id
  }

  lemma {:induction false} CheckSteady(ws: Workspace, st: State, files: seq<FileRecord>)
    requires UniqueIds(files)
    ensures CheckAll(ws, st, files).Ok? <==> AllSteady(ws, st, files)
    decreases |files|
  {
    if files != [] {
      HeadApart(files);
      var t := CheckStep(ws, st, files[0]);
      CheckSteady(ws, t, files[1..]);
      SteadyStep(ws, st, files);
      hide UniqueIds, AllSteady;
    }
  }

  function CheckStep(ws: Workspace, st: State, r: FileRecord): State {
    if !r.status.Active? || r.id in st.content || !Steady(ws, r) then st else st.(content := st.content[r.id := ws[r.path].bytes])
  }

  lemma HeadApart(files: seq<FileRecord>)
    requires files != [] && UniqueIds(files)
    ensures UniqueIds(files[1..]) && (forall q :: q in files[1..] ==> q.id != files[0].id) && files == [files[0]] + files[1..]
  {
    assert forall i :: 0 <= i < |files[1..]| ==> files[1..][i] == files[i + 1];
  }

  lemma SteadyStep(ws: Workspace, st: State, files: seq<FileRecord>)
    requires files != [] && (forall q :: q in files[1..] ==> q.id != files[0].id) && files == [files[0]] + files[1..]
    ensures AllSteady(ws, st, files) <==>
              (files[0].status.Active? && files[0].id !in st.content ==> Steady(ws, files[0])) && AllSteady(ws, CheckStep(ws, st, files[0]), files[1..])
  {
    assert forall q :: q in files <==> q == files[0] || q in files[1..];
  }

  /** What a passed check adds to the content map. */
  ghost predicate ReadRest(ws: Workspace, st: State, files: seq<FileRecord>, t: State) {
    && t == st.(content := t.content)
    && (forall id :: id in t.content <==> id in st.content || HasActive(files, id))
    && (forall id :: id in st.content ==> t.content[id] == st.content[id])
    && (forall r :: r in files && r.status.Active? && r.id !in st.content ==> r.path in ws && t.content[r.id] == ws[r.path].bytes)
  }

  lemma {:induction false} CheckReads(ws: Workspace, st: State, files: seq<FileRecord>)
    requires UniqueIds(files) && CheckAll(ws, st, files).Ok?
    ensures ReadRest(ws, st, files, CheckAll(ws, st, files).value)
    decreases |files|
  {
    if files != [] {
      HeadApart(files);
      CheckReads(ws, CheckStep(ws, st, files[0]), files[1..]);
      hide UniqueIds, CheckAll;
      ReadStep(ws, st, files, CheckAll(ws, CheckStep(ws, st, files[0]), files[1..]).value);
      hide ReadRest;
    }
  }

  lemma ReadStep(ws: Workspace, st: State, files: seq<FileRecord>, t: State)
    requires files != [] && (forall q :: q in files[1..] ==> q.id != files[0].id) && files == [files[0]] + files[1..]
    requires files[0].status.Active? && files[0].id !in st.content ==> Steady(ws, files[0])
    requires ReadRest(ws, CheckStep(ws, st, files[0]), files[1..], t)
    ensures ReadRest(ws, st, files, t)
  {
    assert forall q :: q in files <==> q == files[0] || q in files[1..];
    forall id
      ensures HasActive(files, id) <==> HasActive(files[1..], id) || (files[0].status.Active? && files[0].id == id)
    {
    }
    hide HasActive, Steady;
  }
}
