/** Change planning told from the scene alone: records, files on disk and pending tombstones. */
module ChangeScene {
  import opened Basics
  import opened Ordering
  import opened ChangePlan
  import opened ChangeFacts
  import opened ChangeStages
  import opened ChangeProofs
  import opened ChangeResults

  /** The record takes part: it is not deleted and its path is not that of a lock file. */
  predicate Watched(x: Scene, r: FileRecord) {
    r in x.files && (r.status == Active || r.status == ConflictCopy) && !x.env.volatile(r.path)
  }

  /** The file of the record is on disk with the recorded hash. */
  predicate Accurate(x: Scene, r: FileRecord) {
    r.path in x.ws && r.hash == Some(Sha256(x.ws[r.path].bytes))
  }

  /** A file that is synchronised and that no watched record is about. */
  ghost predicate NewFile(x: Scene, path: string) {
    path in x.ws && !x.env.hidden(path) && !x.env.volatile(path) && forall r :: Watched(x, r) ==> r.path != path
  }

  /** What detection says of a record whose file is not as recorded. */
  predicate Reports(x: Scene, r: FileRecord, c: Change) {
    && c.path == r.path && c.id == Some(r.id) && c.fileType == r.kind && c.status == Some(r.status)
    && (r.path in x.ws ==> c.kind == Modified && c.hash == Some(Sha256(x.ws[r.path].bytes)))
    && (r.path !in x.ws ==> c.kind == Missing && c.hash == r.hash)
  }

  /** What detection says of a new file. */
  predicate ReportsNew(x: Scene, path: string, c: Change)
    requires path in x.ws
  {
    c == Change(Untracked, path, None, x.env.typeOf(path), None, Some(Sha256(x.ws[path].bytes)))
  }

  lemma WatchedIs(x: Scene, r: FileRecord)
    ensures Watched(x, r) <==> r in x.files && Tracked(x.env, r)
    ensures Watched(x, r) ==> (Accurate(x, r) <==> ChangeOf(x.ws, r).None?)
    ensures forall c :: Watched(x, r) && !Accurate(x, r) ==> (Reports(x, r, c) <==> ChangeOf(x.ws, r) == Some(c))
  {
  }

  lemma NewFileIs(x: Scene, path: string)
    ensures NewFile(x, path) <==> IsUntracked(x.env, x.ws, x.files, path)
    ensures forall c :: NewFile(x, path) ==> (ReportsNew(x, path, c) <==> c == UntrackedChange(x.env, x.ws, path))
  {
    forall r { WatchedIs(x, r); }
    hide Tracked;
  }

  /** Main result: detection reports exactly the watched records whose file is not as recorded and the new files, each once. */
  lemma DetectionIs(x: Scene, c: Change)
    requires SceneOk(x)
    ensures c in x.changes <==>
              || (exists r :: Watched(x, r) && !Accurate(x, r) && Reports(x, r, c))
              || (NewFile(x, c.path) && ReportsNew(x, c.path, c))
    ensures NoDup(x.changes)
  {
    DetectedExactly(x.env, x.ws, x.files, x.changes);
    forall r { WatchedIs(x, r); }
    NewFileIs(x, c.path);
    hide SceneOk, Detected, UniqueIds, NoDup, Watched, Accurate, NewFile, Reports, ReportsNew, Tracked, IsUntracked, UntrackedChange, ChangeOf;
    assert c in x.changes <==> IsChange(x.env, x.ws, x.files, c);
  }

  /** Main result: changes are listed by path; at one path what is missing comes before what is modified and what is new last. */
  lemma DetectionOrder(x: Scene, i: nat, j: nat)
    requires SceneOk(x) && i < j < |x.changes|
    ensures var (a, b) := (x.changes[i], x.changes[j]);
            && StrLeq(a.path, b.path)
            && (a.path == b.path ==> !(b.kind.Missing? && !a.kind.Missing?) && !(a.kind.Untracked? && b.kind.Modified?))
            && (a.path == b.path && a.kind == b.kind && a.id.Some? && b.id.Some? ==> StrLeq(a.id.value, b.id.value))
  {
    ChangeOrder();
    var paths :| WalkOf(x.env, x.ws, x.files, paths) && x.changes == ChangesFrom(x.env, x.ws, x.files, paths);
    SortSorts(RecordChanges(x.env, x.ws, x.files) + UntrackedChanges(x.env, x.ws, paths), ChangeLeq);
    assert ChangeLeq(x.changes[i], x.changes[j]);
    StrTotal(x.changes[i].path, x.changes[j].path);
    hide Sort, RecordChanges, UntrackedChanges, WalkOf, Detected, UniqueIds, Preorder, StrLeq;
  }

  lemma ChangeOrder()
    ensures Preorder(ChangeLeq)
  {
    forall a, b
      ensures ChangeLeq(a, b) || ChangeLeq(b, a)
    {
      StrTotal(a.path, b.path);
      StrTotal(if a.id.Some? then a.id.value else "", if b.id.Some? then b.id.value else "");
    }
    forall a, b, c | ChangeLeq(a, b) && ChangeLeq(b, c)
      ensures ChangeLeq(a, c)
    {
      LeqTransitive(a, b, c);
    }
  }

  lemma LeqTransitive(a: Change, b: Change, c: Change)
    requires ChangeLeq(a, b) && ChangeLeq(b, c)
    ensures ChangeLeq(a, c)
  {
    hide StrLeq;
    if a.path == b.path == c.path && a.kind == b.kind == c.kind {
      StrTransitive(if a.id.Some? then a.id.value else "", if b.id.Some? then b.id.value else "", if c.id.Some? then c.id.value else "");
    } else if a.path != c.path || a.path != b.path {
      StrTotal(a.path, b.path);
      if a.path != b.path && b.path != c.path { StrTransitive(a.path, b.path, c.path); }
    }
  }

  /** The scene has something to submit: a record that is not accurate, a new file, or a deletion without a revision. */
  ghost predicate Pending(x: Scene, ts: seq<Tombstone>) {
    || (exists r :: Watched(x, r) && !Accurate(x, r))
    || (exists path :: NewFile(x, path))
    || (exists t :: t in ts && t.revision.None?)
  }

  lemma PendingIs(x: Scene, ts: seq<Tombstone>)
    requires SceneOk(x)
    ensures Pending(x, ts) <==> AnythingToDo(x.changes, ts)
  {
    hide SceneOk, Watched, Accurate, NewFile, Reports;
    if x.changes != [] {
      DetectionIs(x, x.changes[0]);
      assert x.changes[0] in x.changes;
    }
    if r :| Watched(x, r) && !Accurate(x, r) {
      var c := Reported(x, r);
      DetectionIs(x, c);
    }
    if path :| NewFile(x, path) {
      var c := ReportedNew(x, path);
      DetectionIs(x, c);
    }
  }

  lemma ReportedNew(x: Scene, path: string) returns (c: Change)
    requires NewFile(x, path)
    ensures path in x.ws && c.path == path && ReportsNew(x, path, c)
  {
    c := Change(Untracked, path, None, x.env.typeOf(path), None, Some(Sha256(x.ws[path].bytes)));
  }

  lemma Reported(x: Scene, r: FileRecord) returns (c: Change)
    ensures Reports(x, r, c)
  {
    c := if r.path in x.ws then Change(Modified, r.path, Some(r.id), r.kind, Some(r.status), Some(Sha256(x.ws[r.path].bytes)))
         else Change(Missing, r.path, Some(r.id), r.kind, Some(r.status), r.hash);
  }

  lemma SupportedIs(x: Scene)
    requires SceneOk(x)
    ensures Supported(x.changes) <==> forall r :: Watched(x, r) && r.status == ConflictCopy ==> Accurate(x, r)
  {
    hide SceneOk, Accurate, NewFile, Watched;
    if r :| Watched(x, r) && r.status == ConflictCopy && !Accurate(x, r) {
      var c := Reported(x, r);
      DetectionIs(x, c);
      assert c in x.changes && IsUnsupported(c);
    }
    if c :| c in x.changes && IsUnsupported(c) {
      DetectionIs(x, c);
      var r :| Watched(x, r) && !Accurate(x, r) && Reports(x, r, c);
      WatchedStatus(x, r);
    }
  }

  lemma WatchedStatus(x: Scene, r: FileRecord)
    requires Watched(x, r)
    ensures r.status == Active || r.status == ConflictCopy
  {
  }

  /** Main result: planning succeeds if and only if every conflict copy is on disk as recorded, there is something to submit, and
      the active records of lock files are accurate. New files never make it fail. */
  lemma PlansIff(x: Scene, doc: Document, ts: seq<Tombstone>, deleteSeq: nat, device: Option<string>)
    requires SceneOk(x) && doc.files == x.files
    ensures Planned(x.env, x.ws, doc, x.changes, ts, deleteSeq, device).Ok? <==>
              && (forall r :: Watched(x, r) && r.status == ConflictCopy ==> Accurate(x, r))
              && Pending(x, ts)
              && (forall r :: r in x.files && r.status == Active && x.env.volatile(r.path) ==> Accurate(x, r))
    ensures (exists path :: NewFile(x, path)) && (forall r :: r in x.files && r.status != Deleted ==> Accurate(x, r)) ==>
              Planned(x.env, x.ws, doc, x.changes, ts, deleteSeq, device).Ok?
  {
    PlanSucceedsIff(x, doc, ts, deleteSeq, device);
    PendingIs(x, ts);
    SupportedIs(x);
    hide SceneOk, Planned, NewFile, Supported, AnythingToDo;
  }

  // Renames.

  /** A missing file that was moved to `path`: a new file with its content and type, of which there is no other, missing or new. */
  ghost predicate RenamedTo(x: Scene, r: FileRecord, path: string) {
    && Watched(x, r) && r.status == Active && r.path !in x.ws
    && NewFile(x, path) && r.hash == Some(Sha256(x.ws[path].bytes)) && r.kind == x.env.typeOf(path)
    && (forall s :: Watched(x, s) && s.status == Active && s.path !in x.ws && s.hash == r.hash && s.kind == r.kind ==> s == r)
    && (forall q :: NewFile(x, q) && r.hash == Some(Sha256(x.ws[q].bytes)) && r.kind == x.env.typeOf(q) ==> q == path)
  }

  lemma {:induction false} WithOnce(files: seq<FileRecord>, changes: seq<Change>, key: Key)
    requires NoDup(changes)
    ensures NoDup(MissingWith(files, changes, key)) && NoDup(UntrackedWith(changes, key))
  {
    if changes != [] {
      var init, c := changes[..|changes| - 1], changes[|changes| - 1];
      WithOnce(files, init, key);
      var (a, b) := (MissingWith(files, init, key), UntrackedWith(init, key));
      assert c !in init;
      assert forall i :: 0 <= i < |a| ==> a[i] in a;
      assert forall i :: 0 <= i < |b| ==> b[i] in b;
    }
  }

  lemma SamePlace<T>(xs: seq<T>, a: T, i: nat, j: nat)
    requires NoDup(xs) && i < |xs| && j < |xs| && xs[i] == a && forall b :: b in xs ==> b == a
    ensures i == j
  {
    assert xs[j] in xs;
  }

  lemma OnlyOne<T>(xs: seq<T>, a: T)
    requires NoDup(xs) && a in xs && forall b :: b in xs ==> b == a
    ensures xs == [a]
  {
    var i :| 0 <= i < |xs| && xs[i] == a;
    if |xs| > 1 {
      SamePlace(xs, a, i, 0);
      SamePlace(xs, a, i, 1);
    }
  }

  lemma ActiveIs(x: Scene, r: FileRecord)
    requires SceneOk(x) && r in x.files && r.status == Active
    ensures ActiveRecord(x.files, r.id) == Some(r)
  {
    ActiveFound(x.files, r);
    ActiveRecordIs(x.files, r.id);
    SameRecord(x.files, r, ActiveRecord(x.files, r.id).value);
  }

  lemma {:induction false} ActiveFound(files: seq<FileRecord>, r: FileRecord)
    requires r in files && r.status == Active
    ensures ActiveRecord(files, r.id).Some?
  {
    var last := files[|files| - 1];
    assert files == files[..|files| - 1] + [last];
    if !(last.status.Active? && last.id == r.id) { ActiveFound(files[..|files| - 1], r); }
  }

  /** The record a missing change with a key is about. */
  lemma MissingIs(x: Scene, c: Change, key: Key)
    requires SceneOk(x)
    ensures c in x.changes && MissingKey(x.files, c) == Some(key) <==>
              exists r :: Watched(x, r) && r.status == Active && r.path !in x.ws && r.hash == Some(key.hash) && r.kind == key.kind && Reports(x, r, c)
  {
    DetectionIs(x, c);
    if c in x.changes && MissingKey(x.files, c) == Some(key) {
      var r :| Watched(x, r) && !Accurate(x, r) && Reports(x, r, c);
      ActiveRecordIs(x.files, r.id);
      SameRecord(x.files, r, ActiveRecord(x.files, r.id).value);
    }
    if r :| Watched(x, r) && r.status == Active && r.path !in x.ws && r.hash == Some(key.hash) && r.kind == key.kind && Reports(x, r, c) {
      ActiveIs(x, r);
    }
    hide SceneOk, NewFile, ActiveRecord, NoDup;
  }

  lemma NewIs(x: Scene, c: Change, key: Key)
    requires SceneOk(x)
    ensures c in x.changes && UntrackedKey(c) == Some(key) <==>
              && NewFile(x, c.path) && ReportsNew(x, c.path, c)
              && Sha256(x.ws[c.path].bytes) == key.hash && x.env.typeOf(c.path) == key.kind
  {
    DetectionIs(x, c);
    hide SceneOk, NewFile, NoDup, Watched, Accurate;
  }

  /** Main result: the planner renames exactly the missing files that were moved, each to where it was moved. */
  lemma RenamesAre(x: Scene, e: Rename)
    requires SceneOk(x)
    ensures e in MatchRenames(x.files, x.changes) <==>
              exists r :: RenamedTo(x, r, e.target.path) && r.id == e.id && ReportsNew(x, e.target.path, e.target)
  {
    RenamedIff(x.env, x.ws, x.files, x.changes, e);
    hide SceneOk, MatchRenames, RenamedTo, ReportsNew, Unrivalled, Detected, UniqueIds;
    if k :| Unrivalled(x.files, x.changes, k, e) {
      var r := UnrivalledRenamed(x, k, e);
    }
    if r :| RenamedTo(x, r, e.target.path) && r.id == e.id && ReportsNew(x, e.target.path, e.target) {
      var k := RenamedUnrivalled(x, r, e);
    }
  }

  lemma UnrivalledRenamed(x: Scene, k: Key, e: Rename) returns (r: FileRecord)
    requires SceneOk(x) && Unrivalled(x.files, x.changes, k, e)
    ensures RenamedTo(x, r, e.target.path) && r.id == e.id && ReportsNew(x, e.target.path, e.target)
  {
    var c := UnrivalledFiles(x.files, x.changes, k, e);
    var (m, u) := (MissingWith(x.files, x.changes, k), UntrackedWith(x.changes, k));
    assert m == [c] && u == [e.target];
    MissingIs(x, c, k);
    NewIs(x, e.target, k);
    hide SceneOk, NewFile, MissingWith, UntrackedWith, MissingKey, UntrackedKey, Watched, Accurate, Unrivalled;
    r :| Watched(x, r) && r.status == Active && r.path !in x.ws && r.hash == Some(k.hash) && r.kind == k.kind && Reports(x, r, c);
    forall s | Watched(x, s) && s.status == Active && s.path !in x.ws && s.hash == r.hash && s.kind == r.kind
      ensures s == r
    {
      var d := Reported(x, s);
      MissingIs(x, d, k);
      assert d in m && s.id == r.id;
      SameWatched(x, s, r);
    }
    forall q | NewFile(x, q) && r.hash == Some(Sha256(x.ws[q].bytes)) && r.kind == x.env.typeOf(q)
      ensures q == e.target.path
    {
      NewIs(x, Change(Untracked, q, None, x.env.typeOf(q), None, Some(Sha256(x.ws[q].bytes))), k);
    }
  }

  lemma SameWatched(x: Scene, a: FileRecord, b: FileRecord)
    requires SceneOk(x) && Watched(x, a) && Watched(x, b) && a.id == b.id
    ensures a == b
  {
    SameRecord(x.files, a, b);
  }

  lemma RenamedUnrivalled(x: Scene, r: FileRecord, e: Rename) returns (k: Key)
    requires SceneOk(x) && RenamedTo(x, r, e.target.path) && r.id == e.id && ReportsNew(x, e.target.path, e.target)
    ensures Unrivalled(x.files, x.changes, k, e)
  {
    k := Key(r.hash.value, r.kind);
    var c := Reported(x, r);
    var (m, u) := (MissingWith(x.files, x.changes, k), UntrackedWith(x.changes, k));
    DetectionIs(x, c);
    WithOnce(x.files, x.changes, k);
    MissingIs(x, c, k);
    NewIs(x, e.target, k);
    hide SceneOk, NewFile, MissingWith, UntrackedWith, MissingKey, UntrackedKey, Accurate, NoDup;
    forall d | d in m
      ensures d == c
    {
      MissingIs(x, d, k);
    }
    forall d | d in u
      ensures d == e.target
    {
      NewIs(x, d, k);
    }
    OnlyOne(m, c);
    OnlyOne(u, e.target);
  }

  lemma RenamedIdsAre(x: Scene, r: FileRecord)
    requires SceneOk(x) && Watched(x, r)
    ensures r.id in RenamedIds(MatchRenames(x.files, x.changes)) <==> exists path :: RenamedTo(x, r, path)
  {
    var rs := MatchRenames(x.files, x.changes);
    hide SceneOk, MatchRenames, NewFile, RenamedTo, Watched, ReportsNew;
    if e :| e in rs && e.id == r.id {
      RenamesAre(x, e);
      var s :| RenamedTo(x, s, e.target.path) && s.id == e.id;
      RenamedSame(x, s, r, e.target.path);
    }
    if path :| RenamedTo(x, r, path) {
      var e := RenameOf(x, r, path);
      assert e.id in RenamedIds(rs);
    }
  }

  lemma RenameOf(x: Scene, r: FileRecord, path: string) returns (e: Rename)
    requires SceneOk(x) && RenamedTo(x, r, path)
    ensures e in MatchRenames(x.files, x.changes) && e.id == r.id && e.target.path == path
  {
    e := Rename(r.id, Change(Untracked, path, None, x.env.typeOf(path), None, Some(Sha256(x.ws[path].bytes))));
    assert ReportsNew(x, path, e.target);
    hide SceneOk, MatchRenames, RenamedTo;
    RenamesAre(x, e);
  }

  // The planned document.

  /** What a plan makes of a record. */
  ghost predicate Ends(x: Scene, r: FileRecord, s: FileRecord) {
    if !Watched(x, r) || Accurate(x, r) then s == r
    else if r.path in x.ws then UpToDate(x.env, x.ws, r, s)
    else if exists path :: RenamedTo(x, r, path) then exists path :: RenamedTo(x, r, path) && MovedTo(x.env, x.ws, r, path, s)
    else MarkedDeleted(r, s)
  }

  /** Main result: in a plan every record has the fate its file calls for, in every field: it stays, is brought up to date, is moved to
      where its file was moved, or is deleted; a moved record keeps its blob id. */
  lemma RecordsEnd(x: Scene, doc: Document, ts: seq<Tombstone>, deleteSeq: nat, device: Option<string>, p: State, k: nat)
    requires Plan(x, doc, ts, deleteSeq, device, p) && k < |x.files|
    ensures k < |p.doc.files| && Ends(x, x.files[k], p.doc.files[k])
  {
    EveryRecordOnce(x, doc, ts, deleteSeq, device, p, k);
    var (r, s) := (x.files[k], p.doc.files[k]);
    assert r in x.files;
    WatchedIs(x, r);
    hide Planned, SceneOk, MatchRenames, UpToDate, MovedTo, MarkedDeleted, NewFile, RenamedTo, Lost;
    if Watched(x, r) { RenamedIdsAre(x, r); }
    forall e | e in MatchRenames(x.files, x.changes) && e.id == r.id && Watched(x, r)
      ensures RenamedTo(x, r, e.target.path)
    {
      RenamesAre(x, e);
      var q :| RenamedTo(x, q, e.target.path) && q.id == e.id;
      RenamedSame(x, q, r, e.target.path);
    }
  }

  lemma RenamedSame(x: Scene, q: FileRecord, r: FileRecord, path: string)
    requires SceneOk(x) && RenamedTo(x, q, path) && Watched(x, r) && q.id == r.id
    ensures q == r
  {
    SameWatched(x, q, r);
  }

  /** The record of a file that is new to the document. */
  predicate RecordOf(x: Scene, path: string, s: FileRecord) {
    && path in x.ws
    && var f := x.ws[path];
       s == FileRecord(x.env.newId(path), path, x.env.typeOf(path), Active, f.mtime, Some(Sha256(f.bytes)), None, None,
                       Some(Meta(x.env.blobFor(Sha256(f.bytes)), |f.bytes|, f.mtime)))
  }

  ghost predicate RenameTarget(x: Scene, path: string) {
    exists r :: RenamedTo(x, r, path)
  }

  /** Main result: after the old records a plan lists one record for each new file that nothing was moved to, and no other. */
  lemma NewRecords(x: Scene, doc: Document, ts: seq<Tombstone>, deleteSeq: nat, device: Option<string>, p: State)
    requires Plan(x, doc, ts, deleteSeq, device, p)
    ensures |p.doc.files| >= |x.files|
    ensures forall k :: |x.files| <= k < |p.doc.files| ==>
              NewFile(x, p.doc.files[k].path) && !RenameTarget(x, p.doc.files[k].path) && RecordOf(x, p.doc.files[k].path, p.doc.files[k])
    ensures forall path :: NewFile(x, path) && !RenameTarget(x, path) ==>
              exists k :: |x.files| <= k < |p.doc.files| && p.doc.files[k].path == path
    ensures forall j, k :: |x.files| <= j < k < |p.doc.files| ==> p.doc.files[j].path != p.doc.files[k].path
  {
    var a := Unpack(x, doc, ts, deleteSeq, device, p);
    hide *;
    AddedRecords(x, a);
  }

  lemma TargetsAre(x: Scene, path: string)
    requires SceneOk(x)
    ensures path in Consumed(MatchRenames(x.files, x.changes)) <==> RenameTarget(x, path)
  {
    var rs := MatchRenames(x.files, x.changes);
    hide SceneOk, MatchRenames, NewFile, RenamedTo, Watched, ReportsNew;
    if e :| e in rs && e.target.path == path {
      RenamesAre(x, e);
      var r :| RenamedTo(x, r, e.target.path) && r.id == e.id;
    }
    if r :| RenamedTo(x, r, path) {
      var e := RenameOf(x, r, path);
    }
  }

  lemma AdditionsAreNew(x: Scene, c: Change)
    requires SceneOk(x)
    ensures c in Outcome(x).added <==> NewFile(x, c.path) && ReportsNew(x, c.path, c) && !RenameTarget(x, c.path)
  {
    OutcomeParts(x);
    AdditionsAre(x.changes, Consumed(MatchRenames(x.files, x.changes)));
    TargetsAre(x, c.path);
    DetectionIs(x, c);
    hide SceneOk, Outcome, Additions, Consumed, MatchRenames, NewFile, RenameTarget, NoDup, Accurate;
  }

  lemma AddedRecords(x: Scene, a: State)
    requires SceneOk(x) && StageOk(x, Outcome(x), a)
    ensures |a.doc.files| >= |x.files|
    ensures forall k :: |x.files| <= k < |a.doc.files| ==>
              NewFile(x, a.doc.files[k].path) && !RenameTarget(x, a.doc.files[k].path) && RecordOf(x, a.doc.files[k].path, a.doc.files[k])
    ensures forall path :: NewFile(x, path) && !RenameTarget(x, path) ==>
              exists k :: |x.files| <= k < |a.doc.files| && a.doc.files[k].path == path
    ensures forall j, k :: |x.files| <= j < k < |a.doc.files| ==> a.doc.files[j].path != a.doc.files[k].path
  {
    var d := Outcome(x);
    StageParts(x, d, a);
    FilesLength(x, d, a.doc.files);
    AdditionsOk(x);
    forall c { AdditionsAreNew(x, c); }
    hide SceneOk, StageOk, Outcome, NewFile, RenameTarget, Reads, Becomes, AddedIds;
    forall k | |x.files| <= k < |a.doc.files|
      ensures NewFile(x, a.doc.files[k].path) && !RenameTarget(x, a.doc.files[k].path) && RecordOf(x, a.doc.files[k].path, a.doc.files[k])
      ensures a.doc.files[k].path == d.added[k - |x.files|].path
    {
      var c := d.added[k - |x.files|];
      assert c in d.added && IsAdded(x, c, a.doc.files[|x.files| + (k - |x.files|)]);
    }
    forall path | NewFile(x, path) && !RenameTarget(x, path)
      ensures exists k :: |x.files| <= k < |a.doc.files| && a.doc.files[k].path == path
    {
      NewInside(x, path);
      var c := Change(Untracked, path, None, x.env.typeOf(path), None, Some(Sha256(x.ws[path].bytes)));
      assert ReportsNew(x, path, c) && c in d.added;
      var j :| 0 <= j < |d.added| && d.added[j] == c;
      assert a.doc.files[|x.files| + j].path == d.added[(|x.files| + j) - |x.files|].path;
    }
  }

  lemma NewInside(x: Scene, path: string)
    requires NewFile(x, path)
    ensures path in x.ws
  {
  }

  ghost predicate ByPath(cs: seq<Change>) {
    forall i, j :: 0 <= i < j < |cs| ==> StrLeq(cs[i].path, cs[j].path)
  }

  lemma ByPathMore(cs: seq<Change>, changes: seq<Change>)
    requires changes != [] && ByPath(changes) && ByPath(cs) && forall c :: c in cs ==> c in changes[..|changes| - 1]
    ensures ByPath(cs + [changes[|changes| - 1]])
  {
    hide StrLeq;
    forall i | 0 <= i < |cs|
      ensures StrLeq(cs[i].path, changes[|changes| - 1].path)
    {
      assert cs[i] in cs;
      var k :| 0 <= k < |changes| - 1 && changes[k] == cs[i];
    }
  }

  lemma {:induction false} AdditionsSorted(changes: seq<Change>, consumed: set<string>)
    requires ByPath(changes)
    ensures ByPath(Additions(changes, consumed))
  {
    if changes != [] {
      var init := changes[..|changes| - 1];
      assert ByPath(init);
      hide ByPath;
      AdditionsSorted(init, consumed);
      AdditionsAre(init, consumed);
      ByPathMore(Additions(init, consumed), changes);
      assert Additions(init, consumed) + [] == Additions(init, consumed);
    }
  }

  /** Main result: the records a plan adds are in order of path. */
  lemma NewRecordsOrder(x: Scene, doc: Document, ts: seq<Tombstone>, deleteSeq: nat, device: Option<string>, p: State, j: nat, k: nat)
    requires Plan(x, doc, ts, deleteSeq, device, p) && |x.files| <= j < k < |p.doc.files|
    ensures StrLeq(p.doc.files[j].path, p.doc.files[k].path)
  {
    var a := Unpack(x, doc, ts, deleteSeq, device, p);
    hide *;
    NewInOrder(x, a, j, k);
  }

  lemma OutcomeSorted(x: Scene, m: nat, n: nat)
    requires SceneOk(x) && m < n < |Outcome(x).added|
    ensures StrLeq(Outcome(x).added[m].path, Outcome(x).added[n].path)
  {
    forall i, j | 0 <= i < j < |x.changes|
      ensures StrLeq(x.changes[i].path, x.changes[j].path)
    {
      DetectionOrder(x, i, j);
    }
    assert ByPath(x.changes);
    AdditionsSorted(x.changes, Consumed(MatchRenames(x.files, x.changes)));
    OutcomeParts(x);
    hide SceneOk, Outcome, StrLeq, Additions, MatchRenames;
  }

  lemma NewInOrder(x: Scene, a: State, j: nat, k: nat)
    requires SceneOk(x) && StageOk(x, Outcome(x), a) && |x.files| <= j < k < |a.doc.files|
    ensures StrLeq(a.doc.files[j].path, a.doc.files[k].path)
  {
    hide *;
    AddedRead(x, a, j);
    AddedRead(x, a, k);
    var (cs, m, n) := (Outcome(x).added, j - |x.files|, k - |x.files|);
    AddedPath(x, cs[m], a.doc.files[j]);
    AddedPath(x, cs[n], a.doc.files[k]);
    OutcomeSorted(x, m, n);
  }

  lemma AddedPath(x: Scene, c: Change, s: FileRecord)
    requires IsAdded(x, c, s)
    ensures s.path == c.path
  {
  }

  // Deletions.

  /** A watched file that is gone and was moved nowhere. */
  ghost predicate Gone(x: Scene, r: FileRecord) {
    Watched(x, r) && r.path !in x.ws && !exists path :: RenamedTo(x, r, path)
  }

  /** The record of a tombstone's file has the tombstone's time. */
  ghost predicate Dated(files: seq<FileRecord>, ts: seq<Tombstone>) {
    forall s, t :: s in files && t in ts && s.id == t.id ==> s.updatedAt == t.at
  }

  lemma RewriteIn(files: seq<FileRecord>, id: string, g: FileRecord -> FileRecord, s: FileRecord) returns (q: FileRecord)
    requires s in Rewrite(files, id, g)
    ensures q in files && s == if q.id == id then g(q) else q
  {
    var after := Rewrite(files, id, g);
    var k :| 0 <= k < |after| && after[k] == s;
    q := files[k];
  }

  lemma DeleteDated(st: State, r: FileRecord, device: Option<string>, from: nat)
    requires from <= |st.tombstones| && Dated(st.doc.files, st.tombstones[from..])
    requires forall t :: t in st.tombstones[from..] ==> t.id != r.id
    ensures var u := DeleteOne(st, r, device);
            && Dated(u.doc.files, u.tombstones[from..]) && |u.tombstones| == |st.tombstones| + 1
            && forall t :: t in u.tombstones[from..] ==> t in st.tombstones[from..] || t.id == r.id
  {
    var u := DeleteOne(st, r, device);
    var at := Max(st.doc.updatedAt, r.updatedAt) + 1;
    var mark := u.tombstones[|st.tombstones|];
    assert u.tombstones[from..] == st.tombstones[from..] + [mark] && mark.id == r.id && mark.at == at;
    hide Max, LastRecord;
    forall s, t | s in u.doc.files && t in u.tombstones[from..] && s.id == t.id
      ensures s.updatedAt == t.at
    {
      var q := RewriteIn(st.doc.files, r.id, Deletion(at), s);
    }
  }

  lemma {:induction false} DeletesDated(st: State, files: seq<FileRecord>, ids: set<string>, device: Option<string>, from: nat)
    requires UniqueIds(files) && from <= |st.tombstones| && Dated(st.doc.files, st.tombstones[from..])
    requires forall t, r :: t in st.tombstones[from..] && r in files ==> t.id != r.id
    ensures var u := DeleteAll(st, files, ids, device);
            && |u.tombstones| >= |st.tombstones| && Dated(u.doc.files, u.tombstones[from..])
            && forall t :: t in u.tombstones[from..] ==> t in st.tombstones[from..] || HasId(files, t.id)
    decreases |files|
  {
    hide DeleteOne, Dated;
    if files != [] {
      HeadApart(files);
      assert files[0] in files;
      var v := if files[0].id in ids then DeleteOne(st, files[0], device) else st;
      if files[0].id in ids { DeleteDated(st, files[0], device, from); }
      DeletesDated(v, files[1..], ids, device, from);
      forall t | HasId(files[1..], t)
        ensures HasId(files, t)
      {
        var r :| r in files[1..] && r.id == t;
        assert r in files;
      }
    }
  }

  lemma AddDated(x: Scene, st: State, c: Change, ts: seq<Tombstone>)
    requires Dated(st.doc.files, ts) && c.path in x.ws && forall t :: t in ts ==> t.id != x.env.newId(c.path)
    ensures Dated(AddStep(x.env, st, x.ws[c.path], c).doc.files, ts)
  {
    var added := AddedRecord(x.env, x.ws[c.path], c);
    var u := AddStep(x.env, st, x.ws[c.path], c);
    forall s, t | s in u.doc.files && t in ts && s.id == t.id
      ensures s.updatedAt == t.at
    {
      assert s != added;
      var q := RewriteIn(st.doc.files, added.id, (r: FileRecord) => added, s);
    }
  }

  lemma {:induction false} AddsDated(x: Scene, st: State, changes: seq<Change>, consumed: set<string>, ts: seq<Tombstone>)
    requires FreshIds(x) && Dated(st.doc.files, ts) && forall t :: t in ts ==> HasId(x.files, t.id)
    requires AddAll(x.env, x.ws, st, changes, consumed).Ok?
    ensures Dated(AddAll(x.env, x.ws, st, changes, consumed).value.doc.files, ts)
    ensures AddAll(x.env, x.ws, st, changes, consumed).value.tombstones == st.tombstones
    decreases |changes|
  {
    hide AddStep, Dated, Occupied;
    if changes != [] {
      var c := changes[0];
      if !c.kind.Untracked? || c.path in consumed {
        AddsDated(x, st, changes[1..], consumed, ts);
      } else {
        AddDated(x, st, c, ts);
        AddShape(x.env, st, x.ws[c.path], c);
        AddsDated(x, AddStep(x.env, st, x.ws[c.path], c), changes[1..], consumed, ts);
      }
    }
  }

  /** The deletions of a plan carry the times of their records. */
  lemma PlanDated(x: Scene, doc: Document, ts: seq<Tombstone>, deleteSeq: nat, device: Option<string>, p: State)
    requires Plan(x, doc, ts, deleteSeq, device, p)
    ensures |p.tombstones| >= |ts| && Dated(p.doc.files, p.tombstones[|ts|..])
  {
    var renames := MatchRenames(x.files, x.changes);
    var refreshed := Refresh(x.env, x.ws, x.files, IdsOf(x.changes, Modified), State(doc.(files := []), map[], ts, deleteSeq)).value;
    var renamed := RenameAll(x.env, x.ws, x.files, refreshed, Sort(renames, RenameLeq)).value;
    var deleted := DeleteAll(renamed, x.files, IdsOf(x.changes, Missing) - RenamedIds(renames), device);
    var added := AddAll(x.env, x.ws, deleted, x.changes, Consumed(renames)).value;
    hide Refresh, RenameAll, DeleteAll, AddAll, CheckAll, MatchRenames, IdsOf, Sort, RenamedIds, Consumed, Dated, HasId, Detected;
    RefreshKeeps(x.env, x.ws, x.files, IdsOf(x.changes, Modified), State(doc.(files := []), map[], ts, deleteSeq));
    RenamesKeep(x.env, x.ws, x.files, refreshed, Sort(renames, RenameLeq));
    assert renamed.tombstones == ts && ts[|ts|..] == [];
    NoneDated(renamed.doc.files);
    DeletesDated(renamed, x.files, IdsOf(x.changes, Missing) - RenamedIds(renames), device, |ts|);
    AddsDated(x, deleted, x.changes, Consumed(renames), deleted.tombstones[|ts|..]);
    CheckKeeps(x.ws, added, added.doc.files);
  }

  lemma NoneDated(files: seq<FileRecord>)
    ensures Dated(files, [])
  {
  }

  lemma {:induction false} RefreshKeeps(env: Env, ws: Workspace, files: seq<FileRecord>, ids: set<string>, st: State)
    requires Refresh(env, ws, files, ids, st).Ok?
    ensures Refresh(env, ws, files, ids, st).value.tombstones == st.tombstones
    decreases |files|
  {
    if files != [] {
      var r := files[0];
      if r.id !in ids {
        RefreshKeeps(env, ws, files[1..], ids, st.(doc := st.doc.(files := st.doc.files + [r])));
      } else {
        RefreshKeeps(env, ws, files[1..], ids, RefreshStep(env, ws, r, ids, st));
      }
    }
  }

  lemma {:induction false} RenamesKeep(env: Env, ws: Workspace, files: seq<FileRecord>, st: State, rs: seq<Rename>)
    requires RenameAll(env, ws, files, st, rs).Ok?
    ensures RenameAll(env, ws, files, st, rs).value.tombstones == st.tombstones
    decreases |rs|
  {
    hide LastRecord, Occupied, Rewrite;
    if rs != [] { RenamesKeep(env, ws, files, RenameOne(env, ws, files, st, rs[0]).value, rs[1..]); }
  }

  lemma {:induction false} CheckKeeps(ws: Workspace, st: State, files: seq<FileRecord>)
    requires CheckAll(ws, st, files).Ok?
    ensures CheckAll(ws, st, files).value.tombstones == st.tombstones && CheckAll(ws, st, files).value.doc == st.doc
    decreases |files|
  {
    if files != [] {
      CheckKeeps(ws, CheckStep(ws, st, files[0]), files[1..]);
    }
  }

  ghost predicate Rising(ks: seq<nat>) {
    forall i, j :: 0 <= i < j < |ks| ==> ks[i] < ks[j]
  }

  /** The places `ks` of `files` hold the records `rs`. */
  ghost predicate Places(files: seq<FileRecord>, ks: seq<nat>, rs: seq<FileRecord>) {
    |ks| == |rs| && forall i :: 0 <= i < |ks| ==> ks[i] < |files| && files[ks[i]] == rs[i]
  }

  /** Where the doomed records stand, from first to last. */
  lemma {:induction false} DoomedOrder(files: seq<FileRecord>, ids: set<string>) returns (ks: seq<nat>)
    ensures Places(files, ks, Doomed(files, ids)) && Rising(ks)
  {
    if files == [] {
      ks := [];
    } else {
      var rest := DoomedOrder(files[1..], ids);
      var later := Map((k: nat) => k + 1, rest);
      ks := if files[0].id in ids then [0] + later else later;
      hide Ordering.Map;
      PlacesMore(files, rest, later, Doomed(files[1..], ids));
    }
  }

  lemma PlacesMore(files: seq<FileRecord>, rest: seq<nat>, later: seq<nat>, rs: seq<FileRecord>)
    requires files != [] && Places(files[1..], rest, rs) && Rising(rest)
    requires |later| == |rest| && forall i :: 0 <= i < |rest| ==> later[i] == rest[i] + 1
    ensures Places(files, later, rs) && Rising(later) && Places(files, [0] + later, [files[0]] + rs) && Rising([0] + later)
  {
  }

  /** The tombstone of a file that is gone: numbered `n`, with the file's last path and the time its record now has, no revision yet. */
  ghost predicate Marks(x: Scene, p: State, k: nat, t: Tombstone, n: nat, device: Option<string>) {
    && k < |x.files| && k < |p.doc.files| && Gone(x, x.files[k]) && p.doc.files[k].updatedAt > x.files[k].updatedAt
    && t == Tombstone(x.files[k].id, None, p.doc.files[k].updatedAt, n, x.files[k].path, device)
  }

  ghost predicate Among(x: Scene, ks: seq<nat>, r: FileRecord) {
    exists k :: k in ks && k < |x.files| && x.files[k] == r
  }

  /** Main result: a plan adds to the tombstones one for each file that is gone, in the order `ks` of the document, numbered on. */
  lemma TombstonesAre(x: Scene, doc: Document, ts: seq<Tombstone>, deleteSeq: nat, device: Option<string>, p: State) returns (ks: seq<nat>)
    requires Plan(x, doc, ts, deleteSeq, device, p)
    ensures Rising(ks) && forall r :: Gone(x, r) ==> Among(x, ks, r)
    ensures |p.tombstones| == |ts| + |ks| && p.tombstones[..|ts|] == ts && p.deleteSeq == deleteSeq + |ks|
    ensures forall i :: 0 <= i < |ks| ==> Marks(x, p, ks[i], p.tombstones[|ts| + i], deleteSeq + 1 + i, device)
  {
    hide *;
    PlanScene(x, doc, ts, deleteSeq, device, p);
    TombstonesExact(x, doc, ts, deleteSeq, device, p);
    PlanDated(x, doc, ts, deleteSeq, device, p);
    var lost := Doomed(x.files, Lost(x));
    ks := DoomedOrder(x.files, Lost(x));
    LostAreGone(x, lost);
    BuriedLength(p.tombstones[|ts|..], lost, deleteSeq, device);
    PlacesLength(x.files, ks, lost);
    forall r | Gone(x, r)
      ensures Among(x, ks, r)
    {
      GoneListed(x, r);
      PlacedAmong(x, ks, lost, r);
    }
    forall i | 0 <= i < |ks|
      ensures Marks(x, p, ks[i], p.tombstones[|ts| + i], deleteSeq + 1 + i, device)
    {
      PlacedAt(x.files, ks, lost, i);
      RecordsEnd(x, doc, ts, deleteSeq, device, p, ks[i]);
      MarkAt(x, p, ks[i], p.tombstones[|ts|..], lost, i, deleteSeq, device);
    }
  }

  lemma PlanScene(x: Scene, doc: Document, ts: seq<Tombstone>, deleteSeq: nat, device: Option<string>, p: State)
    requires Plan(x, doc, ts, deleteSeq, device, p)
    ensures SceneOk(x)
  {
  }

  lemma BuriedLength(ts: seq<Tombstone>, rs: seq<FileRecord>, from: nat, device: Option<string>)
    requires Buried(ts, rs, from, device)
    ensures |ts| == |rs|
  {
  }

  lemma PlacesLength(files: seq<FileRecord>, ks: seq<nat>, rs: seq<FileRecord>)
    requires Places(files, ks, rs)
    ensures |ks| == |rs|
  {
  }

  lemma PlacedAt(files: seq<FileRecord>, ks: seq<nat>, rs: seq<FileRecord>, i: nat)
    requires Places(files, ks, rs) && i < |ks|
    ensures i < |rs| && ks[i] < |files| && files[ks[i]] == rs[i]
  {
  }

  lemma PlacedAmong(x: Scene, ks: seq<nat>, rs: seq<FileRecord>, r: FileRecord)
    requires Places(x.files, ks, rs) && r in rs
    ensures Among(x, ks, r)
  {
    var i :| 0 <= i < |rs| && rs[i] == r;
    assert ks[i] in ks;
  }

  lemma GoneListed(x: Scene, r: FileRecord)
    requires Gone(x, r)
    ensures r in x.files
  {
  }

  lemma LostAreGone(x: Scene, lost: seq<FileRecord>)
    requires SceneOk(x)
    requires forall r :: r in lost <==> r in x.files && Tracked(x.env, r) && r.path !in x.ws && r.id !in RenamedIds(MatchRenames(x.files, x.changes))
    ensures forall r :: r in x.files ==> (r in lost <==> Gone(x, r))
  {
    hide SceneOk, MatchRenames, Watched, Tracked, RenamedTo, RenamedIds;
    forall r | r in x.files
      ensures r in lost <==> Gone(x, r)
    {
      WatchedIs(x, r);
      if Watched(x, r) { RenamedIdsAre(x, r); }
    }
  }

  lemma MarkAt(x: Scene, p: State, k: nat, ts: seq<Tombstone>, lost: seq<FileRecord>, i: nat, from: nat, device: Option<string>)
    requires k < |x.files| && k < |p.doc.files| && Ends(x, x.files[k], p.doc.files[k])
    requires Buried(ts, lost, from, device) && i < |lost| && lost[i] == x.files[k] && Gone(x, x.files[k]) && Dated(p.doc.files, ts)
    ensures Marks(x, p, k, ts[i], from + 1 + i, device)
  {
    GoneEnds(x, x.files[k], p.doc.files[k]);
    hide Gone, Ends;
    assert p.doc.files[k] in p.doc.files && ts[i] in ts;
  }

  lemma GoneEnds(x: Scene, r: FileRecord, s: FileRecord)
    requires Gone(x, r) && Ends(x, r, s)
    ensures s.id == r.id
  {
  }
}