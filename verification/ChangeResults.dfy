/** Main results about local change planning. */
module ChangeResults {
  import opened Basics
  import opened Ordering
  import opened ChangePlan
  import opened ChangeFacts
  import opened ChangeStages
  import opened ChangeProofs

  /** A plan for the scene, from the given tombstones and delete counter. */
  ghost predicate Plan(x: Scene, doc: Document, ts: seq<Tombstone>, deleteSeq: nat, device: Option<string>, p: State) {
    SceneOk(x) && doc.files == x.files && Planned(x.env, x.ws, doc, x.changes, ts, deleteSeq, device) == Ok(p)
  }

  lemma Unpack(x: Scene, doc: Document, ts: seq<Tombstone>, deleteSeq: nat, device: Option<string>, p: State) returns (a: State)
    requires Plan(x, doc, ts, deleteSeq, device, p)
    ensures SceneOk(x) && Supported(x.changes) && StageOk(x, Outcome(x), a) && UniqueIds(a.doc.files) && AllSteady(x.ws, a, a.doc.files)
    ensures ReadRest(x.ws, a, a.doc.files, p) && p.doc == a.doc
    ensures p.deleteSeq == a.deleteSeq && p.tombstones == a.tombstones && Reached(x, ts, deleteSeq, device, a)
  {
    a := PlanFinished(x, doc, ts, deleteSeq, device);
    hide Planned, StageOk, Outcome, SceneOk, UniqueIds, AllSteady, Supported, Buried, Doomed;
  }

  /** Main result: each record is kept, refreshed, renamed onto its unrivalled match or deleted; never two of these,
      and always the one its file calls for. */
  lemma EveryRecordOnce(x: Scene, doc: Document, ts: seq<Tombstone>, deleteSeq: nat, device: Option<string>, p: State, k: nat)
    requires Plan(x, doc, ts, deleteSeq, device, p) && k < |x.files|
    ensures k < |p.doc.files| && Fate(x, x.files[k], p.doc.files[k])
  {
    var a := Unpack(x, doc, ts, deleteSeq, device, p);
    hide *;
    RecordFate(x, a, k);
  }

  /** Main result: the tombstones are the old ones and one new one for each lost file, in document order, numbered on. */
  lemma TombstonesExact(x: Scene, doc: Document, ts: seq<Tombstone>, deleteSeq: nat, device: Option<string>, p: State)
    requires Plan(x, doc, ts, deleteSeq, device, p)
    ensures var lost := Doomed(x.files, Lost(x));
            && p.deleteSeq == deleteSeq + |lost| && |p.tombstones| >= |ts| && p.tombstones[..|ts|] == ts
            && Buried(p.tombstones[|ts|..], lost, deleteSeq, device)
            && UniqueIds(lost)
            && forall r :: r in lost <==> r in x.files && Tracked(x.env, r) && r.path !in x.ws && r.id !in RenamedIds(MatchRenames(x.files, x.changes))
  {
    var a := Unpack(x, doc, ts, deleteSeq, device, p);
    DoomedAre(x.files, Lost(x));
    assert UniqueIds(x.files);
    forall r | r in x.files { RecordStatus(x, r); }
    hide SceneOk, StageOk, Doomed, Buried, MatchRenames, IdsOf, RenamedIds, Supported, AllSteady, ReadRest, Planned, Tracked, UniqueIds, Outcome;
  }

  lemma {:induction false} DoomedAre(files: seq<FileRecord>, ids: set<string>)
    ensures forall r :: r in Doomed(files, ids) <==> r in files && r.id in ids
    ensures UniqueIds(files) ==> UniqueIds(Doomed(files, ids))
  {
    if files != [] {
      assert files == [files[0]] + files[1..];
      DoomedAre(files[1..], ids);
      var rest := Doomed(files[1..], ids);
      if UniqueIds(files) {
        HeadApart(files);
        assert forall i :: 0 <= i < |rest| ==> rest[i] in rest && rest[i] in files[1..];
      }
    }
  }

  lemma ActiveRead(x: Scene, a: State, s: FileRecord)
    requires StageOk(x, Outcome(x), a) && AllSteady(x.ws, a, a.doc.files) && s in a.doc.files && s.status.Active?
    ensures s.path in x.ws && s.hash == HashAt(x.ws, s.path)
  {
    hide FilesOk, Outcome;
  }

  /** Main result: the content map holds exactly the active files of the planned document, each with the bytes
      on disk at its path, which hash to its record. */
  lemma ContentExact(x: Scene, doc: Document, ts: seq<Tombstone>, deleteSeq: nat, device: Option<string>, p: State)
    requires Plan(x, doc, ts, deleteSeq, device, p)
    ensures forall s :: s in p.doc.files && s.status.Active? ==>
              s.id in p.content && s.path in x.ws && p.content[s.id] == x.ws[s.path].bytes && s.hash == Some(Sha256(p.content[s.id]))
    ensures forall id :: id in p.content ==> HasActive(p.doc.files, id)
  {
    var a := Unpack(x, doc, ts, deleteSeq, device, p);
    hide SceneOk, Plan, Reached, Planned, Supported, Outcome, UniqueIds, StageOk, AllSteady;
    forall s | s in p.doc.files && s.status.Active?
      ensures s.id in p.content && s.path in x.ws && p.content[s.id] == x.ws[s.path].bytes && s.hash == Some(Sha256(p.content[s.id]))
    {
      ActiveRead(x, a, s);
      assert HasActive(a.doc.files, s.id);
      if s.id in a.content { ReadBytes(x, a, s); }
    }
    forall id | id in p.content
      ensures HasActive(p.doc.files, id)
    {
      if id in a.content { ReadIsActive(x, a, id); }
    }
  }

  lemma ReadBytes(x: Scene, a: State, s: FileRecord)
    requires StageOk(x, Outcome(x), a) && s in a.doc.files && s.id in a.content
    ensures s.path in x.ws && a.content[s.id] == x.ws[s.path].bytes && s.status.Active?
  {
    hide FilesOk, Outcome;
  }

  lemma ReadIsActive(x: Scene, a: State, id: string)
    requires SceneOk(x) && StageOk(x, Outcome(x), a) && id in a.content
    ensures HasActive(a.doc.files, id)
  {
    StageParts(x, Outcome(x), a);
    OutcomeParts(x);
    OrderedIsSame(x);
    hide SceneOk, StageOk, Outcome, FilesOk, Reads, UniqueIds, Detected, FreshIds, Tracked, IdsOf, MatchRenames;
    if id in AddedIds(x, Outcome(x).added) {
      AddedExists(x, a, id);
    } else {
      var k := ReadRecord(x, a, id);
      BecomesAt(x, Outcome(x), a.doc.files, k);
      var s := a.doc.files[k];
      assert s in a.doc.files;
      ReadBytes(x, a, s);
    }
  }

  lemma ReadRecord(x: Scene, a: State, id: string) returns (k: nat)
    requires SceneOk(x) && (id in IdsOf(x.changes, Modified) || id in RenamedIds(MatchRenames(x.files, x.changes)))
    ensures k < |x.files| && x.files[k].id == id
  {
    var r: FileRecord;
    if id in IdsOf(x.changes, Modified) {
      var c :| c in x.changes && c.kind == Modified && c.id == Some(id);
      ChangedRecord(x, c);
      r :| r in x.files && r.id == id;
    } else {
      MatchedRenames(x.env, x.ws, x.files, x.changes);
      var e :| e in MatchRenames(x.files, x.changes) && e.id == id;
      assert GoodRename(x.env, x.ws, x.files, x.changes, e);
      r :| r in x.files && r.id == id;
    }
    k :| 0 <= k < |x.files| && x.files[k] == r;
  }

  lemma AddedExists(x: Scene, a: State, id: string)
    requires FilesOk(x, Outcome(x), a.doc.files) && id in AddedIds(x, Outcome(x).added)
    ensures HasActive(a.doc.files, id)
  {
    var added := Outcome(x).added;
    hide Outcome, Becomes;
    var c :| c in added && x.env.newId(c.path) == id;
    var j :| 0 <= j < |added| && added[j] == c;
    assert IsAdded(x, added[j], a.doc.files[|x.files| + j]);
    assert a.doc.files[|x.files| + j] in a.doc.files;
  }

  // Untracked files.

  ghost predicate LiveAt(files: seq<FileRecord>, k: nat, path: string) {
    k < |files| && files[k].status.Active? && files[k].path == path
  }

  /** An untracked file gets a live record: the one renamed to it, or a new one. */
  lemma UntrackedGetsRecord(x: Scene, a: State, path: string) returns (k: nat)
    requires SceneOk(x) && StageOk(x, Outcome(x), a) && IsUntracked(x.env, x.ws, x.files, path)
    ensures LiveAt(a.doc.files, k, path)
  {
    hide *;
    if path in Consumed(MatchRenames(x.files, x.changes)) {
      var e := ConsumedBy(MatchRenames(x.files, x.changes), path);
      k := RenamedTo(x, a, e);
    } else {
      k := AddedAt(x, a, path);
    }
  }

  lemma ConsumedBy(rs: seq<Rename>, path: string) returns (e: Rename)
    requires path in Consumed(rs)
    ensures e in rs && e.target.path == path
  {
    e :| e in rs && e.target.path == path;
  }

  lemma UntrackedReported(x: Scene, path: string)
    requires SceneOk(x) && IsUntracked(x.env, x.ws, x.files, path)
    ensures UntrackedChange(x.env, x.ws, path) in x.changes
  {
    DetectedExactly(x.env, x.ws, x.files, x.changes);
    hide SceneOk, Detected, UniqueIds, IsUntracked;
    assert IsChange(x.env, x.ws, x.files, UntrackedChange(x.env, x.ws, path));
  }

  lemma AddedAt(x: Scene, a: State, path: string) returns (k: nat)
    requires SceneOk(x) && StageOk(x, Outcome(x), a) && IsUntracked(x.env, x.ws, x.files, path)
    requires path !in Consumed(MatchRenames(x.files, x.changes))
    ensures LiveAt(a.doc.files, k, path)
  {
    hide *;
    UntrackedReported(x, path);
    StageParts(x, Outcome(x), a);
    var j := AdditionIndex(x, path);
    k := |x.files| + j;
    AdditionAt(x, Outcome(x), a.doc.files, j);
  }

  lemma AdditionIndex(x: Scene, path: string) returns (j: nat)
    requires UntrackedChange(x.env, x.ws, path) in x.changes && path !in Consumed(MatchRenames(x.files, x.changes))
    ensures j < |Outcome(x).added| && Outcome(x).added[j].path == path
  {
    hide MatchRenames, Additions, Consumed, HashAt;
    AdditionsAre(x.changes, Consumed(MatchRenames(x.files, x.changes)));
    OutcomeParts(x);
    hide Outcome;
    j :| 0 <= j < |Outcome(x).added| && Outcome(x).added[j] == UntrackedChange(x.env, x.ws, path);
  }

  lemma AdditionAt(x: Scene, d: Done, files: seq<FileRecord>, j: nat)
    requires FilesOk(x, d, files) && j < |d.added|
    ensures LiveAt(files, |x.files| + j, d.added[j].path)
  {
    hide Becomes;
    assert IsAdded(x, d.added[j], files[|x.files| + j]);
  }

  lemma RenameIndex(x: Scene, e: Rename) returns (k: nat)
    requires SceneOk(x) && e in MatchRenames(x.files, x.changes)
    ensures k < |x.files| && x.files[k].id == e.id && x.files[k].status.Active?
  {
    MatchedRenames(x.env, x.ws, x.files, x.changes);
    hide MatchRenames, UniqueIds, Detected, FreshIds, IsUntracked, Tracked;
    assert GoodRename(x.env, x.ws, x.files, x.changes, e);
    var r :| r in x.files && r.id == e.id && r.status.Active?;
    k :| 0 <= k < |x.files| && x.files[k] == r;
  }

  lemma RenamedTo(x: Scene, a: State, e: Rename) returns (k: nat)
    requires SceneOk(x) && StageOk(x, Outcome(x), a) && e in MatchRenames(x.files, x.changes)
    ensures k < |x.files| && x.files[k].id == e.id && LiveAt(a.doc.files, k, e.target.path)
  {
    hide MatchRenames, Outcome, StageOk, FilesOk, SceneOk, UniqueIds, Detected, FreshIds, Reads, AddedIds, RenamedIds;
    k := RenameIndex(x, e);
    StageParts(x, Outcome(x), a);
    BecomesAt(x, Outcome(x), a.doc.files, k);
    OutcomeParts(x);
    OrderedIsSame(x);
    assert e in Outcome(x).renamed;
  }

  /** No record sits on an untracked path. */
  lemma NotSitting(x: Scene, k: nat, path: string)
    requires IsUntracked(x.env, x.ws, x.files, path) && k < |x.files|
    ensures x.files[k].path != path || x.files[k].status == Deleted
  {
    assert x.files[k] in x.files;
  }

  /** The record at `k` is renamed onto the path. */
  ghost predicate Onto(x: Scene, k: nat, path: string) {
    k < |x.files| && exists e :: e in MatchRenames(x.files, x.changes) && e.id == x.files[k].id && e.target.path == path
  }

  /** The path is the one at `n` that gets a new record. */
  ghost predicate New(x: Scene, n: nat, path: string) {
    n < |Outcome(x).added| && Outcome(x).added[n].path == path
  }

  lemma OldLive(x: Scene, a: State, k: nat, path: string)
    requires SceneOk(x) && StageOk(x, Outcome(x), a) && IsUntracked(x.env, x.ws, x.files, path) && LiveAt(a.doc.files, k, path) && k < |x.files|
    ensures Onto(x, k, path)
  {
    hide SceneOk, StageOk, MatchRenames, RenamedIds, HashAt, Lost, Outcome, IsUntracked;
    RecordFate(x, a, k);
    NotSitting(x, k, path);
  }

  lemma NewLive(x: Scene, a: State, k: nat, path: string)
    requires SceneOk(x) && StageOk(x, Outcome(x), a) && LiveAt(a.doc.files, k, path) && k >= |x.files|
    ensures New(x, k - |x.files|, path)
  {
    hide SceneOk, StageOk, Outcome;
    AddedRead(x, a, k);
  }

  /** A live record on an untracked path is the renamed one, or the added one. */
  lemma LiveIs(x: Scene, a: State, k: nat, path: string)
    requires SceneOk(x) && StageOk(x, Outcome(x), a) && IsUntracked(x.env, x.ws, x.files, path) && LiveAt(a.doc.files, k, path)
    ensures if k < |x.files| then Onto(x, k, path) else New(x, k - |x.files|, path)
  {
    hide *;
    if k < |x.files| {
      OldLive(x, a, k, path);
    } else {
      NewLive(x, a, k, path);
    }
  }

  /** Main result: each untracked file ends up with exactly one live record. */
  lemma EveryFileOnce(x: Scene, doc: Document, ts: seq<Tombstone>, deleteSeq: nat, device: Option<string>, p: State, path: string)
    requires Plan(x, doc, ts, deleteSeq, device, p) && IsUntracked(x.env, x.ws, x.files, path)
    ensures exists k :: LiveAt(p.doc.files, k, path) && forall j :: LiveAt(p.doc.files, j, path) ==> j == k
  {
    var a := Unpack(x, doc, ts, deleteSeq, device, p);
    hide *;
    var k := UntrackedGetsRecord(x, a, path);
    forall j | LiveAt(p.doc.files, j, path)
      ensures j == k
    {
      SameLive(x, a, j, k, path);
    }
  }

  lemma SameLive(x: Scene, a: State, i: nat, j: nat, path: string)
    requires SceneOk(x) && StageOk(x, Outcome(x), a) && IsUntracked(x.env, x.ws, x.files, path)
    requires LiveAt(a.doc.files, i, path) && LiveAt(a.doc.files, j, path)
    ensures i == j
  {
    hide *;
    LiveIs(x, a, i, path);
    LiveIs(x, a, j, path);
    if i < |x.files| && j < |x.files| {
      OneOnto(x, i, j, path);
    } else if i >= |x.files| && j >= |x.files| {
      OneNew(x, i - |x.files|, j - |x.files|, path);
    } else if i < |x.files| {
      NotBoth(x, i, j - |x.files|, path);
    } else {
      NotBoth(x, j, i - |x.files|, path);
    }
  }

  lemma OneOnto(x: Scene, i: nat, j: nat, path: string)
    requires SceneOk(x) && Onto(x, i, path) && Onto(x, j, path)
    ensures i == j
  {
    MatchedRenames(x.env, x.ws, x.files, x.changes);
    assert UniqueIds(x.files);
    hide MatchRenames, GoodRename, SceneOk, Detected;
    var e :| e in MatchRenames(x.files, x.changes) && e.id == x.files[i].id && e.target.path == path;
    var f :| f in MatchRenames(x.files, x.changes) && f.id == x.files[j].id && f.target.path == path;
    assert e == f;
  }

  lemma OneNew(x: Scene, i: nat, j: nat, path: string)
    requires SceneOk(x) && New(x, i, path) && New(x, j, path)
    ensures i == j
  {
    hide Outcome, SceneOk, UntrackedChange;
    AdditionsOk(x);
  }

  lemma NotBoth(x: Scene, i: nat, n: nat, path: string)
    requires Onto(x, i, path)
    ensures !New(x, n, path)
  {
    hide Outcome, MatchRenames, Additions;
    AdditionsAre(x.changes, Consumed(MatchRenames(x.files, x.changes)));
    OutcomeParts(x);
    assert n < |Outcome(x).added| ==> Outcome(x).added[n] in Outcome(x).added;
  }

  // The fixpoint.

  lemma NoRecordChange(x: Scene, a: State, s: FileRecord)
    requires SceneOk(x) && Supported(x.changes) && StageOk(x, Outcome(x), a) && AllSteady(x.ws, a, a.doc.files)
    requires s in a.doc.files && Tracked(x.env, s)
    ensures ChangeOf(x.ws, s).None?
  {
    if s.status.Active? {
      ActiveRead(x, a, s);
    } else {
      var k :| 0 <= k < |a.doc.files| && a.doc.files[k] == s;
      if k < |x.files| {
        assert x.files[k] in x.files;
        RecordFate(x, a, k);
        RecordStatus(x, x.files[k]);
        CopyUnchanged(x, x.files[k]);
        hide SceneOk, StageOk, Supported, Outcome, MatchRenames, RenamedIds, Lost, IdsOf, AllSteady;
      } else {
        AddedRead(x, a, k);
      }
    }
    hide SceneOk, StageOk, Supported, Outcome, MatchRenames, RenamedIds, Lost, IdsOf, AllSteady, Fate;
  }

  /** Conflict copies have no changes, or the plan would have been refused. */
  lemma CopyUnchanged(x: Scene, r: FileRecord)
    requires SceneOk(x) && Supported(x.changes) && r in x.files && r.status == ConflictCopy
    ensures r.id !in IdsOf(x.changes, Modified) && r.id !in IdsOf(x.changes, Missing)
  {
    hide SceneOk, Supported, IdsOf;
    if r.id in IdsOf(x.changes, Modified) || r.id in IdsOf(x.changes, Missing) { SupportedActive(x, r); }
  }

  lemma NoUntracked(x: Scene, a: State, path: string)
    requires SceneOk(x) && StageOk(x, Outcome(x), a)
    ensures !IsUntracked(x.env, x.ws, a.doc.files, path)
  {
    hide SceneOk, StageOk, Outcome, Fate, MatchRenames, HashAt;
    if IsUntracked(x.env, x.ws, a.doc.files, path) {
      var k: nat;
      if IsUntracked(x.env, x.ws, x.files, path) {
        k := UntrackedGetsRecord(x, a, path);
      } else {
        k := StillTracked(x, a, path);
      }
      LiveIsTracked(x.env, a.doc.files, k, path);
    }
  }

  ghost predicate SitsAt(files: seq<FileRecord>, k: nat, path: string) {
    k < |files| && files[k].status != Deleted && files[k].path == path
  }

  lemma LiveIsTracked(env: Env, files: seq<FileRecord>, k: nat, path: string)
    requires (LiveAt(files, k, path) || SitsAt(files, k, path)) && !env.volatile(path)
    ensures TrackedPath(env, files, path)
  {
    assert files[k] in files && Tracked(env, files[k]);
  }

  /** A tracked file that is there keeps its record on its path. */
  lemma StillTracked(x: Scene, a: State, path: string) returns (k: nat)
    requires SceneOk(x) && StageOk(x, Outcome(x), a) && path in x.ws && TrackedPath(x.env, x.files, path)
    ensures SitsAt(a.doc.files, k, path)
  {
    hide SceneOk, StageOk, Outcome, MatchRenames, RenamedIds, Lost, HashAt;
    var r :| r in x.files && Tracked(x.env, r) && r.path == path;
    k :| 0 <= k < |x.files| && x.files[k] == r;
    RecordFate(x, a, k);
  }

  /** Main result: if the workspace stays as it is, detecting changes against the planned document finds none. */
  lemma PlanningIsAFixpoint(x: Scene, doc: Document, ts: seq<Tombstone>, deleteSeq: nat, device: Option<string>, p: State, again: seq<Change>)
    requires Plan(x, doc, ts, deleteSeq, device, p) && Detected(x.env, x.ws, p.doc.files, again)
    ensures again == []
  {
    var a := Unpack(x, doc, ts, deleteSeq, device, p);
    DetectedExactly(x.env, x.ws, p.doc.files, again);
    hide SceneOk, StageOk, Supported, Outcome, AllSteady, Plan, Reached, ReadRest, UniqueIds, Detected, Tracked, IsUntracked, ChangeOf;
    if again != [] {
      var c := again[0];
      assert c in again && IsChange(x.env, x.ws, p.doc.files, c);
      if exists s :: s in p.doc.files && Tracked(x.env, s) && ChangeOf(x.ws, s) == Some(c) {
        var s :| s in p.doc.files && Tracked(x.env, s) && ChangeOf(x.ws, s) == Some(c);
        NoRecordChange(x, a, s);
      } else {
        NoUntracked(x, a, c.path);
      }
    }
  }
}
