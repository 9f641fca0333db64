/** The commit plan: when it succeeds, what it contains, and why planning again finds nothing. */
module ChangeProofs {
  import opened Basics
  import opened Ordering
  import opened ChangePlan
  import opened ChangeFacts
  import opened ChangeStages

  /** Renames in the order they are carried out. */
  function Ordered(x: Scene): seq<Rename> {
    Sort(MatchRenames(x.files, x.changes), RenameLeq)
  }

  /** The records that are neither there nor renamed. */
  function Lost(x: Scene): set<string> {
    IdsOf(x.changes, Missing) - RenamedIds(MatchRenames(x.files, x.changes))
  }

  /** Everything the plan does to the document. */
  function Outcome(x: Scene): Done {
    Done(IdsOf(x.changes, Modified), Ordered(x), IdsUpTo(x.files, |x.files|, Lost(x)), Additions(x.changes, Consumed(MatchRenames(x.files, x.changes))))
  }

  ghost predicate Supported(changes: seq<Change>) {
    !exists c :: c in changes && IsUnsupported(c)
  }

  predicate AnythingToDo(changes: seq<Change>, ts: seq<Tombstone>) {
    changes != [] || exists t :: t in ts && t.revision.None?
  }

  lemma OrderedIsSame(x: Scene)
    ensures Consumed(Ordered(x)) == Consumed(MatchRenames(x.files, x.changes))
    ensures RenamedIds(Ordered(x)) == RenamedIds(MatchRenames(x.files, x.changes))
    ensures forall e :: e in Ordered(x) <==> e in MatchRenames(x.files, x.changes)
  {
    hide MatchRenames, Sort;
    SameElements(Ordered(x), MatchRenames(x.files, x.changes));
  }

  lemma ChangedRecord(x: Scene, c: Change)
    requires SceneOk(x) && c in x.changes && c.id.Some?
    ensures exists r :: r in x.files && r.id == c.id.value && Tracked(x.env, r) && ChangeOf(x.ws, r) == Some(c)
  {
    DetectedExactly(x.env, x.ws, x.files, x.changes);
    hide SceneOk, UniqueIds, Detected;
    assert IsChange(x.env, x.ws, x.files, c);
  }

  /** A record is among the modified ids exactly when detection finds its file changed, and so for missing. */
  lemma RecordStatus(x: Scene, r: FileRecord)
    requires SceneOk(x) && r in x.files
    ensures r.id in IdsOf(x.changes, Modified) <==> Tracked(x.env, r) && r.path in x.ws && HashAt(x.ws, r.path) != r.hash
    ensures r.id in IdsOf(x.changes, Missing) <==> Tracked(x.env, r) && r.path !in x.ws
  {
    DetectedExactly(x.env, x.ws, x.files, x.changes);
    var hit := ChangeOf(x.ws, r);
    assert Tracked(x.env, r) && hit.Some? ==> IsChange(x.env, x.ws, x.files, hit.value);
    forall c | c in x.changes && c.id == Some(r.id)
      ensures Tracked(x.env, r) && hit == Some(c)
    {
      ChangedRecord(x, c);
      var q :| q in x.files && q.id == r.id && Tracked(x.env, q) && ChangeOf(x.ws, q) == Some(c);
      SameRecord(x.files, q, r);
    }
    hide SceneOk, UniqueIds, Detected, Tracked, IsChange;
  }

  lemma SupportedActive(x: Scene, r: FileRecord)
    requires SceneOk(x) && Supported(x.changes) && r in x.files && (r.id in IdsOf(x.changes, Modified) || r.id in IdsOf(x.changes, Missing))
    ensures r.status.Active?
  {
    RecordStatus(x, r);
    DetectedExactly(x.env, x.ws, x.files, x.changes);
    var hit := ChangeOf(x.ws, r);
    hide SceneOk, UniqueIds, Detected, Tracked;
    assert IsChange(x.env, x.ws, x.files, hit.value);
  }

  lemma CanRefresh(x: Scene)
    requires SceneOk(x) && Supported(x.changes)
    ensures Refreshable(x.ws, x.files, IdsOf(x.changes, Modified))
  {
    hide SceneOk, Supported, IdsOf;
    forall r | r in x.files && r.id in IdsOf(x.changes, Modified)
      ensures r.path in x.ws && r.status.Active?
    {
      RecordStatus(x, r);
      SupportedActive(x, r);
    }
  }

  lemma RenamesPending(x: Scene)
    requires SceneOk(x)
    ensures AllPending(x, Done(IdsOf(x.changes, Modified), [], {}, []), Ordered(x))
    ensures RenamedIds(Ordered(x)) !! IdsOf(x.changes, Modified)
  {
    var d := Done(IdsOf(x.changes, Modified), [], {}, []);
    var rs := MatchRenames(x.files, x.changes);
    MatchedRenames(x.env, x.ws, x.files, x.changes);
    OrderedIsSame(x);
    OrderedApart(x);
    hide SceneOk, MatchRenames, IdsOf, Ordered;
    forall e | e in Ordered(x)
      ensures Pending(x, d, e)
    {
      assert e in rs && GoodRename(x.env, x.ws, x.files, x.changes, e);
      GoodIsMissing(x, e);
    }
  }

  lemma GoodIsMissing(x: Scene, e: Rename)
    requires SceneOk(x) && GoodRename(x.env, x.ws, x.files, x.changes, e)
    ensures e.id !in IdsOf(x.changes, Modified) && e.id in IdsOf(x.changes, Missing)
  {
    var r :| r in x.files && r.id == e.id && r.status.Active? && Tracked(x.env, r) && r.path !in x.ws;
    hide SceneOk, IdsOf, Tracked;
    RecordStatus(x, r);
  }

  lemma OrderedApart(x: Scene)
    requires GoodRenames(x.env, x.ws, x.files, x.changes, MatchRenames(x.files, x.changes))
    ensures forall i, j :: 0 <= i < j < |Ordered(x)| ==> Ordered(x)[i].id != Ordered(x)[j].id && Ordered(x)[i].target.path != Ordered(x)[j].target.path
  {
    var rs, os := MatchRenames(x.files, x.changes), Ordered(x);
    hide MatchRenames, Sort, GoodRename, Ordering.Map;
    var id, path := (e: Rename) => e.id, (e: Rename) => e.target.path;
    assert multiset(os) == multiset(rs);
    MapPermutes(id, rs, os);
    MapPermutes(path, rs, os);
    assert NoDup(Map(id, rs)) && NoDup(Map(path, rs));
    NoDupPermutes(Map(id, rs), Map(id, os));
    NoDupPermutes(Map(path, rs), Map(path, os));
    assert forall i :: 0 <= i < |os| ==> Map(id, os)[i] == os[i].id && Map(path, os)[i] == os[i].target.path;
  }

  lemma ModifiedListed(x: Scene)
    requires SceneOk(x)
    ensures forall id :: id in IdsOf(x.changes, Modified) ==> HasId(x.files, id)
  {
    hide SceneOk;
    forall id | id in IdsOf(x.changes, Modified)
      ensures HasId(x.files, id)
    {
      var c :| c in x.changes && c.id == Some(id);
      ChangedRecord(x, c);
    }
  }

  lemma RefreshedFilesOk(x: Scene, ids: set<string>, after: seq<FileRecord>)
    requires RefreshedFiles(x.env, x.ws, x.files, ids, after)
    ensures FilesOk(x, Done(ids, [], {}, []), after)
  {
  }

  lemma RefreshedContent(x: Scene, ids: set<string>, st: State)
    requires Refreshed(x.env, x.ws, x.files, ids, st) && forall id :: id in ids ==> HasId(x.files, id)
    ensures st.content.Keys == ids + RenamedIds([]) + AddedIds(x, []) && Reads(x.ws, st)
    ensures RefreshedFiles(x.env, x.ws, x.files, ids, st.doc.files)
  {
    hide Reads, HasId, RefreshedFiles;
    assert AddedIds(x, []) == {} && RenamedIds([]) == {};
  }

  /** The refreshed document is the first stage. */
  lemma RefreshedStage(x: Scene, st: State)
    requires SceneOk(x) && Refreshed(x.env, x.ws, x.files, IdsOf(x.changes, Modified), st)
    ensures StageOk(x, Done(IdsOf(x.changes, Modified), [], {}, []), st)
  {
    hide *;
    var ids := IdsOf(x.changes, Modified);
    ModifiedListed(x);
    RefreshedContent(x, ids, st);
    RefreshedFilesOk(x, ids, st.doc.files);
    MakeStage(x, Done(ids, [], {}, []), st);
  }

  /** The plan runs all its stages and ends in the final check. */
  ghost predicate Reached(x: Scene, ts: seq<Tombstone>, deleteSeq: nat, device: Option<string>, a: State) {
    && StageOk(x, Outcome(x), a)
    && a.deleteSeq == deleteSeq + |Doomed(x.files, Lost(x))|
    && |a.tombstones| >= |ts| && a.tombstones[..|ts|] == ts
    && Buried(a.tombstones[|ts|..], Doomed(x.files, Lost(x)), deleteSeq, device)
  }

  lemma Stages(x: Scene, doc: Document, ts: seq<Tombstone>, deleteSeq: nat, device: Option<string>) returns (a: State)
    requires SceneOk(x) && doc.files == x.files && Supported(x.changes) && AnythingToDo(x.changes, ts)
    ensures Reached(x, ts, deleteSeq, device, a)
    ensures Planned(x.env, x.ws, doc, x.changes, ts, deleteSeq, device) == CheckAll(x.ws, a, a.doc.files)
  {
    hide *;
    var rs := MatchRenames(x.files, x.changes);
    var start := State(doc.(files := []), map[], ts, deleteSeq);
    var refreshed := RefreshedFrom(x, start);
    var d := Done(IdsOf(x.changes, Modified), [], {}, []);
    RefreshedStage(x, refreshed);
    RenamesPending(x);
    RenameStages(x, d, refreshed, Ordered(x));
    var renamed := RenameAll(x.env, x.ws, x.files, refreshed, Ordered(x)).value;
    var d1 := d.(renamed := d.renamed + Ordered(x));
    assert d1.renamed == Ordered(x);
    OrderedIsSame(x);
    LostApart(x);
    NoIdsUpTo(x.files, Lost(x));
    assert x.files[0..] == x.files;
    DeleteStages(x, d1, renamed, 0, Lost(x), device);
    var deleted := DeleteAll(renamed, x.files, Lost(x), device);
    var d2 := d1.(deleted := IdsUpTo(x.files, |x.files|, Lost(x)));
    NoAdditions(x.changes, Consumed(rs));
    assert x.changes[0..] == x.changes;
    AddStages(x, d2, deleted, 0, Consumed(rs));
    a := AddAll(x.env, x.ws, deleted, x.changes, Consumed(rs)).value;
    PlanIs(x, doc, ts, deleteSeq, device, refreshed, renamed, deleted, a);
    OutcomeIs(x, d2.(added := Additions(x.changes, Consumed(rs))));
    assert deleted.tombstones[..|ts|] == ts;
    MakeReached(x, ts, deleteSeq, device, a);
  }

  lemma RefreshedFrom(x: Scene, start: State) returns (st: State)
    requires SceneOk(x) && Supported(x.changes) && start.doc.files == [] && start.content == map[]
    ensures Refresh(x.env, x.ws, x.files, IdsOf(x.changes, Modified), start) == Ok(st)
    ensures Refreshed(x.env, x.ws, x.files, IdsOf(x.changes, Modified), st) && st.tombstones == start.tombstones && st.deleteSeq == start.deleteSeq
  {
    hide *;
    var ids := IdsOf(x.changes, Modified);
    CanRefresh(x);
    SceneUnique(x);
    NothingRefreshed(x.env, x.ws, ids, start);
    assert x.files[..0] == [] && x.files[0..] == x.files;
    RefreshAll(x.env, x.ws, x.files, 0, ids, start);
    st := Refresh(x.env, x.ws, x.files, ids, start).value;
  }

  lemma SceneUnique(x: Scene)
    requires SceneOk(x)
    ensures UniqueIds(x.files)
  {
  }

  lemma NothingRefreshed(env: Env, ws: Workspace, ids: set<string>, start: State)
    requires start.doc.files == [] && start.content == map[]
    ensures Refreshed(env, ws, [], ids, start)
  {
  }

  lemma LostApart(x: Scene)
    requires SceneOk(x)
    ensures Lost(x) !! IdsOf(x.changes, Modified) && Lost(x) !! RenamedIds(MatchRenames(x.files, x.changes))
  {
    hide MatchRenames, SceneOk;
    forall id | id in Lost(x) && id in IdsOf(x.changes, Modified)
      ensures false
    {
      var c :| c in x.changes && c.kind == Missing && c.id == Some(id);
      ChangedRecord(x, c);
      var r :| r in x.files && r.id == id && Tracked(x.env, r) && ChangeOf(x.ws, r) == Some(c);
      RecordStatus(x, r);
    }
  }

  lemma NoIdsUpTo(files: seq<FileRecord>, ids: set<string>)
    ensures IdsUpTo(files, 0, ids) == {}
  {
  }

  lemma NoAdditions(changes: seq<Change>, consumed: set<string>)
    ensures Additions(changes[..0], consumed) == []
  {
  }

  lemma OutcomeIs(x: Scene, d: Done)
    requires d.modified == IdsOf(x.changes, Modified) && d.renamed == Ordered(x) && d.deleted == IdsUpTo(x.files, |x.files|, Lost(x))
    requires d.added == Additions(x.changes, Consumed(MatchRenames(x.files, x.changes)))
    ensures d == Outcome(x)
  {
  }

  lemma MakeReached(x: Scene, ts: seq<Tombstone>, deleteSeq: nat, device: Option<string>, a: State)
    requires StageOk(x, Outcome(x), a) && a.deleteSeq == deleteSeq + |Doomed(x.files, Lost(x))|
    requires |a.tombstones| >= |ts| && a.tombstones[..|ts|] == ts
    requires Buried(a.tombstones[|ts|..], Doomed(x.files, Lost(x)), deleteSeq, device)
    ensures Reached(x, ts, deleteSeq, device, a)
  {
  }

  lemma PlanIs(x: Scene, doc: Document, ts: seq<Tombstone>, deleteSeq: nat, device: Option<string>,
               refreshed: State, renamed: State, deleted: State, added: State)
    requires doc.files == x.files && Supported(x.changes) && AnythingToDo(x.changes, ts)
    requires Refresh(x.env, x.ws, x.files, IdsOf(x.changes, Modified), State(doc.(files := []), map[], ts, deleteSeq)) == Ok(refreshed)
    requires RenameAll(x.env, x.ws, x.files, refreshed, Ordered(x)) == Ok(renamed)
    requires deleted == DeleteAll(renamed, x.files, Lost(x), device)
    requires AddAll(x.env, x.ws, deleted, x.changes, Consumed(MatchRenames(x.files, x.changes))) == Ok(added)
    ensures Planned(x.env, x.ws, doc, x.changes, ts, deleteSeq, device) == CheckAll(x.ws, added, added.doc.files)
  {
    hide Refresh, RenameAll, DeleteAll, AddAll, CheckAll, MatchRenames, IdsOf, Sort;
  }

  // What the plan does.

  ghost predicate PathsApart(cs: seq<Change>) {
    forall i, j :: 0 <= i < j < |cs| ==> cs[i].path != cs[j].path
  }

  lemma {:induction false} AdditionsApart(x: Scene, i: nat, consumed: set<string>)
    requires SceneOk(x) && i <= |x.changes|
    ensures var cs := Additions(x.changes[..i], consumed);
            PathsApart(cs) && forall c :: c in cs ==> c.path in x.ws && c == UntrackedChange(x.env, x.ws, c.path)
    decreases i
  {
    hide SceneOk;
    if i > 0 {
      var c := x.changes[i - 1];
      assert x.changes[..i][..i - 1] == x.changes[..i - 1];
      AdditionsApart(x, i - 1, consumed);
      AdditionsAre(x.changes[..i - 1], consumed);
      var before := Additions(x.changes[..i - 1], consumed);
      if c.kind.Untracked? {
        UntrackedAt(x, i - 1);
        ReportedShape(x, c);
        assert forall j :: 0 <= j < |before| ==> before[j] in before;
      }
      hide UntrackedChange, IsUntracked;
    }
  }

  lemma AdditionsOk(x: Scene)
    requires SceneOk(x)
    ensures PathsApart(Outcome(x).added) && forall c :: c in Outcome(x).added ==> c.path in x.ws && c == UntrackedChange(x.env, x.ws, c.path)
  {
    hide SceneOk, Additions, UntrackedChange, PathsApart, MatchRenames, IdsOf, IdsUpTo, Sort;
    assert x.changes[..|x.changes|] == x.changes;
    AdditionsApart(x, |x.changes|, Consumed(MatchRenames(x.files, x.changes)));
  }

  lemma UniqueAtEnd(x: Scene, a: State)
    requires SceneOk(x) && StageOk(x, Outcome(x), a)
    ensures UniqueIds(a.doc.files)
  {
    hide *;
    StageParts(x, Outcome(x), a);
    AdditionsOk(x);
    AreApart(Outcome(x).added);
    UniqueAfter(x, Outcome(x), a.doc.files);
  }

  lemma AreApart(cs: seq<Change>)
    requires PathsApart(cs)
    ensures forall i, j :: 0 <= i < j < |cs| ==> cs[i].path != cs[j].path
  {
  }

  /** What becomes of one record: kept, refreshed in place, renamed onto its unrivalled match, or deleted. */
  ghost predicate Fate(x: Scene, r: FileRecord, s: FileRecord) {
    && s.id == r.id && s.kind == r.kind
    && if !Tracked(x.env, r) then s == r
       else if r.path in x.ws && HashAt(x.ws, r.path) == r.hash then s == r
       else if r.path in x.ws then UpToDate(x.env, x.ws, r, s)
       else if r.id in RenamedIds(MatchRenames(x.files, x.changes))
       then exists e :: e in MatchRenames(x.files, x.changes) && e.id == r.id && MovedTo(x.env, x.ws, r, e.target.path, s)
       else MarkedDeleted(r, s) && r.id in Lost(x)
  }

  lemma RecordFate(x: Scene, a: State, k: nat)
    requires SceneOk(x) && StageOk(x, Outcome(x), a) && k < |x.files|
    ensures k < |a.doc.files| && Fate(x, x.files[k], a.doc.files[k])
  {
    var r, d := x.files[k], Outcome(x);
    assert r in x.files;
    StageParts(x, d, a);
    BecomesAt(x, d, a.doc.files, k);
    RecordStatus(x, r);
    OrderedIsSame(x);
    RenamedAreMissing(x, r);
    LostAt(x, k);
    OutcomeParts(x);
    hide SceneOk, StageOk, FilesOk, MatchRenames, IdsOf, IdsUpTo, Additions, Consumed, Ordered, Outcome, HashAt, Tracked, UniqueIds, FreshIds, Detected;
    if r.id in RenamedIds(MatchRenames(x.files, x.changes)) {
      var e :| e in MatchRenames(x.files, x.changes) && e.id == r.id;
      assert e in d.renamed;
    }
  }

  lemma OutcomeParts(x: Scene)
    ensures Outcome(x).modified == IdsOf(x.changes, Modified) && Outcome(x).renamed == Ordered(x)
    ensures Outcome(x).deleted == IdsUpTo(x.files, |x.files|, Lost(x))
    ensures Outcome(x).added == Additions(x.changes, Consumed(MatchRenames(x.files, x.changes)))
  {
  }

  lemma RenamedAreMissing(x: Scene, r: FileRecord)
    requires SceneOk(x)
    ensures r.id in RenamedIds(MatchRenames(x.files, x.changes)) ==> r.id in IdsOf(x.changes, Missing) && r.id !in IdsOf(x.changes, Modified)
  {
    MatchedRenames(x.env, x.ws, x.files, x.changes);
    hide SceneOk, MatchRenames, IdsOf, GoodRename, UniqueIds, Detected;
    if r.id in RenamedIds(MatchRenames(x.files, x.changes)) {
      var e :| e in MatchRenames(x.files, x.changes) && e.id == r.id;
      GoodIsMissing(x, e);
    }
  }

  lemma LostAt(x: Scene, k: nat)
    requires SceneOk(x) && k < |x.files|
    ensures x.files[k].id in IdsUpTo(x.files, |x.files|, Lost(x)) <==> x.files[k].id in Lost(x)
  {
    hide SceneOk, Lost;
  }

  // Success.

  /** Records of lock files, which detection skips, are still accurate. */
  ghost predicate LocksSteady(x: Scene) {
    forall r :: r in x.files && r.status.Active? && x.env.volatile(r.path) ==> Steady(x.ws, r)
  }

  lemma NotAdded(x: Scene, id: string)
    requires SceneOk(x) && HasId(x.files, id)
    ensures id !in AddedIds(x, Outcome(x).added)
  {
    AdditionsOk(x);
    hide Outcome, UntrackedChange, UniqueIds, Detected, PathsApart;
  }

  lemma AddedRead(x: Scene, a: State, j: nat)
    requires SceneOk(x) && StageOk(x, Outcome(x), a) && |x.files| <= j < |a.doc.files|
    ensures a.doc.files[j].id in a.content
    ensures var c := Outcome(x).added[j - |x.files|];
            j - |x.files| < |Outcome(x).added| && c in Outcome(x).added && IsAdded(x, c, a.doc.files[j])
  {
    hide Outcome, SceneOk, Reads, Becomes;
    var c := Outcome(x).added[j - |x.files|];
    assert c in Outcome(x).added && IsAdded(x, c, a.doc.files[|x.files| + (j - |x.files|)]);
  }

  /** Which records the plan has already read. */
  lemma ReadAt(x: Scene, a: State, k: nat)
    requires SceneOk(x) && StageOk(x, Outcome(x), a) && k < |x.files|
    ensures x.files[k].id in a.content <==> x.files[k].id in IdsOf(x.changes, Modified) || x.files[k].id in RenamedIds(MatchRenames(x.files, x.changes))
  {
    var r := x.files[k];
    assert r in x.files && HasId(x.files, r.id);
    StageParts(x, Outcome(x), a);
    NotAdded(x, r.id);
    OrderedIsSame(x);
    OutcomeParts(x);
    hide *;
  }

  lemma SteadyIff(x: Scene, a: State)
    requires SceneOk(x) && Supported(x.changes) && StageOk(x, Outcome(x), a)
    ensures AllSteady(x.ws, a, a.doc.files) <==> LocksSteady(x)
  {
    hide SceneOk, StageOk, Supported, Outcome, IdsOf, MatchRenames, Lost, HashAt, RenamedIds;
    if AllSteady(x.ws, a, a.doc.files) {
      forall r | r in x.files && r.status.Active? && x.env.volatile(r.path)
        ensures Steady(x.ws, r)
      {
        var k :| 0 <= k < |x.files| && x.files[k] == r;
        RecordFate(x, a, k);
        ReadAt(x, a, k);
        RecordStatus(x, r);
        RenamedAreMissing(x, r);
        assert a.doc.files[k] in a.doc.files;
      }
    }
    if LocksSteady(x) {
      forall s | s in a.doc.files && s.status.Active? && s.id !in a.content
        ensures Steady(x.ws, s)
      {
        var k :| 0 <= k < |a.doc.files| && a.doc.files[k] == s;
        if k < |x.files| {
          assert x.files[k] in x.files;
          RecordFate(x, a, k);
          ReadAt(x, a, k);
          RecordStatus(x, x.files[k]);
        } else {
          AddedRead(x, a, k);
        }
      }
    }
  }

  /** Main result: planning succeeds exactly when every change is supported, there is something to submit,
      and the lock files detection skips have not drifted. */
  lemma PlanSucceedsIff(x: Scene, doc: Document, ts: seq<Tombstone>, deleteSeq: nat, device: Option<string>)
    requires SceneOk(x) && doc.files == x.files
    ensures Planned(x.env, x.ws, doc, x.changes, ts, deleteSeq, device).Ok? <==>
              Supported(x.changes) && AnythingToDo(x.changes, ts) && LocksSteady(x)
  {
    if Supported(x.changes) && AnythingToDo(x.changes, ts) {
      var a := Stages(x, doc, ts, deleteSeq, device);
      hide Planned, SceneOk, StageOk, Buried;
      UniqueAtEnd(x, a);
      CheckSteady(x.ws, a, a.doc.files);
      SteadyIff(x, a);
      hide LocksSteady, AllSteady, CheckAll, Supported, AnythingToDo;
    } else {
      NotPlanned(x, doc, ts, deleteSeq, device);
      hide Planned, SceneOk;
    }
  }

  lemma NotPlanned(x: Scene, doc: Document, ts: seq<Tombstone>, deleteSeq: nat, device: Option<string>)
    requires !(Supported(x.changes) && AnythingToDo(x.changes, ts))
    ensures Planned(x.env, x.ws, doc, x.changes, ts, deleteSeq, device).Err?
  {
    hide Refresh, RenameAll, DeleteAll, AddAll, CheckAll, MatchRenames, IdsOf;
  }

  /** A finished plan is the last stage, with the untouched active files read too. */
  ghost predicate Finished(x: Scene, ts: seq<Tombstone>, deleteSeq: nat, device: Option<string>, a: State, p: State) {
    Reached(x, ts, deleteSeq, device, a) && ReadRest(x.ws, a, a.doc.files, p) && UniqueIds(a.doc.files) && AllSteady(x.ws, a, a.doc.files)
  }

  lemma PlanFinished(x: Scene, doc: Document, ts: seq<Tombstone>, deleteSeq: nat, device: Option<string>) returns (a: State)
    requires SceneOk(x) && doc.files == x.files && Planned(x.env, x.ws, doc, x.changes, ts, deleteSeq, device).Ok?
    ensures Supported(x.changes) && Finished(x, ts, deleteSeq, device, a, Planned(x.env, x.ws, doc, x.changes, ts, deleteSeq, device).value)
  {
    PlanSucceedsIff(x, doc, ts, deleteSeq, device);
    hide *;
    a := Stages(x, doc, ts, deleteSeq, device);
    ReachedStage(x, ts, deleteSeq, device, a);
    UniqueAtEnd(x, a);
    CheckSteady(x.ws, a, a.doc.files);
    CheckReads(x.ws, a, a.doc.files);
    MakeFinished(x, ts, deleteSeq, device, a, Planned(x.env, x.ws, doc, x.changes, ts, deleteSeq, device).value);
  }

  lemma ReachedStage(x: Scene, ts: seq<Tombstone>, deleteSeq: nat, device: Option<string>, a: State)
    requires Reached(x, ts, deleteSeq, device, a)
    ensures StageOk(x, Outcome(x), a)
  {
  }

  lemma MakeFinished(x: Scene, ts: seq<Tombstone>, deleteSeq: nat, device: Option<string>, a: State, p: State)
    requires Reached(x, ts, deleteSeq, device, a) && ReadRest(x.ws, a, a.doc.files, p) && UniqueIds(a.doc.files) && AllSteady(x.ws, a, a.doc.files)
    ensures Finished(x, ts, deleteSeq, device, a, p)
  {
  }
}
