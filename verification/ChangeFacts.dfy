/** What a detected change set and the renames matched in it are. */
module ChangeFacts {
  import opened Basics
  import opened Ordering
  import opened ChangePlan

  ghost predicate UniqueIds(files: seq<FileRecord>) {
    forall i, j :: 0 <= i < j < |files| ==> files[i].id != files[j].id
  }

  lemma SameRecord(files: seq<FileRecord>, a: FileRecord, b: FileRecord)
    requires UniqueIds(files) && a in files && b in files && a.id == b.id
    ensures a == b
  {
    var i :| 0 <= i < |files| && files[i] == a;
    var j :| 0 <= j < |files| && files[j] == b;
  }

  lemma {:induction false} RecordChangesAre(env: Env, ws: Workspace, files: seq<FileRecord>)
    ensures forall c :: c in RecordChanges(env, ws, files) <==> exists r :: r in files && Tracked(env, r) && ChangeOf(ws, r) == Some(c)
  {
    hide Tracked, ChangeOf;
    if files != [] {
      var init, last := files[..|files| - 1], files[|files| - 1];
      assert files == init + [last];
      RecordChangesAre(env, ws, init);
    }
  }

  lemma {:induction false} RecordChangesOnce(env: Env, ws: Workspace, files: seq<FileRecord>)
    requires UniqueIds(files)
    ensures NoDup(RecordChanges(env, ws, files))
  {
    hide Tracked;
    if files != [] {
      var init, last := files[..|files| - 1], files[|files| - 1];
      RecordChangesOnce(env, ws, init);
      RecordChangesAre(env, ws, init);
      var before := RecordChanges(env, ws, init);
      assert forall i :: 0 <= i < |before| ==> before[i] in before;
    }
  }

  /** A change reported for a record, or for an untracked file. */
  ghost predicate IsChange(env: Env, ws: Workspace, files: seq<FileRecord>, c: Change) {
    || (exists r :: r in files && Tracked(env, r) && ChangeOf(ws, r) == Some(c))
    || (IsUntracked(env, ws, files, c.path) && c == UntrackedChange(env, ws, c.path))
  }

  lemma UntrackedAre(env: Env, ws: Workspace, files: seq<FileRecord>, paths: seq<string>)
    requires WalkOf(env, ws, files, paths)
    ensures forall c :: c in UntrackedChanges(env, ws, paths) <==> IsUntracked(env, ws, files, c.path) && c == UntrackedChange(env, ws, c.path)
    ensures NoDup(UntrackedChanges(env, ws, paths))
  {
    hide IsUntracked;
    var untracked := UntrackedChanges(env, ws, paths);
    assert forall i :: 0 <= i < |untracked| ==> untracked[i].path == paths[i];
    forall c
      ensures c in untracked <==> IsUntracked(env, ws, files, c.path) && c == UntrackedChange(env, ws, c.path)
    {
      if c in untracked {
        var i :| 0 <= i < |untracked| && untracked[i] == c;
        assert paths[i] in paths;
      }
      if IsUntracked(env, ws, files, c.path) && c == UntrackedChange(env, ws, c.path) {
        assert c.path in paths;
        var i :| 0 <= i < |paths| && paths[i] == c.path;
        assert untracked[i] == c;
      }
    }
  }

  lemma RecordKinds(env: Env, ws: Workspace, files: seq<FileRecord>)
    ensures forall c :: c in RecordChanges(env, ws, files) ==> !c.kind.Untracked?
  {
    RecordChangesAre(env, ws, files);
  }

  lemma ChangesOnce(env: Env, ws: Workspace, files: seq<FileRecord>, paths: seq<string>)
    requires WalkOf(env, ws, files, paths) && UniqueIds(files)
    ensures NoDup(RecordChanges(env, ws, files) + UntrackedChanges(env, ws, paths))
  {
    var records, untracked := RecordChanges(env, ws, files), UntrackedChanges(env, ws, paths);
    RecordChangesOnce(env, ws, files);
    RecordKinds(env, ws, files);
    UntrackedAre(env, ws, files, paths);
    hide RecordChanges, UntrackedChanges, WalkOf, UniqueIds, IsUntracked;
    forall i, j | 0 <= i < |records| && 0 <= j < |untracked|
      ensures records[i] != untracked[j]
    {
      assert records[i] in records && untracked[j] in untracked;
    }
    AppendNoDup(records, untracked);
  }

  /** Detection reports every change, once, and nothing else. */
  lemma DetectedExactly(env: Env, ws: Workspace, files: seq<FileRecord>, changes: seq<Change>)
    requires Detected(env, ws, files, changes)
    ensures forall c :: c in changes <==> IsChange(env, ws, files, c)
    ensures UniqueIds(files) ==> NoDup(changes)
  {
    var paths :| WalkOf(env, ws, files, paths) && changes == ChangesFrom(env, ws, files, paths);
    hide *;
    ChangesAre(env, ws, files, paths);
    if UniqueIds(files) {
      ChangesOnce(env, ws, files, paths);
      ChangesSorted(env, ws, files, paths);
      NoDupPermutes(RecordChanges(env, ws, files) + UntrackedChanges(env, ws, paths), changes);
    }
  }

  lemma ChangesSorted(env: Env, ws: Workspace, files: seq<FileRecord>, paths: seq<string>)
    ensures multiset(RecordChanges(env, ws, files) + UntrackedChanges(env, ws, paths)) == multiset(ChangesFrom(env, ws, files, paths))
  {
    hide RecordChanges, UntrackedChanges, Sort;
  }

  lemma ChangesAre(env: Env, ws: Workspace, files: seq<FileRecord>, paths: seq<string>)
    requires WalkOf(env, ws, files, paths)
    ensures forall c :: c in ChangesFrom(env, ws, files, paths) <==> IsChange(env, ws, files, c)
  {
    hide RecordChanges, UntrackedChanges, Sort, WalkOf, IsUntracked, Tracked, ChangeOf, ChangesFrom;
    var all := RecordChanges(env, ws, files) + UntrackedChanges(env, ws, paths);
    ChangesSorted(env, ws, files, paths);
    SameElements(ChangesFrom(env, ws, files, paths), all);
    RecordChangesAre(env, ws, files);
    UntrackedAre(env, ws, files, paths);
  }

  lemma AppendNoDup<T>(a: seq<T>, b: seq<T>)
    requires NoDup(a) && NoDup(b) && forall i, j :: 0 <= i < |a| && 0 <= j < |b| ==> a[i] != b[j]
    ensures NoDup(a + b)
  {
  }

  /** A change of a tracked record. */
  lemma ChangeRecord(env: Env, ws: Workspace, files: seq<FileRecord>, changes: seq<Change>, c: Change)
    requires Detected(env, ws, files, changes) && c in changes && !c.kind.Untracked?
    ensures exists r :: r in files && Tracked(env, r) && ChangeOf(ws, r) == Some(c)
  {
    DetectedExactly(env, ws, files, changes);
  }

  /** Two changes of one record are the same change. */
  lemma OneChangeEach(env: Env, ws: Workspace, files: seq<FileRecord>, changes: seq<Change>, c: Change, d: Change)
    requires UniqueIds(files) && Detected(env, ws, files, changes)
    requires c in changes && d in changes && c.id.Some? && c.id == d.id
    ensures c == d
  {
    hide Detected, UniqueIds, NoDup, IsUntracked;
    DetectedExactly(env, ws, files, changes);
    assert IsChange(env, ws, files, c) && IsChange(env, ws, files, d);
    var r :| r in files && Tracked(env, r) && ChangeOf(ws, r) == Some(c);
    var s :| s in files && Tracked(env, s) && ChangeOf(ws, s) == Some(d);
    SameRecord(files, r, s);
  }

  lemma {:induction false} ActiveRecordIs(files: seq<FileRecord>, id: string)
    ensures ActiveRecord(files, id).Some? ==>
              ActiveRecord(files, id).value in files && ActiveRecord(files, id).value.id == id && ActiveRecord(files, id).value.status.Active?
  {
    if files != [] {
      assert files == files[..|files| - 1] + [files[|files| - 1]];
      ActiveRecordIs(files[..|files| - 1], id);
    }
  }

  lemma {:induction false} LastRecordIs(files: seq<FileRecord>, r: FileRecord)
    requires UniqueIds(files) && r in files
    ensures LastRecord(files, r.id) == Some(r)
  {
    var last := files[|files| - 1];
    if last.id == r.id {
      SameRecord(files, last, r);
    } else {
      assert files == files[..|files| - 1] + [last];
      LastRecordIs(files[..|files| - 1], r);
    }
  }

  // Renames.

  /** A missing active file and an untracked file with its content and type, neither of which has a rival. */
  ghost predicate Unrivalled(files: seq<FileRecord>, changes: seq<Change>, key: Key, e: Rename) {
    exists c ::
      && MissingWith(files, changes, key) == [c] && UntrackedWith(changes, key) == [e.target]
      && c.id == Some(e.id) && c.path != e.target.path
  }

  ghost predicate FromKeys(files: seq<FileRecord>, changes: seq<Change>, keys: seq<Key>, rs: seq<Rename>) {
    && (forall e :: e in rs ==> exists k :: k in keys && Unrivalled(files, changes, k, e))
    && (forall i, j :: 0 <= i < j < |rs| ==> rs[i].id != rs[j].id && rs[i].target.path != rs[j].target.path)
  }

  lemma {:induction false} PutNew(rs: seq<Rename>, e: Rename)
    requires forall i :: 0 <= i < |rs| ==> rs[i].id != e.id
    ensures PutRename(rs, e) == rs + [e]
  {
    if rs != [] { PutNew(rs[1..], e); }
  }

  /** What an unrivalled rename says of its two files. */
  lemma UnrivalledFiles(files: seq<FileRecord>, changes: seq<Change>, k: Key, e: Rename) returns (c: Change)
    requires Unrivalled(files, changes, k, e)
    ensures c in changes && MissingKey(files, c) == Some(k) && c.id == Some(e.id) && c.path != e.target.path
    ensures e.target in changes && UntrackedKey(e.target) == Some(k)
  {
    c :| MissingWith(files, changes, k) == [c] && UntrackedWith(changes, k) == [e.target] && c.id == Some(e.id) && c.path != e.target.path;
    assert c in MissingWith(files, changes, k) && e.target in UntrackedWith(changes, k);
  }

  lemma OneUntrackedEach(env: Env, ws: Workspace, files: seq<FileRecord>, changes: seq<Change>, c: Change, d: Change)
    requires Detected(env, ws, files, changes) && c in changes && d in changes && c.kind.Untracked? && d.kind.Untracked? && c.path == d.path
    ensures c == d
  {
    DetectedExactly(env, ws, files, changes);
    hide Detected, UniqueIds, NoDup, IsUntracked;
    assert IsChange(env, ws, files, c) && IsChange(env, ws, files, d);
  }

  /** Different keys give different missing and different untracked files. */
  lemma KeysApart(env: Env, ws: Workspace, files: seq<FileRecord>, changes: seq<Change>, k: Key, a: Rename, l: Key, b: Rename)
    requires UniqueIds(files) && Detected(env, ws, files, changes) && k != l
    requires Unrivalled(files, changes, k, a) && Unrivalled(files, changes, l, b)
    ensures a.id != b.id && a.target.path != b.target.path
  {
    hide Detected, UniqueIds, Unrivalled;
    var c := UnrivalledFiles(files, changes, k, a);
    var d := UnrivalledFiles(files, changes, l, b);
    if a.id == b.id { OneChangeEach(env, ws, files, changes, c, d); }
    if a.target.path == b.target.path { OneUntrackedEach(env, ws, files, changes, a.target, b.target); }
  }

  lemma {:induction false} RenamesFrom(env: Env, ws: Workspace, files: seq<FileRecord>, changes: seq<Change>, keys: seq<Key>)
    requires UniqueIds(files) && Detected(env, ws, files, changes) && NoDup(keys)
    ensures FromKeys(files, changes, keys, RenamesFor(files, changes, keys))
    decreases |keys|
  {
    hide MissingWith, UntrackedWith, UniqueIds, Detected;
    if keys != [] {
      var key, init := keys[|keys| - 1], keys[..|keys| - 1];
      assert keys == init + [key];
      RenamesFrom(env, ws, files, changes, init);
      var rs := RenamesFor(files, changes, init);
      var missing, untracked := MissingWith(files, changes, key), UntrackedWith(changes, key);
      if |missing| == 1 && |untracked| == 1 && missing[0].id.Some? && missing[0].path != untracked[0].path {
        var e := Rename(missing[0].id.value, untracked[0]);
        assert missing == [missing[0]] && untracked == [e.target];
        assert Unrivalled(files, changes, key, e);
        forall i | 0 <= i < |rs|
          ensures rs[i].id != e.id && rs[i].target.path != e.target.path
        {
          assert rs[i] in rs;
          var k :| k in init && Unrivalled(files, changes, k, rs[i]);
          KeysApart(env, ws, files, changes, k, rs[i], key, e);
        }
        PutNew(rs, e);
      }
      hide Unrivalled;
    }
  }

  /** What a matched rename joins. */
  ghost predicate GoodRename(env: Env, ws: Workspace, files: seq<FileRecord>, changes: seq<Change>, e: Rename) {
    && IsUntracked(env, ws, files, e.target.path) && e.target in changes && e.target == UntrackedChange(env, ws, e.target.path)
    && exists r :: r in files && r.id == e.id && r.status.Active? && Tracked(env, r) && r.path !in ws
                   && r.hash == e.target.hash && r.kind == e.target.fileType
  }

  ghost predicate GoodRenames(env: Env, ws: Workspace, files: seq<FileRecord>, changes: seq<Change>, rs: seq<Rename>) {
    && (forall e :: e in rs ==> GoodRename(env, ws, files, changes, e))
    && (forall i, j :: 0 <= i < j < |rs| ==> rs[i].id != rs[j].id && rs[i].target.path != rs[j].target.path)
  }

  lemma UnrivalledIsGood(env: Env, ws: Workspace, files: seq<FileRecord>, changes: seq<Change>, k: Key, e: Rename)
    requires UniqueIds(files) && Detected(env, ws, files, changes) && Unrivalled(files, changes, k, e)
    ensures GoodRename(env, ws, files, changes, e)
  {
    hide Unrivalled, UniqueIds, Detected;
    var c := UnrivalledFiles(files, changes, k, e);
    DetectedExactly(env, ws, files, changes);
    assert IsChange(env, ws, files, e.target);
    ChangeRecord(env, ws, files, changes, c);
    var r :| r in files && Tracked(env, r) && ChangeOf(ws, r) == Some(c);
    ActiveRecordIs(files, e.id);
    SameRecord(files, r, ActiveRecord(files, e.id).value);
  }

  /** The renames the matcher finds: each joins one missing file to one untracked one, no file is used twice. */
  lemma MatchedRenames(env: Env, ws: Workspace, files: seq<FileRecord>, changes: seq<Change>)
    requires UniqueIds(files) && Detected(env, ws, files, changes)
    ensures GoodRenames(env, ws, files, changes, MatchRenames(files, changes))
  {
    var rs := MatchRenames(files, changes);
    RenamesFrom(env, ws, files, changes, MissingKeys(files, changes));
    hide MissingKeys, RenamesFor, UniqueIds, Detected, GoodRename, Unrivalled;
    forall e | e in rs
      ensures GoodRename(env, ws, files, changes, e)
    {
      var k :| k in MissingKeys(files, changes) && Unrivalled(files, changes, k, e);
      UnrivalledIsGood(env, ws, files, changes, k, e);
    }
  }

  /** Main result: a rename is matched exactly when some content and type belongs to one missing active file
      and one untracked file alone. */
  lemma RenamedIff(env: Env, ws: Workspace, files: seq<FileRecord>, changes: seq<Change>, e: Rename)
    requires UniqueIds(files) && Detected(env, ws, files, changes)
    ensures e in MatchRenames(files, changes) <==> exists k :: Unrivalled(files, changes, k, e)
  {
    var keys := MissingKeys(files, changes);
    RenamesFrom(env, ws, files, changes, keys);
    if exists k :: Unrivalled(files, changes, k, e) {
      var k :| Unrivalled(files, changes, k, e);
      var c := UnrivalledFiles(files, changes, k, e);
      assert k in keys;
      Found(env, ws, files, changes, keys, k, e);
    }
    hide MissingKeys, RenamesFor;
  }

  lemma {:induction false} Found(env: Env, ws: Workspace, files: seq<FileRecord>, changes: seq<Change>, keys: seq<Key>, k: Key, e: Rename)
    requires UniqueIds(files) && Detected(env, ws, files, changes) && NoDup(keys) && k in keys && Unrivalled(files, changes, k, e)
    ensures e in RenamesFor(files, changes, keys)
    decreases |keys|
  {
    hide MissingWith, UntrackedWith, UniqueIds, Detected;
    var key, init := keys[|keys| - 1], keys[..|keys| - 1];
    assert keys == init + [key];
    RenamesFrom(env, ws, files, changes, init);
    var rs := RenamesFor(files, changes, init);
    if k == key {
      forall i | 0 <= i < |rs|
        ensures rs[i].id != e.id
      {
        assert rs[i] in rs;
        var l :| l in init && Unrivalled(files, changes, l, rs[i]);
        KeysApart(env, ws, files, changes, l, rs[i], key, e);
      }
      PutNew(rs, e);
    } else {
      Found(env, ws, files, changes, init, k, e);
      var missing, untracked := MissingWith(files, changes, key), UntrackedWith(changes, key);
      if |missing| == 1 && |untracked| == 1 && missing[0].id.Some? && missing[0].path != untracked[0].path {
        var f := Rename(missing[0].id.value, untracked[0]);
        assert missing == [missing[0]] && untracked == [f.target];
        assert Unrivalled(files, changes, key, f);
        forall i | 0 <= i < |rs|
          ensures rs[i].id != f.id
        {
          assert rs[i] in rs;
          var l :| l in init && Unrivalled(files, changes, l, rs[i]);
          KeysApart(env, ws, files, changes, l, rs[i], key, f);
        }
        PutNew(rs, f);
      }
    }
  }
}
