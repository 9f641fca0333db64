/** The planner as it runs: loops over records, files and changes, proved against the specification. */
module ChangeDetection {
  import opened Basics
  import opened Ordering
  import opened ChangePlan

  /** Compares every tracked record with its file, then walks the workspace for untracked files. */
  method DetectChanges(env: Env, ws: Workspace, files: seq<FileRecord>) returns (changes: seq<Change>)
    ensures Detected(env, ws, files, changes)
  {
    var found: seq<Change> := [];
    for i := 0 to |files|
      invariant found == RecordChanges(env, ws, files[..i])
    {
      hide Tracked;
      var r := files[i];
      assert files[..i + 1][..i] == files[..i];
      if Tracked(env, r) {
        var change := ChangeOf(ws, r);
        if change.Some? {
          found := found + [change.value];
        }
      }
    }
    assert files[..|files|] == files;
    var left := ws.Keys;
    ghost var walked: seq<string> := [];
    var untracked: seq<Change> := [];
    while left != {}
      invariant left <= ws.Keys && NoDup(walked)
      invariant forall p :: p in walked <==> p !in left && IsUntracked(env, ws, files, p)
      invariant untracked == UntrackedChanges(env, ws, walked)
      decreases |left|
    {
      hide TrackedPath;
      var path :| path in left;
      left := left - {path};
      if !env.hidden(path) && !env.volatile(path) && !TrackedPath(env, files, path) {
        MapAppend((p: string) => UntrackedChange(env, ws, p), walked, [path]);
        OneUntracked(env, ws, walked, path);
        walked := walked + [path];
        untracked := untracked + [UntrackedChange(env, ws, path)];
      }
    }
    assert WalkOf(env, ws, files, walked);
    changes := Sort(found + untracked, ChangeLeq);
    assert changes == ChangesFrom(env, ws, files, walked);
  }

  lemma OneUntracked(env: Env, ws: Workspace, walked: seq<string>, path: string)
    ensures UntrackedChanges(env, ws, walked + [path]) == UntrackedChanges(env, ws, walked) + [UntrackedChange(env, ws, path)]
  {
    var f := (p: string) => UntrackedChange(env, ws, p);
    var a, b := UntrackedChanges(env, ws, walked + [path]), UntrackedChanges(env, ws, walked) + [UntrackedChange(env, ws, path)];
    assert |a| == |b| && forall i :: 0 <= i < |a| ==> a[i] == b[i];
  }

  /** Groups missing and untracked files by content and type, then reads the renames off the groups of one and one. */
  method FindRenames(files: seq<FileRecord>, changes: seq<Change>) returns (rs: seq<Rename>)
    ensures rs == MatchRenames(files, changes)
  {
    hide *;
    var keys, missing, untracked := GroupChanges(files, changes);
    rs := [];
    NoRenames(files, changes, keys);
    for i := 0 to |keys|
      invariant rs == RenamesFor(files, changes, keys[..i])
    {
      var key := keys[i];
      RenamesNext(files, changes, keys, i);
      GroupsAt(files, changes, missing, untracked, key);
      var here, there := missing[key], if key in untracked then untracked[key] else [];
      if |here| == 1 && |there| == 1 && here[0].id.Some? && here[0].path != there[0].path {
        rs := PutRename(rs, Rename(here[0].id.value, there[0]));
      }
    }
    assert keys[..|keys|] == keys;
    RenamesAll(files, changes);
  }

  lemma NoRenames(files: seq<FileRecord>, changes: seq<Change>, keys: seq<Key>)
    ensures RenamesFor(files, changes, keys[..0]) == []
  {
  }

  lemma RenamesNext(files: seq<FileRecord>, changes: seq<Change>, keys: seq<Key>, i: nat)
    requires i < |keys|
    ensures var here, there := MissingWith(files, changes, keys[i]), UntrackedWith(changes, keys[i]);
            RenamesFor(files, changes, keys[..i + 1]) ==
              if |here| == 1 && |there| == 1 && here[0].id.Some? && here[0].path != there[0].path
              then PutRename(RenamesFor(files, changes, keys[..i]), Rename(here[0].id.value, there[0]))
              else RenamesFor(files, changes, keys[..i])
  {
    assert keys[..i + 1][..i] == keys[..i] && keys[..i + 1][i] == keys[i];
    hide MissingWith, UntrackedWith, PutRename;
  }

  lemma RenamesAll(files: seq<FileRecord>, changes: seq<Change>)
    ensures MatchRenames(files, changes) == RenamesFor(files, changes, MissingKeys(files, changes))
  {
  }

  method GroupChanges(files: seq<FileRecord>, changes: seq<Change>)
    returns (keys: seq<Key>, missing: map<Key, seq<Change>>, untracked: map<Key, seq<Change>>)
    ensures keys == MissingKeys(files, changes)
    ensures MissingGrouped(files, changes, missing) && UntrackedGrouped(changes, untracked)
  {
    keys, missing, untracked := [], map[], map[];
    for i := 0 to |changes|
      invariant keys == MissingKeys(files, changes[..i])
      invariant MissingGrouped(files, changes[..i], missing)
      invariant UntrackedGrouped(changes[..i], untracked)
    {
      hide MissingGrouped, UntrackedGrouped, MissingKey, UntrackedKey, MissingWith, UntrackedWith;
      var c := changes[i];
      assert changes[..i + 1][..i] == changes[..i] && changes[..i + 1][i] == c;
      MissingNext(files, changes, i, missing);
      UntrackedNext(changes, i, untracked);
      var key := MissingKey(files, c);
      if key.Some? {
        missing := missing[key.value := (if key.value in missing then missing[key.value] else []) + [c]];
        if key.value !in keys {
          keys := keys + [key.value];
        }
      }
      var other := UntrackedKey(c);
      if other.Some? {
        untracked := untracked[other.value := (if other.value in untracked then untracked[other.value] else []) + [c]];
      }
    }
    assert changes[..|changes|] == changes;
  }

  lemma GroupsAt(files: seq<FileRecord>, changes: seq<Change>, missing: map<Key, seq<Change>>, untracked: map<Key, seq<Change>>, key: Key)
    requires MissingGrouped(files, changes, missing) && UntrackedGrouped(changes, untracked) && key in MissingKeys(files, changes)
    ensures key in missing && missing[key] == MissingWith(files, changes, key)
    ensures (if key in untracked then untracked[key] else []) == UntrackedWith(changes, key)
  {
    hide MissingKeys;
    var c :| c in changes && MissingKey(files, c) == Some(key);
    assert c in MissingWith(files, changes, key);
  }

  /** The dictionary of missing files by key. */
  ghost predicate MissingGrouped(files: seq<FileRecord>, changes: seq<Change>, m: map<Key, seq<Change>>) {
    forall k :: (k in m <==> MissingWith(files, changes, k) != []) && (k in m ==> m[k] == MissingWith(files, changes, k))
  }

  /** The dictionary of untracked files by key. */
  ghost predicate UntrackedGrouped(changes: seq<Change>, m: map<Key, seq<Change>>) {
    forall k :: (k in m <==> UntrackedWith(changes, k) != []) && (k in m ==> m[k] == UntrackedWith(changes, k))
  }

  function Filed(m: map<Key, seq<Change>>, key: Option<Key>, c: Change): map<Key, seq<Change>> {
    if key.None? then m else m[key.value := (if key.value in m then m[key.value] else []) + [c]]
  }

  lemma MissingNext(files: seq<FileRecord>, changes: seq<Change>, i: nat, m: map<Key, seq<Change>>)
    requires i < |changes| && MissingGrouped(files, changes[..i], m)
    ensures MissingGrouped(files, changes[..i + 1], Filed(m, MissingKey(files, changes[i]), changes[i]))
  {
    hide MissingKey, MissingWith, MissingGrouped;
    forall k { MissingStep(files, changes, i, k); }
    MissingFiled(files, changes, i, m);
  }

  lemma MissingStep(files: seq<FileRecord>, changes: seq<Change>, i: nat, k: Key)
    requires i < |changes|
    ensures MissingWith(files, changes[..i + 1], k) ==
              MissingWith(files, changes[..i], k) + if MissingKey(files, changes[i]) == Some(k) then [changes[i]] else []
  {
    assert changes[..i + 1][..i] == changes[..i] && changes[..i + 1][i] == changes[i];
    hide MissingKey;
  }

  lemma MissingFiled(files: seq<FileRecord>, changes: seq<Change>, i: nat, m: map<Key, seq<Change>>)
    requires i < |changes| && MissingGrouped(files, changes[..i], m)
    requires forall k :: MissingWith(files, changes[..i + 1], k) ==
               MissingWith(files, changes[..i], k) + if MissingKey(files, changes[i]) == Some(k) then [changes[i]] else []
    ensures MissingGrouped(files, changes[..i + 1], Filed(m, MissingKey(files, changes[i]), changes[i]))
  {
    hide MissingKey, MissingWith;
  }

  lemma UntrackedNext(changes: seq<Change>, i: nat, m: map<Key, seq<Change>>)
    requires i < |changes| && UntrackedGrouped(changes[..i], m)
    ensures UntrackedGrouped(changes[..i + 1], Filed(m, UntrackedKey(changes[i]), changes[i]))
  {
    assert changes[..i + 1][..i] == changes[..i] && changes[..i + 1][i] == changes[i];
    hide UntrackedKey;
  }

  method ReadModified(env: Env, ws: Workspace, files: seq<FileRecord>, ids: set<string>, start: State) returns (r: Attempt<State>)
    ensures r == Refresh(env, ws, files, ids, start)
  {
    var st := start;
    assert files[0..] == files;
    for i := 0 to |files|
      invariant Refresh(env, ws, files[i..], ids, st) == Refresh(env, ws, files, ids, start)
    {
      hide ModifiedRecord;
      var record := files[i];
      assert files[i..][0] == record && files[i..][1..] == files[i + 1..];
      if record.id !in ids {
        st := st.(doc := st.doc.(files := st.doc.files + [record]));
      } else {
        if record.path !in ws {
          return Err(Unreadable);
        }
        var f := ws[record.path];
        st := st.(doc := st.doc.(files := st.doc.files + [ModifiedRecord(env, f, record)],
                                 updatedAt := if st.doc.updatedAt < f.mtime then f.mtime else st.doc.updatedAt),
                  content := st.content[record.id := f.bytes]);
      }
    }
    r := Ok(st);
  }

  method ApplyRenames(env: Env, ws: Workspace, files: seq<FileRecord>, start: State, rs: seq<Rename>) returns (r: Attempt<State>)
    ensures r == RenameAll(env, ws, files, start, rs)
  {
    var st := start;
    assert rs[0..] == rs;
    for i := 0 to |rs|
      invariant RenameAll(env, ws, files, st, rs[i..]) == RenameAll(env, ws, files, start, rs)
    {
      hide RenameStep, LastRecord, Occupied;
      var e := rs[i];
      assert rs[i..][0] == e && rs[i..][1..] == rs[i + 1..];
      var current := LastRecord(files, e.id);
      if current.None? {
        return Err(UnknownFile);
      }
      if e.target.path !in ws {
        return Err(Unreadable);
      }
      var f := ws[e.target.path];
      if Some(Sha256(f.bytes)) != current.value.hash {
        return Err(RenameMismatch);
      }
      if Occupied(st.doc.files, e.target.path, Some(e.id)) {
        return Err(PathOccupied);
      }
      st := RenameStep(env, st, e, f, current.value);
    }
    r := Ok(st);
  }

  method ApplyDeletions(start: State, files: seq<FileRecord>, ids: set<string>, device: Option<string>) returns (st: State)
    ensures st == DeleteAll(start, files, ids, device)
  {
    st := start;
    assert files[0..] == files;
    for i := 0 to |files|
      invariant DeleteAll(st, files[i..], ids, device) == DeleteAll(start, files, ids, device)
    {
      hide DeleteOne;
      assert files[i..][0] == files[i] && files[i..][1..] == files[i + 1..];
      if files[i].id in ids {
        st := DeleteOne(st, files[i], device);
      }
    }
  }

  method ApplyAdditions(env: Env, ws: Workspace, start: State, changes: seq<Change>, consumed: set<string>) returns (r: Attempt<State>)
    ensures r == AddAll(env, ws, start, changes, consumed)
  {
    var st := start;
    assert changes[0..] == changes;
    for i := 0 to |changes|
      invariant AddAll(env, ws, st, changes[i..], consumed) == AddAll(env, ws, start, changes, consumed)
    {
      hide AddStep, Occupied;
      var c := changes[i];
      assert changes[i..][0] == c && changes[i..][1..] == changes[i + 1..];
      if c.kind.Untracked? && c.path !in consumed {
        if c.path !in ws {
          return Err(Unreadable);
        }
        if Occupied(st.doc.files, c.path, None) {
          return Err(PathOccupied);
        }
        st := AddStep(env, st, ws[c.path], c);
      }
    }
    r := Ok(st);
  }

  method CheckActive(ws: Workspace, start: State, files: seq<FileRecord>) returns (r: Attempt<State>)
    ensures r == CheckAll(ws, start, files)
  {
    var st := start;
    assert files[0..] == files;
    for i := 0 to |files|
      invariant CheckAll(ws, st, files[i..]) == CheckAll(ws, start, files)
    {
      var record := files[i];
      assert files[i..][0] == record && files[i..][1..] == files[i + 1..];
      if record.status.Active? && record.id !in st.content {
        if record.path !in ws {
          return Err(Unreadable);
        }
        if Some(Sha256(ws[record.path].bytes)) != record.hash {
          return Err(Drifted);
        }
        st := st.(content := st.content[record.id := ws[record.path].bytes]);
      }
    }
    r := Ok(st);
  }

  /** The commit plan for a change set. */
  method BuildPlan(env: Env, ws: Workspace, doc: Document, changes: seq<Change>, tombstones: seq<Tombstone>,
                   deleteSeq: nat, device: Option<string>) returns (r: Attempt<State>)
    ensures r == Planned(env, ws, doc, changes, tombstones, deleteSeq, device)
  {
    hide Refresh, RenameAll, DeleteAll, AddAll, CheckAll, MatchRenames, Sort;
    if exists c :: c in changes && IsUnsupported(c) {
      return Err(Unsupported);
    }
    if changes == [] && !exists t :: t in tombstones && t.revision.None? {
      return Err(NothingToSubmit);
    }
    var renames := FindRenames(doc.files, changes);
    var refreshed := ReadModified(env, ws, doc.files, IdsOf(changes, Modified), State(doc.(files := []), map[], tombstones, deleteSeq));
    if refreshed.Err? {
      return refreshed;
    }
    var renamed := ApplyRenames(env, ws, doc.files, refreshed.value, Sort(renames, RenameLeq));
    if renamed.Err? {
      return renamed;
    }
    var lost := IdsOf(changes, Missing) - RenamedIds(renames);
    var deleted := ApplyDeletions(renamed.value, doc.files, lost, device);
    var added := ApplyAdditions(env, ws, deleted, changes, Consumed(renames));
    if added.Err? {
      return added;
    }
    r := CheckActive(ws, added.value, added.value.doc.files);
  }
}
