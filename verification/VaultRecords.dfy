/** The versions a landing commit stores, told field by field from the request and the two manifests. */
module VaultRecords {
  import opened Basics
  import opened Ordering
  import opened Manifest
  import opened Versions
  import opened Vault
  import opened VaultChain
  import VaultVersions

  /** The entry a manifest has for its file: the last one listed. */
  ghost predicate Listed(files: seq<FileEntry>, e: FileEntry) {
    exists k :: 0 <= k < |files| && files[k] == e && LastAt(files, k)
  }

  ghost predicate LastAt(files: seq<FileEntry>, k: nat)
    requires k < |files|
  {
    forall j :: k < j < |files| ==> files[j].fileId != files[k].fileId
  }

  lemma {:induction false} ListedIndexed(files: seq<FileEntry>, id: string)
    ensures forall e :: Listed(files, e) && e.fileId == id <==> At(ById(files), id) == Some(e)
  {
    if files != [] {
      var n := |files| - 1;
      ListedIndexed(files[..n], id);
      forall e
        ensures Listed(files, e) && e.fileId == id <==> At(ById(files), id) == Some(e)
      {
        ListedLast(files, e);
      }
    }
  }

  lemma ListedLast(files: seq<FileEntry>, e: FileEntry)
    requires files != []
    ensures var last := files[|files| - 1];
            Listed(files, e) <==> if last.fileId == e.fileId then e == last else Listed(files[..|files| - 1], e)
  {
    var n := |files| - 1;
    if Listed(files, e) {
      var k :| 0 <= k < |files| && files[k] == e && LastAt(files, k);
      if k < n { assert files[..n][k] == e && LastAt(files[..n], k); }
    }
    if Listed(files[..n], e) && files[n].fileId != e.fileId {
      var k :| 0 <= k < n && files[..n][k] == e && LastAt(files[..n], k);
      assert forall j :: k < j < n ==> files[..n][j] == files[j];
      assert LastAt(files, k);
    }
    if files[n] == e { assert LastAt(files, n); }
  }

  /** The commit references a blob of the file or directs a version of it. */
  ghost predicate Target(r: CommitRequest, file: string) {
    (exists b :: b in r.refs && b.fileId == file) || Directed(r, file)
  }

  ghost predicate Directed(r: CommitRequest, file: string) {
    exists d :: d in r.directives && d.fileId == file
  }

  /** The manifest the commit builds on has the very content of the entry. */
  ghost predicate InBase(v: VaultState, e: FileEntry) {
    v.head in v.manifests &&
    exists p :: Listed(v.manifests[v.head].files, p) && p.fileId == e.fileId && p.contentHash == e.contentHash && p.blobId == e.blobId
  }

  /** The record is a version of the entry at the new revision: named after vault, file, revision, blob and source, with the entry's
      place, content and times, who committed it and when, and the directive's source, words and pin, or the defaults of a plain
      commit. */
  ghost predicate VersionOf(env: Env, v: VaultState, r: CommitRequest, e: FileEntry, x: VersionRecord) {
    && x.id == env.versionId(VersionKey(v.id, e.fileId, v.head + 1, e.blobId, x.source))
    && x.fileId == e.fileId && x.revision == v.head + 1 && x.blobId == e.blobId && x.path == e.path
    && x.contentHash == e.contentHash && x.size == e.size && x.mtime == e.mtime
    && x.createdAt == r.manifest.createdAt && x.createdBy == r.manifest.createdBy
    && (forall d :: d in r.directives && d.fileId == e.fileId ==>
          x.source == d.source && x.caption == d.caption && x.note == d.note && x.pinned == d.pinned)
    && (!Directed(r, e.fileId) ==> x.source == "commit_success" && x.caption == None && x.note == None && !x.pinned)
  }

  /** The entry is one a version is due for. */
  ghost predicate Due(v: VaultState, r: CommitRequest, m: Manifest, e: FileEntry) {
    Listed(m.files, e) && Target(r, e.fileId) && (Directed(r, e.fileId) || !InBase(v, e))
  }

  ghost predicate HasVersion(env: Env, v: VaultState, r: CommitRequest, t: Store, e: FileEntry) {
    exists id :: id in t.records && VersionOf(env, v, r, e, t.records[id])
  }

  lemma {:induction false} DedupeSame(xs: seq<string>, id: string)
    ensures id in Dedupe(xs) <==> id in xs
  {
    if xs != [] {
      DedupeSame(xs[..|xs| - 1], id);
      assert xs == xs[..|xs| - 1] + [xs[|xs| - 1]];
    }
  }

  lemma TargetsAre(r: CommitRequest, file: string)
    ensures file in VersionTargets(r) <==> Target(r, file)
  {
    hide Sort, Dedupe, Ordering.Map;
    var (a, b) := (Map((b: BlobRef) => b.fileId, r.refs), Map((d: Directive) => d.fileId, r.directives));
    SameElements(VersionTargets(r), Dedupe(a + b));
    DedupeSame(a + b, file);
    if x :| x in r.refs && x.fileId == file {
      var i :| 0 <= i < |r.refs| && r.refs[i] == x;
      assert a[i] == file;
    }
    if x :| x in r.directives && x.fileId == file {
      var i :| 0 <= i < |r.directives| && r.directives[i] == x;
      assert b[i] == file;
    }
    if file in a {
      var i :| 0 <= i < |a| && a[i] == file;
      assert r.refs[i] in r.refs;
    }
    if file in b {
      var i :| 0 <= i < |b| && b[i] == file;
      assert r.directives[i] in r.directives;
    }
  }

  /** The code's test is that a version is due. */
  lemma NeedIsDue(v: VaultState, r: CommitRequest, m: Manifest, f: string)
    requires Chain(v) && r.manifest.base == v.head && m.base == v.head && ParseDirectives(r.directives).Ok?
    ensures var (active, ds) := (ById(m.files), ParseDirectives(r.directives).value);
            f in VersionTargets(r) && NeedsVersion(f, active, Previous(v, m.base), ds) <==>
              f in active && Due(v, r, m, active[f])
  {
    var active := ById(m.files);
    TargetsAre(r, f);
    VaultVersions.DirectivesRead(r.directives);
    ListedIndexed(m.files, f);
    if v.head in v.manifests { ListedIndexed(v.manifests[v.head].files, f); }
    hide ById, Listed, VersionTargets, Target, ParseDirectives, VaultVersions.OnePerFile, Bijective, AcksBelow;
    if f in active {
      assert f in ParseDirectives(r.directives).value <==> Directed(r, f);
      BaseOf(v, active[f], f);
    }
  }

  lemma BaseOf(v: VaultState, e: FileEntry, f: string)
    requires Linked(v) && e.fileId == f
    ensures var previous := Previous(v, v.head);
            InBase(v, e) <==> f in previous && previous[f].contentHash == e.contentHash && previous[f].blobId == e.blobId
  {
    if v.head in v.manifests { ListedIndexed(v.manifests[v.head].files, f); }
    hide ById, Listed;
  }

  lemma VersionFields(env: Env, v: VaultState, r: CommitRequest, m: Manifest, e: FileEntry)
    requires ParseDirectives(r.directives).Ok? && m.revision == v.head + 1 && m.vault == v.id
    requires m.createdAt == r.manifest.createdAt && m.createdBy == r.manifest.createdBy
    ensures VersionOf(env, v, r, e, VersionFor(env, m, e, ParseDirectives(r.directives).value))
    ensures VersionFor(env, m, e, ParseDirectives(r.directives).value).fileId == e.fileId
  {
    VaultVersions.DirectivesRead(r.directives);
    hide ParseDirectives, VaultVersions.OnePerFile;
  }

  /** The manifest a landing commit makes the head. */
  lemma LandedManifest(env: Env, v: VaultState, r: CommitRequest)
    requires Lands(env, v, r)
    ensures var (w, f) := (CreateCommit(env, v, r).0, Finalize(env.nfc, r.manifest, v.head + 1));
            && f.Final? && w.head == v.head + 1 && w.head in w.manifests && w.manifests[w.head] == f.manifest
            && r.manifest.base == v.head && f.manifest.vault == v.id && f.manifest.base == v.head && f.manifest.revision == v.head + 1
            && f.manifest.createdAt == r.manifest.createdAt && f.manifest.createdBy == r.manifest.createdBy
  {
    hide AppendVersions, Device, Files, Tombstones, FirstError, RefError;
    CommitShape(env, v, r);
  }

  lemma DueStored(env: Env, v: VaultState, r: CommitRequest, t: Store, e: FileEntry)
    requires EnvOk(env) && Valid(env, v) && Lands(env, v, r) && t == CreateCommit(env, v, r).0.versions
    requires Due(v, r, CreateCommit(env, v, r).0.manifests[CreateCommit(env, v, r).0.head], e)
    ensures HasVersion(env, v, r, t, e)
  {
    LandedManifest(env, v, r);
    var m := Finalize(env.nfc, r.manifest, v.head + 1).manifest;
    ListedIndexed(m.files, e.fileId);
    VaultVersions.LandingRecords(env, v, r);
    NeedIsDue(v, r, m, e.fileId);
    VersionFields(env, v, r, m, e);
    hide CreateCommit, Lands, Finalize, VersionFor, VersionOf, ById, ParseDirectives, NeedsVersion, VersionTargets, Due, EnvOk, Previous;
    var x := VersionFor(env, m, e, ParseDirectives(r.directives).value);
    assert VaultVersions.Stored(env, t, m, ById(m.files), ParseDirectives(r.directives).value, e.fileId);
    assert t.records[x.id] == x;
  }

  lemma StoredDue(env: Env, v: VaultState, r: CommitRequest, t: Store, id: string)
    requires EnvOk(env) && Valid(env, v) && Lands(env, v, r) && t == CreateCommit(env, v, r).0.versions && id in t.records
    ensures var m := CreateCommit(env, v, r).0.manifests[CreateCommit(env, v, r).0.head];
            if t.records[id].revision == v.head + 1 then exists e :: Due(v, r, m, e) && VersionOf(env, v, r, e, t.records[id])
            else At(v.versions.records, id) == Some(t.records[id])
  {
    LandedManifest(env, v, r);
    assert Stamped(env, v.versions, v.head);
    hide CreateCommit, Lands, Finalize, VersionFor, VersionOf, ById, ParseDirectives, NeedsVersion, VersionTargets, Due, EnvOk,
         Previous, AllCanonical, Agreement, NamedBy;
    var m := Finalize(env.nfc, r.manifest, v.head + 1).manifest;
    VaultVersions.LandingRecords(env, v, r);
    var (active, ds) := (ById(m.files), ParseDirectives(r.directives).value);
    if !VaultVersions.Kept(v.versions, t, id) {
      var f :| f in VersionTargets(r) && NeedsVersion(f, active, Previous(v, m.base), ds) &&
               id == VersionFor(env, m, active[f], ds).id && VaultVersions.Stored(env, t, m, active, ds, f);
      NeedIsDue(v, r, m, f);
      VersionFields(env, v, r, m, active[f]);
      VersionAt(env, v, r, active[f], t.records[id]);
    }
  }

  lemma VersionAt(env: Env, v: VaultState, r: CommitRequest, e: FileEntry, x: VersionRecord)
    requires VersionOf(env, v, r, e, x)
    ensures x.revision == v.head + 1
  {
  }

  /** Main result: a landing commit at revision n stores a version at n of exactly those entries of its manifest that it
      references or directs and that are directed, new, or of another content than in the manifest it builds on; each has the
      entry's place, content and times and the directive's words. Whatever else is stored was stored before. */
  lemma VersionsLanded(env: Env, v: VaultState, r: CommitRequest)
    requires EnvOk(env) && Valid(env, v) && Lands(env, v, r)
    ensures var w := CreateCommit(env, v, r).0;
            && w.head == v.head + 1 && w.head in w.manifests
            && (forall e :: Due(v, r, w.manifests[w.head], e) ==> HasVersion(env, v, r, w.versions, e))
            && (forall id :: id in w.versions.records ==>
                  if w.versions.records[id].revision == w.head
                  then exists e :: Due(v, r, w.manifests[w.head], e) && VersionOf(env, v, r, e, w.versions.records[id])
                  else At(v.versions.records, id) == Some(w.versions.records[id]))
  {
    LandedManifest(env, v, r);
    var w := CreateCommit(env, v, r).0;
    hide CreateCommit, Lands, Finalize, VersionOf, Due, EnvOk, Valid, HasVersion;
    forall e | Due(v, r, w.manifests[w.head], e)
      ensures HasVersion(env, v, r, w.versions, e)
    {
      DueStored(env, v, r, w.versions, e);
    }
    forall id | id in w.versions.records
      ensures if w.versions.records[id].revision == w.head
              then exists e :: Due(v, r, w.manifests[w.head], e) && VersionOf(env, v, r, e, w.versions.records[id])
              else At(v.versions.records, id) == Some(w.versions.records[id])
    {
      StoredDue(env, v, r, w.versions, id);
    }
  }
}
