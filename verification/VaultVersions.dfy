/** What a landing commit records besides its manifest: its references checked, its directives read, its versions stored. */
module VaultVersions {
  import opened Basics
  import opened Ordering
  import opened Manifest
  import opened Versions
  import opened Vault
  import opened VaultChain

  lemma {:induction false} RefsFound(blobs: set<string>, refs: seq<BlobRef>)
    ensures RefError(blobs, refs).None? <==> forall b :: b in refs ==> b.blobId != "" && b.fileId != "" && b.blobId in blobs
  {
    if refs != [] {
      RefsFound(blobs, refs[1..]);
      assert refs == [refs[0]] + refs[1..];
    }
  }

  /** A commit lands only if every blob it references is stored. */
  lemma LandedBlobsExist(env: Env, v: VaultState, r: CommitRequest)
    requires Lands(env, v, r)
    ensures forall b :: b in r.refs ==> b.blobId in v.blobs && b.fileId != ""
  {
    RefsFound(v.blobs, r.refs);
    hide Finalize, AppendVersions, RefError, Device;
  }

  predicate GoodDirective(d: Directive) {
    d.fileId != "" && d.source in SOURCES && d.caption != Some("") && d.note != Some("")
  }

  ghost predicate OnePerFile(ds: seq<Directive>) {
    forall i, j :: 0 <= i < j < |ds| ==> ds[i].fileId != ds[j].fileId
  }

  /** Every directive is filed under its file, and nothing else is. */
  ghost predicate Filed(ds: seq<Directive>, m: map<string, Directive>) {
    (forall d :: d in ds ==> d.fileId in m && m[d.fileId] == d) && forall id :: id in m ==> m[id] in ds && m[id].fileId == id
  }

  lemma OneMore(init: seq<Directive>, last: Directive)
    ensures OnePerFile(init + [last]) <==> OnePerFile(init) && forall d :: d in init ==> d.fileId != last.fileId
  {
    var ds := init + [last];
    if OnePerFile(ds) {
      forall d | d in init
        ensures d.fileId != last.fileId
      {
        var i :| 0 <= i < |init| && init[i] == d;
        assert ds[i].fileId != ds[|init|].fileId;
      }
      assert forall i :: 0 <= i < |init| ==> ds[i] == init[i];
    }
    if OnePerFile(init) && forall d :: d in init ==> d.fileId != last.fileId {
      assert forall i :: 0 <= i < |init| ==> init[i] in init && ds[i] == init[i];
    }
  }

  lemma ParseStep(ds: seq<Directive>)
    requires ds != []
    ensures var (p, r, last) := (ParseDirectives(ds[..|ds| - 1]), ParseDirectives(ds), ds[|ds| - 1]);
            && (r.Ok? <==> p.Ok? && GoodDirective(last) && last.fileId !in p.value)
            && (r.Ok? ==> r.value == p.value[last.fileId := last])
  {
  }

  lemma FiledMore(init: seq<Directive>, last: Directive, m: map<string, Directive>)
    requires Filed(init, m)
    ensures last.fileId in m <==> exists d :: d in init && d.fileId == last.fileId
    ensures last.fileId !in m ==> Filed(init + [last], m[last.fileId := last])
  {
  }

  /** Directives are accepted exactly when each is valid and no file has two; then each file has its own. */
  lemma {:induction false} DirectivesRead(ds: seq<Directive>)
    ensures ParseDirectives(ds).Ok? <==> (forall d :: d in ds ==> GoodDirective(d)) && OnePerFile(ds)
    ensures ParseDirectives(ds).Ok? ==> Filed(ds, ParseDirectives(ds).value)
  {
    if ds != [] {
      hide OnePerFile, GoodDirective, Filed, ParseDirectives;
      var init, last := ds[..|ds| - 1], ds[|ds| - 1];
      DirectivesRead(init);
      assert ds == init + [last];
      OneMore(init, last);
      ParseStep(ds);
      if ParseDirectives(init).Ok? { FiledMore(init, last, ParseDirectives(init).value); }
      assert forall d :: d in ds <==> d in init || d == last;
    }
  }

  /** The store after a commit's appends: its versions are there, no others came, other files' versions stay. */
  ghost predicate Recorded(env: Env, s: Store, t: Store, m: Manifest, active: map<string, FileEntry>,
                           previous: map<string, FileEntry>, ds: map<string, Directive>, ids: seq<string>) {
    && (forall f :: f in ids && NeedsVersion(f, active, previous, ds) ==> Stored(env, t, m, active, ds, f))
    && (forall id :: id in t.records ==> Kept(s, t, id) || Came(env, t, m, active, previous, ds, ids, id))
    && (forall id :: id in s.records && s.records[id].fileId !in ids ==> Kept(s, t, id))
  }

  predicate Kept(s: Store, t: Store, id: string) {
    id in s.records && id in t.records && t.records[id] == s.records[id]
  }

  predicate Stored(env: Env, t: Store, m: Manifest, active: map<string, FileEntry>, ds: map<string, Directive>, f: string)
    requires f in active
  {
    var r := VersionFor(env, m, active[f], ds);
    r.id in t.records && t.records[r.id] == r
  }

  ghost predicate Came(env: Env, t: Store, m: Manifest, active: map<string, FileEntry>, previous: map<string, FileEntry>,
                       ds: map<string, Directive>, ids: seq<string>, id: string) {
    exists f :: f in ids && NeedsVersion(f, active, previous, ds) && id == VersionFor(env, m, active[f], ds).id && Stored(env, t, m, active, ds, f)
  }

  /** One append, seen from the rest. */
  lemma AppendedOne(env: Env, s: Store, m: Manifest, active: map<string, FileEntry>, ds: map<string, Directive>, ids: seq<string>)
    requires EnvOk(env) && Agreement(s) && Stamped(env, s, m.revision) && Awaiting(s, m.revision, ids)
    requires ids != [] && NoDup(ids) && ids[0] in active && active[ids[0]].fileId == ids[0]
    ensures var r := VersionFor(env, m, active[ids[0]], ds);
            var t := Append(s, r);
            && Stored(env, t, m, active, ds, ids[0])
            && (forall id :: id in t.records && id != r.id ==> Kept(s, t, id))
            && (forall id :: id in s.records && s.records[id].fileId != ids[0] ==> Kept(s, t, id))
  {
    var r := VersionFor(env, m, active[ids[0]], ds);
    FreshVersion(env, s, m, active[ids[0]], ds, ids);
    hide Append, EnvOk, Stamped, Awaiting, Agreement, Trimmed;
    AppendVersion(s, r);
  }

  lemma {:induction false} TargetsRecorded(env: Env, s: Store, m: Manifest, active: map<string, FileEntry>,
                                           previous: map<string, FileEntry>, ds: map<string, Directive>, ids: seq<string>)
    requires EnvOk(env) && Agreement(s) && NoDup(ids) && Stamped(env, s, m.revision) && Awaiting(s, m.revision, ids)
    requires forall id :: id in active ==> active[id].fileId == id
    ensures Recorded(env, s, AppendTargets(env, s, m, active, previous, ds, ids), m, active, previous, ds, ids)
    decreases |ids|
  {
    hide Append, Agreement, EnvOk, Stamped, Awaiting, VersionFor, NeedsVersion, Recorded;
    if ids == [] {
      NoneRecorded(env, s, m, active, previous, ds);
    } else {
      NoDupTail(ids);
      AwaitingRest(s, m.revision, ids);
      var t := AppendTargets(env, s, m, active, previous, ds, ids);
      if NeedsVersion(ids[0], active, previous, ds) {
        NeededActive(ids[0], active, previous, ds);
        AppendStamped(env, s, m, active[ids[0]], ds, ids);
        AppendedOne(env, s, m, active, ds, ids);
        var u := Append(s, VersionFor(env, m, active[ids[0]], ds));
        TargetsRecorded(env, u, m, active, previous, ds, ids[1..]);
        RecordedMore(env, s, u, t, m, active, previous, ds, ids);
      } else {
        TargetsRecorded(env, s, m, active, previous, ds, ids[1..]);
        RecordedSame(env, s, t, m, active, previous, ds, ids);
      }
    }
  }

  lemma NeededActive(f: string, active: map<string, FileEntry>, previous: map<string, FileEntry>, ds: map<string, Directive>)
    requires NeedsVersion(f, active, previous, ds)
    ensures f in active
  {
  }

  lemma NoneRecorded(env: Env, s: Store, m: Manifest, active: map<string, FileEntry>, previous: map<string, FileEntry>, ds: map<string, Directive>)
    ensures Recorded(env, s, AppendTargets(env, s, m, active, previous, ds, []), m, active, previous, ds, [])
  {
  }

  lemma AwaitingRest(s: Store, revision: nat, ids: seq<string>)
    requires ids != [] && Awaiting(s, revision, ids)
    ensures Awaiting(s, revision, ids[1..])
  {
    assert forall x :: x in ids[1..] ==> x in ids;
  }

  lemma RecordedSame(env: Env, s: Store, t: Store, m: Manifest, active: map<string, FileEntry>,
                     previous: map<string, FileEntry>, ds: map<string, Directive>, ids: seq<string>)
    requires ids != [] && !NeedsVersion(ids[0], active, previous, ds) && Recorded(env, s, t, m, active, previous, ds, ids[1..])
    ensures Recorded(env, s, t, m, active, previous, ds, ids)
  {
    assert ids == [ids[0]] + ids[1..];
    hide VersionFor, NeedsVersion, Kept, Stored;
    forall id | id in t.records && Came(env, t, m, active, previous, ds, ids[1..], id)
      ensures Came(env, t, m, active, previous, ds, ids, id)
    {
      var f :| f in ids[1..] && NeedsVersion(f, active, previous, ds) && id == VersionFor(env, m, active[f], ds).id && Stored(env, t, m, active, ds, f);
      assert f in ids;
    }
  }

  lemma RecordedMore(env: Env, s: Store, u: Store, t: Store, m: Manifest, active: map<string, FileEntry>,
                     previous: map<string, FileEntry>, ds: map<string, Directive>, ids: seq<string>)
    requires ids != [] && NoDup(ids) && NeedsVersion(ids[0], active, previous, ds)
    requires forall id :: id in active ==> active[id].fileId == id
    requires Recorded(env, u, t, m, active, previous, ds, ids[1..]) && Stored(env, u, m, active, ds, ids[0])
    requires forall id :: id in u.records && id != VersionFor(env, m, active[ids[0]], ds).id ==> Kept(s, u, id)
    requires forall id :: id in s.records && s.records[id].fileId != ids[0] ==> Kept(s, u, id)
    ensures Recorded(env, s, t, m, active, previous, ds, ids)
  {
    var first := VersionFor(env, m, active[ids[0]], ds);
    assert first.fileId == ids[0];
    assert ids == [ids[0]] + ids[1..] && ids[0] !in ids[1..] by { assert forall i :: 0 <= i < |ids[1..]| ==> ids[1..][i] == ids[i + 1]; }
    hide VersionFor, NeedsVersion, NoDup;
    assert Stored(env, t, m, active, ds, ids[0]);
    forall id | id in t.records
      ensures Kept(s, t, id) || Came(env, t, m, active, previous, ds, ids, id)
    {
      if Came(env, t, m, active, previous, ds, ids[1..], id) {
        var f :| f in ids[1..] && NeedsVersion(f, active, previous, ds) && id == VersionFor(env, m, active[f], ds).id && Stored(env, t, m, active, ds, f);
        assert f in ids;
      } else if id == first.id {
        assert ids[0] in ids;
      }
    }
  }

  // What the appends of a commit leave of the older versions.

  /** At most the allowed number of regular versions of the file is stored. */
  predicate Bounded(t: Store, f: string) {
    f in t.byFile && Count(Pick(t.byFile[f], t.records), t.keepPinned) <= Room(t)
  }

  predicate SameHistory(s: Store, t: Store, f: string) {
    f in s.byFile && f in t.byFile && t.byFile[f] == s.byFile[f] && Pick(t.byFile[f], t.records) == Pick(s.byFile[f], s.records)
  }

  predicate SameSettings(s: Store, t: Store) {
    t.keepPinned == s.keepPinned && t.keepLatest == s.keepLatest
  }

  /** Pinned versions survive, each file that got a version is within its limit, other histories are untouched. */
  ghost predicate Retained(s: Store, t: Store, active: map<string, FileEntry>, previous: map<string, FileEntry>,
                           ds: map<string, Directive>, ids: seq<string>) {
    && SameSettings(s, t)
    && (forall id :: id in s.records && !Regular(s.records[id], s.keepPinned) ==> Kept(s, t, id))
    && (forall f :: f in ids && NeedsVersion(f, active, previous, ds) ==> Bounded(t, f))
    && (forall f :: f in s.byFile && f !in ids ==> SameHistory(s, t, f))
  }

  lemma {:induction false} PickSame(ids: seq<string>, a: map<string, VersionRecord>, b: map<string, VersionRecord>)
    requires forall id :: id in ids ==> id in a && id in b && a[id] == b[id]
    ensures Pick(ids, a) == Pick(ids, b)
  {
    if ids != [] { PickSame(ids[1..], a, b); }
  }

  lemma AppendSettings(s: Store, r: VersionRecord)
    ensures SameSettings(s, Append(s, r))
  {
  }

  /** One append keeps pinned versions, trims its file and leaves the other histories alone. */
  lemma AppendRetains(s: Store, t: Store, r: VersionRecord)
    requires Agreement(s) && AppendedTo(s, t, r) && SameSettings(s, t) && r.id !in s.records
    ensures forall id :: id in s.records && !Regular(s.records[id], s.keepPinned) ==> Kept(s, t, id)
    ensures Bounded(t, r.fileId)
    ensures forall f :: f in s.byFile && f != r.fileId ==> SameHistory(s, t, f)
  {
    forall id | id in s.records && !Regular(s.records[id], s.keepPinned)
      ensures Kept(s, t, id)
    {
      assert Indexed(s, s.records[id].fileId, id) && FileAgrees(s, s.records[id].fileId);
      assert s.records[id].fileId == r.fileId ==> Indexed(t, r.fileId, id) && FileAgrees(t, r.fileId);
    }
    forall f | f in s.byFile && f != r.fileId
      ensures SameHistory(s, t, f)
    {
      assert FileAgrees(s, f);
      PickSame(s.byFile[f], s.records, t.records);
    }
  }

  lemma {:induction false} TargetsRetained(env: Env, s: Store, m: Manifest, active: map<string, FileEntry>,
                                           previous: map<string, FileEntry>, ds: map<string, Directive>, ids: seq<string>)
    requires EnvOk(env) && Agreement(s) && NoDup(ids) && Stamped(env, s, m.revision) && Awaiting(s, m.revision, ids)
    requires forall id :: id in active ==> active[id].fileId == id
    ensures Retained(s, AppendTargets(env, s, m, active, previous, ds, ids), active, previous, ds, ids)
    decreases |ids|
  {
    hide Append, Agreement, EnvOk, Stamped, Awaiting, VersionFor, NeedsVersion, Retained, Bounded, SameHistory;
    if ids == [] {
      NoneRetained(s, active, previous, ds);
    } else {
      NoDupTail(ids);
      AwaitingRest(s, m.revision, ids);
      var t := AppendTargets(env, s, m, active, previous, ds, ids);
      if NeedsVersion(ids[0], active, previous, ds) {
        NeededActive(ids[0], active, previous, ds);
        AppendStamped(env, s, m, active[ids[0]], ds, ids);
        var u := Append(s, VersionFor(env, m, active[ids[0]], ds));
        FirstRetained(env, s, m, active, ds, ids);
        TargetsRetained(env, u, m, active, previous, ds, ids[1..]);
        RetainedMore(s, u, t, active, previous, ds, ids);
      } else {
        TargetsRetained(env, s, m, active, previous, ds, ids[1..]);
        RetainedSame(s, t, active, previous, ds, ids);
      }
    }
  }

  lemma NoneRetained(s: Store, active: map<string, FileEntry>, previous: map<string, FileEntry>, ds: map<string, Directive>)
    ensures Retained(s, s, active, previous, ds, [])
  {
  }

  lemma FirstRetained(env: Env, s: Store, m: Manifest, active: map<string, FileEntry>, ds: map<string, Directive>, ids: seq<string>)
    requires EnvOk(env) && Agreement(s) && Stamped(env, s, m.revision) && Awaiting(s, m.revision, ids)
    requires ids != [] && ids[0] in active && active[ids[0]].fileId == ids[0]
    ensures var u := Append(s, VersionFor(env, m, active[ids[0]], ds));
            && SameSettings(s, u) && Bounded(u, ids[0])
            && (forall id :: id in s.records && !Regular(s.records[id], s.keepPinned) ==> Kept(s, u, id))
            && (forall f :: f in s.byFile && f != ids[0] ==> SameHistory(s, u, f))
  {
    var r := VersionFor(env, m, active[ids[0]], ds);
    FreshVersion(env, s, m, active[ids[0]], ds, ids);
    hide Append, EnvOk, Stamped, Awaiting, Agreement, Trimmed, Regular, Bounded, SameHistory, AppendedTo;
    AppendVersion(s, r);
    AppendSettings(s, r);
    AppendRetains(s, Append(s, r), r);
  }

  lemma RetainedSame(s: Store, t: Store, active: map<string, FileEntry>, previous: map<string, FileEntry>,
                     ds: map<string, Directive>, ids: seq<string>)
    requires ids != [] && !NeedsVersion(ids[0], active, previous, ds) && Retained(s, t, active, previous, ds, ids[1..])
    ensures Retained(s, t, active, previous, ds, ids)
  {
    assert ids == [ids[0]] + ids[1..];
    hide NeedsVersion, Kept, Bounded, SameHistory, Regular;
  }

  lemma RetainedMore(s: Store, u: Store, t: Store, active: map<string, FileEntry>, previous: map<string, FileEntry>,
                     ds: map<string, Directive>, ids: seq<string>)
    requires ids != [] && NoDup(ids) && Retained(u, t, active, previous, ds, ids[1..])
    requires SameSettings(s, u) && Bounded(u, ids[0])
    requires forall id :: id in s.records && !Regular(s.records[id], s.keepPinned) ==> Kept(s, u, id)
    requires forall f :: f in s.byFile && f != ids[0] ==> SameHistory(s, u, f)
    ensures Retained(s, t, active, previous, ds, ids)
  {
    assert ids == [ids[0]] + ids[1..] && ids[0] !in ids[1..] by { assert forall i :: 0 <= i < |ids[1..]| ==> ids[1..][i] == ids[i + 1]; }
    hide NeedsVersion, NoDup, Regular, Pick, Count;
    assert SameHistory(u, t, ids[0]) && Bounded(t, ids[0]);
  }

  /** Main result: a landing commit stores a version of every referenced or directed file that needs one, with the
      manifest's path, hash, size and times and the directive's words; nothing else is added, versions of other
      files and pinned versions stay as they were, and each file that got a version is within its retention limit. */
  lemma LandingRecords(env: Env, v: VaultState, r: CommitRequest)
    requires EnvOk(env) && Valid(env, v) && Lands(env, v, r)
    ensures var m := Finalize(env.nfc, r.manifest, v.head + 1).manifest;
            ParseDirectives(r.directives).Ok?
            && Recorded(env, v.versions, CreateCommit(env, v, r).0.versions, m, ById(m.files), Previous(v, m.base),
                        ParseDirectives(r.directives).value, VersionTargets(r))
            && Retained(v.versions, CreateCommit(env, v, r).0.versions, ById(m.files), Previous(v, m.base),
                        ParseDirectives(r.directives).value, VersionTargets(r))
  {
    hide *;
    CommitShape(env, v, r);
    ValidParts(env, v);
    var m := Finalize(env.nfc, r.manifest, v.head + 1).manifest;
    AppendsAre(env, v, r, m);
    RaisedStore(env, v, r, m);
    FinalizeCanonical(env.nfc, r.manifest, v.head + 1);
    TargetsDistinct(r);
    HeadAwaits(env, v.versions, v.head, VersionTargets(r));
    TargetsRecorded(env, v.versions, m, ById(m.files), Previous(v, m.base), ParseDirectives(r.directives).value, VersionTargets(r));
    TargetsRetained(env, v.versions, m, ById(m.files), Previous(v, m.base), ParseDirectives(r.directives).value, VersionTargets(r));
  }

  lemma AppendsAre(env: Env, v: VaultState, r: CommitRequest, m: Manifest)
    requires AppendVersions(env, v, r, m).Ok?
    ensures ParseDirectives(r.directives).Ok?
    ensures AppendVersions(env, v, r, m).value ==
              AppendTargets(env, v.versions, m, ById(m.files), Previous(v, m.base), ParseDirectives(r.directives).value, VersionTargets(r))
  {
    hide AppendTargets, ParseDirectives, VersionTargets, ById, Previous;
  }

  lemma RaisedStore(env: Env, v: VaultState, r: CommitRequest, m: Manifest)
    requires AppendVersions(env, v, r, m).Ok?
    ensures Raise(Advanced(v, m, r.intent, NewCommit(v, r)).(versions := AppendVersions(env, v, r, m).value), Device(r), v.head + 1).versions ==
              AppendVersions(env, v, r, m).value
  {
    hide AppendVersions, Device;
  }

  /** No version of a revision that does not exist yet is stored. */
  lemma HeadAwaits(env: Env, s: Store, head: nat, ids: seq<string>)
    requires Stamped(env, s, head)
    ensures Stamped(env, s, head + 1) && Awaiting(s, head + 1, ids)
  {
    hide NamedBy;
  }

  // Acks.

  lemma {:induction false} MaxIs(xs: seq<nat>)
    requires xs != []
    ensures Max(xs) in xs && forall x :: x in xs ==> x <= Max(xs)
  {
    assert xs == [xs[0]] + xs[1..];
    if xs[1..] != [] { MaxIs(xs[1..]); }
  }

  /** An ack answers with, and stores, the highest revision the device has ever acked. */
  lemma AckRaises(env: Env, v: VaultState, device: string, revisions: seq<nat>, now: nat, runId: string)
    requires EnvOk(env) && AllCanonical(env, v) && AckRevisions(env, v, device, revisions, now, runId).1.Acked?
    ensures var (w, reply) := AckRevisions(env, v, device, revisions, now, runId);
            var actor := if device == "" then "anonymous" else device;
            && AckOf(w, actor) == reply.revision && reply.revision >= AckOf(v, actor)
            && (forall x :: x in revisions ==> 1 <= x <= v.head && x <= reply.revision)
            && (reply.revision == AckOf(v, actor) || reply.revision in revisions)
            && (forall d :: d != actor ==> AckOf(w, d) == AckOf(v, d))
  {
    var actor := if device == "" then "anonymous" else device;
    MaxIs(revisions);
    var w := Raise(v, actor, Max(revisions));
    CollectAcks(env, w, now, GC_RETENTION_MS, actor, runId);
    hide CollectTombstones, Max, EnvOk, Canonical;
  }

  lemma CollectAcks(env: Env, v: VaultState, now: nat, retention: int, actor: string, runId: string)
    requires EnvOk(env) && AllCanonical(env, v)
    ensures CollectTombstones(env, v, now, retention, actor, runId).vault.acks == v.acks
  {
    hide CollectTombstones, AllCanonical, EnvOk, CollectedHead, Canonical, Keep, Reclaim;
    if Collects(v, now, retention) {
      CollectionShape(env, v, now, retention, actor, runId);
    } else {
      CollectionIdle(env, v, now, retention, actor, runId);
    }
  }
}
