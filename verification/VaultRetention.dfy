/** What a landing commit leaves of the versions stored before it. */
module VaultRetention {
  import opened Basics
  import opened Ordering
  import opened Manifest
  import opened Versions
  import opened Vault
  import opened VaultChain
  import opened VersionRetention
  import opened VaultRecords
  import VaultVersions

  lemma AppendedFrame(s: Store, t: Store, r: VersionRecord)
    requires AppendedTo(s, t, r)
    ensures t.records[r.id] == r
    ensures forall id :: id in t.records && id != r.id ==> At(s.records, id) == Some(t.records[id])
    ensures forall id :: id in s.records && s.records[id].fileId != r.fileId ==> id in t.records
  {
    hide Agreement, Trimmed, Indexed, Regular;
  }

  /** One append leaves the versions of other files as they are. */
  lemma OtherFile(s: Store, r: VersionRecord, f: string)
    requires Agreement(s) && r.id !in s.records && r.fileId != f
    requires forall id :: Owned(s, r.fileId, id) ==> s.records[id].revision < r.revision
    ensures var t := Append(s, r);
            && (forall id :: id in s.records && s.records[id].fileId == f ==> At(t.records, id) == Some(s.records[id]))
            && (forall id :: id in t.records && t.records[id].fileId == f ==> At(s.records, id) == Some(t.records[id]))
            && t.keepPinned == s.keepPinned && t.keepLatest == s.keepLatest
  {
    hide Append, AppendedTo, Agreement;
    AppendVersion(s, r);
    VaultVersions.AppendSettings(s, r);
    AppendedFrame(s, Append(s, r), r);
  }

  lemma AheadSame(s: Store, t: Store, r: VersionRecord, x: VersionRecord)
    requires forall id :: id in s.records && s.records[id].fileId == r.fileId ==> At(t.records, id) == Some(s.records[id])
    requires forall id :: id in t.records && t.records[id].fileId == r.fileId ==> At(s.records, id) == Some(t.records[id])
    requires t.keepPinned == s.keepPinned
    ensures Ahead(t, r, x) == Ahead(s, r, x)
  {
    hide Newer;
  }

  /** What the appends for some targets leave of one version. */
  ghost predicate Leaves(env: Env, s: Store, t: Store, m: Manifest, active: map<string, FileEntry>, previous: map<string, FileEntry>,
                         ds: map<string, Directive>, ids: seq<string>, x: VersionRecord) {
    && (x.id in t.records ==> t.records[x.id] == x)
    && if x.fileId in ids && NeedsVersion(x.fileId, active, previous, ds)
       then x.id in t.records <==> KeptForPin(s, x) || |Ahead(s, VersionFor(env, m, active[x.fileId], ds), x)| < Limit(s)
       else x.id in t.records
  }

  /** A version of an older revision cannot come back under the name of a new one. */
  lemma NotNew(env: Env, s: Store, m: Manifest, e: FileEntry, ds: map<string, Directive>, x: VersionRecord)
    requires EnvOk(env) && NamedBy(env, x) && x.revision < m.revision
    ensures x.id != VersionFor(env, m, e, ds).id
  {
    var vault :| x.id == env.versionId(VersionKey(vault, x.fileId, x.revision, x.blobId, x.source));
    if x.id == VersionFor(env, m, e, ds).id {
      SameKey(env, VersionKey(vault, x.fileId, x.revision, x.blobId, x.source),
              VersionKey(m.vault, e.fileId, m.revision, e.blobId, SourceOf(ds, e.fileId)));
    }
  }

  lemma StaysGone(env: Env, u: Store, t: Store, m: Manifest, active: map<string, FileEntry>, previous: map<string, FileEntry>,
                  ds: map<string, Directive>, ids: seq<string>, x: VersionRecord)
    requires EnvOk(env) && NamedBy(env, x) && x.revision < m.revision && x.id !in u.records
    requires VaultVersions.Recorded(env, u, t, m, active, previous, ds, ids)
    ensures x.id !in t.records
  {
    hide VersionFor, NamedBy, EnvOk, VaultVersions.Stored;
    if x.id in t.records {
      var f :| f in ids && NeedsVersion(f, active, previous, ds) && x.id == VersionFor(env, m, active[f], ds).id;
      NotNew(env, u, m, active[f], ds, x);
    }
  }

  lemma {:induction false} TargetsLeave(env: Env, s: Store, m: Manifest, active: map<string, FileEntry>, previous: map<string, FileEntry>,
                                        ds: map<string, Directive>, ids: seq<string>, x: VersionRecord)
    requires EnvOk(env) && Agreement(s) && NoDup(ids) && Stamped(env, s, m.revision) && Awaiting(s, m.revision, ids)
    requires forall id :: id in active ==> active[id].fileId == id
    requires x.id in s.records && s.records[x.id] == x && x.revision < m.revision
    ensures Leaves(env, s, AppendTargets(env, s, m, active, previous, ds, ids), m, active, previous, ds, ids, x)
    decreases |ids|
  {
    hide Append, Agreement, EnvOk, Stamped, Awaiting, VersionFor, NeedsVersion, Leaves, NoDup;
    if ids == [] {
      NoneLeave(env, s, m, active, previous, ds, x);
    } else {
      NoDupTail(ids);
      HeadNew(ids);
      VaultVersions.AwaitingRest(s, m.revision, ids);
      if NeedsVersion(ids[0], active, previous, ds) {
        VaultVersions.NeededActive(ids[0], active, previous, ds);
        FirstLeaves(env, s, m, active, previous, ds, ids, x);
      } else {
        TargetsLeave(env, s, m, active, previous, ds, ids[1..], x);
        LeavesSame(env, s, m, active, previous, ds, ids, x);
      }
    }
  }

  lemma HeadNew(ids: seq<string>)
    requires ids != [] && NoDup(ids)
    ensures ids[0] !in ids[1..]
  {
    assert forall i :: 0 <= i < |ids[1..]| ==> ids[1..][i] == ids[i + 1];
  }

  lemma NoneLeave(env: Env, s: Store, m: Manifest, active: map<string, FileEntry>, previous: map<string, FileEntry>,
                  ds: map<string, Directive>, x: VersionRecord)
    requires x.id in s.records && s.records[x.id] == x
    ensures Leaves(env, s, AppendTargets(env, s, m, active, previous, ds, []), m, active, previous, ds, [], x)
  {
  }

  lemma LeavesSame(env: Env, s: Store, m: Manifest, active: map<string, FileEntry>, previous: map<string, FileEntry>,
                   ds: map<string, Directive>, ids: seq<string>, x: VersionRecord)
    requires ids != [] && !NeedsVersion(ids[0], active, previous, ds)
    requires Leaves(env, s, AppendTargets(env, s, m, active, previous, ds, ids[1..]), m, active, previous, ds, ids[1..], x)
    ensures Leaves(env, s, AppendTargets(env, s, m, active, previous, ds, ids), m, active, previous, ds, ids, x)
  {
    assert ids == [ids[0]] + ids[1..];
    hide NeedsVersion, VersionFor, Ahead, KeptForPin;
  }

  lemma FirstLeaves(env: Env, s: Store, m: Manifest, active: map<string, FileEntry>, previous: map<string, FileEntry>,
                    ds: map<string, Directive>, ids: seq<string>, x: VersionRecord)
    requires EnvOk(env) && Agreement(s) && NoDup(ids) && Stamped(env, s, m.revision) && Awaiting(s, m.revision, ids)
    requires forall id :: id in active ==> active[id].fileId == id
    requires x.id in s.records && s.records[x.id] == x && x.revision < m.revision
    requires ids != [] && NoDup(ids[1..]) && ids[0] !in ids[1..] && NeedsVersion(ids[0], active, previous, ds)
    ensures Leaves(env, s, AppendTargets(env, s, m, active, previous, ds, ids), m, active, previous, ds, ids, x)
    decreases |ids|, 0
  {
    VaultVersions.NeededActive(ids[0], active, previous, ds);
    var r := VersionFor(env, m, active[ids[0]], ds);
    var u := Append(s, r);
    FreshVersion(env, s, m, active[ids[0]], ds, ids);
    AppendStamped(env, s, m, active[ids[0]], ds, ids);
    assert NamedBy(env, x);
    hide *;
    AppendFirst(env, s, m, active, previous, ds, ids);
    VersionFile(env, m, active[ids[0]], ds);
    RetentionIs(s, r, x);
    if x.id in u.records {
      TargetsLeave(env, u, m, active, previous, ds, ids[1..], x);
      if x.fileId != ids[0] {
        OtherFile(s, r, x.fileId);
        if NeedsVersion(x.fileId, active, previous, ds) {
          VaultVersions.NeededActive(x.fileId, active, previous, ds);
          VersionFile(env, m, active[x.fileId], ds);
          AheadSame(s, u, VersionFor(env, m, active[x.fileId], ds), x);
        }
        LeavesLater(env, s, u, m, active, previous, ds, ids, x);
      } else {
        LeavesFirst(env, s, u, m, active, previous, ds, ids, x);
      }
    } else {
      VaultVersions.TargetsRecorded(env, u, m, active, previous, ds, ids[1..]);
      var t := AppendTargets(env, u, m, active, previous, ds, ids[1..]);
      StaysGone(env, u, t, m, active, previous, ds, ids[1..], x);
      LeavesGone(env, s, t, m, active, previous, ds, ids, x);
    }
  }

  lemma AppendFirst(env: Env, s: Store, m: Manifest, active: map<string, FileEntry>, previous: map<string, FileEntry>,
                    ds: map<string, Directive>, ids: seq<string>)
    requires ids != [] && NeedsVersion(ids[0], active, previous, ds) && ids[0] in active
    ensures AppendTargets(env, s, m, active, previous, ds, ids) ==
              AppendTargets(env, Append(s, VersionFor(env, m, active[ids[0]], ds)), m, active, previous, ds, ids[1..])
  {
    hide Append, VersionFor;
  }

  lemma VersionFile(env: Env, m: Manifest, e: FileEntry, ds: map<string, Directive>)
    ensures VersionFor(env, m, e, ds).fileId == e.fileId
  {
  }

  lemma LeavesLater(env: Env, s: Store, u: Store, m: Manifest, active: map<string, FileEntry>, previous: map<string, FileEntry>,
                    ds: map<string, Directive>, ids: seq<string>, x: VersionRecord)
    requires ids != [] && x.fileId != ids[0] && u.keepPinned == s.keepPinned && u.keepLatest == s.keepLatest
    requires NeedsVersion(x.fileId, active, previous, ds) ==>
               Ahead(u, VersionFor(env, m, active[x.fileId], ds), x) == Ahead(s, VersionFor(env, m, active[x.fileId], ds), x)
    requires Leaves(env, u, AppendTargets(env, u, m, active, previous, ds, ids[1..]), m, active, previous, ds, ids[1..], x)
    ensures Leaves(env, s, AppendTargets(env, u, m, active, previous, ds, ids[1..]), m, active, previous, ds, ids, x)
  {
    assert ids == [ids[0]] + ids[1..];
    hide NeedsVersion, VersionFor, Ahead;
  }

  lemma LeavesFirst(env: Env, s: Store, u: Store, m: Manifest, active: map<string, FileEntry>, previous: map<string, FileEntry>,
                    ds: map<string, Directive>, ids: seq<string>, x: VersionRecord)
    requires ids != [] && x.fileId == ids[0] && ids[0] !in ids[1..] && NeedsVersion(ids[0], active, previous, ds)
    requires KeptForPin(s, x) || |Ahead(s, VersionFor(env, m, active[ids[0]], ds), x)| < Limit(s)
    requires Leaves(env, u, AppendTargets(env, u, m, active, previous, ds, ids[1..]), m, active, previous, ds, ids[1..], x)
    ensures Leaves(env, s, AppendTargets(env, u, m, active, previous, ds, ids[1..]), m, active, previous, ds, ids, x)
  {
    hide VersionFor, Ahead, KeptForPin;
  }

  lemma LeavesGone(env: Env, s: Store, t: Store, m: Manifest, active: map<string, FileEntry>, previous: map<string, FileEntry>,
                   ds: map<string, Directive>, ids: seq<string>, x: VersionRecord)
    requires ids != [] && x.fileId == ids[0] && NeedsVersion(ids[0], active, previous, ds) && x.id !in t.records
    requires !(KeptForPin(s, x) || |Ahead(s, VersionFor(env, m, active[ids[0]], ds), x)| < Limit(s))
    ensures Leaves(env, s, t, m, active, previous, ds, ids, x)
  {
    hide VersionFor, Ahead, KeptForPin;
  }

  /** Main result: of the versions a vault has, a landing commit drops exactly those of the files it stores a new version `y` of that are
      not kept for a pin and are outnumbered: as many newer ones as the limit allows, the new one among them, are there. */
  lemma LandingLeaves(env: Env, v: VaultState, r: CommitRequest, x: VersionRecord)
    requires EnvOk(env) && Valid(env, v) && Lands(env, v, r) && x.id in v.versions.records && v.versions.records[x.id] == x
    ensures var w := CreateCommit(env, v, r).0;
            && w.head in w.manifests && (x.id in w.versions.records ==> w.versions.records[x.id] == x)
            && ((exists e :: Due(v, r, w.manifests[w.head], e) && e.fileId == x.fileId) ==>
                  exists e, y :: Due(v, r, w.manifests[w.head], e) && e.fileId == x.fileId && VersionOf(env, v, r, e, y) &&
                                 (x.id in w.versions.records <==> KeptForPin(v.versions, x) || |Ahead(v.versions, y, x)| < Limit(v.versions)))
            && ((forall e :: Due(v, r, w.manifests[w.head], e) ==> e.fileId != x.fileId) ==> x.id in w.versions.records)
  {
    LandedManifest(env, v, r);
    var m := Finalize(env.nfc, r.manifest, v.head + 1).manifest;
    var f := x.fileId;
    var (active, ds) := (ById(m.files), ParseDirectives(r.directives));
    LandingTargets(env, v, r, x);
    NeedIsDue(v, r, m, f);
    if f in active { VersionFields(env, v, r, m, active[f]); }
    hide CreateCommit, Lands, Finalize, VersionFor, VersionOf, ById, ParseDirectives, NeedsVersion, VersionTargets, EnvOk, Previous,
         AllCanonical, Agreement, NamedBy, AppendTargets, Ahead, KeptForPin, Target, Directed, InBase;
    if e :| Due(v, r, m, e) && e.fileId == f {
      ListedIndexed(m.files, f);
      assert f in active && active[f] == e by { hide Listed, Due; DueListed(v, r, m, e); assert At(active, f) == Some(e); }
    }
  }

  lemma DueListed(v: VaultState, r: CommitRequest, m: Manifest, e: FileEntry)
    requires Due(v, r, m, e)
    ensures Listed(m.files, e)
  {
  }

  lemma OldVersion(env: Env, v: VaultState, x: VersionRecord)
    requires Valid(env, v) && x.id in v.versions.records && v.versions.records[x.id] == x
    ensures x.revision <= v.head
  {
    hide Chain, AllCanonical, Agreement;
  }

  lemma LandingTargets(env: Env, v: VaultState, r: CommitRequest, x: VersionRecord)
    requires EnvOk(env) && Valid(env, v) && Lands(env, v, r) && x.id in v.versions.records && v.versions.records[x.id] == x
    ensures var m := Finalize(env.nfc, r.manifest, v.head + 1).manifest;
            && ParseDirectives(r.directives).Ok?
            && Leaves(env, v.versions, CreateCommit(env, v, r).0.versions, m, ById(m.files), Previous(v, m.base),
                      ParseDirectives(r.directives).value, VersionTargets(r), x)
  {
    hide *;
    OldVersion(env, v, x);
    CommitShape(env, v, r);
    ValidParts(env, v);
    var m := Finalize(env.nfc, r.manifest, v.head + 1).manifest;
    VaultVersions.AppendsAre(env, v, r, m);
    VaultVersions.RaisedStore(env, v, r, m);
    FinalizeCanonical(env.nfc, r.manifest, v.head + 1);
    TargetsDistinct(r);
    VaultVersions.HeadAwaits(env, v.versions, v.head, VersionTargets(r));
    TargetsLeave(env, v.versions, m, ById(m.files), Previous(v, m.base), ParseDirectives(r.directives).value, VersionTargets(r), x);
  }
}
