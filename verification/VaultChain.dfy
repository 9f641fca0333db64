/** What every run of the vault keeps: the revision chain, the intents and the version store. */
module VaultChain {
  import opened Basics
  import opened Ordering
  import opened Manifest
  import opened Versions
  import opened Vault

  /** Manifests are exactly revisions 1 to head, each built on the one before, and the head's summary is stored. */
  ghost predicate Linked(v: VaultState) {
    && (forall r: nat :: r in v.manifests <==> 1 <= r <= v.head)
    && (forall r :: r in v.manifests ==> v.manifests[r].revision == r && v.manifests[r].base == r - 1)
    && v.summary == (if v.head in v.manifests then v.manifests[v.head].summary else Unset)
  }

  ghost predicate CommittedAt(v: VaultState, r: nat) {
    exists i :: i in v.commits && v.commits[i].revision == r
  }

  /** Commits and revisions correspond one to one. */
  ghost predicate Bijective(v: VaultState) {
    && (forall i :: i in v.commits ==> 1 <= v.commits[i].revision <= v.head)
    && (forall i, j :: i in v.commits && j in v.commits && v.commits[i].revision == v.commits[j].revision ==> i == j)
    && (forall r: nat :: 1 <= r <= v.head ==> CommittedAt(v, r))
  }

  ghost predicate AcksBelow(v: VaultState) {
    forall d :: d in v.acks ==> v.acks[d] <= v.head
  }

  ghost predicate Chain(v: VaultState) {
    Linked(v) && Bijective(v) && AcksBelow(v)
  }

  ghost predicate AllCanonical(env: Env, v: VaultState) {
    forall r :: r in v.manifests ==> Canonical(env.nfc, v.manifests[r])
  }

  /** The record is named after its own fields. */
  ghost predicate NamedBy(env: Env, x: VersionRecord) {
    exists vault :: x.id == env.versionId(VersionKey(vault, x.fileId, x.revision, x.blobId, x.source))
  }

  /** Every record is named after its own fields and belongs to a revision up to `head`. */
  ghost predicate Stamped(env: Env, s: Store, head: nat) {
    forall id :: id in s.records ==> s.records[id].revision <= head && s.records[id].id == id && NamedBy(env, s.records[id])
  }

  ghost predicate VersionsOk(env: Env, v: VaultState) {
    Agreement(v.versions) && Stamped(env, v.versions, v.head)
  }

  ghost predicate Valid(env: Env, v: VaultState) {
    Chain(v) && AllCanonical(env, v) && VersionsOk(env, v)
  }

  /** Nothing recorded is ever rewritten: manifests and commits stay, acks only grow. */
  ghost predicate Extends(v: VaultState, w: VaultState) {
    && v.head <= w.head && v.id == w.id
    && (forall r :: r in v.manifests ==> r in w.manifests && w.manifests[r] == v.manifests[r])
    && (forall i :: i in v.commits ==> i in w.commits && w.commits[i] == v.commits[i])
    && (forall d :: d in v.acks ==> d in w.acks && v.acks[d] <= w.acks[d])
  }

  /** The run id of a collection is a fresh random one. */
  predicate FreshAt(v: VaultState, q: Request) {
    match q
    case AckReq(_, _, _, runId) => GC_PREFIX + runId !in v.commits
    case CollectReq(_, _, _, runId) => GC_PREFIX + runId !in v.commits
    case RevokeReq(_, _, runId) => GC_PREFIX + runId !in v.commits
    case _ => true
  }

  ghost predicate FreshRun(env: Env, v: VaultState, qs: seq<Request>)
    decreases |qs|
  {
    qs == [] || (FreshAt(v, qs[0]) && FreshRun(env, Serve(env, v, qs[0]).0, qs[1..]))
  }

  lemma AdvanceChain(v: VaultState, m: Manifest, intent: string, c: Commit)
    requires Chain(v) && m.revision == v.head + 1 && m.base == v.head && intent !in v.commits && c.revision == m.revision
    ensures Chain(Advanced(v, m, intent, c)) && Extends(v, Advanced(v, m, intent, c))
  {
    var w := Advanced(v, m, intent, c);
    AdvanceBijective(v, m, intent, c);
    hide Bijective;
  }

  lemma AdvanceBijective(v: VaultState, m: Manifest, intent: string, c: Commit)
    requires Bijective(v) && m.revision == v.head + 1 && intent !in v.commits && c.revision == m.revision
    ensures Bijective(Advanced(v, m, intent, c))
  {
    var w := Advanced(v, m, intent, c);
    forall r: nat | 1 <= r <= w.head
      ensures CommittedAt(w, r)
    {
      if r == m.revision {
        assert intent in w.commits && w.commits[intent].revision == r;
      } else {
        assert CommittedAt(v, r);
        var i :| i in v.commits && v.commits[i].revision == r;
        assert i in w.commits && w.commits[i].revision == r;
      }
    }
  }

  lemma RaiseChain(v: VaultState, device: string, revision: nat)
    requires Chain(v) && revision <= v.head
    ensures Chain(Raise(v, device, revision)) && Extends(v, Raise(v, device, revision))
  {
    var w := Raise(v, device, revision);
    assert Linked(w);
    forall r | CommittedAt(v, r)
      ensures CommittedAt(w, r)
    {
      var i :| i in v.commits && v.commits[i].revision == r;
      assert i in w.commits && w.commits[i].revision == r;
    }
    assert Bijective(w);
    hide Linked, Bijective;
  }

  /** None of `ids` has a version at `revision` yet. */
  ghost predicate Awaiting(s: Store, revision: nat, ids: seq<string>) {
    forall id :: id in s.records && s.records[id].revision == revision ==> s.records[id].fileId !in ids
  }

  lemma FreshVersion(env: Env, s: Store, m: Manifest, e: FileEntry, ds: map<string, Directive>, ids: seq<string>)
    requires EnvOk(env) && Stamped(env, s, m.revision) && Awaiting(s, m.revision, ids) && e.fileId in ids
    ensures var r := VersionFor(env, m, e, ds);
            r.id !in s.records && forall id :: Owned(s, r.fileId, id) ==> s.records[id].revision < r.revision
  {
    var r := VersionFor(env, m, e, ds);
    if r.id in s.records {
      var x := s.records[r.id];
      var vault :| x.id == env.versionId(VersionKey(vault, x.fileId, x.revision, x.blobId, x.source));
      SameKey(env, VersionKey(vault, x.fileId, x.revision, x.blobId, x.source),
              VersionKey(m.vault, e.fileId, m.revision, e.blobId, SourceOf(ds, e.fileId)));
      assert false;
    }
  }

  lemma SameKey(env: Env, a: VersionKey, b: VersionKey)
    requires EnvOk(env) && env.versionId(a) == env.versionId(b)
    ensures a == b
  {
  }

  lemma AppendStamped(env: Env, s: Store, m: Manifest, e: FileEntry, ds: map<string, Directive>, ids: seq<string>)
    requires EnvOk(env) && Agreement(s) && Stamped(env, s, m.revision) && Awaiting(s, m.revision, ids)
    requires ids != [] && NoDup(ids) && e.fileId == ids[0]
    ensures var t := Append(s, VersionFor(env, m, e, ds));
            Agreement(t) && Stamped(env, t, m.revision) && Awaiting(t, m.revision, ids[1..])
  {
    var r := VersionFor(env, m, e, ds);
    FreshVersion(env, s, m, e, ds, ids);
    assert NamedBy(env, r) by {
      assert r.id == env.versionId(VersionKey(m.vault, r.fileId, r.revision, r.blobId, r.source));
    }
    hide VersionFor, Append, EnvOk, NamedBy;
    AppendVersion(s, r);
    StampsKept(env, s, Append(s, r), r, m.revision, ids);
  }

  lemma StampsKept(env: Env, s: Store, t: Store, r: VersionRecord, revision: nat, ids: seq<string>)
    requires AppendedTo(s, t, r) && Stamped(env, s, revision) && Awaiting(s, revision, ids) && NamedBy(env, r)
    requires r.revision == revision && ids != [] && NoDup(ids) && r.fileId == ids[0]
    ensures Agreement(t) && Stamped(env, t, revision) && Awaiting(t, revision, ids[1..])
  {
    hide Agreement, Trimmed, NamedBy, Indexed;
    assert ids[0] !in ids[1..];
    assert forall x :: x in ids[1..] ==> x in ids;
  }

  lemma {:induction false} TargetsKeep(env: Env, s: Store, m: Manifest, active: map<string, FileEntry>,
                                       previous: map<string, FileEntry>, ds: map<string, Directive>, ids: seq<string>)
    requires EnvOk(env) && Agreement(s) && NoDup(ids) && Stamped(env, s, m.revision) && Awaiting(s, m.revision, ids)
    requires forall id :: id in active ==> active[id].fileId == id
    ensures var t := AppendTargets(env, s, m, active, previous, ds, ids);
            Agreement(t) && Stamped(env, t, m.revision)
    decreases |ids|
  {
    if ids != [] {
      NoDupTail(ids);
      assert forall x :: x in ids[1..] ==> x in ids;
      assert Awaiting(s, m.revision, ids[1..]);
      var t := s;
      if NeedsVersion(ids[0], active, previous, ds) {
        AppendStamped(env, s, m, active[ids[0]], ds, ids);
        t := Append(s, VersionFor(env, m, active[ids[0]], ds));
      }
      hide Append, Agreement, EnvOk, Stamped, Awaiting, NoDup, VersionFor;
      TargetsKeep(env, t, m, active, previous, ds, ids[1..]);
    }
  }

  lemma NoDupTail(ids: seq<string>)
    requires ids != [] && NoDup(ids)
    ensures NoDup(ids[1..])
  {
    assert forall i :: 0 <= i < |ids[1..]| ==> ids[1..][i] == ids[i + 1];
  }

  lemma TargetsDistinct(r: CommitRequest)
    ensures NoDup(VersionTargets(r))
  {
    var ids := Dedupe(Map((b: BlobRef) => b.fileId, r.refs) + Map((d: Directive) => d.fileId, r.directives));
    NoDupPermutes(ids, VersionTargets(r));
  }

  lemma AppendKeeps(env: Env, v: VaultState, r: CommitRequest, m: Manifest)
    requires EnvOk(env) && VersionsOk(env, v) && m.revision == v.head + 1 && AppendVersions(env, v, r, m).Ok?
    ensures Agreement(AppendVersions(env, v, r, m).value) && Stamped(env, AppendVersions(env, v, r, m).value, m.revision)
  {
    TargetsDistinct(r);
    hide VersionTargets, AppendTargets;
    TargetsKeep(env, v.versions, m, ById(m.files), Previous(v, m.base), ParseDirectives(r.directives).value, VersionTargets(r));
  }

  /** What a request must leave true, whatever it answers. */
  ghost predicate Kept(env: Env, v: VaultState, w: VaultState) {
    Valid(env, w) && Extends(v, w)
  }

  lemma SameExtends(v: VaultState)
    ensures Extends(v, v)
  {
  }

  lemma ExtendsTrans(a: VaultState, b: VaultState, c: VaultState)
    requires Extends(a, b) && Extends(b, c)
    ensures Extends(a, c)
  {
  }

  lemma SameChain(a: VaultState, b: VaultState)
    requires Chain(a) && b == a.(versions := b.versions, revoked := b.revoked)
    ensures Chain(b)
  {
    forall r | CommittedAt(a, r)
      ensures CommittedAt(b, r)
    {
      var i :| i in a.commits && a.commits[i].revision == r;
      assert i in b.commits;
    }
  }

  lemma SameExtension(v: VaultState, a: VaultState, b: VaultState)
    requires Extends(v, a) && b == a.(versions := b.versions, revoked := b.revoked)
    ensures Extends(v, b)
  {
  }

  lemma AdvancedCanonical(env: Env, v: VaultState, m: Manifest, intent: string, c: Commit, store: Store)
    requires AllCanonical(env, v) && Canonical(env.nfc, m)
    ensures AllCanonical(env, Advanced(v, m, intent, c).(versions := store))
  {
    hide Canonical;
  }

  /** A new head built on the old one, with a store that fits it, keeps everything. */
  lemma AdvancedKept(env: Env, v: VaultState, m: Manifest, intent: string, c: Commit, store: Store)
    requires Valid(env, v) && Canonical(env.nfc, m) && m.revision == v.head + 1 && m.base == v.head
    requires intent !in v.commits && c.revision == m.revision
    requires Agreement(store) && Stamped(env, store, m.revision)
    ensures Kept(env, v, Advanced(v, m, intent, c).(versions := store))
  {
    var a := Advanced(v, m, intent, c);
    var b := a.(versions := store);
    hide Agreement, Stamped, Canonical, AllCanonical, Chain, Extends;
    AdvanceChain(v, m, intent, c);
    AdvancedCanonical(env, v, m, intent, c, store);
    SameChain(a, b);
    SameExtension(v, a, b);
  }

  lemma RaiseKept(env: Env, v: VaultState, w: VaultState, device: string, revision: nat)
    requires Kept(env, v, w) && revision <= w.head
    ensures Kept(env, v, Raise(w, device, revision))
  {
    hide Agreement, Stamped, Canonical, Chain, Extends;
    RaiseChain(w, device, revision);
    ExtendsTrans(v, w, Raise(w, device, revision));
  }

  lemma KeptTrans(env: Env, a: VaultState, b: VaultState, c: VaultState)
    requires Kept(env, a, b) && Kept(env, b, c)
    ensures Kept(env, a, c)
  {
    hide Valid, Extends;
    ExtendsTrans(a, b, c);
  }

  lemma SameKept(env: Env, v: VaultState)
    requires Valid(env, v)
    ensures Kept(env, v, v)
  {
    hide Valid;
    SameExtends(v);
  }

  /** A commit that is neither a retry nor rejected. */
  ghost predicate Lands(env: Env, v: VaultState, r: CommitRequest) {
    CreateCommit(env, v, r).1.Committed? && r.intent !in v.commits
  }

  function NewCommit(v: VaultState, r: CommitRequest): Commit {
    Commit(r.hash, v.head + 1, Device(r), r.now, false)
  }

  /** What a landing commit stores and answers. */
  lemma CommitShape(env: Env, v: VaultState, r: CommitRequest)
    requires Lands(env, v, r)
    ensures r.base == v.head && r.manifest.base == v.head && Finalize(env.nfc, r.manifest, v.head + 1).Final?
    ensures var m := Finalize(env.nfc, r.manifest, v.head + 1).manifest;
            && AppendVersions(env, v, r, m).Ok?
            && CreateCommit(env, v, r).0 ==
                 Raise(Advanced(v, m, r.intent, NewCommit(v, r)).(versions := AppendVersions(env, v, r, m).value), Device(r), v.head + 1)
            && CreateCommit(env, v, r).1.revision == v.head + 1 && CreateCommit(env, v, r).1.summary == m.summary
  {
    hide AppendVersions, Advanced, Raise, RefError, Device, Files, Tombstones, FirstError;
  }

  /** Anything else a commit call does is at most an ack. */
  lemma CommitOtherwise(env: Env, v: VaultState, r: CommitRequest)
    requires !Lands(env, v, r)
    ensures var (w, reply) := CreateCommit(env, v, r);
            (reply.Rejected? && w == v)
            || (reply.Committed? && r.intent in v.commits && v.commits[r.intent].hash == r.hash
                && reply.revision == v.commits[r.intent].revision && w == Raise(v, Device(r), reply.revision))
  {
    hide AppendVersions, Finalize, Advanced, Raise, RefError, Device, RequestError;
  }

  lemma ValidParts(env: Env, v: VaultState)
    requires EnvOk(env) && Valid(env, v)
    ensures NfcOk(env.nfc) && Chain(v) && AllCanonical(env, v) && VersionsOk(env, v)
    ensures Agreement(v.versions) && Stamped(env, v.versions, v.head)
  {
  }

  lemma NewCommitFields(env: Env, v: VaultState, r: CommitRequest, m: Manifest)
    requires Lands(env, v, r)
    ensures r.intent !in v.commits && NewCommit(v, r).revision == v.head + 1
    ensures Advanced(v, m, r.intent, NewCommit(v, r)).head == m.revision
  {
  }

  lemma LandingKept(env: Env, v: VaultState, r: CommitRequest)
    requires EnvOk(env) && Valid(env, v) && Lands(env, v, r)
    ensures Kept(env, v, CreateCommit(env, v, r).0)
  {
    hide *;
    CommitShape(env, v, r);
    var m := Finalize(env.nfc, r.manifest, v.head + 1).manifest;
    var c := NewCommit(v, r);
    ValidParts(env, v);
    NewCommitFields(env, v, r, m);
    FinalizeCanonical(env.nfc, r.manifest, v.head + 1);
    AppendKeeps(env, v, r, m);
    var store := AppendVersions(env, v, r, m).value;
    AdvancedKept(env, v, m, r.intent, c, store);
    RaiseKept(env, v, Advanced(v, m, r.intent, c).(versions := store), Device(r), v.head + 1);
  }

  lemma CommitKeeps(env: Env, v: VaultState, r: CommitRequest)
    requires EnvOk(env) && Valid(env, v)
    ensures Kept(env, v, CreateCommit(env, v, r).0)
  {
    hide Kept, CreateCommit, Lands, Raise, Agreement, Stamped, Canonical, EnvOk;
    SameKept(env, v);
    if Lands(env, v, r) {
      LandingKept(env, v, r);
    } else {
      CommitOtherwise(env, v, r);
      if CreateCommit(env, v, r).1.Committed? { RaiseKept(env, v, v, Device(r), v.commits[r.intent].revision); }
    }
  }

  lemma {:induction false} KeepSorted(acks: map<string, nat>, active: set<string>, ts: seq<Tombstone>, now: int, retention: int)
    requires Sorted(ts, TombstoneLeq)
    ensures Sorted(Keep(acks, active, ts, now, retention), TombstoneLeq)
  {
    if ts != [] {
      var init := ts[..|ts| - 1];
      KeepSorted(acks, active, init, now, retention);
      var kept := Keep(acks, active, init, now, retention);
      forall i | 0 <= i < |kept|
        ensures TombstoneLeq(kept[i], ts[|ts| - 1])
      {
        assert kept[i] in kept && kept[i] in init;
        var k :| 0 <= k < |init| && init[k] == kept[i];
        assert ts[k] == init[k];
      }
    }
  }

  lemma CollectionNormal(env: Env, v: VaultState, m: Manifest, kept: seq<Tombstone>, now: nat, actor: string)
    requires Canonical(env.nfc, m) && Sorted(kept, TombstoneLeq) && forall t :: t in kept ==> t in m.tombstones
    ensures NormalForm(env.nfc, CollectionOf(v, m, kept, now, actor))
  {
    NoTombstoneError(m.tombstones);
    NoTombstoneError(kept);
  }

  /** Something can be reclaimed from the head. */
  ghost predicate Collects(v: VaultState, now: nat, retention: int) {
    v.head in v.manifests && Reclaim(v.acks, ActiveDevices(v), v.manifests[v.head].tombstones, now, retention) != []
  }

  function KeptTombstones(v: VaultState, now: nat, retention: int): seq<Tombstone>
    requires v.head in v.manifests
  {
    Keep(v.acks, ActiveDevices(v), v.manifests[v.head].tombstones, now, retention)
  }

  /** The new head of a collection is the old one with only the kept tombstones. */
  lemma CollectionFinal(env: Env, v: VaultState, now: nat, retention: int, actor: string)
    requires EnvOk(env) && AllCanonical(env, v) && v.head in v.manifests
    ensures var m := v.manifests[v.head];
            var f := Finalize(env.nfc, CollectionOf(v, m, KeptTombstones(v, now, retention), now, actor), v.head + 1);
            && f.Final? && Canonical(env.nfc, f.manifest)
            && f.manifest.revision == v.head + 1 && f.manifest.base == v.head
            && f.manifest.files == m.files && f.manifest.tombstones == KeptTombstones(v, now, retention)
  {
    var m := v.manifests[v.head];
    var kept := KeptTombstones(v, now, retention);
    assert Canonical(env.nfc, m);
    KeepSorted(v.acks, ActiveDevices(v), m.tombstones, now, retention);
    hide Keep, ActiveDevices, AllCanonical, Finalize, Reclaimable, FirstError;
    CollectionNormal(env, v, m, kept, now, actor);
    FinalizeFixed(env.nfc, CollectionOf(v, m, kept, now, actor), v.head + 1);
    hide NormalForm, Canonical;
    FinalizeCanonical(env.nfc, CollectionOf(v, m, kept, now, actor), v.head + 1);
  }

  function CollectedHead(env: Env, v: VaultState, now: nat, retention: int, actor: string): Manifest
    requires v.head in v.manifests
  {
    var f := Finalize(env.nfc, CollectionOf(v, v.manifests[v.head], KeptTombstones(v, now, retention), now, actor), v.head + 1);
    if f.Final? then f.manifest else v.manifests[v.head]
  }

  /** What a collection that reclaims something leaves. */
  lemma CollectionShape(env: Env, v: VaultState, now: nat, retention: int, actor: string, runId: string)
    requires EnvOk(env) && AllCanonical(env, v) && Collects(v, now, retention)
    ensures var f := CollectedHead(env, v, now, retention, actor);
            var s := CollectTombstones(env, v, now, retention, actor, runId);
            && s.vault == Advanced(v, f, GC_PREFIX + runId, Commit(OfSummary(f.summary), v.head + 1, f.createdBy, now, true))
            && s.reclaimed == Reclaim(v.acks, ActiveDevices(v), v.manifests[v.head].tombstones, now, retention)
            && Canonical(env.nfc, f) && f.revision == v.head + 1 && f.base == v.head
            && f.files == v.manifests[v.head].files && f.tombstones == KeptTombstones(v, now, retention)
  {
    hide Keep, Reclaim, Finalize, Canonical, AllCanonical, EnvOk, BlockedBy, ActiveDevices, Advanced, CollectionOf, Ordering.Map;
    CollectionFinal(env, v, now, retention, actor);
  }

  lemma CollectionIdle(env: Env, v: VaultState, now: nat, retention: int, actor: string, runId: string)
    requires !Collects(v, now, retention)
    ensures CollectTombstones(env, v, now, retention, actor, runId).vault == v
    ensures CollectTombstones(env, v, now, retention, actor, runId).reclaimed == []
  {
    hide Keep, Reclaim, Finalize, BlockedBy, ActiveDevices, Advanced;
  }

  lemma StampedLater(env: Env, s: Store, head: nat, later: nat)
    requires Stamped(env, s, head) && head <= later
    ensures Stamped(env, s, later)
  {
    hide NamedBy;
  }

  lemma CollectKeeps(env: Env, v: VaultState, now: nat, retention: int, actor: string, runId: string)
    requires EnvOk(env) && Valid(env, v) && GC_PREFIX + runId !in v.commits
    ensures Kept(env, v, CollectTombstones(env, v, now, retention, actor, runId).vault)
  {
    hide Kept, CollectTombstones, Reclaim, Keep, Agreement, Stamped, Canonical, AllCanonical, Chain, EnvOk, CollectedHead;
    SameKept(env, v);
    if Collects(v, now, retention) {
      CollectionShape(env, v, now, retention, actor, runId);
      var f := CollectedHead(env, v, now, retention, actor);
      StampedLater(env, v.versions, v.head, v.head + 1);
      AdvancedKept(env, v, f, GC_PREFIX + runId, Commit(OfSummary(f.summary), v.head + 1, f.createdBy, now, true), v.versions);
    } else {
      CollectionIdle(env, v, now, retention, actor, runId);
    }
  }
}
