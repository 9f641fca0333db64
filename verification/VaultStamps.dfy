/** Deletions over runs: which revision a tombstone is stamped with, and whose acks it waits for. */
module VaultStamps {
  import opened Basics
  import opened Ordering
  import opened Manifest
  import opened Versions
  import opened Vault
  import opened VaultChain
  import opened VaultRuns

  /** The head lists no tombstone of the file with a revision below `n`, or with none. */
  ghost predicate StampedFrom(v: VaultState, file: string, n: nat) {
    && v.head >= n && v.head in v.manifests
    && forall t :: t in v.manifests[v.head].tombstones && t.fileId == file ==> t.deletedRevision.Some? && t.deletedRevision.value >= n
  }

  /** A commit that lists tombstones of the file claims no deletion before `n`. */
  ghost predicate Claims(q: Request, file: string, n: nat) {
    q.CommitReq? ==> forall t :: t in q.commit.manifest.tombstones && t.fileId == file ==>
      t.deletedRevision.None? || t.deletedRevision.value >= n
  }

  ghost predicate AllClaim(qs: seq<Request>, file: string, n: nat) {
    forall q :: q in qs ==> Claims(q, file, n)
  }

  lemma LandedHead(env: Env, v: VaultState, r: CommitRequest)
    requires Lands(env, v, r)
    ensures var w := CreateCommit(env, v, r).0;
            && Finalize(env.nfc, r.manifest, v.head + 1).Final? && w.head == v.head + 1 && w.head in w.manifests
            && w.manifests[w.head] == Finalize(env.nfc, r.manifest, v.head + 1).manifest
  {
    hide AppendVersions, Device, Files, Tombstones, FirstError, RefError, RequestError;
    CommitShape(env, v, r);
  }

  /** A landing commit stamps with its own revision what it lists without one. */
  lemma LandingStamps(env: Env, v: VaultState, r: CommitRequest, file: string, n: nat)
    requires Lands(env, v, r) && Claims(CommitReq(r), file, n) && v.head + 1 >= n
    ensures StampedFrom(CreateCommit(env, v, r).0, file, n)
  {
    LandedHead(env, v, r);
    TombstonesFrom(env.nfc, r.manifest, v.head + 1);
    hide Lands, CreateCommit, Finalize;
  }

  lemma CollectStamps(env: Env, v: VaultState, now: nat, retention: int, actor: string, runId: string, file: string, n: nat)
    requires EnvOk(env) && AllCanonical(env, v) && StampedFrom(v, file, n)
    ensures StampedFrom(CollectTombstones(env, v, now, retention, actor, runId).vault, file, n)
  {
    hide CollectTombstones, AllCanonical, EnvOk, CollectedHead, Canonical, Keep, Reclaim, Reclaimable, ActiveDevices;
    if Collects(v, now, retention) {
      CollectionShape(env, v, now, retention, actor, runId);
    } else {
      CollectionIdle(env, v, now, retention, actor, runId);
    }
  }

  lemma ServeStamps(env: Env, v: VaultState, q: Request, file: string, n: nat)
    requires EnvOk(env) && AllCanonical(env, v) && StampedFrom(v, file, n) && Claims(q, file, n)
    ensures StampedFrom(Serve(env, v, q).0, file, n)
  {
    hide CreateCommit, CollectTombstones, EnvOk, Canonical, Lands;
    match q
    case CommitReq(r) =>
      if Lands(env, v, r) { LandingStamps(env, v, r, file, n); } else { CommitOtherwise(env, v, r); }
    case AckReq(device, revisions, now, runId) =>
      var actor := if device == "" then "anonymous" else device;
      CollectStamps(env, Raise(v, actor, Max(revisions)), now, GC_RETENTION_MS, actor, runId, file, n);
    case CollectReq(now, retention, actor, runId) => CollectStamps(env, v, now, retention, actor, runId, file, n);
    case RevokeReq(device, now, runId) =>
      CollectStamps(env, v.(revoked := v.revoked + {device}), now, GC_RETENTION_MS, "", runId, file, n);
    case VersionReq(_, _, _, _) =>
  }

  lemma {:induction false} RunStamps(env: Env, v: VaultState, qs: seq<Request>, file: string, n: nat)
    requires EnvOk(env) && Valid(env, v) && FreshRun(env, v, qs) && StampedFrom(v, file, n) && AllClaim(qs, file, n)
    ensures StampedFrom(Serving(env, v, qs), file, n)
    decreases |qs|
  {
    if qs != [] {
      ServeKeeps(env, v, qs[0]);
      ServeStamps(env, v, qs[0], file, n);
      RunStamps(env, Serve(env, v, qs[0]).0, qs[1..], file, n);
    }
    hide EnvOk, FreshAt, Serve, Chain, AllCanonical, VersionsOk, Extends, StampedFrom, Claims;
  }

  /** The tombstone is in the head before the request and no longer after it. */
  ghost predicate Dropped(v: VaultState, w: VaultState, t: Tombstone) {
    && v.head in v.manifests && t in v.manifests[v.head].tombstones
    && w.head in w.manifests && t !in w.manifests[w.head].tombstones
  }

  /** Every device that has joined and is not revoked has acked revision `n`. */
  ghost predicate AllAcked(v: VaultState, n: int) {
    forall d :: d in v.acks && d !in v.revoked ==> v.acks[d] >= n
  }

  lemma CollectDrops(env: Env, v: VaultState, now: nat, retention: int, actor: string, runId: string, t: Tombstone)
    requires EnvOk(env) && AllCanonical(env, v)
    ensures var w := CollectTombstones(env, v, now, retention, actor, runId).vault;
            && w.acks == v.acks && w.revoked == v.revoked
            && (Dropped(v, w, t) ==> t.deletedRevision.Some? && AllAcked(w, t.deletedRevision.value) &&
                                     (retention <= 0 || now - t.deletedAt >= retention))
  {
    hide CollectTombstones, AllCanonical, EnvOk, CollectedHead, Canonical, Keep, Reclaim;
    if Collects(v, now, retention) {
      CollectionShape(env, v, now, retention, actor, runId);
      if Dropped(v, CollectTombstones(env, v, now, retention, actor, runId).vault, t) { Waits(v, now, retention, t); }
    } else {
      CollectionIdle(env, v, now, retention, actor, runId);
    }
  }

  lemma Waits(v: VaultState, now: int, retention: int, t: Tombstone)
    requires Reclaimable(v.acks, ActiveDevices(v), t, now, retention)
    ensures t.deletedRevision.Some? && AllAcked(v, t.deletedRevision.value) && (retention <= 0 || now - t.deletedAt >= retention)
  {
    forall d | d in v.acks && d !in v.revoked
      ensures v.acks[d] >= t.deletedRevision.value
    {
      assert d !in Lagging(v.acks, ActiveDevices(v), t.deletedRevision.value);
    }
  }

  /** A request that is no commit drops a tombstone only when every active device has acked its revision. */
  lemma ServeDrops(env: Env, v: VaultState, q: Request, t: Tombstone)
    requires EnvOk(env) && AllCanonical(env, v) && !q.CommitReq? && Dropped(v, Serve(env, v, q).0, t)
    ensures t.deletedRevision.Some? && AllAcked(Serve(env, v, q).0, t.deletedRevision.value)
  {
    hide CollectTombstones, EnvOk, Canonical, AllAcked, Max;
    match q
    case AckReq(device, revisions, now, runId) =>
      var actor := if device == "" then "anonymous" else device;
      CollectDrops(env, Raise(v, actor, Max(revisions)), now, GC_RETENTION_MS, actor, runId, t);
    case CollectReq(now, retention, actor, runId) => CollectDrops(env, v, now, retention, actor, runId, t);
    case RevokeReq(device, now, runId) =>
      CollectDrops(env, v.(revoked := v.revoked + {device}), now, GC_RETENTION_MS, "", runId, t);
    case VersionReq(_, _, _, _) =>
  }

  /** Main result: a deletion committed at revision `n` waits for everyone. As long as no client claims an earlier deletion of the
      file, no later request but a commit drops a tombstone of it from the head before every joined, unrevoked device has
      acked `n`, whatever comes in between. */
  lemma DeletionsWait(env: Env, v: VaultState, r: CommitRequest, qs: seq<Request>, q: Request, t: Tombstone)
    requires EnvOk(env) && Valid(env, v) && Lands(env, v, r) && FreshRun(env, CreateCommit(env, v, r).0, qs)
    requires Claims(CommitReq(r), t.fileId, v.head + 1) && AllClaim(qs, t.fileId, v.head + 1) && !q.CommitReq?
    requires Dropped(Serving(env, CreateCommit(env, v, r).0, qs), Serve(env, Serving(env, CreateCommit(env, v, r).0, qs), q).0, t)
    ensures AllAcked(Serve(env, Serving(env, CreateCommit(env, v, r).0, qs), q).0, v.head + 1)
  {
    var u := CreateCommit(env, v, r).0;
    var x := Serving(env, u, qs);
    LandingKept(env, v, r);
    LandingStamps(env, v, r, t.fileId, v.head + 1);
    RunKeeps(env, u, qs);
    RunStamps(env, u, qs, t.fileId, v.head + 1);
    ServeDrops(env, x, q, t);
    hide EnvOk, Serving, Serve, CreateCommit, Lands, FreshRun, Chain, AllCanonical, VersionsOk, Extends;
  }
}
