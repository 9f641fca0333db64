/** Whole runs of the vault: the invariant survives every request, and intents commit exactly once. */
module VaultRuns {
  import opened Basics
  import opened Ordering
  import opened Manifest
  import opened Versions
  import opened Vault
  import opened VaultChain

  lemma CollectAfter(env: Env, v: VaultState, w: VaultState, now: nat, retention: int, actor: string, runId: string)
    requires EnvOk(env) && Kept(env, v, w) && w.commits == v.commits && GC_PREFIX + runId !in v.commits
    ensures Kept(env, v, CollectTombstones(env, w, now, retention, actor, runId).vault)
  {
    hide CollectTombstones, Valid, Extends, EnvOk;
    CollectKeeps(env, w, now, retention, actor, runId);
    KeptTrans(env, v, w, CollectTombstones(env, w, now, retention, actor, runId).vault);
  }

  lemma AckKeeps(env: Env, v: VaultState, device: string, revisions: seq<nat>, now: nat, runId: string)
    requires EnvOk(env) && Valid(env, v) && GC_PREFIX + runId !in v.commits
    ensures Kept(env, v, AckRevisions(env, v, device, revisions, now, runId).0)
  {
    hide Kept, CollectTombstones, Valid, EnvOk;
    SameKept(env, v);
    if AckRevisions(env, v, device, revisions, now, runId).1.Acked? {
      var actor := if device == "" then "anonymous" else device;
      var w := Raise(v, actor, Max(revisions));
      RaiseKept(env, v, v, actor, Max(revisions));
      CollectAfter(env, v, w, now, GC_RETENTION_MS, actor, runId);
    }
  }

  lemma RevokeKeeps(env: Env, v: VaultState, device: string, now: nat, runId: string)
    requires EnvOk(env) && Valid(env, v) && GC_PREFIX + runId !in v.commits
    ensures Kept(env, v, CollectTombstones(env, v.(revoked := v.revoked + {device}), now, GC_RETENTION_MS, "", runId).vault)
  {
    hide CollectTombstones, EnvOk, Agreement, Stamped, Canonical, Chain, Extends;
    var w := v.(revoked := v.revoked + {device});
    SameChain(v, w);
    SameExtends(v);
    SameExtension(v, v, w);
    hide Kept;
    CollectAfter(env, v, w, now, GC_RETENTION_MS, "", runId);
  }

  /** The version `t` is `r` with other words or another pin. */
  predicate Relabelled(r: VersionRecord, t: VersionRecord) {
    t == r.(caption := t.caption, note := t.note, pinned := t.pinned)
  }

  lemma RelabelKeeps(env: Env, s: Store, head: nat, id: string, t: VersionRecord)
    requires Agreement(s) && Stamped(env, s, head) && id in s.records && Relabelled(s.records[id], t)
    ensures var w := s.(records := s.records[id := t]);
            Agreement(w) && Stamped(env, w, head)
  {
    var w := s.(records := s.records[id := t]);
    assert NamedBy(env, s.records[id]) && NamedBy(env, t);
    hide NamedBy;
    forall f | f in w.byFile
      ensures FileAgrees(w, f)
    {
      assert FileAgrees(s, f);
      assert forall x :: Owned(s, f, x) ==> Owned(w, f, x);
    }
    forall x | x in w.records
      ensures Indexed(w, w.records[x].fileId, x)
    {
      assert Indexed(s, s.records[x].fileId, x);
    }
  }

  lemma UpdateKeeps(env: Env, v: VaultState, id: string, caption: Option<Option<string>>, note: Option<Option<string>>, pinned: Option<bool>)
    requires Valid(env, v)
    ensures Kept(env, v, UpdateVersion(v, id, caption, note, pinned).0)
  {
    var w := UpdateVersion(v, id, caption, note, pinned).0;
    SameExtends(v);
    if UpdateVersion(v, id, caption, note, pinned).1.Done? {
      RelabelKeeps(env, v.versions, v.head, id, w.versions.records[id]);
    }
    hide Agreement, Stamped, Canonical, Chain, Extends;
    SameChain(v, w);
    SameExtension(v, v, w);
  }

  /** Main result: no request, whether it succeeds or fails, breaks the vault or rewrites its history. */
  lemma ServeKeeps(env: Env, v: VaultState, q: Request)
    requires EnvOk(env) && Valid(env, v) && FreshAt(v, q)
    ensures Kept(env, v, Serve(env, v, q).0)
  {
    hide Kept, CreateCommit, AckRevisions, CollectTombstones, UpdateVersion, EnvOk, Valid;
    match q
    case CommitReq(r) => CommitKeeps(env, v, r);
    case AckReq(device, revisions, now, runId) => AckKeeps(env, v, device, revisions, now, runId);
    case CollectReq(now, retention, actor, runId) =>
      SameKept(env, v);
      CollectKeeps(env, v, now, retention, actor, runId);
    case RevokeReq(device, now, runId) => RevokeKeeps(env, v, device, now, runId);
    case VersionReq(id, caption, note, pinned) => UpdateKeeps(env, v, id, caption, note, pinned);
  }

  /** Main result: over any run, of any requests in any order, the chain invariant holds and history only grows. */
  lemma {:induction false} RunKeeps(env: Env, v: VaultState, qs: seq<Request>)
    requires EnvOk(env) && Valid(env, v) && FreshRun(env, v, qs)
    ensures Kept(env, v, Serving(env, v, qs))
    decreases |qs|
  {
    if qs == [] {
      SameKept(env, v);
    } else {
      var w := Serve(env, v, qs[0]).0;
      ServeKeeps(env, v, qs[0]);
      RunKeeps(env, w, qs[1..]);
      KeptTrans(env, v, w, Serving(env, w, qs[1..]));
    }
    hide EnvOk, FreshAt, Serve, Chain, AllCanonical, VersionsOk, Extends;
  }

  lemma NewVaultValid(env: Env, id: string, blobs: set<string>)
    ensures Valid(env, NewVault(id, blobs))
  {
  }

  // Intents.

  /** A client's commit of `intent` with `hash` is recorded at `revision`. */
  predicate Recorded(v: VaultState, intent: string, hash: Digest, revision: nat) {
    intent in v.commits && v.commits[intent].hash == hash && v.commits[intent].revision == revision && !v.commits[intent].collected
  }

  /** This request is the one that commits `intent` with `hash`, at `revision`. */
  ghost predicate CommitsAt(env: Env, v: VaultState, q: Request, intent: string, hash: Digest, revision: nat) {
    && q.CommitReq? && Lands(env, v, q.commit)
    && q.commit.intent == intent && q.commit.hash == hash && revision == v.head + 1
  }

  /** Somewhere along the run a request commits `intent` with `hash`, at `revision`. */
  ghost predicate Landed(env: Env, v: VaultState, qs: seq<Request>, intent: string, hash: Digest, revision: nat)
    decreases |qs|
  {
    qs != [] && (CommitsAt(env, v, qs[0], intent, hash, revision) || Landed(env, Serve(env, v, qs[0]).0, qs[1..], intent, hash, revision))
  }

  lemma CollectRecords(env: Env, v: VaultState, now: nat, retention: int, actor: string, runId: string, intent: string, hash: Digest, revision: nat)
    requires EnvOk(env) && AllCanonical(env, v) && GC_PREFIX + runId !in v.commits
    ensures Recorded(CollectTombstones(env, v, now, retention, actor, runId).vault, intent, hash, revision) <==> Recorded(v, intent, hash, revision)
  {
    hide CollectTombstones, AllCanonical, EnvOk, Reclaim, CollectedHead;
    if Collects(v, now, retention) {
      CollectionShape(env, v, now, retention, actor, runId);
    } else {
      CollectionIdle(env, v, now, retention, actor, runId);
    }
  }

  lemma CommitRecords(env: Env, v: VaultState, r: CommitRequest, intent: string, hash: Digest, revision: nat)
    ensures Recorded(CreateCommit(env, v, r).0, intent, hash, revision) <==>
              Recorded(v, intent, hash, revision) || CommitsAt(env, v, CommitReq(r), intent, hash, revision)
  {
    hide CreateCommit, Lands, AppendVersions, Finalize;
    if Lands(env, v, r) {
      CommitShape(env, v, r);
      Unrecorded(env, v, r);
    } else {
      CommitOtherwise(env, v, r);
    }
  }

  lemma Unrecorded(env: Env, v: VaultState, r: CommitRequest)
    requires Lands(env, v, r)
    ensures r.intent !in v.commits && Device(r) != ""
    ensures forall m: Manifest :: Advanced(v, m, r.intent, NewCommit(v, r)).commits == v.commits[r.intent := NewCommit(v, r)]
  {
  }

  lemma StepRecords(env: Env, v: VaultState, q: Request, intent: string, hash: Digest, revision: nat)
    requires EnvOk(env) && AllCanonical(env, v) && FreshAt(v, q)
    ensures Recorded(Serve(env, v, q).0, intent, hash, revision) <==>
              Recorded(v, intent, hash, revision) || CommitsAt(env, v, q, intent, hash, revision)
  {
    hide CreateCommit, CollectTombstones, EnvOk, Lands, Canonical;
    match q
    case CommitReq(r) => CommitRecords(env, v, r, intent, hash, revision);
    case AckReq(device, revisions, now, runId) =>
      var actor := if device == "" then "anonymous" else device;
      CollectRecords(env, Raise(v, actor, Max(revisions)), now, GC_RETENTION_MS, actor, runId, intent, hash, revision);
    case CollectReq(now, retention, actor, runId) => CollectRecords(env, v, now, retention, actor, runId, intent, hash, revision);
    case RevokeReq(device, now, runId) =>
      CollectRecords(env, v.(revoked := v.revoked + {device}), now, GC_RETENTION_MS, "", runId, intent, hash, revision);
    case VersionReq(_, _, _, _) =>
  }

  lemma {:induction false} RunRecords(env: Env, v: VaultState, qs: seq<Request>, intent: string, hash: Digest, revision: nat)
    requires EnvOk(env) && Valid(env, v) && FreshRun(env, v, qs)
    ensures Recorded(Serving(env, v, qs), intent, hash, revision) <==>
              Recorded(v, intent, hash, revision) || Landed(env, v, qs, intent, hash, revision)
    decreases |qs|
  {
    if qs != [] {
      ServeKeeps(env, v, qs[0]);
      StepRecords(env, v, qs[0], intent, hash, revision);
      RunRecords(env, Serve(env, v, qs[0]).0, qs[1..], intent, hash, revision);
    }
    hide EnvOk, FreshAt, Serve, Chain, AllCanonical, VersionsOk, Extends, Recorded, CommitsAt;
  }

  /** Main result: the intent query finds a client's commit exactly when, somewhere along the run, that intent
      and hash were committed at that revision. */
  lemma ResolveIffCommitted(env: Env, id: string, blobs: set<string>, qs: seq<Request>, intent: string, hash: Digest, revision: nat)
    requires EnvOk(env) && FreshRun(env, NewVault(id, blobs), qs)
    ensures var w := Serving(env, NewVault(id, blobs), qs);
            ResolveIntent(w, intent, hash) == Matched(revision) && !w.commits[intent].collected <==>
              Landed(env, NewVault(id, blobs), qs, intent, hash, revision)
  {
    NewVaultValid(env, id, blobs);
    RunRecords(env, NewVault(id, blobs), qs, intent, hash, revision);
    hide EnvOk, Serving, Landed, FreshRun, Valid;
  }

  /** An intent commits at most one revision over any run. */
  lemma CommitsOnce(env: Env, id: string, blobs: set<string>, qs: seq<Request>, intent: string,
                    h1: Digest, r1: nat, h2: Digest, r2: nat)
    requires EnvOk(env) && FreshRun(env, NewVault(id, blobs), qs)
    requires Landed(env, NewVault(id, blobs), qs, intent, h1, r1) && Landed(env, NewVault(id, blobs), qs, intent, h2, r2)
    ensures h1 == h2 && r1 == r2
  {
    hide EnvOk, Serving, Landed, FreshRun, Valid;
    ResolveIffCommitted(env, id, blobs, qs, intent, h1, r1);
    ResolveIffCommitted(env, id, blobs, qs, intent, h2, r2);
  }

  /** What a later call with the same intent is answered, and what it may change. */
  ghost predicate Replayed(env: Env, w: VaultState, again: CommitRequest, hash: Digest, revision: nat) {
    var (x, reply) := CreateCommit(env, w, again);
    if again.hash == hash
    then reply == Committed(revision, w.summary, AckOf(x, Device(again))) && x == w.(acks := x.acks)
    else reply == Rejected(ManifestConflict(w.head, w.summary)) && x == w
  }

  /** Main result: once an intent is committed, any later retry gets the same revision and commits nothing,
      and the same intent with another hash always conflicts. */
  lemma RetryIsIdempotent(env: Env, v: VaultState, r: CommitRequest, qs: seq<Request>, again: CommitRequest)
    requires EnvOk(env) && Valid(env, v) && CreateCommit(env, v, r).1.Committed?
    requires FreshRun(env, CreateCommit(env, v, r).0, qs)
    requires again.intent == r.intent && RequestError(v, again).None?
    ensures Replayed(env, Serving(env, CreateCommit(env, v, r).0, qs), again, r.hash, CreateCommit(env, v, r).1.revision)
    ensures ResolveIntent(Serving(env, CreateCommit(env, v, r).0, qs), r.intent, r.hash) == Matched(CreateCommit(env, v, r).1.revision)
  {
    var u := CreateCommit(env, v, r).0;
    CommitKeeps(env, v, r);
    CommitAnswer(env, v, r);
    RunKeeps(env, u, qs);
    RetryAnswer(env, Serving(env, u, qs), again, r.hash, CreateCommit(env, v, r).1.revision);
    hide EnvOk, Serving, FreshRun, Chain, AllCanonical, VersionsOk, CreateCommit, Replayed;
  }

  lemma CommitAnswer(env: Env, v: VaultState, r: CommitRequest)
    requires CreateCommit(env, v, r).1.Committed?
    ensures var (w, reply) := CreateCommit(env, v, r);
            r.intent in w.commits && w.commits[r.intent].hash == r.hash && w.commits[r.intent].revision == reply.revision && w.id == v.id
  {
    hide CreateCommit, Lands, AppendVersions, Finalize;
    if Lands(env, v, r) {
      CommitShape(env, v, r);
      hide Device;
    } else {
      CommitOtherwise(env, v, r);
    }
  }

  lemma RetryAnswer(env: Env, w: VaultState, again: CommitRequest, hash: Digest, revision: nat)
    requires again.intent in w.commits && w.commits[again.intent].hash == hash && w.commits[again.intent].revision == revision
    requires RequestError(w, again).None?
    ensures Replayed(env, w, again, hash, revision)
  {
    hide AppendVersions, Finalize, Device;
  }

  /** Main result: of the commits built on one revision only one ever lands; the others are told the newer head. */
  lemma OneCommitPerBase(env: Env, v: VaultState, r: CommitRequest, qs: seq<Request>, other: CommitRequest)
    requires EnvOk(env) && Valid(env, v) && Lands(env, v, r) && FreshRun(env, CreateCommit(env, v, r).0, qs)
    requires other.base == r.base && RequestError(v, other).None?
    requires other.intent !in Serving(env, CreateCommit(env, v, r).0, qs).commits
    ensures var w := Serving(env, CreateCommit(env, v, r).0, qs);
            w.head > r.base && CreateCommit(env, w, other) == (w, Rejected(BaseConflict(w.head, w.summary)))
  {
    var u := CreateCommit(env, v, r).0;
    CommitKeeps(env, v, r);
    LandedHead(env, v, r);
    RunKeeps(env, u, qs);
    StaleAnswer(env, Serving(env, u, qs), other);
    hide EnvOk, Serving, FreshRun, Chain, AllCanonical, VersionsOk, CreateCommit, Lands;
  }

  lemma LandedHead(env: Env, v: VaultState, r: CommitRequest)
    requires Lands(env, v, r)
    ensures CreateCommit(env, v, r).0.head == r.base + 1
  {
    hide CreateCommit, Lands, AppendVersions, Finalize, Device;
    CommitShape(env, v, r);
    LandedFields(env, v, r);
  }

  lemma LandedFields(env: Env, v: VaultState, r: CommitRequest)
    requires Finalize(env.nfc, r.manifest, v.head + 1).Final?
    ensures Finalize(env.nfc, r.manifest, v.head + 1).manifest.revision == v.head + 1
  {
  }

  lemma StaleAnswer(env: Env, w: VaultState, other: CommitRequest)
    requires other.base != w.head && other.intent !in w.commits && RequestError(w, other).None?
    ensures CreateCommit(env, w, other) == (w, Rejected(BaseConflict(w.head, w.summary)))
  {
    hide AppendVersions, Finalize, Device;
  }

  /** A request that is rejected, at whatever point, leaves the vault as it was. */
  lemma RejectedChangesNothing(env: Env, v: VaultState, q: Request)
    requires Serve(env, v, q).1.Rejected?
    ensures Serve(env, v, q).0 == v
  {
    hide CreateCommit, CollectTombstones;
    if q.CommitReq? && !Lands(env, v, q.commit) { CommitOtherwise(env, v, q.commit); }
  }
}
