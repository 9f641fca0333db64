/** The server's vault: commits, acks and tombstone collection as functions from state to state. */
module Vault {
  import opened Basics
  import opened Ordering
  import opened Manifest
  import opened Versions

  datatype VersionKey = VersionKey(vault: string, fileId: string, revision: nat, blobId: string, source: string)

  /** Library behaviour the vault relies on: NFC and the digest that names a version. */
  datatype Env = Env(nfc: Nfc, versionId: VersionKey -> string)

  ghost predicate EnvOk(env: Env) {
    NfcOk(env.nfc) && forall a, b :: env.versionId(a) == env.versionId(b) ==> a == b
  }

  datatype Digest = Text(value: string) | OfSummary(summary: Summary)
  datatype Commit = Commit(hash: Digest, revision: nat, createdBy: string, at: int, collected: bool)

  datatype VaultState = VaultState(id: string, head: nat, summary: Summary, manifests: map<nat, Manifest>,
                                   commits: map<string, Commit>, acks: map<string, nat>, versions: Store,
                                   blobs: set<string>, revoked: set<string>)

  datatype BlobRef = BlobRef(fileId: string, blobId: string)
  datatype Directive = Directive(fileId: string, source: string, caption: Option<string>, note: Option<string>, pinned: bool)
  datatype CommitRequest = CommitRequest(intent: string, base: nat, hash: Digest, manifest: Manifest, device: string,
                                         authDevice: string, refs: seq<BlobRef>, directives: seq<Directive>, now: int)

  datatype Error = InvalidRequest | InvalidManifest | BlobMissing(blobId: string)
                 | ManifestConflict(head: nat, summary: Summary) | BaseConflict(head: nat, summary: Summary)
                 | AckAhead | VersionUnknown

  datatype Attempt<T> = Ok(value: T) | Err(error: Error)
  datatype Reply = Committed(revision: nat, summary: Summary, acked: nat) | Acked(revision: nat) | Done | Rejected(error: Error)

  const SOURCES := {"commit_success", "manual_checkpoint", "manual_meeting_checkpoint", "restore"}
  const GC_RETENTION_MS := 7 * 24 * 60 * 60 * 1000
  const GC_ACTOR := "server:tombstone-gc"
  const GC_PREFIX := "tombstone-gc:"

  // Commits.

  function Device(r: CommitRequest): string {
    if r.device != "" then r.device else if r.manifest.createdBy != "" then r.manifest.createdBy else r.authDevice
  }

  function RequestError(v: VaultState, r: CommitRequest): Option<Error> {
    if r.intent == "" || r.hash == Text("") then Some(InvalidRequest)
    else if r.manifest.vault != v.id || r.manifest.base != r.base then Some(InvalidManifest)
    else if Device(r) == "" then Some(InvalidRequest)
    else None
  }

  function RefError(blobs: set<string>, refs: seq<BlobRef>): Option<Error> {
    if refs == [] then None
    else if refs[0].blobId == "" || refs[0].fileId == "" then Some(InvalidRequest)
    else if refs[0].blobId !in blobs then Some(BlobMissing(refs[0].blobId))
    else RefError(blobs, refs[1..])
  }

  function ParseDirectives(ds: seq<Directive>): Attempt<map<string, Directive>> {
    if ds == [] then Ok(map[])
    else
      var d := ds[|ds| - 1];
      match ParseDirectives(ds[..|ds| - 1])
      case Err(e) => Err(e)
      case Ok(m) =>
        if d.fileId == "" || d.fileId in m || d.source !in SOURCES || d.caption == Some("") || d.note == Some("")
        then Err(InvalidRequest) else Ok(m[d.fileId := d])
  }

  function ById(files: seq<FileEntry>): (m: map<string, FileEntry>)
    ensures forall id :: id in m ==> m[id].fileId == id && m[id] in files
  {
    if files == [] then map[]
    else
      var e := files[|files| - 1];
      assert files == files[..|files| - 1] + [e];
      ById(files[..|files| - 1])[e.fileId := e]
  }

  function Dedupe(xs: seq<string>): (ys: seq<string>)
    ensures NoDup(ys)
  {
    if xs == [] then []
    else
      var ys := Dedupe(xs[..|xs| - 1]);
      if xs[|xs| - 1] in ys then ys else ys + [xs[|xs| - 1]]
  }

  function VersionTargets(r: CommitRequest): seq<string> {
    Sort(Dedupe(Map((b: BlobRef) => b.fileId, r.refs) + Map((d: Directive) => d.fileId, r.directives)), StrLeq)
  }

  function SourceOf(ds: map<string, Directive>, id: string): string {
    if id in ds then ds[id].source else "commit_success"
  }

  function VersionFor(env: Env, m: Manifest, e: FileEntry, ds: map<string, Directive>): VersionRecord {
    var source := SourceOf(ds, e.fileId);
    VersionRecord(env.versionId(VersionKey(m.vault, e.fileId, m.revision, e.blobId, source)), e.fileId, m.revision,
                  e.blobId, source, e.path, e.contentHash, e.size, e.mtime, m.createdAt, m.createdBy,
                  e.fileId in ds && ds[e.fileId].pinned,
                  if e.fileId in ds then ds[e.fileId].caption else None,
                  if e.fileId in ds then ds[e.fileId].note else None)
  }

  /** A referenced file gets a version when a directive asks for one or its content changed. */
  predicate NeedsVersion(id: string, active: map<string, FileEntry>, previous: map<string, FileEntry>, ds: map<string, Directive>) {
    id in active && (id in ds || id !in previous
                     || previous[id].contentHash != active[id].contentHash || previous[id].blobId != active[id].blobId)
  }

  function AppendTargets(env: Env, s: Store, m: Manifest, active: map<string, FileEntry>, previous: map<string, FileEntry>,
                         ds: map<string, Directive>, ids: seq<string>): Store
    decreases |ids|
  {
    if ids == [] then s
    else
      var t := if NeedsVersion(ids[0], active, previous, ds) then Append(s, VersionFor(env, m, active[ids[0]], ds)) else s;
      AppendTargets(env, t, m, active, previous, ds, ids[1..])
  }

  function Previous(v: VaultState, base: nat): map<string, FileEntry> {
    if base == 0 || base !in v.manifests then map[] else ById(v.manifests[base].files)
  }

  function AppendVersions(env: Env, v: VaultState, r: CommitRequest, m: Manifest): Attempt<Store> {
    var ds := ParseDirectives(r.directives);
    if ds.Err? then Err(ds.error)
    else
      var active := ById(m.files);
      if exists id :: id in ds.value && id !in active then Err(InvalidRequest)
      else Ok(AppendTargets(env, v.versions, m, active, Previous(v, m.base), ds.value, VersionTargets(r)))
  }

  function AckOf(v: VaultState, device: string): nat {
    if device in v.acks then v.acks[device] else 0
  }

  function Raise(v: VaultState, device: string, revision: nat): VaultState {
    var acked := AckOf(v, device);
    v.(acks := v.acks[device := if acked < revision then revision else acked])
  }

  /** A commit: retried intents answer from the record, a stale base or a failure part-way changes nothing. */
  function CreateCommit(env: Env, v: VaultState, r: CommitRequest): (VaultState, Reply) {
    var error := RequestError(v, r);
    if error.Some? then (v, Rejected(error.value))
    else if r.intent in v.commits then
      if v.commits[r.intent].hash == r.hash then
        var w := Raise(v, Device(r), v.commits[r.intent].revision);
        (w, Committed(v.commits[r.intent].revision, v.summary, AckOf(w, Device(r))))
      else (v, Rejected(ManifestConflict(v.head, v.summary)))
    else if r.base != v.head then (v, Rejected(BaseConflict(v.head, v.summary)))
    else
      var missing := RefError(v.blobs, r.refs);
      if missing.Some? then (v, Rejected(missing.value))
      else
        match Finalize(env.nfc, r.manifest, v.head + 1)
        case Invalid(_) => (v, Rejected(InvalidManifest))
        case Final(m) =>
          match AppendVersions(env, v, r, m)
          case Err(e) => (v, Rejected(e))
          case Ok(store) =>
            var w := Raise(Advanced(v, m, r.intent, Commit(r.hash, m.revision, Device(r), r.now, false)).(versions := store),
                           Device(r), m.revision);
            (w, Committed(m.revision, m.summary, AckOf(w, Device(r))))
  }

  /** The vault with `m` as its new head. */
  function Advanced(v: VaultState, m: Manifest, intent: string, c: Commit): VaultState {
    v.(head := m.revision, summary := m.summary, manifests := v.manifests[m.revision := m], commits := v.commits[intent := c])
  }

  datatype Resolution = Unknown | Mismatched | Matched(revision: nat)

  function ResolveIntent(v: VaultState, intent: string, hash: Digest): Resolution {
    if intent !in v.commits then Unknown
    else if v.commits[intent].hash != hash then Mismatched
    else Matched(v.commits[intent].revision)
  }

  // Tombstone collection.

  /** The devices whose acks hold a tombstone back: joined and not revoked. */
  function ActiveDevices(v: VaultState): set<string> {
    v.acks.Keys - v.revoked
  }

  function Remaining(t: Tombstone, now: int, retention: int): int {
    var age := if now - t.deletedAt > 0 then now - t.deletedAt else 0;
    if retention - age > 0 then retention - age else 0
  }

  function Lagging(acks: map<string, nat>, active: set<string>, revision: int): set<string> {
    set d | d in active && (if d in acks then acks[d] else 0) < revision
  }

  /** A tombstone may go once its window is over and every active device has acked its deletion. */
  predicate Reclaimable(acks: map<string, nat>, active: set<string>, t: Tombstone, now: int, retention: int) {
    && t.deletedRevision.Some? && t.deletedRevision.value > 0
    && Remaining(t, now, retention) == 0
    && Lagging(acks, active, t.deletedRevision.value) == {}
  }

  function Keep(acks: map<string, nat>, active: set<string>, ts: seq<Tombstone>, now: int, retention: int): (r: seq<Tombstone>)
    ensures forall t :: t in r <==> t in ts && !Reclaimable(acks, active, t, now, retention)
  {
    if ts == [] then []
    else
      var t := ts[|ts| - 1];
      assert ts == ts[..|ts| - 1] + [t];
      Keep(acks, active, ts[..|ts| - 1], now, retention) + if Reclaimable(acks, active, t, now, retention) then [] else [t]
  }

  function Reclaim(acks: map<string, nat>, active: set<string>, ts: seq<Tombstone>, now: int, retention: int): (r: seq<Tombstone>)
    ensures forall t :: t in r <==> t in ts && Reclaimable(acks, active, t, now, retention)
  {
    if ts == [] then []
    else
      var t := ts[|ts| - 1];
      assert ts == ts[..|ts| - 1] + [t];
      Reclaim(acks, active, ts[..|ts| - 1], now, retention) + if Reclaimable(acks, active, t, now, retention) then [t] else []
  }

  datatype Reason = PendingRevision | WaitingForAckAndRetention | WaitingForAck | RetentionWindow
  datatype Blocked = Blocked(tombstone: Tombstone, reason: Reason, remaining: int, devices: set<string>)

  function BlockedBy(acks: map<string, nat>, active: set<string>, t: Tombstone, now: int, retention: int): Blocked {
    if t.deletedRevision.None? || t.deletedRevision.value <= 0 then Blocked(t, PendingRevision, 0, {})
    else
      var left, lagging := Remaining(t, now, retention), Lagging(acks, active, t.deletedRevision.value);
      Blocked(t, if lagging != {} && left > 0 then WaitingForAckAndRetention else if lagging != {} then WaitingForAck else RetentionWindow,
              left, lagging)
  }

  datatype Sweep = Sweep(vault: VaultState, reclaimed: seq<Tombstone>, blocked: seq<Blocked>)

  function CollectionOf(v: VaultState, head: Manifest, kept: seq<Tombstone>, now: nat, actor: string): Manifest {
    head.(base := v.head, createdBy := if actor != "" then actor else GC_ACTOR, createdAt := now, tombstones := kept)
  }

  /** One collection: if anything can go, a new revision without it becomes the head. */
  function CollectTombstones(env: Env, v: VaultState, now: nat, retention: int, actor: string, runId: string): Sweep {
    if v.head !in v.manifests then Sweep(v, [], [])
    else
      var m, active := v.manifests[v.head], ActiveDevices(v);
      var kept, gone := Keep(v.acks, active, m.tombstones, now, retention), Reclaim(v.acks, active, m.tombstones, now, retention);
      var blocked := Map((t: Tombstone) => BlockedBy(v.acks, active, t, now, retention), kept);
      if gone == [] then Sweep(v, [], blocked)
      else
        match Finalize(env.nfc, CollectionOf(v, m, kept, now, actor), v.head + 1)
        case Invalid(_) => Sweep(v, [], blocked)
        case Final(f) =>
          Sweep(Advanced(v, f, GC_PREFIX + runId, Commit(OfSummary(f.summary), f.revision, f.createdBy, now, true)), gone, blocked)
  }

  function Max(xs: seq<nat>): nat {
    if xs == [] then 0 else var m := Max(xs[1..]); if xs[0] < m then m else xs[0]
  }

  function AckRevisions(env: Env, v: VaultState, device: string, revisions: seq<nat>, now: nat, runId: string): (VaultState, Reply) {
    var actor := if device == "" then "anonymous" else device;
    if revisions == [] || 0 in revisions || (exists i, j :: 0 <= i < j < |revisions| && revisions[i] == revisions[j])
    then (v, Rejected(InvalidRequest))
    else if Max(revisions) > v.head then (v, Rejected(AckAhead))
    else
      var w := Raise(v, actor, Max(revisions));
      (CollectTombstones(env, w, now, GC_RETENTION_MS, actor, runId).vault, Acked(AckOf(w, actor)))
  }

  function UpdateVersion(v: VaultState, id: string, caption: Option<Option<string>>, note: Option<Option<string>>, pinned: Option<bool>): (VaultState, Reply) {
    if id == "" || (caption.None? && note.None? && pinned.None?) || caption == Some(Some("")) || note == Some(Some(""))
    then (v, Rejected(InvalidRequest))
    else if id !in v.versions.records then (v, Rejected(VersionUnknown))
    else
      var r := v.versions.records[id];
      var t := r.(caption := if caption.Some? then caption.value else r.caption,
                  note := if note.Some? then note.value else r.note,
                  pinned := if pinned.Some? then pinned.value else r.pinned);
      (v.(versions := v.versions.(records := v.versions.records[id := t])), Done)
  }

  datatype Request =
    | CommitReq(commit: CommitRequest)
    | AckReq(device: string, revisions: seq<nat>, now: nat, runId: string)
    | CollectReq(now: nat, retention: int, actor: string, runId: string)
    | RevokeReq(device: string, now: nat, runId: string)
    | VersionReq(id: string, caption: Option<Option<string>>, note: Option<Option<string>>, pinned: Option<bool>)

  function Serve(env: Env, v: VaultState, q: Request): (VaultState, Reply) {
    match q
    case CommitReq(r) => CreateCommit(env, v, r)
    case AckReq(device, revisions, now, runId) => AckRevisions(env, v, device, revisions, now, runId)
    case CollectReq(now, retention, actor, runId) =>
      if retention < 0 then (v, Rejected(InvalidRequest))
      else (CollectTombstones(env, v, now, retention, actor, runId).vault, Done)
    case RevokeReq(device, now, runId) =>
      (CollectTombstones(env, v.(revoked := v.revoked + {device}), now, GC_RETENTION_MS, "", runId).vault, Done)
    case VersionReq(id, caption, note, pinned) => UpdateVersion(v, id, caption, note, pinned)
  }

  function Serving(env: Env, v: VaultState, qs: seq<Request>): VaultState
    decreases |qs|
  {
    if qs == [] then v else Serving(env, Serve(env, v, qs[0]).0, qs[1..])
  }

  function NewVault(id: string, blobs: set<string>): VaultState {
    VaultState(id, 0, Unset, map[], map[], map[], Store(map[], map[], DEFAULT_KEEP_LATEST, true), blobs, {})
  }
}
