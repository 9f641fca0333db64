/** The server object: each call works on a copy of the stored vault and stores it only at the end. */
module SyncStore {
  import opened Basics
  import opened Ordering
  import opened Manifest
  import opened Versions
  import opened Vault

  /** A version is recorded, indexed, and its file's history trimmed. */
  method RecordVersion(s: Store, r: VersionRecord) returns (t: Store)
    ensures t == Append(s, r)
  {
    t := s;
    if r.id in t.records {
      return;
    }
    t := t.(records := t.records[r.id := r]);
    var ids := if r.fileId in t.byFile then t.byFile[r.fileId] else [];
    if r.id !in ids {
      ids := ids + [r.id];
    }
    t := t.(byFile := t.byFile[r.fileId := ids]);
    t := RunRetention(t, r.fileId);
  }

  method RecordVersions(env: Env, s: Store, m: Manifest, active: map<string, FileEntry>, previous: map<string, FileEntry>,
                        ds: map<string, Directive>, ids: seq<string>) returns (t: Store)
    ensures t == AppendTargets(env, s, m, active, previous, ds, ids)
  {
    t := s;
    assert ids[0..] == ids;
    for i := 0 to |ids|
      invariant AppendTargets(env, t, m, active, previous, ds, ids[i..]) == AppendTargets(env, s, m, active, previous, ds, ids)
    {
      hide Append, VersionFor, NeedsVersion;
      var id := ids[i];
      assert ids[i..][0] == id && ids[i..][1..] == ids[i + 1..];
      if NeedsVersion(id, active, previous, ds) {
        NeedsActive(id, active, previous, ds);
        t := RecordVersion(t, VersionFor(env, m, active[id], ds));
      }
    }
  }

  lemma NeedsActive(id: string, active: map<string, FileEntry>, previous: map<string, FileEntry>, ds: map<string, Directive>)
    requires NeedsVersion(id, active, previous, ds)
    ensures id in active
  {
  }

  /** The devices a tombstone still waits for. */
  method FindLagging(acks: map<string, nat>, active: set<string>, revision: int) returns (lagging: set<string>)
    ensures lagging == Lagging(acks, active, revision)
  {
    lagging := {};
    var left := active;
    while left != {}
      invariant left <= active
      invariant forall d :: d in lagging <==> d in active && d !in left && (if d in acks then acks[d] else 0) < revision
      decreases |left|
    {
      var d :| d in left;
      left := left - {d};
      if (if d in acks then acks[d] else 0) < revision {
        lagging := lagging + {d};
      }
    }
  }

  /** The scan of the head's tombstones: each is retained with a reason or reclaimed. */
  method Scan(acks: map<string, nat>, active: set<string>, ts: seq<Tombstone>, now: int, retention: int)
    returns (kept: seq<Tombstone>, reclaimed: seq<Tombstone>, blocked: seq<Blocked>)
    ensures kept == Keep(acks, active, ts, now, retention)
    ensures reclaimed == Reclaim(acks, active, ts, now, retention)
    ensures blocked == Map((t: Tombstone) => BlockedBy(acks, active, t, now, retention), kept)
  {
    kept, reclaimed, blocked := [], [], [];
    ghost var why := (t: Tombstone) => BlockedBy(acks, active, t, now, retention);
    for i := 0 to |ts|
      invariant kept == Keep(acks, active, ts[..i], now, retention)
      invariant reclaimed == Reclaim(acks, active, ts[..i], now, retention)
      invariant blocked == Map(why, kept)
    {
      hide Reclaimable, BlockedBy, Lagging, Keep, Reclaim, Map;
      var t := ts[i];
      ScanNext(acks, active, ts, i, now, retention);
      var reason := Judge(acks, active, t, now, retention);
      if reason.Some? {
        MapAppend(why, kept, [t]);
        kept, blocked := kept + [t], blocked + [reason.value];
      } else {
        reclaimed := reclaimed + [t];
      }
    }
    assert ts[..|ts|] == ts;
  }

  lemma ScanNext(acks: map<string, nat>, active: set<string>, ts: seq<Tombstone>, i: nat, now: int, retention: int)
    requires i < |ts|
    ensures var gone := Reclaimable(acks, active, ts[i], now, retention);
            && Keep(acks, active, ts[..i + 1], now, retention) ==
                 Keep(acks, active, ts[..i], now, retention) + (if gone then [] else [ts[i]])
            && Reclaim(acks, active, ts[..i + 1], now, retention) ==
                 Reclaim(acks, active, ts[..i], now, retention) + (if gone then [ts[i]] else [])
  {
    assert ts[..i + 1][..i] == ts[..i];
    hide Reclaimable;
  }

  method Judge(acks: map<string, nat>, active: set<string>, t: Tombstone, now: int, retention: int) returns (r: Option<Blocked>)
    ensures r == if Reclaimable(acks, active, t, now, retention) then None else Some(BlockedBy(acks, active, t, now, retention))
  {
    if t.deletedRevision.None? || t.deletedRevision.value <= 0 {
      return Some(Blocked(t, PendingRevision, 0, {}));
    }
    var age := if now - t.deletedAt > 0 then now - t.deletedAt else 0;
    var remaining := if retention - age > 0 then retention - age else 0;
    var lagging := FindLagging(acks, active, t.deletedRevision.value);
    if lagging != {} || remaining > 0 {
      var reason := if lagging != {} && remaining > 0 then WaitingForAckAndRetention
                    else if lagging != {} then WaitingForAck else RetentionWindow;
      return Some(Blocked(t, reason, remaining, lagging));
    }
    return None;
  }

  class Server {
    const env: Env
    var stored: VaultState

    constructor (env: Env, id: string, blobs: set<string>)
      ensures this.env == env && stored == NewVault(id, blobs)
    {
      this.env := env;
      stored := NewVault(id, blobs);
    }

    /** A commit: compare-and-swap on the head, at most once per intent, all or nothing. */
    method Commit(r: CommitRequest) returns (reply: Reply)
      modifies this
      ensures (stored, reply) == CreateCommit(env, old(stored), r)
    {
      hide Finalize, Ordering.Sort, Append, AppendTargets, VersionTargets, ParseDirectives, RefError, RequestError;
      var error := RequestError(stored, r);
      if error.Some? {
        return Rejected(error.value);
      }
      var vault := stored;
      if r.intent in vault.commits {
        if vault.commits[r.intent].hash == r.hash {
          var revision := vault.commits[r.intent].revision;
          vault := RaiseAck(vault, Device(r), revision);
          stored := vault;
          return Committed(revision, vault.summary, vault.acks[Device(r)]);
        }
        return Rejected(ManifestConflict(vault.head, vault.summary));
      }
      if r.base != vault.head {
        return Rejected(BaseConflict(vault.head, vault.summary));
      }
      var missing := RefError(vault.blobs, r.refs);
      if missing.Some? {
        return Rejected(missing.value);
      }
      var revision := vault.head + 1;
      var finalized := FinalizePayload(env.nfc, r.manifest, revision);
      if finalized.Invalid? {
        return Rejected(InvalidManifest);
      }
      var m := finalized.manifest;
      FinalRevision(env.nfc, r.manifest, revision);
      vault := vault.(manifests := vault.manifests[revision := m]);
      vault := vault.(head := revision);
      vault := vault.(summary := m.summary);
      var ds := ParseDirectives(r.directives);
      if ds.Err? {
        return Rejected(ds.error);
      }
      var previous := Previous(vault, m.base);
      var active := ById(m.files);
      if exists id :: id in ds.value && id !in active {
        return Rejected(InvalidRequest);
      }
      var versions := RecordVersions(env, vault.versions, m, active, previous, ds.value, VersionTargets(r));
      BaseMatches(stored, r);
      assert previous == Previous(stored, m.base);
      vault := vault.(versions := versions);
      vault := vault.(commits := vault.commits[r.intent := Vault.Commit(r.hash, revision, Device(r), r.now, false)]);
      vault := RaiseAck(vault, Device(r), revision);
      stored := vault;
      reply := Committed(revision, m.summary, vault.acks[Device(r)]);
    }

    /** Whether an intent was committed, and where. */
    method Resolve(intent: string, hash: Digest) returns (r: Resolution)
      ensures r == ResolveIntent(stored, intent, hash)
    {
      if intent !in stored.commits {
        return Unknown;
      }
      if stored.commits[intent].hash != hash {
        return Mismatched;
      }
      return Matched(stored.commits[intent].revision);
    }

    method Acknowledge(device: string, revisions: seq<nat>, now: nat, runId: string) returns (reply: Reply)
      modifies this
      ensures (stored, reply) == AckRevisions(env, old(stored), device, revisions, now, runId)
    {
      hide CollectTombstones;
      var actor := if device == "" then "anonymous" else device;
      if revisions == [] || 0 in revisions || (exists i, j :: 0 <= i < j < |revisions| && revisions[i] == revisions[j]) {
        return Rejected(InvalidRequest);
      }
      if Max(revisions) > stored.head {
        return Rejected(AckAhead);
      }
      var vault := RaiseAck(stored, actor, Max(revisions));
      var acked := vault.acks[actor];
      var swept := Collected(env, vault, now, GC_RETENTION_MS, actor, runId);
      stored := swept.vault;
      reply := Acked(acked);
    }

    method RunCollection(now: nat, retention: int, actor: string, runId: string) returns (reply: Reply)
      modifies this
      ensures (stored, reply) == Serve(env, old(stored), CollectReq(now, retention, actor, runId))
    {
      hide CollectTombstones;
      if retention < 0 {
        return Rejected(InvalidRequest);
      }
      var swept := Collected(env, stored, now, retention, actor, runId);
      stored := swept.vault;
      reply := Done;
    }

    method Revoke(device: string, now: nat, runId: string) returns (reply: Reply)
      modifies this
      ensures (stored, reply) == Serve(env, old(stored), RevokeReq(device, now, runId))
    {
      hide CollectTombstones;
      var swept := Collected(env, stored.(revoked := stored.revoked + {device}), now, GC_RETENTION_MS, "", runId);
      stored := swept.vault;
      reply := Done;
    }

    method Relabel(id: string, caption: Option<Option<string>>, note: Option<Option<string>>, pinned: Option<bool>) returns (reply: Reply)
      modifies this
      ensures (stored, reply) == UpdateVersion(old(stored), id, caption, note, pinned)
    {
      if id == "" || (caption.None? && note.None? && pinned.None?) || caption == Some(Some("")) || note == Some(Some("")) {
        return Rejected(InvalidRequest);
      }
      if id !in stored.versions.records {
        return Rejected(VersionUnknown);
      }
      var record := stored.versions.records[id];
      if caption.Some? {
        record := record.(caption := caption.value);
      }
      if note.Some? {
        record := record.(note := note.value);
      }
      if pinned.Some? {
        record := record.(pinned := pinned.value);
      }
      stored := stored.(versions := stored.versions.(records := stored.versions.records[id := record]));
      reply := Done;
    }
  }

  method RaiseAck(v: VaultState, device: string, revision: nat) returns (w: VaultState)
    ensures w == Raise(v, device, revision) && device in w.acks && w.acks[device] == AckOf(w, device)
  {
    var acked := if device in v.acks then v.acks[device] else 0;
    if acked < revision {
      acked := revision;
    }
    w := v.(acks := v.acks[device := acked]);
  }

  /** One collection, run inside the call that triggers it. */
  method Collected(env: Env, v: VaultState, now: nat, retention: int, actor: string, runId: string) returns (s: Sweep)
    ensures s == CollectTombstones(env, v, now, retention, actor, runId)
  {
    hide Finalize, Keep, Reclaim, BlockedBy;
    if v.head !in v.manifests {
      return Vault.Sweep(v, [], []);
    }
    var head := v.manifests[v.head];
    var kept, reclaimed, blocked := Scan(v.acks, ActiveDevices(v), head.tombstones, now, retention);
    if reclaimed == [] {
      return Vault.Sweep(v, [], blocked);
    }
    var creator := if actor != "" then actor else GC_ACTOR;
    var m := head.(base := v.head, createdBy := creator, createdAt := now, tombstones := kept);
    var finalized := FinalizePayload(env.nfc, m, v.head + 1);
    if finalized.Invalid? {
      return Vault.Sweep(v, [], blocked);
    }
    var f := finalized.manifest;
    var commit := Vault.Commit(OfSummary(f.summary), f.revision, f.createdBy, now, true);
    s := Vault.Sweep(v.(head := f.revision, summary := f.summary, manifests := v.manifests[f.revision := f],
                        commits := v.commits[GC_PREFIX + runId := commit]), reclaimed, blocked);
  }

  lemma BaseMatches(v: VaultState, r: CommitRequest)
    requires RequestError(v, r).None?
    ensures r.manifest.base == r.base
  {
  }

  lemma FinalRevision(nfc: Nfc, m: Manifest, revision: nat)
    requires Finalize(nfc, m, revision).Final?
    ensures Finalize(nfc, m, revision).manifest.revision == revision && Finalize(nfc, m, revision).manifest.base == m.base
  {
  }
}
