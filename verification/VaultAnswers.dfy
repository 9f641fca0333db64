/** What every request is answered and what it stores, told field by field from the request and the vault it finds. */
module VaultAnswers {
  import opened Basics
  import opened Ordering
  import opened Manifest
  import opened Versions
  import opened Vault
  import opened VaultChain
  import opened Collection
  import VaultVersions
  import VaultRecords
  import VaultStamps

  // Commits.

  /** The device a commit counts for: the one named, else the manifest's creator, else the authenticated one. */
  predicate CountsFor(r: CommitRequest, who: string) {
    && (r.device != "" ==> who == r.device)
    && (r.device == "" && r.manifest.createdBy != "" ==> who == r.manifest.createdBy)
    && (r.device == "" && r.manifest.createdBy == "" ==> who == r.authDevice)
  }

  /** The commit names an intent, a hash and a device, and its manifest is of this vault and on the base it claims. */
  ghost predicate WellPut(v: VaultState, r: CommitRequest) {
    && r.intent != "" && r.hash != Text("") && r.manifest.vault == v.id && r.manifest.base == r.base
    && !(r.device == "" && r.manifest.createdBy == "" && r.authDevice == "")
  }

  ghost predicate RefsStored(v: VaultState, r: CommitRequest) {
    forall b :: b in r.refs ==> b.blobId != "" && b.fileId != "" && b.blobId in v.blobs
  }

  ghost predicate ManifestComplete(m: Manifest) {
    && m.vault != "" && m.createdBy != "" && (forall e :: e in m.files ==> e.path != "")
    && forall t :: t in m.tombstones ==> t.fileId != "" && t.lastPath != Some("")
  }

  /** Each directive names a listed file, no file twice, with one of the four known sources and no empty words. */
  ghost predicate DirectivesGood(r: CommitRequest) {
    && (forall d :: d in r.directives ==>
          && d.fileId != "" && d.caption != Some("") && d.note != Some("")
          && (d.source == "commit_success" || d.source == "manual_checkpoint" || d.source == "manual_meeting_checkpoint" || d.source == "restore")
          && exists e :: e in r.manifest.files && e.fileId == d.fileId)
    && (forall i, j :: 0 <= i < j < |r.directives| ==> r.directives[i].fileId != r.directives[j].fileId)
  }

  lemma WellPutIs(v: VaultState, r: CommitRequest)
    ensures RequestError(v, r).None? <==> WellPut(v, r)
    ensures CountsFor(r, Device(r))
  {
  }

  lemma {:induction false} IdListed(files: seq<FileEntry>, id: string)
    ensures id in ById(files) <==> exists e :: e in files && e.fileId == id
  {
    if files != [] {
      IdListed(files[..|files| - 1], id);
      assert files == files[..|files| - 1] + [files[|files| - 1]];
    }
  }

  lemma {:induction false} StoredIdListed(nfc: Nfc, m: Manifest, revision: nat, id: string)
    requires Finalize(nfc, m, revision).Final?
    ensures (exists e :: e in Finalize(nfc, m, revision).manifest.files && e.fileId == id) <==> exists e :: e in m.files && e.fileId == id
  {
    var fs, ts := FinalizeConserves(nfc, m, revision);
    var us := Finalize(nfc, m, revision).manifest.files;
    SameElements(us, fs);
    hide Finalize;
    if e :| e in us && e.fileId == id {
      var i :| 0 <= i < |fs| && fs[i] == e;
      assert m.files[i] in m.files && m.files[i].fileId == id;
    }
    if e :| e in m.files && e.fileId == id {
      var i :| 0 <= i < |m.files| && m.files[i] == e;
      assert fs[i] in us && fs[i].fileId == id;
    }
  }

  lemma CompleteIs(nfc: Nfc, m: Manifest, revision: nat)
    ensures Finalize(nfc, m, revision).Final? <==> ManifestComplete(m)
  {
    FinalizesIff(nfc, m, revision);
    hide Finalize;
  }

  lemma RefsAre(v: VaultState, r: CommitRequest)
    ensures RefError(v.blobs, r.refs).None? <==> RefsStored(v, r)
  {
    VaultVersions.RefsFound(v.blobs, r.refs);
    hide RefError;
  }

  /** Directives are in order when each is valid, no file has two, and each file is listed. */
  lemma DirectiveParts(r: CommitRequest)
    ensures DirectivesGood(r) <==>
              && (forall d :: d in r.directives ==> VaultVersions.GoodDirective(d)) && VaultVersions.OnePerFile(r.directives)
              && (forall d :: d in r.directives ==> exists e :: e in r.manifest.files && e.fileId == d.fileId)
  {
  }

  lemma UnknownIff(ds: seq<Directive>, m: map<string, Directive>, active: map<string, FileEntry>)
    requires VaultVersions.Filed(ds, m)
    ensures (exists id :: id in m && id !in active) <==> exists d :: d in ds && d.fileId !in active
  {
    if id :| id in m && id !in active { assert m[id] in ds; }
  }

  lemma DirectivesAre(env: Env, v: VaultState, r: CommitRequest)
    requires Finalize(env.nfc, r.manifest, v.head + 1).Final?
    ensures AppendVersions(env, v, r, Finalize(env.nfc, r.manifest, v.head + 1).manifest).Ok? <==> DirectivesGood(r)
  {
    var m := Finalize(env.nfc, r.manifest, v.head + 1).manifest;
    var ds := ParseDirectives(r.directives);
    VaultVersions.DirectivesRead(r.directives);
    DirectiveParts(r);
    if ds.Ok? { UnknownIff(r.directives, ds.value, ById(m.files)); }
    hide Finalize, ById, ParseDirectives, AppendTargets, Previous, VersionTargets, DirectivesGood, VaultVersions.GoodDirective,
         VaultVersions.OnePerFile, VaultVersions.Filed;
    forall d | d in r.directives
      ensures d.fileId in ById(m.files) <==> exists e :: e in r.manifest.files && e.fileId == d.fileId
    {
      IdListed(m.files, d.fileId);
      StoredIdListed(env.nfc, r.manifest, v.head + 1, d.fileId);
    }
  }

  /** Main result: a commit lands if and only if it is well put and its intent is new, it builds on the head, its blobs are stored, its
      manifest is complete, and its directives are in order. */
  lemma LandsIff(env: Env, v: VaultState, r: CommitRequest)
    ensures Lands(env, v, r) <==>
              WellPut(v, r) && r.intent !in v.commits && r.base == v.head && RefsStored(v, r) && ManifestComplete(r.manifest) && DirectivesGood(r)
  {
    WellPutIs(v, r);
    RefsAre(v, r);
    CompleteIs(env.nfc, r.manifest, v.head + 1);
    if Finalize(env.nfc, r.manifest, v.head + 1).Final? { DirectivesAre(env, v, r); }
    hide RequestError, RefError, Finalize, AppendVersions, Device, DirectivesGood, WellPut, RefsStored, ManifestComplete, Advanced, Raise;
  }

  /** The first reference that fails, if one does. */
  ghost predicate FirstBad(v: VaultState, r: CommitRequest, i: nat) {
    && i < |r.refs| && !(r.refs[i].blobId != "" && r.refs[i].fileId != "" && r.refs[i].blobId in v.blobs)
    && forall j :: 0 <= j < i ==> r.refs[j].blobId != "" && r.refs[j].fileId != "" && r.refs[j].blobId in v.blobs
  }

  lemma {:induction false} FirstRef(blobs: set<string>, refs: seq<BlobRef>, i: nat)
    requires i < |refs| && !(refs[i].blobId != "" && refs[i].fileId != "" && refs[i].blobId in blobs)
    requires forall j :: 0 <= j < i ==> refs[j].blobId != "" && refs[j].fileId != "" && refs[j].blobId in blobs
    ensures RefError(blobs, refs) ==
              Some(if refs[i].blobId == "" || refs[i].fileId == "" then InvalidRequest else BlobMissing(refs[i].blobId))
  {
    if i > 0 { FirstRef(blobs, refs[1..], i - 1); }
  }

  /** Main result: why a commit does not land. The first of these that applies decides: a badly put request, a known intent, a base
      other than the head, a reference that fails, an incomplete manifest, and last the directives. */
  lemma CommitRefused(env: Env, v: VaultState, r: CommitRequest)
    requires !Lands(env, v, r)
    ensures var (w, reply) := CreateCommit(env, v, r);
            if !WellPut(v, r) then
              reply == Rejected(if r.intent != "" && r.hash != Text("") && !(r.manifest.vault == v.id && r.manifest.base == r.base)
                                then InvalidManifest else InvalidRequest)
            else if r.intent in v.commits then
              if v.commits[r.intent].hash == r.hash then reply.Committed? && reply.revision == v.commits[r.intent].revision && reply.summary == v.summary
              else reply == Rejected(ManifestConflict(v.head, v.summary))
            else if r.base != v.head then reply == Rejected(BaseConflict(v.head, v.summary))
            else if !RefsStored(v, r) then
              exists i: nat :: FirstBad(v, r, i) && reply == Rejected(if r.refs[i].blobId == "" || r.refs[i].fileId == "" then InvalidRequest
                                                                 else BlobMissing(r.refs[i].blobId))
            else if !ManifestComplete(r.manifest) then reply == Rejected(InvalidManifest)
            else reply == Rejected(InvalidRequest)
  {
    hide Finalize, AppendVersions, Device, DirectivesGood, RefError, RefsStored, ManifestComplete, Advanced, Raise, WellPut, FirstBad, Lands;
    WellPutIs(v, r);
    RefsAre(v, r);
    CompleteIs(env.nfc, r.manifest, v.head + 1);
    if Finalize(env.nfc, r.manifest, v.head + 1).Final? { DirectivesAre(env, v, r); }
    LandsIff(env, v, r);
    if !RefsStored(v, r) {
      var i := BadRef(v, r);
      FirstRef(v.blobs, r.refs, i);
    }
    BadDirectives(env, v, r);
  }

  lemma BadDirectives(env: Env, v: VaultState, r: CommitRequest)
    ensures forall m :: AppendVersions(env, v, r, m).Err? ==> AppendVersions(env, v, r, m).error == InvalidRequest
  {
    DirectiveError(r.directives);
    hide ParseDirectives, AppendTargets;
  }

  lemma {:induction false} DirectiveError(ds: seq<Directive>)
    ensures ParseDirectives(ds).Err? ==> ParseDirectives(ds).error == InvalidRequest
  {
    if ds != [] { DirectiveError(ds[..|ds| - 1]); }
  }

  lemma BadRef(v: VaultState, r: CommitRequest) returns (i: nat)
    requires !RefsStored(v, r)
    ensures FirstBad(v, r, i)
  {
    i := 0;
    while i < |r.refs| && r.refs[i].blobId != "" && r.refs[i].fileId != "" && r.refs[i].blobId in v.blobs
      invariant i <= |r.refs|
      invariant forall j :: 0 <= j < i ==> r.refs[j].blobId != "" && r.refs[j].fileId != "" && r.refs[j].blobId in v.blobs
    {
      i := i + 1;
    }
  }

  /** The device has acked at least `revision`, and no more than it must; the others are as before. */
  ghost predicate AckedUpTo(v: VaultState, w: VaultState, who: string, revision: nat) {
    && who in w.acks && w.acks[who] == (if who in v.acks && v.acks[who] > revision then v.acks[who] else revision)
    && w.acks.Keys == v.acks.Keys + {who} && forall d :: d in v.acks && d != who ==> w.acks[d] == v.acks[d]
  }

  lemma RaiseIs(v: VaultState, who: string, revision: nat)
    ensures AckedUpTo(v, Raise(v, who, revision), who, revision)
    ensures Raise(v, who, revision) == v.(acks := Raise(v, who, revision).acks)
    ensures AckOf(Raise(v, who, revision), who) == Raise(v, who, revision).acks[who]
  {
  }

  /** Main result: what a landing commit stores and answers: its manifest as the next revision under its intent, with who committed it,
      when, and under which hash, and an ack of that revision. Nothing else but the version store changes. */
  lemma LandingIs(env: Env, v: VaultState, r: CommitRequest, who: string)
    requires Lands(env, v, r) && CountsFor(r, who)
    ensures var (w, reply) := CreateCommit(env, v, r);
            var n := v.head + 1;
            && w.head == n && n in w.manifests && w.manifests == v.manifests[n := w.manifests[n]] && w.summary == w.manifests[n].summary
            && w.commits == v.commits[r.intent := Commit(r.hash, n, who, r.now, false)]
            && AckedUpTo(v, w, who, n) && reply == Committed(n, w.summary, w.acks[who])
            && w.id == v.id && w.blobs == v.blobs && w.revoked == v.revoked
  {
    hide CreateCommit, Lands, Finalize, AppendVersions, Device, Raise;
    CommitShape(env, v, r);
    WellPutIs(v, r);
    VaultRecords.LandedManifest(env, v, r);
    var m := Finalize(env.nfc, r.manifest, v.head + 1).manifest;
    var a := Advanced(v, m, r.intent, NewCommit(v, r)).(versions := AppendVersions(env, v, r, m).value);
    RaiseIs(a, Device(r), v.head + 1);
    LandingReply(env, v, r);
  }

  lemma LandingReply(env: Env, v: VaultState, r: CommitRequest)
    requires Lands(env, v, r)
    ensures var (w, reply) := CreateCommit(env, v, r);
            reply.acked == AckOf(w, Device(r)) && reply.Committed?
  {
    hide Finalize, AppendVersions, Device, RequestError, RefError, Raise, Advanced;
  }

  /** Main result: a retry is answered from the record, and only acks its revision. */
  lemma RetryIs(env: Env, v: VaultState, r: CommitRequest, who: string)
    requires WellPut(v, r) && CountsFor(r, who) && r.intent in v.commits && v.commits[r.intent].hash == r.hash
    ensures var (w, reply) := CreateCommit(env, v, r);
            var n := v.commits[r.intent].revision;
            w == v.(acks := w.acks) && AckedUpTo(v, w, who, n) && reply == Committed(n, v.summary, w.acks[who])
  {
    WellPutIs(v, r);
    RaiseIs(v, Device(r), v.commits[r.intent].revision);
    hide Finalize, AppendVersions, Device, RequestError, RefError, Raise;
  }

  // Collections.

  /** The tombstone may go: its deletion has a revision that every joined, unrevoked device has acked, and is old enough. */
  ghost predicate MayGo(v: VaultState, t: Tombstone, now: int, retention: int) {
    && t.deletedRevision.Some? && t.deletedRevision.value > 0
    && (forall d :: d in v.acks && d !in v.revoked ==> v.acks[d] >= t.deletedRevision.value)
    && (retention <= 0 || now - t.deletedAt >= retention)
  }

  /** What a collection makes of a vault: if a tombstone of the head may go, the next revision is the head without those that may,
      by the given actor or the collector itself, under an intent of its own; otherwise nothing. */
  ghost predicate Swept(v: VaultState, w: VaultState, now: nat, retention: int, actor: string, runId: string) {
    if v.head in v.manifests && exists t :: t in v.manifests[v.head].tombstones && MayGo(v, t, now, retention)
    then
      && w.head == v.head + 1 && w.head in w.manifests
      && var (m, n) := (v.manifests[v.head], w.manifests[w.head]);
         && w == v.(head := w.head, summary := n.summary, manifests := v.manifests[w.head := n],
                    commits := v.commits["tombstone-gc:" + runId := Commit(OfSummary(n.summary), w.head, n.createdBy, now, true)])
         && n == m.(base := v.head, revision := w.head, createdBy := if actor == "" then "server:tombstone-gc" else actor, createdAt := now,
                    tombstones := n.tombstones, summary := SummaryOf(w.head, m.files, n.tombstones))
         && (forall t :: multiset(n.tombstones)[t] == if MayGo(v, t, now, retention) then 0 else multiset(m.tombstones)[t])
         && Sorted(n.tombstones, TombstoneLeq)
    else w == v
  }

  lemma MayGoIs(v: VaultState, t: Tombstone, now: int, retention: int)
    ensures MayGo(v, t, now, retention) <==> Reclaimable(v.acks, ActiveDevices(v), t, now, retention)
  {
    ReclaimableIff(v, t, now, retention);
    hide Reclaimable, ActiveDevices;
  }

  lemma {:induction false} KeepCounts(v: VaultState, ts: seq<Tombstone>, now: int, retention: int, t: Tombstone)
    ensures multiset(Keep(v.acks, ActiveDevices(v), ts, now, retention))[t] == if MayGo(v, t, now, retention) then 0 else multiset(ts)[t]
  {
    hide MayGo, Reclaimable, ActiveDevices;
    if ts != [] {
      var init, last := ts[..|ts| - 1], ts[|ts| - 1];
      assert ts == init + [last];
      KeepCounts(v, init, now, retention, t);
      MayGoIs(v, last, now, retention);
    }
  }

  lemma CollectsIff(v: VaultState, now: nat, retention: int)
    ensures Collects(v, now, retention) <==>
              v.head in v.manifests && exists t :: t in v.manifests[v.head].tombstones && MayGo(v, t, now, retention)
  {
    hide Reclaim, Reclaimable, MayGo, ActiveDevices;
    if v.head in v.manifests {
      var gone := Reclaim(v.acks, ActiveDevices(v), v.manifests[v.head].tombstones, now, retention);
      if gone != [] {
        assert gone[0] in gone;
        MayGoIs(v, gone[0], now, retention);
      }
      if t :| t in v.manifests[v.head].tombstones && MayGo(v, t, now, retention) {
        MayGoIs(v, t, now, retention);
        assert t in gone;
      }
    }
  }

  lemma CanonicalParts(nfc: Nfc, m: Manifest)
    requires Canonical(nfc, m)
    ensures m.summary == SummaryOf(m.revision, m.files, m.tombstones) && Sorted(m.tombstones, TombstoneLeq)
  {
    hide Sorted, FirstError, NormalAt;
  }

  lemma OtherFields(nfc: Nfc, m: Manifest, revision: nat)
    requires Finalize(nfc, m, revision).Final?
    ensures var f := Finalize(nfc, m, revision).manifest;
            f == m.(revision := revision, files := f.files, tombstones := f.tombstones, summary := f.summary)
  {
    hide Files, Tombstones, FirstError;
  }

  /** The new head of a collection, field by field. */
  lemma CollectedFields(env: Env, v: VaultState, now: nat, retention: int, actor: string)
    requires EnvOk(env) && AllCanonical(env, v) && v.head in v.manifests
    ensures var (m, n) := (v.manifests[v.head], CollectedHead(env, v, now, retention, actor));
            && n == m.(base := v.head, revision := v.head + 1, createdBy := if actor == "" then "server:tombstone-gc" else actor, createdAt := now,
                       tombstones := n.tombstones, summary := SummaryOf(v.head + 1, m.files, n.tombstones))
            && Sorted(n.tombstones, TombstoneLeq)
  {
    hide Finalize, KeptTombstones, AllCanonical, EnvOk, Canonical, Sorted;
    CollectionFinal(env, v, now, retention, actor);
    var m := CollectionOf(v, v.manifests[v.head], KeptTombstones(v, now, retention), now, actor);
    OtherFields(env.nfc, m, v.head + 1);
    CanonicalParts(env.nfc, Finalize(env.nfc, m, v.head + 1).manifest);
  }

  lemma SweptFrom(env: Env, v: VaultState, w: VaultState, n: Manifest, now: nat, retention: int, actor: string, runId: string)
    requires v.head in v.manifests && exists t :: t in v.manifests[v.head].tombstones && MayGo(v, t, now, retention)
    requires w == Advanced(v, n, GC_PREFIX + runId, Commit(OfSummary(n.summary), v.head + 1, n.createdBy, now, true))
    requires n == v.manifests[v.head].(base := v.head, revision := v.head + 1, createdBy := if actor == "" then "server:tombstone-gc" else actor,
               createdAt := now, tombstones := n.tombstones, summary := SummaryOf(v.head + 1, v.manifests[v.head].files, n.tombstones))
    requires Sorted(n.tombstones, TombstoneLeq)
    requires forall t :: multiset(n.tombstones)[t] == if MayGo(v, t, now, retention) then 0 else multiset(v.manifests[v.head].tombstones)[t]
    ensures Swept(v, w, now, retention, actor, runId)
  {
    hide MayGo, Sorted;
  }

  /** Main result: a collection, whoever triggers it, is exactly that. */
  lemma CollectionIs(env: Env, v: VaultState, now: nat, retention: int, actor: string, runId: string)
    requires EnvOk(env) && AllCanonical(env, v)
    ensures Swept(v, CollectTombstones(env, v, now, retention, actor, runId).vault, now, retention, actor, runId)
  {
    CollectsIff(v, now, retention);
    hide CollectTombstones, AllCanonical, EnvOk, CollectedHead, Canonical, Keep, Reclaim, MayGo, ActiveDevices, Collects, Advanced, Sorted;
    if Collects(v, now, retention) {
      var (n, w) := (CollectedHead(env, v, now, retention, actor), CollectTombstones(env, v, now, retention, actor, runId).vault);
      CollectionShape(env, v, now, retention, actor, runId);
      CollectedFields(env, v, now, retention, actor);
      forall t
        ensures multiset(n.tombstones)[t] == if MayGo(v, t, now, retention) then 0 else multiset(v.manifests[v.head].tombstones)[t]
      {
        KeepCounts(v, v.manifests[v.head].tombstones, now, retention, t);
      }
      hide Swept, KeptTombstones;
      SweptFrom(env, v, w, n, now, retention, actor, runId);
    } else {
      CollectionIdle(env, v, now, retention, actor, runId);
    }
  }

  // The other requests.

  const WEEK_MS := 604_800_000

  /** What acks may name: at least one revision, each once, from 1 on, none beyond the head. */
  ghost predicate GoodAcks(v: VaultState, revisions: seq<nat>) {
    && revisions != [] && (forall x :: x in revisions ==> 1 <= x <= v.head)
    && forall i, j :: 0 <= i < j < |revisions| ==> revisions[i] != revisions[j]
  }

  ghost predicate IsHighest(revisions: seq<nat>, n: nat) {
    n in revisions && forall x :: x in revisions ==> x <= n
  }

  lemma SameManifests(env: Env, v: VaultState, u: VaultState)
    requires AllCanonical(env, v) && u.manifests == v.manifests
    ensures AllCanonical(env, u)
  {
  }

  /** Why an ack call is refused. */
  ghost predicate BeyondHead(v: VaultState, revisions: seq<nat>, n: nat) {
    revisions != [] && n > v.head && 0 !in revisions && forall i, j :: 0 <= i < j < |revisions| ==> revisions[i] != revisions[j]
  }

  lemma AckServed(env: Env, v: VaultState, device: string, revisions: seq<nat>, now: nat, runId: string, n: nat)
    requires revisions != [] ==> IsHighest(revisions, n)
    ensures var who := if device == "" then "anonymous" else device;
            var u := Raise(v, who, n);
            AckRevisions(env, v, device, revisions, now, runId) ==
              if GoodAcks(v, revisions) then (CollectTombstones(env, u, now, GC_RETENTION_MS, who, runId).vault, Acked(AckOf(u, who)))
              else (v, Rejected(if BeyondHead(v, revisions, n) then AckAhead else InvalidRequest))
  {
    hide CollectTombstones, Raise, AckOf, Max;
    if revisions != [] { VaultVersions.MaxIs(revisions); }
  }

  /** Main result: a good ack raises the device's ack to the highest revision named, for a nameless device the anonymous one's, and
      then collects with the window of a week; any other changes nothing. */
  lemma AckingIs(env: Env, v: VaultState, device: string, revisions: seq<nat>, now: nat, runId: string, n: nat) returns (u: VaultState)
    requires EnvOk(env) && AllCanonical(env, v) && (revisions != [] ==> IsHighest(revisions, n))
    ensures var (w, reply) := AckRevisions(env, v, device, revisions, now, runId);
            var who := if device == "" then "anonymous" else device;
            && (GoodAcks(v, revisions) ==>
                  AckedUpTo(v, u, who, n) && u == v.(acks := u.acks) && reply == Acked(u.acks[who]) && Swept(u, w, now, WEEK_MS, who, runId))
            && (!GoodAcks(v, revisions) ==> (
                  && w == v
                  && reply == Rejected(if BeyondHead(v, revisions, n) then AckAhead else InvalidRequest)))
  {
    assert WEEK_MS == GC_RETENTION_MS;
    hide *;
    var who := if device == "" then "anonymous" else device;
    u := Raise(v, who, n);
    RaiseIs(v, who, n);
    AckServed(env, v, device, revisions, now, runId, n);
    SameManifests(env, v, u);
    CollectionIs(env, u, now, GC_RETENTION_MS, who, runId);
  }

  /** Main result: revoking a device adds it to the revoked ones, which no longer hold anything back, and collects. */
  lemma RevokingIs(env: Env, v: VaultState, device: string, now: nat, runId: string)
    requires EnvOk(env) && AllCanonical(env, v)
    ensures var (w, reply) := Serve(env, v, RevokeReq(device, now, runId));
            reply == Done && Swept(v.(revoked := v.revoked + {device}), w, now, WEEK_MS, "", runId)
  {
    hide CollectTombstones, EnvOk, AllCanonical, Swept;
    var u := v.(revoked := v.revoked + {device});
    SameManifests(env, v, u);
    CollectionIs(env, u, now, GC_RETENTION_MS, "", runId);
  }

  /** A requested collection is refused for a negative window. */
  lemma CollectingIs(env: Env, v: VaultState, now: nat, retention: int, actor: string, runId: string)
    requires EnvOk(env) && AllCanonical(env, v)
    ensures var (w, reply) := Serve(env, v, CollectReq(now, retention, actor, runId));
            if retention < 0 then w == v && reply == Rejected(InvalidRequest) else reply == Done && Swept(v, w, now, retention, actor, runId)
  {
    hide CollectTombstones, EnvOk, AllCanonical, Swept;
    CollectionIs(env, v, now, retention, actor, runId);
  }

  /** Main result: relabelling sets exactly the words and the pin that are given, of the one version, and refuses empty words, unknown
      versions and requests that give nothing. */
  lemma RelabellingIs(v: VaultState, id: string, caption: Option<Option<string>>, note: Option<Option<string>>, pinned: Option<bool>)
    ensures var (w, reply) := UpdateVersion(v, id, caption, note, pinned);
            var good := id != "" && (caption.Some? || note.Some? || pinned.Some?) && caption != Some(Some("")) && note != Some(Some(""));
            && (!good ==> w == v && reply == Rejected(InvalidRequest))
            && (good && id !in v.versions.records ==> w == v && reply == Rejected(VersionUnknown))
            && (good && id in v.versions.records ==>
                  && reply == Done && id in w.versions.records
                  && var (x, y) := (v.versions.records[id], w.versions.records[id]);
                     && w == v.(versions := v.versions.(records := v.versions.records[id := y]))
                     && y == x.(caption := y.caption, note := y.note, pinned := y.pinned)
                     && (caption.Some? ==> y.caption == caption.value) && (caption.None? ==> y.caption == x.caption)
                     && (note.Some? ==> y.note == note.value) && (note.None? ==> y.note == x.note)
                     && (pinned.Some? ==> y.pinned == pinned.value) && (pinned.None? ==> y.pinned == x.pinned))
  {
  }

  /** Why a tombstone stays, and for whom it waits. */
  lemma BlockedIs(v: VaultState, t: Tombstone, now: int, retention: int)
    ensures var b := BlockedBy(v.acks, ActiveDevices(v), t, now, retention);
            var dated := t.deletedRevision.Some? && t.deletedRevision.value > 0;
            && b.tombstone == t
            && (!dated ==> b.reason == PendingRevision && b.remaining == 0 && b.devices == {})
            && (dated ==>
                  && (forall d :: d in b.devices <==> d in v.acks && d !in v.revoked && v.acks[d] < t.deletedRevision.value)
                  && b.remaining >= 0 && (b.remaining == 0 <==> retention <= 0 || now - t.deletedAt >= retention)
                  && (b.devices != {} && b.remaining > 0 <==> b.reason == WaitingForAckAndRetention)
                  && (b.devices != {} && b.remaining == 0 <==> b.reason == WaitingForAck)
                  && (b.devices == {} <==> b.reason == RetentionWindow))
  {
  }

  /** A new vault is empty, keeps fifty versions of a file, and pinned ones besides. */
  lemma NewVaultIs(id: string, blobs: set<string>)
    ensures var v := NewVault(id, blobs);
            && v.id == id && v.head == 0 && v.summary == Unset && v.manifests == map[] && v.commits == map[] && v.acks == map[]
            && v.blobs == blobs && v.revoked == {} && v.versions == Store(map[], map[], 50, true)
  {
  }
}
