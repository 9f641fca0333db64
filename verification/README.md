# Verified model of the vault synchronisation core

Notes live in a workspace on each device and in a vault on a server. This project models the code that moves them between
the two and proves what it keeps.

- **Pull engine** (`Pull*.dfy`). A pull diffs the file map against the pulled manifest into writes, moves and deletions and
  carries them out in five loops over the file system, saving locally edited bytes as conflict copies. `PullPlan` and
  `PullApply` say what one run does as a function from disk to disk that also collects the disk after every atomic file
  operation: those are the states a crash can leave. `PullEngine` is the class that runs the loops, its fields updated in
  place, proved equal to that function. `PullFrames`, `PullOrder` and `PullSuccess` give frames, the order of the iterations and
  success; `PullSaves`, `PullReady` and `PullExact` its exact condition; `PullKept`, `PullFlag` and `PullIds` the fate of edits, the
  conflict flag and the new records; `PullLost`, `PullStopped` and `PullApplied` that fate and the effect of the run for plans that
  use conflict names themselves; `PullClean`, `PullBuild` and `PullEdits` the pull from manifest to workspace, undisturbed and over
  edits; `PullCrash`, `PullRecovery` and `PullOrphans` crashes, the journal and the payloads set aside; `PullLimits` concrete cases
  outside the conditions.
- **Server vault** (`Vault*.dfy`, `Manifest`, `Version*.dfy`, `Collection`, `SyncStore`). Compare-and-swap commits with idempotent
  intents, acks, tombstone collection, file versions and their retention and pages, manifest canonicalisation. `Vault` is the
  specification of one request, `VaultChain` and `VaultRuns` prove what every run keeps, `VaultAnswers`, `VaultRecords`,
  `VaultRetention` and `VaultStamps` tell each request's effect, the versions and the tombstone revisions field by field,
  `SyncStore` is the server object.
- **Resumable upload** (`Upload*.dfy`). Tiling, chunk storage in any order, completion in batches; `UploadCalls` tells each call
  record by record.
- **State repository** (`Repository`, `Deployment`). Processes interleaving loads, computations, saves and atomic updates of one
  versioned row, and several server processes over one vault.
- **Change planning** (`Change*.dfy`). Detection, rename matching and the commit plan; `ChangePlan` specifies them,
  `ChangeDetection` holds the loops, `ChangeScene` and `ChangeTimes` tell detection and plan from records and workspace alone.
- **Text algorithms** (`Text`, `Chunker`, `ChunkerCuts`, `WikiLinks`, `WikiProofs`, `WikiResults`).

`Basics` and `Ordering` hold options, bytes, hashes, string order and stable sorting.

Conventions. A hash is a free constructor over the hashed bytes, so equal hashes mean equal bytes. Chunk ids, summary hashes
and conflict names are free constructors in the same way; generated file ids are numbered in the order they are drawn. Functions the code calls and whose tables or
randomness do not matter are parameters: NFC normalisation, lower-casing, version-id digests, generated file ids, run ids,
clocks. What is assumed of them is in a named predicate (`NfcOk`, `EnvOk`, `FreshIds`, `FreshRun`, `IdsDrawn`). `EnvOk` takes
version ids to differ whenever one of their five parts does; the code joins the parts with colons before hashing
(`sync_store.py:215-217`), so ids that contain colons could coincide.

Where the code differs from what one might expect, the code is followed: a retried commit raises the caller's ack; a
client commit may drop tombstones; unpinning a version does not run retention; a write or a move onto an untracked file overwrites it; an
opening or completion that fails after purging keeps the purged files deleted but restores the records; the version marker
of a state moves on before the commit that may still fail.

`dafny verify dfyconfig.toml` checks everything.

## Model

| member | source | states |
|---|---|---|
| PullSuccess.SuccessMeansApplied | clients/desktop/service.py:5705-5933 | for every well-formed plan that uses no name a conflict copy of the run may take, and any disk, dirty or half applied, a run without error leaves every write and move target with its planned hash and every vacated path absent |
| PullApplied.AppliedIff | clients/desktop/service.py:5743-5926 | whatever conflict names a plan uses, a run without error has put every target in place, a vacated path is absent exactly when no copy of an edit comes to stay there, and so the plan is applied exactly when that holds of all vacated paths: told from plan and disk before the call |
| PullExact.SucceedsIffReady | clients/desktop/service.py:5705-5933 | execution succeeds exactly when every write and move can be supplied from staging, its source or its target and every edit in the way can be saved: a condition on the disk before the call |
| PullExact.OkMeansReady | clients/desktop/service.py:5743-5926 | a run without error found every payload where the condition says |
| PullExact.OkMeansRegisters | clients/desktop/service.py:5616-5682 | a run without error could save every edit it had to: each has a copy already, or its file is in the file map and no record has the first name free when its turn comes |
| PullExact.ReadyMeansOk | clients/desktop/service.py:5743-5926 | where every payload can be supplied and every edit saved no loop fails |
| PullExact.GoodSucceedsIff | clients/desktop/service.py:5743-5926 | on a disk that has the registered copies next to the plan's files and a file map that knows them the payloads alone decide |
| PullOrder.RunOrdered | clients/desktop/service.py:5743-5926 | across the five loops every compared file is compared before any iteration touches it, no id is compared twice, and nothing placed is touched again |
| PullKept.NoTrackedEditLost | clients/desktop/service.py:5616-5682 | at every atomic step of any run, failed and interrupted ones included, the bytes of a tracked, locally edited file the plan touches are still on disk: in place or in a registered conflict copy |
| PullKept.EditsSavedOnSuccess | clients/desktop/service.py:5743-5926 | after a successful run each such edit is held by a conflict copy with exactly those bytes, unless it already was the planned content |
| PullKept.NoEditLostInReplays | clients/desktop/service.py:5041-5098 | the same over any number of executions, each stopped at any atomic step, and a further one that returns normally has the edit saved |
| PullFlag.FlagRaisedIff | clients/desktop/service.py:5616-5682 | a finished run leaves the conflict flag raised exactly when it was raised or the run found an edit to save; a run cut short never lowers it and raises it for no other reason |
| PullIds.RunIds | clients/desktop/service.py:5664-5676 | at every state of every run the file map has its old records and every record, new copies included, an id of its own |
| PullLost.EditLastsIff | clients/desktop/service.py:5593-5682 | whatever conflict names a plan uses, an edit outlives a run without error exactly when it is the planned content itself, has a copy already, or its copy gets a name (the first neither in use by then nor on record) that from there on the run leaves alone or fills with the same bytes: told from plan and disk before the call |
| PullStopped.EditWhenStopped | clients/desktop/service.py:5743-5926 | the same for a run stopped anywhere, by a crash between any two file operations or by an error: an edit whose iteration is still to come is in place, any other is saved exactly when it is the planned content itself, has a copy already, or got a name that what has happened since leaves alone |
| PullClean.CleanApply | clients/desktop/service.py:5743-5926 | on a clean workspace execution never fails, for any permutation, cycle or chain of paths, makes no conflict copy and changes nothing outside sources and targets |
| PullBuild.PullMirrorsManifest | clients/desktop/service.py:5972-6057 | building the plan from a file map and a manifest and applying it to a clean workspace gives every manifest file its content, vacates every old path and leaves the rest alone |
| PullBuild.PlanWellFormed | clients/desktop/service.py:5972-6057 | plans built from a manifest and a file map without duplicates carry the manifest's revision, never use a path or file id twice on one side and stage exactly targets that are sources |
| PullEdits.BuiltWrites | clients/desktop/service.py:5992-6007 | the writes of a built plan are exactly the new entries, expecting nothing, and the entries whose content is not the recorded one, each with the recorded path and the recorded hash of its file |
| PullEdits.BuiltMoves | clients/desktop/service.py:6019-6028 | its moves are exactly the entries with the recorded content and another path |
| PullEdits.BuiltDeletes | clients/desktop/service.py:6008-6040 | its deletions are exactly the recorded paths that are left, because no entry has the file or one with other content goes elsewhere, each with the recorded hash |
| PullEdits.PullSavesEdits | clients/desktop/service.py:5972-6057 | pulling a manifest over a file edited since it was recorded, which the manifest changes, moves or drops, never loses the edit: at every crash point the file or a registered copy of it holds the bytes, and after a normal return a copy does, unless they were what the manifest wants there |
| PullCrash.CrashKeepsReady | clients/desktop/service.py:5743-5926 | after a crash at any atomic step before the second move loop, or at any step at all when no move target is a source, the plan can still be carried out from what is left |
| PullCrash.ReplayConverges | clients/desktop/service.py:5041-5098 | after any number of interrupted attempts of that kind a further run succeeds and leaves the plan applied |
| PullCrash.LoopFourReplayIff | clients/desktop/service.py:5852-5908 | after a crash between two placements of the second move loop, replay succeeds if and only if every move already placed on a path that had to be vacated finds its content back at its source |
| PullCrash.AnyCrashReplayIff | clients/desktop/service.py:5743-5926 | after a crash between any two file operations of any plan, chained moves and the last loop included, a replay succeeds if and only if the disk that is left supplies the plan |
| PullLimits.SwapCrashIsNotReplayed | clients/desktop/service.py:5852-5908 | every swap of two files killed between its two placements cannot be replayed |
| PullLimits.SwapIsGood | clients/desktop/service.py:5852-5908 | a concrete plan and disk of that kind |
| PullLimits.CollidingNameLosesEdit | clients/desktop/service.py:5593-5682 | a concrete successful run that loses an edit: the copy gets the name of a file deleted next |
| PullLimits.CollidingNameRefillsPath | clients/desktop/service.py:5910-5926 | a concrete successful run that has not applied its plan: the copy of an edit takes the path of a file deleted just before |
| PullLimits.MissingCopyFails | clients/desktop/service.py:5662-5675 | a concrete run that has its payloads and fails because the registered copy of the next name is gone from disk; the next run gets through |
| PullLimits.ForgottenSourceFails | packages/vault-core/src/vault_core/operations.py:77-92 | a concrete run that has its payloads and fails because the file map does not know the edited file; so does the next run on any day |
| PullRecovery.ResumeIsQuiescent | clients/desktop/service.py:5006-5130 | from any journal phase, plan file and staging, resuming leaves no journal, plan file or staged payload, and resuming again is idle |
| PullRecovery.ResumeIsSound | clients/desktop/service.py:5006-5130 | a full pull is required exactly when the summary was marked stale and nothing else forgotten; otherwise the journal's revision is recorded as applied, known and to be acknowledged; a materializing journal is closed without replay only if every active file matches its hash; a replay has applied its plan |
| PullRecovery.ResumeModes | clients/desktop/service.py:5006-5130 | which of its ends recovery reaches, in terms of journal, plan file, staging and disk: it replays exactly when the stored plan is the open journal's and the replay goes through |
| PullOrphans.OrphansGrow | packages/vault-core/src/vault_core/sync_commit.py:1282-1293 | payloads set aside stay set aside, and when a full pull is asked for every payload still staged is set aside, and nothing else |
| PullOrphans.GivingUpKeepsMoves | clients/desktop/service.py:7382-7412 | a pull over unedited files stopped at any atomic step and then given up without replay loses no moved file: its bytes are live at its old or new path or set aside |
| PullOrphans.ReplayKeepsMoves | clients/desktop/service.py:5049-5130 | the same when the plan is replayed first: a replayed move is at its target, and after a failed replay its bytes are in some file or set aside, unless the plan deletes the same content, or content without a recorded hash, at its target |
| PullLimits.ReplayDeletesLanded | clients/desktop/service.py:5797-5812 | a plan of that last kind, and every state before and after: a device that dies before closing its journal replays the deletion over the file it has placed, fails and is left with neither file nor payload |
| PullRecovery.ReplayAppliedIff | clients/desktop/service.py:5049-5098 | what a replay has applied, exactly, whatever names its plan uses |
| PullRecovery.ReplayedIffReady | clients/desktop/service.py:5049-5098 | recovery replays a session if and only if its disk can supply the plan and every edit in the way can be saved |
| PullRecovery.RecoveryCompletes | clients/desktop/service.py:5006-5130 | a session and any number of recoveries may be killed; the next one that runs to its end applies the plan and commits its revision |
| PullRecovery.RecoveryKeepsEdits | clients/desktop/service.py:5006-5130 | an edit found by a session survives its interruptions and the recovery after them, and is saved if that recovery replayed the plan |
| PullEngine.Desktop.PreserveDirty | clients/desktop/service.py:5616-5682 | saves edited bytes once: known copy restored, or the first free name written, registered and flagged; every intermediate disk is one of the run's |
| PullEngine.Desktop.StageOne | clients/desktop/service.py:5743-5795 | one iteration of the staging loop, every branch and every atomic step |
| PullEngine.Desktop.RemoveOne | clients/desktop/service.py:5797-5812 | one deletion, after saving an edit |
| PullEngine.Desktop.PutOne | clients/desktop/service.py:5814-5850 | one write from staging, saving an in-place edit first, accepting a target already correct |
| PullEngine.Desktop.LandOne | clients/desktop/service.py:5852-5908 | placing a staged move |
| PullEngine.Desktop.ShiftOne | clients/desktop/service.py:5852-5908 | placing a move straight from its source, dirty sources included |
| PullEngine.Desktop.RunLoops | clients/desktop/service.py:5743-5926 | the five loops in order, stopping at the first error, equal in state, error and visited disks to the run the theorems are about |
| PullEngine.Desktop.ApplyStaged | clients/desktop/service.py:5705-5741 | refuses a missing or foreign journal untouched, else enters the materializing phase and runs the loops |
| PullEngine.Desktop.StagePull | clients/desktop/service.py:5515-5592 | persists plan and payloads and reaches the staging phase, or is refused by an active journal (7320-7327) and changes nothing |
| PullEngine.Desktop.FinalizeApplied | clients/desktop/service.py:5935-5970 | commits the revision and clears journal, plan file and staging exactly from the matching materializing journal |
| PullEngine.Desktop.FallBack | clients/desktop/service.py:7361-7412 | closes a materialized session that matches its document, else sets every staged payload aside (`PullOrphans.OrphansGrow`) and asks for a full pull |
| PullEngine.Desktop.ResumeRecovery | clients/desktop/service.py:5006-5130 | the recovery procedure, equal to the function that `PullRecovery.ResumeModes`, `ResumeIsSound` and `PullOrphans` tell field by field |
| PullBuild.BuildPlan | clients/desktop/service.py:5972-6057 | the diff loops give the plan whose writes, moves and deletions `PullEdits` tells field by field from file map and manifest |
| PullApply.NextFree | clients/desktop/service.py:5593-5614 | the conflict name chosen is free and is the first free one |
| PullApply.FindCopy | clients/desktop/service.py:5636-5645 | an existing copy of the same bytes is reused, and one is found whenever there is one |
| VaultRuns.RunKeeps | apps/backend/noteapp-server/sync_store.py:1591-1788 | over any run of commits, acks, collections, revocations and version edits, failed calls included: manifests are exactly revisions 1..head, each based on the one before and never rewritten, commits biject with revisions, the stored summary is the head's, acks never exceed head or fall, and version index and records agree |
| VaultRuns.ServeKeeps | apps/backend/noteapp-server/sync_store.py:1591-1788 | the same for one request |
| VaultRuns.ResolveIffCommitted | apps/backend/noteapp-server/sync_store.py:1658-1677 | over any run the intent query finds revision r exactly when that intent and hash were committed at r |
| VaultRuns.CommitsOnce | apps/backend/noteapp-server/sync_store.py:1613-1656 | an intent commits at most one revision, under one hash |
| VaultRuns.RetryIsIdempotent | apps/backend/noteapp-server/sync_store.py:1617-1629 | after any later requests a retry is answered with the original revision and commits nothing; another hash always conflicts |
| VaultRuns.OneCommitPerBase | apps/backend/noteapp-server/sync_store.py:1631-1632 | of the commits built on one revision only one lands; the others get the newer head and change nothing |
| VaultRuns.RejectedChangesNothing | apps/backend/noteapp-server/sync_store.py:1613-1656 | a rejected request, at whatever point it fails, leaves the vault as it was |
| VaultVersions.LandingRecords | apps/backend/noteapp-server/sync_store.py:2199-2312 | over the appends of a landing commit nothing but the due versions is added, versions of other files and pinned versions stay, and each file that got a version is within its retention limit; which are due and what they hold is `VaultRecords.VersionsLanded` |
| VaultRecords.VersionsLanded | apps/backend/noteapp-server/sync_store.py:2199-2273 | a landing commit stores a version at its revision of exactly those entries of its manifest that it references or directs and that are directed, new, or of another hash or blob than in the base manifest, each with the entry's blob, path, hash, size and time, the manifest's creator and time, and the directive's source, words and pin or the defaults; whatever else is stored was stored before |
| VaultRetention.LandingLeaves | apps/backend/noteapp-server/sync_store.py:2275-2312 | of the older versions it drops exactly those of the files that got a new one that are not kept for a pin and that as many newer ones as the limit allows outnumber |
| VaultAnswers.LandsIff | apps/backend/noteapp-server/sync_store.py:1591-1656 | a commit lands exactly when it is well put, its intent is new, it builds on the head, every blob it references is stored, its manifest is complete and its directives are in order |
| VaultAnswers.CommitRefused | apps/backend/noteapp-server/sync_store.py:1591-1656 | why a commit does not land, first reason first, and with which answer |
| VaultAnswers.LandingIs | apps/backend/noteapp-server/sync_store.py:1631-1656 | every field a landing commit changes: head, manifest, summary, the intent with its hash, device and time, and the device's ack; nothing else but versions |
| VaultAnswers.RetryIs | apps/backend/noteapp-server/sync_store.py:1617-1629 | a retry is answered from the record and changes only the caller's ack |
| VaultAnswers.CollectionIs | apps/backend/noteapp-server/sync_store.py:982-1134 | every field a collection changes: if a tombstone of the head is acked by all joined, unrevoked devices and old enough, the next revision is the head without those that are, each of the others as often as before; otherwise nothing |
| VaultAnswers.AckingIs | apps/backend/noteapp-server/sync_store.py:1761-1788 | an ack call raises the caller's ack to the highest revision named and then collects with a window of a week; acks that are empty, repeated, zero or beyond the head change nothing |
| VaultAnswers.CollectingIs | apps/backend/noteapp-server/sync_store.py:933-960 | a requested collection is refused for a negative window and else collects with it |
| VaultAnswers.BlockedIs | apps/backend/noteapp-server/sync_store.py:1044-1083 | the reason, the time left and the devices reported for a tombstone that stays, from acks, revocations and age |
| VaultAnswers.NewVaultIs | apps/backend/noteapp-server/sync_store.py:410-428 | a new vault is empty and keeps fifty versions of a file besides pinned ones |
| VaultAnswers.RevokingIs | apps/backend/noteapp-server/sync_store.py:791-834 | a revocation adds the device to the revoked ones and collects |
| VaultAnswers.RelabellingIs | apps/backend/noteapp-server/sync_store.py:1726-1759 | exactly the given ones of caption, note and pin of the one version change, and which requests are refused |
| VaultStamps.DeletionsWait | apps/backend/noteapp-server/sync_store.py:255-256 | over any run: a deletion committed at revision n, listed without a revision, is dropped from the head by no request but a commit before every joined, unrevoked device has acked n, as long as no client claims an earlier deletion of that file |
| VaultVersions.LandedBlobsExist | apps/backend/noteapp-server/sync_store.py:2102-2114 | a commit lands only if every blob it references is stored |
| VaultVersions.DirectivesRead | apps/backend/noteapp-server/sync_store.py:2134-2165 | directives are accepted exactly when each is valid and no file has two; then each file has its own |
| VaultVersions.AckRaises | apps/backend/noteapp-server/sync_store.py:1761-1788 | an accepted ack answers with and stores the highest revision the device ever acked, at most head, and touches no other device |
| VaultChain.LandingKept | apps/backend/noteapp-server/sync_store.py:1631-1656 | a landing commit leaves a valid vault: one more revision based on the old head, earlier revisions, commits and acks as they were or raised |
| VaultChain.CollectionFinal | apps/backend/noteapp-server/sync_store.py:1087-1113 | a collection's head has the old files and exactly the kept tombstones, and is canonical |
| Collection.CollectionSafe | apps/backend/noteapp-server/sync_store.py:982-1134 | every reclaimed tombstone was acked by every joined unrevoked device and outlived the window; kept and reclaimed partition the head's tombstones; files, acks and versions are untouched |
| Collection.ReclaimableIff | apps/backend/noteapp-server/sync_store.py:1033-1083 | exactly which tombstones may go |
| Collection.CollectingTwice | apps/backend/noteapp-server/sync_store.py:982-1134 | a second run at the same time and acks reclaims nothing and changes nothing |
| Collection.CollectionMonotone | apps/backend/noteapp-server/sync_store.py:982-1134 | more acks, more revocations, a later time or a shorter window reclaim a superset |
| Collection.BlockedUntil | apps/backend/noteapp-server/sync_store.py:1044-1083 | nothing is reported for what could go; once the named devices have caught up the tombstone can go exactly when the reported time is over, and for a deletion dated in the future, where the reported time is too short, that much later |
| SyncStore.Server.Commit | apps/backend/noteapp-server/sync_store.py:1591-1656 | the commit procedure on a working copy, stored only at the end |
| SyncStore.Server.Resolve | apps/backend/noteapp-server/sync_store.py:1658-1677 | not found, mismatched, or found with its revision |
| SyncStore.Server.Acknowledge | apps/backend/noteapp-server/sync_store.py:1761-1788 | duplicate, empty or too-high acks are refused; else the ack rises and a collection runs in the same write |
| SyncStore.Server.RunCollection | apps/backend/noteapp-server/sync_store.py:933-960 | a collection with the caller's window; a negative window is refused |
| SyncStore.Server.Revoke | apps/backend/noteapp-server/sync_store.py:791-834 | revoking a device and collecting at once what it held back |
| SyncStore.Server.Relabel | apps/backend/noteapp-server/sync_store.py:1726-1759 | caption, note and pin of a stored version change and nothing else; retention is not run |
| SyncStore.Scan | apps/backend/noteapp-server/sync_store.py:1033-1085 | the scan puts each tombstone in exactly one of kept, with its reason, and reclaimed |
| SyncStore.Collected | apps/backend/noteapp-server/sync_store.py:982-1134 | one collection: scan, new canonical head, its own intent |
| SyncStore.RecordVersions | apps/backend/noteapp-server/sync_store.py:2199-2273 | the loop over referenced and directed files in sorted order, equal to the function whose results `VaultRecords.VersionsLanded` and `VaultRetention.LandingLeaves` tell field by field |
| Manifest.FinalizePayload | apps/backend/noteapp-server/sync_store.py:268-306 | the loops give the finalisation whose entries, order and refusals `FinalizeConserves`, `FinalizeOrders` and `FinalizesIff` tell field by field |
| Manifest.FinalizeCanonical | apps/backend/noteapp-server/sync_store.py:268-306 | a finalised manifest is normalised, complete, sorted and hashed at its revision |
| Manifest.FinalizeConserves | apps/backend/noteapp-server/sync_store.py:246-306 | every listed file and tombstone is stored, as often as it was listed: the file under its normalised path, the tombstone with its id, time and number, the listed revision of the deletion or exactly the new revision where none is listed, and the normalised last path; nothing but order, revision and summary changes |
| Manifest.FinalizeOrders | apps/backend/noteapp-server/sync_store.py:291-292 | files by path and tombstones by deletion number, ids breaking ties |
| Manifest.FinalizesIff | apps/backend/noteapp-server/sync_store.py:268-306 | exactly which manifests are refused |
| Manifest.FinalizeRefuses | apps/backend/noteapp-server/sync_store.py:246-287 | which error a manifest is refused with: vault, creator, paths and tombstones in this order, the first bad tombstone deciding |
| Manifest.FinalizeIdempotent | apps/backend/noteapp-server/sync_store.py:268-306 | finalising again at the same revision changes nothing |
| Manifest.FinalizeOrderless | apps/backend/noteapp-server/sync_store.py:268-306 | with unique file ids every order of files and tombstones finalises to the same manifest and summary |
| Versions.AppendVersion | apps/backend/noteapp-server/sync_store.py:2199-2312 | after an append the new version and all pinned ones are there, at most the allowed number of unpinned is left, they are the newest by revision and id, other files are untouched, and index and records agree |
| VersionRetention.RetentionIs | apps/backend/noteapp-server/sync_store.py:2275-2312 | after an append a version of the file stays exactly if it is kept for its pin or fewer than the limit, by default fifty, of the others are newer by revision and then id |
| VersionRetention.KnownStays | apps/backend/noteapp-server/sync_store.py:2199-2273 | a version that is stored already is not stored again |
| Versions.RunRetention | apps/backend/noteapp-server/sync_store.py:2275-2312 | the retention loop, equal to the specification |
| Versions.Sweep | apps/backend/noteapp-server/sync_store.py:2293-2312 | one walk of the newest-first list keeps and drops exactly the specified versions |
| Versions.WalkIsListing | apps/backend/noteapp-server/sync_store.py:1679-1724 | for every page size, following cursors ends and concatenates to the whole sorted listing without gap or repeat |
| Versions.PageIs | apps/backend/noteapp-server/sync_store.py:1700-1724 | a page holds as many versions as fit from its offset and points on exactly if there is more |
| Versions.ShownExactly | apps/backend/noteapp-server/sync_store.py:1700-1717 | a listing shows exactly the file's stored versions, or its unpinned ones, once each, newest first |
| Versions.LoadVersion | clients/desktop/service.py:5174-5198 | the client's page walk finds a version exactly when it is stored for that file; the repeated-cursor and wrong-file errors never occur |
| Upload.BlobChunks | apps/backend/noteapp-server/sync_store.py:227-243 | the chunking loop, its errors and the single empty chunk of an empty blob |
| Upload.EveryByteOnce | apps/backend/noteapp-server/sync_store.py:227-243 | every byte of a non-empty blob lies in exactly one chunk and no chunk reaches beyond it |
| Upload.TilesTile | apps/backend/noteapp-server/sync_store.py:227-243 | chunks lie end to end, all full-sized but the last, each named after its place |
| UploadProofs.MissingIsWhatHasNotArrived | apps/backend/noteapp-server/sync_store.py:1331-1372 | for chunk uploads in any order, repeated, for any sessions, the missing set is what was missing minus what was accepted |
| UploadProofs.MissingFromTheStart | apps/backend/noteapp-server/sync_store.py:2015-2029 | for a new session the reported missing chunks are exactly those that have not arrived |
| UploadProofs.UploadInAnyOrder | apps/backend/noteapp-server/sync_store.py:1374-1452 | the blob's own chunks sent in any order and number among other uploads: completion names exactly the missing ones, or stores the original bytes |
| UploadProofs.CompleteUploadIsTheBlob | apps/backend/noteapp-server/sync_store.py:2050-2093 | once nothing is missing and every stored chunk is the blob's own, completion succeeds and the object is the blob |
| UploadProofs.AcceptedIsDeclared | apps/backend/noteapp-server/sync_store.py:2050-2093 | whatever was sent, only bytes with the declared hash are accepted |
| UploadProofs.RunSound | apps/backend/noteapp-server/sync_store.py:1252-1452 | over any run, failed batches included, every recorded blob is stored with its recorded size and hash and its bytes never change |
| UploadProofs.RunIntact | apps/backend/noteapp-server/sync_store.py:1252-1452 | if a client only ever sends the blob's bytes for a session, its stored chunks are those bytes after any run |
| UploadCalls.UploadEnds | apps/backend/noteapp-server/sync_store.py:1374-1452 | from first chunk to completion call: the blob's own chunks in any order and number among other uploads, then a call before the session runs out names exactly the chunks that have not arrived or stores the blob; a later call is told there is no such session and changes no record |
| UploadCalls.CompletionIs | apps/backend/noteapp-server/sync_store.py:1374-1452 | what a completion call leaves: exactly the sessions that have not run out and were not accepted, with their chunk files, each status what was found, blobs as declared; a failing call keeps all sessions and blob records |
| UploadCalls.CompletionFails | apps/backend/noteapp-server/sync_store.py:1374-1452 | a call that is not well put is refused; any other that fails does so for the first claim with a fault, and for which one: other metadata on record, no live session, another vault, blob, size or hash, an unknown chunk, or files that do not make up the blob |
| UploadCalls.JoiningIs | apps/backend/noteapp-server/sync_store.py:2050-2073 | a finished upload yields its chunks' bytes in the order of their offsets, exactly when every non-empty chunk has a file of its size and the whole has the declared size and hash |
| UploadCalls.OpeningRefused | apps/backend/noteapp-server/sync_store.py:1252-1329 | which openings are refused: empty names, bad sizes, or listed chunks other than the blob is cut into |
| UploadCalls.CuttingIs | apps/backend/noteapp-server/sync_store.py:227-243 | a blob is refused for a negative size or a chunk size below one; an empty one has one empty chunk, any other full chunks end to end |
| UploadCalls.OthersStay | apps/backend/noteapp-server/sync_store.py:1971-1989 | no completion call, failing or not, touches a live session that it is not about |
| UploadCalls.PuttingIs | apps/backend/noteapp-server/sync_store.py:1331-1372 | a chunk is taken exactly when its session has not run out and as many bytes were sent as the chunk at that place has; then its file holds them and nothing else changes |
| UploadCalls.OpeningIs | apps/backend/noteapp-server/sync_store.py:1252-1329 | an opening drops the sessions that have run out, resumes one that fits if there is one and else starts one that runs for a quarter of an hour; a blob recorded otherwise refuses it |
| UploadServer.Server.PutChunk | apps/backend/noteapp-server/sync_store.py:1331-1372 | all checks in order, then file, file list and uploaded list |
| UploadServer.Server.MissingChunks | apps/backend/noteapp-server/sync_store.py:2015-2029 | the loop reports exactly the missing chunks, in order |
| UploadServer.Server.Finish | apps/backend/noteapp-server/sync_store.py:2050-2073 | offset-ordered concatenation with its error cases |
| UploadServer.Server.CompleteUploads | apps/backend/noteapp-server/sync_store.py:1374-1452 | a batch keeps files and objects it wrote but saves records only if every upload went through |
| UploadServer.Server.OpenUpload | apps/backend/noteapp-server/sync_store.py:1252-1329 | resumes a live matching session or starts one, after purging expired ones |
| Repository.EveryInterleavingIsSerial | apps/backend/noteapp-server/sync_repository.py:113-166 | for any number of processes and any interleaving of load, compute, save, update and import, the stored state is the successful writes applied one after another and the version counts them |
| Repository.StaleSaveLandsIff | apps/backend/noteapp-server/sync_repository.py:209-226 | over any run at all, a save based on a stale load takes effect exactly when that process's earlier save failed while committing and its leftover marker equals the current version |
| Repository.SaveLandsIff | apps/backend/noteapp-server/sync_repository.py:209-226 | a save writes exactly when nobody has written since its copy was loaded, whatever others did in between |
| Repository.SavingIs | apps/backend/noteapp-server/sync_repository.py:209-226 | a save without a version marker or with that of the stored state writes the copy as the next version, or moves only the marker if the commit fails; any other does nothing |
| Repository.RaisedWritesNothing | apps/backend/noteapp-server/sync_store.py:337-348 | a process whose operation raised writes nothing until it loads again or makes a state of its own, whatever happens in between |
| Repository.FailedCommitLosesUpdate | apps/backend/noteapp-server/sync_repository.py:209-226 | a concrete run in which that overwrites another process's update |
| Deployment.ProcessesAreOneServer | apps/backend/noteapp-server/sync_repository.py:133-155 | server processes sharing the database, interleaved in any way, leave the vault one server would leave serving the committed requests in commit order, hence always a valid one: for processes that do not save again a copy whose save failed while committing, collections with new run ids, and no import of a whole state |
| Deployment.StepsAlone | apps/backend/noteapp-server/sync_repository.py:113-166 | what a call does to the row and the caller's marker depends on these two and the caller's state alone, whatever other processes hold |
| Deployment.SqliteRepository.Load | apps/backend/noteapp-server/sync_repository.py:113-125 | the stored state with its version, or the default with version 0: the load step of the interleaving theorem |
| Deployment.SqliteRepository.Save | apps/backend/noteapp-server/sync_repository.py:209-226 | writes exactly when the marker is absent or current and the commit goes through; the marker advances before the commit; the save step of the interleaving theorem |
| Deployment.SqliteRepository.Update | apps/backend/noteapp-server/sync_repository.py:133-155 | one transaction; an operation that raises changes nothing; the update step of the interleaving theorem |
| Deployment.SqliteRepository.ImportState | apps/backend/noteapp-server/sync_repository.py:157-166 | replaces existing state only when forced; the import step of the interleaving theorem |
| ChangeResults.PlanningIsAFixpoint | clients/desktop/change_detection.py:258-508 | if the workspace stays as it is, detection against the planned document reports nothing |
| ChangeResults.EveryRecordOnce | clients/desktop/change_detection.py:258-508 | each record is kept, refreshed, renamed onto its unrivalled match or deleted, exactly as its file calls for |
| ChangeResults.EveryFileOnce | clients/desktop/change_detection.py:440-488 | each untracked file ends with exactly one live record, as a rename target or a new file |
| ChangeResults.TombstonesExact | clients/desktop/change_detection.py:424-438 | the old tombstones plus one for each missing unrenamed file, once, in document order, numbered on, with its last path |
| ChangeResults.ContentExact | clients/desktop/change_detection.py:490-508 | the content map holds exactly the active files, with the bytes at their paths, which hash to their records |
| ChangeScene.PlansIff | clients/desktop/change_detection.py:274-297 | planning succeeds exactly when every conflict copy is on disk as recorded, a record is not as on disk, a file is new or a deletion is pending, and the active records of lock files are accurate; new files never make it fail |
| ChangeScene.DetectionIs | clients/desktop/change_detection.py:152-207 | detection reports exactly the watched records whose file is not as recorded and the files no watched record is about, each once and with what is on disk |
| ChangeScene.DetectionOrder | clients/desktop/change_detection.py:199 | in order of path, kind and id |
| ChangeScene.RenamesAre | clients/desktop/change_detection.py:219-255 | the renames are exactly the missing active files to which one new file alone corresponds in content and type, and to no other missing one |
| ChangeScene.RecordsEnd | clients/desktop/change_detection.py:309-438 | in every field, what a plan makes of each record: it stays, takes time, hash, blob id and size of its file, moves to where its file was moved keeping its blob id, or is deleted |
| ChangeScene.NewRecords | clients/desktop/change_detection.py:440-488 | after the old records one active record for each new file that nothing was moved to, with its time, hash, blob id and size, and no other |
| ChangeScene.NewRecordsOrder | clients/desktop/change_detection.py:440-488 | they come in order of path |
| ChangeScene.TombstonesAre | clients/desktop/change_detection.py:424-438 | one tombstone for each file that is gone, in document order, numbered on, with its last path, the time its record now has and no revision |
| ChangeTimes.TimesRise | clients/desktop/change_detection.py:354-438 | each moved or deleted record gets a time exactly one later than the latest of: the document's, the changed files', those of the records moved before it by path or deleted before it in document order (moves come before deletions), its own, and its new file's |
| ChangeTimes.DocumentEnds | clients/desktop/change_detection.py:349-508 | the planned document keeps its vault; its time is that of the last new record or, without one, the latest of all these |
| ChangeFacts.RenamedIff | clients/desktop/change_detection.py:219-255 | a rename is matched exactly when some content and type belongs to one missing active file and one untracked file alone |
| ChangeFacts.MatchedRenames | clients/desktop/change_detection.py:219-255 | no file and no target is used twice; content and type agree |
| ChangeFacts.DetectedExactly | clients/desktop/change_detection.py:152-207 | detection reports every change once and nothing else |
| ChangeProofs.RecordStatus | clients/desktop/change_detection.py:114-207 | a record is listed modified or missing exactly when its file differs or is gone |
| ChangeStages.RenameStages | clients/desktop/change_detection.py:354-422 | all matched renames succeed; no rename finds its target occupied |
| ChangeStages.DeleteStages | packages/vault-core/src/vault_core/operations.py:131-167 | deletions in document order, each with its tombstone |
| ChangeStages.AddStages | packages/vault-core/src/vault_core/operations.py:8-41 | all additions succeed; no added path is occupied |
| ChangeDetection.DetectChanges | clients/desktop/change_detection.py:152-207 | the record and workspace loops report what the specification says, whatever order the walk takes |
| ChangeDetection.FindRenames | clients/desktop/change_detection.py:219-255 | the grouping dictionaries yield the specified renames |
| ChangeDetection.BuildPlan | clients/desktop/change_detection.py:258-508 | the planner's loops give the plan that `ChangeScene` tells from the scene, error for error |
| Chunker.SplitChunks | clients/desktop/service.py:408-446 | for every text and every limit of at least 1 the loops end, every chunk is non-empty, stripped and within the limit, and with overlaps dropped the chunks say exactly what the text says, in order |
| Chunker.AdvanceShrinks | clients/desktop/service.py:433-443 | each round shortens the pending text by at least the limit less the overlap and two, or by at least the limit without overlap |
| Chunker.OverlapCarried | clients/desktop/service.py:439-441 | what follows a chunk cut off the front begins with that chunk's overlap |
| Chunker.Drain | clients/desktop/service.py:432-444 | the inner loop's progress and what it leaves waiting |
| Chunker.AddBlock | clients/desktop/service.py:424-444 | one step of the outer loop |
| Chunker.NormalizedSays | clients/desktop/service.py:387-388 | unifying line ends and trimming lose no ink and leave ink at both ends |
| Chunker.PiecesSay | clients/desktop/service.py:402-405 | cutting before headings and at runs of line ends drops nothing but line ends |
| ChunkerCuts.PiecesAre | clients/desktop/service.py:402-405 | a text is cut exactly at its blank lines and before its headings: the parts lie one after the other, none holds a blank line or a heading after its start, and only whole runs of line ends are dropped |
| ChunkerCuts.HeadingIff | clients/desktop/service.py:402-403 | a heading is at most three white space characters, one to six hashes, white space and a character that is none |
| ChunkerCuts.OverlapIs | clients/desktop/service.py:414 | the overlap is the largest number up to 240 and up to a fifth of the limit |
| ChunkerCuts.BlocksTogether | clients/desktop/service.py:424-428 | blocks that fit the limit together, with blank lines between, stay one chunk |
| ChunkerCuts.BlockApart | clients/desktop/service.py:424-432 | a block that does not fit with what waits starts a new chunk |
| Chunker.BlocksSay | clients/desktop/service.py:402-405 | the blocks are non-blank and say what the text says |
| Chunker.OverlapEnds | clients/desktop/service.py:439-441 | the overlap carried over is the end of the chunk it repeats |
| WikiProofs.RewriteCommutesWithScan | clients/desktop/service.py:1062-1074 | for any text and any non-empty title free of closing brackets, line ends, bars and hashes, extracting after the rewrite is substituting in what was extracted before |
| WikiProofs.ReshapedScans | clients/desktop/service.py:531 | printing tokens with changed link groups and scanning again gives exactly those tokens |
| WikiProofs.PrintScan | clients/desktop/service.py:531 | scanning loses nothing |
| WikiProofs.RetargetParts | clients/desktop/service.py:1051-1059 | a rewritten link has the new target, the old anchor and alias, and is still a link |
| WikiProofs.NoneLeft | clients/desktop/service.py:1062-1074 | after a rewrite to a different name no link has the old name |
| WikiResults.RewriteIs | clients/desktop/service.py:1047-1074 | token by token, what a rewrite makes of a text: each link whose stripped target is the former title in lower case, whatever its anchor and alias, gets the new title before the anchor and alias it had, everything else stays |
| WikiResults.ScanIs | clients/desktop/service.py:531 | which links a text has, told from the text: taken from the left, to the first closing brackets of a non-empty run without line end |
| WikiResults.HitsCount | clients/desktop/service.py:1064-1074 | the reported number is the number of links to the former title |
| WikiLinks.Rewrite | clients/desktop/service.py:1062-1074 | the single pass yields the substituted text and the number of substituted links |

## Left out

- PullSuccess.SuccessMeansApplied: not for plans that use a name of the run's day next to a file they compare, or the registered copy of such a file (`Separated`). For such names `PullApplied.AppliedIff` gives the exact condition and `PullLimits.CollidingNameRefillsPath` an input where it fails.
- PullKept.NoTrackedEditLost: under the same condition, and for files with a recorded hash; the engine does not look at others. For other names `PullLost.EditLastsIff` and `PullStopped.EditWhenStopped` say exactly what is lost, `PullLimits.CollidingNameLosesEdit` shows it.
- PullLost.EditLastsIff: like `PullApplied.AppliedIff` and `PullStopped.EditWhenStopped` for plans off the registered copies of the files they compare (`Separated` for no day).
- PullExact.SucceedsIffReady: under the same condition on names.
- PullCrash.CrashKeepsReady: for disks that hold the registered copies next to the plan's files and whose file map knows the files that are edited or whose path the plan fills again (`Good`); a replay may take planned content for an edit and save it.
- PullCrash.LoopFourReplayIff: tells the outcome from the placements done, for a crash between two iterations of the second move loop; `PullCrash.AnyCrashReplayIff` covers every other point, in terms of the disk that is left.
- PullRecovery.ResumeIsQuiescent: the bookkeeping steps of recovery other than the replay are one step; a crash between them is not modelled.
- PullOrphans.ReplayKeepsMoves: not for plans that delete, at the target of a move, the moved content itself or content without a recorded hash; `PullLimits.ReplayDeletesLanded` shows what happens then. Setting aside is the set of payloads, not the names of the files they go to.
- PullEdits.PullSavesEdits: under the same condition on names (`Separated`), and for a file map and manifest without duplicate paths and ids.
- PullEngine.Desktop.StagePull: the clean-up after a failing write while staging, and the choice not to open a journal for an empty plan.
- SyncStore.Server.Relabel: a pin set to null counts as no pin given.
- SyncStore.Server.Revoke: the device registry, sessions and capabilities; a revoked device stays revoked.
- VaultStamps.DeletionsWait: a client may list a tombstone with a deletion revision of its own choosing, which the server believes; the theorem is about runs in which none claims an earlier one for that file.
- VaultVersions.LandingRecords: names the due versions by the function that computes them; `VaultRecords.VersionsLanded` and `VaultRetention.LandingLeaves` tell them by their fields.
- VaultRuns.RunKeeps: run ids of collections are new to the vault (`FreshRun`); one vault at a time; clients may commit manifests that drop tombstones.
- UploadServer.Server.OpenUpload: one blob per call; which of several matching sessions is resumed; blobs recorded before hashes were kept.
- Repository.EveryInterleavingIsSerial: for processes that do not save a copy again whose save failed while committing; `Repository.StaleSaveLandsIff` gives the exact case and `Repository.FailedCommitLosesUpdate` a run.
- ChangeResults.PlanningIsAFixpoint: generated ids are new (`FreshIds`), record ids are unique; sizes and times in change records, MIME types, version tokens and path normalisation are not modelled.
- Directories and file kinds: a path is a file or nothing; parent directories, the orphan directory for copies and the refusals for non-files are not modelled.
- Conflict-file naming: the text of the name, its device part and date format; a name is its original, its day and its number.
- The returned lists of written, moved and deleted paths, the collection log and other reports.
- Malformed JSON, type checks on request fields, and the projection tables beside the state row.
- The JSON state repository, which checks no version.
- Download, staging and decryption of blobs before a pull is staged; encryption, keys and recovery packages.
- Accounts, sessions, capability tokens, HTTP routes, metrics, command line, scheduler, worker, search index, providers and user interface.
