/** The upload calls told field by field: which requests go through, and what a whole call leaves of sessions, files and blobs. */
module UploadCalls {
  import opened Basics
  import opened Ordering
  import opened Upload
  import opened UploadProofs

  /** The session has not run out. */
  predicate Live(u: Uploads, sid: string, now: int) {
    sid in u.sessions && u.sessions[sid].expires >= now
  }

  /** The chunk is noted as uploaded, and unless it is empty its file is there. */
  predicate Here(u: Uploads, sid: string, c: Chunk)
    requires sid in u.sessions
  {
    c.id in u.sessions[sid].uploaded && (c.size == 0 || (c.id in u.sessions[sid].chunkFiles && FileKey(sid, c.id) in u.files))
  }

  /** The claim names the session's own vault, blob, size and hash, and no chunk it does not have. */
  ghost predicate Belongs(s: Session, vault: string, q: Claim) {
    && s.vault == vault && s.blob == q.blob && s.size == q.size && s.hash == q.hash
    && forall id :: id in q.uploaded ==> exists c :: c in s.chunks && c.id == id
  }

  /** A chunk file is dropped with its session. */
  predicate DroppedWith(u: Uploads, w: Uploads, k: FileKey) {
    k.session in u.sessions && k.session !in w.sessions && k.chunk in u.sessions[k.session].chunkFiles
  }

  /** `w` has exactly the files of `u` but those dropped with their sessions. */
  ghost predicate FilesFollow(u: Uploads, w: Uploads) {
    forall k :: At(w.files, k) == if DroppedWith(u, w, k) then None else At(u.files, k)
  }

  // Completing.

  /** What the status of a claim says, seen from the state the call found. */
  ghost predicate StatusOk(u: Uploads, w: Uploads, vault: string, q: Claim, now: int, status: Status) {
    match status
    case AlreadyExists => q.blob in w.blobs && w.blobs[q.blob].size == q.size && w.blobs[q.blob].hash == q.hash
    case StillMissing(cs) =>
      && Live(u, q.sid, now) && Belongs(u.sessions[q.sid], vault, q) && cs != []
      && forall c :: c in cs <==> c in u.sessions[q.sid].chunks && !Here(u, q.sid, c)
    case Accepted =>
      && Live(u, q.sid, now) && Belongs(u.sessions[q.sid], vault, q)
      && (forall c :: c in u.sessions[q.sid].chunks ==> Here(u, q.sid, c))
      && At(w.blobs, q.blob) == Some(Blob(vault, q.size, u.sessions[q.sid].contentHash, q.hash))
      && ObjectKey(vault, q.blob) in w.objects
      && |w.objects[ObjectKey(vault, q.blob)]| == q.size && Sha256(w.objects[ObjectKey(vault, q.blob)]) == q.hash
  }

  /** Some claim on the session was accepted. */
  ghost predicate AcceptedOn(qs: seq<Claim>, statuses: seq<Status>, sid: string) {
    exists i :: 0 <= i < |qs| && i < |statuses| && qs[i].sid == sid && statuses[i] == Accepted
  }

  ghost predicate AcceptedBlob(qs: seq<Claim>, statuses: seq<Status>, blob: string) {
    exists i :: 0 <= i < |qs| && i < |statuses| && qs[i].blob == blob && statuses[i] == Accepted
  }

  /** Live sessions stay as they are, but for those accepted; blobs come from accepted claims; files follow their sessions. */
  ghost predicate Batch(u: Uploads, w: Uploads, vault: string, qs: seq<Claim>, now: int, statuses: seq<Status>) {
    && |statuses| == |qs|
    && (forall sid :: At(w.sessions, sid) ==
          if Live(u, sid, now) && !AcceptedOn(qs, statuses, sid) then Some(u.sessions[sid]) else None)
    && FilesFollow(u, w)
    && (forall blob :: blob in u.blobs ==> At(w.blobs, blob) == Some(u.blobs[blob]))
    && (forall blob :: blob in w.blobs ==> blob in u.blobs || AcceptedBlob(qs, statuses, blob))
    && (forall i :: 0 <= i < |qs| ==> StatusOk(u, w, vault, qs[i], now, statuses[i]))
    && (forall i :: 0 <= i < |qs| && qs[i].blob in u.blobs ==> statuses[i] == AlreadyExists)
  }

  ghost predicate DistinctSids(qs: seq<Claim>) {
    forall i, j :: 0 <= i < j < |qs| ==> qs[i].sid != qs[j].sid
  }

  lemma {:induction false} ChunkKnown(cs: seq<Chunk>, id: ChunkId)
    ensures ChunkById(cs, id).Some? <==> exists c :: c in cs && c.id == id
  {
    if cs != [] {
      ChunkKnown(cs[1..], id);
      assert cs == [cs[0]] + cs[1..];
    }
  }

  lemma ClaimFits(s: Session, vault: string, q: Claim)
    ensures ClaimError(s, vault, q).None? <==> Belongs(s, vault, q)
  {
    forall id { ChunkKnown(s.chunks, id); }
  }

  lemma PurgeStarts(u: Uploads, vault: string, now: int)
    ensures Batch(u, Purge(u, now), vault, [], now, [])
  {
  }

  /** The session of a claim still to be done is as the call found it, and so are its files. */
  lemma SameSession(u: Uploads, v: Uploads, vault: string, qs: seq<Claim>, now: int, statuses: seq<Status>, q: Claim)
    requires Batch(u, v, vault, qs, now, statuses) && q.sid in v.sessions
    ensures Live(u, q.sid, now) && v.sessions[q.sid] == u.sessions[q.sid]
    ensures forall c :: IsMissing(v.sessions[q.sid], q.sid, v.files, c) <==> !Here(u, q.sid, c)
  {
    assert At(v.sessions, q.sid) == Some(u.sessions[q.sid]);
    forall c
      ensures IsMissing(v.sessions[q.sid], q.sid, v.files, c) <==> !Here(u, q.sid, c)
    {
      assert !DroppedWith(u, v, FileKey(q.sid, c.id));
      assert At(v.files, FileKey(q.sid, c.id)) == At(u.files, FileKey(q.sid, c.id));
    }
    hide FilesFollow, StatusOk, AcceptedOn, AcceptedBlob;
  }

  lemma AcceptedMore(qs: seq<Claim>, statuses: seq<Status>, q: Claim, status: Status, sid: string, blob: string)
    requires |statuses| == |qs|
    ensures AcceptedOn(qs + [q], statuses + [status], sid) <==> AcceptedOn(qs, statuses, sid) || (q.sid == sid && status == Accepted)
    ensures AcceptedBlob(qs + [q], statuses + [status], blob) <==> AcceptedBlob(qs, statuses, blob) || (q.blob == blob && status == Accepted)
  {
    var (xs, ys) := (qs + [q], statuses + [status]);
    assert xs[|qs|] == q && ys[|qs|] == status;
    if AcceptedOn(qs, statuses, sid) {
      var i :| 0 <= i < |qs| && qs[i].sid == sid && statuses[i] == Accepted;
      assert xs[i].sid == sid && ys[i] == Accepted;
    }
    if AcceptedBlob(qs, statuses, blob) {
      var i :| 0 <= i < |qs| && qs[i].blob == blob && statuses[i] == Accepted;
      assert xs[i].blob == blob && ys[i] == Accepted;
    }
  }

  /** What accepting a claim does to a working state. */
  ghost predicate Takes(v: Uploads, w: Uploads, vault: string, q: Claim) {
    && q.sid in v.sessions && q.blob !in v.blobs && Belongs(v.sessions[q.sid], vault, q)
    && w.sessions == v.sessions - {q.sid}
    && w.blobs == v.blobs[q.blob := Blob(vault, q.size, v.sessions[q.sid].contentHash, q.hash)]
    && (forall k :: At(w.files, k) == if k.session == q.sid && k.chunk in v.sessions[q.sid].chunkFiles then None else At(v.files, k))
    && (forall k :: k != ObjectKey(vault, q.blob) ==> At(w.objects, k) == At(v.objects, k))
    && ObjectKey(vault, q.blob) in w.objects
    && |w.objects[ObjectKey(vault, q.blob)]| == q.size && Sha256(w.objects[ObjectKey(vault, q.blob)]) == q.hash
  }

  lemma FilesOff(files: map<FileKey, Bytes>, sid: string, sessions: map<string, Session>)
    requires sid in sessions
    ensures forall k :: At(WithoutFiles(files, {sid}, sessions), k) ==
                        if k.session == sid && k.chunk in sessions[sid].chunkFiles then None else At(files, k)
  {
  }

  /** What accepting a claim leaves. */
  lemma AcceptedIs(v: Uploads, vault: string, q: Claim)
    requires CompleteOne(v, vault, q).1 == Ok(Accepted)
    ensures q.sid in v.sessions && q.blob !in v.blobs && ClaimError(v.sessions[q.sid], vault, q).None?
    ensures var s := v.sessions[q.sid];
            var b := Finished(s, q.sid, v.files);
            && b.Ok? && Missing(s, q.sid, v.files, s.chunks) == []
            && CompleteOne(v, vault, q).0 ==
                 Uploads(v.sessions - {q.sid}, v.blobs[s.blob := Blob(s.vault, |b.value|, s.contentHash, Sha256(b.value))],
                         WithoutFiles(v.files, {q.sid}, v.sessions), v.objects[ObjectKey(s.vault, s.blob) := b.value])
  {
    hide Finished, Missing, ClaimError, WithoutFiles;
  }

  lemma TakenWith(v: Uploads, vault: string, q: Claim, b: Bytes)
    requires q.sid in v.sessions && q.blob !in v.blobs && Belongs(v.sessions[q.sid], vault, q) && |b| == q.size && Sha256(b) == q.hash
    ensures Takes(v, Uploads(v.sessions - {q.sid}, v.blobs[q.blob := Blob(vault, |b|, v.sessions[q.sid].contentHash, Sha256(b))],
                             WithoutFiles(v.files, {q.sid}, v.sessions), v.objects[ObjectKey(vault, q.blob) := b]), vault, q)
  {
    FilesOff(v.files, q.sid, v.sessions);
    hide WithoutFiles, Belongs;
  }

  lemma AcceptedTakes(v: Uploads, vault: string, q: Claim)
    requires CompleteOne(v, vault, q).1 == Ok(Accepted)
    ensures Takes(v, CompleteOne(v, vault, q).0, vault, q)
    ensures forall c :: c in v.sessions[q.sid].chunks ==> !IsMissing(v.sessions[q.sid], q.sid, v.files, c)
  {
    hide CompleteOne, Finished, Missing, ClaimError, IsMissing, Belongs, WithoutFiles, Takes;
    AcceptedIs(v, vault, q);
    var s := v.sessions[q.sid];
    ClaimFits(s, vault, q);
    NamedBlob(s, vault, q);
    FinishedFits(s, q.sid, v.files);
    TakenWith(v, vault, q, Finished(s, q.sid, v.files).value);
    assert forall c :: c in s.chunks && IsMissing(s, q.sid, v.files, c) ==> c in Missing(s, q.sid, v.files, s.chunks);
  }

  /** One claim on a working state. */
  lemma OneClaim(v: Uploads, vault: string, q: Claim)
    requires CompleteOne(v, vault, q).1.Ok?
    ensures var (w, status) := (CompleteOne(v, vault, q).0, CompleteOne(v, vault, q).1.value);
            match status
            case AlreadyExists => w == v && q.blob in v.blobs && v.blobs[q.blob].size == q.size && v.blobs[q.blob].hash == q.hash
            case StillMissing(cs) =>
              && w == v && q.sid in v.sessions && q.blob !in v.blobs && Belongs(v.sessions[q.sid], vault, q) && cs != []
              && forall c :: c in cs <==> c in v.sessions[q.sid].chunks && IsMissing(v.sessions[q.sid], q.sid, v.files, c)
            case Accepted =>
              Takes(v, w, vault, q) && forall c :: c in v.sessions[q.sid].chunks ==> !IsMissing(v.sessions[q.sid], q.sid, v.files, c)
  {
    if CompleteOne(v, vault, q).1 == Ok(Accepted) {
      AcceptedTakes(v, vault, q);
    } else if q.sid in v.sessions {
      ClaimFits(v.sessions[q.sid], vault, q);
    }
    hide Finished, Missing, ClaimError, IsMissing, Belongs, Takes, WithoutFiles;
  }

  lemma NamedBlob(s: Session, vault: string, q: Claim)
    ensures Belongs(s, vault, q) ==> s.vault == vault && s.blob == q.blob && s.size == q.size && s.hash == q.hash
  {
  }

  lemma ClaimStays(u: Uploads, v: Uploads, vault: string, qs: seq<Claim>, now: int, statuses: seq<Status>, q: Claim, status: Status)
    requires Batch(u, v, vault, qs, now, statuses) && status != Accepted && StatusOk(u, v, vault, q, now, status)
    requires q.blob in u.blobs ==> status == AlreadyExists
    ensures Batch(u, v, vault, qs + [q], now, statuses + [status])
  {
    hide FilesFollow, StatusOk, AcceptedOn, AcceptedBlob, Live;
    forall sid
      ensures AcceptedOn(qs + [q], statuses + [status], sid) <==> AcceptedOn(qs, statuses, sid)
    {
      AcceptedMore(qs, statuses, q, status, sid, "");
    }
    forall blob
      ensures AcceptedBlob(qs + [q], statuses + [status], blob) <==> AcceptedBlob(qs, statuses, blob)
    {
      AcceptedMore(qs, statuses, q, status, "", blob);
    }
  }

  lemma StatusStays(u: Uploads, v: Uploads, w: Uploads, vault: string, p: Claim, now: int, status: Status, q: Claim)
    requires StatusOk(u, v, vault, p, now, status) && Takes(v, w, vault, q)
    ensures StatusOk(u, w, vault, p, now, status)
  {
    hide Live, Belongs, Here;
    if status == Accepted { assert At(w.objects, ObjectKey(vault, p.blob)) == At(v.objects, ObjectKey(vault, p.blob)); }
  }

  lemma TakenSessions(u: Uploads, v: Uploads, w: Uploads, vault: string, qs: seq<Claim>, now: int, statuses: seq<Status>, q: Claim, sid: string)
    requires |statuses| == |qs| && Takes(v, w, vault, q)
    requires At(v.sessions, sid) == if Live(u, sid, now) && !AcceptedOn(qs, statuses, sid) then Some(u.sessions[sid]) else None
    ensures At(w.sessions, sid) ==
              if Live(u, sid, now) && !AcceptedOn(qs + [q], statuses + [Accepted], sid) then Some(u.sessions[sid]) else None
  {
    AcceptedMore(qs, statuses, q, Accepted, sid, q.blob);
    assert At(w.sessions, sid) == if sid == q.sid then None else At(v.sessions, sid);
    hide AcceptedOn, AcceptedBlob, Live, Belongs;
  }

  lemma TakenBlobs(u: Uploads, v: Uploads, w: Uploads, vault: string, qs: seq<Claim>, statuses: seq<Status>, q: Claim, blob: string)
    requires |statuses| == |qs| && Takes(v, w, vault, q)
    requires blob in u.blobs ==> At(v.blobs, blob) == Some(u.blobs[blob])
    requires blob in v.blobs ==> blob in u.blobs || AcceptedBlob(qs, statuses, blob)
    ensures blob in u.blobs ==> At(w.blobs, blob) == Some(u.blobs[blob])
    ensures blob in w.blobs ==> blob in u.blobs || AcceptedBlob(qs + [q], statuses + [Accepted], blob)
  {
    AcceptedMore(qs, statuses, q, Accepted, "", blob);
    hide AcceptedOn, AcceptedBlob, Belongs;
  }

  lemma ClaimTaken(u: Uploads, v: Uploads, w: Uploads, vault: string, qs: seq<Claim>, now: int, statuses: seq<Status>, q: Claim)
    requires Batch(u, v, vault, qs, now, statuses) && Takes(v, w, vault, q) && StatusOk(u, w, vault, q, now, Accepted)
    ensures Batch(u, w, vault, qs + [q], now, statuses + [Accepted])
  {
    TakenFiles(u, v, w, vault, qs, now, statuses, q);
    assert q.blob !in u.blobs by {
      hide FilesFollow, StatusOk, AcceptedOn, AcceptedBlob, Live, Belongs;
      assert At(v.blobs, q.blob) == None;
    }
    forall i | 0 <= i < |qs| { StatusStays(u, v, w, vault, qs[i], now, statuses[i], q); }
    forall sid { TakenSessions(u, v, w, vault, qs, now, statuses, q, sid); }
    forall blob { TakenBlobs(u, v, w, vault, qs, statuses, q, blob); }
    hide FilesFollow, StatusOk, AcceptedOn, AcceptedBlob, Live, Takes;
  }

  lemma TakenFiles(u: Uploads, v: Uploads, w: Uploads, vault: string, qs: seq<Claim>, now: int, statuses: seq<Status>, q: Claim)
    requires Batch(u, v, vault, qs, now, statuses) && Takes(v, w, vault, q)
    ensures FilesFollow(u, w)
  {
    assert At(v.sessions, q.sid) == Some(u.sessions[q.sid]) by { assert At(v.sessions, q.sid) == Some(v.sessions[q.sid]); }
    forall k
      ensures At(w.files, k) == if DroppedWith(u, w, k) then None else At(u.files, k)
    {
      assert At(v.files, k) == if DroppedWith(u, v, k) then None else At(u.files, k);
    }
    hide StatusOk, AcceptedOn, AcceptedBlob, Belongs;
  }

  lemma NextClaim(u: Uploads, v: Uploads, vault: string, qs: seq<Claim>, now: int, statuses: seq<Status>, q: Claim)
    requires Batch(u, v, vault, qs, now, statuses) && CompleteOne(v, vault, q).1.Ok?
    ensures Batch(u, CompleteOne(v, vault, q).0, vault, qs + [q], now, statuses + [CompleteOne(v, vault, q).1.value])
  {
    var (w, status) := (CompleteOne(v, vault, q).0, CompleteOne(v, vault, q).1.value);
    OneClaim(v, vault, q);
    if q.sid in v.sessions { SameSession(u, v, vault, qs, now, statuses, q); }
    assert q.blob in u.blobs ==> q.blob in v.blobs by { hide CompleteOne, FilesFollow, StatusOk, Takes; }
    hide CompleteOne, Batch, IsMissing, Live, Belongs;
    if status == Accepted {
      ClaimTaken(u, v, w, vault, qs, now, statuses, q);
    } else {
      ClaimStays(u, v, vault, qs, now, statuses, q, status);
    }
  }

  lemma {:induction false} AllClaims(u: Uploads, vault: string, qs: seq<Claim>, now: int)
    requires CompleteAll(Purge(u, now), vault, qs).1.Ok?
    ensures var (w, done) := CompleteAll(Purge(u, now), vault, qs);
            Batch(u, w, vault, qs, now, done.value)
    decreases |qs|
  {
    hide Purge, CompleteOne, Batch;
    if qs == [] {
      PurgeStarts(u, vault, now);
    } else {
      var init, q := qs[..|qs| - 1], qs[|qs| - 1];
      AllClaims(u, vault, init, now);
      var (v, done) := CompleteAll(Purge(u, now), vault, init);
      NextClaim(u, v, vault, init, now, done.value, q);
      assert init + [q] == qs;
    }
  }

  /** Main result: a completion call that goes through keeps exactly the sessions that have not run out and were not accepted, with
      their files, and each status says what was found: the blob is recorded already, or exactly these chunks are not here, or all
      were and the blob is recorded and stored as declared. A call that fails keeps every session and every blob record. */
  lemma CompletionIs(u: Uploads, vault: string, qs: seq<Claim>, now: int)
    ensures var (w, done) := Complete(u, vault, qs, now);
            if done.Ok? then Batch(u, w, vault, qs, now, done.value) else w.sessions == u.sessions && w.blobs == u.blobs
  {
    if !BadBatch(vault, qs) && CompleteAll(Purge(u, now), vault, qs).1.Ok? { AllClaims(u, vault, qs, now); }
    hide CompleteAll, Purge, BadBatch, Batch;
  }

  // Joining the chunks.

  /** What a chunk contributes to the blob: the bytes of its file, of the chunk's size; an empty chunk needs no file. */
  predicate Holds(s: Session, sid: string, files: map<FileKey, Bytes>, c: Chunk, b: Bytes) {
    if c.size == 0 then b == []
    else c.id in s.chunkFiles && At(files, FileKey(sid, c.id)) == Some(b) && |b| == c.size
  }

  /** From `lo` to `hi` `data` is what the chunk contributes. */
  predicate HoldsAt(s: Session, sid: string, files: map<FileKey, Bytes>, c: Chunk, data: Bytes, lo: nat, hi: nat) {
    lo <= hi <= |data| && Holds(s, sid, files, c, data[lo..hi])
  }

  /** `data` cut at the places `cuts` is what the chunks contribute, one after the other. */
  predicate CutInto(s: Session, sid: string, files: map<FileKey, Bytes>, cs: seq<Chunk>, data: Bytes, cuts: seq<nat>) {
    && |cuts| == |cs| + 1 && cuts[0] == 0 && cuts[|cs|] == |data|
    && forall i :: 0 <= i < |cs| ==> HoldsAt(s, sid, files, cs[i], data, cuts[i], cuts[i + 1])
  }

  lemma {:induction false} CutsRise(s: Session, sid: string, files: map<FileKey, Bytes>, cs: seq<Chunk>, data: Bytes, cuts: seq<nat>, i: nat, j: nat)
    requires CutInto(s, sid, files, cs, data, cuts) && i <= j <= |cs|
    ensures cuts[i] <= cuts[j]
    decreases j
  {
    hide Holds;
    if i < j {
      assert HoldsAt(s, sid, files, cs[j - 1], data, cuts[j - 1], cuts[j - 1 + 1]);
      CutsRise(s, sid, files, cs, data, cuts, i, j - 1);
    }
  }

  lemma HoldsSame(s: Session, sid: string, files: map<FileKey, Bytes>, c: Chunk, data: Bytes, more: Bytes, lo: nat, hi: nat)
    requires hi <= |data| <= |more| && more[..|data|] == data
    ensures HoldsAt(s, sid, files, c, data, lo, hi) <==> HoldsAt(s, sid, files, c, more, lo, hi)
  {
    hide Holds;
    if lo <= hi { assert data[lo..hi] == more[lo..hi]; }
  }

  lemma CutMore(s: Session, sid: string, files: map<FileKey, Bytes>, cs: seq<Chunk>, c: Chunk, data: Bytes, extra: Bytes, cuts: seq<nat>)
    requires CutInto(s, sid, files, cs, data, cuts) && Holds(s, sid, files, c, extra)
    ensures CutInto(s, sid, files, cs + [c], data + extra, cuts + [|data + extra|])
  {
    var all := cs + [c];
    var ends := cuts + [|data + extra|];
    var whole := data + extra;
    assert HoldsAt(s, sid, files, c, whole, |data|, |whole|) by { assert whole[|data|..|whole|] == extra; }
    hide Holds, HoldsAt;
    forall i | 0 <= i < |all|
      ensures HoldsAt(s, sid, files, all[i], whole, ends[i], ends[i + 1])
    {
      if i < |cs| {
        CutsRise(s, sid, files, cs, data, cuts, i + 1, |cs|);
        HoldsSame(s, sid, files, cs[i], data, whole, cuts[i], cuts[i + 1]);
      }
    }
  }

  lemma CutLess(s: Session, sid: string, files: map<FileKey, Bytes>, cs: seq<Chunk>, data: Bytes, cuts: seq<nat>)
    requires CutInto(s, sid, files, cs, data, cuts) && cs != []
    ensures var n := |cs| - 1;
            && cuts[n] <= |data| && CutInto(s, sid, files, cs[..n], data[..cuts[n]], cuts[..n + 1])
            && Holds(s, sid, files, cs[n], data[cuts[n]..])
  {
    var n := |cs| - 1;
    assert HoldsAt(s, sid, files, cs[n], data, cuts[n], cuts[n + 1]) && data[cuts[n]..cuts[n + 1]] == data[cuts[n]..];
    hide Holds, HoldsAt;
    var b := data[..cuts[n]];
    forall i | 0 <= i < n
      ensures HoldsAt(s, sid, files, cs[..n][i], b, cuts[..n + 1][i], cuts[..n + 1][i + 1])
    {
      CutsRise(s, sid, files, cs, data, cuts, i + 1, n);
      HoldsSame(s, sid, files, cs[i], b, data, cuts[i], cuts[i + 1]);
    }
  }

  lemma AssembleMore(s: Session, sid: string, files: map<FileKey, Bytes>, cs: seq<Chunk>, data: Bytes)
    requires cs != []
    ensures Assemble(s, sid, files, cs) == Ok(data) <==>
              exists b, e :: Assemble(s, sid, files, cs[..|cs| - 1]) == Ok(b) && Holds(s, sid, files, cs[|cs| - 1], e) && data == b + e
  {
    var r := Assemble(s, sid, files, cs[..|cs| - 1]);
    var c := cs[|cs| - 1];
    if Assemble(s, sid, files, cs) == Ok(data) {
      var e: Bytes := if c.size == 0 then [] else files[FileKey(sid, c.id)];
      assert data == r.value + e && Holds(s, sid, files, c, e);
    }
    if b, e :| r == Ok(b) && Holds(s, sid, files, c, e) && data == b + e {
      assert c.size == 0 ==> b + e == b;
    }
  }

  lemma {:induction false} AssembledCuts(s: Session, sid: string, files: map<FileKey, Bytes>, cs: seq<Chunk>, data: Bytes) returns (cuts: seq<nat>)
    requires Assemble(s, sid, files, cs) == Ok(data)
    ensures CutInto(s, sid, files, cs, data, cuts)
    decreases |cs|
  {
    if cs == [] {
      cuts := [0];
    } else {
      hide Assemble, Holds, CutInto;
      AssembleMore(s, sid, files, cs, data);
      var (init, c) := (cs[..|cs| - 1], cs[|cs| - 1]);
      var b, e :| Assemble(s, sid, files, init) == Ok(b) && Holds(s, sid, files, c, e) && data == b + e;
      cuts := AssembledCuts(s, sid, files, init, b);
      CutMore(s, sid, files, init, c, b, e, cuts);
      assert init + [c] == cs;
      cuts := cuts + [|data|];
    }
  }

  lemma {:induction false} CutsAssemble(s: Session, sid: string, files: map<FileKey, Bytes>, cs: seq<Chunk>, data: Bytes, cuts: seq<nat>)
    requires CutInto(s, sid, files, cs, data, cuts)
    ensures Assemble(s, sid, files, cs) == Ok(data)
    decreases |cs|
  {
    if cs != [] {
      hide Assemble, Holds;
      var n := |cs| - 1;
      CutLess(s, sid, files, cs, data, cuts);
      CutsAssemble(s, sid, files, cs[..n], data[..cuts[n]], cuts[..n + 1]);
      AssembleMore(s, sid, files, cs, data);
      assert data == data[..cuts[n]] + data[cuts[n]..];
    }
  }

  /** Main result: a finished upload yields the contributions of all its chunks in the order of their offsets, if every non-empty chunk
      has a file of its size and the whole has the declared size and hash, and nothing else. */
  lemma JoiningIs(s: Session, sid: string, files: map<FileKey, Bytes>, data: Bytes) returns (cs: seq<Chunk>)
    ensures multiset(cs) == multiset(s.chunks) && forall i, j :: 0 <= i < j < |cs| ==> cs[i].offset <= cs[j].offset
    ensures Finished(s, sid, files) == Ok(data) <==>
              (exists cuts :: CutInto(s, sid, files, cs, data, cuts)) && |data| == s.size && Sha256(data) == s.hash
  {
    cs := Sort(s.chunks, OffsetLeq);
    SortSorts(s.chunks, OffsetLeq);
    hide Sort, CutInto;
    if Finished(s, sid, files) == Ok(data) { var cuts := AssembledCuts(s, sid, files, cs, data); }
    if cuts :| CutInto(s, sid, files, cs, data, cuts) { CutsAssemble(s, sid, files, cs, data, cuts); }
  }

  /** The files of the chunks do not make up the blob: one has another size than its chunk, or together they have another size or hash. */
  ghost predicate Unfit(s: Session, sid: string, files: map<FileKey, Bytes>, e: Error) {
    match e
    case ChunkSizeMismatch => exists c :: c in s.chunks && c.size > 0 && FileKey(sid, c.id) in files && |files[FileKey(sid, c.id)]| != c.size
    case BlobSizeMismatch => exists cs, data, cuts :: multiset(cs) == multiset(s.chunks) && CutInto(s, sid, files, cs, data, cuts) && |data| != s.size
    case BlobHashMismatch =>
      exists cs, data, cuts :: multiset(cs) == multiset(s.chunks) && CutInto(s, sid, files, cs, data, cuts) && |data| == s.size && Sha256(data) != s.hash
    case _ => false
  }

  /** Why a claim fails, first reason first. */
  ghost predicate Fault(u: Uploads, vault: string, q: Claim, e: Error) {
    if q.blob in u.blobs then e == MetadataMismatch && (u.blobs[q.blob].size != q.size || u.blobs[q.blob].hash != q.hash)
    else if q.sid !in u.sessions then e == SessionNotFound
    else
      var s := u.sessions[q.sid];
      if s.vault != vault || s.blob != q.blob || s.size != q.size || s.hash != q.hash then e == SessionMismatch
      else if exists id :: id in q.uploaded && forall c :: c in s.chunks ==> c.id != id then e == InvalidRequest
      else (forall c :: c in s.chunks ==> Here(u, q.sid, c)) && Unfit(s, q.sid, u.files, e)
  }

  lemma {:induction false} AssembleFails(s: Session, sid: string, files: map<FileKey, Bytes>, cs: seq<Chunk>) returns (c: Chunk)
    requires Assemble(s, sid, files, cs).Err?
    ensures c in cs && c.size > 0
    ensures Assemble(s, sid, files, cs) == Err(Incomplete) ==> c.id !in s.chunkFiles || FileKey(sid, c.id) !in files
    ensures Assemble(s, sid, files, cs) != Err(Incomplete) ==>
              Assemble(s, sid, files, cs) == Err(ChunkSizeMismatch) && FileKey(sid, c.id) in files && |files[FileKey(sid, c.id)]| != c.size
    decreases |cs|
  {
    if Assemble(s, sid, files, cs[..|cs| - 1]).Err? {
      c := AssembleFails(s, sid, files, cs[..|cs| - 1]);
    } else {
      c := cs[|cs| - 1];
    }
  }

  lemma FinishFails(s: Session, sid: string, files: map<FileKey, Bytes>, e: Error)
    requires Finished(s, sid, files) == Err(e)
    requires forall c :: c in s.chunks && c.size > 0 ==> c.id in s.chunkFiles && FileKey(sid, c.id) in files
    ensures Unfit(s, sid, files, e)
  {
    var cs := Sort(s.chunks, OffsetLeq);
    SameElements(cs, s.chunks);
    hide Sort, CutInto, Assemble;
    var r := Assemble(s, sid, files, cs);
    if r.Err? {
      var c := AssembleFails(s, sid, files, cs);
    } else {
      var cuts := AssembledCuts(s, sid, files, cs, r.value);
    }
  }

  lemma ClaimErrorIs(s: Session, vault: string, q: Claim)
    ensures ClaimError(s, vault, q) ==
              if s.vault != vault || s.blob != q.blob || s.size != q.size || s.hash != q.hash then Some(SessionMismatch)
              else if exists id :: id in q.uploaded && forall c :: c in s.chunks ==> c.id != id then Some(InvalidRequest)
              else None
  {
    forall id { ChunkKnown(s.chunks, id); }
    hide ChunkById;
  }

  lemma NoneMissing(u: Uploads, sid: string)
    requires sid in u.sessions && Missing(u.sessions[sid], sid, u.files, u.sessions[sid].chunks) == []
    ensures forall c :: c in u.sessions[sid].chunks ==> Here(u, sid, c)
  {
    var s := u.sessions[sid];
    assert forall c :: c in s.chunks && IsMissing(s, sid, u.files, c) ==> c in Missing(s, sid, u.files, s.chunks);
  }

  lemma OneFault(u: Uploads, vault: string, q: Claim, e: Error)
    requires CompleteOne(u, vault, q).1 == Err(e)
    ensures Fault(u, vault, q, e)
  {
    hide Finished, Missing, Unfit, Here, ClaimError, WithoutFiles;
    if q.sid in u.sessions {
      var s := u.sessions[q.sid];
      ClaimErrorIs(s, vault, q);
      if Missing(s, q.sid, u.files, s.chunks) == [] {
        NoneMissing(u, q.sid);
        HereFiles(u, q.sid);
        if Finished(s, q.sid, u.files) == Err(e) { FinishFails(s, q.sid, u.files, e); }
      }
    }
  }

  lemma HereFiles(u: Uploads, sid: string)
    requires sid in u.sessions && forall c :: c in u.sessions[sid].chunks ==> Here(u, sid, c)
    ensures forall c :: c in u.sessions[sid].chunks && c.size > 0 ==> c.id in u.sessions[sid].chunkFiles && FileKey(sid, c.id) in u.files
  {
  }

  /** The call names a vault and at least one upload, no session twice, and for each a blob and chunks, none twice. */
  ghost predicate WellPut(vault: string, qs: seq<Claim>) {
    && vault != "" && qs != [] && DistinctSids(qs)
    && forall q :: q in qs ==> q.sid != "" && q.blob != "" && q.uploaded != [] && NoDup(q.uploaded)
  }

  lemma WellPutIs(vault: string, qs: seq<Claim>)
    ensures WellPut(vault, qs) <==> !BadBatch(vault, qs)
  {
  }

  lemma {:induction false} FirstFault(u: Uploads, vault: string, qs: seq<Claim>, now: int)
      returns (i: nat, v: Uploads, statuses: seq<Status>)
    requires CompleteAll(Purge(u, now), vault, qs).1.Err?
    ensures i < |qs| && Batch(u, v, vault, qs[..i], now, statuses) && Fault(v, vault, qs[i], CompleteAll(Purge(u, now), vault, qs).1.error)
    decreases |qs|
  {
    hide Purge, CompleteOne, Batch, Fault;
    var init, q := qs[..|qs| - 1], qs[|qs| - 1];
    var (w, done) := CompleteAll(Purge(u, now), vault, init);
    if done.Err? {
      i, v, statuses := FirstFault(u, vault, init, now);
      assert init[..i] == qs[..i];
    } else {
      AllClaims(u, vault, init, now);
      i, v, statuses := |init|, w, done.value;
      assert qs[..i] == init;
      OneFault(w, vault, q, CompleteAll(Purge(u, now), vault, qs).1.error);
    }
  }

  /** Main result: a call is refused when it is not well put, and else fails with the fault of the first claim that has one, in the
      state `v` the claims before it would have left. */
  lemma CompletionFails(u: Uploads, vault: string, qs: seq<Claim>, now: int) returns (i: nat, v: Uploads, statuses: seq<Status>)
    ensures !WellPut(vault, qs) ==> Complete(u, vault, qs, now) == (u, Err(InvalidRequest))
    ensures WellPut(vault, qs) && Complete(u, vault, qs, now).1.Err? ==>
              i < |qs| && Batch(u, v, vault, qs[..i], now, statuses) && Fault(v, vault, qs[i], Complete(u, vault, qs, now).1.error)
  {
    WellPutIs(vault, qs);
    hide CompleteAll, Purge, BadBatch, Batch, Fault, WellPut;
    i, v, statuses := 0, u, [];
    if WellPut(vault, qs) && Complete(u, vault, qs, now).1.Err? { i, v, statuses := FirstFault(u, vault, qs, now); }
  }

  /** Main result: a call never loses a live upload: a session that has not run out and that no claim of the call is about is as
      before, with its chunk files. */
  lemma OthersStay(u: Uploads, vault: string, qs: seq<Claim>, now: int, sid: string)
    requires Live(u, sid, now) && forall q :: q in qs ==> q.sid != sid
    ensures var w := Complete(u, vault, qs, now).0;
            At(w.sessions, sid) == Some(u.sessions[sid]) && forall id :: At(w.files, FileKey(sid, id)) == At(u.files, FileKey(sid, id))
  {
    var p := Purge(u, now);
    assert At(p.sessions, sid) == Some(u.sessions[sid]) && forall id :: At(p.files, FileKey(sid, id)) == At(u.files, FileKey(sid, id));
    AllApart(p, vault, qs, sid);
    hide CompleteAll, Purge, BadBatch;
  }

  lemma {:induction false} AllApart(u: Uploads, vault: string, qs: seq<Claim>, sid: string)
    requires sid in u.sessions && forall q :: q in qs ==> q.sid != sid
    ensures var w := CompleteAll(u, vault, qs).0;
            At(w.sessions, sid) == Some(u.sessions[sid]) && forall id :: At(w.files, FileKey(sid, id)) == At(u.files, FileKey(sid, id))
    decreases |qs|
  {
    if qs != [] {
      var init, q := qs[..|qs| - 1], qs[|qs| - 1];
      assert q in qs;
      var v := CompleteAll(u, vault, init).0;
      AllApart(u, vault, init, sid);
      assert sid in v.sessions && v.sessions[sid] == u.sessions[sid] by { assert At(v.sessions, sid) == Some(u.sessions[sid]); }
      OneApart(v, vault, q, sid);
      hide CompleteOne;
    }
  }

  lemma OneApart(u: Uploads, vault: string, q: Claim, sid: string)
    requires sid in u.sessions && q.sid != sid
    ensures var w := CompleteOne(u, vault, q).0;
            At(w.sessions, sid) == Some(u.sessions[sid]) && forall id :: At(w.files, FileKey(sid, id)) == At(u.files, FileKey(sid, id))
  {
    hide Finished, Missing, ClaimError;
  }

  // Putting chunks.

  /** The first chunk with the id lies at this place of the blob. */
  ghost predicate ChunkLies(s: Session, id: ChunkId, offset: int, size: int) {
    exists k :: 0 <= k < |s.chunks| && IdAt(s.chunks, k, id) && s.chunks[k].offset == offset && s.chunks[k].size == size
  }

  ghost predicate IdAt(cs: seq<Chunk>, k: nat, id: ChunkId)
    requires k < |cs|
  {
    cs[k].id == id && forall j :: 0 <= j < k ==> cs[j].id != id
  }

  lemma {:induction false} FirstChunk(cs: seq<Chunk>, id: ChunkId, c: Chunk)
    ensures ChunkById(cs, id) == Some(c) <==> exists k :: 0 <= k < |cs| && IdAt(cs, k, id) && cs[k] == c
  {
    if cs != [] {
      var rest := cs[1..];
      FirstChunk(rest, id, c);
      if cs[0].id == id {
        assert IdAt(cs, 0, id);
      } else {
        if k :| 0 <= k < |rest| && IdAt(rest, k, id) && rest[k] == c { assert IdAt(cs, k + 1, id); }
        if k :| 0 <= k < |cs| && IdAt(cs, k, id) && cs[k] == c {
          assert forall j :: 0 <= j < k - 1 ==> rest[j] == cs[j + 1];
          assert IdAt(rest, k - 1, id) && rest[k - 1] == c;
        }
      }
    }
  }

  /** Main result: a chunk is taken exactly when its session has not run out and the bytes sent are as many as the chunk at that place
      of the blob has; then its file holds them and it is noted, and nothing else changes. */
  lemma PuttingIs(u: Uploads, sid: string, id: ChunkId, offset: int, size: int, payload: Bytes, now: int)
    ensures var w := Put(u, sid, id, offset, size, payload, now);
            var taken := sid != "" && Live(u, sid, now) && |payload| == size && ChunkLies(u.sessions[sid], id, offset, size);
            && (PutError(u, sid, id, offset, size, payload, now).None? <==> taken)
            && (!taken ==> w == u)
            && (taken ==>
                  && w.blobs == u.blobs && w.objects == u.objects && w.files == u.files[FileKey(sid, id) := payload]
                  && w.sessions.Keys == u.sessions.Keys && (forall t :: t in u.sessions && t != sid ==> w.sessions[t] == u.sessions[t])
                  && w.sessions[sid] == u.sessions[sid].(uploaded := w.sessions[sid].uploaded, chunkFiles := u.sessions[sid].chunkFiles + {id})
                  && (forall i :: i in w.sessions[sid].uploaded <==> i in u.sessions[sid].uploaded || i == id))
  {
    if sid in u.sessions {
      forall c { FirstChunk(u.sessions[sid].chunks, id, c); }
      ChunkIff(u.sessions[sid], id, offset, size);
    }
    hide ChunkById, ChunkLies;
  }

  lemma ChunkIff(s: Session, id: ChunkId, offset: int, size: int)
    ensures ChunkLies(s, id, offset, size) <==>
              ChunkById(s.chunks, id).Some? && ChunkById(s.chunks, id).value.offset == offset && ChunkById(s.chunks, id).value.size == size
  {
    forall c { FirstChunk(s.chunks, id, c); }
    hide ChunkById, IdAt;
    if k :| 0 <= k < |s.chunks| && IdAt(s.chunks, k, id) && s.chunks[k].offset == offset && s.chunks[k].size == size {
      assert ChunkById(s.chunks, id) == Some(s.chunks[k]);
    }
    if ChunkById(s.chunks, id).Some? && ChunkById(s.chunks, id).value.offset == offset && ChunkById(s.chunks, id).value.size == size {
      var k :| 0 <= k < |s.chunks| && IdAt(s.chunks, k, id) && s.chunks[k] == ChunkById(s.chunks, id).value;
    }
  }

  // Opening.

  /** A blob is cut for every size but a negative one and every positive chunk size; an empty blob has one empty chunk. */
  lemma CuttingIs(blob: string, size: int, chunkSize: int)
    ensures ExpectedChunks(blob, size, chunkSize) == Err(InvalidRequest) <==> size < 0 || chunkSize <= 0
    ensures ExpectedChunks(blob, size, chunkSize).Ok? && size == 0 ==>
              ExpectedChunks(blob, size, chunkSize).value == [Chunk(ChunkId(blob, 0, 0), 0, 0)]
    ensures ExpectedChunks(blob, size, chunkSize).Ok? && size > 0 ==>
              Tiling(ExpectedChunks(blob, size, chunkSize).value, 0, size) && Sized(ExpectedChunks(blob, size, chunkSize).value, blob, chunkSize)
  {
    if size >= 0 && chunkSize > 0 { TilesTile(blob, size, chunkSize, 0); }
    hide Tiles, Tiling, Sized;
  }

  /** An upload of the same blob for the same device, cut the same way, that has not run out. */
  predicate Resumable(u: Uploads, sid: string, q: Opening, now: int) {
    && Live(u, sid, now)
    && var s := u.sessions[sid];
       && s.vault == q.vault && s.blob == q.blob && s.size == q.size && s.contentHash == q.contentHash && s.hash == q.hash
       && s.chunkSize == q.chunkSize && s.device == q.device
  }

  /** The blob is recorded with another size or hash. */
  predicate RecordedOtherwise(u: Uploads, q: Opening) {
    q.blob in u.blobs && !(u.blobs[q.blob].size == q.size && u.blobs[q.blob].contentHash == q.contentHash && u.blobs[q.blob].hash == q.hash)
  }

  /** A session just started: all chunks still to come, unless the blob is recorded already; it runs for a quarter of an hour. */
  ghost predicate Started(u: Uploads, s: Session, q: Opening, now: int) {
    && s.vault == q.vault && s.blob == q.blob && s.size == q.size && s.contentHash == q.contentHash && s.hash == q.hash
    && s.chunkSize == q.chunkSize && s.device == q.device && s.chunkFiles == {} && s.expires == now + 900_000
    && SessionOk(s) && (q.blob !in u.blobs ==> s.uploaded == [])
    && (q.blob in u.blobs ==> |s.uploaded| == |s.chunks| && forall i :: 0 <= i < |s.chunks| ==> s.uploaded[i] == s.chunks[i].id)
  }

  lemma PurgeFields(u: Uploads, now: int)
    ensures var p := Purge(u, now);
            && p.blobs == u.blobs && p.objects == u.objects
            && (forall t :: At(p.sessions, t) == if Live(u, t, now) then Some(u.sessions[t]) else None)
            && (forall k :: At(p.files, k) ==
                  if k.session in u.sessions && !Live(u, k.session, now) && k.chunk in u.sessions[k.session].chunkFiles
                  then None else At(u.files, k))
  {
  }

  lemma ResumableIs(u: Uploads, q: Opening, now: int)
    ensures var p := Purge(u, now);
            (exists t :: t in p.sessions && SameUpload(p.sessions[t], q, now)) <==> exists t :: Resumable(u, t, q, now)
  {
    var p := Purge(u, now);
    PurgeFields(u, now);
    hide Purge;
    forall t
      ensures t in p.sessions && SameUpload(p.sessions[t], q, now) <==> Resumable(u, t, q, now)
    {
      assert At(p.sessions, t) == if Live(u, t, now) then Some(u.sessions[t]) else None;
    }
  }

  /** Main result: a good opening drops the sessions that have run out, resumes one that fits if there is one, and starts one under the
      new id if there is none; an opening for a blob recorded otherwise only drops the files of sessions that have run out. */
  lemma OpeningIs(u: Uploads, q: Opening, sid: string, now: int)
    requires sid !in u.sessions
    ensures var w := Open(u, q, sid, now);
            && w.blobs == u.blobs && w.objects == u.objects
            && (BadOpening(q) ==> w == u)
            && (!BadOpening(q) ==>
                  && (forall k :: At(w.files, k) ==
                        if k.session in u.sessions && !Live(u, k.session, now) && k.chunk in u.sessions[k.session].chunkFiles
                        then None else At(u.files, k))
                  && if RecordedOtherwise(u, q) then w.sessions == u.sessions
                     else && (forall t :: t != sid ==> At(w.sessions, t) == if Live(u, t, now) then Some(u.sessions[t]) else None)
                          && (sid in w.sessions <==> !exists t :: Resumable(u, t, q, now))
                          && (sid in w.sessions ==> Started(u, w.sessions[sid], q, now)))
  {
    hide Purge, NewSession, SessionOk, BadOpening, Started, Resumable, SameUpload;
    PurgeFields(u, now);
    assert At(Purge(u, now).sessions, sid) == None;
    ResumableIs(u, q, now);
    if !BadOpening(q) { NewStarts(u, q, now); }
  }

  lemma NewStarts(u: Uploads, q: Opening, now: int)
    requires !BadOpening(q)
    ensures Started(u, NewSession(q, q.blob in u.blobs, now), q, now)
  {
    hide Tiles;
  }

  /** An opening is refused when a name is empty, a size is negative or not positive where it must be, or the listed chunks are not
      those the blob is cut into. */
  lemma OpeningRefused(q: Opening)
    ensures BadOpening(q) <==>
              || q.vault == "" || q.blob == "" || q.contentHash == "" || q.size < 0 || q.chunkSize <= 0
              || exists cs :: q.chunks == Some(cs) && ExpectedChunks(q.blob, q.size, q.chunkSize) != Ok(cs)
  {
    hide ExpectedChunks;
  }

  // One upload from its first chunk to its completion call.

  /** A call that completes one upload is well formed. */
  predicate GoodClaim(vault: string, q: Claim) {
    vault != "" && q.sid != "" && q.blob != "" && q.uploaded != [] && forall i, j :: 0 <= i < j < |q.uploaded| ==> q.uploaded[i] != q.uploaded[j]
  }

  lemma SingleCall(u: Uploads, vault: string, q: Claim, now: int)
    requires GoodClaim(vault, q)
    ensures var (w, status) := CompleteOne(Purge(u, now), vault, q);
            Complete(u, vault, [q], now) ==
              if status.Ok? then (w, Ok([status.value])) else (w.(sessions := u.sessions, blobs := u.blobs), Err(status.error))
  {
    hide CompleteOne, Purge;
    assert [q][..0] == [] && [q][0] == q;
    assert CompleteAll(Purge(u, now), vault, []) == (Purge(u, now), Ok([]));
    var status := CompleteOne(Purge(u, now), vault, q).1;
    assert status.Ok? ==> [] + [status.value] == [status.value];
    assert CompleteAll(Purge(u, now), vault, [q]).1 == if status.Ok? then Ok([status.value]) else Err(status.error);
    assert !BadBatch(vault, [q]);
  }

  /** After the purge the live session misses the same chunks, and its chunk files are still the blob's bytes. */
  lemma PurgedSession(v: Uploads, sid: string, data: Bytes, now: int)
    requires Sound(v) && Intact(v, sid, data) && Live(v, sid, now)
    ensures var p := Purge(v, now);
            && Sound(p) && Intact(p, sid, data) && p.blobs == v.blobs && sid in p.sessions && p.sessions[sid] == v.sessions[sid]
            && forall c :: IsMissing(p.sessions[sid], sid, p.files, c) <==> IsMissing(v.sessions[sid], sid, v.files, c)
  {
    PurgeSound(v, now);
    hide Sound;
    assert forall id :: At(Purge(v, now).files, FileKey(sid, id)) == At(v.files, FileKey(sid, id));
  }

  /** Main result: chunks of the blob sent in any order, any number of times, interleaved with any other uploads: a completion call
      made before the session runs out either names exactly the chunks that have not arrived, or stores the original blob. A call
      made later is told that there is no such session and changes no record. */
  lemma UploadEnds(u: Uploads, qs: seq<Request>, vault: string, q: Claim, data: Bytes, now: int)
    requires Sound(u) && q.sid in u.sessions && u.sessions[q.sid].uploaded == [] && u.sessions[q.sid].chunkFiles == {}
    requires q.blob !in u.blobs && Belongs(u.sessions[q.sid], vault, q) && GoodClaim(vault, q)
    requires u.sessions[q.sid].size == |data| && u.sessions[q.sid].hash == Sha256(data)
    requires forall r :: r in qs ==> r.PutReq? && Honest(r, q.sid, data)
    ensures var v := Serving(u, qs);
            var (w, done) := Complete(v, vault, [q], now);
            if u.sessions[q.sid].expires < now
            then done == Err(SessionNotFound) && w.sessions == v.sessions && w.blobs == v.blobs
            else if forall c :: c in u.sessions[q.sid].chunks ==> Arrived(u, qs, q.sid, c.id)
            then done == Ok([Accepted]) && At(w.objects, ObjectKey(vault, q.blob)) == Some(data) && q.blob in w.blobs
            else done.Ok? && |done.value| == 1 && done.value[0].StillMissing?
                 && forall c :: c in done.value[0].chunks <==> c in u.sessions[q.sid].chunks && !Arrived(u, qs, q.sid, c.id)
  {
    var sid := q.sid;
    var v := Serving(u, qs);
    assert Intact(u, sid, data);
    RunSound(u, qs);
    RunIntact(u, qs, sid, data);
    MissingIsWhatHasNotArrived(u, qs, sid, Chunk(ChunkId("", 0, 0), 0, 0));
    ClaimFits(v.sessions[sid], vault, q);
    ClaimFits(u.sessions[sid], vault, q);
    SameClaim(u.sessions[sid], v.sessions[sid], vault, q);
    SingleCall(v, vault, q, now);
    hide Sound, Intact, Honest, Serving, Arrived, ClaimError, Complete, Belongs, GoodClaim;
    if Live(v, sid, now) {
      LiveEnds(u, qs, vault, q, data, now);
    } else {
      hide Finished, Missing, WithoutFiles;
    }
  }

  lemma LiveEnds(u: Uploads, qs: seq<Request>, vault: string, q: Claim, data: Bytes, now: int)
    requires q.sid in u.sessions && u.sessions[q.sid].uploaded == [] && Live(Serving(u, qs), q.sid, now)
    requires forall r :: r in qs ==> r.PutReq?
    requires Sound(Serving(u, qs)) && Intact(Serving(u, qs), q.sid, data) && q.blob !in Serving(u, qs).blobs
    requires u.sessions[q.sid].size == |data| && u.sessions[q.sid].hash == Sha256(data)
    requires SameUploadAs(u.sessions[q.sid], Serving(u, qs).sessions[q.sid]) && ClaimError(Serving(u, qs).sessions[q.sid], vault, q).None?
    ensures var (w, status) := CompleteOne(Purge(Serving(u, qs), now), vault, q);
            if forall c :: c in u.sessions[q.sid].chunks ==> Arrived(u, qs, q.sid, c.id)
            then status == Ok(Accepted) && At(w.objects, ObjectKey(vault, q.blob)) == Some(data) && q.blob in w.blobs
            else status.Ok? && status.value.StillMissing?
                 && forall c :: c in status.value.chunks <==> c in u.sessions[q.sid].chunks && !Arrived(u, qs, q.sid, c.id)
  {
    var (sid, v) := (q.sid, Serving(u, qs));
    PurgedSession(v, sid, data, now);
    var p := Purge(v, now);
    CompleteUploadIsTheBlob(p, vault, q, data);
    forall c
      ensures IsMissing(p.sessions[sid], sid, p.files, c) <==> !Arrived(u, qs, sid, c.id)
    {
      MissingIsWhatHasNotArrived(u, qs, sid, c);
    }
    var missing := Missing(p.sessions[sid], sid, p.files, p.sessions[sid].chunks);
    assert forall c :: c in missing <==> c in u.sessions[sid].chunks && !Arrived(u, qs, sid, c.id);
    assert missing != [] ==> missing[0] in missing;
    if CompleteOne(p, vault, q).1 == Ok(Accepted) { AcceptedTakes(p, vault, q); }
    hide Sound, Intact, Serving, Arrived, ClaimError, CompleteOne, IsMissing, Missing, Purge;
  }
}