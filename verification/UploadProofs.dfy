/** What any run of uploads keeps, and why a complete upload is the original blob. */
module UploadProofs {
  import opened Basics
  import opened Ordering
  import opened Upload

  // The missing set.

  /** Somewhere along a run of chunk uploads this chunk of this session was accepted. */
  ghost predicate Arrived(u: Uploads, qs: seq<Request>, sid: string, id: ChunkId)
    decreases |qs|
  {
    qs != [] && (Accepts(u, qs[0], sid, id) || Arrived(Serve(u, qs[0]), qs[1..], sid, id))
  }

  predicate Accepts(u: Uploads, q: Request, sid: string, id: ChunkId) {
    q.PutReq? && q.sid == sid && q.id == id && PutError(u, sid, id, q.offset, q.size, q.payload, q.now).None?
  }

  /** The session differs at most in which chunks it has. */
  predicate SameUploadAs(s: Session, t: Session) {
    t == s.(uploaded := t.uploaded, chunkFiles := t.chunkFiles)
  }

  lemma PutMissing(u: Uploads, q: Request, sid: string, c: Chunk)
    requires q.PutReq? && sid in u.sessions
    ensures var w := Serve(u, q);
            && w.blobs == u.blobs && sid in w.sessions && SameUploadAs(u.sessions[sid], w.sessions[sid])
            && (IsMissing(w.sessions[sid], sid, w.files, c) <==> IsMissing(u.sessions[sid], sid, u.files, c) && !Accepts(u, q, sid, c.id))
  {
    hide PutError;
    if PutError(u, q.sid, q.id, q.offset, q.size, q.payload, q.now).None? { AcceptedSession(u, q); }
  }

  lemma AcceptedSession(u: Uploads, q: Request)
    requires q.PutReq? && PutError(u, q.sid, q.id, q.offset, q.size, q.payload, q.now).None?
    ensures q.sid in u.sessions
  {
  }

  /** Main result: whatever chunks arrive, in any order, repeated, for whatever sessions, the reported missing set
      is exactly what was missing before minus what has arrived. */
  lemma {:induction false} MissingIsWhatHasNotArrived(u: Uploads, qs: seq<Request>, sid: string, c: Chunk)
    requires sid in u.sessions && forall q :: q in qs ==> q.PutReq?
    ensures var w := Serving(u, qs);
            && w.blobs == u.blobs && sid in w.sessions && SameUploadAs(u.sessions[sid], w.sessions[sid])
            && (IsMissing(w.sessions[sid], sid, w.files, c) <==> IsMissing(u.sessions[sid], sid, u.files, c) && !Arrived(u, qs, sid, c.id))
    decreases |qs|
  {
    if qs != [] {
      assert qs[0] in qs && forall q :: q in qs[1..] ==> q in qs;
      PutMissing(u, qs[0], sid, c);
      hide IsMissing, Accepts, Serve;
      MissingIsWhatHasNotArrived(Serve(u, qs[0]), qs[1..], sid, c);
    }
  }

  /** For a new session of a blob not yet stored: a chunk is reported missing exactly until it has arrived. */
  lemma MissingFromTheStart(u: Uploads, qs: seq<Request>, sid: string)
    requires sid in u.sessions && u.sessions[sid].uploaded == [] && forall q :: q in qs ==> q.PutReq?
    ensures var w := Serving(u, qs);
            sid in w.sessions && forall c :: c in Missing(w.sessions[sid], sid, w.files, w.sessions[sid].chunks) <==>
              c in u.sessions[sid].chunks && !Arrived(u, qs, sid, c.id)
  {
    MissingIsWhatHasNotArrived(u, qs, sid, Chunk(ChunkId("", 0, 0), 0, 0));
    forall c
      ensures c in Missing(Serving(u, qs).sessions[sid], sid, Serving(u, qs).files, Serving(u, qs).sessions[sid].chunks) <==>
                c in u.sessions[sid].chunks && !Arrived(u, qs, sid, c.id)
    {
      MissingIsWhatHasNotArrived(u, qs, sid, c);
      hide Serving, Arrived;
    }
  }

  // Well-formed sessions and sound blobs.

  ghost predicate SessionOk(s: Session) {
    s.chunkSize > 0 && ExpectedChunks(s.blob, s.size, s.chunkSize) == Ok(s.chunks)
  }

  /** A recorded blob is stored with the recorded size and hash. */
  ghost predicate BlobOk(u: Uploads, blob: string)
    requires blob in u.blobs
  {
    var b := u.blobs[blob];
    var key := ObjectKey(b.vault, blob);
    key in u.objects && |u.objects[key]| == b.size && Sha256(u.objects[key]) == b.hash
  }

  ghost predicate Sound(u: Uploads) {
    && (forall sid :: sid in u.sessions ==> SessionOk(u.sessions[sid]))
    && (forall blob :: blob in u.blobs ==> BlobOk(u, blob))
  }

  /** Recorded blobs stay recorded and their stored bytes stay the same. */
  ghost predicate KeepsBlobs(u: Uploads, w: Uploads) {
    forall blob :: blob in u.blobs ==>
      && blob in w.blobs && w.blobs[blob] == u.blobs[blob]
      && At(w.objects, ObjectKey(u.blobs[blob].vault, blob)) == At(u.objects, ObjectKey(u.blobs[blob].vault, blob))
  }

  lemma FinishedFits(s: Session, sid: string, files: map<FileKey, Bytes>)
    requires Finished(s, sid, files).Ok?
    ensures |Finished(s, sid, files).value| == s.size && Sha256(Finished(s, sid, files).value) == s.hash
  {
  }

  lemma CompleteOneSound(u: Uploads, vault: string, q: Claim)
    requires Sound(u)
    ensures var w := CompleteOne(u, vault, q).0;
            Sound(w) && KeepsBlobs(u, w)
  {
    hide Finished, Missing, ClaimError, SessionOk, WithoutFiles;
    if q.sid in u.sessions && Finished(u.sessions[q.sid], q.sid, u.files).Ok? {
      FinishedFits(u.sessions[q.sid], q.sid, u.files);
      var w := CompleteOne(u, vault, q).0;
      ClaimMatches(u, vault, q);
      assert w == u || (u.sessions[q.sid].blob !in u.blobs && w.blobs.Keys == u.blobs.Keys + {u.sessions[q.sid].blob});
    }
  }

  lemma ClaimMatches(u: Uploads, vault: string, q: Claim)
    requires q.sid in u.sessions
    ensures ClaimError(u.sessions[q.sid], vault, q).None? ==> u.sessions[q.sid].blob == q.blob && u.sessions[q.sid].vault == vault
  {
  }

  lemma KeepsTrans(u: Uploads, v: Uploads, w: Uploads)
    requires KeepsBlobs(u, v) && KeepsBlobs(v, w)
    ensures KeepsBlobs(u, w)
  {
  }

  lemma {:induction false} CompleteAllSound(u: Uploads, vault: string, qs: seq<Claim>)
    requires Sound(u)
    ensures Sound(CompleteAll(u, vault, qs).0) && KeepsBlobs(u, CompleteAll(u, vault, qs).0)
    decreases |qs|
  {
    if qs != [] {
      var v := CompleteAll(u, vault, qs[..|qs| - 1]).0;
      CompleteAllSound(u, vault, qs[..|qs| - 1]);
      CompleteOneSound(v, vault, qs[|qs| - 1]);
      hide Sound, CompleteOne, KeepsBlobs;
      KeepsTrans(u, v, CompleteOne(v, vault, qs[|qs| - 1]).0);
    }
  }

  lemma PurgeSound(u: Uploads, now: int)
    requires Sound(u)
    ensures Sound(Purge(u, now)) && KeepsBlobs(u, Purge(u, now))
  {
    hide SessionOk, WithoutFiles;
  }

  /** A failed batch forgets what it recorded; the objects it wrote belong to no recorded blob. */
  lemma AbandonedSound(u: Uploads, w: Uploads)
    requires Sound(u) && KeepsBlobs(u, w)
    ensures Sound(w.(sessions := u.sessions, blobs := u.blobs)) && KeepsBlobs(u, w.(sessions := u.sessions, blobs := u.blobs))
  {
    hide SessionOk;
  }

  lemma CompleteSound(u: Uploads, vault: string, qs: seq<Claim>, now: int)
    requires Sound(u)
    ensures Sound(Complete(u, vault, qs, now).0) && KeepsBlobs(u, Complete(u, vault, qs, now).0)
  {
    var p := Purge(u, now);
    var w := CompleteAll(p, vault, qs).0;
    PurgeSound(u, now);
    CompleteAllSound(p, vault, qs);
    KeepsTrans(u, p, w);
    AbandonedSound(u, w);
    SameKeeps(u);
    hide Sound, KeepsBlobs, CompleteAll, Purge, BadBatch;
  }

  lemma SameKeeps(u: Uploads)
    ensures KeepsBlobs(u, u)
  {
  }

  lemma OpenSound(u: Uploads, q: Opening, sid: string, now: int)
    requires Sound(u)
    ensures Sound(Open(u, q, sid, now)) && KeepsBlobs(u, Open(u, q, sid, now))
  {
    PurgeSound(u, now);
    if !BadOpening(q) { assert SessionOk(NewSession(q, q.blob in Purge(u, now).blobs, now)); }
    hide SessionOk, WithoutFiles, NewSession, Expired, BadOpening;
  }

  lemma PutSound(u: Uploads, sid: string, id: ChunkId, offset: int, size: int, payload: Bytes, now: int)
    requires Sound(u)
    ensures var w := Put(u, sid, id, offset, size, payload, now);
            Sound(w) && KeepsBlobs(u, w)
  {
    hide PutError;
    assert sid in u.sessions ==> SessionOk(u.sessions[sid]) && SessionOk(Noted(u.sessions[sid], id));
    hide SessionOk, Noted;
  }

  /** Main result: over any run, failed calls and failed batches included, every recorded blob is stored with its
      recorded size and hash, and its bytes never change again. */
  lemma {:induction false} RunSound(u: Uploads, qs: seq<Request>)
    requires Sound(u)
    ensures Sound(Serving(u, qs)) && KeepsBlobs(u, Serving(u, qs))
    decreases |qs|
  {
    if qs == [] {
      SameKeeps(u);
    } else {
      var w := Serve(u, qs[0]);
      ServeSound(u, qs[0]);
      RunSound(w, qs[1..]);
      KeepsTrans(u, w, Serving(w, qs[1..]));
    }
    hide Sound, KeepsBlobs, Serve;
  }

  lemma ServeSound(u: Uploads, q: Request)
    requires Sound(u)
    ensures Sound(Serve(u, q)) && KeepsBlobs(u, Serve(u, q))
  {
    hide Sound, KeepsBlobs, Open, Put, Complete;
    match q
    case OpenReq(opening, sid, now) => OpenSound(u, opening, sid, now);
    case PutReq(sid, id, offset, size, payload, now) => PutSound(u, sid, id, offset, size, payload, now);
    case CompleteReq(vault, claims, now) => CompleteSound(u, vault, claims, now);
  }

  // Reassembly.

  /** The chunk files the session holds are the blob's own bytes at their place. */
  ghost predicate Intact(u: Uploads, sid: string, data: Bytes) {
    sid in u.sessions ==> forall id :: id in u.sessions[sid].chunkFiles && FileKey(sid, id) in u.files ==>
      id.offset + id.size <= |data| && u.files[FileKey(sid, id)] == data[id.offset..id.offset + id.size]
  }

  /** Every chunk the client sends for this session is the blob's bytes at the chunk's place. */
  predicate Honest(q: Request, sid: string, data: Bytes) {
    q.PutReq? && q.sid == sid ==> 0 <= q.offset && 0 <= q.size && q.offset + q.size <= |data| && q.payload == data[q.offset..q.offset + q.size]
  }

  lemma {:induction false} ChunkFound(cs: seq<Chunk>, id: ChunkId)
    requires forall c :: c in cs ==> c.id.offset == c.offset && c.id.size == c.size
    ensures ChunkById(cs, id).Some? ==> ChunkById(cs, id).value in cs && id.offset == ChunkById(cs, id).value.offset && id.size == ChunkById(cs, id).value.size
  {
    if cs != [] {
      assert cs[0] in cs && forall c :: c in cs[1..] ==> c in cs;
      ChunkFound(cs[1..], id);
    }
  }

  lemma SessionIds(s: Session)
    requires SessionOk(s)
    ensures forall c :: c in s.chunks ==> c.id.offset == c.offset && c.id.size == c.size
    ensures Tiling(s.chunks, 0, s.size)
  {
    if s.size > 0 { TilesTile(s.blob, s.size, s.chunkSize, 0); }
  }

  lemma PutIntact(u: Uploads, q: Request, sid: string, data: Bytes)
    requires Sound(u) && Intact(u, sid, data) && q.PutReq? && Honest(q, sid, data)
    ensures Intact(Serve(u, q), sid, data)
  {
    if PutError(u, q.sid, q.id, q.offset, q.size, q.payload, q.now).None? { PutPlace(u, q); }
    hide PutError, Sound;
  }

  /** An accepted chunk comes with the offset and size its id names. */
  lemma PutPlace(u: Uploads, q: Request)
    requires Sound(u) && q.PutReq? && PutError(u, q.sid, q.id, q.offset, q.size, q.payload, q.now).None?
    ensures q.sid in u.sessions && q.id.offset == q.offset && q.id.size == q.size
  {
    SessionIds(u.sessions[q.sid]);
    ChunkFound(u.sessions[q.sid].chunks, q.id);
    hide SessionOk;
  }

  /** Nothing but a chunk upload adds to a session's chunk files or changes one. */
  ghost predicate FilesFade(u: Uploads, w: Uploads, sid: string) {
    && (forall k :: k in w.files && k.session == sid ==> k in u.files && w.files[k] == u.files[k])
    && (sid in w.sessions ==> w.sessions[sid].chunkFiles == {} || (sid in u.sessions && w.sessions[sid] == u.sessions[sid]))
  }

  lemma FadeIntact(u: Uploads, w: Uploads, sid: string, data: Bytes)
    requires Intact(u, sid, data) && FilesFade(u, w, sid)
    ensures Intact(w, sid, data)
  {
  }

  lemma CompleteOneFades(u: Uploads, vault: string, q: Claim, sid: string)
    ensures FilesFade(u, CompleteOne(u, vault, q).0, sid)
  {
    hide Finished, Missing, ClaimError;
  }

  lemma {:induction false} CompleteAllFades(u: Uploads, vault: string, qs: seq<Claim>, sid: string)
    ensures FilesFade(u, CompleteAll(u, vault, qs).0, sid)
    decreases |qs|
  {
    if qs != [] {
      CompleteAllFades(u, vault, qs[..|qs| - 1], sid);
      CompleteOneFades(CompleteAll(u, vault, qs[..|qs| - 1]).0, vault, qs[|qs| - 1], sid);
      hide CompleteOne;
    }
  }

  lemma CompleteFades(u: Uploads, vault: string, qs: seq<Claim>, now: int, sid: string)
    ensures FilesFade(u, Complete(u, vault, qs, now).0, sid)
  {
    CompleteAllFades(Purge(u, now), vault, qs, sid);
    hide CompleteAll, BadBatch;
  }

  lemma OpenFades(u: Uploads, q: Opening, id: string, now: int, sid: string)
    ensures FilesFade(u, Open(u, q, id, now), sid)
  {
    PurgeFades(u, now, sid);
    hide BadOpening, Clashes, Purge, SameUpload;
  }

  lemma PurgeFades(u: Uploads, now: int, sid: string)
    ensures FilesFade(u, Purge(u, now), sid)
  {
  }

  lemma ServeIntact(u: Uploads, q: Request, sid: string, data: Bytes)
    requires Sound(u) && Intact(u, sid, data) && Honest(q, sid, data)
    ensures Intact(Serve(u, q), sid, data)
  {
    hide Open, Put, Complete, Sound, Intact, FilesFade, Honest;
    match q
    case OpenReq(opening, id, now) =>
      OpenFades(u, opening, id, now, sid);
      FadeIntact(u, Serve(u, q), sid, data);
    case PutReq(_, _, _, _, _, _) => PutIntact(u, q, sid, data);
    case CompleteReq(vault, claims, now) =>
      CompleteFades(u, vault, claims, now, sid);
      FadeIntact(u, Serve(u, q), sid, data);
  }

  lemma {:induction false} RunIntact(u: Uploads, qs: seq<Request>, sid: string, data: Bytes)
    requires Sound(u) && Intact(u, sid, data) && forall q :: q in qs ==> Honest(q, sid, data)
    ensures Intact(Serving(u, qs), sid, data)
    decreases |qs|
  {
    if qs != [] {
      assert qs[0] in qs && forall q :: q in qs[1..] ==> q in qs;
      ServeSound(u, qs[0]);
      ServeIntact(u, qs[0], sid, data);
      RunIntact(Serve(u, qs[0]), qs[1..], sid, data);
    }
    hide Sound, Intact, Serve;
  }

  /** The stored chunk files are the blob's bytes at the places their ids name. */
  ghost predicate Matching(s: Session, sid: string, files: map<FileKey, Bytes>, data: Bytes) {
    forall id :: id in s.chunkFiles && FileKey(sid, id) in files ==>
      id.offset + id.size <= |data| && files[FileKey(sid, id)] == data[id.offset..id.offset + id.size]
  }

  /** None of the chunks is missing, and each is named after its place. */
  ghost predicate AllHere(s: Session, sid: string, files: map<FileKey, Bytes>, cs: seq<Chunk>) {
    forall c :: c in cs ==> c.id.offset == c.offset && c.id.size == c.size && !IsMissing(s, sid, files, c)
  }

  /** Intact files of end-to-end chunks concatenate to the blob's own prefix. */
  lemma {:induction false} AssembledPrefix(s: Session, sid: string, files: map<FileKey, Bytes>, cs: seq<Chunk>, hi: nat, data: Bytes)
    requires Tiling(cs, 0, hi) && hi <= |data| && AllHere(s, sid, files, cs) && Matching(s, sid, files, data)
    ensures Assemble(s, sid, files, cs) == Ok(data[..hi])
    decreases |cs|
  {
    hide *;
    if cs == [] {
      AssembleNone(s, sid, files, hi);
      assert data[..0] == [];
    } else {
      var last := cs[|cs| - 1];
      var rest := cs[..|cs| - 1];
      InitTiles(cs, 0, hi);
      LastEnds(cs, hi);
      LastHere(s, sid, files, cs, data);
      AssembledPrefix(s, sid, files, rest, last.offset, data);
      AssembleNext(s, sid, files, cs, data);
      assert data[..last.offset] + data[last.offset..hi] == data[..hi];
    }
  }

  lemma AssembleNone(s: Session, sid: string, files: map<FileKey, Bytes>, hi: nat)
    requires Tiling([], 0, hi)
    ensures Assemble(s, sid, files, []) == Ok([]) && hi == 0
  {
  }

  lemma LastHere(s: Session, sid: string, files: map<FileKey, Bytes>, cs: seq<Chunk>, data: Bytes)
    requires cs != [] && AllHere(s, sid, files, cs) && Matching(s, sid, files, data)
    ensures AllHere(s, sid, files, cs[..|cs| - 1])
    ensures var c := cs[|cs| - 1];
            && !IsMissing(s, sid, files, c) && c.id.offset == c.offset && c.id.size == c.size
            && (c.id in s.chunkFiles && FileKey(sid, c.id) in files ==>
                  c.offset + c.size <= |data| && files[FileKey(sid, c.id)] == data[c.offset..c.offset + c.size])
  {
    assert cs[|cs| - 1] in cs && forall c :: c in cs[..|cs| - 1] ==> c in cs;
    hide IsMissing;
  }

  lemma LastEnds(cs: seq<Chunk>, hi: nat)
    requires cs != [] && Tiling(cs, 0, hi)
    ensures cs[|cs| - 1].offset + cs[|cs| - 1].size == hi
  {
  }

  lemma AssembleNext(s: Session, sid: string, files: map<FileKey, Bytes>, cs: seq<Chunk>, data: Bytes)
    requires cs != [] && !IsMissing(s, sid, files, cs[|cs| - 1])
    requires var c := cs[|cs| - 1];
             c.id.offset == c.offset && c.id.size == c.size && c.offset + c.size <= |data|
             && (c.id in s.chunkFiles && FileKey(sid, c.id) in files ==> files[FileKey(sid, c.id)] == data[c.offset..c.offset + c.size])
    requires Assemble(s, sid, files, cs[..|cs| - 1]).Ok?
    ensures var c := cs[|cs| - 1];
            Assemble(s, sid, files, cs) == Ok(Assemble(s, sid, files, cs[..|cs| - 1]).value + data[c.offset..c.offset + c.size])
  {
    var b := Assemble(s, sid, files, cs[..|cs| - 1]).value;
    assert b + data[cs[|cs| - 1].offset..cs[|cs| - 1].offset] == b;
  }

  lemma TilingSorted(cs: seq<Chunk>, lo: nat, hi: nat)
    requires Tiling(cs, lo, hi)
    ensures Sorted(cs, OffsetLeq)
  {
    forall i, j | 0 <= i < j < |cs|
      ensures OffsetLeq(cs[i], cs[j])
    {
      TilingMonotone(cs, lo, hi, i, j);
    }
  }

  lemma {:induction false} TilingMonotone(cs: seq<Chunk>, lo: nat, hi: nat, i: nat, j: nat)
    requires Tiling(cs, lo, hi) && i <= j < |cs|
    ensures cs[i].offset <= cs[j].offset
    decreases j
  {
    if i < j { TilingMonotone(cs, lo, hi, i, j - 1); }
  }

  /** Main result: once nothing is missing and every chunk was the blob's own, completion succeeds and stores the blob. */
  lemma CompleteUploadIsTheBlob(u: Uploads, vault: string, q: Claim, data: Bytes)
    requires Sound(u) && Intact(u, q.sid, data) && q.sid in u.sessions && q.blob !in u.blobs
    requires u.sessions[q.sid].size == |data| && u.sessions[q.sid].hash == Sha256(data)
    requires ClaimError(u.sessions[q.sid], vault, q).None?
    ensures var s := u.sessions[q.sid];
            var (w, status) := CompleteOne(u, vault, q);
            if Missing(s, q.sid, u.files, s.chunks) == []
            then status == Ok(Accepted) && At(w.objects, ObjectKey(vault, q.blob)) == Some(data) && q.sid !in w.sessions
            else status == Ok(StillMissing(Missing(s, q.sid, u.files, s.chunks))) && w == u
  {
    var s := u.sessions[q.sid];
    ClaimMatches(u, vault, q);
    if Missing(s, q.sid, u.files, s.chunks) == [] { FinishedIsTheBlob(u, q.sid, data); }
    hide Sound, Missing, Finished, ClaimError, WithoutFiles, Intact;
  }

  lemma FinishedIsTheBlob(u: Uploads, sid: string, data: Bytes)
    requires sid in u.sessions && SessionOk(u.sessions[sid]) && Intact(u, sid, data)
    requires Missing(u.sessions[sid], sid, u.files, u.sessions[sid].chunks) == []
    requires u.sessions[sid].size == |data| && u.sessions[sid].hash == Sha256(data)
    ensures Finished(u.sessions[sid], sid, u.files) == Ok(data)
  {
    hide *;
    var s := u.sessions[sid];
    SessionIds(s);
    TilingSorted(s.chunks, 0, s.size);
    NothingMissing(s, sid, u.files);
    IntactFiles(u, sid, data);
    AssembledPrefix(s, sid, u.files, s.chunks, s.size, data);
    assert data[..s.size] == data;
    FinishAssembled(s, sid, u.files, data);
  }

  lemma IntactFiles(u: Uploads, sid: string, data: Bytes)
    requires sid in u.sessions && Intact(u, sid, data)
    ensures Matching(u.sessions[sid], sid, u.files, data)
  {
  }

  lemma FinishAssembled(s: Session, sid: string, files: map<FileKey, Bytes>, data: Bytes)
    requires Sorted(s.chunks, OffsetLeq) && Assemble(s, sid, files, s.chunks) == Ok(data)
    requires s.size == |data| && s.hash == Sha256(data)
    ensures Finished(s, sid, files) == Ok(data)
  {
    SortStable(s.chunks, OffsetLeq);
    hide Assemble, Sort, Sorted;
  }

  lemma NothingMissing(s: Session, sid: string, files: map<FileKey, Bytes>)
    requires Missing(s, sid, files, s.chunks) == [] && forall c :: c in s.chunks ==> c.id.offset == c.offset && c.id.size == c.size
    ensures AllHere(s, sid, files, s.chunks)
  {
    assert forall c :: c in s.chunks && IsMissing(s, sid, files, c) ==> c in Missing(s, sid, files, s.chunks);
  }

  /** And only the blob itself is ever accepted: what is stored hashes to what was declared. */
  lemma AcceptedIsDeclared(u: Uploads, vault: string, q: Claim, data: Bytes)
    requires CompleteOne(u, vault, q).1 == Ok(Accepted) && q.hash == Sha256(data)
    ensures At(CompleteOne(u, vault, q).0.objects, ObjectKey(vault, q.blob)) == Some(data)
  {
    hide Finished, Missing, WithoutFiles;
    FinishedFits(u.sessions[q.sid], q.sid, u.files);
  }

  lemma SameClaim(s: Session, t: Session, vault: string, q: Claim)
    requires SameUploadAs(s, t)
    ensures ClaimError(s, vault, q) == ClaimError(t, vault, q)
  {
    hide ChunkById;
  }

  /** Main result: chunks of the blob sent in any order, any number of times, interleaved with any other uploads:
      completion either names exactly the chunks that have not arrived, or stores the original blob. */
  lemma UploadInAnyOrder(u: Uploads, qs: seq<Request>, vault: string, q: Claim, data: Bytes)
    requires Sound(u) && q.sid in u.sessions && u.sessions[q.sid].uploaded == [] && u.sessions[q.sid].chunkFiles == {}
    requires q.blob !in u.blobs && ClaimError(u.sessions[q.sid], vault, q).None?
    requires u.sessions[q.sid].size == |data| && u.sessions[q.sid].hash == Sha256(data)
    requires forall r :: r in qs ==> r.PutReq? && Honest(r, q.sid, data)
    ensures var (w, status) := CompleteOne(Serving(u, qs), vault, q);
            if forall c :: c in u.sessions[q.sid].chunks ==> Arrived(u, qs, q.sid, c.id)
            then status == Ok(Accepted) && At(w.objects, ObjectKey(vault, q.blob)) == Some(data)
            else status.Ok? && status.value.StillMissing? && w == Serving(u, qs)
                 && forall c :: c in status.value.chunks <==> c in u.sessions[q.sid].chunks && !Arrived(u, qs, q.sid, c.id)
  {
    var sid := q.sid;
    var v := Serving(u, qs);
    assert Intact(u, sid, data);
    RunSound(u, qs);
    RunIntact(u, qs, sid, data);
    MissingIsWhatHasNotArrived(u, qs, sid, Chunk(ChunkId("", 0, 0), 0, 0));
    MissingFromTheStart(u, qs, sid);
    SameClaim(u.sessions[sid], v.sessions[sid], vault, q);
    CompleteUploadIsTheBlob(v, vault, q, data);
    hide Sound, Intact, Honest, Serving, Arrived, ClaimError, CompleteOne, IsMissing;
    var missing := Missing(v.sessions[sid], sid, v.files, v.sessions[sid].chunks);
    hide Missing;
    if missing != [] { assert missing[0] in missing; }
  }
}
