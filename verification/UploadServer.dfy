/** The upload half of the server object: records saved at the end of a call, files written as it goes. */
module UploadServer {
  import opened Basics
  import opened Ordering
  import opened Upload

  /** The first chunk of the session with this id. */
  method FindChunk(cs: seq<Chunk>, id: ChunkId) returns (r: Option<Chunk>)
    ensures r == ChunkById(cs, id)
  {
    assert cs[0..] == cs;
    for i := 0 to |cs|
      invariant ChunkById(cs, id) == ChunkById(cs[i..], id)
    {
      assert cs[i..][0] == cs[i] && cs[i..][1..] == cs[i + 1..];
      if cs[i].id == id {
        return Some(cs[i]);
      }
    }
    r := None;
  }

  class Server {
    var sessions: map<string, Session>
    var blobs: map<string, Blob>
    var files: map<FileKey, Bytes>
    var objects: map<ObjectKey, Bytes>

    function State(): Uploads
      reads this
    {
      Uploads(sessions, blobs, files, objects)
    }

    constructor ()
      ensures State() == Uploads(map[], map[], map[], map[])
    {
      sessions, blobs, files, objects := map[], map[], map[], map[];
    }

    method PutChunk(sid: string, id: ChunkId, offset: int, size: int, payload: Bytes, now: int) returns (error: Option<Error>)
      modifies this
      ensures State() == Put(old(State()), sid, id, offset, size, payload, now)
      ensures error == PutError(old(State()), sid, id, offset, size, payload, now)
    {
      if sid == "" {
        return Some(SessionNotFound);
      }
      if offset < 0 || size < 0 {
        return Some(InvalidRequest);
      }
      if |payload| != size {
        return Some(ChunkSizeMismatch);
      }
      if sid !in sessions {
        return Some(SessionNotFound);
      }
      var session := sessions[sid];
      if session.expires < now {
        return Some(SessionExpired);
      }
      var chunk := FindChunk(session.chunks, id);
      if chunk.None? {
        return Some(ChunkNotFound);
      }
      if chunk.value.offset != offset || chunk.value.size != size {
        return Some(RangeMismatch);
      }
      files := files[FileKey(sid, id) := payload];
      session := session.(chunkFiles := session.chunkFiles + {id});
      if id !in session.uploaded {
        session := session.(uploaded := session.uploaded + [id]);
      }
      sessions := sessions[sid := session];
      error := None;
    }

    /** The chunks still to be sent. */
    method MissingChunks(s: Session, sid: string) returns (missing: seq<Chunk>)
      ensures missing == Missing(s, sid, files, s.chunks)
    {
      missing := [];
      for i := 0 to |s.chunks|
        invariant missing == Missing(s, sid, files, s.chunks[..i])
      {
        var c := s.chunks[i];
        assert s.chunks[..i + 1][..i] == s.chunks[..i];
        if c.id !in s.uploaded {
          missing := missing + [c];
        } else if c.size > 0 && (c.id !in s.chunkFiles || FileKey(sid, c.id) !in files) {
          missing := missing + [c];
        }
      }
      assert s.chunks[..|s.chunks|] == s.chunks;
    }

    /** The chunk files concatenated in offset order, if they are all there and fit. */
    method Finish(s: Session, sid: string) returns (r: Attempt<Bytes>)
      ensures r == Finished(s, sid, files)
    {
      var chunks := Sort(s.chunks, OffsetLeq);
      var payload: Bytes := [];
      for i := 0 to |chunks|
        invariant Assemble(s, sid, files, chunks[..i]) == Ok(payload)
      {
        var c := chunks[i];
        assert chunks[..i + 1][..i] == chunks[..i];
        if c.size != 0 {
          if c.id !in s.chunkFiles || FileKey(sid, c.id) !in files {
            FailsEarly(s, sid, files, chunks, i);
            return Err(Incomplete);
          }
          var chunk := files[FileKey(sid, c.id)];
          if |chunk| != c.size {
            FailsEarly(s, sid, files, chunks, i);
            return Err(ChunkSizeMismatch);
          }
          payload := payload + chunk;
        }
      }
      assert chunks[..|chunks|] == chunks;
      if |payload| != s.size {
        return Err(BlobSizeMismatch);
      }
      if Sha256(payload) != s.hash {
        return Err(BlobHashMismatch);
      }
      r := Ok(payload);
    }

    /** A batch of completions: records change only if every upload went through. */
    method CompleteUploads(vault: string, claims: seq<Claim>, now: int) returns (r: Attempt<seq<Status>>)
      modifies this
      ensures (State(), r) == Complete(old(State()), vault, claims, now)
    {
      if BadBatch(vault, claims) {
        return Err(InvalidRequest);
      }
      ghost var start := Purge(State(), now);
      var working := sessions - Expired(State(), now);
      files := WithoutFiles(files, Expired(State(), now), sessions);
      var stored := blobs;
      var results: seq<Status> := [];
      for i := 0 to |claims|
        invariant sessions == old(sessions) && blobs == old(blobs)
        invariant CompleteAll(start, vault, claims[..i]) == (Uploads(working, stored, files, objects), Ok(results))
      {
        hide Missing, Finished, ClaimError;
        var q := claims[i];
        assert claims[..i + 1][..i] == claims[..i];
        ghost var before := Uploads(working, stored, files, objects);
        var status: Status;
        if q.blob in stored {
          if stored[q.blob].size != q.size || stored[q.blob].hash != q.hash {
            BatchFails(start, vault, claims, i, before, MetadataMismatch);
            return Err(MetadataMismatch);
          }
          status := AlreadyExists;
        } else if q.sid !in working {
          BatchFails(start, vault, claims, i, before, SessionNotFound);
          return Err(SessionNotFound);
        } else {
          var s := working[q.sid];
          var error := ClaimError(s, vault, q);
          if error.Some? {
            BatchFails(start, vault, claims, i, before, error.value);
            return Err(error.value);
          }
          var missing := MissingChunks(s, q.sid);
          if missing != [] {
            status := StillMissing(missing);
          } else {
            var blob := Finish(s, q.sid);
            if blob.Err? {
              BatchFails(start, vault, claims, i, before, blob.error);
              return Err(blob.error);
            }
            objects := objects[ObjectKey(s.vault, s.blob) := blob.value];
            stored := stored[s.blob := Blob(s.vault, |blob.value|, s.contentHash, Sha256(blob.value))];
            files := WithoutFiles(files, {q.sid}, working);
            working := working - {q.sid};
            status := Accepted;
          }
        }
        assert CompleteOne(before, vault, q) == (Uploads(working, stored, files, objects), Ok(status));
        hide CompleteOne;
        results := results + [status];
      }
      assert claims[..|claims|] == claims;
      sessions, blobs := working, stored;
      r := Ok(results);
    }

    method OpenUpload(q: Opening, sid: string, now: int)
      modifies this
      ensures State() == Open(old(State()), q, sid, now)
    {
      if BadOpening(q) {
        return;
      }
      var working := sessions - Expired(State(), now);
      files := WithoutFiles(files, Expired(State(), now), sessions);
      if Clashes(blobs, q) {
        return;
      }
      if !exists s :: s in working && SameUpload(working[s], q, now) {
        var chunks := BlobChunks(q.blob, q.size, q.chunkSize);
        var uploaded := if q.blob in blobs then Map((c: Chunk) => c.id, chunks.value) else [];
        working := working[sid := Session(q.vault, q.blob, q.size, q.contentHash, q.hash, q.chunkSize, chunks.value,
                                          uploaded, {}, q.device, now + SESSION_MS)];
      }
      sessions := working;
    }
  }

  /** The first chunk that does not fit decides the error. */
  lemma {:induction false} FailsEarly(s: Session, sid: string, files: map<FileKey, Bytes>, cs: seq<Chunk>, i: nat)
    requires i < |cs| && Assemble(s, sid, files, cs[..i + 1]).Err?
    ensures Assemble(s, sid, files, cs) == Assemble(s, sid, files, cs[..i + 1])
    decreases |cs|
  {
    if i + 1 < |cs| {
      var rest := cs[..|cs| - 1];
      assert rest[..i + 1] == cs[..i + 1];
      FailsEarly(s, sid, files, rest, i);
    } else {
      assert cs[..i + 1] == cs;
    }
  }

  /** The first upload that fails ends the batch. */
  lemma {:induction false} BatchFails(u: Uploads, vault: string, qs: seq<Claim>, i: nat, at: Uploads, e: Error)
    requires i < |qs| && CompleteAll(u, vault, qs[..i]).0 == at && CompleteAll(u, vault, qs[..i]).1.Ok?
    requires CompleteOne(at, vault, qs[i]) == (at, Err(e))
    ensures CompleteAll(u, vault, qs) == (at, Err(e))
    decreases |qs|
  {
    hide CompleteOne;
    if i + 1 < |qs| {
      var rest := qs[..|qs| - 1];
      assert rest[..i] == qs[..i];
      BatchFails(u, vault, rest, i, at, e);
    } else {
      assert qs[..|qs| - 1] == qs[..i];
    }
  }
}
