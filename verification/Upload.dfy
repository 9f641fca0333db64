/** Resumable uploads: tiling a blob into chunks, storing chunks in any order, reassembling the blob. */
module Upload {
  import opened Basics
  import opened Ordering

  /** A chunk's id is a digest of the blob id, offset and size, free in all three. */
  datatype ChunkId = ChunkId(blob: string, offset: nat, size: nat)
  datatype Chunk = Chunk(id: ChunkId, offset: nat, size: nat)

  datatype Error = InvalidRequest | SessionNotFound | SessionExpired | SessionMismatch | ChunkNotFound | RangeMismatch
                 | ChunkSizeMismatch | Incomplete | BlobSizeMismatch | BlobHashMismatch | MetadataMismatch
  datatype Attempt<T> = Ok(value: T) | Err(error: Error)

  datatype Session = Session(vault: string, blob: string, size: nat, contentHash: string, hash: Hash, chunkSize: nat,
                             chunks: seq<Chunk>, uploaded: seq<ChunkId>, chunkFiles: set<ChunkId>, device: string, expires: int)
  datatype Blob = Blob(vault: string, size: nat, contentHash: string, hash: Hash)

  /** A chunk's file is named after its session and chunk, a blob's object after its vault and blob. */
  datatype FileKey = FileKey(session: string, chunk: ChunkId)
  datatype ObjectKey = ObjectKey(vault: string, blob: string)

  /** `sessions` and `blobs` are saved together at the end of a call; files and objects change at once. */
  datatype Uploads = Uploads(sessions: map<string, Session>, blobs: map<string, Blob>,
                             files: map<FileKey, Bytes>, objects: map<ObjectKey, Bytes>)

  const SESSION_MS := 15 * 60 * 1000

  // Tiling.

  function ChunkAt(blob: string, size: nat, chunkSize: nat, offset: nat): Chunk
    requires offset <= size
  {
    var n := if chunkSize < size - offset then chunkSize else size - offset;
    Chunk(ChunkId(blob, offset, n), offset, n)
  }

  function Tiles(blob: string, size: nat, chunkSize: nat, offset: nat): seq<Chunk>
    requires chunkSize > 0 && offset <= size
    decreases size - offset
  {
    if offset == size then []
    else
      var c := ChunkAt(blob, size, chunkSize, offset);
      [c] + Tiles(blob, size, chunkSize, offset + c.size)
  }

  function ExpectedChunks(blob: string, size: int, chunkSize: int): Attempt<seq<Chunk>> {
    if size < 0 || chunkSize <= 0 then Err(InvalidRequest)
    else if size == 0 then Ok([Chunk(ChunkId(blob, 0, 0), 0, 0)])
    else Ok(Tiles(blob, size, chunkSize, 0))
  }

  method BlobChunks(blob: string, size: int, chunkSize: int) returns (r: Attempt<seq<Chunk>>)
    ensures r == ExpectedChunks(blob, size, chunkSize)
  {
    if size < 0 || chunkSize <= 0 {
      return Err(InvalidRequest);
    }
    if size == 0 {
      return Ok([Chunk(ChunkId(blob, 0, 0), 0, 0)]);
    }
    var chunks: seq<Chunk> := [];
    var offset := 0;
    while offset < size
      invariant 0 <= offset <= size
      invariant chunks + Tiles(blob, size, chunkSize, offset) == Tiles(blob, size, chunkSize, 0)
    {
      var n := if chunkSize < size - offset then chunkSize else size - offset;
      chunks := chunks + [Chunk(ChunkId(blob, offset, n), offset, n)];
      offset := offset + n;
    }
    assert chunks + [] == chunks;
    r := Ok(chunks);
  }

  /** The chunks lie end to end from `lo` to `hi`. */
  ghost predicate Tiling(cs: seq<Chunk>, lo: nat, hi: nat) {
    if cs == [] then lo == hi
    else
      && cs[0].offset == lo && cs[|cs| - 1].offset + cs[|cs| - 1].size == hi
      && forall i :: 0 <= i < |cs| - 1 ==> cs[i + 1].offset == cs[i].offset + cs[i].size
  }

  /** Full-sized non-empty chunks, the last one perhaps shorter, each named after its place in the blob. */
  ghost predicate Sized(cs: seq<Chunk>, blob: string, chunkSize: nat) {
    && (forall i :: 0 <= i < |cs| ==> 0 < cs[i].size <= chunkSize && cs[i].id == ChunkId(blob, cs[i].offset, cs[i].size))
    && (forall i :: 0 <= i < |cs| - 1 ==> cs[i].size == chunkSize)
  }

  /** A full chunk put in front of end-to-end chunks. */
  lemma FrontTiles(c: Chunk, rest: seq<Chunk>, mid: nat, hi: nat, blob: string, chunkSize: nat)
    requires Tiling(rest, mid, hi) && Sized(rest, blob, chunkSize) && mid == c.offset + c.size
    requires 0 < c.size <= chunkSize && c.id == ChunkId(blob, c.offset, c.size) && (rest != [] ==> c.size == chunkSize)
    ensures Tiling([c] + rest, c.offset, hi) && Sized([c] + rest, blob, chunkSize)
  {
    var cs := [c] + rest;
    assert rest != [] ==> cs[|cs| - 1] == rest[|rest| - 1];
  }

  lemma {:induction false} TilesTile(blob: string, size: nat, chunkSize: nat, offset: nat)
    requires chunkSize > 0 && offset <= size
    ensures Tiling(Tiles(blob, size, chunkSize, offset), offset, size)
    ensures Sized(Tiles(blob, size, chunkSize, offset), blob, chunkSize)
    ensures offset < size ==> Tiles(blob, size, chunkSize, offset) != []
    decreases size - offset
  {
    if offset < size {
      var c := ChunkAt(blob, size, chunkSize, offset);
      TilesTile(blob, size, chunkSize, offset + c.size);
      var rest := Tiles(blob, size, chunkSize, offset + c.size);
      assert Tiles(blob, size, chunkSize, offset) == [c] + rest && (offset + c.size == size ==> rest == []);
      hide Tiles;
      FrontTiles(c, rest, c.offset + c.size, size, blob, chunkSize);
    }
  }

  /** A chunk covers a byte position. */
  predicate Covers(c: Chunk, p: nat) {
    c.offset <= p < c.offset + c.size
  }

  /** Main result: every byte of the blob lies in exactly one chunk, and no chunk reaches beyond it. */
  lemma EveryByteOnce(blob: string, size: nat, chunkSize: nat, p: nat)
    requires chunkSize > 0 && size > 0
    ensures var cs := ExpectedChunks(blob, size, chunkSize).value;
            && (p < size ==> exists i :: 0 <= i < |cs| && Covers(cs[i], p) && forall j :: 0 <= j < |cs| && Covers(cs[j], p) ==> j == i)
            && (p >= size ==> forall i :: 0 <= i < |cs| ==> !Covers(cs[i], p))
  {
    var cs := Tiles(blob, size, chunkSize, 0);
    TilesTile(blob, size, chunkSize, 0);
    CoveredOnce(cs, 0, size, p);
    assert ExpectedChunks(blob, size, chunkSize).value == cs;
    hide Tiles, Tiling, Sized, ExpectedChunks;
    if p < size {
      var i :| 0 <= i < |cs| && Covers(cs[i], p) && forall j :: 0 <= j < |cs| && Covers(cs[j], p) ==> j == i;
      assert Covers(cs[i], p);
    }
  }

  lemma {:induction false} CoveredOnce(cs: seq<Chunk>, lo: nat, hi: nat, p: nat)
    requires Tiling(cs, lo, hi)
    ensures lo <= hi && (lo <= p < hi ==> exists i :: 0 <= i < |cs| && Covers(cs[i], p) && forall j :: 0 <= j < |cs| && Covers(cs[j], p) ==> j == i)
    ensures !(lo <= p < hi) ==> forall i :: 0 <= i < |cs| ==> !Covers(cs[i], p)
  {
    if cs != [] {
      var last := cs[|cs| - 1];
      var rest := cs[..|cs| - 1];
      InitTiles(cs, lo, hi);
      CoveredOnce(rest, lo, last.offset, p);
      if lo <= p < last.offset {
        var i :| 0 <= i < |rest| && Covers(rest[i], p) && forall j :: 0 <= j < |rest| && Covers(rest[j], p) ==> j == i;
        assert Covers(cs[i], p);
        forall j | 0 <= j < |cs| && Covers(cs[j], p)
          ensures j == i
        {
          assert j < |rest| ==> Covers(rest[j], p);
        }
      } else {
        assert forall j :: 0 <= j < |rest| ==> cs[j] == rest[j] && !Covers(cs[j], p);
        assert lo <= p < hi ==> Covers(cs[|cs| - 1], p);
      }
    }
  }

  lemma InitTiles(cs: seq<Chunk>, lo: nat, hi: nat)
    requires cs != [] && Tiling(cs, lo, hi)
    ensures Tiling(cs[..|cs| - 1], lo, cs[|cs| - 1].offset)
  {
  }

  // Storing chunks.

  function ChunkById(cs: seq<Chunk>, id: ChunkId): Option<Chunk> {
    if cs == [] then None
    else if cs[0].id == id then Some(cs[0])
    else ChunkById(cs[1..], id)
  }

  function PutError(u: Uploads, sid: string, id: ChunkId, offset: int, size: int, payload: Bytes, now: int): Option<Error> {
    if sid == "" then Some(SessionNotFound)
    else if offset < 0 || size < 0 then Some(InvalidRequest)
    else if |payload| != size then Some(ChunkSizeMismatch)
    else if sid !in u.sessions then Some(SessionNotFound)
    else if u.sessions[sid].expires < now then Some(SessionExpired)
    else
      match ChunkById(u.sessions[sid].chunks, id)
      case None => Some(ChunkNotFound)
      case Some(c) => if c.offset != offset || c.size != size then Some(RangeMismatch) else None
  }

  function Noted(s: Session, id: ChunkId): Session {
    s.(uploaded := if id in s.uploaded then s.uploaded else s.uploaded + [id], chunkFiles := s.chunkFiles + {id})
  }

  function Put(u: Uploads, sid: string, id: ChunkId, offset: int, size: int, payload: Bytes, now: int): Uploads {
    if PutError(u, sid, id, offset, size, payload, now).Some? || sid !in u.sessions then u
    else u.(files := u.files[FileKey(sid, id) := payload], sessions := u.sessions[sid := Noted(u.sessions[sid], id)])
  }

  /** The chunk has not arrived, or its file is gone. */
  predicate IsMissing(s: Session, sid: string, files: map<FileKey, Bytes>, c: Chunk) {
    c.id !in s.uploaded || (c.size > 0 && (c.id !in s.chunkFiles || FileKey(sid, c.id) !in files))
  }

  function Missing(s: Session, sid: string, files: map<FileKey, Bytes>, cs: seq<Chunk>): (r: seq<Chunk>)
    ensures forall c :: c in r <==> c in cs && IsMissing(s, sid, files, c)
  {
    if cs == [] then []
    else
      var c := cs[|cs| - 1];
      assert cs == cs[..|cs| - 1] + [c];
      Missing(s, sid, files, cs[..|cs| - 1]) + if IsMissing(s, sid, files, c) then [c] else []
  }

  // Completing.

  function Assemble(s: Session, sid: string, files: map<FileKey, Bytes>, cs: seq<Chunk>): Attempt<Bytes> {
    if cs == [] then Ok([])
    else
      var c := cs[|cs| - 1];
      match Assemble(s, sid, files, cs[..|cs| - 1])
      case Err(e) => Err(e)
      case Ok(b) =>
        if c.size == 0 then Ok(b)
        else if c.id !in s.chunkFiles || FileKey(sid, c.id) !in files then Err(Incomplete)
        else if |files[FileKey(sid, c.id)]| != c.size then Err(ChunkSizeMismatch)
        else Ok(b + files[FileKey(sid, c.id)])
  }

  predicate OffsetLeq(a: Chunk, b: Chunk) {
    a.offset <= b.offset
  }

  /** The bytes a finished upload yields. */
  function Finished(s: Session, sid: string, files: map<FileKey, Bytes>): Attempt<Bytes> {
    match Assemble(s, sid, files, Sort(s.chunks, OffsetLeq))
    case Err(e) => Err(e)
    case Ok(b) =>
      if |b| != s.size then Err(BlobSizeMismatch)
      else if Sha256(b) != s.hash then Err(BlobHashMismatch)
      else Ok(b)
  }

  function WithoutFiles(files: map<FileKey, Bytes>, gone: set<string>, sessions: map<string, Session>): map<FileKey, Bytes> {
    map k | k in files && !(k.session in gone && k.session in sessions && k.chunk in sessions[k.session].chunkFiles) :: files[k]
  }

  function Expired(u: Uploads, now: int): set<string> {
    set s | s in u.sessions && u.sessions[s].expires < now
  }

  /** Expired sessions are dropped together with their chunk files. */
  function Purge(u: Uploads, now: int): Uploads {
    u.(sessions := u.sessions - Expired(u, now), files := WithoutFiles(u.files, Expired(u, now), u.sessions))
  }

  datatype Claim = Claim(sid: string, blob: string, size: nat, hash: Hash, uploaded: seq<ChunkId>)
  datatype Status = AlreadyExists | StillMissing(chunks: seq<Chunk>) | Accepted

  function ClaimError(s: Session, vault: string, q: Claim): Option<Error> {
    if s.vault != vault || s.blob != q.blob || s.size != q.size || s.hash != q.hash then Some(SessionMismatch)
    else if exists id :: id in q.uploaded && ChunkById(s.chunks, id).None? then Some(InvalidRequest)
    else None
  }

  /** One upload of a completion call, on the call's working state. */
  function CompleteOne(u: Uploads, vault: string, q: Claim): (Uploads, Attempt<Status>) {
    if q.blob in u.blobs then
      if u.blobs[q.blob].size != q.size || u.blobs[q.blob].hash != q.hash then (u, Err(MetadataMismatch)) else (u, Ok(AlreadyExists))
    else if q.sid !in u.sessions then (u, Err(SessionNotFound))
    else
      var s := u.sessions[q.sid];
      var error := ClaimError(s, vault, q);
      if error.Some? then (u, Err(error.value))
      else
        var missing := Missing(s, q.sid, u.files, s.chunks);
        if missing != [] then (u, Ok(StillMissing(missing)))
        else
          match Finished(s, q.sid, u.files)
          case Err(e) => (u, Err(e))
          case Ok(b) =>
            (Uploads(u.sessions - {q.sid}, u.blobs[s.blob := Blob(s.vault, |b|, s.contentHash, Sha256(b))],
                     WithoutFiles(u.files, {q.sid}, u.sessions), u.objects[ObjectKey(s.vault, s.blob) := b]),
             Ok(Accepted))
  }

  /** A batch of completions stops at the first error. */
  function CompleteAll(u: Uploads, vault: string, qs: seq<Claim>): (Uploads, Attempt<seq<Status>>) {
    if qs == [] then (u, Ok([]))
    else
      var (w, done) := CompleteAll(u, vault, qs[..|qs| - 1]);
      if done.Err? then (w, done)
      else
        var (x, status) := CompleteOne(w, vault, qs[|qs| - 1]);
        if status.Err? then (x, Err(status.error)) else (x, Ok(done.value + [status.value]))
  }

  predicate BadBatch(vault: string, qs: seq<Claim>) {
    || vault == "" || qs == []
    || (exists i, j :: 0 <= i < j < |qs| && qs[i].sid == qs[j].sid)
    || (exists q :: q in qs && (q.sid == "" || q.blob == "" || q.uploaded == [] || exists i, j :: 0 <= i < j < |q.uploaded| && q.uploaded[i] == q.uploaded[j]))
  }

  /** The records are saved only if the whole batch went through; files and objects already written stay. */
  function Complete(u: Uploads, vault: string, qs: seq<Claim>, now: int): (Uploads, Attempt<seq<Status>>) {
    if BadBatch(vault, qs) then (u, Err(InvalidRequest))
    else
      var (w, done) := CompleteAll(Purge(u, now), vault, qs);
      if done.Ok? then (w, done) else (w.(sessions := u.sessions, blobs := u.blobs), done)
  }

  // Opening.

  datatype Opening = Opening(vault: string, blob: string, size: int, contentHash: string, hash: Hash, chunkSize: int,
                             chunks: Option<seq<Chunk>>, device: string)

  predicate SameUpload(s: Session, q: Opening, now: int) {
    && s.expires >= now && s.vault == q.vault && s.blob == q.blob && s.size == q.size && s.contentHash == q.contentHash
    && s.hash == q.hash && s.chunkSize == q.chunkSize && s.device == q.device
  }

  /** A request may list the chunks, but only as the server would cut them. */
  predicate BadOpening(q: Opening) {
    || q.vault == "" || q.blob == "" || q.contentHash == "" || q.size < 0 || q.chunkSize <= 0
    || (q.chunks.Some? && Ok(q.chunks.value) != ExpectedChunks(q.blob, q.size, q.chunkSize))
  }

  predicate Clashes(blobs: map<string, Blob>, q: Opening) {
    q.blob in blobs && (blobs[q.blob].size != q.size || blobs[q.blob].contentHash != q.contentHash || blobs[q.blob].hash != q.hash)
  }

  function NewSession(q: Opening, stored: bool, now: int): Session
    requires !BadOpening(q)
  {
    var cs := ExpectedChunks(q.blob, q.size, q.chunkSize).value;
    Session(q.vault, q.blob, q.size, q.contentHash, q.hash, q.chunkSize, cs,
            if stored then Map((c: Chunk) => c.id, cs) else [], {}, q.device, now + SESSION_MS)
  }

  /** Opening resumes a matching session or starts one under the new id `sid`. */
  function Open(u: Uploads, q: Opening, sid: string, now: int): Uploads {
    if BadOpening(q) then u
    else
      var w := Purge(u, now);
      if Clashes(w.blobs, q) then u.(files := w.files)
      else if exists s :: s in w.sessions && SameUpload(w.sessions[s], q, now) then w
      else w.(sessions := w.sessions[sid := NewSession(q, q.blob in w.blobs, now)])
  }

  datatype Request =
    | OpenReq(opening: Opening, sid: string, now: int)
    | PutReq(sid: string, id: ChunkId, offset: int, size: int, payload: Bytes, now: int)
    | CompleteReq(vault: string, claims: seq<Claim>, now: int)

  function Serve(u: Uploads, q: Request): Uploads {
    match q
    case OpenReq(opening, sid, now) => Open(u, opening, sid, now)
    case PutReq(sid, id, offset, size, payload, now) => Put(u, sid, id, offset, size, payload, now)
    case CompleteReq(vault, claims, now) => Complete(u, vault, claims, now).0
  }

  function Serving(u: Uploads, qs: seq<Request>): Uploads
    decreases |qs|
  {
    if qs == [] then u else Serving(Serve(u, qs[0]), qs[1..])
  }
}
