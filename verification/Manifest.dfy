/** The server's manifest canonicalisation. */
module Manifest {
  import opened Basics
  import opened Ordering

  datatype FileEntry = FileEntry(fileId: string, path: string, contentHash: string, blobId: string, size: nat, mtime: nat)
  datatype Tombstone = Tombstone(fileId: string, deletedRevision: Option<int>, deletedAt: int, deleteSeq: int,
                                 lastPath: Option<string>, deletedBy: Option<string>)

  /** The summary hash, free in the canonical payload it is taken over. */
  datatype Summary = Unset | SummaryOf(revision: nat, files: seq<FileEntry>, tombstones: seq<Tombstone>)

  datatype Manifest = Manifest(vault: string, base: nat, revision: nat, createdBy: string, createdAt: nat,
                               files: seq<FileEntry>, tombstones: seq<Tombstone>, summary: Summary)

  datatype ManifestError = EmptyVault | EmptyCreator | EmptyPath | EmptyTombstoneId | EmptyLastPath
  datatype Finalized = Final(manifest: Manifest) | Invalid(error: ManifestError)

  /** NFC normalisation, as far as it matters here. */
  type Nfc = string -> string

  ghost predicate NfcOk(nfc: Nfc) {
    (forall s {:trigger nfc(nfc(s))} :: nfc(nfc(s)) == nfc(s)) && (forall s :: s != "" ==> nfc(s) != "")
  }

  predicate FileLeq(a: FileEntry, b: FileEntry) {
    if a.path == b.path then StrLeq(a.fileId, b.fileId) else StrLeq(a.path, b.path)
  }

  predicate TombstoneLeq(a: Tombstone, b: Tombstone) {
    if a.deleteSeq == b.deleteSeq then StrLeq(a.fileId, b.fileId) else a.deleteSeq < b.deleteSeq
  }

  function NormalFile(nfc: Nfc): FileEntry -> FileEntry {
    (e: FileEntry) => e.(path := nfc(e.path))
  }

  function NormalTombstone(nfc: Nfc, revision: nat): Tombstone -> Tombstone {
    (t: Tombstone) => t.(
      deletedRevision := if t.deletedRevision.None? then Some(revision) else t.deletedRevision,
      lastPath := if t.lastPath.None? then None else Some(nfc(t.lastPath.value)))
  }

  function FirstError(m: Manifest): Option<ManifestError> {
    if m.vault == "" then Some(EmptyVault)
    else if m.createdBy == "" then Some(EmptyCreator)
    else if exists e :: e in m.files && e.path == "" then Some(EmptyPath)
    else TombstoneError(m.tombstones)
  }

  function TombstoneError(ts: seq<Tombstone>): Option<ManifestError> {
    if ts == [] then None
    else if ts[0].fileId == "" then Some(EmptyTombstoneId)
    else if ts[0].lastPath == Some("") then Some(EmptyLastPath)
    else TombstoneError(ts[1..])
  }

  function Files(nfc: Nfc, m: Manifest): seq<FileEntry> {
    Sort(Map(NormalFile(nfc), m.files), FileLeq)
  }

  function Tombstones(nfc: Nfc, m: Manifest, revision: nat): seq<Tombstone> {
    Sort(Map(NormalTombstone(nfc, revision), m.tombstones), TombstoneLeq)
  }

  function Finalize(nfc: Nfc, m: Manifest, revision: nat): Finalized {
    var error := FirstError(m);
    if error.Some? then Invalid(error.value)
    else
      var files, tombstones := Files(nfc, m), Tombstones(nfc, m, revision);
      Final(m.(revision := revision, files := files, tombstones := tombstones,
               summary := SummaryOf(revision, files, tombstones)))
  }

  method NormalizeFiles(nfc: Nfc, files: seq<FileEntry>) returns (r: Option<seq<FileEntry>>)
    ensures r == if exists e :: e in files && e.path == "" then None else Some(Map(NormalFile(nfc), files))
  {
    var normal: seq<FileEntry> := [];
    for i := 0 to |files|
      invariant forall k :: 0 <= k < i ==> files[k].path != ""
      invariant |normal| == i && forall k :: 0 <= k < i ==> normal[k] == NormalFile(nfc)(files[k])
    {
      if files[i].path == "" {
        return None;
      }
      normal := normal + [files[i].(path := nfc(files[i].path))];
    }
    assert normal == Map(NormalFile(nfc), files);
    r := Some(normal);
  }

  method NormalizeTombstones(nfc: Nfc, ts: seq<Tombstone>, revision: nat) returns (error: Option<ManifestError>, normal: seq<Tombstone>)
    ensures error == TombstoneError(ts)
    ensures error.None? ==> normal == Map(NormalTombstone(nfc, revision), ts)
  {
    normal := [];
    assert ts[0..] == ts;
    for i := 0 to |ts|
      invariant TombstoneError(ts) == TombstoneError(ts[i..])
      invariant |normal| == i && forall k :: 0 <= k < i ==> normal[k] == NormalTombstone(nfc, revision)(ts[k])
    {
      var t := ts[i];
      assert ts[i..][0] == t && ts[i..][1..] == ts[i + 1..];
      if t.fileId == "" {
        return Some(EmptyTombstoneId), [];
      }
      if t.deletedRevision.None? {
        t := t.(deletedRevision := Some(revision));
      }
      if t.lastPath.Some? {
        if t.lastPath.value == "" {
          return Some(EmptyLastPath), [];
        }
        t := t.(lastPath := Some(nfc(t.lastPath.value)));
      }
      normal := normal + [t];
    }
    assert normal == Map(NormalTombstone(nfc, revision), ts);
    error := None;
  }

  /** The finalisation as it runs: normalise entry by entry, then sort, then hash. */
  method FinalizePayload(nfc: Nfc, m: Manifest, revision: nat) returns (r: Finalized)
    ensures r == Finalize(nfc, m, revision)
  {
    hide Sort, Ordering.Map, TombstoneError;
    if m.vault == "" {
      return Invalid(EmptyVault);
    }
    if m.createdBy == "" {
      return Invalid(EmptyCreator);
    }
    var normal := NormalizeFiles(nfc, m.files);
    if normal.None? {
      return Invalid(EmptyPath);
    }
    var error, tombstones := NormalizeTombstones(nfc, m.tombstones, revision);
    if error.Some? {
      return Invalid(error.value);
    }
    var files := Sort(normal.value, FileLeq);
    tombstones := Sort(tombstones, TombstoneLeq);
    r := Final(m.(revision := revision, files := files, tombstones := tombstones,
                  summary := SummaryOf(revision, files, tombstones)));
  }

  lemma FileOrder()
    ensures Preorder(FileLeq)
  {
    forall x, y
      ensures FileLeq(x, y) || FileLeq(y, x)
    {
      StrTotal(x.path, y.path);
      StrTotal(x.fileId, y.fileId);
    }
    forall x, y, z | FileLeq(x, y) && FileLeq(y, z)
      ensures FileLeq(x, z)
    {
      if x.path == y.path == z.path {
        StrTransitive(x.fileId, y.fileId, z.fileId);
      } else {
        if x.path != y.path && y.path != z.path { StrTransitive(x.path, y.path, z.path); }
        StrTotal(x.path, y.path);
      }
    }
  }

  lemma TombstoneOrder()
    ensures Preorder(TombstoneLeq)
  {
    forall x, y
      ensures TombstoneLeq(x, y) || TombstoneLeq(y, x)
    {
      StrTotal(x.fileId, y.fileId);
    }
    forall x, y, z | TombstoneLeq(x, y) && TombstoneLeq(y, z)
      ensures TombstoneLeq(x, z)
    {
      if x.deleteSeq == y.deleteSeq == z.deleteSeq { StrTransitive(x.fileId, y.fileId, z.fileId); }
    }
  }

  /** Normalised, complete and ordered. */
  ghost predicate NormalForm(nfc: Nfc, m: Manifest) {
    && FirstError(m).None?
    && (forall e :: e in m.files ==> nfc(e.path) == e.path)
    && (forall t :: t in m.tombstones ==> NormalAt(nfc, t))
    && Sorted(m.files, FileLeq) && Sorted(m.tombstones, TombstoneLeq)
  }

  /** What every stored manifest is. */
  ghost predicate Canonical(nfc: Nfc, m: Manifest) {
    NormalForm(nfc, m) && m.summary == SummaryOf(m.revision, m.files, m.tombstones)
  }

  lemma {:induction false} NoTombstoneError(ts: seq<Tombstone>)
    ensures TombstoneError(ts).None? <==> forall t :: t in ts ==> t.fileId != "" && t.lastPath != Some("")
  {
    if ts != [] {
      NoTombstoneError(ts[1..]);
      assert ts == [ts[0]] + ts[1..];
    }
  }

  /** What holds of every image holds throughout the sorted list of images. */
  lemma SortedAll<T, U>(f: T -> U, xs: seq<T>, leq: (U, U) -> bool, p: U -> bool)
    requires forall x :: x in xs ==> p(f(x))
    ensures forall y :: y in Sort(Map(f, xs), leq) ==> p(y)
  {
    var all := Map(f, xs);
    var sorted := Sort(all, leq);
    forall y | y in sorted
      ensures p(y)
    {
      SameElements(sorted, all);
      assert y in multiset(sorted) && y in multiset(all);
      var i :| 0 <= i < |all| && all[i] == y;
      assert xs[i] in xs;
    }
  }

  lemma NormalFileAt(nfc: Nfc, e: FileEntry)
    requires NfcOk(nfc) && e.path != ""
    ensures var n := NormalFile(nfc)(e);
            nfc(n.path) == n.path && n.path != ""
  {
    assert nfc(nfc(e.path)) == nfc(e.path);
  }

  lemma FilesNormal(nfc: Nfc, m: Manifest)
    requires NfcOk(nfc) && FirstError(m).None?
    ensures forall e :: e in Files(nfc, m) ==> nfc(e.path) == e.path && e.path != ""
    ensures Sorted(Files(nfc, m), FileLeq)
  {
    FileOrder();
    SortSorts(Map(NormalFile(nfc), m.files), FileLeq);
    assert forall e :: e in m.files ==> e.path != "";
    forall x | x in m.files { NormalFileAt(nfc, x); }
    SortedAll(NormalFile(nfc), m.files, FileLeq, (e: FileEntry) => nfc(e.path) == e.path && e.path != "");
    hide Sort, Ordering.Map, NfcOk, NormalFile, FirstError, Sorted, Preorder, FileLeq;
  }

  predicate NormalAt(nfc: Nfc, t: Tombstone) {
    && t.deletedRevision.Some? && t.fileId != "" && t.lastPath != Some("")
    && (t.lastPath.Some? ==> nfc(t.lastPath.value) == t.lastPath.value)
  }

  lemma NormalTombstoneAt(nfc: Nfc, revision: nat, t: Tombstone)
    requires NfcOk(nfc) && t.fileId != "" && t.lastPath != Some("")
    ensures NormalAt(nfc, NormalTombstone(nfc, revision)(t))
  {
    if t.lastPath.Some? { assert nfc(nfc(t.lastPath.value)) == nfc(t.lastPath.value); }
  }

  lemma TombstonesNormal(nfc: Nfc, m: Manifest, revision: nat)
    requires NfcOk(nfc) && FirstError(m).None?
    ensures forall t :: t in Tombstones(nfc, m, revision) ==> NormalAt(nfc, t)
    ensures Sorted(Tombstones(nfc, m, revision), TombstoneLeq)
  {
    hide Sort, Ordering.Map, NfcOk, NormalTombstone, NormalAt, Sorted, Preorder, TombstoneLeq, TombstoneError;
    TombstoneOrder();
    NoTombstoneError(m.tombstones);
    SortSorts(Map(NormalTombstone(nfc, revision), m.tombstones), TombstoneLeq);
    forall x | x in m.tombstones { NormalTombstoneAt(nfc, revision, x); }
    SortedAll(NormalTombstone(nfc, revision), m.tombstones, TombstoneLeq, (t: Tombstone) => NormalAt(nfc, t));
  }

  /** Finalisation always yields a canonical manifest at its revision. */
  lemma FinalizeCanonical(nfc: Nfc, m: Manifest, revision: nat)
    requires NfcOk(nfc) && Finalize(nfc, m, revision).Final?
    ensures var f := Finalize(nfc, m, revision).manifest;
            Canonical(nfc, f) && f.revision == revision && f.base == m.base
  {
    FilesNormal(nfc, m);
    TombstonesNormal(nfc, m, revision);
    hide Files, Tombstones;
    NoTombstoneError(Tombstones(nfc, m, revision));
  }

  /** Main result: finalising what is already canonical at a revision changes nothing. */
  lemma FinalizeFixed(nfc: Nfc, m: Manifest, revision: nat)
    requires NormalForm(nfc, m)
    ensures var f := Finalize(nfc, m, revision);
            f.Final? && f.manifest.files == m.files && f.manifest.tombstones == m.tombstones
    ensures Canonical(nfc, m) && revision == m.revision ==> Finalize(nfc, m, revision) == Final(m)
  {
    assert Map(NormalFile(nfc), m.files) == m.files;
    TombstonesFixed(nfc, m, revision);
    SortStable(m.files, FileLeq);
    SortStable(m.tombstones, TombstoneLeq);
    hide Sort, Ordering.Map, Sorted;
  }

  lemma TombstonesFixed(nfc: Nfc, m: Manifest, revision: nat)
    requires NormalForm(nfc, m)
    ensures Map(NormalTombstone(nfc, revision), m.tombstones) == m.tombstones
  {
    forall i | 0 <= i < |m.tombstones|
      ensures NormalTombstone(nfc, revision)(m.tombstones[i]) == m.tombstones[i]
    {
      assert m.tombstones[i] in m.tombstones;
    }
  }

  lemma FinalizeIdempotent(nfc: Nfc, m: Manifest, revision: nat)
    requires NfcOk(nfc) && Finalize(nfc, m, revision).Final?
    ensures Finalize(nfc, Finalize(nfc, m, revision).manifest, revision) == Finalize(nfc, m, revision)
  {
    FinalizeCanonical(nfc, m, revision);
    FinalizeFixed(nfc, Finalize(nfc, m, revision).manifest, revision);
  }

  /** No file id occurs twice. */
  ghost predicate UniqueIds(m: Manifest) {
    && (forall i, j :: 0 <= i < j < |m.files| ==> m.files[i].fileId != m.files[j].fileId)
    && (forall i, j :: 0 <= i < j < |m.tombstones| ==> m.tombstones[i].fileId != m.tombstones[j].fileId)
  }

  lemma FilesKeyed(nfc: Nfc, m: Manifest)
    requires UniqueIds(m)
    ensures Keyed(Files(nfc, m), FileLeq)
  {
    var all := Map(NormalFile(nfc), m.files);
    SameElements(Files(nfc, m), all);
    forall x, y | x in all && y in all && FileLeq(x, y) && FileLeq(y, x)
      ensures x == y
    {
      StrTotal(x.path, y.path);
      StrTotal(x.fileId, y.fileId);
      var i :| 0 <= i < |all| && all[i] == x;
      var j :| 0 <= j < |all| && all[j] == y;
      assert m.files[i].fileId == m.files[j].fileId;
    }
  }

  lemma TombstonesKeyed(nfc: Nfc, m: Manifest, revision: nat)
    requires UniqueIds(m)
    ensures Keyed(Tombstones(nfc, m, revision), TombstoneLeq)
  {
    var all := Map(NormalTombstone(nfc, revision), m.tombstones);
    SameElements(Tombstones(nfc, m, revision), all);
    forall x, y | x in all && y in all && TombstoneLeq(x, y) && TombstoneLeq(y, x)
      ensures x == y
    {
      StrTotal(x.fileId, y.fileId);
      var i :| 0 <= i < |all| && all[i] == x;
      var j :| 0 <= j < |all| && all[j] == y;
      assert m.tombstones[i].fileId == m.tombstones[j].fileId;
    }
  }

  lemma FilesOrderless(nfc: Nfc, a: Manifest, b: Manifest)
    requires UniqueIds(a) && multiset(a.files) == multiset(b.files)
    ensures Files(nfc, a) == Files(nfc, b)
  {
    FileOrder();
    FilesKeyed(nfc, a);
    MapPermutes(NormalFile(nfc), a.files, b.files);
    SortSorts(Map(NormalFile(nfc), a.files), FileLeq);
    SortSorts(Map(NormalFile(nfc), b.files), FileLeq);
    hide Sort, Sorted, Keyed, Ordering.Map, UniqueIds;
    SortedUnique(Files(nfc, a), Files(nfc, b), FileLeq);
  }

  lemma TombstonesOrderless(nfc: Nfc, a: Manifest, b: Manifest, revision: nat)
    requires UniqueIds(a) && multiset(a.tombstones) == multiset(b.tombstones)
    ensures Tombstones(nfc, a, revision) == Tombstones(nfc, b, revision)
  {
    TombstoneOrder();
    TombstonesKeyed(nfc, a, revision);
    MapPermutes(NormalTombstone(nfc, revision), a.tombstones, b.tombstones);
    SortSorts(Map(NormalTombstone(nfc, revision), a.tombstones), TombstoneLeq);
    SortSorts(Map(NormalTombstone(nfc, revision), b.tombstones), TombstoneLeq);
    hide Sort, Sorted, Keyed, Ordering.Map, UniqueIds;
    SortedUnique(Tombstones(nfc, a, revision), Tombstones(nfc, b, revision), TombstoneLeq);
  }

  /** Main result: the order in which a client lists its files and tombstones leaves no trace. */
  lemma FinalizeOrderless(nfc: Nfc, a: Manifest, b: Manifest, revision: nat)
    requires UniqueIds(a) && b == a.(files := b.files, tombstones := b.tombstones)
    requires multiset(a.files) == multiset(b.files) && multiset(a.tombstones) == multiset(b.tombstones)
    requires Finalize(nfc, a, revision).Final?
    ensures Finalize(nfc, b, revision) == Finalize(nfc, a, revision)
  {
    FilesOrderless(nfc, a, b);
    TombstonesOrderless(nfc, a, b, revision);
    ErrorsOrderless(a, b);
    hide Files, Tombstones, UniqueIds, FirstError;
  }

  lemma ErrorsOrderless(a: Manifest, b: Manifest)
    requires b == a.(files := b.files, tombstones := b.tombstones) && FirstError(a).None?
    requires multiset(a.files) == multiset(b.files) && multiset(a.tombstones) == multiset(b.tombstones)
    ensures FirstError(b).None?
  {
    SameElements(a.files, b.files);
    SameElements(a.tombstones, b.tombstones);
    NoTombstoneError(a.tombstones);
    NoTombstoneError(b.tombstones);
  }

  /** `u` is the file entry `e` under its normalised path. */
  predicate FileStored(nfc: Nfc, e: FileEntry, u: FileEntry) {
    && u.path == nfc(e.path) && u.fileId == e.fileId && u.contentHash == e.contentHash && u.blobId == e.blobId
    && u.size == e.size && u.mtime == e.mtime
  }

  /** `u` is the tombstone `t` as `revision` stores it: of the same file, deletion time and number, with the listed revision
      of the deletion, or `revision` itself where none is listed, and the normalised last path. */
  predicate TombstoneStored(nfc: Nfc, revision: nat, t: Tombstone, u: Tombstone) {
    && u.fileId == t.fileId && u.deletedAt == t.deletedAt && u.deleteSeq == t.deleteSeq && u.deletedBy == t.deletedBy
    && (t.deletedRevision.Some? ==> u.deletedRevision == t.deletedRevision)
    && (t.deletedRevision.None? ==> u.deletedRevision == Some(revision))
    && (t.lastPath.Some? ==> u.lastPath == Some(nfc(t.lastPath.value))) && (t.lastPath.None? ==> u.lastPath.None?)
  }

  lemma MapAll<T, U>(f: T -> U, xs: seq<T>, p: (T, U) -> bool)
    requires forall x :: x in xs ==> p(x, f(x))
    ensures forall i :: 0 <= i < |xs| ==> p(xs[i], Map(f, xs)[i])
  {
  }

  /** Main result: finalisation keeps every entry: the files and tombstones of the result are, up to order, the stored forms
      `fs` and `ts` of the listed ones, each as often as it was listed, and nothing else of the manifest changes but
      revision and summary. */
  lemma FinalizeConserves(nfc: Nfc, m: Manifest, revision: nat) returns (fs: seq<FileEntry>, ts: seq<Tombstone>)
    requires Finalize(nfc, m, revision).Final?
    ensures var f := Finalize(nfc, m, revision).manifest;
            && multiset(f.files) == multiset(fs) && multiset(f.tombstones) == multiset(ts)
            && f == m.(revision := revision, files := f.files, tombstones := f.tombstones, summary := f.summary)
    ensures |fs| == |m.files| && forall i :: 0 <= i < |fs| ==> FileStored(nfc, m.files[i], fs[i])
    ensures |ts| == |m.tombstones| && forall i :: 0 <= i < |ts| ==> TombstoneStored(nfc, revision, m.tombstones[i], ts[i])
  {
    fs, ts := Map(NormalFile(nfc), m.files), Map(NormalTombstone(nfc, revision), m.tombstones);
    MapAll(NormalFile(nfc), m.files, (e, u) => FileStored(nfc, e, u));
    MapAll(NormalTombstone(nfc, revision), m.tombstones, (t, u) => TombstoneStored(nfc, revision, t, u));
    hide Ordering.Map, FirstError, NormalFile, NormalTombstone, FileStored, TombstoneStored, Sort;
  }

  /** Main result: a finalised manifest lists its files by path and its tombstones by deletion number, ids breaking ties. */
  lemma FinalizeOrders(nfc: Nfc, m: Manifest, revision: nat, i: nat, j: nat)
    requires Finalize(nfc, m, revision).Final? && i < j
    ensures var fs := Finalize(nfc, m, revision).manifest.files;
            j < |fs| ==> if fs[i].path == fs[j].path then StrLeq(fs[i].fileId, fs[j].fileId) else StrLeq(fs[i].path, fs[j].path)
    ensures var ts := Finalize(nfc, m, revision).manifest.tombstones;
            j < |ts| ==> ts[i].deleteSeq <= ts[j].deleteSeq &&
                         (ts[i].deleteSeq == ts[j].deleteSeq ==> StrLeq(ts[i].fileId, ts[j].fileId))
  {
    FileOrder();
    TombstoneOrder();
    SortSorts(Map(NormalFile(nfc), m.files), FileLeq);
    SortSorts(Map(NormalTombstone(nfc, revision), m.tombstones), TombstoneLeq);
    hide Sort, Ordering.Map, FirstError, NormalFile, NormalTombstone, Preorder, StrLeq;
    assert j < |Files(nfc, m)| ==> FileLeq(Files(nfc, m)[i], Files(nfc, m)[j]);
    assert j < |Tombstones(nfc, m, revision)| ==> TombstoneLeq(Tombstones(nfc, m, revision)[i], Tombstones(nfc, m, revision)[j]);
  }

  /** Every stored tombstone comes from a listed one, and every listed one is stored. */
  lemma TombstonesFrom(nfc: Nfc, m: Manifest, revision: nat)
    requires Finalize(nfc, m, revision).Final?
    ensures var us := Finalize(nfc, m, revision).manifest.tombstones;
            && (forall u :: u in us ==> exists t :: t in m.tombstones && TombstoneStored(nfc, revision, t, u))
            && (forall t :: t in m.tombstones ==> exists u :: u in us && TombstoneStored(nfc, revision, t, u))
  {
    var us := Finalize(nfc, m, revision).manifest.tombstones;
    var fs, ts := FinalizeConserves(nfc, m, revision);
    hide Finalize, TombstoneStored;
    SameElements(us, ts);
    forall u | u in us
      ensures exists t :: t in m.tombstones && TombstoneStored(nfc, revision, t, u)
    {
      var i :| 0 <= i < |ts| && ts[i] == u;
      assert m.tombstones[i] in m.tombstones;
    }
    forall t | t in m.tombstones
      ensures exists u :: u in us && TombstoneStored(nfc, revision, t, u)
    {
      var i :| 0 <= i < |m.tombstones| && m.tombstones[i] == t;
      assert ts[i] in ts;
    }
  }

  /** Exactly which manifests finalise. */
  lemma FinalizesIff(nfc: Nfc, m: Manifest, revision: nat)
    ensures Finalize(nfc, m, revision).Final? <==>
              && m.vault != "" && m.createdBy != "" && (forall e :: e in m.files ==> e.path != "")
              && forall t :: t in m.tombstones ==> t.fileId != "" && t.lastPath != Some("")
  {
    NoTombstoneError(m.tombstones);
    hide Files, Tombstones, TombstoneError;
  }

  /** The first tombstone without an id or with an empty last path decides. */
  lemma {:induction false} TombstoneErrorIs(ts: seq<Tombstone>, i: nat)
    requires i < |ts| && (ts[i].fileId == "" || ts[i].lastPath == Some(""))
    requires forall j :: 0 <= j < i ==> ts[j].fileId != "" && ts[j].lastPath != Some("")
    ensures TombstoneError(ts) == Some(if ts[i].fileId == "" then EmptyTombstoneId else EmptyLastPath)
  {
    if i > 0 { TombstoneErrorIs(ts[1..], i - 1); }
  }

  /** Why a manifest does not finalise: no vault, no creator, an empty path, or else the first tombstone `i` that is not complete. */
  lemma FinalizeRefuses(nfc: Nfc, m: Manifest, revision: nat, i: nat)
    requires i < |m.tombstones| ==>
      && (m.tombstones[i].fileId == "" || m.tombstones[i].lastPath == Some(""))
      && forall j :: 0 <= j < i ==> m.tombstones[j].fileId != "" && m.tombstones[j].lastPath != Some("")
    ensures m.vault == "" ==> Finalize(nfc, m, revision) == Invalid(EmptyVault)
    ensures m.vault != "" && m.createdBy == "" ==> Finalize(nfc, m, revision) == Invalid(EmptyCreator)
    ensures m.vault != "" && m.createdBy != "" && (exists e :: e in m.files && e.path == "") ==> Finalize(nfc, m, revision) == Invalid(EmptyPath)
    ensures m.vault != "" && m.createdBy != "" && (forall e :: e in m.files ==> e.path != "") && i < |m.tombstones| ==>
              Finalize(nfc, m, revision) == Invalid(if m.tombstones[i].fileId == "" then EmptyTombstoneId else EmptyLastPath)
  {
    if i < |m.tombstones| { TombstoneErrorIs(m.tombstones, i); }
    hide Files, Tombstones, TombstoneError;
  }
}
