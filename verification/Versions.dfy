/** The file-version store of a vault: records, the index by file, retention and pages. */
module Versions {
  import opened Basics
  import opened Ordering

  datatype VersionRecord = VersionRecord(id: string, fileId: string, revision: nat, blobId: string, source: string,
                                         path: string, contentHash: string, size: nat, mtime: nat, createdAt: nat,
                                         createdBy: string, pinned: bool, caption: Option<string>, note: Option<string>)

  datatype Store = Store(records: map<string, VersionRecord>, byFile: map<string, seq<string>>,
                         keepLatest: int, keepPinned: bool)

  const DEFAULT_KEEP_LATEST := 50

  /** Newest first; the id breaks ties. */
  predicate NewerLeq(a: VersionRecord, b: VersionRecord) {
    if a.revision == b.revision then StrLeq(a.id, b.id) else a.revision > b.revision
  }

  function Ids(rs: seq<VersionRecord>): (ids: seq<string>)
    ensures |ids| == |rs| && forall i :: 0 <= i < |rs| ==> ids[i] == rs[i].id
  {
    if rs == [] then [] else [rs[0].id] + Ids(rs[1..])
  }

  /** The stored records of a list of ids. */
  function Pick(ids: seq<string>, records: map<string, VersionRecord>): (rs: seq<VersionRecord>)
    ensures forall r :: r in rs ==> exists id :: id in ids && id in records && r == records[id]
    ensures forall id :: id in ids && id in records ==> records[id] in rs
  {
    if ids == [] then []
    else (if ids[0] in records then [records[ids[0]]] else []) + Pick(ids[1..], records)
  }

  function Room(s: Store): nat {
    if s.keepLatest <= 0 then DEFAULT_KEEP_LATEST else s.keepLatest
  }

  /** A version that counts against the retention limit. */
  predicate Regular(r: VersionRecord, keepPinned: bool) {
    !(keepPinned && r.pinned)
  }

  /** Which of a newest-first list survive when `room` regular versions may stay. */
  function Survivors(rs: seq<VersionRecord>, keepPinned: bool, room: nat): (kept: seq<VersionRecord>)
    ensures forall r :: r in kept ==> r in rs
  {
    if rs == [] then []
    else if !Regular(rs[0], keepPinned) then [rs[0]] + Survivors(rs[1..], keepPinned, room)
    else if room > 0 then [rs[0]] + Survivors(rs[1..], keepPinned, room - 1)
    else Survivors(rs[1..], keepPinned, room)
  }

  /** The ids that do not survive. */
  function Evicted(rs: seq<VersionRecord>, keepPinned: bool, room: nat): set<string> {
    if rs == [] then {}
    else if !Regular(rs[0], keepPinned) then Evicted(rs[1..], keepPinned, room)
    else if room > 0 then Evicted(rs[1..], keepPinned, room - 1)
    else {rs[0].id} + Evicted(rs[1..], keepPinned, room)
  }

  function Listing(s: Store, file: string): seq<VersionRecord> {
    if file in s.byFile then Sort(Pick(s.byFile[file], s.records), NewerLeq) else []
  }

  function ApplyRetention(s: Store, file: string): Store {
    if file !in s.byFile then s
    else
      var rs := Listing(s, file);
      s.(byFile := s.byFile[file := Ids(Survivors(rs, s.keepPinned, Room(s)))],
         records := s.records - Evicted(rs, s.keepPinned, Room(s)))
  }

  ghost predicate KeptSoFar(rs: seq<VersionRecord>, keepPinned: bool, room: nat, i: nat, regular: nat, retained: seq<string>)
    requires i <= |rs| && regular <= room
  {
    Ids(Survivors(rs, keepPinned, room)) == retained + Ids(Survivors(rs[i..], keepPinned, room - regular))
  }

  ghost predicate LeftSoFar(rs: seq<VersionRecord>, keepPinned: bool, room: nat, i: nat, regular: nat,
                            all: map<string, VersionRecord>, records: map<string, VersionRecord>)
    requires i <= |rs| && regular <= room
  {
    all - Evicted(rs, keepPinned, room) == records - Evicted(rs[i..], keepPinned, room - regular)
  }

  lemma KeptNext(rs: seq<VersionRecord>, keepPinned: bool, room: nat, i: nat, regular: nat, retained: seq<string>)
    requires i < |rs| && regular <= room && KeptSoFar(rs, keepPinned, room, i, regular, retained)
    ensures var r := rs[i];
            if !Regular(r, keepPinned) then KeptSoFar(rs, keepPinned, room, i + 1, regular, retained + [r.id])
            else if regular < room then KeptSoFar(rs, keepPinned, room, i + 1, regular + 1, retained + [r.id])
            else KeptSoFar(rs, keepPinned, room, i + 1, regular, retained)
  {
    hide Survivors, Evicted, Ids;
    assert rs[i..][0] == rs[i] && rs[i..][1..] == rs[i + 1..];
    SurvivorStep(rs[i..], keepPinned, room - regular);
  }

  lemma LeftNext(rs: seq<VersionRecord>, keepPinned: bool, room: nat, i: nat, regular: nat,
                 all: map<string, VersionRecord>, records: map<string, VersionRecord>)
    requires i < |rs| && regular <= room && LeftSoFar(rs, keepPinned, room, i, regular, all, records)
    ensures var r := rs[i];
            if !Regular(r, keepPinned) then LeftSoFar(rs, keepPinned, room, i + 1, regular, all, records)
            else if regular < room then LeftSoFar(rs, keepPinned, room, i + 1, regular + 1, all, records)
            else LeftSoFar(rs, keepPinned, room, i + 1, regular, all, records - {r.id})
  {
    hide Survivors, Evicted, Ids;
    assert rs[i..][0] == rs[i] && rs[i..][1..] == rs[i + 1..];
    SurvivorStep(rs[i..], keepPinned, room - regular);
    ghost var rest := Evicted(rs[i + 1..], keepPinned, room - regular);
    assert records - ({rs[i].id} + rest) == (records - {rs[i].id}) - rest;
  }

  /** The retention loop: walks the newest-first list once, dropping what exceeds the limit. */
  method Sweep(rs: seq<VersionRecord>, keepPinned: bool, room: nat, all: map<string, VersionRecord>)
    returns (retained: seq<string>, records: map<string, VersionRecord>)
    ensures retained == Ids(Survivors(rs, keepPinned, room))
    ensures records == all - Evicted(rs, keepPinned, room)
  {
    records, retained := all, [];
    var regular: nat := 0;
    assert rs[0..] == rs;
    for i := 0 to |rs|
      invariant regular <= room
      invariant KeptSoFar(rs, keepPinned, room, i, regular, retained)
      invariant LeftSoFar(rs, keepPinned, room, i, regular, all, records)
    {
      hide KeptSoFar, LeftSoFar;
      KeptNext(rs, keepPinned, room, i, regular, retained);
      LeftNext(rs, keepPinned, room, i, regular, all, records);
      if keepPinned && rs[i].pinned {
        retained := retained + [rs[i].id];
      } else if regular < room {
        retained := retained + [rs[i].id];
        regular := regular + 1;
      } else {
        records := records - {rs[i].id};
      }
    }
    SurvivorEnd(keepPinned, room - regular);
    assert rs[|rs|..] == [];
  }

  method RunRetention(s: Store, file: string) returns (t: Store)
    ensures t == ApplyRetention(s, file)
  {
    if file !in s.byFile {
      return s;
    }
    var rs := Sort(Pick(s.byFile[file], s.records), NewerLeq);
    var retained, records := Sweep(rs, s.keepPinned, Room(s), s.records);
    t := s.(byFile := s.byFile[file := retained], records := records);
  }

  lemma SurvivorStep(rs: seq<VersionRecord>, keepPinned: bool, room: nat)
    requires rs != []
    ensures !Regular(rs[0], keepPinned) ==>
              && Ids(Survivors(rs, keepPinned, room)) == [rs[0].id] + Ids(Survivors(rs[1..], keepPinned, room))
              && Evicted(rs, keepPinned, room) == Evicted(rs[1..], keepPinned, room)
    ensures Regular(rs[0], keepPinned) && room > 0 ==>
              && Ids(Survivors(rs, keepPinned, room)) == [rs[0].id] + Ids(Survivors(rs[1..], keepPinned, room - 1))
              && Evicted(rs, keepPinned, room) == Evicted(rs[1..], keepPinned, room - 1)
    ensures Regular(rs[0], keepPinned) && room == 0 ==>
              && Ids(Survivors(rs, keepPinned, room)) == Ids(Survivors(rs[1..], keepPinned, room))
              && Evicted(rs, keepPinned, room) == {rs[0].id} + Evicted(rs[1..], keepPinned, room)
  {
    var left := if Regular(rs[0], keepPinned) && room > 0 then room - 1 else room;
    var tail := Survivors(rs[1..], keepPinned, left);
    assert ([rs[0]] + tail)[1..] == tail;
  }

  lemma SurvivorEnd(keepPinned: bool, room: nat)
    ensures Ids(Survivors([], keepPinned, room)) == [] && Evicted([], keepPinned, room) == {}
  {
  }

  /** Records a new version and trims its file's history. */
  function Append(s: Store, r: VersionRecord): Store {
    if r.id in s.records then s
    else
      var ids := if r.fileId in s.byFile then s.byFile[r.fileId] else [];
      ApplyRetention(s.(records := s.records[r.id := r],
                        byFile := s.byFile[r.fileId := if r.id in ids then ids else ids + [r.id]]), r.fileId)
  }

  /** `id` is a stored version of file `f`. */
  predicate Owned(s: Store, f: string, id: string) {
    id in s.records && s.records[id].fileId == f && s.records[id].id == id
  }

  predicate Indexed(s: Store, f: string, id: string) {
    f in s.byFile && id in s.byFile[f]
  }

  ghost predicate FileAgrees(s: Store, f: string)
    requires f in s.byFile
  {
    NoDup(s.byFile[f]) && forall id :: id in s.byFile[f] ==> Owned(s, f, id)
  }

  /** The index lists, without duplicates, exactly the records of each file. */
  ghost predicate Agreement(s: Store) {
    && (forall f :: f in s.byFile ==> FileAgrees(s, f))
    && (forall id :: id in s.records ==> Indexed(s, s.records[id].fileId, id))
  }

  ghost predicate DistinctIds(rs: seq<VersionRecord>) {
    forall i, j :: 0 <= i < j < |rs| ==> rs[i].id != rs[j].id
  }

  function Count(rs: seq<VersionRecord>, keepPinned: bool): nat {
    if rs == [] then 0 else (if Regular(rs[0], keepPinned) then 1 else 0) + Count(rs[1..], keepPinned)
  }

  lemma NewerOrder()
    ensures Preorder(NewerLeq)
  {
    forall x, y
      ensures NewerLeq(x, y) || NewerLeq(y, x)
    {
      StrTotal(x.id, y.id);
    }
    forall x, y, z | NewerLeq(x, y) && NewerLeq(y, z)
      ensures NewerLeq(x, z)
    {
      if x.revision == y.revision == z.revision { StrTransitive(x.id, y.id, z.id); }
    }
  }

  lemma RestDistinct(rs: seq<VersionRecord>)
    requires rs != [] && DistinctIds(rs)
    ensures DistinctIds(rs[1..]) && forall r :: r in rs[1..] ==> r.id != rs[0].id
  {
    assert forall i :: 0 <= i < |rs[1..]| ==> rs[1..][i] == rs[i + 1];
  }

  lemma {:induction false} KeptDistinct(rs: seq<VersionRecord>, keepPinned: bool, room: nat)
    requires DistinctIds(rs)
    ensures DistinctIds(Survivors(rs, keepPinned, room))
  {
    if rs != [] {
      RestDistinct(rs);
      var left := if Regular(rs[0], keepPinned) && room > 0 then room - 1 else room;
      KeptDistinct(rs[1..], keepPinned, left);
      var tail := Survivors(rs[1..], keepPinned, left);
      assert forall i :: 0 <= i < |tail| ==> tail[i] in tail && tail[i].id != rs[0].id;
    }
  }

  lemma {:induction false} KeptCount(rs: seq<VersionRecord>, keepPinned: bool, room: nat)
    ensures Count(Survivors(rs, keepPinned, room), keepPinned) <= room
  {
    if rs != [] {
      var left := if Regular(rs[0], keepPinned) && room > 0 then room - 1 else room;
      KeptCount(rs[1..], keepPinned, left);
      var kept, tail := Survivors(rs, keepPinned, room), Survivors(rs[1..], keepPinned, left);
      assert kept == tail || (kept[0] == rs[0] && kept[1..] == tail);
    }
  }

  /** A version is kept or evicted, never both; only regular versions are evicted. */
  lemma {:induction false} KeptOrEvicted(rs: seq<VersionRecord>, keepPinned: bool, room: nat, r: VersionRecord)
    requires DistinctIds(rs) && r in rs
    ensures r in Survivors(rs, keepPinned, room) <==> r.id !in Evicted(rs, keepPinned, room)
    ensures !Regular(r, keepPinned) ==> r in Survivors(rs, keepPinned, room)
  {
    RestDistinct(rs);
    var left := if Regular(rs[0], keepPinned) && room > 0 then room - 1 else room;
    EvictedFrom(rs[1..], keepPinned, left);
    if r == rs[0] {
      assert r !in Survivors(rs[1..], keepPinned, left);
    } else {
      assert rs == [rs[0]] + rs[1..];
      KeptOrEvicted(rs[1..], keepPinned, left, r);
    }
  }

  lemma {:induction false} EvictedFrom(rs: seq<VersionRecord>, keepPinned: bool, room: nat)
    ensures forall id :: id in Evicted(rs, keepPinned, room) ==> exists r :: r in rs && r.id == id
  {
    if rs != [] {
      EvictedFrom(rs[1..], keepPinned, if Regular(rs[0], keepPinned) && room > 0 then room - 1 else room);
      assert rs == [rs[0]] + rs[1..];
    }
  }

  lemma {:induction false} NoRoom(rs: seq<VersionRecord>, keepPinned: bool)
    ensures forall r :: r in Survivors(rs, keepPinned, 0) ==> !Regular(r, keepPinned)
  {
    if rs != [] { NoRoom(rs[1..], keepPinned); }
  }

  /** A kept regular version precedes every evicted one. */
  lemma {:induction false} KeptFirst(rs: seq<VersionRecord>, keepPinned: bool, room: nat, i: nat, j: nat)
    requires DistinctIds(rs) && i < j < |rs|
    requires rs[j] in Survivors(rs, keepPinned, room) && Regular(rs[j], keepPinned)
    ensures rs[i] in Survivors(rs, keepPinned, room)
  {
    RestDistinct(rs);
    var left := if Regular(rs[0], keepPinned) && room > 0 then room - 1 else room;
    assert rs[j] == rs[1..][j - 1] && rs[j] in rs[1..];
    if room == 0 { NoRoom(rs, keepPinned); }
    if i > 0 {
      assert rs[i] == rs[1..][i - 1];
      KeptFirst(rs[1..], keepPinned, left, i - 1, j - 1);
    }
  }

  lemma {:induction false} PickNoDup(ids: seq<string>, records: map<string, VersionRecord>)
    requires NoDup(ids) && forall id :: id in ids && id in records ==> records[id].id == id
    ensures DistinctIds(Pick(ids, records))
  {
    if ids != [] {
      assert ids[0] !in ids[1..];
      assert forall i, j :: 0 <= i < j < |ids[1..]| ==> ids[1..][i] == ids[i + 1] && ids[1..][j] == ids[j + 1];
      PickNoDup(ids[1..], records);
      var tail := Pick(ids[1..], records);
      forall i | 0 <= i < |tail|
        ensures tail[i].id != ids[0]
      {
        assert tail[i] in tail;
      }
    }
  }

  lemma ListingDistinct(s: Store, f: string)
    requires f in s.byFile && FileAgrees(s, f)
    ensures DistinctIds(Listing(s, f)) && Sorted(Listing(s, f), NewerLeq)
    ensures forall r :: r in Listing(s, f) <==> r.id in s.byFile[f] && r.id in s.records && s.records[r.id] == r
  {
    var rs := Pick(s.byFile[f], s.records);
    PickNoDup(s.byFile[f], s.records);
    NewerOrder();
    SortSorts(rs, NewerLeq);
    ListingMembers(s, f);
    assert NoDup(rs);
    NoDupPermutes(rs, Listing(s, f));
    hide Sort, Pick, NoDup;
    DistinctFromNoDup(s, f);
  }

  lemma ListingMembers(s: Store, f: string)
    requires f in s.byFile && FileAgrees(s, f)
    ensures forall r :: r in Listing(s, f) <==> r.id in s.byFile[f] && r.id in s.records && s.records[r.id] == r
  {
    SameElements(Listing(s, f), Pick(s.byFile[f], s.records));
    hide Sort;
  }

  lemma DistinctFromNoDup(s: Store, f: string)
    requires f in s.byFile && FileAgrees(s, f) && NoDup(Listing(s, f))
    ensures DistinctIds(Listing(s, f))
  {
    var rs := Listing(s, f);
    ListingMembers(s, f);
    hide Listing;
    forall i, j | 0 <= i < j < |rs|
      ensures rs[i].id != rs[j].id
    {
      assert rs[i] in rs && rs[j] in rs;
    }
  }

  lemma {:induction false} PickIds(rs: seq<VersionRecord>, records: map<string, VersionRecord>)
    requires forall r :: r in rs ==> r.id in records && records[r.id] == r
    ensures Pick(Ids(rs), records) == rs
  {
    if rs != [] {
      assert rs == [rs[0]] + rs[1..];
      PickIds(rs[1..], records);
    }
  }

  lemma IdsOf(rs: seq<VersionRecord>, id: string)
    ensures id in Ids(rs) <==> exists r :: r in rs && r.id == id
  {
    if id in Ids(rs) {
      var i :| 0 <= i < |rs| && Ids(rs)[i] == id;
      assert rs[i] in rs;
    }
    if r :| r in rs && r.id == id {
      var i :| 0 <= i < |rs| && rs[i] == r;
      assert Ids(rs)[i] == id;
    }
  }

  lemma RetentionIds(s: Store, f: string, id: string)
    requires f in s.byFile && FileAgrees(s, f)
    ensures var t := ApplyRetention(s, f);
            && (id in t.byFile[f] <==> id in s.byFile[f] && id !in Evicted(Listing(s, f), s.keepPinned, Room(s)))
            && (id in Evicted(Listing(s, f), s.keepPinned, Room(s)) ==> id in s.byFile[f])
  {
    var rs := Listing(s, f);
    var kept := Survivors(rs, s.keepPinned, Room(s));
    ListingDistinct(s, f);
    IdsOf(kept, id);
    EvictedFrom(rs, s.keepPinned, Room(s));
    hide Listing;
    if id in s.byFile[f] {
      assert Owned(s, f, id) && s.records[id] in rs;
      KeptOrEvicted(rs, s.keepPinned, Room(s), s.records[id]);
    }
  }

  lemma RetainedNoDup(s: Store, f: string)
    requires f in s.byFile && FileAgrees(s, f)
    ensures NoDup(ApplyRetention(s, f).byFile[f])
  {
    ListingDistinct(s, f);
    KeptDistinct(Listing(s, f), s.keepPinned, Room(s));
    hide Listing;
  }

  /** Retention keeps the index and the records in agreement. */
  lemma RetentionAgrees(s: Store, f: string)
    requires Agreement(s) && f in s.byFile
    ensures Agreement(ApplyRetention(s, f))
  {
    var t := ApplyRetention(s, f);
    RetainedNoDup(s, f);
    forall id { RetentionIds(s, f, id); }
    hide Listing, Survivors, Evicted, Ids, Room, NoDup;
    forall g | g in t.byFile
      ensures FileAgrees(t, g)
    {
      assert FileAgrees(s, g);
      forall id | id in t.byFile[g]
        ensures Owned(t, g, id)
      {
        assert Owned(s, g, id);
      }
    }
    forall id | id in t.records
      ensures Indexed(t, t.records[id].fileId, id)
    {
      assert Indexed(s, s.records[id].fileId, id);
    }
  }

  /** The store just before retention runs on a new version. */
  function Added(s: Store, r: VersionRecord): Store {
    s.(records := s.records[r.id := r],
       byFile := s.byFile[r.fileId := (if r.fileId in s.byFile then s.byFile[r.fileId] else []) + [r.id]])
  }

  lemma FreshUnlisted(s: Store, id: string)
    requires Agreement(s) && id !in s.records
    ensures forall g :: !Indexed(s, g, id)
  {
    forall g | g in s.byFile
      ensures id !in s.byFile[g]
    {
      assert FileAgrees(s, g) && !Owned(s, g, id);
    }
  }

  lemma AddedAgrees(s: Store, r: VersionRecord)
    requires Agreement(s) && r.id !in s.records
    ensures Agreement(Added(s, r))
  {
    var t := Added(s, r);
    FreshUnlisted(s, r.id);
    forall g | g in t.byFile
      ensures FileAgrees(t, g)
    {
      assert !Indexed(s, g, r.id);
      if g in s.byFile { assert FileAgrees(s, g); }
      var ids := if g in s.byFile then s.byFile[g] else [];
      assert r.id !in ids && NoDup(ids);
      assert t.byFile[g] == ids || t.byFile[g] == ids + [r.id];
      forall id | id in t.byFile[g]
        ensures Owned(t, g, id)
      {
        if id in ids { assert Owned(s, g, id); }
      }
    }
    forall id | id in t.records
      ensures Indexed(t, t.records[id].fileId, id)
    {
      if id != r.id { assert Indexed(s, s.records[id].fileId, id); }
    }
  }

  lemma AppendIsAdded(s: Store, r: VersionRecord)
    requires Agreement(s) && r.id !in s.records
    ensures Append(s, r) == ApplyRetention(Added(s, r), r.fileId)
  {
    FreshUnlisted(s, r.id);
    hide ApplyRetention;
  }

  /** The history of one file is trimmed to the newest regular versions. */
  ghost predicate Trimmed(s: Store, t: Store, f: string) {
    && f in t.byFile && Count(Pick(t.byFile[f], t.records), t.keepPinned) <= Room(t)
    && forall e, k ::
         (Owned(s, f, e) && e !in t.records && Indexed(t, f, k) && k in t.records && Regular(t.records[k], t.keepPinned)) ==>
         Regular(s.records[e], t.keepPinned) && NewerLeq(t.records[k], s.records[e])
  }

  lemma RetentionTrims(s: Store, f: string)
    requires Agreement(s) && f in s.byFile
    ensures Trimmed(s, ApplyRetention(s, f), f)
  {
    var t := ApplyRetention(s, f);
    assert FileAgrees(s, f);
    RetentionCounts(s, f);
    forall id { RetentionIds(s, f, id); }
    hide Listing, Survivors, Evicted, Ids, Room, NoDup;
    forall e, k | Owned(s, f, e) && e !in t.records && Indexed(t, f, k) && k in t.records && Regular(t.records[k], t.keepPinned)
      ensures Regular(s.records[e], t.keepPinned) && NewerLeq(t.records[k], s.records[e])
    {
      assert Owned(s, f, k) && Indexed(s, f, e);
      ListingMembers(s, f);
      KeptBeforeEvicted(s, f, s.records[e], s.records[k]);
    }
  }

  lemma RetentionCounts(s: Store, f: string)
    requires f in s.byFile && FileAgrees(s, f)
    ensures var t := ApplyRetention(s, f);
            Count(Pick(t.byFile[f], t.records), t.keepPinned) <= Room(t)
  {
    var t := ApplyRetention(s, f);
    var rs := Listing(s, f);
    var kept := Survivors(rs, s.keepPinned, Room(s));
    ListingDistinct(s, f);
    KeptCount(rs, s.keepPinned, Room(s));
    forall r | r in kept
      ensures r.id in t.records && t.records[r.id] == r
    {
      KeptOrEvicted(rs, s.keepPinned, Room(s), r);
    }
    PickIds(kept, t.records);
  }

  lemma KeptBeforeEvicted(s: Store, f: string, e: VersionRecord, k: VersionRecord)
    requires f in s.byFile && FileAgrees(s, f)
    requires e in Listing(s, f) && k in Listing(s, f) && Regular(k, s.keepPinned)
    requires e.id in Evicted(Listing(s, f), s.keepPinned, Room(s)) && k.id !in Evicted(Listing(s, f), s.keepPinned, Room(s))
    ensures Regular(e, s.keepPinned) && NewerLeq(k, e)
  {
    var rs := Listing(s, f);
    ListingDistinct(s, f);
    KeptOrEvicted(rs, s.keepPinned, Room(s), e);
    KeptOrEvicted(rs, s.keepPinned, Room(s), k);
    var i :| 0 <= i < |rs| && rs[i] == e;
    var j :| 0 <= j < |rs| && rs[j] == k;
    if i < j { KeptFirst(rs, s.keepPinned, Room(s), i, j); }
  }

  /** A version newer than every other of its file survives retention. */
  lemma NewestSurvives(s: Store, f: string, r: VersionRecord)
    requires f in s.byFile && FileAgrees(s, f) && Owned(s, f, r.id) && Indexed(s, f, r.id) && s.records[r.id] == r
    requires forall id :: Owned(s, f, id) && id != r.id ==> s.records[id].revision < r.revision
    ensures r.id in ApplyRetention(s, f).byFile[f]
  {
    var rs := Listing(s, f);
    ListingDistinct(s, f);
    assert r in rs;
    var i :| 0 <= i < |rs| && rs[i] == r;
    assert rs[0] in rs && Owned(s, f, rs[0].id);
    assert i > 0 ==> NewerLeq(rs[0], rs[i]);
    assert rs[0] == r && r in Survivors(rs, s.keepPinned, Room(s));
    KeptOrEvicted(rs, s.keepPinned, Room(s), r);
    RetentionIds(s, f, r.id);
  }

  lemma PinnedSurvive(s: Store, f: string, id: string)
    requires Agreement(s) && f in s.byFile && Owned(s, f, id) && !Regular(s.records[id], s.keepPinned)
    ensures id in ApplyRetention(s, f).byFile[f]
  {
    assert FileAgrees(s, f) && Indexed(s, f, id);
    ListingDistinct(s, f);
    KeptOrEvicted(Listing(s, f), s.keepPinned, Room(s), s.records[id]);
    RetentionIds(s, f, id);
  }

  /** Appending trims one file's history and leaves every other file's alone. */
  ghost predicate AppendedTo(s: Store, t: Store, r: VersionRecord) {
    && Agreement(t) && Indexed(t, r.fileId, r.id) && Owned(t, r.fileId, r.id) && t.records[r.id] == r
    && Trimmed(Added(s, r), t, r.fileId)
    && (forall id :: Owned(s, r.fileId, id) && !Regular(s.records[id], s.keepPinned) ==> Indexed(t, r.fileId, id))
    && (forall id :: id in t.records && id != r.id ==> id in s.records && t.records[id] == s.records[id])
    && (forall id :: id in s.records && s.records[id].fileId != r.fileId ==> id in t.records)
    && (forall g :: g in s.byFile && g != r.fileId ==> g in t.byFile && t.byFile[g] == s.byFile[g])
  }

  /** Main result: after an append the pinned versions and the new one are there, at most the allowed
      number of regular ones is left, they are the newest, and index and records still agree. */
  lemma AppendVersion(s: Store, r: VersionRecord)
    requires Agreement(s) && r.id !in s.records
    requires forall id :: Owned(s, r.fileId, id) ==> s.records[id].revision < r.revision
    ensures AppendedTo(s, Append(s, r), r)
  {
    hide *;
    var a := Added(s, r);
    AddedAgrees(s, r);
    AddedListed(s, r);
    AppendIsAdded(s, r);
    AppendPinned(s, r);
    AppendFrame(s, r);
    RetentionAgrees(a, r.fileId);
    RetentionTrims(a, r.fileId);
    NewestAppended(s, r);
    NewStored(s, r);
    AppendAssembled(s, ApplyRetention(a, r.fileId), r);
  }

  lemma AddedListed(s: Store, r: VersionRecord)
    ensures r.fileId in Added(s, r).byFile
  {
  }

  lemma AppendAssembled(s: Store, t: Store, r: VersionRecord)
    requires Agreement(t) && Trimmed(Added(s, r), t, r.fileId)
    requires Indexed(t, r.fileId, r.id) && Owned(t, r.fileId, r.id) && t.records[r.id] == r
    requires forall id :: Owned(s, r.fileId, id) && !Regular(s.records[id], s.keepPinned) ==> Indexed(t, r.fileId, id)
    requires forall id :: id in t.records && id != r.id ==> id in s.records && t.records[id] == s.records[id]
    requires forall id :: id in s.records && s.records[id].fileId != r.fileId ==> id in t.records
    requires forall g :: g in s.byFile && g != r.fileId ==> g in t.byFile && t.byFile[g] == s.byFile[g]
    ensures AppendedTo(s, t, r)
  {
    hide Agreement, Trimmed, Added, Indexed, Regular;
  }

  lemma NewestAppended(s: Store, r: VersionRecord)
    requires Agreement(s) && r.id !in s.records && Agreement(Added(s, r))
    requires forall id :: Owned(s, r.fileId, id) ==> s.records[id].revision < r.revision
    ensures var t := ApplyRetention(Added(s, r), r.fileId);
            r.fileId in t.byFile && r.id in t.byFile[r.fileId]
  {
    var a := Added(s, r);
    assert FileAgrees(a, r.fileId) && Owned(a, r.fileId, r.id) && Indexed(a, r.fileId, r.id);
    hide Listing, Survivors, Evicted, Ids, Room, NoDup, Agreement, FileAgrees;
    NewestSurvives(a, r.fileId, r);
  }

  lemma NewStored(s: Store, r: VersionRecord)
    requires Agreement(ApplyRetention(Added(s, r), r.fileId))
    requires r.id in ApplyRetention(Added(s, r), r.fileId).byFile[r.fileId]
    ensures var t := ApplyRetention(Added(s, r), r.fileId);
            Indexed(t, r.fileId, r.id) && Owned(t, r.fileId, r.id) && t.records[r.id] == r
  {
    assert FileAgrees(ApplyRetention(Added(s, r), r.fileId), r.fileId);
  }

  lemma AppendPinned(s: Store, r: VersionRecord)
    requires Agreement(Added(s, r)) && r.id !in s.records
    ensures forall id :: Owned(s, r.fileId, id) && !Regular(s.records[id], s.keepPinned) ==>
              Indexed(ApplyRetention(Added(s, r), r.fileId), r.fileId, id)
  {
    forall id | Owned(s, r.fileId, id) && !Regular(s.records[id], s.keepPinned)
      ensures Indexed(ApplyRetention(Added(s, r), r.fileId), r.fileId, id)
    {
      assert Owned(Added(s, r), r.fileId, id);
      PinnedSurvive(Added(s, r), r.fileId, id);
    }
  }

  lemma AppendFrame(s: Store, r: VersionRecord)
    requires Agreement(Added(s, r)) && r.id !in s.records
    ensures var t := ApplyRetention(Added(s, r), r.fileId);
            && r.fileId in t.byFile
            && (forall id :: id in t.records && id != r.id ==> id in s.records && t.records[id] == s.records[id])
            && (forall id :: id in s.records && s.records[id].fileId != r.fileId ==> id in t.records)
            && (forall g :: g in s.byFile && g != r.fileId ==> g in t.byFile && t.byFile[g] == s.byFile[g])
  {
    var a := Added(s, r);
    assert FileAgrees(a, r.fileId);
    forall id { RetentionIds(a, r.fileId, id); }
    hide Listing, Survivors, Evicted, Ids, Room, NoDup;
    forall id | id in s.records && s.records[id].fileId != r.fileId
      ensures id in ApplyRetention(a, r.fileId).records
    {
      assert !Owned(a, r.fileId, id);
    }
  }

  // Pages.

  datatype Page = Page(versions: seq<VersionRecord>, next: Option<nat>)

  /** One page of a file's versions, newest first, from a cursor offset. */
  function PageAt(listing: seq<VersionRecord>, limit: nat, offset: nat): Page
    requires limit > 0
  {
    var lo := if offset < |listing| then offset else |listing|;
    var hi := if lo + limit < |listing| then lo + limit else |listing|;
    Page(listing[lo..hi], if offset + (hi - lo) < |listing| then Some(offset + (hi - lo)) else None)
  }

  function ListVersions(s: Store, file: string, includePinned: bool, limit: nat, offset: nat): Page
    requires limit > 0
  {
    PageAt(Shown(s, file, includePinned), limit, offset)
  }

  function Unpinned(rs: seq<VersionRecord>): seq<VersionRecord> {
    if rs == [] then [] else (if rs[0].pinned then [] else [rs[0]]) + Unpinned(rs[1..])
  }

  function Shown(s: Store, file: string, includePinned: bool): seq<VersionRecord> {
    if file !in s.byFile then []
    else
      var rs := Pick(s.byFile[file], s.records);
      Sort(if includePinned then rs else Unpinned(rs), NewerLeq)
  }

  /** A page holds as many versions as fit, from its offset on, and points to the next one exactly if there is more. */
  lemma PageIs(listing: seq<VersionRecord>, limit: nat, offset: nat)
    requires limit > 0 && offset <= |listing|
    ensures var page := PageAt(listing, limit, offset);
            && |page.versions| <= limit && offset + |page.versions| <= |listing|
            && (forall i :: 0 <= i < |page.versions| ==> page.versions[i] == listing[offset + i])
            && (page.next == Some(offset + limit) <==> offset + limit < |listing|)
            && (page.next == None <==> offset + |page.versions| == |listing|)
  {
  }

  /** Everything a client sees that follows cursors from `offset` to the end. */
  function Walk(listing: seq<VersionRecord>, limit: nat, offset: nat): seq<VersionRecord>
    requires limit > 0
    decreases |listing| - offset
  {
    var page := PageAt(listing, limit, offset);
    match page.next
    case None => page.versions
    case Some(next) => page.versions + Walk(listing, limit, next)
  }

  /** Main result: the pages reached by following cursors are the whole listing, without gap or repeat. */
  lemma {:induction false} WalkIsListing(listing: seq<VersionRecord>, limit: nat, offset: nat)
    requires limit > 0 && offset <= |listing|
    ensures Walk(listing, limit, offset) == listing[offset..]
    decreases |listing| - offset
  {
    var page := PageAt(listing, limit, offset);
    if page.next.Some? {
      WalkIsListing(listing, limit, page.next.value);
    }
  }

  datatype Lookup = Found(version: VersionRecord) | WrongFile | NotFound | CursorRepeated

  /** The client's page walk for one version of a file. */
  method LoadVersion(s: Store, file: string, id: string, limit: nat) returns (r: Lookup)
    requires limit > 0 && Agreement(s)
    ensures r == if Owned(s, file, id) then Found(s.records[id]) else NotFound
  {
    hide Shown, Agreement;
    var cursor: nat := 0;
    var seen: set<nat> := {};
    ghost var listing := Shown(s, file, true);
    ShownMembers(s, file, id);
    while true
      invariant cursor <= |listing| && forall c :: c in seen ==> c <= cursor
      invariant forall k :: 0 <= k < cursor ==> listing[k].id != id
      decreases |listing| - cursor
    {
      var page := ListVersions(s, file, true, limit, cursor);
      assert page.versions == listing[cursor..cursor + |page.versions|];
      for i := 0 to |page.versions|
        invariant forall k :: 0 <= k < i ==> page.versions[k].id != id
      {
        if page.versions[i].id == id {
          assert page.versions[i] == listing[cursor + i] && listing[cursor + i] in listing;
          return if page.versions[i].fileId != file then WrongFile else Found(page.versions[i]);
        }
      }
      assert forall k :: cursor <= k < cursor + |page.versions| ==> listing[k] == page.versions[k - cursor];
      if page.next.None? {
        return NotFound;
      }
      if page.next.value in seen {
        return CursorRepeated;
      }
      seen := seen + {page.next.value};
      cursor := page.next.value;
    }
  }

  lemma ShownMembers(s: Store, file: string, id: string)
    requires Agreement(s)
    ensures forall r :: r in Shown(s, file, true) && r.id == id ==> Owned(s, file, id) && r == s.records[id]
    ensures Owned(s, file, id) ==> s.records[id] in Shown(s, file, true)
  {
    if file in s.byFile {
      assert FileAgrees(s, file);
      ListingMembers(s, file);
      forall r | r in Listing(s, file)
        ensures Owned(s, file, r.id)
      {
      }
    }
    assert Owned(s, file, id) ==> Indexed(s, file, id);
  }

  lemma {:induction false} UnpinnedAre(rs: seq<VersionRecord>)
    ensures forall r :: r in Unpinned(rs) <==> r in rs && !r.pinned
    ensures DistinctIds(rs) ==> DistinctIds(Unpinned(rs))
  {
    if rs != [] {
      UnpinnedAre(rs[1..]);
      assert rs == [rs[0]] + rs[1..];
      var rest := Unpinned(rs[1..]);
      if DistinctIds(rs) {
        RestDistinct(rs);
        assert forall i :: 0 <= i < |rest| ==> rest[i] in rest && rest[i] in rs[1..];
      }
    }
  }

  lemma {:induction false} DistinctNoDup(rs: seq<VersionRecord>)
    requires DistinctIds(rs)
    ensures NoDup(rs)
  {
  }

  /** Main result: a listing shows exactly the stored versions of the file, or its unpinned ones, once each, newest first. */
  lemma ShownExactly(s: Store, file: string, includePinned: bool)
    requires Agreement(s)
    ensures var rs := Shown(s, file, includePinned);
            NoDup(rs) && forall i, j :: 0 <= i < j < |rs| ==>
              rs[i].revision > rs[j].revision || (rs[i].revision == rs[j].revision && StrLeq(rs[i].id, rs[j].id))
    ensures forall r :: r in Shown(s, file, includePinned) <==> Owned(s, file, r.id) && s.records[r.id] == r && (includePinned || !r.pinned)
  {
    NewerOrder();
    if file in s.byFile {
      assert FileAgrees(s, file);
      var all := Pick(s.byFile[file], s.records);
      PickNoDup(s.byFile[file], s.records);
      UnpinnedAre(all);
      var rs := if includePinned then all else Unpinned(all);
      SortSorts(rs, NewerLeq);
      DistinctNoDup(rs);
      NoDupPermutes(rs, Sort(rs, NewerLeq));
      SameElements(rs, Sort(rs, NewerLeq));
      hide Sort, Pick, Unpinned, NoDup, Preorder, StrLeq;
      assert Shown(s, file, includePinned) == Sort(rs, NewerLeq);
      forall r: VersionRecord | Owned(s, file, r.id) && s.records[r.id] == r
        ensures r in all
      {
        assert Indexed(s, file, r.id);
      }
    } else {
      assert forall id :: Owned(s, file, id) ==> Indexed(s, file, id);
    }
  }
}
