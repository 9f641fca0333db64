/** Which versions of a file an append leaves: the pinned ones and as many of the newest others as may stay. */
module VersionRetention {
  import opened Basics
  import opened Ordering
  import opened Versions

  /** How many versions that are not kept for their pin a file may have. */
  function Limit(s: Store): nat {
    if s.keepLatest > 0 then s.keepLatest else 50
  }

  predicate KeptForPin(s: Store, x: VersionRecord) {
    s.keepPinned && x.pinned
  }

  /** `y` is of a later revision than `x`, or of the same one and its id comes first. */
  predicate Newer(y: VersionRecord, x: VersionRecord) {
    y.revision > x.revision || (y.revision == x.revision && y.id != x.id && StrLeq(y.id, x.id))
  }

  /** The versions of the file of `r` that are newer than `x` and not kept for their pin, once `r` is stored. */
  function Ahead(s: Store, r: VersionRecord, x: VersionRecord): set<string> {
    (set id | id in s.records && s.records[id].fileId == r.fileId && !KeptForPin(s, s.records[id]) && Newer(s.records[id], x))
    + (if !KeptForPin(s, r) && Newer(r, x) then {r.id} else {})
  }

  lemma NewerIs(x: VersionRecord, y: VersionRecord)
    requires x.id != y.id
    ensures Newer(y, x) <==> NewerLeq(y, x)
    ensures Newer(y, x) <==> !Newer(x, y)
  {
    StrTotal(x.id, y.id);
  }

  /** A version survives the walk when it is pinned or fewer regular ones than may stay come before it. */
  lemma {:induction false} SurvivesIff(rs: seq<VersionRecord>, keepPinned: bool, room: nat, i: nat)
    requires DistinctIds(rs) && i < |rs|
    ensures rs[i] in Survivors(rs, keepPinned, room) <==> !Regular(rs[i], keepPinned) || Count(rs[..i], keepPinned) < room
  {
    RestDistinct(rs);
    var left := if Regular(rs[0], keepPinned) && room > 0 then room - 1 else room;
    if i == 0 {
      assert rs[..0] == [] && rs[0] !in rs[1..];
      assert rs[0] !in Survivors(rs[1..], keepPinned, left);
    } else {
      assert rs[i] == rs[1..][i - 1];
      assert rs[..i] == [rs[0]] + rs[1..][..i - 1];
      CountCons(rs[0], rs[1..][..i - 1], keepPinned);
      SurvivesIff(rs[1..], keepPinned, left, i - 1);
      if room == 0 { NoRoom(rs, keepPinned); }
      assert rs[i] != rs[0] by { assert rs[i].id != rs[0].id; }
    }
  }

  lemma CountCons(r: VersionRecord, rs: seq<VersionRecord>, keepPinned: bool)
    ensures Count([r] + rs, keepPinned) == (if Regular(r, keepPinned) then 1 else 0) + Count(rs, keepPinned)
  {
    assert ([r] + rs)[1..] == rs;
  }

  function RegularIds(rs: seq<VersionRecord>, keepPinned: bool): set<string> {
    set r | r in rs && Regular(r, keepPinned) :: r.id
  }

  lemma IdsCons(rs: seq<VersionRecord>, keepPinned: bool)
    requires rs != [] && DistinctIds(rs)
    ensures RegularIds(rs, keepPinned) == RegularIds(rs[1..], keepPinned) + if Regular(rs[0], keepPinned) then {rs[0].id} else {}
    ensures rs[0].id !in RegularIds(rs[1..], keepPinned)
  {
    RestDistinct(rs);
    assert rs == [rs[0]] + rs[1..];
    hide Regular, DistinctIds;
  }

  lemma {:induction false} CountIds(rs: seq<VersionRecord>, keepPinned: bool)
    requires DistinctIds(rs)
    ensures Count(rs, keepPinned) == |RegularIds(rs, keepPinned)|
  {
    if rs != [] {
      RestDistinct(rs);
      IdsCons(rs, keepPinned);
      CountIds(rs[1..], keepPinned);
      hide Regular, RegularIds, DistinctIds;
    }
  }

  /** In a listing, what comes before a version is what is newer. */
  lemma BeforeIsNewer(rs: seq<VersionRecord>, i: nat)
    requires DistinctIds(rs) && Sorted(rs, NewerLeq) && i < |rs|
    ensures forall y :: y in rs[..i] <==> y in rs && Newer(y, rs[i])
  {
    forall y
      ensures y in rs[..i] <==> y in rs && Newer(y, rs[i])
    {
      if y in rs[..i] {
        var j :| 0 <= j < i && rs[j] == y;
        NewerIs(rs[i], y);
      }
      if y in rs && Newer(y, rs[i]) {
        var j :| 0 <= j < |rs| && rs[j] == y;
        if j > i { NewerIs(rs[i], y); NewerIs(y, rs[i]); }
      }
    }
  }

  /** Main result: once a new version is stored, a version of its file stays exactly if it is kept for its pin or fewer than the limit
      of the others are newer: as many of the newest as may stay do stay. Other files keep all of theirs. */
  lemma RetentionIs(s: Store, r: VersionRecord, x: VersionRecord)
    requires Agreement(s) && r.id !in s.records && (x == r || (x.id in s.records && s.records[x.id] == x))
    ensures var t := Append(s, r);
            && (x.fileId == r.fileId ==>
                  (x.id in t.records <==> KeptForPin(s, x) || |Ahead(s, r, x)| < Limit(s)))
            && (x.fileId != r.fileId ==> x.id in t.records)
            && (x.id in t.records ==> t.records[x.id] == x)
  {
    var (a, f) := (Added(s, r), r.fileId);
    AddedAgrees(s, r);
    AppendIsAdded(s, r);
    assert f in a.byFile && FileAgrees(a, f);
    var rs := Listing(a, f);
    ListingDistinct(a, f);
    if x.fileId == f {
      RetainedInListing(s, r, x);
    } else {
      NotEvicted(a, f, x);
    }
    hide Listing, Survivors, Evicted, Ids, Ahead, NoDup, Agreement, KeptForPin;
  }

  lemma EvictedOwned(a: Store, f: string, id: string)
    requires f in a.byFile && FileAgrees(a, f) && id in Evicted(Listing(a, f), a.keepPinned, Room(a))
    ensures Owned(a, f, id)
  {
    ListingDistinct(a, f);
    EvictedFrom(Listing(a, f), a.keepPinned, Room(a));
    hide Listing, Survivors, NoDup;
  }

  lemma NotEvicted(a: Store, f: string, x: VersionRecord)
    requires f in a.byFile && FileAgrees(a, f) && x.id in a.records && a.records[x.id] == x && x.fileId != f
    ensures x.id in ApplyRetention(a, f).records
  {
    if x.id in Evicted(Listing(a, f), a.keepPinned, Room(a)) { EvictedOwned(a, f, x.id); }
    hide Listing, Survivors, NoDup;
  }

  lemma RoomIs(s: Store, r: VersionRecord)
    ensures Room(Added(s, r)) == Limit(s)
  {
  }

  lemma RetainedInListing(s: Store, r: VersionRecord, x: VersionRecord)
    requires Agreement(s) && r.id !in s.records && (x == r || (x.id in s.records && s.records[x.id] == x)) && x.fileId == r.fileId
    requires Agreement(Added(s, r))
    ensures x.id in ApplyRetention(Added(s, r), r.fileId).records <==> KeptForPin(s, x) || |Ahead(s, r, x)| < Limit(s)
  {
    var (a, f) := (Added(s, r), r.fileId);
    assert f in a.byFile && FileAgrees(a, f);
    var rs := Listing(a, f);
    ListingDistinct(a, f);
    assert Indexed(a, f, x.id) by { assert a.records[x.id].fileId == f; }
    assert x in rs;
    var i :| 0 <= i < |rs| && rs[i] == x;
    SurvivesIff(rs, a.keepPinned, Room(a), i);
    KeptOrEvicted(rs, a.keepPinned, Room(a), x);
    FrontDistinct(rs, i);
    CountIds(rs[..i], a.keepPinned);
    BeforeIsNewer(rs, i);
    AheadIds(s, r, x, rs, i);
    RoomIs(s, r);
    hide Room, Limit, Listing, Survivors, Evicted, Ids, Ahead, NoDup, Agreement, RegularIds, Count;
  }

  lemma FrontDistinct(rs: seq<VersionRecord>, i: nat)
    requires DistinctIds(rs) && i <= |rs|
    ensures DistinctIds(rs[..i])
  {
  }

  lemma AheadIds(s: Store, r: VersionRecord, x: VersionRecord, rs: seq<VersionRecord>, i: nat)
    requires Agreement(s) && r.id !in s.records && Agreement(Added(s, r)) && rs == Listing(Added(s, r), r.fileId)
    requires i < |rs| && rs[i] == x && forall y :: y in rs[..i] <==> y in rs && Newer(y, x)
    ensures RegularIds(rs[..i], s.keepPinned) == Ahead(s, r, x)
  {
    hide *;
    forall id
      ensures id in RegularIds(rs[..i], s.keepPinned) <==> id in Ahead(s, r, x)
    {
      InAhead(s, r, x, id);
      InRegular(rs[..i], s.keepPinned, id);
      InListing(s, r, rs, id);
    }
  }

  lemma InAhead(s: Store, r: VersionRecord, x: VersionRecord, id: string)
    requires r.id !in s.records
    ensures var a := Added(s, r);
            id in Ahead(s, r, x) <==>
              id in a.records && a.records[id].fileId == r.fileId && Regular(a.records[id], s.keepPinned) && Newer(a.records[id], x)
  {
    hide Newer;
  }

  lemma InRegular(rs: seq<VersionRecord>, keepPinned: bool, id: string)
    ensures id in RegularIds(rs, keepPinned) <==> exists y :: y in rs && y.id == id && Regular(y, keepPinned)
  {
    hide Regular;
  }

  lemma InListing(s: Store, r: VersionRecord, rs: seq<VersionRecord>, id: string)
    requires Agreement(Added(s, r)) && rs == Listing(Added(s, r), r.fileId)
    ensures forall y :: y in rs && y.id == id <==>
              id in Added(s, r).records && y == Added(s, r).records[id] && y.fileId == r.fileId && y.id == id
    ensures id in Added(s, r).records && Added(s, r).records[id].fileId == r.fileId ==> Added(s, r).records[id].id == id
  {
    var (a, f) := (Added(s, r), r.fileId);
    assert f in a.byFile && FileAgrees(a, f);
    ListingDistinct(a, f);
    hide Listing, NoDup;
    if id in a.records && a.records[id].fileId == f { assert Indexed(a, f, id) && Owned(a, f, id); }
    forall y | y in rs && y.id == id
      ensures y.fileId == f
    {
      assert Owned(a, f, id);
    }
  }

  /** A version that is stored already is not stored again. */
  lemma KnownStays(s: Store, r: VersionRecord)
    requires r.id in s.records
    ensures Append(s, r) == s
  {
  }
}
