/** The plan builder: the difference between the old file map and the pulled manifest. */
module PullBuild {
  import opened Basics
  import opened PullPlan
  import opened PullApply
  import opened PullFrames
  import opened PullSuccess
  import opened PullClean

  /** The active records by file id; a repeated id keeps its last record. */
  function ActiveById(doc: seq<Record>): (m: map<FileId, Record>)
    ensures forall id :: id in m ==> m[id] in doc && m[id].status == Active && m[id].fileId == id
    ensures forall r :: r in doc && r.status == Active ==> r.fileId in m
  {
    if doc == [] then map[]
    else
      var last := doc[|doc| - 1];
      var m := ActiveById(doc[..|doc| - 1]);
      assert doc == doc[..|doc| - 1] + [last];
      if last.status == Active then m[last.fileId := last] else m
  }

  /** The ids of the active records in the order they first appear. */
  function ActiveIds(doc: seq<Record>): (ids: seq<FileId>)
    ensures forall id :: id in ids <==> exists r :: r in doc && r.status == Active && r.fileId == id
    ensures forall i, j :: 0 <= i < j < |ids| ==> ids[i] != ids[j]
  {
    if doc == [] then []
    else
      var last := doc[|doc| - 1];
      var ids := ActiveIds(doc[..|doc| - 1]);
      assert doc == doc[..|doc| - 1] + [last];
      if last.status == Active && last.fileId !in ids then ids + [last.fileId] else ids
  }

  type Before = map<FileId, Record>

  /** The pulled content differs from what the file map records. */
  predicate Changed(before: Before, e: Entry) {
    e.fileId !in before || before[e.fileId].hash != Some(e.hash)
  }

  predicate Moved(before: Before, e: Entry) {
    e.fileId in before && before[e.fileId].path != e.path
  }

  function WriteFor(before: Before, e: Entry): WriteItem {
    if e.fileId in before
    then WriteItem(e.fileId, e.path, e.hash, Some(before[e.fileId].path), before[e.fileId].hash)
    else WriteItem(e.fileId, e.path, e.hash, None, None)
  }

  function Writes(before: Before, es: seq<Entry>): (ws: seq<WriteItem>)
    ensures forall w :: w in ws <==> exists e :: e in es && Changed(before, e) && w == WriteFor(before, e)
  {
    if es == [] then []
    else
      var init, e := es[..|es| - 1], es[|es| - 1];
      assert es == init + [e];
      Writes(before, init) + if Changed(before, e) then [WriteFor(before, e)] else []
  }

  function Moves(before: Before, es: seq<Entry>): (ms: seq<MoveItem>)
    ensures forall m :: m in ms <==> exists e :: e in es && !Changed(before, e) && Moved(before, e) &&
                                                 m == MoveItem(e.fileId, before[e.fileId].path, e.path, e.hash)
  {
    if es == [] then []
    else
      var init, e := es[..|es| - 1], es[|es| - 1];
      assert es == init + [e];
      Moves(before, init) + if !Changed(before, e) && Moved(before, e)
                            then [MoveItem(e.fileId, before[e.fileId].path, e.path, e.hash)] else []
  }

  /** Old paths of files that are rewritten somewhere else. */
  function Replaced(before: Before, es: seq<Entry>): (ds: seq<DeleteItem>)
    ensures forall d :: d in ds <==> exists e :: e in es && Changed(before, e) && Moved(before, e) &&
                                                 d == DeleteItem(e.fileId, before[e.fileId].path, before[e.fileId].hash)
  {
    if es == [] then []
    else
      var init, e := es[..|es| - 1], es[|es| - 1];
      assert es == init + [e];
      Replaced(before, init) + if Changed(before, e) && Moved(before, e)
                               then [DeleteItem(e.fileId, before[e.fileId].path, before[e.fileId].hash)] else []
  }

  /** Files the manifest no longer lists. */
  function Dropped(before: Before, ids: seq<FileId>, kept: set<FileId>): (ds: seq<DeleteItem>)
    requires forall id :: id in ids ==> id in before
    ensures forall d :: d in ds <==> exists id :: id in ids && id !in kept && d == DeleteItem(id, before[id].path, before[id].hash)
  {
    if ids == [] then []
    else
      var init, id := ids[..|ids| - 1], ids[|ids| - 1];
      assert ids == init + [id];
      Dropped(before, init, kept) + if id !in kept then [DeleteItem(id, before[id].path, before[id].hash)] else []
  }

  function EntryIds(es: seq<Entry>): set<FileId> {
    set e | e in es :: e.fileId
  }

  function PlanFor(doc: seq<Record>, es: seq<Entry>, revision: nat): Plan {
    var before := ActiveById(doc);
    var plan := Plan(revision, Writes(before, es), Moves(before, es),
                     Replaced(before, es) + Dropped(before, ActiveIds(doc), EntryIds(es)), {});
    plan.(blocking := Targets(plan) * Sources(plan))
  }

  method IndexActive(doc: seq<Record>) returns (before: Before, ids: seq<FileId>)
    ensures before == ActiveById(doc) && ids == ActiveIds(doc)
  {
    before, ids := map[], [];
    for i := 0 to |doc|
      invariant before == ActiveById(doc[..i]) && ids == ActiveIds(doc[..i])
    {
      assert doc[..i + 1][..i] == doc[..i];
      if doc[i].status == Active {
        if doc[i].fileId !in ids {
          ids := ids + [doc[i].fileId];
        }
        before := before[doc[i].fileId := doc[i]];
      }
    }
    assert doc[..|doc|] == doc;
  }

  method DiffEntries(before: Before, es: seq<Entry>)
    returns (writes: seq<WriteItem>, moves: seq<MoveItem>, deletes: seq<DeleteItem>)
    ensures writes == Writes(before, es) && moves == Moves(before, es) && deletes == Replaced(before, es)
  {
    writes, moves, deletes := [], [], [];
    for i := 0 to |es|
      invariant writes == Writes(before, es[..i]) && moves == Moves(before, es[..i])
      invariant deletes == Replaced(before, es[..i])
    {
      var e := es[i];
      assert es[..i + 1][..i] == es[..i];
      if Changed(before, e) {
        writes := writes + [WriteFor(before, e)];
        if Moved(before, e) {
          deletes := deletes + [DeleteItem(e.fileId, before[e.fileId].path, before[e.fileId].hash)];
        }
      } else if Moved(before, e) {
        moves := moves + [MoveItem(e.fileId, before[e.fileId].path, e.path, e.hash)];
      }
    }
    assert es[..|es|] == es;
  }

  /** Builds the plan as the pull does, entry by entry over the sorted manifest. */
  method BuildPlan(doc: seq<Record>, es: seq<Entry>, revision: nat) returns (plan: Plan)
    ensures plan == PlanFor(doc, es, revision)
  {
    hide Replaced, Dropped, Writes, Moves, ActiveById, ActiveIds, Targets, Sources;
    var before, ids := IndexActive(doc);
    var writes, moves, deletes := DiffEntries(before, es);
    var kept := EntryIds(es);
    assert forall id :: id in ids ==> id in before;
    DroppedNone(before, kept);
    assert ids[..0] == [];
    for i := 0 to |ids|
      invariant forall id :: id in ids[..i] ==> id in before
      invariant deletes == Replaced(before, es) + Dropped(before, ids[..i], kept)
    {
      assert ids[i] in ids;
      DroppedNext(before, ids, i, kept);
      if ids[i] !in kept {
        deletes := deletes + [DeleteItem(ids[i], before[ids[i]].path, before[ids[i]].hash)];
      }
    }
    assert ids[..|ids|] == ids;
    plan := Plan(revision, writes, moves, deletes, {});
    plan := plan.(blocking := Targets(plan) * Sources(plan));
  }

  lemma DroppedNone(before: Before, kept: set<FileId>)
    ensures Dropped(before, [], kept) == []
  {
  }

  lemma DroppedNext(before: Before, ids: seq<FileId>, i: nat, kept: set<FileId>)
    requires i < |ids| && forall id :: id in ids ==> id in before
    ensures Dropped(before, ids[..i + 1], kept) ==
              Dropped(before, ids[..i], kept) + if ids[i] in kept then [] else [DeleteItem(ids[i], before[ids[i]].path, before[ids[i]].hash)]
  {
    assert ids[..i + 1][..i] == ids[..i] && ids[..i + 1][i] == ids[i];
  }

  /** Manifests list every file id and every path once. */
  ghost predicate UniqueEntries(es: seq<Entry>) {
    forall i, j :: 0 <= i < j < |es| ==> es[i].fileId != es[j].fileId && es[i].path != es[j].path
  }

  /** File maps give every active path to one file. */
  ghost predicate UniquePaths(before: Before) {
    forall a, b :: a in before && b in before && a != b ==> before[a].path != before[b].path
  }

  ghost predicate DistinctWrites(ws: seq<WriteItem>) {
    forall i, j :: 0 <= i < j < |ws| ==> ws[i].target != ws[j].target && ws[i].fileId != ws[j].fileId
  }

  ghost predicate DistinctMoves(ms: seq<MoveItem>) {
    forall i, j :: 0 <= i < j < |ms| ==>
      ms[i].source != ms[j].source && ms[i].target != ms[j].target && ms[i].fileId != ms[j].fileId
  }

  ghost predicate DistinctDeletes(ds: seq<DeleteItem>) {
    forall i, j :: 0 <= i < j < |ds| ==> ds[i].path != ds[j].path && ds[i].fileId != ds[j].fileId
  }

  lemma {:induction false} WritesDistinct(before: Before, es: seq<Entry>)
    requires UniqueEntries(es)
    ensures DistinctWrites(Writes(before, es))
  {
    if es != [] {
      var init := es[..|es| - 1];
      WritesDistinct(before, init);
      var ws := Writes(before, init);
      forall i | 0 <= i < |ws|
        ensures ws[i].target != es[|es| - 1].path && ws[i].fileId != es[|es| - 1].fileId
      {
        assert ws[i] in ws;
        var k :| 0 <= k < |init| && ws[i] == WriteFor(before, init[k]);
        assert init[k] == es[k];
      }
    }
  }

  lemma {:induction false} MovesDistinct(before: Before, es: seq<Entry>)
    requires UniqueEntries(es) && UniquePaths(before)
    ensures DistinctMoves(Moves(before, es))
  {
    if es != [] {
      var init, e := es[..|es| - 1], es[|es| - 1];
      MovesDistinct(before, init);
      var ms := Moves(before, init);
      if e.fileId in before {
        forall i | 0 <= i < |ms|
          ensures ms[i].target != e.path && ms[i].fileId != e.fileId && ms[i].source != before[e.fileId].path
        {
          assert ms[i] in ms;
          var k :| 0 <= k < |init| && init[k].fileId == ms[i].fileId && init[k].path == ms[i].target;
          assert init[k] == es[k];
        }
      }
    }
  }

  lemma {:induction false} ReplacedDistinct(before: Before, es: seq<Entry>)
    requires UniqueEntries(es) && UniquePaths(before)
    ensures DistinctDeletes(Replaced(before, es))
  {
    if es != [] {
      var init, e := es[..|es| - 1], es[|es| - 1];
      ReplacedDistinct(before, init);
      var ds := Replaced(before, init);
      if e.fileId in before {
        forall i | 0 <= i < |ds|
          ensures ds[i].path != before[e.fileId].path && ds[i].fileId != e.fileId
        {
          assert ds[i] in ds;
          var k :| 0 <= k < |init| && init[k].fileId == ds[i].fileId;
          assert init[k] == es[k];
        }
      }
    }
  }

  lemma {:induction false} DroppedDistinct(before: Before, ids: seq<FileId>, kept: set<FileId>)
    requires forall i, j :: 0 <= i < j < |ids| ==> ids[i] != ids[j]
    requires UniquePaths(before) && forall id :: id in ids ==> id in before
    ensures DistinctDeletes(Dropped(before, ids, kept))
  {
    if ids != [] {
      var init, id := ids[..|ids| - 1], ids[|ids| - 1];
      DroppedDistinct(before, init, kept);
      var ds := Dropped(before, init, kept);
      forall i | 0 <= i < |ds|
        ensures ds[i].path != before[id].path && ds[i].fileId != id
      {
        assert ds[i] in ds;
        var k :| 0 <= k < |init| && init[k] == ds[i].fileId;
        assert init[k] == ids[k];
      }
    }
  }

  /** An entry is determined by its id and by its path. */
  lemma EntryUnique(es: seq<Entry>, a: Entry, b: Entry)
    requires UniqueEntries(es) && a in es && b in es && (a.fileId == b.fileId || a.path == b.path)
    ensures a == b
  {
  }

  lemma WriteEntry(before: Before, es: seq<Entry>, w: WriteItem) returns (e: Entry)
    requires w in Writes(before, es)
    ensures e in es && Changed(before, e) && w == WriteFor(before, e)
  {
    e :| e in es && Changed(before, e) && w == WriteFor(before, e);
  }

  lemma MoveEntry(before: Before, es: seq<Entry>, m: MoveItem) returns (e: Entry)
    requires m in Moves(before, es)
    ensures e in es && !Changed(before, e) && Moved(before, e) && m == MoveItem(e.fileId, before[e.fileId].path, e.path, e.hash)
  {
    e :| e in es && !Changed(before, e) && Moved(before, e) && m == MoveItem(e.fileId, before[e.fileId].path, e.path, e.hash);
  }

  /** Every deletion vacates the recorded path of its file, which is listed elsewhere or nowhere. */
  lemma DeleteFile(doc: seq<Record>, es: seq<Entry>, d: DeleteItem)
    requires d in PlanFor(doc, es, 0).deletes
    ensures var before := ActiveById(doc);
            && d.fileId in before && d.path == before[d.fileId].path && d.expected == before[d.fileId].hash
            && (d.fileId !in EntryIds(es) || exists e :: e in es && e.fileId == d.fileId && Changed(before, e) && Moved(before, e))
  {
  }

  lemma DistinctJoin(a: seq<DeleteItem>, b: seq<DeleteItem>)
    requires DistinctDeletes(a) && DistinctDeletes(b)
    requires forall x, y :: x in a && y in b ==> x.path != y.path && x.fileId != y.fileId
    ensures DistinctDeletes(a + b)
  {
  }

  lemma DeletesDistinct(doc: seq<Record>, es: seq<Entry>)
    requires UniqueEntries(es) && UniquePaths(ActiveById(doc))
    ensures DistinctDeletes(PlanFor(doc, es, 0).deletes)
  {
    var before := ActiveById(doc);
    var a, b := Replaced(before, es), Dropped(before, ActiveIds(doc), EntryIds(es));
    ReplacedDistinct(before, es);
    DroppedDistinct(before, ActiveIds(doc), EntryIds(es));
    assert forall d :: d in a ==> d.fileId in EntryIds(es) && d.fileId in before && d.path == before[d.fileId].path;
    assert forall d :: d in b ==> d.fileId !in EntryIds(es) && d.fileId in before && d.path == before[d.fileId].path;
    hide Replaced, Dropped, ActiveById, ActiveIds, DistinctDeletes;
    DistinctJoin(a, b);
  }

  lemma PlanParts(doc: seq<Record>, es: seq<Entry>, revision: nat)
    ensures var plan := PlanFor(doc, es, revision);
            && plan.writes == Writes(ActiveById(doc), es) && plan.moves == Moves(ActiveById(doc), es)
            && plan.deletes == PlanFor(doc, es, 0).deletes && plan.revision == revision
            && plan.blocking == Targets(plan) * Sources(plan) && Sources(plan) == Sources(PlanFor(doc, es, 0))
  {
  }

  lemma MoveOffWrite(before: Before, es: seq<Entry>, m: MoveItem, w: WriteItem)
    requires UniqueEntries(es) && m in Moves(before, es) && w in Writes(before, es)
    ensures m.target != w.target && m.fileId != w.fileId
  {
    hide UniqueEntries, Moves, Writes;
    var e := MoveEntry(before, es, m);
    var f := WriteEntry(before, es, w);
    if m.target == w.target || m.fileId == w.fileId { EntryUnique(es, e, f); }
  }

  lemma MoveAway(before: Before, es: seq<Entry>, m: MoveItem)
    requires m in Moves(before, es)
    ensures m.source != m.target
  {
    var e := MoveEntry(before, es, m);
  }

  /** The plan built from a manifest and a file map without duplicates is well formed. */
  lemma PlanWellFormed(doc: seq<Record>, es: seq<Entry>, revision: nat)
    requires UniqueEntries(es) && UniquePaths(ActiveById(doc))
    ensures WellFormed(PlanFor(doc, es, revision)) && PlanFor(doc, es, revision).revision == revision
  {
    hide PlanFor, Writes, Moves, Sources, Targets, ActiveById, UniqueEntries, UniquePaths;
    var before := ActiveById(doc);
    var plan := PlanFor(doc, es, revision);
    PlanParts(doc, es, revision);
    WritesDistinct(before, es);
    MovesDistinct(before, es);
    DeletesDistinct(doc, es);
    forall m, w | m in plan.moves && w in plan.writes { MoveOffWrite(before, es, m, w); }
    forall m, d | m in plan.moves && d in plan.deletes { MoveOffDelete(doc, es, m, d); }
    forall m | m in plan.moves { MoveAway(before, es, m); }
    forall w | w in plan.writes && InPlace(w) { InPlaceFree(doc, es, w); }
  }

  lemma MoveOffDelete(doc: seq<Record>, es: seq<Entry>, m: MoveItem, d: DeleteItem)
    requires UniqueEntries(es) && UniquePaths(ActiveById(doc))
    requires m in Moves(ActiveById(doc), es) && d in PlanFor(doc, es, 0).deletes
    ensures m.source != d.path && m.fileId != d.fileId
  {
    var before := ActiveById(doc);
    DeleteFile(doc, es, d);
    var e := MoveEntry(before, es, m);
    forall f | f in es && f.fileId == e.fileId { EntryUnique(es, e, f); }
    assert e.fileId in EntryIds(es);
  }

  lemma InPlaceFree(doc: seq<Record>, es: seq<Entry>, w: WriteItem)
    requires UniqueEntries(es) && UniquePaths(ActiveById(doc))
    requires w in Writes(ActiveById(doc), es) && InPlace(w)
    ensures w.target !in Sources(PlanFor(doc, es, 0))
    ensures forall d :: d in PlanFor(doc, es, 0).deletes ==> d.fileId != w.fileId
  {
    var before := ActiveById(doc);
    var plan := PlanFor(doc, es, 0);
    var e := WriteEntry(before, es, w);
    forall m | m in plan.moves
      ensures m.source != w.target
    {
      var f := MoveEntry(before, es, m);
      if m.source == w.target { EntryUnique(es, e, f); }
    }
    forall d | d in plan.deletes
      ensures d.path != w.target && d.fileId != w.fileId
    {
      DeleteFile(doc, es, d);
      forall f | f in es && f.fileId == e.fileId { EntryUnique(es, e, f); }
      assert e.fileId in EntryIds(es);
    }
  }

  /** Every active record is on disk as recorded, and every changed or new file is staged. */
  ghost predicate CleanWorkspace(doc: seq<Record>, es: seq<Entry>, d: Disk) {
    var before := ActiveById(doc);
    && (forall id :: id in before && before[id].hash.Some? ==> Holds(d.live, before[id].path, before[id].hash.value))
    && (forall w :: w in Writes(before, es) ==> Holds(d.staging, w.fileId, w.hash))
  }

  lemma WorkspaceClean(doc: seq<Record>, es: seq<Entry>, revision: nat, d: Disk)
    requires CleanWorkspace(doc, es, d)
    ensures Clean(PlanFor(doc, es, revision), d)
  {
    var before := ActiveById(doc);
    var plan := PlanFor(doc, es, revision);
    assert plan.deletes == PlanFor(doc, es, 0).deletes;
    forall m | m in plan.moves
      ensures Holds(d.live, m.source, m.hash)
    {
      var e := MoveEntry(before, es, m);
    }
    forall i | i in plan.deletes && i.expected.Some?
      ensures Holds(d.live, i.path, i.expected.value)
    {
      DeleteFile(doc, es, i);
    }
    forall w | w in plan.writes && InPlace(w) && w.expectedPrevious.Some?
      ensures Holds(d.live, w.target, w.expectedPrevious.value)
    {
      var e := WriteEntry(before, es, w);
    }
  }

  lemma EntryPlaced(doc: seq<Record>, es: seq<Entry>, revision: nat, e: Entry)
    requires e in es
    ensures var before := ActiveById(doc);
            var plan := PlanFor(doc, es, revision);
            && (Changed(before, e) ==> WriteFor(before, e) in plan.writes)
            && (!Changed(before, e) && Moved(before, e) ==>
                  MoveItem(e.fileId, before[e.fileId].path, e.path, e.hash) in plan.moves)
  {
    hide ActiveById, Replaced, Dropped;
  }

  lemma KeptUntouched(doc: seq<Record>, es: seq<Entry>, revision: nat, e: Entry)
    requires UniqueEntries(es) && UniquePaths(ActiveById(doc)) && e in es
    requires !Changed(ActiveById(doc), e) && !Moved(ActiveById(doc), e)
    ensures e.path !in Targets(PlanFor(doc, es, revision)) + Sources(PlanFor(doc, es, revision))
  {
    var before := ActiveById(doc);
    var plan := PlanFor(doc, es, revision);
    KeptOffDelete(doc, es, e);
    assert plan.deletes == PlanFor(doc, es, 0).deletes;
    forall w | w in plan.writes
      ensures w.target != e.path
    {
      var f := WriteEntry(before, es, w);
      if w.target == e.path { EntryUnique(es, e, f); }
    }
    forall m | m in plan.moves
      ensures m.target != e.path && m.source != e.path
    {
      var f := MoveEntry(before, es, m);
      if m.target == e.path || m.source == e.path { EntryUnique(es, e, f); }
    }
    hide Writes, Moves, Replaced, Dropped, ActiveById, UniqueEntries, UniquePaths;
  }

  lemma KeptOffDelete(doc: seq<Record>, es: seq<Entry>, e: Entry)
    requires UniqueEntries(es) && UniquePaths(ActiveById(doc)) && e in es
    requires !Changed(ActiveById(doc), e) && !Moved(ActiveById(doc), e)
    ensures forall d :: d in PlanFor(doc, es, 0).deletes ==> d.path != e.path
  {
    forall d | d in PlanFor(doc, es, 0).deletes
      ensures d.path != e.path
    {
      DeleteFile(doc, es, d);
      forall f | f in es && f.fileId == e.fileId { EntryUnique(es, e, f); }
      assert e.fileId in EntryIds(es);
    }
  }

  lemma OldPathVacated(doc: seq<Record>, es: seq<Entry>, revision: nat, id: FileId)
    requires id in ActiveById(doc) && forall e :: e in es ==> e.path != ActiveById(doc)[id].path
    ensures var plan := PlanFor(doc, es, revision);
            ActiveById(doc)[id].path in Sources(plan) - Targets(plan)
  {
    var before := ActiveById(doc);
    var plan := PlanFor(doc, es, revision);
    var p := before[id].path;
    if e :| e in es && e.fileId == id {
      if Changed(before, e) {
        assert DeleteItem(id, p, before[id].hash) in Replaced(before, es);
        assert DeleteItem(id, p, before[id].hash) in plan.deletes;
      } else {
        assert MoveItem(id, p, e.path, e.hash) in plan.moves;
      }
    } else {
      assert DeleteItem(id, p, before[id].hash) in Dropped(before, ActiveIds(doc), EntryIds(es));
      assert DeleteItem(id, p, before[id].hash) in plan.deletes;
    }
    forall w | w in plan.writes
      ensures w.target != p
    {
      var e := WriteEntry(before, es, w);
    }
    forall m | m in plan.moves
      ensures m.target != p
    {
      var e := MoveEntry(before, es, m);
    }
  }

  /** Main result: applied to a clean workspace, the plan turns the tracked files into exactly
      the manifest's files: each at its path with its content, and no old path left over. */
  lemma PullMirrorsManifest(doc: seq<Record>, es: seq<Entry>, revision: nat, d: Disk, day: int)
    requires UniqueEntries(es) && UniquePaths(ActiveById(doc)) && CleanWorkspace(doc, es, d)
    ensures var before := ActiveById(doc);
            var r := Apply(d, PlanFor(doc, es, revision), day);
            && r.Ok() && r.disk.doc == d.doc && r.disk.unresolved == d.unresolved
            && (forall e :: e in es ==> Holds(r.disk.live, e.path, e.hash))
            && (forall id :: id in before && (forall e :: e in es ==> e.path != before[id].path) ==>
                  before[id].path !in r.disk.live)
            && (forall p :: p !in Targets(PlanFor(doc, es, revision)) + Sources(PlanFor(doc, es, revision)) ==>
                  At(r.disk.live, p) == At(d.live, p))
  {
    var before := ActiveById(doc);
    var plan := PlanFor(doc, es, revision);
    PlanWellFormed(doc, es, revision);
    WorkspaceClean(doc, es, revision, d);
    CleanApply(plan, d, day);
    var r := Apply(d, plan, day);
    hide PlanFor, PullApply.Apply, PullPlan.WellFormed;
    forall e | e in es
      ensures Holds(r.disk.live, e.path, e.hash)
    {
      EntryPlaced(doc, es, revision, e);
      if !Changed(before, e) && !Moved(before, e) { KeptUntouched(doc, es, revision, e); }
    }
    forall id | id in before && (forall e :: e in es ==> e.path != before[id].path)
      ensures before[id].path !in r.disk.live
    {
      OldPathVacated(doc, es, revision, id);
    }
  }
}
