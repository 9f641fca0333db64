/** From file map and manifest to saved edits: what the items of a built plan record, and what becomes of an edited file
    when the plan is applied. */
module PullEdits {
  import opened Basics
  import opened PullPlan
  import opened PullApply
  import opened PullFrames
  import opened PullSuccess
  import opened PullOrder
  import opened PullKept
  import opened PullBuild

  /** The record a file map holds for an active file: the last active one with its id. */
  ghost predicate Current(doc: seq<Record>, r: Record) {
    exists k :: 0 <= k < |doc| && doc[k] == r && r.status == Active && LastAt(doc, k)
  }

  ghost predicate LastAt(doc: seq<Record>, k: nat)
    requires k < |doc|
  {
    forall j :: k < j < |doc| && doc[j].status == Active ==> doc[j].fileId != doc[k].fileId
  }

  ghost predicate Inactive(doc: seq<Record>, id: FileId) {
    forall r :: r in doc && r.status == Active ==> r.fileId != id
  }

  lemma {:induction false} CurrentIndexed(doc: seq<Record>, id: FileId)
    ensures id in ActiveById(doc) <==> !Inactive(doc, id)
    ensures forall r :: Current(doc, r) && r.fileId == id <==> At(ActiveById(doc), id) == Some(r)
  {
    if doc != [] {
      var n := |doc| - 1;
      var init := doc[..n];
      CurrentIndexed(init, id);
      assert doc == init + [doc[n]];
      forall r
        ensures Current(doc, r) && r.fileId == id <==> At(ActiveById(doc), id) == Some(r)
      {
        CurrentLast(doc, r);
      }
    }
  }

  lemma CurrentLast(doc: seq<Record>, r: Record)
    requires doc != []
    ensures var last := doc[|doc| - 1];
            Current(doc, r) <==> if last.status == Active && last.fileId == r.fileId then r == last else Current(doc[..|doc| - 1], r)
  {
    var n := |doc| - 1;
    if Current(doc, r) {
      var k :| 0 <= k < |doc| && doc[k] == r && r.status == Active && LastAt(doc, k);
      if k < n { assert doc[..n][k] == r && LastAt(doc[..n], k); }
    }
    if Current(doc[..n], r) && !(doc[n].status == Active && doc[n].fileId == r.fileId) {
      var k :| 0 <= k < n && doc[..n][k] == r && r.status == Active && LastAt(doc[..n], k);
      assert forall j :: k < j < n ==> doc[..n][j] == doc[j];
      assert LastAt(doc, k);
    }
    if doc[n].status == Active && doc[n] == r { assert LastAt(doc, n); }
  }

  // What the items of a plan say about a file map and a manifest.

  /** `e` is new, and `w` expects nothing to be there. */
  ghost predicate Fresh(doc: seq<Record>, e: Entry, w: WriteItem) {
    Inactive(doc, e.fileId) && w == WriteItem(e.fileId, e.path, e.hash, None, None)
  }

  /** `e` has other content than the record of its file, whose path and hash `w` carries. */
  ghost predicate Rewrites(doc: seq<Record>, e: Entry, w: WriteItem, r: Record) {
    && Current(doc, r) && r.fileId == e.fileId && r.hash != Some(e.hash)
    && w == WriteItem(e.fileId, e.path, e.hash, Some(r.path), r.hash)
  }

  ghost predicate Relocates(doc: seq<Record>, e: Entry, m: MoveItem, r: Record) {
    && Current(doc, r) && r.fileId == e.fileId && r.hash == Some(e.hash) && r.path != e.path
    && m == MoveItem(r.fileId, r.path, e.path, e.hash)
  }

  /** The record's path is left: no entry has its id, or one with other content is to be written elsewhere. */
  ghost predicate Leaves(es: seq<Entry>, r: Record) {
    || (forall e :: e in es ==> e.fileId != r.fileId)
    || exists e :: e in es && e.fileId == r.fileId && r.hash != Some(e.hash) && r.path != e.path
  }

  ghost predicate Removes(doc: seq<Record>, es: seq<Entry>, i: DeleteItem, r: Record) {
    Current(doc, r) && Leaves(es, r) && i == DeleteItem(r.fileId, r.path, r.hash)
  }

  /** Main result: the writes of a built plan are exactly the new and the changed entries, and each write of a known
      file carries the recorded path and the recorded hash of that file. */
  lemma BuiltWrites(doc: seq<Record>, es: seq<Entry>, revision: nat, w: WriteItem)
    ensures w in PlanFor(doc, es, revision).writes <==>
              exists e :: e in es && (Fresh(doc, e, w) || exists r :: Rewrites(doc, e, w, r))
  {
    var before := ActiveById(doc);
    if w in PlanFor(doc, es, revision).writes {
      var e := WriteEntry(before, es, w);
      CurrentIndexed(doc, e.fileId);
      assert e.fileId in before ==> Rewrites(doc, e, w, before[e.fileId]);
    }
    if e :| e in es && (Fresh(doc, e, w) || exists r :: Rewrites(doc, e, w, r)) {
      CurrentIndexed(doc, e.fileId);
      EntryPlaced(doc, es, revision, e);
    }
  }

  /** Main result: the moves of a built plan are exactly the entries whose content is as recorded and whose path is not. */
  lemma BuiltMoves(doc: seq<Record>, es: seq<Entry>, revision: nat, m: MoveItem)
    ensures m in PlanFor(doc, es, revision).moves <==> exists e, r :: e in es && Relocates(doc, e, m, r)
  {
    var before := ActiveById(doc);
    if m in PlanFor(doc, es, revision).moves {
      var e := MoveEntry(before, es, m);
      CurrentIndexed(doc, e.fileId);
      assert Relocates(doc, e, m, before[e.fileId]);
    }
    if e, r :| e in es && Relocates(doc, e, m, r) {
      CurrentIndexed(doc, e.fileId);
      EntryPlaced(doc, es, revision, e);
    }
  }

  /** Main result: the deletions of a built plan are exactly the records whose path is left, each with the recorded hash. */
  lemma BuiltDeletes(doc: seq<Record>, es: seq<Entry>, revision: nat, i: DeleteItem)
    ensures i in PlanFor(doc, es, revision).deletes <==> exists r :: Removes(doc, es, i, r)
  {
    hide PlanFor, Replaced, Dropped, ActiveById, ActiveIds, EntryIds, Leaves;
    PlanParts(doc, es, revision);
    if i in PlanFor(doc, es, revision).deletes { DeletedRecord(doc, es, i); }
    if r :| Removes(doc, es, i, r) { RecordDeleted(doc, es, i, r); }
  }

  lemma DeletedRecord(doc: seq<Record>, es: seq<Entry>, i: DeleteItem)
    requires i in PlanFor(doc, es, 0).deletes
    ensures exists r :: Removes(doc, es, i, r)
  {
    var before := ActiveById(doc);
    CurrentIndexed(doc, i.fileId);
    DeleteFile(doc, es, i);
    hide PlanFor, ActiveById;
    assert i.fileId !in EntryIds(es) ==> forall e :: e in es ==> e.fileId != i.fileId;
    assert Removes(doc, es, i, before[i.fileId]);
  }

  lemma RecordDeleted(doc: seq<Record>, es: seq<Entry>, i: DeleteItem, r: Record)
    requires Removes(doc, es, i, r)
    ensures i in PlanFor(doc, es, 0).deletes
  {
    var before := ActiveById(doc);
    CurrentIndexed(doc, i.fileId);
    hide ActiveById;
    assert At(before, r.fileId) == Some(r);
    if e :| e in es && e.fileId == r.fileId && r.hash != Some(e.hash) && r.path != e.path {
      assert i in Replaced(before, es);
    } else {
      assert r.fileId !in EntryIds(es) && r.fileId in ActiveIds(doc);
      assert i in Dropped(before, ActiveIds(doc), EntryIds(es));
    }
  }

  // An edited file of the file map, from the built plan to the end of the run.

  /** The file of `r` was edited: it is live with other bytes than recorded. */
  ghost predicate EditedFile(doc: seq<Record>, d: Disk, r: Record) {
    Current(doc, r) && r.hash.Some? && r.path in d.live && Some(Sha256(d.live[r.path])) != r.hash
  }

  /** No entry keeps the file as recorded: its content is changed, it is moved, or it is gone. */
  ghost predicate Affected(es: seq<Entry>, r: Record) {
    forall e :: e in es && e.fileId == r.fileId ==> e.path != r.path || Some(e.hash) != r.hash
  }

  /** A registered conflict copy of the file holds the bytes. */
  ghost predicate HasCopy(s: Disk, id: FileId, bytes: Bytes) {
    exists c :: c in s.doc && c.status == ConflictCopy && c.conflictOf == Some(id) && c.hash == Some(Sha256(bytes)) &&
                At(s.live, c.path) == Some(bytes)
  }

  /** The bytes are what the manifest wants at the file's path, and they are there. */
  ghost predicate WasPulled(es: seq<Entry>, s: Disk, r: Record, bytes: Bytes) {
    At(s.live, r.path) == Some(bytes) && exists e :: e in es && e.fileId == r.fileId && e.path == r.path && e.hash == Sha256(bytes)
  }

  /** The iteration that checks the file of an affected record. */
  lemma CheckedBy(doc: seq<Record>, es: seq<Entry>, revision: nat, r: Record) returns (op: Op)
    requires Current(doc, r) && r.hash.Some? && Affected(es, r)
    ensures Tracks(PlanFor(doc, es, revision), op) && Guard(op) == Tracked(r.fileId, r.path, r.hash)
    ensures op.Put? ==> exists e :: e in es && e.fileId == r.fileId && e.path == r.path && e.hash == op.w.hash
  {
    var plan := PlanFor(doc, es, revision);
    if e :| e in es && e.fileId == r.fileId {
      if r.hash == Some(e.hash) {
        var m := MoveItem(r.fileId, r.path, e.path, e.hash);
        assert Relocates(doc, e, m, r);
        BuiltMoves(doc, es, revision, m);
        op := if Blocks(m, plan.blocking) then Stage(m) else Shift(m);
      } else if e.path == r.path {
        var w := WriteItem(e.fileId, e.path, e.hash, Some(r.path), r.hash);
        assert Rewrites(doc, e, w, r);
        BuiltWrites(doc, es, revision, w);
        op := Put(w);
      } else {
        op := RemovedBy(doc, es, revision, r);
      }
    } else {
      op := RemovedBy(doc, es, revision, r);
    }
  }

  lemma RemovedBy(doc: seq<Record>, es: seq<Entry>, revision: nat, r: Record) returns (op: Op)
    requires Current(doc, r) && Leaves(es, r)
    ensures Tracks(PlanFor(doc, es, revision), op) && op == Remove(DeleteItem(r.fileId, r.path, r.hash))
  {
    op := Remove(DeleteItem(r.fileId, r.path, r.hash));
    assert Removes(doc, es, op.item, r);
    BuiltDeletes(doc, es, revision, op.item);
    hide PlanFor;
  }

  /** Main result: pulling a manifest over an edited file never loses the edit. At every state a crash or an error can leave
      the file still holds it or a registered copy of the file does, and after a normal return a registered copy does,
      unless the edit was the very content the manifest wants there. */
  lemma PullSavesEdits(doc: seq<Record>, es: seq<Entry>, revision: nat, d: Disk, day: int, s: Disk, r: Record)
    requires UniqueEntries(es) && UniquePaths(ActiveById(doc))
    requires Separated(PlanFor(doc, es, revision), d, {day}) && UniqueCopies(d.doc)
    requires EditedFile(doc, d, r) && Affected(es, r)
    requires Apply(d, PlanFor(doc, es, revision), day).Visits(s)
    ensures At(s.live, r.path) == Some(d.live[r.path]) || HasCopy(s, r.fileId, d.live[r.path])
    ensures Apply(d, PlanFor(doc, es, revision), day).Ok() && s == Apply(d, PlanFor(doc, es, revision), day).disk ==>
              HasCopy(s, r.fileId, d.live[r.path]) || WasPulled(es, s, r, d.live[r.path])
  {
    PlanWellFormed(doc, es, revision);
    var op := CheckedBy(doc, es, revision, r);
    hide PlanFor, PullPlan.WellFormed, Separated, UniqueCopies, PullApply.Apply, ActiveById, UniqueEntries, UniquePaths, Affected;
    NoTrackedEditLost(d, PlanFor(doc, es, revision), day, s, op);
    CopyKept(s, r.fileId, d.live[r.path]);
  }

  lemma CopyKept(s: Disk, id: FileId, bytes: Bytes)
    ensures Kept(s, id, bytes) <==> HasCopy(s, id, bytes)
  {
    assert forall c :: IsCopy(c, id, Sha256(bytes)) <==>
      c.status == ConflictCopy && c.conflictOf == Some(id) && c.hash == Some(Sha256(bytes));
  }
}
