/** What one iteration may touch, and what it leaves alone, at every crash point. */
module PullFrames {
  import opened Basics
  import opened PullPlan
  import opened PullApply

  /** The live paths an iteration may write or remove, conflict copies aside. */
  function Touch(op: Op): set<Path> {
    match op
    case Stage(m) => {m.source}
    case Remove(item) => {item.path}
    case Put(w) => {w.target}
    case Land(m) => {m.target}
    case Shift(m) => {m.source, m.target}
  }

  /** The staged payloads an iteration may use. */
  function Ids(op: Op): set<FileId> {
    match op
    case Stage(m) => {m.fileId}
    case Remove(item) => {}
    case Put(w) => {w.fileId}
    case Land(m) => {m.fileId}
    case Shift(m) => {m.fileId}
  }

  datatype Tracked = Tracked(id: FileId, path: Path, expected: Option<Hash>)

  /** The tracked file an iteration compares with its recorded hash before touching it. */
  function Guard(op: Op): Tracked {
    match op
    case Stage(m) => Tracked(m.fileId, m.source, Some(m.hash))
    case Remove(i) => Tracked(i.fileId, i.path, i.expected)
    case Put(w) => Tracked(w.fileId, w.target, if InPlace(w) then w.expectedPrevious else None)
    case Land(m) => Tracked(m.fileId, m.target, None)
    case Shift(m) => Tracked(m.fileId, m.source, Some(m.hash))
  }

  /** Of which files, next to which paths and on which days conflict copies may be made. */
  datatype Scope = Scope(ids: set<FileId>, originals: set<Path>, days: set<int>) {
    /** A name that a new copy can take. */
    predicate Covers(p: Path) {
      p.ConflictName? && p.n >= 1 && p.original in originals && p.day in days
    }

    /** A registered copy that may be written again. */
    predicate Owns(r: Record) {
      r.status == ConflictCopy && r.conflictOf.Some? && r.conflictOf.value in ids
    }

    predicate Has(t: Tracked, day: int) {
      t.expected.Some? ==> t.id in ids && t.path in originals && day in days
    }
  }

  ghost predicate AllFit(o: Scope, ops: seq<Op>, day: int) {
    forall op :: op in ops ==> o.Has(Guard(op), day)
  }

  /** A path no conflict copy in scope can land on. */
  ghost predicate Safe(o: Scope, d: Disk, p: Path) {
    !o.Covers(p) && forall r :: r in d.doc && o.Owns(r) ==> r.path != p
  }

  /** Outside `ps` and `ids`, `s` has the safe files and the staged payloads of `d`. */
  ghost predicate Frame(o: Scope, d: Disk, s: Disk, ps: set<Path>, ids: set<FileId>) {
    && (forall p :: Safe(o, d, p) ==> Safe(o, s, p))
    && (forall p :: Safe(o, d, p) && p !in ps ==> At(s.live, p) == At(d.live, p))
    && (forall id :: id !in ids ==> At(s.staging, id) == At(d.staging, id))
  }

  lemma PreserveFrame(o: Scope, d: Disk, t: Tracked, day: int, s: Disk)
    requires o.Has(t, day) && PreserveCopy(d, t.id, t.path, t.expected, day).Visits(s)
    ensures Frame(o, d, s, {}, {}) && s.staging == d.staging
  {
    var (id, p) := (t.id, t.path);
    if Dirty(d, p, t.expected) {
      hide PullApply.PreserveCopy;
      var bytes := d.live[p];
      match FindCopy(d.doc, id, Sha256(bytes))
      case Some(r) =>
        KnownCopyShape(d, id, p, t.expected, day, s, r);
        StoreFrame(o, d, r.path, bytes, r, s);
      case None =>
        var c := NextFree(d.live.Keys, p, day, 1);
        NewCopyShape(d, id, p, t.expected, day, s, c);
        StoreFrame(o, d, c, bytes, Record(Generated(d.drawn), c, ConflictCopy, Some(Sha256(bytes)), Some(id)), s);
    }
  }

  lemma KnownCopyShape(d: Disk, id: FileId, p: Path, expected: Option<Hash>, day: int, s: Disk, r: Record)
    requires Dirty(d, p, expected) && FindCopy(d.doc, id, Sha256(d.live[p])) == Some(r)
    requires PreserveCopy(d, id, p, expected, day).Visits(s)
    ensures s.doc == d.doc && s.staging == d.staging && s.drawn == d.drawn
    ensures s.live == d.live || s.live == d.live[r.path := d.live[p]]
  {
  }

  lemma NewCopyShape(d: Disk, id: FileId, p: Path, expected: Option<Hash>, day: int, s: Disk, c: Path)
    requires Dirty(d, p, expected) && FindCopy(d.doc, id, Sha256(d.live[p])) == None
    requires c == NextFree(d.live.Keys, p, day, 1)
    requires PreserveCopy(d, id, p, expected, day).Visits(s)
    ensures s.staging == d.staging && s.live == d.live[c := d.live[p]]
    ensures s.doc == d.doc || s.doc == d.doc + [Record(Generated(d.drawn), c, ConflictCopy, Some(Sha256(d.live[p])), Some(id))]
    ensures s.drawn == d.drawn + |s.doc| - |d.doc|
  {
  }

  /** Storing at an unsafe path and registering a copy there disturbs no safe path. */
  lemma StoreFrame(o: Scope, d: Disk, q: Path, bytes: Bytes, r: Record, s: Disk)
    requires !Safe(o, d, q) && r.path == q
    requires s.live == d.live || s.live == d.live[q := bytes]
    requires s.doc == d.doc || s.doc == d.doc + [r]
    requires s.staging == d.staging
    ensures Frame(o, d, s, {}, {})
  {
    forall p | Safe(o, d, p)
      ensures At(s.live, p) == At(d.live, p) && Safe(o, s, p)
    {
      assert p != q;
    }
  }

  lemma StepFrame(o: Scope, d: Disk, op: Op, day: int, s: Disk)
    requires o.Has(Guard(op), day) && Step(d, op, day).Visits(s)
    ensures Frame(o, d, s, Touch(op), Ids(op))
  {
    match op
    case Stage(m) => StageFrame(o, d, m, day, s);
    case Remove(item) => RemoveFrame(o, d, item, day, s);
    case Put(w) => PutFrame(o, d, w, day, s);
    case Land(m) =>
    case Shift(m) => ShiftFrame(o, d, m, day, s);
  }

  /** The save an iteration starts with. */
  function Save(d: Disk, op: Op, day: int): Run {
    PreserveCopy(d, Guard(op).id, Guard(op).path, Guard(op).expected, day)
  }

  lemma StageFrame(o: Scope, d: Disk, m: MoveItem, day: int, s: Disk)
    requires o.Has(Guard(Stage(m)), day) && StageMove(d, m, day).Visits(s)
    ensures Frame(o, d, s, {m.source}, {m.fileId})
  {
    hide PullApply.PreserveCopy;
    var p := Save(d, Stage(m), day);
    if p.Visits(s) { PreserveFrame(o, d, Guard(Stage(m)), day, s); }
    else if Dirty(d, m.source, Some(m.hash)) {
      PreserveFrame(o, d, Guard(Stage(m)), day, p.disk);
      assert s == Unlink(p.disk, m.source);
    }
  }

  lemma RemoveFrame(o: Scope, d: Disk, item: DeleteItem, day: int, s: Disk)
    requires o.Has(Guard(Remove(item)), day) && RemoveFile(d, item, day).Visits(s)
    ensures Frame(o, d, s, {item.path}, {}) && s.staging == d.staging
  {
    hide PullApply.PreserveCopy;
    var p := Save(d, Remove(item), day);
    PreserveFrame(o, d, Guard(Remove(item)), day, p.disk);
    if p.Visits(s) { PreserveFrame(o, d, Guard(Remove(item)), day, s); }
  }

  lemma PutFrame(o: Scope, d: Disk, w: WriteItem, day: int, s: Disk)
    requires o.Has(Guard(Put(w)), day) && PutFile(d, w, day).Visits(s)
    ensures Frame(o, d, s, {w.target}, {}) && s.staging == d.staging
  {
    var p := Save(d, Put(w), day);
    assert !InPlace(w) ==> p == Stay(d);
    hide PullApply.PreserveCopy;
    PreserveFrame(o, d, Guard(Put(w)), day, p.disk);
    if p.Visits(s) { PreserveFrame(o, d, Guard(Put(w)), day, s); }
  }

  lemma ShiftFrame(o: Scope, d: Disk, m: MoveItem, day: int, s: Disk)
    requires o.Has(Guard(Shift(m)), day) && PlaceDirect(d, m, day).Visits(s)
    ensures Frame(o, d, s, {m.source, m.target}, {}) && s.staging == d.staging
  {
    hide PullApply.PreserveCopy;
    var p := Save(d, Shift(m), day);
    if p.Visits(s) { PreserveFrame(o, d, Guard(Shift(m)), day, s); }
    else if Dirty(d, m.source, Some(m.hash)) {
      PreserveFrame(o, d, Guard(Shift(m)), day, p.disk);
      assert forall q :: Safe(o, p.disk, q) ==> Safe(o, s, q);
    }
  }

  function TouchAll(ops: seq<Op>): set<Path> {
    set op, p | op in ops && p in Touch(op) :: p
  }

  function IdsAll(ops: seq<Op>): set<FileId> {
    set op, id | op in ops && id in Ids(op) :: id
  }

  lemma FrameTrans(o: Scope, a: Disk, b: Disk, c: Disk, ps: set<Path>, ids: set<FileId>, qs: set<Path>, jds: set<FileId>)
    requires Frame(o, a, b, ps, ids) && Frame(o, b, c, qs, jds)
    ensures Frame(o, a, c, ps + qs, ids + jds)
  {
  }

  lemma FrameWeaken(o: Scope, a: Disk, b: Disk, ps: set<Path>, ids: set<FileId>, qs: set<Path>, jds: set<FileId>)
    requires Frame(o, a, b, ps, ids) && ps <= qs && ids <= jds
    ensures Frame(o, a, b, qs, jds)
  {
  }

  lemma TouchCons(ops: seq<Op>)
    requires ops != []
    ensures TouchAll(ops) == Touch(ops[0]) + TouchAll(ops[1..])
    ensures IdsAll(ops) == Ids(ops[0]) + IdsAll(ops[1..])
  {
    assert ops == [ops[0]] + ops[1..];
  }

  lemma {:induction false} ExecFrame(o: Scope, d: Disk, ops: seq<Op>, day: int, s: Disk)
    requires AllFit(o, ops, day) && Exec(d, ops, day).Visits(s)
    ensures Frame(o, d, s, TouchAll(ops), IdsAll(ops))
    decreases |ops|
  {
    if ops != [] {
      var r := Step(d, ops[0], day);
      var (ps, ids) := (TouchAll(ops[1..]), IdsAll(ops[1..]));
      TouchCons(ops);
      hide PullApply.Step, Frame, TouchAll, IdsAll;
      StepFrame(o, d, ops[0], day, r.disk);
      if r.Visits(s) {
        StepFrame(o, d, ops[0], day, s);
        FrameWeaken(o, d, s, Touch(ops[0]), Ids(ops[0]), TouchAll(ops), IdsAll(ops));
      } else {
        ExecFrame(o, r.disk, ops[1..], day, s);
        FrameTrans(o, d, r.disk, s, Touch(ops[0]), Ids(ops[0]), ps, ids);
      }
    }
  }
}
