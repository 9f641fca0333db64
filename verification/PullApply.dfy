/** What one execution of a pull plan does, as a function from disk to disk.
    `seen` collects the disk after every atomic file operation: the states a crash can leave behind. */
module PullApply {
  import opened Basics
  import opened PullPlan

  /** Workspace files, staged payloads, the registered file map, the conflict flag, and how many ids were ever drawn. */
  datatype Disk = Disk(live: map<Path, Bytes>, staging: map<FileId, Bytes>, doc: seq<Record>, unresolved: bool, drawn: nat)

  datatype Error = NotFound | Mismatch | UnknownSource | PathOccupied
  datatype Run = Run(disk: Disk, seen: set<Disk>, error: Option<Error>) {
    predicate Ok() { error.None? }

    /** The states of a run, its last one included. */
    ghost predicate Visits(s: Disk) { s == disk || s in seen }
  }

  function Stay(d: Disk): Run { Run(d, {}, None) }

  function One(d: Disk): Run { Run(d, {d}, None) }

  /** `b` runs where `a` stopped. */
  function Then(a: Run, b: Run): Run { Run(b.disk, a.seen + b.seen, b.error) }

  function Fail(a: Run, e: Error): Run { a.(error := Some(e)) }

  function Unlink(d: Disk, p: Path): Disk { d.(live := d.live - {p}) }

  function Store(d: Disk, p: Path, bytes: Bytes): Disk { d.(live := d.live[p := bytes]) }

  function Flag(d: Disk): Run {
    if d.unresolved then Stay(d) else One(d.(unresolved := true))
  }

  /** The first free conflict name for `original`. */
  function NextFree(taken: set<Path>, original: Path, day: int, n: nat): (p: Path)
    ensures p.ConflictName? && p.original == original && p.day == day && p.n >= n
    ensures p !in taken
    ensures forall k :: n <= k < p.n ==> ConflictName(original, day, k) in taken
    decreases taken
  {
    var c := ConflictName(original, day, n);
    if c !in taken then c else NextFree(taken - {c}, original, day, n + 1)
  }

  /** The first registered conflict copy of `id` with content `h`. */
  function FindCopy(doc: seq<Record>, id: FileId, h: Hash): (r: Option<Record>)
    ensures r.Some? ==> r.value in doc && IsCopy(r.value, id, h)
    ensures r.None? ==> forall x :: x in doc ==> !IsCopy(x, id, h)
  {
    if doc == [] then None
    else if IsCopy(doc[0], id, h) then Some(doc[0])
    else FindCopy(doc[1..], id, h)
  }

  predicate IsCopy(r: Record, id: FileId, h: Hash) {
    r.status == ConflictCopy && r.conflictOf == Some(id) && r.hash == Some(h)
  }

  predicate Knows(doc: seq<Record>, id: FileId) {
    exists r :: r in doc && r.fileId == id
  }

  predicate Occupied(doc: seq<Record>, p: Path) {
    exists r :: r in doc && r.status != Deleted && r.path == p
  }

  /** The live file at `p` exists and differs from the recorded hash. */
  predicate Dirty(d: Disk, p: Path, expected: Option<Hash>) {
    expected.Some? && p in d.live && Sha256(d.live[p]) != expected.value
  }

  /** Saves locally edited bytes as a conflict copy before they are overwritten or removed. */
  function PreserveCopy(d: Disk, id: FileId, p: Path, expected: Option<Hash>, day: int): Run {
    if !Dirty(d, p, expected) then Stay(d)
    else
      var bytes := d.live[p];
      match FindCopy(d.doc, id, Sha256(bytes))
      case Some(r) =>
        var w := if Holds(d.live, r.path, Sha256(bytes)) then Stay(d) else One(Store(d, r.path, bytes));
        Then(w, Flag(w.disk))
      case None =>
        var c := NextFree(d.live.Keys, p, day, 1);
        var w := One(Store(d, c, bytes));
        if !Knows(d.doc, id) then Fail(w, UnknownSource)
        else if Occupied(d.doc, c) then Fail(w, PathOccupied)
        else
          var r := Record(Generated(d.drawn), c, ConflictCopy, Some(Sha256(bytes)), Some(id));
          var g := w.disk.(doc := d.doc + [r], drawn := d.drawn + 1);
          Then(Then(w, One(g)), Flag(g))
  }

  // One iteration of each loop of the engine.

  function StageMove(d: Disk, m: MoveItem, day: int): Run {
    if m.source in d.live then
      if Sha256(d.live[m.source]) != m.hash then
        var p := PreserveCopy(d, m.fileId, m.source, Some(m.hash), day);
        if !p.Ok() then p
        else if Holds(p.disk.live, m.target, m.hash) then Then(p, One(Unlink(p.disk, m.source)))
        else if m.fileId !in p.disk.staging then Fail(p, NotFound)
        else if !Holds(p.disk.staging, m.fileId, m.hash) then Fail(p, Mismatch)
        else Then(p, One(Unlink(p.disk, m.source)))
      else One(Unlink(d, m.source).(staging := d.staging[m.fileId := d.live[m.source]]))
    else if m.fileId in d.staging then Stay(d)
    else if m.target in d.live then
      if Holds(d.live, m.target, m.hash) then Stay(d) else Fail(Stay(d), Mismatch)
    else Fail(Stay(d), NotFound)
  }

  function RemoveFile(d: Disk, item: DeleteItem, day: int): Run {
    var p := PreserveCopy(d, item.fileId, item.path, item.expected, day);
    if !p.Ok() || item.path !in p.disk.live then p
    else Then(p, One(Unlink(p.disk, item.path)))
  }

  function PutFile(d: Disk, w: WriteItem, day: int): Run {
    if w.fileId !in d.staging then
      if Holds(d.live, w.target, w.hash) then Stay(d) else Fail(Stay(d), NotFound)
    else if !Holds(d.staging, w.fileId, w.hash) then Fail(Stay(d), Mismatch)
    else
      var p := if InPlace(w) then PreserveCopy(d, w.fileId, w.target, w.expectedPrevious, day) else Stay(d);
      if !p.Ok() then p else Then(p, One(Store(p.disk, w.target, d.staging[w.fileId])))
  }

  function PlaceStaged(d: Disk, m: MoveItem): Run {
    if m.fileId in d.staging then
      if !Holds(d.staging, m.fileId, m.hash) then Fail(Stay(d), Mismatch)
      else One(Store(d, m.target, d.staging[m.fileId]).(staging := d.staging - {m.fileId}))
    else if m.target in d.live then
      if Holds(d.live, m.target, m.hash) then Stay(d) else Fail(Stay(d), Mismatch)
    else Fail(Stay(d), NotFound)
  }

  function PlaceDirect(d: Disk, m: MoveItem, day: int): Run {
    if m.source in d.live then
      if Sha256(d.live[m.source]) != m.hash then
        var p := PreserveCopy(d, m.fileId, m.source, Some(m.hash), day);
        if !p.Ok() then p
        else if Holds(p.disk.live, m.target, m.hash) then Then(p, One(Unlink(p.disk, m.source)))
        else if m.fileId !in p.disk.staging then Fail(p, NotFound)
        else if !Holds(p.disk.staging, m.fileId, m.hash) then Fail(p, Mismatch)
        else
          var w := Store(p.disk, m.target, p.disk.staging[m.fileId]);
          Then(Then(p, One(w)), One(Unlink(w, m.source)))
      else One(Store(Unlink(d, m.source), m.target, d.live[m.source]))
    else if m.target in d.live then
      if Holds(d.live, m.target, m.hash) then Stay(d) else Fail(Stay(d), Mismatch)
    else Fail(Stay(d), NotFound)
  }

  // The five loops, as the sequence of their iterations.

  datatype Op = Stage(m: MoveItem) | Remove(item: DeleteItem) | Put(w: WriteItem)
              | Land(m: MoveItem) | Shift(m: MoveItem)

  function Step(d: Disk, op: Op, day: int): Run {
    match op
    case Stage(m) => StageMove(d, m, day)
    case Remove(item) => RemoveFile(d, item, day)
    case Put(w) => PutFile(d, w, day)
    case Land(m) => PlaceStaged(d, m)
    case Shift(m) => PlaceDirect(d, m, day)
  }

  function Exec(d: Disk, ops: seq<Op>, day: int): Run
    decreases |ops|
  {
    if ops == [] then Stay(d)
    else
      var r := Step(d, ops[0], day);
      if !r.Ok() then r else Then(r, Exec(r.disk, ops[1..], day))
  }

  function StageOps(moves: seq<MoveItem>, blocking: set<Path>): (ops: seq<Op>)
    ensures forall op :: op in ops <==> op.Stage? && op.m in moves && Blocks(op.m, blocking)
  {
    if moves == [] then []
    else (if Blocks(moves[0], blocking) then [Stage(moves[0])] else []) + StageOps(moves[1..], blocking)
  }

  function RemoveOps(deletes: seq<DeleteItem>, blocking: set<Path>, early: bool): (ops: seq<Op>)
    ensures forall op :: op in ops <==> op.Remove? && op.item in deletes && (op.item.path in blocking) == early
  {
    if deletes == [] then []
    else (if (deletes[0].path in blocking) == early then [Remove(deletes[0])] else []) + RemoveOps(deletes[1..], blocking, early)
  }

  function PutOps(writes: seq<WriteItem>): (ops: seq<Op>)
    ensures forall op :: op in ops <==> op.Put? && op.w in writes
  {
    if writes == [] then [] else [Put(writes[0])] + PutOps(writes[1..])
  }

  function PlaceOp(m: MoveItem, blocking: set<Path>): Op {
    if Blocks(m, blocking) then Land(m) else Shift(m)
  }

  function PlaceOps(moves: seq<MoveItem>, blocking: set<Path>): (ops: seq<Op>)
    ensures |ops| == |moves|
    ensures forall i :: 0 <= i < |ops| ==> ops[i] == PlaceOp(moves[i], blocking)
  {
    if moves == [] then [] else [PlaceOp(moves[0], blocking)] + PlaceOps(moves[1..], blocking)
  }

  function Phase(plan: Plan, k: nat): seq<Op> {
    if k == 1 then StageOps(plan.moves, plan.blocking)
    else if k == 2 then RemoveOps(plan.deletes, plan.blocking, true)
    else if k == 3 then PutOps(plan.writes)
    else if k == 4 then PlaceOps(plan.moves, plan.blocking)
    else if k == 5 then RemoveOps(plan.deletes, plan.blocking, false)
    else []
  }

  /** The iterations of the loops before loop `k`. */
  function Before(plan: Plan, k: nat): seq<Op> {
    if k <= 1 then [] else Before(plan, k - 1) + Phase(plan, k - 1)
  }

  function Apply(d: Disk, plan: Plan, day: int): Run {
    Exec(d, Before(plan, 6), day)
  }

  lemma {:induction false} ExecAppend(d: Disk, a: seq<Op>, b: seq<Op>, day: int)
    ensures var r := Exec(d, a, day);
            Exec(d, a + b, day) == if r.Ok() then Then(r, Exec(r.disk, b, day)) else r
    decreases |a|
  {
    if a == [] {
      assert a + b == b;
    } else {
      assert (a + b)[0] == a[0] && (a + b)[1..] == a[1..] + b;
      var r := Step(d, a[0], day);
      if r.Ok() { ExecAppend(r.disk, a[1..], b, day); }
    }
  }
}
