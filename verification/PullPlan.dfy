/** Workspace records, pulled manifests, and the plan that turns one into the other. */
module PullPlan {
  import opened Basics

  /** Generated ids are random and never drawn twice: they are numbered in the order they were drawn. */
  datatype FileId = Named(name: string) | Generated(serial: nat)

  /** `ConflictName(o, day, n)` is the name "stem (conflict day device) n.suffix" next to `o`. */
  datatype Path = Plain(name: string) | ConflictName(original: Path, day: int, n: nat)

  datatype Status = Active | Deleted | ConflictCopy
  datatype Record = Record(fileId: FileId, path: Path, status: Status, hash: Option<Hash>, conflictOf: Option<FileId>)
  datatype Entry = Entry(fileId: FileId, path: Path, hash: Hash)

  datatype WriteItem = WriteItem(fileId: FileId, target: Path, hash: Hash,
                                 previousPath: Option<Path>, expectedPrevious: Option<Hash>)
  datatype MoveItem = MoveItem(fileId: FileId, source: Path, target: Path, hash: Hash)
  datatype DeleteItem = DeleteItem(fileId: FileId, path: Path, expected: Option<Hash>)
  datatype Plan = Plan(revision: nat, writes: seq<WriteItem>, moves: seq<MoveItem>, deletes: seq<DeleteItem>,
                       blocking: set<Path>)

  function Targets(plan: Plan): set<Path> {
    (set w | w in plan.writes :: w.target) + (set m | m in plan.moves :: m.target)
  }

  function Sources(plan: Plan): set<Path> {
    (set m | m in plan.moves :: m.source) + (set d | d in plan.deletes :: d.path)
  }

  /** A move is staged first when either of its ends is a blocking path. */
  predicate Blocks(m: MoveItem, blocking: set<Path>) {
    m.source in blocking || m.target in blocking
  }

  /** A write that replaces the content of a file at its own path. */
  predicate InPlace(w: WriteItem) {
    w.previousPath == Some(w.target)
  }

  /** What the plan builder guarantees of its plans: no path or file id is used twice on one side. */
  ghost predicate WellFormed(plan: Plan) {
    && (forall i, j :: 0 <= i < j < |plan.moves| ==>
          && plan.moves[i].source != plan.moves[j].source
          && plan.moves[i].target != plan.moves[j].target
          && plan.moves[i].fileId != plan.moves[j].fileId)
    && (forall i, j :: 0 <= i < j < |plan.writes| ==>
          && plan.writes[i].target != plan.writes[j].target
          && plan.writes[i].fileId != plan.writes[j].fileId)
    && (forall i, j :: 0 <= i < j < |plan.deletes| ==> plan.deletes[i].path != plan.deletes[j].path)
    && (forall m, w :: m in plan.moves && w in plan.writes ==> m.target != w.target && m.fileId != w.fileId)
    && (forall m, d :: m in plan.moves && d in plan.deletes ==> m.source != d.path)
    && (forall m :: m in plan.moves ==> m.source != m.target)
    && (forall w :: w in plan.writes && InPlace(w) ==> w.target !in Sources(plan))
    && plan.blocking == Targets(plan) * Sources(plan)
    && CheckedOnce(plan)
  }

  /** No file id stands for two deletions, or for a deletion and a move or an in-place write. */
  ghost predicate CheckedOnce(plan: Plan) {
    && (forall i, j :: 0 <= i < j < |plan.deletes| ==> plan.deletes[i].fileId != plan.deletes[j].fileId)
    && (forall m, d :: m in plan.moves && d in plan.deletes ==> m.fileId != d.fileId)
    && (forall w, d :: w in plan.writes && d in plan.deletes && InPlace(w) ==> w.fileId != d.fileId)
  }
}
