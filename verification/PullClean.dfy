/** A pull applied to an unedited workspace: any permutation, cycle or chain of paths goes through,
    makes no conflict copy, and changes nothing but what the plan names. */
module PullClean {
  import opened Basics
  import opened PullPlan
  import opened PullApply
  import opened PullFrames
  import opened PullSuccess
  import opened PullKept
  import opened PullExact

  /** Tracked files hold their recorded content and every write has its payload staged. */
  ghost predicate Clean(plan: Plan, d: Disk) {
    && (forall m :: m in plan.moves ==> Holds(d.live, m.source, m.hash))
    && (forall i :: i in plan.deletes && i.expected.Some? ==> Holds(d.live, i.path, i.expected.value))
    && (forall w :: w in plan.writes ==> Holds(d.staging, w.fileId, w.hash))
    && (forall w :: w in plan.writes && InPlace(w) && w.expectedPrevious.Some? ==>
          Holds(d.live, w.target, w.expectedPrevious.value))
  }

  predicate CleanAt(op: Op, d: Disk) {
    && !Dirty(d, Guard(op).path, Guard(op).expected)
    && match op
       case Stage(m) => Holds(d.live, m.source, m.hash)
       case Remove(i) => true
       case Put(w) => Holds(d.staging, w.fileId, w.hash)
       case Land(m) => Holds(d.staging, m.fileId, m.hash)
       case Shift(m) => Holds(d.live, m.source, m.hash)
  }

  /** Only `ps` and `ids` differ; no conflict copy was made. */
  ghost predicate PureFrame(d: Disk, s: Disk, ps: set<Path>, ids: set<FileId>) {
    && s.doc == d.doc && s.unresolved == d.unresolved
    && (forall p :: p !in ps ==> At(s.live, p) == At(d.live, p))
    && (forall id :: id !in ids ==> At(s.staging, id) == At(d.staging, id))
  }

  predicate StagedBy(op: Op, d: Disk) {
    op.Stage? ==> Holds(d.staging, op.m.fileId, op.m.hash)
  }

  lemma StepClean(d: Disk, op: Op, day: int)
    requires CleanAt(op, d) && (op.Shift? ==> op.m.source != op.m.target)
    ensures var r := Step(d, op, day);
            r.Ok() && PureFrame(d, r.disk, Touch(op), Ids(op)) && Done(op, r.disk) && StagedBy(op, r.disk)
  {
    assert Save(d, op, day) == Stay(d);
    hide PullApply.PreserveCopy;
  }

  lemma CleanAtFrame(d: Disk, e: Disk, op: Op)
    requires CleanAt(op, d)
    requires forall p :: p in Touch(op) ==> At(e.live, p) == At(d.live, p)
    requires forall id :: id in Ids(op) ==> At(e.staging, id) == At(d.staging, id)
    ensures CleanAt(op, e)
  {
    var p := Guard(op).path;
    assert p in Touch(op) && At(e.live, p) == At(d.live, p);
    match op
    case Stage(m) => assert m.source in Touch(op);
    case Remove(i) =>
    case Put(w) => assert w.fileId in Ids(op);
    case Land(m) => assert m.fileId in Ids(op);
    case Shift(m) => assert m.source in Touch(op);
  }

  lemma {:induction false} ExecClean(d: Disk, ops: seq<Op>, day: int)
    requires Indep(ops) && forall op :: op in ops ==> CleanAt(op, d)
    requires forall op :: op in ops && op.Shift? ==> op.m.source != op.m.target
    ensures var r := Exec(d, ops, day);
            r.Ok() && PureFrame(d, r.disk, TouchAll(ops), IdsAll(ops)) &&
            forall op :: op in ops ==> Done(op, r.disk) && StagedBy(op, r.disk)
    decreases |ops|
  {
    if ops != [] {
      var r := Step(d, ops[0], day);
      var e := Exec(d, ops, day).disk;
      assert ops[0] in ops;
      StepClean(d, ops[0], day);
      hide PullApply.Step;
      forall op | op in ops[1..]
        ensures CleanAt(op, r.disk)
      {
        assert Apart(ops[0], op);
        CleanAtFrame(d, r.disk, op);
      }
      ExecClean(r.disk, ops[1..], day);
      forall p | p in Touch(ops[0])
        ensures At(e.live, p) == At(r.disk.live, p)
      {
        assert p !in TouchAll(ops[1..]);
      }
      forall id | id in Ids(ops[0])
        ensures At(e.staging, id) == At(r.disk.staging, id)
      {
        assert id !in IdsAll(ops[1..]);
      }
      assert Touch(ops[0]) + TouchAll(ops[1..]) <= TouchAll(ops);
      assert Ids(ops[0]) + IdsAll(ops[1..]) <= IdsAll(ops);
    }
  }

  /** Every loop before `k` starts clean. */
  ghost predicate CleanBefore(plan: Plan, d: Disk, day: int, k: nat) {
    && Upto(d, plan, 1, day).Ok()
    && forall i :: 1 <= i < k ==> LoopClean(plan, d, day, i)
  }

  ghost predicate LoopClean(plan: Plan, d: Disk, day: int, i: nat) {
    Upto(d, plan, i, day).Ok() && forall op :: op in Phase(plan, i) ==> CleanAt(op, Upto(d, plan, i, day).disk)
  }

  lemma LoopRuns(plan: Plan, d: Disk, day: int, i: nat)
    requires WellFormed(plan) && 1 <= i <= 5 && LoopClean(plan, d, day, i)
    ensures var e := Upto(d, plan, i, day).disk;
            var r := Upto(d, plan, i + 1, day);
            && r.Ok() && r.disk.doc == e.doc && r.disk.unresolved == e.unresolved
            && (forall op :: op in Phase(plan, i) ==> Done(op, r.disk) && StagedBy(op, r.disk))
            && (forall p :: !TouchedIn(plan, i, p) ==> At(r.disk.live, p) == At(e.live, p))
            && (forall id :: !UsedIn(plan, i, id) ==> At(r.disk.staging, id) == At(e.staging, id))
  {
    var e := Upto(d, plan, i, day).disk;
    UptoStep(d, plan, i, day);
    PhaseIndep(plan, i);
    PhaseShifts(plan, i);
    hide PullApply.Phase, PullApply.Exec, PullPlan.WellFormed, TouchedIn, UsedIn;
    ExecClean(e, Phase(plan, i), day);
    forall p | !TouchedIn(plan, i, p)
      ensures p !in TouchAll(Phase(plan, i))
    {
      PhaseTouch(plan, i, p);
    }
    forall id | !UsedIn(plan, i, id)
      ensures id !in IdsAll(Phase(plan, i))
    {
      PhaseIds(plan, i, id);
    }
  }

  lemma {:induction false} PurePersist(plan: Plan, d: Disk, day: int, j: nat, k: nat, p: Path, id: FileId)
    requires WellFormed(plan) && 1 <= j <= k <= 6 && CleanBefore(plan, d, day, k)
    ensures Upto(d, plan, k, day).Ok()
    ensures var (a, b) := (Upto(d, plan, j, day).disk, Upto(d, plan, k, day).disk);
            && a.doc == b.doc && a.unresolved == b.unresolved
            && ((forall i :: j <= i < k ==> !TouchedIn(plan, i, p)) ==> At(b.live, p) == At(a.live, p))
            && ((forall i :: j <= i < k ==> !UsedIn(plan, i, id)) ==> At(b.staging, id) == At(a.staging, id))
  {
    hide Upto, TouchedIn, UsedIn, PullPlan.WellFormed;
    if j < k {
      assert LoopClean(plan, d, day, k - 1);
      PurePersist(plan, d, day, j, k - 1, p, id);
      LoopRuns(plan, d, day, k - 1);
    } else if k > 1 {
      assert LoopClean(plan, d, day, k - 1);
      LoopRuns(plan, d, day, k - 1);
    }
  }

  lemma CleanOne(plan: Plan, d: Disk, day: int)
    requires WellFormed(plan) && Clean(plan, d)
    ensures CleanBefore(plan, d, day, 2)
  {
    UptoStart(d, plan, day);
  }

  lemma CleanTwo(plan: Plan, d: Disk, day: int)
    requires WellFormed(plan) && Clean(plan, d) && CleanBefore(plan, d, day, 2)
    ensures CleanBefore(plan, d, day, 3)
  {
    UptoStart(d, plan, day);
    var e := Upto(d, plan, 2, day).disk;
    assert LoopClean(plan, d, day, 1);
    LoopRuns(plan, d, day, 1);
    forall op | op in Phase(plan, 2)
      ensures CleanAt(op, e)
    {
      assert !TouchedIn(plan, 1, op.item.path);
    }
  }

  lemma CleanThree(plan: Plan, d: Disk, day: int)
    requires WellFormed(plan) && Clean(plan, d) && CleanBefore(plan, d, day, 3)
    ensures CleanBefore(plan, d, day, 4)
  {
    UptoStart(d, plan, day);
    PhaseItems(plan);
    hide Upto, PullApply.Phase;
    var e := Upto(d, plan, 3, day).disk;
    forall op | op in Phase(plan, 3)
      ensures CleanAt(op, e)
    {
      PurePersist(plan, d, day, 1, 3, op.w.target, op.w.fileId);
    }
    assert Upto(d, plan, 3, day).Ok() by { PurePersist(plan, d, day, 1, 3, Plain(""), Named("")); }
  }

  lemma CleanFour(plan: Plan, d: Disk, day: int)
    requires WellFormed(plan) && Clean(plan, d) && CleanBefore(plan, d, day, 4)
    ensures CleanBefore(plan, d, day, 5)
  {
    var e := Upto(d, plan, 4, day).disk;
    hide Upto, PullApply.Phase, CleanAt, Clean, PullPlan.WellFormed;
    forall op | op in Phase(plan, 4)
      ensures CleanAt(op, e)
    {
      CleanFourAt(plan, d, day, op);
    }
    assert Upto(d, plan, 4, day).Ok() by {
      UptoStart(d, plan, day);
      PurePersist(plan, d, day, 1, 4, Plain(""), Named(""));
    }
  }

  lemma CleanFourAt(plan: Plan, d: Disk, day: int, op: Op)
    requires WellFormed(plan) && Clean(plan, d) && CleanBefore(plan, d, day, 4) && op in Phase(plan, 4)
    ensures CleanAt(op, Upto(d, plan, 4, day).disk)
  {
    hide Upto, PullApply.Phase, Clean, PullPlan.WellFormed, CleanBefore;
    PhaseItems(plan);
    if op.Land? {
      CleanLand(plan, d, day, op.m);
    } else {
      CleanShift(plan, d, day, op.m);
    }
  }

  /** A staged move still has its payload when it is placed. */
  lemma CleanLand(plan: Plan, d: Disk, day: int, m: MoveItem)
    requires WellFormed(plan) && CleanBefore(plan, d, day, 4) && m in plan.moves && Blocks(m, plan.blocking)
    ensures Holds(Upto(d, plan, 4, day).disk.staging, m.fileId, m.hash)
  {
    assert LoopClean(plan, d, day, 1);
    hide Upto, PullApply.Phase, LoopClean, CleanBefore, PullPlan.WellFormed;
    LoopRuns(plan, d, day, 1);
    StageInPhase(plan, m);
    NotUsedBetween(plan, m);
    hide UsedIn, TouchedIn;
    PurePersist(plan, d, day, 2, 4, m.source, m.fileId);
  }

  lemma NotUsedBetween(plan: Plan, m: MoveItem)
    requires WellFormed(plan) && m in plan.moves
    ensures forall i :: 2 <= i < 4 ==> !UsedIn(plan, i, m.fileId)
  {
  }

  /** A direct move still finds its source as recorded. */
  lemma CleanShift(plan: Plan, d: Disk, day: int, m: MoveItem)
    requires WellFormed(plan) && Clean(plan, d) && CleanBefore(plan, d, day, 4) && m in plan.moves && !Blocks(m, plan.blocking)
    ensures Holds(Upto(d, plan, 4, day).disk.live, m.source, m.hash)
  {
    assert Holds(d.live, m.source, m.hash);
    hide Upto, PullApply.Phase, LoopClean, CleanBefore, PullPlan.WellFormed, Clean;
    UptoStart(d, plan, day);
    DirectUntouched(plan, m);
    hide UsedIn, TouchedIn;
    PurePersist(plan, d, day, 1, 4, m.source, m.fileId);
  }

  lemma DirectUntouched(plan: Plan, m: MoveItem)
    requires WellFormed(plan) && m in plan.moves && !Blocks(m, plan.blocking)
    ensures forall i :: 1 <= i < 4 ==> !TouchedIn(plan, i, m.source)
  {
    assert m.source in Sources(plan);
    assert forall w :: w in plan.writes ==> w.target in Targets(plan);
    forall x | x in plan.moves && x.source == m.source { SameSource(plan, x, m); }
  }

  lemma SameSource(plan: Plan, a: MoveItem, b: MoveItem)
    requires WellFormed(plan) && a in plan.moves && b in plan.moves && a.source == b.source
    ensures a == b
  {
    var i :| 0 <= i < |plan.moves| && plan.moves[i] == a;
    var j :| 0 <= j < |plan.moves| && plan.moves[j] == b;
  }

  lemma CleanFive(plan: Plan, d: Disk, day: int)
    requires WellFormed(plan) && Clean(plan, d) && CleanBefore(plan, d, day, 5)
    ensures CleanBefore(plan, d, day, 6)
  {
    UptoStart(d, plan, day);
    LateItems(plan);
    hide Upto, PullApply.Phase;
    var e := Upto(d, plan, 5, day).disk;
    forall op | op in Phase(plan, 5)
      ensures CleanAt(op, e)
    {
      PurePersist(plan, d, day, 1, 5, op.item.path, op.item.fileId);
    }
    assert Upto(d, plan, 5, day).Ok() by { PurePersist(plan, d, day, 1, 5, Plain(""), Named("")); }
  }

  lemma LateItems(plan: Plan)
    ensures forall op :: op in Phase(plan, 5) ==>
      op.Remove? && op.item in plan.deletes && op.item.path !in plan.blocking
  {
  }

  lemma CleanAll(plan: Plan, d: Disk, day: int)
    requires WellFormed(plan) && Clean(plan, d)
    ensures CleanBefore(plan, d, day, 6)
  {
    hide *;
    CleanOne(plan, d, day);
    CleanTwo(plan, d, day);
    CleanThree(plan, d, day);
    CleanFour(plan, d, day);
    CleanFive(plan, d, day);
  }

  /** In a clean run the work of loop `k` is still done at the end, unless a later loop touches it. */
  lemma CleanDone(plan: Plan, d: Disk, day: int, k: nat, op: Op, p: Path)
    requires WellFormed(plan) && CleanBefore(plan, d, day, 6) && 1 <= k <= 5 && op in Phase(plan, k)
    requires forall i :: k < i < 6 ==> !TouchedIn(plan, i, p)
    ensures Done(op, Upto(d, plan, k + 1, day).disk)
    ensures At(Upto(d, plan, 6, day).disk.live, p) == At(Upto(d, plan, k + 1, day).disk.live, p)
  {
    hide *;
    StartsClean(plan, d, day, k);
    LoopDoes(plan, d, day, k, op);
    PurePersist(plan, d, day, k + 1, 6, p, Named(""));
  }

  lemma StartsClean(plan: Plan, d: Disk, day: int, k: nat)
    requires CleanBefore(plan, d, day, 6) && 1 <= k <= 5
    ensures LoopClean(plan, d, day, k)
  {
    hide LoopClean, Upto;
  }

  lemma LoopDoes(plan: Plan, d: Disk, day: int, k: nat, op: Op)
    requires WellFormed(plan) && 1 <= k <= 5 && LoopClean(plan, d, day, k) && op in Phase(plan, k)
    ensures Done(op, Upto(d, plan, k + 1, day).disk)
  {
    hide *;
    LoopRuns(plan, d, day, k);
  }

  /** Main result: on a clean workspace the run never fails, whatever swaps, cycles and chains the plan
      holds; it makes no conflict copy, applies the plan, and leaves every other path as it was. */
  lemma CleanApply(plan: Plan, d: Disk, day: int)
    requires WellFormed(plan) && Clean(plan, d)
    ensures var r := Apply(d, plan, day);
            && r.Ok() && Applied(plan, r.disk)
            && r.disk.doc == d.doc && r.disk.unresolved == d.unresolved
            && forall p :: p !in Targets(plan) + Sources(plan) ==> At(r.disk.live, p) == At(d.live, p)
  {
    CleanAll(plan, d, day);
    UptoStart(d, plan, day);
    var e := Apply(d, plan, day).disk;
    assert Apply(d, plan, day) == Upto(d, plan, 6, day);
    hide Upto, PullApply.Apply;
    PurePersist(plan, d, day, 1, 6, Plain(""), Named(""));
    forall p | p !in Targets(plan) + Sources(plan)
      ensures At(e.live, p) == At(d.live, p)
    {
      PurePersist(plan, d, day, 1, 6, p, Named(""));
    }
    CleanApplied(plan, d, day);
  }

  lemma CleanApplied(plan: Plan, d: Disk, day: int)
    requires WellFormed(plan) && CleanBefore(plan, d, day, 6)
    ensures Applied(plan, Upto(d, plan, 6, day).disk)
  {
    hide Upto, CleanBefore, PullApply.Phase;
    var e := Upto(d, plan, 6, day).disk;
    forall w | w in plan.writes
      ensures Holds(e.live, w.target, w.hash)
    {
      PutInPhase(plan, w);
      CleanDone(plan, d, day, 3, Put(w), w.target);
    }
    forall m | m in plan.moves
      ensures Holds(e.live, m.target, m.hash)
      ensures m.source !in Targets(plan) ==> m.source !in e.live
    {
      PlaceInPhase(plan, m);
      CleanDone(plan, d, day, 4, PlaceOp(m, plan.blocking), m.target);
      if m.source !in Targets(plan) {
        if Blocks(m, plan.blocking) {
          StageInPhase(plan, m);
          CleanDone(plan, d, day, 1, Stage(m), m.source);
        } else {
          CleanDone(plan, d, day, 4, PlaceOp(m, plan.blocking), m.source);
        }
      }
    }
    forall i | i in plan.deletes && i.path !in Targets(plan)
      ensures i.path !in e.live
    {
      RemoveInPhase(plan, i);
      CleanDone(plan, d, day, 5, Remove(i), i.path);
    }
  }

  lemma RemoveInPhase(plan: Plan, i: DeleteItem)
    requires i in plan.deletes && i.path !in plan.blocking
    ensures Remove(i) in Phase(plan, 5)
  {
  }
}
