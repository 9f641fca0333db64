/** A pull apply that returns normally has applied its plan, whatever it started from. */
module PullSuccess {
  import opened Basics
  import opened PullPlan
  import opened PullApply
  import opened PullFrames

  ghost predicate AllSafe(o: Scope, d: Disk, ps: set<Path>) {
    forall p :: p in ps ==> Safe(o, d, p)
  }

  /** The files a plan compares with a recorded hash: moved, deleted or overwritten in place. */
  function Checked(plan: Plan): set<Tracked> {
    (set m | m in plan.moves :: Tracked(m.fileId, m.source, Some(m.hash))) +
    (set i | i in plan.deletes && i.expected.Some? :: Tracked(i.fileId, i.path, i.expected)) +
    (set w | w in plan.writes && InPlace(w) && w.expectedPrevious.Some? :: Tracked(w.fileId, w.target, w.expectedPrevious))
  }

  /** The conflict copies that runs of the plan on these days may make or restore. */
  function Claims(plan: Plan, days: set<int>): Scope {
    Scope(set t | t in Checked(plan) :: t.id, set t | t in Checked(plan) :: t.path, days)
  }

  /** No path of the plan is a name that a conflict copy may take on these days,
      or the registered copy of a file the plan checks. */
  ghost predicate Separated(plan: Plan, d: Disk, days: set<int>) {
    AllSafe(Claims(plan, days), d, Targets(plan) + Sources(plan))
  }

  lemma PhaseFits(plan: Plan, days: set<int>, day: int, k: nat)
    requires day in days
    ensures AllFit(Claims(plan, days), Phase(plan, k), day)
  {
    forall op | op in Phase(plan, k) && Guard(op).expected.Some?
      ensures Guard(op) in Checked(plan)
    {
    }
  }

  lemma {:induction false} BeforeFits(plan: Plan, days: set<int>, day: int, k: nat)
    requires day in days
    ensures AllFit(Claims(plan, days), Before(plan, k), day)
  {
    hide PullApply.Phase, Claims;
    if k > 1 {
      BeforeFits(plan, days, day, k - 1);
      PhaseFits(plan, days, day, k - 1);
    }
  }

  /** What one iteration leaves true of the paths it touches. */
  predicate Done(op: Op, d: Disk) {
    match op
    case Stage(m) => m.source !in d.live
    case Remove(item) => item.path !in d.live
    case Put(w) => Holds(d.live, w.target, w.hash)
    case Land(m) => Holds(d.live, m.target, m.hash)
    case Shift(m) => Holds(d.live, m.target, m.hash) && m.source !in d.live
  }

  ghost predicate Apart(a: Op, b: Op) {
    Touch(a) !! Touch(b) && Ids(a) !! Ids(b)
  }

  /** The iterations touch pairwise different paths and payloads. */
  ghost predicate Indep(ops: seq<Op>) {
    ops == [] || (Indep(ops[1..]) && forall o :: o in ops[1..] ==> Apart(ops[0], o))
  }

  /** The state of a run when loop `k` starts. */
  function Upto(d: Disk, plan: Plan, k: nat, day: int): Run {
    Exec(d, Before(plan, k), day)
  }

  lemma UptoStart(d: Disk, plan: Plan, day: int)
    ensures Upto(d, plan, 1, day) == Stay(d)
  {
  }

  lemma StepDone(d: Disk, op: Op, day: int)
    requires Step(d, op, day).Ok()
    requires op.Shift? ==> op.m.source != op.m.target
    ensures Done(op, Step(d, op, day).disk)
  {
    hide PullApply.PreserveCopy;
  }

  lemma {:induction false} ExecDone(o: Scope, d: Disk, ops: seq<Op>, day: int)
    requires Indep(ops) && AllFit(o, ops, day) && AllSafe(o, d, TouchAll(ops))
    requires forall op :: op in ops && op.Shift? ==> op.m.source != op.m.target
    requires Exec(d, ops, day).Ok()
    ensures forall op :: op in ops ==> Done(op, Exec(d, ops, day).disk)
    decreases |ops|
  {
    if ops != [] {
      hide PullApply.Step;
      var r := Step(d, ops[0], day);
      var e := Exec(d, ops, day).disk;
      StepDone(d, ops[0], day);
      StepFrame(o, d, ops[0], day, r.disk);
      ExecDone(o, r.disk, ops[1..], day);
      ExecFrame(o, r.disk, ops[1..], day, e);
      forall p | p in Touch(ops[0])
        ensures At(e.live, p) == At(r.disk.live, p)
      {
        assert p in TouchAll(ops);
      }
    }
  }

  lemma {:induction false} StagesIndep(moves: seq<MoveItem>, blocking: set<Path>)
    requires forall i, j :: 0 <= i < j < |moves| ==>
      moves[i].source != moves[j].source && moves[i].fileId != moves[j].fileId
    ensures Indep(StageOps(moves, blocking))
  {
    if moves != [] {
      var rest := moves[1..];
      StagesIndep(rest, blocking);
      var ops := StageOps(moves, blocking);
      if Blocks(moves[0], blocking) {
        assert ops[0] == Stage(moves[0]) && ops[1..] == StageOps(rest, blocking);
        forall o | o in ops[1..]
          ensures Apart(ops[0], o)
        {
          var k :| 0 <= k < |rest| && o.m == rest[k];
          assert rest[k] == moves[k + 1];
        }
      } else {
        assert ops == StageOps(rest, blocking);
      }
    }
  }

  lemma {:induction false} PlacesIndep(moves: seq<MoveItem>, blocking: set<Path>)
    requires forall i, j :: 0 <= i < j < |moves| ==>
      moves[i].source != moves[j].source && moves[i].target != moves[j].target && moves[i].fileId != moves[j].fileId
    requires forall a, b :: a in moves && b in moves && !Blocks(a, blocking) ==> a.source != b.target
    ensures Indep(PlaceOps(moves, blocking))
  {
    if moves != [] {
      var rest := moves[1..];
      var ops := PlaceOps(moves, blocking);
      assert ops[0] == PlaceOp(moves[0], blocking) && ops[1..] == PlaceOps(rest, blocking);
      hide Blocks, Apart, PlaceOp, PlaceOps;
      PlacesIndep(rest, blocking);
      forall o | o in ops[1..]
        ensures Apart(ops[0], o)
      {
        var k :| 0 <= k < |rest| && o == PlaceOp(rest[k], blocking);
        assert rest[k] == moves[k + 1] && moves[k + 1] in moves;
        PlacesApart(moves[0], rest[k], blocking);
      }
    }
  }

  lemma PlacesApart(a: MoveItem, b: MoveItem, blocking: set<Path>)
    requires a.source != b.source && a.target != b.target && a.fileId != b.fileId
    requires !Blocks(a, blocking) ==> a.source != b.target
    requires !Blocks(b, blocking) ==> b.source != a.target
    ensures Apart(PlaceOp(a, blocking), PlaceOp(b, blocking))
  {
    hide Blocks;
  }

  lemma {:induction false} RemovesIndep(deletes: seq<DeleteItem>, blocking: set<Path>, early: bool)
    requires forall i, j :: 0 <= i < j < |deletes| ==> deletes[i].path != deletes[j].path
    ensures Indep(RemoveOps(deletes, blocking, early))
  {
    if deletes != [] {
      var rest := deletes[1..];
      RemovesIndep(rest, blocking, early);
      if (deletes[0].path in blocking) == early {
        var ops := RemoveOps(deletes, blocking, early);
        assert ops[0] == Remove(deletes[0]) && ops[1..] == RemoveOps(rest, blocking, early);
        forall o | o in RemoveOps(rest, blocking, early)
          ensures Apart(ops[0], o)
        {
          var k :| 0 <= k < |rest| && o.item == rest[k];
          assert rest[k] == deletes[k + 1];
        }
      } else {
        assert RemoveOps(deletes, blocking, early) == RemoveOps(rest, blocking, early);
      }
    }
  }

  lemma {:induction false} PutsIndep(writes: seq<WriteItem>)
    requires forall i, j :: 0 <= i < j < |writes| ==>
      writes[i].target != writes[j].target && writes[i].fileId != writes[j].fileId
    ensures Indep(PutOps(writes))
  {
    if writes != [] {
      var rest := writes[1..];
      var ops := PutOps(writes);
      assert ops[0] == Put(writes[0]) && ops[1..] == PutOps(rest);
      hide Apart;
      PutsIndep(rest);
      forall o | o in PutOps(rest)
        ensures Apart(ops[0], o)
      {
        var k :| 0 <= k < |rest| && o.w == rest[k];
        assert rest[k] == writes[k + 1];
        PutsApart(writes[0], rest[k]);
      }
    }
  }

  lemma PutsApart(a: WriteItem, b: WriteItem)
    requires a.target != b.target && a.fileId != b.fileId
    ensures Apart(Put(a), Put(b))
  {
  }

  lemma PhaseIndep(plan: Plan, k: nat)
    requires WellFormed(plan)
    ensures Indep(Phase(plan, k))
  {
    if k == 1 {
      StagesIndep(plan.moves, plan.blocking);
    } else if k == 4 {
      PlacesIndep(plan.moves, plan.blocking);
    } else if k == 2 || k == 5 {
      RemovesIndep(plan.deletes, plan.blocking, k == 2);
    } else if k == 3 {
      PutsIndep(plan.writes);
    }
  }

  /** Which paths each loop touches. */
  ghost predicate TouchedIn(plan: Plan, k: nat, p: Path) {
    || (k == 1 && exists m :: m in plan.moves && Blocks(m, plan.blocking) && p == m.source)
    || (k == 2 && p in plan.blocking && exists i :: i in plan.deletes && p == i.path)
    || (k == 3 && exists w :: w in plan.writes && p == w.target)
    || (k == 4 && exists m :: m in plan.moves && (p == m.target || (p == m.source && !Blocks(m, plan.blocking))))
    || (k == 5 && p !in plan.blocking && exists i :: i in plan.deletes && p == i.path)
  }

  lemma PhaseTouch(plan: Plan, k: nat, p: Path)
    ensures p in TouchAll(Phase(plan, k)) ==> TouchedIn(plan, k, p)
  {
    if p in TouchAll(Phase(plan, k)) {
      var op :| op in Phase(plan, k) && p in Touch(op);
    }
  }

  lemma UptoStep(d: Disk, plan: Plan, k: nat, day: int)
    requires k >= 1
    ensures var r := Upto(d, plan, k, day);
            Upto(d, plan, k + 1, day) == if r.Ok() then Then(r, Exec(r.disk, Phase(plan, k), day)) else r
  {
    ExecAppend(d, Before(plan, k), Phase(plan, k), day);
  }

  /** From loop `j` on, a safe path changes only in the loops that touch it. */
  lemma {:induction false} Persist(d: Disk, plan: Plan, day: int, p: Path, j: nat, k: nat)
    requires 1 <= j <= k && Upto(d, plan, k, day).Ok() && Safe(Claims(plan, {day}), d, p)
    requires forall i :: j <= i < k ==> !TouchedIn(plan, i, p)
    ensures Upto(d, plan, j, day).Ok()
    ensures At(Upto(d, plan, k, day).disk.live, p) == At(Upto(d, plan, j, day).disk.live, p)
  {
    if j < k {
      UptoStep(d, plan, k - 1, day);
      var r := Upto(d, plan, k - 1, day);
      var o := Claims(plan, {day});
      BeforeFits(plan, {day}, day, k - 1);
      PhaseFits(plan, {day}, day, k - 1);
      hide Claims, PullApply.Phase, PullFrames.Safe, TouchedIn;
      Persist(d, plan, day, p, j, k - 1);
      ExecFrame(o, d, Before(plan, k - 1), day, r.disk);
      ExecFrame(o, r.disk, Phase(plan, k - 1), day, Upto(d, plan, k, day).disk);
      PhaseTouch(plan, k - 1, p);
    }
  }

  /** After loop `k`, its iterations have done their work. */
  lemma PhaseDone(d: Disk, plan: Plan, day: int, k: nat)
    requires 1 <= k <= 5 && WellFormed(plan) && Separated(plan, d, {day}) && Upto(d, plan, k + 1, day).Ok()
    ensures forall op :: op in Phase(plan, k) ==> Done(op, Upto(d, plan, k + 1, day).disk)
  {
    UptoStep(d, plan, k, day);
    var r := Upto(d, plan, k, day);
    PhaseIndep(plan, k);
    PhaseFits(plan, {day}, day, k);
    PhaseShifts(plan, k);
    hide Claims, PullApply.Phase, PullPlan.WellFormed;
    PlanSafe(d, plan, {day}, day, k, r.disk);
    PlanTouchSafe(plan, r.disk, {day}, k);
    ExecDone(Claims(plan, {day}), r.disk, Phase(plan, k), day);
  }

  lemma PhaseShifts(plan: Plan, k: nat)
    requires WellFormed(plan)
    ensures forall op :: op in Phase(plan, k) && op.Shift? ==> op.m.source != op.m.target
  {
  }

  lemma PhaseIn(plan: Plan, k: nat)
    ensures TouchAll(Phase(plan, k)) <= Targets(plan) + Sources(plan)
  {
    forall p | p in TouchAll(Phase(plan, k))
      ensures p in Targets(plan) + Sources(plan)
    {
      PhaseTouch(plan, k, p);
    }
  }

  lemma {:induction false} BeforeIn(plan: Plan, k: nat)
    ensures TouchAll(Before(plan, k)) <= Targets(plan) + Sources(plan)
  {
    hide PullApply.Phase;
    if k > 1 {
      BeforeIn(plan, k - 1);
      PhaseIn(plan, k - 1);
    }
  }

  lemma PlanTouchSafe(plan: Plan, d: Disk, days: set<int>, k: nat)
    requires Separated(plan, d, days)
    ensures AllSafe(Claims(plan, days), d, TouchAll(Phase(plan, k)))
  {
    PhaseIn(plan, k);
  }

  lemma PathSafe(plan: Plan, d: Disk, days: set<int>, p: Path)
    requires Separated(plan, d, days) && p in Targets(plan) + Sources(plan)
    ensures Safe(Claims(plan, days), d, p)
  {
  }

  /** A run leaves its plan separated from all conflict copies. */
  lemma PlanSafe(d: Disk, plan: Plan, days: set<int>, day: int, k: nat, s: Disk)
    requires Separated(plan, d, days) && day in days && Upto(d, plan, k, day).Visits(s)
    ensures Separated(plan, s, days)
  {
    BeforeFits(plan, days, day, k);
    ExecFrame(Claims(plan, days), d, Before(plan, k), day, s);
  }

  ghost predicate Applied(plan: Plan, d: Disk) {
    && (forall w :: w in plan.writes ==> Holds(d.live, w.target, w.hash))
    && (forall m :: m in plan.moves ==> Holds(d.live, m.target, m.hash))
    && (forall p :: p in Sources(plan) - Targets(plan) ==> p !in d.live)
  }

  lemma {:induction false} AllUpto(d: Disk, plan: Plan, day: int, k: nat)
    requires 1 <= k <= 6 && Upto(d, plan, 6, day).Ok()
    ensures Upto(d, plan, k, day).Ok()
    decreases 6 - k
  {
    hide PullApply.Exec, Upto, PullApply.Before, PullApply.Phase;
    if k < 6 {
      AllUpto(d, plan, day, k + 1);
      UptoStep(d, plan, k, day);
    }
  }

  /** If the run gets past loop `k`, the work of loop `k` is done then. */
  lemma LoopDone(d: Disk, plan: Plan, day: int, k: nat, op: Op)
    requires 1 <= k <= 5 && WellFormed(plan) && Separated(plan, d, {day}) && Upto(d, plan, 6, day).Ok()
    requires op in Phase(plan, k)
    ensures Upto(d, plan, k + 1, day).Ok() && Done(op, Upto(d, plan, k + 1, day).disk)
  {
    hide PullApply.Exec, Upto, PullApply.Before, PullApply.Phase;
    AllUpto(d, plan, day, k + 1);
    PhaseDone(d, plan, day, k);
  }

  lemma StageInPhase(plan: Plan, m: MoveItem)
    requires m in plan.moves && Blocks(m, plan.blocking)
    ensures Stage(m) in Phase(plan, 1)
  {
  }

  lemma PlaceInPhase(plan: Plan, m: MoveItem)
    requires m in plan.moves
    ensures PlaceOp(m, plan.blocking) in Phase(plan, 4)
  {
    var k :| 0 <= k < |plan.moves| && plan.moves[k] == m;
    assert Phase(plan, 4)[k] == PlaceOp(m, plan.blocking);
  }

  lemma WriteHolds(d: Disk, plan: Plan, day: int, w: WriteItem)
    requires WellFormed(plan) && Separated(plan, d, {day}) && Upto(d, plan, 6, day).Ok() && w in plan.writes
    ensures Holds(Upto(d, plan, 6, day).disk.live, w.target, w.hash)
  {
    hide Upto;
    PathSafe(plan, d, {day}, w.target);
    LoopDone(d, plan, day, 3, Put(w));
    Persist(d, plan, day, w.target, 4, 6);
  }

  lemma MoveHolds(d: Disk, plan: Plan, day: int, m: MoveItem)
    requires WellFormed(plan) && Separated(plan, d, {day}) && Upto(d, plan, 6, day).Ok() && m in plan.moves
    ensures Holds(Upto(d, plan, 6, day).disk.live, m.target, m.hash)
  {
    hide Upto, PullApply.Phase;
    PlaceInPhase(plan, m);
    PathSafe(plan, d, {day}, m.target);
    LoopDone(d, plan, day, 4, PlaceOp(m, plan.blocking));
    Persist(d, plan, day, m.target, 5, 6);
  }

  lemma MoveSourceGone(d: Disk, plan: Plan, day: int, m: MoveItem)
    requires WellFormed(plan) && Separated(plan, d, {day}) && Upto(d, plan, 6, day).Ok() && m in plan.moves
    requires m.source !in Targets(plan)
    ensures m.source !in Upto(d, plan, 6, day).disk.live
  {
    hide Upto, PullApply.Phase;
    PlaceInPhase(plan, m);
    PathSafe(plan, d, {day}, m.source);
    LoopDone(d, plan, day, 4, PlaceOp(m, plan.blocking));
    if Blocks(m, plan.blocking) {
      StageInPhase(plan, m);
      LoopDone(d, plan, day, 1, Stage(m));
      Persist(d, plan, day, m.source, 2, 6);
    } else {
      Persist(d, plan, day, m.source, 5, 6);
    }
  }

  /** Main result: a normal return means every target holds its planned content and
      every vacated path is gone, from any workspace and any staged payloads. */
  lemma SuccessMeansApplied(d: Disk, plan: Plan, day: int)
    requires WellFormed(plan) && Separated(plan, d, {day})
    requires Apply(d, plan, day).Ok()
    ensures Applied(plan, Apply(d, plan, day).disk)
  {
    assert Apply(d, plan, day) == Upto(d, plan, 6, day);
    hide Apply, Upto;
    forall w | w in plan.writes { WriteHolds(d, plan, day, w); }
    forall m | m in plan.moves { MoveHolds(d, plan, day, m); }
    forall m | m in plan.moves && m.source !in Targets(plan) { MoveSourceGone(d, plan, day, m); }
    forall i | i in plan.deletes && i.path !in Targets(plan)
      ensures i.path !in Apply(d, plan, day).disk.live
    {
      LoopDone(d, plan, day, 5, Remove(i));
    }
  }
}
