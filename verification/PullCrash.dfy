/** Crashes and replays: which interrupted runs converge, and exactly which do not. */
module PullCrash {
  import opened Basics
  import opened PullPlan
  import opened PullApply
  import opened PullFrames
  import opened PullSuccess
  import opened PullOrder
  import opened PullKept
  import opened PullSaves
  import opened PullReady
  import opened PullExact

  /** No file moves to a path that another move or a deletion has to vacate. */
  ghost predicate NoChain(plan: Plan) {
    forall m :: m in plan.moves ==> m.target !in Sources(plan)
  }

  lemma SuppliedFrame(plan: Plan, o: Scope, d: Disk, s: Disk, id: FileId, target: Path, h: Hash,
                      ps: set<Path>, ids: set<FileId>)
    requires Frame(o, d, s, ps, ids) && Safe(o, d, target) && id !in ids
    requires target !in ps || target in Sources(plan)
    ensures Supplied(plan, d, id, target, h) == Supplied(plan, s, id, target, h)
  {
    assert At(s.staging, id) == At(d.staging, id);
  }

  lemma MoveReadyFrame(plan: Plan, o: Scope, d: Disk, s: Disk, m: MoveItem, staged: bool,
                       ps: set<Path>, ids: set<FileId>)
    requires Frame(o, d, s, ps, ids) && Safe(o, d, m.source) && Safe(o, d, m.target) && m.fileId !in ids
    requires m.source !in ps || (staged && Blocks(m, plan.blocking))
    requires m.target !in ps || (m.target in Sources(plan) && Blocks(m, plan.blocking))
    ensures MoveReady(plan, d, m, staged) == MoveReady(plan, s, m, staged)
  {
    SuppliedFrame(plan, o, d, s, m.fileId, m.target, m.hash, ps, ids);
    assert At(s.staging, m.fileId) == At(d.staging, m.fileId);
  }

  lemma StageSelf(plan: Plan, o: Scope, d: Disk, m: MoveItem, day: int, s: Disk)
    requires o.Has(Guard(Stage(m)), day) && Safe(o, d, m.source) && Safe(o, d, m.target)
    requires MoveReady(plan, d, m, false) && Blocks(m, plan.blocking)
    requires m.source != m.target && StageMove(d, m, day).Visits(s)
    ensures MoveReady(plan, s, m, false)
  {
    var p := Save(d, Stage(m), day);
    if p.Visits(s) {
      PreserveFrame(o, d, Guard(Stage(m)), day, s);
      MoveReadyFrame(plan, o, d, s, m, false, {}, {});
    } else {
      PreserveFrame(o, d, Guard(Stage(m)), day, p.disk);
      hide PullApply.PreserveCopy;
      if m.source in d.live && !Holds(d.live, m.source, m.hash) {
        SuppliedFrame(plan, o, d, p.disk, m.fileId, m.target, m.hash, {}, {});
      }
    }
  }

  /** What follows the save of a direct move has the target in place. */
  lemma ShiftPlaced(d: Disk, m: MoveItem, day: int, s: Disk)
    requires m.source != m.target && PlaceDirect(d, m, day).Visits(s) && !Save(d, Shift(m), day).Visits(s)
    requires !Dirty(d, m.source, Some(m.hash)) ==> Save(d, Shift(m), day) == Stay(d)
    ensures Holds(s.live, m.target, m.hash)
  {
    hide PullApply.PreserveCopy;
  }

  lemma ShiftSelf(o: Scope, d: Disk, m: MoveItem, day: int, s: Disk)
    requires Can(Shift(m), d) && o.Has(Guard(Shift(m)), day) && Safe(o, d, m.source) && Safe(o, d, m.target)
    requires m.source != m.target && PlaceDirect(d, m, day).Visits(s)
    ensures Can(Shift(m), s)
  {
    hide PullApply.PlaceDirect, PullFrames.Safe;
    if Save(d, Shift(m), day).Visits(s) {
      PreserveFrame(o, d, Guard(Shift(m)), day, s);
      assert At(s.live, m.source) == At(d.live, m.source) && At(s.live, m.target) == At(d.live, m.target);
    } else {
      if !Dirty(d, m.source, Some(m.hash)) { CleanSave(d, Shift(m), day); }
      ShiftPlaced(d, m, day, s);
    }
  }

  /** Another iteration neither uses the payload of a write nor touches its target, unless to vacate it. */
  lemma WriteUntouched(plan: Plan, op: Op, k: nat, w: WriteItem)
    requires WellFormed(plan) && op in Phase(plan, k) && w in plan.writes
    ensures op != Put(w) ==> w.fileId !in Ids(op) && (w.target !in Touch(op) || w.target in Sources(plan))
  {
    PhaseKind(plan, k, op);
    hide PullApply.Phase;
  }

  lemma StepReadyWrite(plan: Plan, d: Disk, days: set<int>, op: Op, k: nat, day: int, s: Disk, w: WriteItem)
    requires WellFormed(plan) && Separated(plan, d, days) && day in days && op in Phase(plan, k) && w in plan.writes
    requires Supplied(plan, d, w.fileId, w.target, w.hash) && Step(d, op, day).Visits(s)
    ensures Supplied(plan, s, w.fileId, w.target, w.hash)
  {
    var o := Claims(plan, days);
    PhaseFits(plan, days, day, k);
    PathSafe(plan, d, days, w.target);
    WriteUntouched(plan, op, k, w);
    hide Claims, PullPlan.WellFormed, PullApply.Phase;
    if op == Put(w) {
      PutFrame(o, d, w, day, s);
    } else {
      StepFrame(o, d, op, day, s);
      hide PullApply.Step;
      SuppliedFrame(plan, o, d, s, w.fileId, w.target, w.hash, Touch(op), Ids(op));
    }
  }

  lemma SameMove(plan: Plan, a: MoveItem, b: MoveItem)
    requires WellFormed(plan) && a in plan.moves && b in plan.moves
    requires a.source == b.source || a.target == b.target || a.fileId == b.fileId
    ensures a == b
  {
  }

  /** What another iteration may touch of a move: only a source already staged, or a target to be vacated. */
  lemma MoveTouched(plan: Plan, op: Op, k: nat, m: MoveItem)
    requires WellFormed(plan) && op in Phase(plan, k) && m in plan.moves
    requires op != Stage(m) && op != Land(m) && op != Shift(m) && (k >= 4 ==> NoChain(plan))
    ensures m.fileId !in Ids(op)
    ensures m.source !in Touch(op) || (k >= 2 && Blocks(m, plan.blocking))
    ensures m.target !in Touch(op) || (m.target in Sources(plan) && Blocks(m, plan.blocking))
  {
    PhaseKind(plan, k, op);
    hide PullApply.Phase;
    match op
    case Stage(o) => if o.source == m.source || o.fileId == m.fileId { SameMove(plan, o, m); }
    case Remove(i) =>
    case Put(w) =>
    case Land(o) =>
      if o.target == m.target || o.fileId == m.fileId { SameMove(plan, o, m); }
      assert o.target !in Sources(plan);
    case Shift(o) =>
      if o.source == m.source || o.target == m.target || o.fileId == m.fileId { SameMove(plan, o, m); }
      assert o.target !in Sources(plan);
  }

  lemma MoveEnds(plan: Plan, m: MoveItem)
    requires WellFormed(plan) && m in plan.moves
    ensures m.source != m.target && m.target in Targets(plan) && m.source in Sources(plan)
  {
  }

  lemma DirectReady(plan: Plan, d: Disk, s: Disk, m: MoveItem, staged: bool)
    requires !Blocks(m, plan.blocking)
    ensures MoveReady(plan, d, m, staged) == Can(Shift(m), d) && MoveReady(plan, s, m, staged) == Can(Shift(m), s)
  {
  }

  /** Placing a staged move leaves it in place, on a path nothing has to vacate. */
  lemma LandSelf(plan: Plan, d: Disk, m: MoveItem, s: Disk, staged: bool)
    requires MoveReady(plan, d, m, staged) && m.target !in Sources(plan) && PlaceStaged(d, m).Visits(s)
    ensures MoveReady(plan, s, m, staged)
  {
  }

  lemma StepReadyMove(plan: Plan, d: Disk, days: set<int>, op: Op, k: nat, day: int, s: Disk, m: MoveItem)
    requires WellFormed(plan) && Separated(plan, d, days) && day in days && op in Phase(plan, k) && m in plan.moves
    requires k >= 4 ==> NoChain(plan)
    requires MoveReady(plan, d, m, k >= 2) && Step(d, op, day).Visits(s)
    ensures MoveReady(plan, s, m, k >= 2)
  {
    var o := Claims(plan, days);
    PhaseKind(plan, k, op);
    PhaseFits(plan, days, day, k);
    PathSafe(plan, d, days, m.source);
    PathSafe(plan, d, days, m.target);
    MoveEnds(plan, m);
    hide PullApply.Phase, Claims, PullApply.Step, PullPlan.WellFormed, MoveReady, Can, PullFrames.Safe;
    if op == Stage(m) {
      StageSelf(plan, o, d, m, day, s);
    } else if op == Shift(m) {
      DirectReady(plan, d, s, m, k >= 2);
      ShiftSelf(o, d, m, day, s);
    } else if op == Land(m) {
      LandSelf(plan, d, m, s, k >= 2);
    } else {
      StepFrame(o, d, op, day, s);
      MoveTouched(plan, op, k, m);
      MoveReadyFrame(plan, o, d, s, m, k >= 2, Touch(op), Ids(op));
    }
  }

  lemma StepReady(plan: Plan, d: Disk, days: set<int>, op: Op, k: nat, day: int, s: Disk)
    requires WellFormed(plan) && Separated(plan, d, days) && day in days && op in Phase(plan, k)
    requires k >= 4 ==> NoChain(plan)
    requires Ready(plan, d, k >= 2) && Step(d, op, day).Visits(s)
    ensures Ready(plan, s, k >= 2)
  {
    forall w | w in plan.writes { StepReadyWrite(plan, d, days, op, k, day, s, w); }
    forall m | m in plan.moves { StepReadyMove(plan, d, days, op, k, day, s, m); }
  }

  lemma {:induction false} LoopReady(plan: Plan, d: Disk, days: set<int>, ops: seq<Op>, k: nat, day: int, s: Disk)
    requires WellFormed(plan) && Good(plan, d, days) && day in days && (forall op :: op in ops ==> op in Phase(plan, k))
    requires k >= 4 ==> NoChain(plan)
    requires Ready(plan, d, k >= 2) && Exec(d, ops, day).Visits(s)
    ensures Ready(plan, s, k >= 2) && Good(plan, s, days)
    decreases |ops|
  {
    hide PullApply.Step, PullApply.Phase, PullPlan.WellFormed, Ready, Good;
    if ops != [] {
      var r := Step(d, ops[0], day);
      assert ops[0] in ops;
      GoodParts(plan, d, days);
      GoodStep(plan, d, days, ops[0], k, day, r.disk);
      StepReady(plan, d, days, ops[0], k, day, r.disk);
      if r.Visits(s) {
        GoodStep(plan, d, days, ops[0], k, day, s);
        StepReady(plan, d, days, ops[0], k, day, s);
      } else {
        LoopReady(plan, r.disk, days, ops[1..], k, day, s);
      }
    }
  }

  lemma GoodParts(plan: Plan, d: Disk, days: set<int>)
    requires Good(plan, d, days)
    ensures Separated(plan, d, days)
    ensures forall day :: day in days ==> Separated(plan, d, {day})
  {
  }

  /** When the first loop is through, no blocking move relies on its source any more. */
  lemma StagedAfterFirst(plan: Plan, d: Disk, days: set<int>, day: int)
    requires WellFormed(plan) && Good(plan, d, days) && day in days && Ready(plan, d, false) && Upto(d, plan, 2, day).Ok()
    ensures Ready(plan, Upto(d, plan, 2, day).disk, true)
  {
    UptoStart(d, plan, day);
    UptoStep(d, plan, 1, day);
    var e := Upto(d, plan, 2, day).disk;
    GoodParts(plan, d, days);
    hide Upto, PullApply.Phase, PullApply.Exec, PullPlan.WellFormed, Supplied, Good;
    PhaseDone(d, plan, day, 1);
    LoopReady(plan, d, days, Phase(plan, 1), 1, day, e);
    forall m | m in plan.moves && Blocks(m, plan.blocking)
      ensures MoveReady(plan, e, m, true)
    {
      StageInPhase(plan, m);
      assert Done(Stage(m), e);
    }
  }

  /** Every crash before the second move loop, and with no chained move any crash at all,
      leaves a disk from which the same plan can be replayed. */
  lemma {:induction false} CrashKeepsReady(plan: Plan, d: Disk, days: set<int>, k: nat, day: int, s: Disk)
    requires WellFormed(plan) && Good(plan, d, days) && day in days && Ready(plan, d, false)
    requires 1 <= k <= 6 && (k > 4 ==> NoChain(plan)) && Upto(d, plan, k, day).Visits(s)
    ensures Ready(plan, s, false) && Good(plan, s, days)
    ensures k >= 2 && Upto(d, plan, k, day).Ok() && s == Upto(d, plan, k, day).disk ==> Ready(plan, s, true)
  {
    UptoStart(d, plan, day);
    hide Upto, PullApply.Phase, PullApply.Exec, PullPlan.WellFormed, Ready, Good;
    if k > 1 {
      UptoStep(d, plan, k - 1, day);
      var r := Upto(d, plan, k - 1, day);
      CrashKeepsReady(plan, d, days, k - 1, day, r.disk);
      if r.Visits(s) {
        CrashKeepsReady(plan, d, days, k - 1, day, s);
      }
      if r.Ok() && Exec(r.disk, Phase(plan, k - 1), day).Visits(s) {
        LoopReady(plan, r.disk, days, Phase(plan, k - 1), k - 1, day, s);
        ReadyWeaken(plan, s);
      }
      if k == 2 && Upto(d, plan, 2, day).Ok() {
        StagedAfterFirst(plan, d, days, day);
      }
    }
  }

  lemma ReadyWeaken(plan: Plan, d: Disk)
    ensures Ready(plan, d, true) ==> Ready(plan, d, false)
  {
  }

  /** A series of interrupted executions, each cut short before the second move loop
      or, without chained moves, anywhere. */
  ghost predicate Interrupted(plan: Plan, d: Disk, attempts: seq<Attempt>, days: set<int>)
    decreases |attempts|
  {
    attempts == [] || (
      && attempts[0].day in days
      && Upto(d, plan, if NoChain(plan) then 6 else 4, attempts[0].day).Visits(attempts[0].end)
      && Interrupted(plan, attempts[0].end, attempts[1..], days))
  }

  /** Main result: however often the run is cut short, at any crash point before the second move
      loop or at any point at all if no move is chained, replaying the same plan completes it,
      and no file outside the plan has changed apart from conflict copies. */
  lemma {:induction false} ReplayConverges(plan: Plan, d: Disk, attempts: seq<Attempt>, days: set<int>, day: int)
    requires WellFormed(plan) && Good(plan, d, days) && Ready(plan, d, false)
    requires Interrupted(plan, d, attempts, days) && day in days
    ensures var r := Apply(LastDisk(d, attempts), plan, day);
            r.Ok() && Applied(plan, r.disk) && forall p :: Untied(plan, d, days, p) ==> At(r.disk.live, p) == At(d.live, p)
    decreases |attempts|
  {
    var r := Apply(LastDisk(d, attempts), plan, day);
    hide Upto, PullApply.Apply, PullApply.Exec, PullPlan.WellFormed, Ready, Good, Untied, Applied;
    if attempts == [] {
      GoodSucceedsIff(d, plan, days, day);
      GoodParts(plan, d, days);
      SuccessMeansApplied(d, plan, day);
      ApplyIsUpto(d, plan, day);
      UptoFrame(plan, d, days, 6, day, r.disk);
    } else {
      var e := attempts[0].end;
      var k := if NoChain(plan) then 6 else 4;
      CrashKeepsReady(plan, d, days, k, attempts[0].day, e);
      ReplayConverges(plan, e, attempts[1..], days, day);
      UptoFrame(plan, d, days, k, attempts[0].day, e);
    }
  }

  lemma ApplyIsUpto(d: Disk, plan: Plan, day: int)
    ensures Apply(d, plan, day) == Upto(d, plan, 6, day)
  {
  }

  /** A path outside the plan that no conflict copy of its files can use. */
  ghost predicate Untied(plan: Plan, d: Disk, days: set<int>, p: Path) {
    Safe(Claims(plan, days), d, p) && p !in Targets(plan) + Sources(plan)
  }

  lemma UptoFrame(plan: Plan, d: Disk, days: set<int>, k: nat, day: int, s: Disk)
    requires day in days && Upto(d, plan, k, day).Visits(s)
    ensures forall p :: Untied(plan, d, days, p) ==> Untied(plan, s, days, p) && At(s.live, p) == At(d.live, p)
  {
    BeforeFits(plan, days, day, k);
    BeforeIn(plan, k);
    hide Claims, PullApply.Exec, PullApply.Before, TouchAll;
    ExecFrame(Claims(plan, days), d, Before(plan, k), day, s);
  }

  /** Main result: wherever a run is stopped, between any two file operations of any plan, a replay
      completes it if and only if what is left supplies the plan. */
  lemma AnyCrashReplayIff(plan: Plan, d: Disk, days: set<int>, day: int, s: Disk, again: int)
    requires WellFormed(plan) && Good(plan, d, days) && day in days && again in days && Apply(d, plan, day).Visits(s)
    ensures Good(plan, s, days)
    ensures Apply(s, plan, again).Ok() <==> Ready(plan, s, false)
    ensures Apply(s, plan, again).Ok() ==> Applied(plan, Apply(s, plan, again).disk)
  {
    BeforeFrom(plan, 6);
    hide PullApply.Before, PullApply.Exec, PullPlan.WellFormed, Good, Ready, Applied;
    ExecGood(plan, d, days, Before(plan, 6), 6, day, s);
    GoodParts(plan, s, days);
    GoodSucceedsIff(s, plan, days, again);
    if Apply(s, plan, again).Ok() { SuccessMeansApplied(s, plan, again); }
  }

  // A crash inside the second move loop.

  /** The disk left by a crash after `j` iterations of the second move loop. */
  function Crashed(d: Disk, plan: Plan, j: nat, day: int): Run
    requires j <= |plan.moves|
  {
    var r := Upto(d, plan, 4, day);
    if r.Ok() then Exec(r.disk, Phase(plan, 4)[..j], day) else r
  }

  /** Every move already placed on a path that had to be vacated finds its content back at its source. */
  ghost predicate Refilled(plan: Plan, c: Disk, j: nat)
    requires j <= |plan.moves|
  {
    forall i :: 0 <= i < j && plan.moves[i].target in Sources(plan) ==>
      Holds(c.live, plan.moves[i].source, plan.moves[i].hash)
  }

  lemma {:induction false} IndepPrefix(ops: seq<Op>, j: nat)
    requires Indep(ops) && j <= |ops|
    ensures Indep(ops[..j])
  {
    if j > 0 {
      assert ops[..j][1..] == ops[1..][..j - 1];
      IndepPrefix(ops[1..], j - 1);
    }
  }

  /** A placed blocking move has used up its staged payload. */
  lemma {:induction false} LandEffect(o: Scope, d: Disk, ops: seq<Op>, day: int)
    requires Indep(ops) && AllFit(o, ops, day) && (forall op :: op in ops ==> op.Land? || op.Shift?) && Exec(d, ops, day).Ok()
    ensures forall op :: op in ops && op.Land? ==> op.m.fileId !in Exec(d, ops, day).disk.staging
    decreases |ops|
  {
    if ops != [] {
      var r := Step(d, ops[0], day);
      var e := Exec(d, ops, day).disk;
      assert ops[0].Land? ==> ops[0].m.fileId !in r.disk.staging;
      hide PullApply.Step;
      LandEffect(o, r.disk, ops[1..], day);
      ExecFrame(o, r.disk, ops[1..], day, e);
      assert ops[0].m.fileId in Ids(ops[0]) && ops[0].m.fileId !in IdsAll(ops[1..]);
      assert At(e.staging, ops[0].m.fileId) == At(r.disk.staging, ops[0].m.fileId);
    }
  }

  lemma CrashedOk(d: Disk, plan: Plan, days: set<int>, j: nat, day: int)
    requires WellFormed(plan) && Good(plan, d, days) && day in days && Ready(plan, d, false) && j <= |plan.moves|
    ensures Upto(d, plan, 4, day).Ok() && Crashed(d, plan, j, day).Ok()
    ensures Ready(plan, Upto(d, plan, 4, day).disk, true) && Good(plan, Upto(d, plan, 4, day).disk, days)
  {
    assert Apply(d, plan, day) == Upto(d, plan, 6, day);
    var ops := Phase(plan, 4);
    assert ops == ops[..j] + ops[j..];
    hide Upto, PullApply.Phase, PullApply.Exec, PullApply.Before, PullPlan.WellFormed, Ready, Good;
    GoodSucceedsIff(d, plan, days, day);
    AllUpto(d, plan, day, 4);
    AllUpto(d, plan, day, 5);
    UptoStep(d, plan, 4, day);
    CrashKeepsReady(plan, d, days, 4, day, Upto(d, plan, 4, day).disk);
    ExecAppend(Upto(d, plan, 4, day).disk, ops[..j], ops[j..], day);
  }

  lemma MoveAfterCrash(plan: Plan, e: Disk, c: Disk, days: set<int>, j: nat, day: int, i: nat)
    requires WellFormed(plan) && Good(plan, e, days) && day in days && j <= |plan.moves| && i < |plan.moves|
    requires MoveReady(plan, e, plan.moves[i], true)
    requires Exec(e, Phase(plan, 4)[..j], day).Ok() && c == Exec(e, Phase(plan, 4)[..j], day).disk
    ensures i >= j ==> MoveReady(plan, c, plan.moves[i], true)
    ensures i < j ==> Holds(c.live, plan.moves[i].target, plan.moves[i].hash)
    ensures i < j && Blocks(plan.moves[i], plan.blocking) ==> plan.moves[i].fileId !in c.staging
  {
    hide *;
    if i < j {
      MovePlaced(plan, e, c, days, j, day, i);
    } else {
      MoveUnplaced(plan, e, c, days, j, day, i);
    }
  }

  lemma MovePlaced(plan: Plan, e: Disk, c: Disk, days: set<int>, j: nat, day: int, i: nat)
    requires WellFormed(plan) && Good(plan, e, days) && day in days && i < j <= |plan.moves|
    requires Exec(e, Phase(plan, 4)[..j], day).Ok() && c == Exec(e, Phase(plan, 4)[..j], day).disk
    ensures Holds(c.live, plan.moves[i].target, plan.moves[i].hash)
    ensures Blocks(plan.moves[i], plan.blocking) ==> plan.moves[i].fileId !in c.staging
  {
    hide *;
    PlacedOps(plan, j, i);
    var (m, ops) := (plan.moves[i], Phase(plan, 4)[..j]);
    PrefixIndep(plan, j);
    PrefixFits(plan, days, day, j);
    PrefixSafe(plan, e, days, j);
    PlaceFacts(m, plan.blocking, c);
    ExecDone(Claims(plan, days), e, ops, day);
    LandEffect(Claims(plan, days), e, ops, day);
  }

  lemma PlaceFacts(m: MoveItem, blocking: set<Path>, c: Disk)
    ensures Done(PlaceOp(m, blocking), c) ==> Holds(c.live, m.target, m.hash)
    ensures Blocks(m, blocking) ==> PlaceOp(m, blocking).Land? && PlaceOp(m, blocking).m == m
  {
  }

  lemma PlacedOps(plan: Plan, j: nat, i: nat)
    requires WellFormed(plan) && i < j <= |plan.moves|
    ensures |Phase(plan, 4)| == |plan.moves|
    ensures var ops := Phase(plan, 4)[..j];
            && ops[i] == PlaceOp(plan.moves[i], plan.blocking) && ops[i] in ops
            && (forall op :: op in ops ==> op.Land? || op.Shift?)
            && forall op :: op in ops && op.Shift? ==> op.m.source != op.m.target
  {
    PhaseItems(plan);
    var ops := Phase(plan, 4)[..j];
    assert forall op :: op in ops ==> op in Phase(plan, 4);
    hide PullApply.Phase;
  }

  lemma PrefixFits(plan: Plan, days: set<int>, day: int, j: nat)
    requires day in days && j <= |Phase(plan, 4)|
    ensures AllFit(Claims(plan, days), Phase(plan, 4)[..j], day)
  {
    PhaseFits(plan, days, day, 4);
    assert forall op :: op in Phase(plan, 4)[..j] ==> op in Phase(plan, 4);
    hide PullApply.Phase, Claims;
  }

  lemma PrefixSafe(plan: Plan, e: Disk, days: set<int>, j: nat)
    requires Good(plan, e, days) && j <= |Phase(plan, 4)|
    ensures AllSafe(Claims(plan, days), e, TouchAll(Phase(plan, 4)[..j]))
  {
    PlanTouchSafe(plan, e, days, 4);
    hide PullApply.Phase, Claims, Good;
    assert TouchAll(Phase(plan, 4)[..j]) <= TouchAll(Phase(plan, 4)) by {
      assert forall op :: op in Phase(plan, 4)[..j] ==> op in Phase(plan, 4);
    }
  }

  lemma PrefixIndep(plan: Plan, j: nat)
    requires WellFormed(plan) && j <= |Phase(plan, 4)|
    ensures Indep(Phase(plan, 4)[..j])
  {
    PhaseIndep(plan, 4);
    hide PullApply.Phase, PullPlan.WellFormed;
    IndepPrefix(Phase(plan, 4), j);
  }

  lemma MoveUnplaced(plan: Plan, e: Disk, c: Disk, days: set<int>, j: nat, day: int, i: nat)
    requires WellFormed(plan) && Good(plan, e, days) && day in days && j <= i < |plan.moves| && MoveReady(plan, e, plan.moves[i], true)
    requires c == Exec(e, Phase(plan, 4)[..j], day).disk
    ensures MoveReady(plan, c, plan.moves[i], true)
  {
    var m := plan.moves[i];
    var ops := Phase(plan, 4)[..j];
    var o := Claims(plan, days);
    assert m in plan.moves && m.source in Sources(plan) && m.target in Targets(plan);
    PathSafe(plan, e, days, m.source);
    PathSafe(plan, e, days, m.target);
    UnplacedUntouched(plan, j, i);
    PrefixFits(plan, days, day, j);
    hide PullApply.Phase, PullApply.Exec, PullPlan.WellFormed, MoveReady, Claims, Good;
    ExecFrame(o, e, ops, day, c);
    MoveReadyFrame(plan, o, e, c, m, true, TouchAll(ops), IdsAll(ops));
  }

  lemma MovesApart(plan: Plan, k: nat, i: nat)
    requires WellFormed(plan) && k < i < |plan.moves|
    ensures var (a, b) := (plan.moves[k], plan.moves[i]);
            a.source != b.source && a.target != b.target && a.fileId != b.fileId
  {
  }

  lemma MoveOntoSource(plan: Plan, a: MoveItem, b: MoveItem)
    requires WellFormed(plan) && a in plan.moves && b in plan.moves && a.target == b.source
    ensures Blocks(a, plan.blocking) && Blocks(b, plan.blocking)
  {
    assert a.target in Targets(plan) && b.source in Sources(plan);
  }

  lemma UnplacedUntouched(plan: Plan, j: nat, i: nat)
    requires WellFormed(plan) && j <= i < |plan.moves|
    ensures var ops := Phase(plan, 4)[..j];
            var m := plan.moves[i];
            && m.fileId !in IdsAll(ops) && m.target !in TouchAll(ops)
            && (m.source !in TouchAll(ops) || Blocks(m, plan.blocking))
  {
    var ops := Phase(plan, 4)[..j];
    var m := plan.moves[i];
    assert forall op :: op in ops ==> exists k :: 0 <= k < j && op == PlaceOp(plan.moves[k], plan.blocking);
    hide PullPlan.WellFormed, PullApply.Phase;
    forall op | op in ops
      ensures m.fileId !in Ids(op) && m.target !in Touch(op) && (m.source !in Touch(op) || Blocks(m, plan.blocking))
    {
      var k :| 0 <= k < j && op == PlaceOp(plan.moves[k], plan.blocking);
      MovesApart(plan, k, i);
      PlaceMisses(plan, plan.moves[k], m);
    }
  }

  lemma PlaceMisses(plan: Plan, a: MoveItem, m: MoveItem)
    requires WellFormed(plan) && a in plan.moves && m in plan.moves
    requires a.source != m.source && a.target != m.target && a.fileId != m.fileId
    ensures var op := PlaceOp(a, plan.blocking);
            m.fileId !in Ids(op) && m.target !in Touch(op) && (m.source !in Touch(op) || Blocks(m, plan.blocking))
  {
    if a.target == m.source { MoveOntoSource(plan, a, m); }
    if a.source == m.target { MoveOntoSource(plan, m, a); }
  }

  lemma WriteOffMove(plan: Plan, w: WriteItem, m: MoveItem)
    requires WellFormed(plan) && w in plan.writes && m in plan.moves
    ensures w.fileId != m.fileId && w.target != m.target
    ensures w.target == m.source ==> Blocks(m, plan.blocking)
  {
    assert w.target in Targets(plan) && m.source in Sources(plan);
  }

  lemma WriteAfterCrash(plan: Plan, e: Disk, c: Disk, days: set<int>, j: nat, day: int, w: WriteItem)
    requires WellFormed(plan) && Good(plan, e, days) && day in days && j <= |plan.moves| && w in plan.writes
    requires Supplied(plan, e, w.fileId, w.target, w.hash) && c == Exec(e, Phase(plan, 4)[..j], day).disk
    ensures Supplied(plan, c, w.fileId, w.target, w.hash)
  {
    var ops := Phase(plan, 4)[..j];
    PathSafe(plan, e, days, w.target);
    PlaceCount(plan);
    hide *;
    PrefixFits(plan, days, day, j);
    ExecFrame(Claims(plan, days), e, ops, day, c);
    WriteOffPlacements(plan, w, j);
    SuppliedFrame(plan, Claims(plan, days), e, c, w.fileId, w.target, w.hash, TouchAll(ops), IdsAll(ops));
  }

  lemma PlaceCount(plan: Plan)
    ensures |Phase(plan, 4)| == |plan.moves|
  {
  }

  /** The placements neither touch what a write has written nor use its payload. */
  lemma WriteOffPlacements(plan: Plan, w: WriteItem, j: nat)
    requires WellFormed(plan) && w in plan.writes && j <= |plan.moves|
    ensures w.fileId !in IdsAll(Phase(plan, 4)[..j])
    ensures w.target !in TouchAll(Phase(plan, 4)[..j])
  {
    var ops := Phase(plan, 4)[..j];
    hide PullApply.Phase, PullPlan.WellFormed, Touch, Ids;
    forall op | op in ops
      ensures w.fileId !in Ids(op) && w.target !in Touch(op)
    {
      WriteOffPlacement(plan, w, op);
    }
  }

  lemma WriteOffPlacement(plan: Plan, w: WriteItem, op: Op)
    requires WellFormed(plan) && w in plan.writes && op in Phase(plan, 4)
    ensures w.fileId !in Ids(op) && w.target !in Touch(op)
  {
    PhaseItems(plan);
    hide PullApply.Phase, PullPlan.WellFormed;
    WriteOffMove(plan, w, op.m);
  }

  /** Main result: a run cut short after `j` placements can be completed by a replay if and only if
      every one of them that landed on a vacated path finds its content back at its source. */
  lemma LoopFourReplayIff(plan: Plan, d: Disk, j: nat, day: int, again: int)
    requires WellFormed(plan) && Good(plan, d, {day, again}) && Ready(plan, d, false) && j <= |plan.moves|
    ensures var c := Crashed(d, plan, j, day).disk;
            Apply(c, plan, again).Ok() <==> Refilled(plan, c, j)
  {
    var days := {day, again};
    CrashedOk(d, plan, days, j, day);
    var e := Upto(d, plan, 4, day).disk;
    var c := Crashed(d, plan, j, day).disk;
    assert c == Exec(e, Phase(plan, 4)[..j], day).disk;
    PrefixGood(plan, e, days, j, day);
    hide Crashed, Upto, PullApply.Phase, PullPlan.WellFormed, Good, PullApply.Apply;
    forall w | w in plan.writes
      ensures Supplied(plan, c, w.fileId, w.target, w.hash)
    {
      WriteAfterCrash(plan, e, c, days, j, day, w);
    }
    forall i | 0 <= i < |plan.moves|
      ensures i >= j ==> MoveReady(plan, c, plan.moves[i], true)
      ensures i < j ==> Holds(c.live, plan.moves[i].target, plan.moves[i].hash)
      ensures i < j && Blocks(plan.moves[i], plan.blocking) ==> plan.moves[i].fileId !in c.staging
    {
      MoveAfterCrash(plan, e, c, days, j, day, i);
    }
    RefilledIffReady(plan, c, j);
    GoodSucceedsIff(c, plan, days, again);
  }

  lemma PrefixGood(plan: Plan, e: Disk, days: set<int>, j: nat, day: int)
    requires WellFormed(plan) && Good(plan, e, days) && day in days && j <= |plan.moves|
    ensures Good(plan, Exec(e, Phase(plan, 4)[..j], day).disk, days)
  {
    var ops := Phase(plan, 4)[..j];
    hide PullApply.Phase, PullApply.Exec, Good;
    forall op | op in ops
      ensures FromLoops(plan, 5, op)
    {
      assert op in Phase(plan, 4);
    }
    ExecGood(plan, e, days, ops, 5, day, Exec(e, ops, day).disk);
  }

  lemma RefilledIffReady(plan: Plan, c: Disk, j: nat)
    requires WellFormed(plan) && j <= |plan.moves|
    requires forall w :: w in plan.writes ==> Supplied(plan, c, w.fileId, w.target, w.hash)
    requires forall i :: j <= i < |plan.moves| ==> MoveReady(plan, c, plan.moves[i], true)
    requires forall i :: 0 <= i < j ==> Holds(c.live, plan.moves[i].target, plan.moves[i].hash)
    requires forall i :: 0 <= i < j && Blocks(plan.moves[i], plan.blocking) ==> plan.moves[i].fileId !in c.staging
    ensures Ready(plan, c, false) <==> Refilled(plan, c, j)
  {
    assert plan.blocking == Targets(plan) * Sources(plan);
    hide PullPlan.WellFormed;
    if Ready(plan, c, false) {
      forall i | 0 <= i < j && plan.moves[i].target in Sources(plan)
        ensures Holds(c.live, plan.moves[i].source, plan.moves[i].hash)
      {
        assert MoveReady(plan, c, plan.moves[i], false);
        assert plan.moves[i].target in Targets(plan);
      }
    }
    if Refilled(plan, c, j) {
      forall m | m in plan.moves
        ensures MoveReady(plan, c, m, false)
      {
        var i :| 0 <= i < |plan.moves| && plan.moves[i] == m;
        assert i >= j ==> MoveReady(plan, c, plan.moves[i], true);
      }
    }
  }
}
