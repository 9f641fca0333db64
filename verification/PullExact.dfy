/** The exact condition under which a pull apply succeeds from a given disk. */
module PullExact {
  import opened Basics
  import opened PullPlan
  import opened PullApply
  import opened PullFrames
  import opened PullSuccess
  import opened PullOrder
  import opened PullKept
  import opened PullSaves
  import opened PullReady

  /** The planned content is staged, or already in place where no later loop removes it. */
  ghost predicate Supplied(plan: Plan, d: Disk, id: FileId, target: Path, h: Hash) {
    || Holds(d.staging, id, h)
    || (id !in d.staging && Holds(d.live, target, h) && target !in Sources(plan))
  }

  /** `staged` says that the first loop has run: a blocking move no longer relies on its source. */
  ghost predicate MoveReady(plan: Plan, d: Disk, m: MoveItem, staged: bool) {
    if Blocks(m, plan.blocking) then
      (!staged && Holds(d.live, m.source, m.hash)) || Supplied(plan, d, m.fileId, m.target, m.hash)
    else Can(Shift(m), d)
  }

  /** Checkable before the call: every write and move can get its content. */
  ghost predicate Ready(plan: Plan, d: Disk, staged: bool) {
    && (forall w :: w in plan.writes ==> Supplied(plan, d, w.fileId, w.target, w.hash))
    && (forall m :: m in plan.moves ==> MoveReady(plan, d, m, staged))
  }

  /** The payload of `m` in staging after the first loop. */
  ghost predicate Staged(d: Disk, e: Disk, m: MoveItem) {
    At(e.staging, m.fileId) == if Holds(d.live, m.source, m.hash) then At(d.live, m.source) else At(d.staging, m.fileId)
  }

  /** The first loop leaves the payload of a moved file in staging. */
  lemma {:induction false} StageEffect(o: Scope, d: Disk, ops: seq<Op>, day: int)
    requires Indep(ops) && AllFit(o, ops, day) && AllSafe(o, d, TouchAll(ops)) && Exec(d, ops, day).Ok()
    requires forall op :: op in ops ==> op.Stage?
    ensures var e := Exec(d, ops, day).disk;
            forall op :: op in ops ==> Staged(d, e, op.m)
    decreases |ops|
  {
    if ops != [] {
      var e, f := Step(d, ops[0], day).disk, Exec(d, ops, day).disk;
      assert ops[0] in ops;
      TouchCons(ops);
      StageOne(o, d, ops[0].m, day);
      hide PullApply.Step, TouchAll, IdsAll, Staged;
      StepFrame(o, d, ops[0], day, e);
      StageEffect(o, e, ops[1..], day);
      ExecFrame(o, e, ops[1..], day, f);
      IndepIds(ops);
      StagedStays(d, e, f, ops[0].m);
      forall op | op in ops[1..]
        ensures Staged(d, f, op.m)
      {
        assert op in ops;
        StageOthers(o, d, e, ops, op);
        StagedBack(d, e, f, op.m);
      }
    }
  }

  lemma StageOne(o: Scope, d: Disk, m: MoveItem, day: int)
    requires o.Has(Guard(Stage(m)), day) && Safe(o, d, m.source) && Step(d, Stage(m), day).Ok()
    ensures Staged(d, Step(d, Stage(m), day).disk, m)
  {
    PreserveFrame(o, d, Guard(Stage(m)), day, Save(d, Stage(m), day).disk);
    hide PullApply.PreserveCopy;
  }

  lemma IndepIds(ops: seq<Op>)
    requires ops != [] && Indep(ops)
    ensures Ids(ops[0]) !! IdsAll(ops[1..])
  {
  }

  lemma StagedStays(d: Disk, e: Disk, f: Disk, m: MoveItem)
    requires Staged(d, e, m) && At(f.staging, m.fileId) == At(e.staging, m.fileId)
    ensures Staged(d, f, m)
  {
  }

  lemma StagedBack(d: Disk, e: Disk, f: Disk, m: MoveItem)
    requires Staged(e, f, m)
    requires At(e.live, m.source) == At(d.live, m.source) && At(e.staging, m.fileId) == At(d.staging, m.fileId)
    ensures Staged(d, f, m)
  {
  }

  lemma StageOthers(o: Scope, d: Disk, e: Disk, ops: seq<Op>, op: Op)
    requires ops != [] && op in ops[1..] && op.Stage? && Indep(ops) && AllSafe(o, d, TouchAll(ops))
    requires Frame(o, d, e, Touch(ops[0]), Ids(ops[0]))
    ensures At(e.live, op.m.source) == At(d.live, op.m.source)
    ensures At(e.staging, op.m.fileId) == At(d.staging, op.m.fileId)
  {
    TouchCons(ops);
    assert Apart(ops[0], op) && op.m.source in Touch(op) && op.m.fileId in Ids(op);
    assert op.m.source in TouchAll(ops);
  }

  /** The first loop gets through whenever every staged move is supplied and every edit can be saved. */
  lemma {:induction false} StagesOk(plan: Plan, o: Scope, d: Disk, ops: seq<Op>, day: int)
    requires Indep(ops) && Ordered(ops) && AllFit(o, ops, day) && AllSafe(o, d, TouchAll(ops)) && Registers(d, ops, day)
    requires forall op :: op in ops ==> op.Stage? && MoveReady(plan, d, op.m, false) && Blocks(op.m, plan.blocking)
    requires forall op :: op in ops ==> op.m in plan.moves && Safe(o, d, op.m.target)
    ensures Exec(d, ops, day).Ok()
    decreases |ops|
  {
    if ops != [] {
      var e := Step(d, ops[0], day).disk;
      var m := ops[0].m;
      assert ops[0] in ops;
      FirstReady(d, ops, day);
      TailFacts(o, d, ops, day);
      IndepTail(ops);
      hide PullApply.Step, Registers, SaveReady, AllFit, AllSafe, TouchAll, Ordered, MoveReady, Indep, Sources;
      StageCan(plan, d, m);
      StepOkIff(o, d, ops[0], day);
      StepStepped(o, d, ops, day);
      RegistersTail(o, d, ops, day, e);
      StepFrame(o, d, ops[0], day, e);
      forall op | op in ops[1..]
        ensures MoveReady(plan, e, op.m, false)
      {
        StageOthers(o, d, e, ops, op);
        StageKeepsReady(plan, o, d, e, m, op.m);
      }
      StagesOk(plan, o, e, ops[1..], day);
    }
  }

  lemma StageCan(plan: Plan, d: Disk, m: MoveItem)
    requires MoveReady(plan, d, m, false) && Blocks(m, plan.blocking)
    ensures Can(Stage(m), d)
  {
  }

  /** Staging one move leaves the others supplied. */
  lemma StageKeepsReady(plan: Plan, o: Scope, d: Disk, e: Disk, a: MoveItem, m: MoveItem)
    requires a in plan.moves && MoveReady(plan, d, m, false) && Blocks(m, plan.blocking)
    requires Frame(o, d, e, {a.source}, {a.fileId}) && Safe(o, d, m.target)
    requires At(e.live, m.source) == At(d.live, m.source) && At(e.staging, m.fileId) == At(d.staging, m.fileId)
    ensures MoveReady(plan, e, m, false)
  {
    assert a.source in Sources(plan);
    if m.target != a.source { assert At(e.live, m.target) == At(d.live, m.target); }
  }

  ghost predicate UsedIn(plan: Plan, k: nat, id: FileId) {
    || ((k == 1 || k == 4) && exists m :: m in plan.moves && id == m.fileId)
    || (k == 3 && exists w :: w in plan.writes && id == w.fileId)
  }

  lemma PhaseIds(plan: Plan, k: nat, id: FileId)
    ensures id in IdsAll(Phase(plan, k)) ==> UsedIn(plan, k, id)
  {
    if id in IdsAll(Phase(plan, k)) {
      var op :| op in Phase(plan, k) && id in Ids(op);
    }
  }

  lemma {:induction false} PersistId(d: Disk, plan: Plan, day: int, id: FileId, j: nat, k: nat)
    requires 1 <= j <= k && Upto(d, plan, k, day).Ok()
    requires forall i :: j <= i < k ==> !UsedIn(plan, i, id)
    ensures Upto(d, plan, j, day).Ok()
    ensures At(Upto(d, plan, k, day).disk.staging, id) == At(Upto(d, plan, j, day).disk.staging, id)
  {
    hide Upto, PullApply.Phase, PullApply.Exec, UsedIn, Claims;
    if j < k {
      UptoStep(d, plan, k - 1, day);
      var r := Upto(d, plan, k - 1, day);
      PersistId(d, plan, day, id, j, k - 1);
      PhaseFits(plan, {day}, day, k - 1);
      ExecFrame(Claims(plan, {day}), r.disk, Phase(plan, k - 1), day, Upto(d, plan, k, day).disk);
      PhaseIds(plan, k - 1, id);
    }
  }

  /** A blocking path is the source of a staged move or of an early deletion. */
  lemma BlockingVacated(plan: Plan, p: Path)
    requires WellFormed(plan) && p in Targets(plan) && p in Sources(plan)
    ensures p in plan.blocking
    ensures forall m :: m in plan.moves && m.source == p ==> Blocks(m, plan.blocking) && !TouchedIn(plan, 2, p)
    ensures (exists m :: m in plan.moves && m.source == p) || exists i :: i in plan.deletes && i.path == p && Remove(i) in Phase(plan, 2)
  {
    if i :| i in plan.deletes && i.path == p {
      assert Remove(i) in RemoveOps(plan.deletes, plan.blocking, true);
    }
  }

  /** A blocking path is empty once the staging and early deletion loops are through. */
  lemma BlockingGone(d: Disk, plan: Plan, day: int, p: Path)
    requires WellFormed(plan) && Separated(plan, d, {day}) && Upto(d, plan, 3, day).Ok()
    requires p in Targets(plan) && p in Sources(plan)
    ensures p !in Upto(d, plan, 3, day).disk.live
  {
    BlockingVacated(plan, p);
    hide Upto, PullApply.Phase, PullPlan.WellFormed;
    UptoStep(d, plan, 2, day);
    PhaseDone(d, plan, day, 1);
    PhaseDone(d, plan, day, 2);
    if m :| m in plan.moves && m.source == p {
      StageInPhase(plan, m);
      PathSafe(plan, d, {day}, p);
      Persist(d, plan, day, p, 2, 3);
    } else {
      var i :| i in plan.deletes && i.path == p && Remove(i) in Phase(plan, 2);
    }
  }

  /** What a target holds when the write loop starts. */
  lemma TargetAt(d: Disk, plan: Plan, day: int, p: Path, k: nat)
    requires WellFormed(plan) && Separated(plan, d, {day}) && 3 <= k <= 4 && Upto(d, plan, k, day).Ok()
    requires p in Targets(plan) && (k == 4 ==> !TouchedIn(plan, 3, p))
    ensures At(Upto(d, plan, k, day).disk.live, p) == if p in Sources(plan) then None else At(d.live, p)
  {
    hide Upto, PullPlan.WellFormed;
    PathSafe(plan, d, {day}, p);
    if p in Sources(plan) {
      if k == 4 { Persist(d, plan, day, p, 3, 4); }
      BlockingGone(d, plan, day, p);
    } else {
      UptoStart(d, plan, day);
      Persist(d, plan, day, p, 1, k);
    }
  }

  lemma WriteIff(d: Disk, plan: Plan, day: int, w: WriteItem)
    requires WellFormed(plan) && Separated(plan, d, {day}) && Upto(d, plan, 3, day).Ok() && w in plan.writes
    ensures Supplied(plan, d, w.fileId, w.target, w.hash) <==> Can(Put(w), Upto(d, plan, 3, day).disk)
  {
    hide Upto;
    UptoStart(d, plan, day);
    TargetAt(d, plan, day, w.target, 3);
    PersistId(d, plan, day, w.fileId, 1, 3);
  }

  lemma MoveIff(d: Disk, plan: Plan, day: int, m: MoveItem)
    requires WellFormed(plan) && Separated(plan, d, {day}) && Upto(d, plan, 4, day).Ok() && m in plan.moves
    ensures MoveReady(plan, d, m, false) <==> Can(PlaceOp(m, plan.blocking), Upto(d, plan, 4, day).disk)
  {
    hide Upto;
    UptoStart(d, plan, day);
    TargetAt(d, plan, day, m.target, 4);
    if Blocks(m, plan.blocking) {
      MoveStaged(d, plan, day, m);
    } else {
      PathSafe(plan, d, {day}, m.source);
      Persist(d, plan, day, m.source, 1, 4);
      ShiftStaging(d, plan, day, m);
    }
  }

  lemma MoveStaged(d: Disk, plan: Plan, day: int, m: MoveItem)
    requires WellFormed(plan) && Separated(plan, d, {day}) && Upto(d, plan, 4, day).Ok() && m in plan.moves
    requires Blocks(m, plan.blocking)
    ensures Staged(d, Upto(d, plan, 4, day).disk, m)
  {
    PersistId(d, plan, day, m.fileId, 2, 4);
    UptoStart(d, plan, day);
    UptoStep(d, plan, 1, day);
    PlanTouchSafe(plan, d, {day}, 1);
    PhaseFits(plan, {day}, day, 1);
    PhaseIndep(plan, 1);
    StageEffect(Claims(plan, {day}), d, Phase(plan, 1), day);
    StageInPhase(plan, m);
  }

  lemma ShiftStaging(d: Disk, plan: Plan, day: int, m: MoveItem)
    requires WellFormed(plan) && Upto(d, plan, 4, day).Ok() && m in plan.moves && !Blocks(m, plan.blocking)
    ensures At(Upto(d, plan, 4, day).disk.staging, m.fileId) == At(d.staging, m.fileId)
  {
    StagesOthers(plan, m);
    hide Upto, PullApply.Phase, PullApply.Exec, PullPlan.WellFormed;
    PersistId(d, plan, day, m.fileId, 2, 4);
    UptoStart(d, plan, day);
    UptoStep(d, plan, 1, day);
    PhaseFits(plan, {day}, day, 1);
    ExecFrame(Claims(plan, {day}), d, Phase(plan, 1), day, Upto(d, plan, 2, day).disk);
  }

  /** The staging loop leaves the payload of an unblocked move alone, and no later loop before the placements uses it. */
  lemma StagesOthers(plan: Plan, m: MoveItem)
    requires WellFormed(plan) && m in plan.moves && !Blocks(m, plan.blocking)
    ensures m.fileId !in IdsAll(Phase(plan, 1))
    ensures forall i :: 2 <= i < 4 ==> !UsedIn(plan, i, m.fileId)
  {
    assert forall op :: op in Phase(plan, 1) ==> op.m != m && op.m in plan.moves;
  }

  /** Success needs every payload. */
  lemma OkMeansReady(d: Disk, plan: Plan, day: int)
    requires WellFormed(plan) && Separated(plan, d, {day}) && Apply(d, plan, day).Ok()
    ensures Ready(plan, d, false)
  {
    assert Upto(d, plan, 6, day).Ok();
    hide PullApply.Exec, PullApply.Before, PullApply.Phase, PullPlan.WellFormed;
    forall w | w in plan.writes
      ensures Supplied(plan, d, w.fileId, w.target, w.hash)
    {
      LoopCan(d, plan, day, 3);
      PutInPhase(plan, w);
      WriteIff(d, plan, day, w);
    }
    forall m | m in plan.moves
      ensures MoveReady(plan, d, m, false)
    {
      LoopCan(d, plan, day, 4);
      PlaceInPhase(plan, m);
      MoveIff(d, plan, day, m);
    }
  }

  lemma PutInPhase(plan: Plan, w: WriteItem)
    requires w in plan.writes
    ensures Put(w) in Phase(plan, 3)
  {
  }

  lemma LoopCan(d: Disk, plan: Plan, day: int, k: nat)
    requires WellFormed(plan) && Separated(plan, d, {day}) && 2 <= k <= 5 && Upto(d, plan, 6, day).Ok()
    ensures Upto(d, plan, k, day).Ok()
    ensures forall op :: op in Phase(plan, k) ==> Can(op, Upto(d, plan, k, day).disk)
  {
    AllUpto(d, plan, day, k);
    AllUpto(d, plan, day, k + 1);
    UptoStep(d, plan, k, day);
    var e := Upto(d, plan, k, day).disk;
    PlanSafe(d, plan, {day}, day, k, e);
    PlanTouchSafe(plan, e, {day}, k);
    PhaseFits(plan, {day}, day, k);
    PhaseIndep(plan, k);
    NoStageAfter(plan, k);
    ExecCan(Claims(plan, {day}), e, Phase(plan, k), day);
  }

  lemma NoStageAfter(plan: Plan, k: nat)
    ensures k != 1 ==> forall op :: op in Phase(plan, k) ==> !op.Stage?
  {
  }

  /** The iterations of loop `k` and the loops after it. */
  function After(plan: Plan, k: nat): seq<Op>
    decreases 6 - k
  {
    if k > 5 then [] else Phase(plan, k) + After(plan, k + 1)
  }

  lemma {:induction false} RunSplit(plan: Plan, k: nat)
    requires 1 <= k <= 6
    ensures Before(plan, 6) == Before(plan, k) + After(plan, k)
    decreases 6 - k
  {
    hide PullApply.Phase;
    if k < 6 {
      RunSplit(plan, k + 1);
      assert (Before(plan, k) + Phase(plan, k)) + After(plan, k + 1) == Before(plan, k) + (Phase(plan, k) + After(plan, k + 1));
    }
  }

  /** When loop `k` starts, its saves go through if the disk the run started from says so. */
  lemma LoopRegisters(d: Disk, plan: Plan, day: int, k: nat)
    requires WellFormed(plan) && Separated(plan, d, {day}) && 1 <= k <= 5 && Upto(d, plan, k, day).Ok()
    requires Registers(d, Before(plan, 6), day)
    ensures Registers(Upto(d, plan, k, day).disk, Phase(plan, k), day)
  {
    RunSplit(plan, k);
    assert After(plan, k) == Phase(plan, k) + After(plan, k + 1);
    hide PullApply.Before, PullApply.Phase, After, Registers, PullPlan.WellFormed, Claims, TouchAll, Ordered;
    RunOrdered(plan, 6);
    BeforeFits(plan, {day}, day, 6);
    BeforeIn(plan, 6);
    RegistersRest(Claims(plan, {day}), d, Before(plan, k), After(plan, k), day);
    RegistersPrefix(Upto(d, plan, k, day).disk, Phase(plan, k), After(plan, k + 1), day);
  }

  lemma PhaseOrdered(plan: Plan, k: nat)
    requires WellFormed(plan)
    ensures Indep(Phase(plan, k)) && Ordered(Phase(plan, k))
  {
    PhaseIndep(plan, k);
    IndepOrdered(plan, k, Phase(plan, k));
  }

  /** One more loop gets through. */
  lemma LoopOk(d: Disk, plan: Plan, day: int, k: nat)
    requires WellFormed(plan) && Separated(plan, d, {day}) && 2 <= k <= 5 && Upto(d, plan, k, day).Ok()
    requires Registers(d, Before(plan, 6), day)
    requires forall op :: op in Phase(plan, k) ==> Can(op, Upto(d, plan, k, day).disk)
    ensures Upto(d, plan, k + 1, day).Ok()
  {
    var e := Upto(d, plan, k, day).disk;
    hide PullApply.Phase, PullApply.Before, Registers, PullPlan.WellFormed, Upto, Claims, Can;
    LoopRegisters(d, plan, day, k);
    UptoStep(d, plan, k, day);
    PlanSafe(d, plan, {day}, day, k, e);
    PlanTouchSafe(plan, e, {day}, k);
    PhaseFits(plan, {day}, day, k);
    PhaseOrdered(plan, k);
    NoStageAfter(plan, k);
    CanExec(Claims(plan, {day}), e, Phase(plan, k), day);
  }

  lemma FirstLoopOk(d: Disk, plan: Plan, day: int)
    requires WellFormed(plan) && Separated(plan, d, {day}) && Ready(plan, d, false)
    requires Registers(d, Before(plan, 6), day)
    ensures Upto(d, plan, 2, day).Ok()
  {
    UptoStart(d, plan, day);
    LoopRegisters(d, plan, day, 1);
    UptoStep(d, plan, 1, day);
    PlanTouchSafe(plan, d, {day}, 1);
    PhaseFits(plan, {day}, day, 1);
    PhaseOrdered(plan, 1);
    hide PullApply.Before, Registers, PullPlan.WellFormed, Upto, Claims;
    StagesOk(plan, Claims(plan, {day}), d, Phase(plan, 1), day);
  }

  lemma CanRemove(plan: Plan, k: nat, e: Disk)
    requires k == 2 || k == 5
    ensures forall op :: op in Phase(plan, k) ==> Can(op, e)
  {
  }

  lemma PhaseItems(plan: Plan)
    ensures forall op :: op in Phase(plan, 3) ==> op.Put? && op.w in plan.writes
    ensures forall op :: op in Phase(plan, 4) ==>
      (op.Land? || op.Shift?) && op.m in plan.moves && op == PlaceOp(op.m, plan.blocking)
  {
  }

  /** Where every payload can be supplied and every edit saved, no loop fails. */
  lemma ReadyMeansOk(d: Disk, plan: Plan, day: int)
    requires WellFormed(plan) && Separated(plan, d, {day})
    requires Ready(plan, d, false) && Registers(d, Before(plan, 6), day)
    ensures Apply(d, plan, day).Ok()
  {
    assert Apply(d, plan, day) == Upto(d, plan, 6, day);
    hide Upto, PullApply.Apply, PullApply.Phase, PullPlan.WellFormed, Separated, Supplied, MoveReady, Can, Registers, PullApply.Before;
    PhaseItems(plan);
    FirstLoopOk(d, plan, day);
    CanRemove(plan, 2, Upto(d, plan, 2, day).disk);
    LoopOk(d, plan, day, 2);
    forall op | op in Phase(plan, 3)
      ensures Can(op, Upto(d, plan, 3, day).disk)
    {
      WriteIff(d, plan, day, op.w);
    }
    LoopOk(d, plan, day, 3);
    forall op | op in Phase(plan, 4)
      ensures Can(op, Upto(d, plan, 4, day).disk)
    {
      MoveIff(d, plan, day, op.m);
    }
    LoopOk(d, plan, day, 4);
    CanRemove(plan, 5, Upto(d, plan, 5, day).disk);
    LoopOk(d, plan, day, 5);
  }

  /** The generated ids of the files the plan checks were drawn before the run. */
  ghost predicate IdsDrawn(plan: Plan, d: Disk) {
    forall t :: t in Checked(plan) && t.id.Generated? ==> t.id.serial < d.drawn
  }

  /** A run without error could save every edit it had to. */
  lemma OkMeansRegisters(d: Disk, plan: Plan, day: int)
    requires WellFormed(plan) && Separated(plan, d, {day}) && IdsDrawn(plan, d) && Apply(d, plan, day).Ok()
    ensures Registers(d, Before(plan, 6), day)
  {
    hide PullApply.Before, PullApply.Phase, Registers, PullPlan.WellFormed, Claims, TouchAll, Ordered;
    RunOrdered(plan, 6);
    BeforeFits(plan, {day}, day, 6);
    BeforeIn(plan, 6);
    BeforeFrom(plan, 6);
    forall op | op in Before(plan, 6) && Guard(op).expected.Some?
      ensures Guard(op) in Checked(plan)
    {
      FromChecked(plan, 6, op);
    }
    ExecRegisters(Claims(plan, {day}), d, Before(plan, 6), day);
  }

  /** Main result: from any disk, clean, edited or half applied, the engine gets through if and only if
      the disk supplies every write and move and every edit in the way can be saved. */
  lemma SucceedsIffReady(d: Disk, plan: Plan, day: int)
    requires WellFormed(plan) && Separated(plan, d, {day}) && IdsDrawn(plan, d)
    ensures Apply(d, plan, day).Ok() <==> Ready(plan, d, false) && Registers(d, Before(plan, 6), day)
  {
    hide PullApply.Apply, Ready, Registers, PullApply.Before, PullPlan.WellFormed;
    if Apply(d, plan, day).Ok() {
      OkMeansReady(d, plan, day);
      OkMeansRegisters(d, plan, day);
    }
    if Ready(plan, d, false) && Registers(d, Before(plan, 6), day) { ReadyMeansOk(d, plan, day); }
  }

  /** Where every copy can be registered, the payloads alone decide. */
  lemma GoodSucceedsIff(d: Disk, plan: Plan, days: set<int>, day: int)
    requires WellFormed(plan) && Good(plan, d, days) && day in days
    ensures Apply(d, plan, day).Ok() <==> Ready(plan, d, false)
  {
    hide PullApply.Apply, Ready, Registers, PullApply.Before, PullPlan.WellFormed;
    Narrow(plan, d, days, day);
    if Apply(d, plan, day).Ok() { OkMeansReady(d, plan, day); }
    if Ready(plan, d, false) {
      GoodRegisters(plan, d, days, day);
      ReadyMeansOk(d, plan, day);
    }
  }

  lemma Narrow(plan: Plan, d: Disk, days: set<int>, day: int)
    requires Separated(plan, d, days) && day in days
    ensures Separated(plan, d, {day})
  {
  }
}
