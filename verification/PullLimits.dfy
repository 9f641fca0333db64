/** Where the engine's guarantees stop: concrete plans that need the conditions of the main results. */
module PullLimits {
  import opened Basics
  import opened PullPlan
  import opened PullApply
  import opened PullFrames
  import opened PullSuccess
  import opened PullOrder
  import opened PullKept
  import opened PullSaves
  import opened PullReady
  import opened PullExact
  import opened PullClean
  import opened PullCrash
  import opened PullLost
  import opened PullRecovery
  import opened PullOrphans

  const PATH_A := Plain("a.md")
  const PATH_B := Plain("b.md")
  const ID_A := Named("a")
  const ID_B := Named("b")

  /** Two files trade places. */
  function SwapPlan(): Plan {
    Plan(2, [], [MoveItem(ID_A, PATH_A, PATH_B, Sha256([1])), MoveItem(ID_B, PATH_B, PATH_A, Sha256([2]))], [],
         {PATH_A, PATH_B})
  }

  function SwapDisk(): Disk {
    Disk(map[PATH_A := [1], PATH_B := [2]], map[],
         [Record(ID_A, PATH_B, Active, Some(Sha256([1])), None), Record(ID_B, PATH_A, Active, Some(Sha256([2])), None)],
         false, 0)
  }

  /** The swap below is such a plan and disk. */
  lemma SwapIsGood(days: set<int>)
    ensures WellFormed(SwapPlan()) && Good(SwapPlan(), SwapDisk(), days) && Clean(SwapPlan(), SwapDisk())
  {
    SwapItems();
    SwapKnown();
    hide PullPlan.WellFormed, Clean, Checked;
  }

  lemma SwapKnown()
    ensures forall t :: t in Checked(SwapPlan()) ==> Knows(SwapDisk().doc, t.id)
  {
    var plan, d := SwapPlan(), SwapDisk();
    assert d.doc[0] in d.doc && d.doc[1] in d.doc;
    forall t | t in Checked(plan)
      ensures Knows(d.doc, t.id)
    {
      assert t.id == ID_A || t.id == ID_B;
    }
  }

  lemma SwapItems()
    ensures WellFormed(SwapPlan()) && Clean(SwapPlan(), SwapDisk())
    ensures Targets(SwapPlan()) == {PATH_A, PATH_B} && Sources(SwapPlan()) == {PATH_A, PATH_B}
  {
    var plan := SwapPlan();
    var a, b := plan.moves[0], plan.moves[1];
    assert plan.moves == [a, b] && a in plan.moves && b in plan.moves;
    assert PATH_A in Targets(plan) && PATH_B in Targets(plan) && PATH_A in Sources(plan) && PATH_B in Sources(plan);
    assert Targets(plan) == {PATH_A, PATH_B} && Sources(plan) == {PATH_A, PATH_B};
  }

  lemma CleanIsReady(plan: Plan, d: Disk)
    requires Clean(plan, d)
    ensures Ready(plan, d, false)
  {
  }

  /** Any swap killed between its two placements cannot be replayed: the first placement is staged away
      as if it were an edit of the other file, and its own payload is gone. */
  lemma SwapCrashIsNotReplayed(plan: Plan, d: Disk, day: int, again: int)
    requires WellFormed(plan) && Good(plan, d, {day, again}) && Clean(plan, d) && |plan.moves| >= 2
    requires plan.moves[0].source == plan.moves[1].target && plan.moves[0].target == plan.moves[1].source
    ensures Crashed(d, plan, 1, day).Ok() && !Apply(Crashed(d, plan, 1, day).disk, plan, again).Ok()
  {
    var m := plan.moves[0];
    CleanIsReady(plan, d);
    GoodParts(plan, d, {day, again});
    CrashedOk(d, plan, {day, again}, 1, day);
    LoopFourReplayIff(plan, d, 1, day, again);
    assert m in plan.moves && plan.moves[1] in plan.moves;
    SwapSourceEmpty(plan, d, day);
    hide Crashed, Upto, PullApply.Apply, Good, Ready, Clean, PullPlan.WellFormed;
    assert m.target in Sources(plan);
  }

  lemma SwapSourceEmpty(plan: Plan, d: Disk, day: int)
    requires WellFormed(plan) && Separated(plan, d, {day}) && |plan.moves| >= 2
    requires plan.moves[0].source == plan.moves[1].target && plan.moves[0].target == plan.moves[1].source
    requires Upto(d, plan, 4, day).Ok() && Crashed(d, plan, 1, day).Ok()
    ensures plan.moves[0].source !in Crashed(d, plan, 1, day).disk.live
  {
    var m := plan.moves[0];
    var e := Upto(d, plan, 4, day).disk;
    var ops := Phase(plan, 4)[..1];
    assert Crashed(d, plan, 1, day) == Exec(e, ops, day);
    SwapFacts(plan);
    assert m.source !in TouchAll(ops);
    PrefixFits(plan, {day}, day, 1);
    hide PullApply.Phase, PullApply.Exec, Upto, PullPlan.WellFormed, Crashed, Claims;
    TargetAt(d, plan, day, m.source, 4);
    ExecFrame(Claims(plan, {day}), e, ops, day, Exec(e, ops, day).disk);
    PlanSafe(d, plan, {day}, day, 4, e);
    PathSafe(plan, e, {day}, m.source);
  }

  lemma SwapFacts(plan: Plan)
    requires WellFormed(plan) && |plan.moves| >= 2
    requires plan.moves[0].source == plan.moves[1].target && plan.moves[0].target == plan.moves[1].source
    ensures var p := plan.moves[0].source;
            p in Targets(plan) && p in Sources(plan) && !TouchedIn(plan, 3, p) && p != plan.moves[0].target
    ensures Phase(plan, 4)[..1] == [Land(plan.moves[0])]
  {
    assert plan.moves[0] in plan.moves && plan.moves[1] in plan.moves;
    assert plan.moves[0].source in Targets(plan) && plan.moves[0].source in Sources(plan);
    assert Phase(plan, 4)[0] == PlaceOp(plan.moves[0], plan.blocking);
  }

  /** Two files deleted one after the other. */
  function TwoDeletes(a: DeleteItem, b: DeleteItem): Plan {
    Plan(2, [], [], [a, b], {})
  }

  function DeleteA(): DeleteItem {
    DeleteItem(ID_A, PATH_A, Some(Sha256([1])))
  }

  /** A file whose name is the next conflict name of `a.md`. */
  function DeleteNamed(day: int): DeleteItem {
    DeleteItem(ID_B, ConflictName(PATH_A, day, 1), Some(Sha256([3])))
  }

  function NamedDoc(day: int): seq<Record> {
    [Record(ID_A, PATH_A, Deleted, Some(Sha256([1])), None),
     Record(ID_B, ConflictName(PATH_A, day, 1), Deleted, Some(Sha256([3])), None)]
  }

  function CollidingPlan(day: int): Plan {
    TwoDeletes(DeleteA(), DeleteNamed(day))
  }

  function CollidingDisk(day: int): Disk {
    Disk(map[PATH_A := [3]], map[], NamedDoc(day), false, 0)
  }

  /** Without separated names an edit can be lost: the copy saved for the first file is then
      deleted as the second, whose recorded content it happens to have. */
  lemma CollidingNameLosesEdit(day: int)
    ensures WellFormed(CollidingPlan(day)) && !Separated(CollidingPlan(day), CollidingDisk(day), {day})
    ensures Separated(CollidingPlan(day), CollidingDisk(day), {}) && UniqueCopies(CollidingDisk(day).doc)
    ensures Dirty(CollidingDisk(day), PATH_A, Some(Sha256([1])))
    ensures Apply(CollidingDisk(day), CollidingPlan(day), day).Ok()
    ensures Apply(CollidingDisk(day), CollidingPlan(day), day).disk.live == map[]
  {
    hide PullApply.Apply, PullApply.RemoveFile, PullPlan.WellFormed, Separated, UniqueCopies, NamedDoc;
    NamedFits(day, CollidingPlan(day), CollidingDisk(day));
    CollidingSteps(day);
    TwoRun(CollidingDisk(day), DeleteA(), DeleteNamed(day), day);
  }

  /** The same two deletions the other way round. */
  function RefillPlan(day: int): Plan {
    TwoDeletes(DeleteNamed(day), DeleteA())
  }

  function RefillDisk(day: int): Disk {
    Disk(map[PATH_A := [4], ConflictName(PATH_A, day, 1) := [3]], map[], NamedDoc(day), false, 0)
  }

  /** Without separated names a normal return need not mean that the plan is applied:
      the copy of the second file's edit takes the path that was just vacated. */
  lemma CollidingNameRefillsPath(day: int)
    ensures var (plan, d) := (RefillPlan(day), RefillDisk(day));
            && WellFormed(plan) && !Separated(plan, d, {day}) && Separated(plan, d, {}) && UniqueCopies(d.doc)
            && Apply(d, plan, day).Ok() && !Applied(plan, Apply(d, plan, day).disk)
            && At(Apply(d, plan, day).disk.live, ConflictName(PATH_A, day, 1)) == Some([4])
  {
    var (plan, d) := (RefillPlan(day), RefillDisk(day));
    hide PullApply.Apply, PullApply.RemoveFile, PullPlan.WellFormed, Separated, Applied, UniqueCopies, NamedDoc;
    NamedFits(day, plan, d);
    RefillSteps(day);
    TwoRun(d, DeleteNamed(day), DeleteA(), day);
    RefillNotApplied(day, Apply(d, plan, day).disk);
  }

  lemma RefillNotApplied(day: int, f: Disk)
    requires ConflictName(PATH_A, day, 1) in f.live
    ensures !Applied(RefillPlan(day), f)
  {
    var plan := RefillPlan(day);
    assert plan.deletes[0] in plan.deletes;
    assert ConflictName(PATH_A, day, 1) in Sources(plan) - Targets(plan);
  }

  lemma NamedFits(day: int, plan: Plan, d: Disk)
    requires plan == CollidingPlan(day) || plan == RefillPlan(day)
    requires d.doc == NamedDoc(day)
    ensures WellFormed(plan) && !Separated(plan, d, {day}) && Separated(plan, d, {}) && UniqueCopies(d.doc)
  {
    NamedWellFormed(day, plan);
    assert plan.deletes[0] in plan.deletes && plan.deletes[1] in plan.deletes;
    assert DeleteA() in plan.deletes && DeleteNamed(day) in plan.deletes;
    hide PullPlan.WellFormed;
    assert Tracked(ID_A, PATH_A, Some(Sha256([1]))) in Checked(plan);
    NamedUnsafe(day, plan, d);
  }

  lemma NamedUnsafe(day: int, plan: Plan, d: Disk)
    requires DeleteNamed(day) in plan.deletes && Tracked(ID_A, PATH_A, Some(Sha256([1]))) in Checked(plan)
    ensures !Separated(plan, d, {day})
  {
    hide Checked;
    assert ConflictName(PATH_A, day, 1) in Sources(plan);
    assert Claims(plan, {day}).Covers(ConflictName(PATH_A, day, 1));
    assert !Safe(Claims(plan, {day}), d, ConflictName(PATH_A, day, 1));
  }

  lemma NamedWellFormed(day: int, plan: Plan)
    requires plan == CollidingPlan(day) || plan == RefillPlan(day)
    ensures WellFormed(plan)
  {
  }

  lemma TwoRun(d: Disk, a: DeleteItem, b: DeleteItem, day: int)
    ensures var (r, whole) := (RemoveFile(d, a, day), Apply(d, TwoDeletes(a, b), day));
            r.Ok() ==> whole.disk == RemoveFile(r.disk, b, day).disk && whole.error == RemoveFile(r.disk, b, day).error
  {
    TwoLoops(a, b);
    var ops := [Remove(a), Remove(b)];
    assert ops[1..] == [Remove(b)];
    hide PullApply.Before, PullApply.RemoveFile;
    var r := Step(d, ops[0], day);
    assert r == RemoveFile(d, a, day);
    OneRun(r.disk, b, day);
  }

  lemma OneRun(d: Disk, b: DeleteItem, day: int)
    ensures Exec(d, [Remove(b)], day).disk == RemoveFile(d, b, day).disk
    ensures Exec(d, [Remove(b)], day).error == RemoveFile(d, b, day).error
  {
    hide PullApply.RemoveFile;
    assert [Remove(b)][1..] == [];
    assert Step(d, Remove(b), day) == RemoveFile(d, b, day);
    assert Exec(Step(d, Remove(b), day).disk, [], day) == Stay(Step(d, Remove(b), day).disk);
  }

  lemma TwoLoops(a: DeleteItem, b: DeleteItem)
    ensures Before(TwoDeletes(a, b), 6) == [Remove(a), Remove(b)]
  {
    var plan := TwoDeletes(a, b);
    assert plan.deletes[1..] == [b] && [b][1..] == [];
    assert RemoveOps([b], {}, false) == [Remove(b)];
    assert Phase(plan, 5) == [Remove(a), Remove(b)];
    assert RemoveOps([b], {}, true) == [];
    assert Phase(plan, 1) == Phase(plan, 2) == Phase(plan, 3) == Phase(plan, 4) == [];
    assert Before(plan, 1) == Before(plan, 2) == [];
    assert Before(plan, 3) == [];
    assert Before(plan, 4) == [];
    assert Before(plan, 5) == [];
  }

  lemma CollidingSteps(day: int)
    ensures var d := CollidingDisk(day);
            var r := RemoveFile(d, DeleteA(), day);
            && r.Ok() && RemoveFile(r.disk, DeleteNamed(day), day).Ok()
            && RemoveFile(r.disk, DeleteNamed(day), day).disk.live == map[]
  {
    var d := CollidingDisk(day);
    var c := ConflictName(PATH_A, day, 1);
    assert NextFree(d.live.Keys, PATH_A, day, 1) == c;
    assert d.doc[0] in d.doc;
    assert FindCopy(d.doc, ID_A, Sha256([3])).None?;
    assert !Occupied(d.doc, c);
    var p := PreserveCopy(d, ID_A, PATH_A, Some(Sha256([1])), day);
    assert p.Ok() && p.disk.live == map[PATH_A := [3], c := [3]];
    var r := RemoveFile(d, DeleteA(), day);
    assert r.disk.live == map[c := [3]];
    assert PreserveCopy(r.disk, ID_B, c, Some(Sha256([3])), day) == Stay(r.disk);
  }

  lemma RefillSteps(day: int)
    ensures var d := RefillDisk(day);
            var r := RemoveFile(d, DeleteNamed(day), day);
            && r.Ok() && RemoveFile(r.disk, DeleteA(), day).Ok()
            && RemoveFile(r.disk, DeleteA(), day).disk.live == map[ConflictName(PATH_A, day, 1) := [4]]
  {
    var d := RefillDisk(day);
    var c := ConflictName(PATH_A, day, 1);
    assert PreserveCopy(d, ID_B, c, Some(Sha256([3])), day) == Stay(d);
    var e := RemoveFile(d, DeleteNamed(day), day).disk;
    assert e.live == map[PATH_A := [4]] && e.doc == d.doc;
    assert NextFree(e.live.Keys, PATH_A, day, 1) == c;
    assert e.doc[0] in e.doc;
    assert FindCopy(e.doc, ID_A, Sha256([4])).None?;
    assert !Occupied(e.doc, c);
    var p := PreserveCopy(e, ID_A, PATH_A, Some(Sha256([1])), day);
    assert p.Ok() && p.disk.live == map[PATH_A := [4], c := [4]];
    assert RemoveFile(e, DeleteA(), day).disk.live == map[c := [4]];
  }

  /** One edited file, to be deleted. */
  function DeletePlan(): Plan {
    Plan(2, [], [], [DeleteA()], {})
  }

  /** Its conflict copy of today is registered, but someone has removed it from the workspace. */
  function MissingCopyDisk(day: int): Disk {
    var c := ConflictName(PATH_A, day, 1);
    Disk(map[PATH_A := [3]], map[],
         [Record(ID_A, PATH_A, Deleted, Some(Sha256([1])), None),
          Record(Generated(0), c, ConflictCopy, Some(Sha256([9])), Some(ID_A))], true, 1)
  }

  /** The file map was rebuilt without the deleted file. */
  function ForgottenDisk(): Disk {
    Disk(map[PATH_A := [3]], map[], [], false, 0)
  }

  /** A registered copy that is gone from disk makes a run fail that has all its payloads:
      the new copy is written under the old name and cannot be registered. The next run gets through. */
  lemma MissingCopyFails(day: int)
    ensures var (plan, d) := (DeletePlan(), MissingCopyDisk(day));
            var r := Apply(d, plan, day);
            && WellFormed(plan) && Separated(plan, d, {day}) && Ready(plan, d, false)
            && r.error == Some(PathOccupied) && At(r.disk.live, ConflictName(PATH_A, day, 1)) == Some([3])
            && Apply(r.disk, plan, day).Ok()
  {
    var (plan, d) := (DeletePlan(), MissingCopyDisk(day));
    hide PullApply.Apply, PullApply.RemoveFile, Separated, PullPlan.WellFormed, Ready;
    DeleteFits(d, day);
    DeleteRun(d, day);
    MissingCopyRuns(day);
    DeleteRun(RemoveFile(d, plan.deletes[0], day).disk, day);
  }

  /** So does an edited file the file map no longer knows, and there the next run, on whatever day, fails as well. */
  lemma ForgottenSourceFails(day: int, again: int)
    ensures var (plan, d) := (DeletePlan(), ForgottenDisk());
            var r := Apply(d, plan, day);
            && WellFormed(plan) && Separated(plan, d, {day}) && Ready(plan, d, false)
            && r.error == Some(UnknownSource) && At(r.disk.live, ConflictName(PATH_A, day, 1)) == Some([3])
            && Apply(r.disk, plan, again).error == Some(UnknownSource)
  {
    var (plan, d) := (DeletePlan(), ForgottenDisk());
    hide PullApply.Apply, PullApply.RemoveFile, Separated, PullPlan.WellFormed, Ready;
    DeleteFits(d, day);
    DeleteRun(d, day);
    ForgottenRuns(day, again);
    DeleteRun(RemoveFile(d, plan.deletes[0], day).disk, again);
  }

  lemma DeleteFits(d: Disk, day: int)
    requires forall r :: r in d.doc && r.status == ConflictCopy ==> r.path != PATH_A
    ensures WellFormed(DeletePlan()) && Separated(DeletePlan(), d, {day}) && Ready(DeletePlan(), d, false)
  {
  }

  lemma DeleteRun(d: Disk, day: int)
    ensures Apply(d, DeletePlan(), day).disk == RemoveFile(d, DeletePlan().deletes[0], day).disk
    ensures Apply(d, DeletePlan(), day).error == RemoveFile(d, DeletePlan().deletes[0], day).error
  {
    var plan := DeletePlan();
    var op := Remove(plan.deletes[0]);
    assert Phase(plan, 1) == Phase(plan, 2) == Phase(plan, 3) == Phase(plan, 4) == [] && Phase(plan, 5) == [op];
    assert Before(plan, 2) == Before(plan, 3) == Before(plan, 4) == Before(plan, 5) == [];
    assert Before(plan, 6) == [op] && [op][1..] == [];
    hide PullApply.RemoveFile, PullApply.Before, PullApply.Phase;
    OneRun(d, plan.deletes[0], day);
  }

  lemma MissingCopyRuns(day: int)
    ensures var (d, i) := (MissingCopyDisk(day), DeletePlan().deletes[0]);
            var r := RemoveFile(d, i, day);
            && r.error == Some(PathOccupied) && At(r.disk.live, ConflictName(PATH_A, day, 1)) == Some([3])
            && RemoveFile(r.disk, i, day).Ok()
  {
    var (d, i) := (MissingCopyDisk(day), DeletePlan().deletes[0]);
    var (c, next) := (ConflictName(PATH_A, day, 1), ConflictName(PATH_A, day, 2));
    assert d.doc[0] in d.doc && d.doc[1] in d.doc;
    assert FindCopy(d.doc, ID_A, Sha256([3])).None?;
    assert NextFree(d.live.Keys, PATH_A, day, 1) == c && Knows(d.doc, ID_A) && Occupied(d.doc, c);
    var e := RemoveFile(d, i, day).disk;
    assert e.live == map[PATH_A := [3], c := [3]] && e.doc == d.doc;
    assert NextFree(e.live.Keys, PATH_A, day, 1) == next && !Occupied(e.doc, next);
    assert PreserveCopy(e, ID_A, PATH_A, i.expected, day).Ok();
  }

  lemma ForgottenRuns(day: int, again: int)
    ensures var (d, i) := (ForgottenDisk(), DeletePlan().deletes[0]);
            var r := RemoveFile(d, i, day);
            && r.error == Some(UnknownSource) && At(r.disk.live, ConflictName(PATH_A, day, 1)) == Some([3])
            && RemoveFile(r.disk, i, again).error == Some(UnknownSource)
  {
    var (d, i) := (ForgottenDisk(), DeletePlan().deletes[0]);
    assert FindCopy(d.doc, ID_A, Sha256([3])).None? && !Knows(d.doc, ID_A);
    var c := ConflictName(PATH_A, day, 1);
    assert NextFree(d.live.Keys, PATH_A, day, 1) == c;
    var e := RemoveFile(d, i, day).disk;
    assert e.live == map[PATH_A := [3], c := [3]] && e.doc == d.doc;
    assert Dirty(e, PATH_A, i.expected);
  }

  /** A file moves to the path of a deleted one. */
  function MoveOnto(expected: Option<Hash>): Plan {
    Plan(2, [], [MoveItem(ID_A, PATH_A, PATH_B, Sha256([1]))], [DeleteItem(ID_B, PATH_B, expected)], {PATH_B})
  }

  function TwinDisk(other: Bytes): Disk {
    Disk(map[PATH_A := [1], PATH_B := other], map[],
         [Record(ID_A, PATH_A, Active, Some(Sha256([1])), None), Record(ID_B, PATH_B, Active, Some(Sha256(other)), None)], false, 0)
  }

  lemma OntoLoops(expected: Option<Hash>)
    ensures var plan := MoveOnto(expected);
            Before(plan, 6) == [Stage(plan.moves[0]), Remove(plan.deletes[0]), Land(plan.moves[0])]
  {
    var plan := MoveOnto(expected);
    var (m, i) := (plan.moves[0], plan.deletes[0]);
    assert plan.moves[1..] == [] && plan.deletes[1..] == [];
    assert StageOps(plan.moves, plan.blocking) == [Stage(m)];
    assert RemoveOps([], plan.blocking, false) == RemoveOps([], plan.blocking, true) == [];
    assert RemoveOps(plan.deletes, plan.blocking, true) == [Remove(i)] && RemoveOps(plan.deletes, plan.blocking, false) == [];
    assert PlaceOps(plan.moves, plan.blocking) == [Land(m)];
    assert Before(plan, 2) == [Stage(m)] && Before(plan, 3) == [Stage(m), Remove(i)] && Before(plan, 4) == Before(plan, 3);
    assert Before(plan, 5) == [Stage(m), Remove(i), Land(m)];
  }

  lemma ThreeRun(d: Disk, a: Op, b: Op, c: Op, day: int)
    ensures var (x, whole) := (Step(d, a, day), Exec(d, [a, b, c], day));
            x.Ok() && Step(x.disk, b, day).Ok() ==>
              && whole.disk == Step(Step(x.disk, b, day).disk, c, day).disk
              && whole.error == Step(Step(x.disk, b, day).disk, c, day).error
  {
    hide PullApply.Step;
    var x := Step(d, a, day);
    assert [a, b, c][0] == a && [a, b, c][1..] == [b, c] && [b, c][0] == b && [b, c][1..] == [c] && [c][1..] == [];
    if x.Ok() && Step(x.disk, b, day).Ok() {
      var y := Step(x.disk, b, day);
      assert Exec(x.disk, [b, c], day) == Then(y, Exec(y.disk, [c], day));
      assert Exec(d, [a, b, c], day) == Then(x, Exec(x.disk, [b, c], day));
      assert Exec(Step(y.disk, c, day).disk, [], day) == Stay(Step(y.disk, c, day).disk);
    }
  }

  lemma OntoRun(d: Disk, expected: Option<Hash>, day: int)
    requires At(d.live, PATH_A) == Some([1]) && d.staging == map[] && d.live.Keys == {PATH_A, PATH_B}
    requires expected.Some? ==> Sha256(d.live[PATH_B]) == expected.value
    ensures Apply(d, MoveOnto(expected), day).disk.live == map[PATH_B := [1]]
    ensures Apply(d, MoveOnto(expected), day).disk.staging == map[] && Apply(d, MoveOnto(expected), day).disk.doc == d.doc
  {
    var plan := MoveOnto(expected);
    var (m, i) := (plan.moves[0], plan.deletes[0]);
    var a := StageMove(d, m, day).disk;
    assert a.live == d.live - {PATH_A} && a.staging == map[ID_A := [1]];
    var b := RemoveFile(a, i, day).disk;
    assert b.live == map[] && b.staging == a.staging;
    assert PlaceStaged(b, m).disk.live == map[PATH_B := [1]] && PlaceStaged(b, m).disk.staging == map[];
    hide PullApply.StageMove, PullApply.RemoveFile, PullApply.PlaceStaged, PullApply.Exec, PullApply.Before;
    OntoLoops(expected);
    ThreeRun(d, Stage(m), Remove(i), Land(m), day);
  }

  /** Run again over its own result, the plan deletes the file it has placed, and fails. */
  lemma OntoAgain(d: Disk, expected: Option<Hash>, again: int)
    requires d.live == map[PATH_B := [1]] && d.staging == map[]
    requires expected.None? || expected == Some(Sha256([1]))
    ensures var r := Apply(d, MoveOnto(expected), again);
            r.error == Some(NotFound) && r.disk.live == map[] && r.disk.staging == map[]
  {
    var plan := MoveOnto(expected);
    var (m, i) := (plan.moves[0], plan.deletes[0]);
    assert StageMove(d, m, again) == Stay(d);
    var b := RemoveFile(d, i, again).disk;
    assert RemoveFile(d, i, again).Ok() && b.live == map[] && b.staging == map[];
    assert PlaceStaged(b, m) == Fail(Stay(b), NotFound);
    hide PullApply.StageMove, PullApply.RemoveFile, PullApply.PlaceStaged, PullApply.Exec, PullApply.Before;
    OntoLoops(expected);
    ThreeRun(d, Stage(m), Remove(i), Land(m), again);
  }

  lemma OntoFits(expected: Option<Hash>, other: Bytes)
    requires expected.Some? ==> expected == Some(Sha256(other))
    ensures WellFormed(MoveOnto(expected)) && Clean(MoveOnto(expected), TwinDisk(other))
  {
    var plan := MoveOnto(expected);
    assert PATH_B in Targets(plan) && PATH_B in Sources(plan) by {
      assert plan.moves[0] in plan.moves && plan.deletes[0] in plan.deletes;
    }
    assert Targets(plan) * Sources(plan) == {PATH_B};
  }

  lemma FailedReplay(m: Machine, plan: Plan, again: int)
    requires InSession(m, plan) && m.orphans == {} && m.disk.doc != []
    requires m.disk.doc[0].status == Active && Apply(m.disk, plan, again).error.Some?
    requires Apply(m.disk, plan, again).disk.live == map[] && Apply(m.disk, plan, again).disk.staging == map[]
    ensures var r := Resume(m, again);
            r.mode == Degraded && r.fullPull && r.machine.disk.live == map[] && r.machine.orphans == {}
  {
    hide PullApply.Apply;
    assert m.disk.doc[0] in m.disk.doc;
    assert !MatchesDocument(map[], m.disk.doc);
  }

  /** Main result: a device that has carried out such a plan and dies before closing its journal loses the moved file: the
      replay finds at the target the content it expects to delete, or no recorded content to compare with, deletes it and
      gives up; neither a file nor a set-aside payload holds the bytes. */
  lemma ReplayDeletesLanded(m: Machine, expected: Option<Hash>, other: Bytes, day: int, again: int)
    requires (expected.None? || expected == Some(Sha256([1]))) && (expected.Some? ==> other == [1])
    requires InSession(m, MoveOnto(expected)) && m.orphans == {}
    requires m.disk == Apply(TwinDisk(other), MoveOnto(expected), day).disk
    ensures WellFormed(MoveOnto(expected)) && Clean(MoveOnto(expected), TwinDisk(other))
    ensures var r := Resume(m, again);
            r.mode == Degraded && r.fullPull && r.machine.disk.live == map[] && r.machine.orphans == {}
  {
    hide PullApply.Apply, Resume, InSession, PullPlan.WellFormed, Clean;
    OntoRun(TwinDisk(other), expected, day);
    OntoAgain(m.disk, expected, again);
    OntoFits(expected, other);
    FailedReplay(m, MoveOnto(expected), again);
  }
}
