/** What recovery does with staged payloads: nothing that a pull has moved off its path is thrown away. */
module PullOrphans {
  import opened Basics
  import opened PullPlan
  import opened PullApply
  import opened PullFrames
  import opened PullSuccess
  import opened PullOrder
  import opened PullKept
  import opened PullExact
  import opened PullClean
  import opened PullRecovery

  /** The payloads still staged when recovery is done replaying, if it replays at all. */
  function StagedAtEnd(m: Machine, day: int): map<FileId, Bytes> {
    if HasPlan(m) then Apply(m.disk, m.planFile.plan, day).disk.staging else m.disk.staging
  }

  /** Main result: recovery never drops a payload set aside earlier, and when it asks for a full pull it has set aside
      every payload that was still staged, and nothing else. */
  lemma OrphansGrow(m: Machine, day: int)
    ensures var r := Resume(m, day);
            && m.orphans <= r.machine.orphans
            && (r.fullPull ==> forall id, bytes :: (id, bytes) in r.machine.orphans <==>
                  (id, bytes) in m.orphans || At(StagedAtEnd(m, day), id) == Some(bytes))
            && (!r.fullPull ==> r.machine.orphans == m.orphans)
  {
    hide PullApply.Apply, MatchesDocument, Reconcile, MarkStale;
  }

  // Where the bytes of a moved file are while the loops run.

  /** The bytes are at the source or the target of the move, as far as these count, or staged under its id. */
  predicate Carried(s: Disk, m: MoveItem, bytes: Bytes, src: bool, tgt: bool) {
    || (src && At(s.live, m.source) == Some(bytes))
    || At(s.staging, m.fileId) == Some(bytes)
    || (tgt && At(s.live, m.target) == Some(bytes))
  }

  predicate Own(op: Op, m: MoveItem) {
    op == Stage(m) || op == Land(m) || op == Shift(m)
  }

  /** The iteration keeps off the places that count, or is one of the move itself. */
  predicate Suits(op: Op, m: MoveItem, src: bool, tgt: bool) {
    if Own(op, m) then op.Stage? || tgt
    else m.fileId !in Ids(op) && (src ==> m.source !in Touch(op)) && (tgt ==> m.target !in Touch(op))
  }

  /** The iterations find their files unedited, or can make no copy on the ends of the move. */
  ghost predicate Steady(o: Scope, d: Disk, ops: seq<Op>, day: int, m: MoveItem) {
    || (Indep(ops) && forall op :: op in ops ==> CleanAt(op, d) && (op.Shift? ==> op.m.source != op.m.target))
    || (AllFit(o, ops, day) && Safe(o, d, m.source) && Safe(o, d, m.target))
  }

  lemma CleanStates(d: Disk, op: Op, day: int, s: Disk)
    requires CleanAt(op, d) && (op.Shift? ==> op.m.source != op.m.target) && Step(d, op, day).Visits(s)
    ensures s == d || s == Step(d, op, day).disk
  {
    assert Save(d, op, day) == Stay(d);
    hide PullApply.PreserveCopy;
  }

  /** What an iteration does not touch it leaves alone. */
  lemma StepStill(o: Scope, d: Disk, op: Op, day: int, m: MoveItem, s: Disk)
    requires Step(d, op, day).Visits(s)
    requires (CleanAt(op, d) && (op.Shift? ==> op.m.source != op.m.target))
             || (o.Has(Guard(op), day) && Safe(o, d, m.source) && Safe(o, d, m.target))
    ensures m.source !in Touch(op) ==> At(s.live, m.source) == At(d.live, m.source)
    ensures m.target !in Touch(op) ==> At(s.live, m.target) == At(d.live, m.target)
    ensures m.fileId !in Ids(op) ==> At(s.staging, m.fileId) == At(d.staging, m.fileId)
  {
    hide PullApply.Step, CleanAt, Safe;
    if CleanAt(op, d) && (op.Shift? ==> op.m.source != op.m.target) {
      CleanStates(d, op, day, s);
      StepClean(d, op, day);
    } else {
      StepFrame(o, d, op, day, s);
    }
  }

  /** The saves of an iteration leave the ends of the move and the staged payloads alone. */
  lemma SaveStill(o: Scope, d: Disk, op: Op, day: int, m: MoveItem, s: Disk)
    requires Save(d, op, day).Visits(s)
    requires !Dirty(d, Guard(op).path, Guard(op).expected)
             || (o.Has(Guard(op), day) && Safe(o, d, m.source) && Safe(o, d, m.target))
    ensures At(s.live, m.source) == At(d.live, m.source) && At(s.live, m.target) == At(d.live, m.target)
    ensures s.staging == d.staging
  {
    if Dirty(d, Guard(op).path, Guard(op).expected) { PreserveFrame(o, d, Guard(op), day, s); }
  }

  /** The save of an iteration, if it makes one, left the places of the move alone. */
  predicate SavedAside(d: Disk, m: MoveItem, s: Disk) {
    At(s.live, m.source) == At(d.live, m.source) && At(s.live, m.target) == At(d.live, m.target) && s.staging == d.staging
  }

  lemma StageCarries(d: Disk, m: MoveItem, day: int, bytes: Bytes, src: bool, tgt: bool, s: Disk)
    requires m.source != m.target && StageMove(d, m, day).Visits(s)
    requires SavedAside(d, m, Save(d, Stage(m), day).disk)
    requires Save(d, Stage(m), day).Visits(s) ==> SavedAside(d, m, s)
    requires Sha256(bytes) == m.hash && Carried(d, m, bytes, src, tgt)
    ensures Carried(s, m, bytes, src, tgt)
  {
    hide PullApply.PreserveCopy;
  }

  lemma ShiftCarries(d: Disk, m: MoveItem, day: int, bytes: Bytes, src: bool, tgt: bool, s: Disk)
    requires m.source != m.target && tgt && PlaceDirect(d, m, day).Visits(s)
    requires SavedAside(d, m, Save(d, Shift(m), day).disk)
    requires Save(d, Shift(m), day).Visits(s) ==> SavedAside(d, m, s)
    requires Sha256(bytes) == m.hash && Carried(d, m, bytes, src, tgt)
    ensures Carried(s, m, bytes, src, tgt)
  {
    hide PullApply.PreserveCopy;
  }

  lemma OwnCarries(o: Scope, d: Disk, op: Op, day: int, m: MoveItem, bytes: Bytes, src: bool, tgt: bool, s: Disk)
    requires Own(op, m) && Suits(op, m, src, tgt) && m.source != m.target && Step(d, op, day).Visits(s)
    requires !Dirty(d, Guard(op).path, Guard(op).expected)
             || (o.Has(Guard(op), day) && Safe(o, d, m.source) && Safe(o, d, m.target))
    requires Sha256(bytes) == m.hash && Carried(d, m, bytes, src, tgt)
    ensures Carried(s, m, bytes, src, tgt)
  {
    var p := Save(d, op, day);
    SaveStill(o, d, op, day, m, p.disk);
    if p.Visits(s) { SaveStill(o, d, op, day, m, s); }
    hide PullApply.PreserveCopy, Safe, PullApply.StageMove, PullApply.PlaceDirect;
    match op
    case Stage(_) => StageCarries(d, m, day, bytes, src, tgt, s);
    case Land(_) =>
    case Shift(_) => ShiftCarries(d, m, day, bytes, src, tgt, s);
  }

  lemma StepCarries(o: Scope, d: Disk, op: Op, day: int, m: MoveItem, bytes: Bytes, src: bool, tgt: bool, s: Disk)
    requires Suits(op, m, src, tgt) && m.source != m.target && Step(d, op, day).Visits(s)
    requires (CleanAt(op, d) && (op.Shift? ==> op.m.source != op.m.target))
             || (o.Has(Guard(op), day) && Safe(o, d, m.source) && Safe(o, d, m.target))
    requires Sha256(bytes) == m.hash && Carried(d, m, bytes, src, tgt)
    ensures Carried(s, m, bytes, src, tgt)
  {
    if Own(op, m) {
      OwnCarries(o, d, op, day, m, bytes, src, tgt, s);
    } else {
      StepStill(o, d, op, day, m, s);
    }
  }

  lemma SteadyTail(o: Scope, d: Disk, ops: seq<Op>, day: int, m: MoveItem)
    requires ops != [] && Steady(o, d, ops, day, m) && Step(d, ops[0], day).Ok()
    ensures Steady(o, Step(d, ops[0], day).disk, ops[1..], day, m)
  {
    var r := Step(d, ops[0], day);
    hide PullApply.Step, CleanAt, Safe;
    if Indep(ops) && forall op :: op in ops ==> CleanAt(op, d) && (op.Shift? ==> op.m.source != op.m.target) {
      assert ops[0] in ops;
      StepClean(d, ops[0], day);
      forall op | op in ops[1..]
        ensures CleanAt(op, r.disk)
      {
        assert Apart(ops[0], op);
        CleanAtFrame(d, r.disk, op);
      }
    } else {
      StepFrame(o, d, ops[0], day, r.disk);
    }
  }

  lemma {:induction false} ExecCarries(o: Scope, d: Disk, ops: seq<Op>, day: int, m: MoveItem, bytes: Bytes,
                                       src: bool, tgt: bool, s: Disk)
    requires Steady(o, d, ops, day, m) && forall op :: op in ops ==> Suits(op, m, src, tgt)
    requires m.source != m.target && Exec(d, ops, day).Visits(s)
    requires Sha256(bytes) == m.hash && Carried(d, m, bytes, src, tgt)
    ensures Carried(s, m, bytes, src, tgt)
    decreases |ops|
  {
    if ops != [] {
      var r := Step(d, ops[0], day);
      assert ops[0] in ops;
      hide PullApply.Step, CleanAt, Safe, Carried, Suits, Guard;
      StepCarries(o, d, ops[0], day, m, bytes, src, tgt, r.disk);
      if r.Visits(s) {
        StepCarries(o, d, ops[0], day, m, bytes, src, tgt, s);
      } else {
        SteadyTail(o, d, ops, day, m);
        ExecCarries(o, r.disk, ops[1..], day, m, bytes, src, tgt, s);
      }
    }
  }

  // The five loops.

  /** While loop `k` runs, the source still counts, or no longer. */
  predicate SourceCounts(plan: Plan, m: MoveItem, k: nat) {
    k == 1 || (k <= 4 && !Blocks(m, plan.blocking))
  }

  predicate TargetCounts(k: nat) {
    k >= 4
  }

  lemma LoopSuits(plan: Plan, m: MoveItem, k: nat)
    requires WellFormed(plan) && m in plan.moves && 1 <= k <= 5
    ensures forall op :: op in Phase(plan, k) ==> Suits(op, m, SourceCounts(plan, m, k), TargetCounts(k))
  {
    hide *;
    forall op | op in Phase(plan, k)
      ensures Suits(op, m, SourceCounts(plan, m, k), TargetCounts(k))
    {
      PhaseKind(plan, k, op);
      match op
      case Stage(x) => if x != m { OtherMove(plan, m, x); } StageSuits(plan, m, x);
      case Remove(i) => RemoveSuits(plan, m, k, i);
      case Put(w) => PutSuits(plan, m, w);
      case Land(x) => if x != m { OtherMove(plan, m, x); } LandSuits(plan, m, x);
      case Shift(x) => if x != m { OtherMove(plan, m, x); } ShiftSuits(plan, m, x);
    }
  }

  lemma StageSuits(plan: Plan, m: MoveItem, x: MoveItem)
    requires x != m ==> x.source != m.source && x.fileId != m.fileId
    ensures Suits(Stage(x), m, SourceCounts(plan, m, 1), TargetCounts(1))
  {
    hide Blocks;
  }

  lemma RemoveSuits(plan: Plan, m: MoveItem, k: nat, i: DeleteItem)
    requires WellFormed(plan) && m in plan.moves && i in plan.deletes && (k == 2 || (k == 5 && i.path !in plan.blocking))
    ensures Suits(Remove(i), m, SourceCounts(plan, m, k), TargetCounts(k))
  {
    MoveDelete(plan, m, i);
    EndBlocks(plan, m, i.path);
    assert i.path in Sources(plan);
    hide PullPlan.WellFormed, Blocks, Sources, Targets;
  }

  lemma PutSuits(plan: Plan, m: MoveItem, w: WriteItem)
    requires WellFormed(plan) && m in plan.moves && w in plan.writes
    ensures Suits(Put(w), m, SourceCounts(plan, m, 3), TargetCounts(3))
  {
    WriteMove(plan, w, m);
    EndBlocks(plan, m, w.target);
    assert w.target in Targets(plan);
    hide PullPlan.WellFormed, Sources, Targets;
  }

  lemma LandSuits(plan: Plan, m: MoveItem, x: MoveItem)
    requires x != m ==> x.source != m.source && x.target != m.target && x.fileId != m.fileId && (x.target == m.source ==> m.source in plan.blocking)
    ensures Suits(Land(x), m, SourceCounts(plan, m, 4), TargetCounts(4))
  {
  }

  lemma ShiftSuits(plan: Plan, m: MoveItem, x: MoveItem)
    requires !Blocks(x, plan.blocking)
    requires x != m ==>
      && x.source != m.source && x.target != m.target && x.fileId != m.fileId
      && (x.target == m.source ==> m.source in plan.blocking) && (x.source == m.target ==> m.target in plan.blocking)
    ensures Suits(Shift(x), m, SourceCounts(plan, m, 4), TargetCounts(4))
  {
  }

  lemma OtherMove(plan: Plan, m: MoveItem, x: MoveItem)
    requires WellFormed(plan) && m in plan.moves && x in plan.moves && x != m
    ensures x.source != m.source && x.target != m.target && x.fileId != m.fileId
    ensures x.target == m.source ==> m.source in plan.blocking
    ensures x.source == m.target ==> m.target in plan.blocking
  {
    MovesDiffer(plan, x, m);
    EndBlocks(plan, m, x.target);
    EndBlocks(plan, m, x.source);
    assert x.target in Targets(plan) && x.source in Sources(plan);
    hide PullPlan.WellFormed, Targets, Sources;
  }

  /** An end of a move that another item of the plan vacates or fills is blocking. */
  lemma EndBlocks(plan: Plan, m: MoveItem, p: Path)
    requires WellFormed(plan) && m in plan.moves
    ensures p in Targets(plan) && p == m.source ==> p in plan.blocking
    ensures p in Sources(plan) && p == m.target ==> p in plan.blocking
  {
  }

  /** Loop `k` starts steady, and leaves what its iterations promise. */
  ghost predicate LoopFine(o: Scope, d: Disk, plan: Plan, day: int, k: nat, m: MoveItem) {
    Upto(d, plan, k, day).Ok() ==>
      && Steady(o, Upto(d, plan, k, day).disk, Phase(plan, k), day, m)
      && (Upto(d, plan, k + 1, day).Ok() ==> forall op :: op in Phase(plan, k) ==> Done(op, Upto(d, plan, k + 1, day).disk))
  }

  ghost predicate Fine(o: Scope, d: Disk, plan: Plan, day: int, m: MoveItem) {
    forall k :: 1 <= k <= 5 ==> LoopFine(o, d, plan, day, k, m)
  }

  lemma LoopCarries(o: Scope, d: Disk, plan: Plan, day: int, k: nat, m: MoveItem, bytes: Bytes, s: Disk)
    requires WellFormed(plan) && m in plan.moves && 1 <= k <= 5 && LoopFine(o, d, plan, day, k, m)
    requires Sha256(bytes) == m.hash && Upto(d, plan, k, day).Ok()
    requires Carried(Upto(d, plan, k, day).disk, m, bytes, SourceCounts(plan, m, k), TargetCounts(k))
    requires Exec(Upto(d, plan, k, day).disk, Phase(plan, k), day).Visits(s)
    ensures Carried(s, m, bytes, SourceCounts(plan, m, k), TargetCounts(k))
  {
    assert m.source != m.target;
    hide Upto, PullApply.Phase, PullPlan.WellFormed, PullApply.Exec, Steady, Carried;
    LoopSuits(plan, m, k);
    hide Suits, SourceCounts, TargetCounts;
    ExecCarries(o, Upto(d, plan, k, day).disk, Phase(plan, k), day, m, bytes, SourceCounts(plan, m, k), TargetCounts(k), s);
  }

  /** Loop by loop: staged moves leave their source in the first, and all are at their target after the fourth. */
  lemma NextLoop(o: Scope, d: Disk, plan: Plan, day: int, k: nat, m: MoveItem, bytes: Bytes)
    requires WellFormed(plan) && m in plan.moves && 1 <= k <= 5 && LoopFine(o, d, plan, day, k, m)
    requires Sha256(bytes) == m.hash && Upto(d, plan, k + 1, day).Ok()
    requires Upto(d, plan, k, day).Ok() ==>
               Carried(Upto(d, plan, k, day).disk, m, bytes, SourceCounts(plan, m, k), TargetCounts(k))
    ensures Carried(Upto(d, plan, k + 1, day).disk, m, bytes, SourceCounts(plan, m, k + 1), TargetCounts(k + 1))
  {
    hide Upto, PullApply.Phase, PullPlan.WellFormed, PullApply.Exec, Steady;
    var e := Upto(d, plan, k + 1, day).disk;
    UptoStep(d, plan, k, day);
    assert Upto(d, plan, k, day).Ok() && Exec(Upto(d, plan, k, day).disk, Phase(plan, k), day).Visits(e);
    LoopCarries(o, d, plan, day, k, m, bytes, e);
    if k == 1 && Blocks(m, plan.blocking) {
      StageInPhase(plan, m);
      assert Done(Stage(m), e);
    } else if k == 4 {
      PlaceInPhase(plan, m);
      assert Done(PlaceOp(m, plan.blocking), e);
    }
  }

  lemma FirstCarries(d: Disk, plan: Plan, day: int, m: MoveItem, bytes: Bytes)
    requires Carried(d, m, bytes, true, false)
    ensures Carried(Upto(d, plan, 1, day).disk, m, bytes, SourceCounts(plan, m, 1), TargetCounts(1))
  {
    UptoStart(d, plan, day);
    hide Upto, Carried;
  }

  lemma OkBefore(d: Disk, plan: Plan, day: int, k: nat)
    requires 1 <= k && Upto(d, plan, k + 1, day).Ok()
    ensures Upto(d, plan, k, day).Ok()
  {
    UptoStep(d, plan, k, day);
    hide Upto, PullApply.Exec, PullApply.Phase;
  }

  lemma FineAt(o: Scope, d: Disk, plan: Plan, day: int, k: nat, m: MoveItem)
    requires Fine(o, d, plan, day, m) && 1 <= k <= 5
    ensures LoopFine(o, d, plan, day, k, m)
  {
    hide LoopFine;
  }

  lemma {:induction false} StartCarries(o: Scope, d: Disk, plan: Plan, day: int, k: nat, m: MoveItem, bytes: Bytes)
    requires WellFormed(plan) && m in plan.moves && 1 <= k <= 6 && Fine(o, d, plan, day, m)
    requires Sha256(bytes) == m.hash && Carried(d, m, bytes, true, false) && Upto(d, plan, k, day).Ok()
    ensures Carried(Upto(d, plan, k, day).disk, m, bytes, SourceCounts(plan, m, k), TargetCounts(k))
  {
    hide *;
    if k == 1 {
      FirstCarries(d, plan, day, m, bytes);
    } else {
      OkBefore(d, plan, day, k - 1);
      FineAt(o, d, plan, day, k - 1, m);
      StartCarries(o, d, plan, day, k - 1, m, bytes);
      NextLoop(o, d, plan, day, k - 1, m, bytes);
    }
  }

  lemma LastLoop(d: Disk, plan: Plan, day: int, n: nat, s: Disk)
    requires 1 <= n && Upto(d, plan, n + 1, day).Visits(s)
    ensures Upto(d, plan, n, day).Visits(s)
            || (Upto(d, plan, n, day).Ok() && Exec(Upto(d, plan, n, day).disk, Phase(plan, n), day).Visits(s))
  {
    UptoStep(d, plan, n, day);
    hide Upto, PullApply.Phase, PullApply.Exec;
  }

  lemma {:induction false} LoopOf(d: Disk, plan: Plan, day: int, n: nat, s: Disk) returns (k: nat)
    requires 1 <= n && Upto(d, plan, n, day).Visits(s) && s != d
    ensures 1 <= k < n && Upto(d, plan, k, day).Ok() && Exec(Upto(d, plan, k, day).disk, Phase(plan, k), day).Visits(s)
    decreases n
  {
    hide *;
    k := n - 1;
    if n == 1 {
      OnlyState(d, plan, day, s);
    } else {
      LastLoop(d, plan, day, n - 1, s);
      if Upto(d, plan, n - 1, day).Visits(s) { k := LoopOf(d, plan, day, n - 1, s); }
    }
  }

  lemma OnlyState(d: Disk, plan: Plan, day: int, s: Disk)
    requires Upto(d, plan, 1, day).Visits(s)
    ensures s == d
  {
    UptoStart(d, plan, day);
    hide Upto;
  }

  /** At every state of a run the bytes of a move are at one of its ends or staged. */
  lemma RunCarries(o: Scope, d: Disk, plan: Plan, day: int, m: MoveItem, bytes: Bytes, s: Disk)
    requires WellFormed(plan) && m in plan.moves && Fine(o, d, plan, day, m)
    requires Sha256(bytes) == m.hash && Carried(d, m, bytes, true, false) && Apply(d, plan, day).Visits(s)
    ensures Carried(s, m, bytes, true, true)
  {
    assert Apply(d, plan, day) == Upto(d, plan, 6, day);
    hide Upto, PullPlan.WellFormed, LoopFine, SourceCounts, TargetCounts, PullApply.Phase, PullApply.Exec;
    if s != d {
      var k := LoopOf(d, plan, day, 6, s);
      StartCarries(o, d, plan, day, k, m, bytes);
      LoopCarries(o, d, plan, day, k, m, bytes, s);
    }
  }

  lemma CleanFine(plan: Plan, d: Disk, day: int, o: Scope, m: MoveItem)
    requires WellFormed(plan) && Clean(plan, d)
    ensures Fine(o, d, plan, day, m)
  {
    hide Clean, PullPlan.WellFormed, Upto;
    CleanAll(plan, d, day);
    forall k | 1 <= k <= 5
      ensures LoopFine(o, d, plan, day, k, m)
    {
      StartsClean(plan, d, day, k);
      LoopRuns(plan, d, day, k);
      PhaseIndep(plan, k);
      PhaseShifts(plan, k);
    }
  }

  lemma SeparatedFine(plan: Plan, d: Disk, days: set<int>, day: int, m: MoveItem)
    requires WellFormed(plan) && Separated(plan, d, days) && day in days && m in plan.moves
    ensures Fine(Claims(plan, days), d, plan, day, m)
  {
    var o := Claims(plan, days);
    assert m.source in Sources(plan) && m.target in Targets(plan);
    hide PullPlan.WellFormed, Upto, Claims, PullApply.Phase, Sources, Targets, Done;
    forall k | 1 <= k <= 5 && Upto(d, plan, k, day).Ok()
      ensures LoopFine(o, d, plan, day, k, m)
    {
      PhaseFits(plan, days, day, k);
      PlanSafe(d, plan, days, day, k, Upto(d, plan, k, day).disk);
      if Upto(d, plan, k + 1, day).Ok() { PhaseDone(d, plan, day, k); }
    }
  }

  // What recovery makes of it.

  /** Main result: a pull over unedited files stopped at any atomic step loses no moved file when recovery gives up without
      replaying: its bytes are live at its old or its new path, or set aside. */
  lemma GivingUpKeepsMoves(d: Disk, plan: Plan, day: int, m: Machine, again: int, o: MoveItem)
    requires WellFormed(plan) && Clean(plan, d) && o in plan.moves && Apply(d, plan, day).Visits(m.disk)
    requires Resume(m, again).fullPull && !HasPlan(m)
    ensures var (bytes, f) := (d.live[o.source], Resume(m, again).machine);
            At(f.disk.live, o.source) == Some(bytes) || At(f.disk.live, o.target) == Some(bytes) || (o.fileId, bytes) in f.orphans
  {
    var bytes := d.live[o.source];
    var scope := Scope({}, {}, {});
    assert Sha256(bytes) == o.hash;
    CleanFine(plan, d, day, scope, o);
    RunCarries(scope, d, plan, day, o, bytes, m.disk);
    OrphansGrow(m, again);
    hide PullApply.Apply, MatchesDocument, Reconcile, MarkStale, PullPlan.WellFormed, Clean;
    assert Resume(m, again).machine.disk.live == m.disk.live;
  }

  /** Where the target of a move is vacated, the plan expects other content there. */
  ghost predicate TargetDiffers(plan: Plan, o: MoveItem) {
    forall i :: i in plan.deletes && i.path == o.target ==> i.expected.Some? && i.expected != Some(o.hash)
  }

  /** The bytes are in some file or staged under some id. */
  predicate Somewhere(s: Disk, bytes: Bytes) {
    bytes in s.live.Values || bytes in s.staging.Values
  }

  lemma OffTarget(plan: Plan, k: nat, op: Op, o: MoveItem)
    requires WellFormed(plan) && o in plan.moves && o.target !in Sources(plan) && op in Phase(plan, k)
    ensures Suits(op, o, false, true)
  {
    hide *;
    PhaseKind(plan, k, op);
    match op
    case Stage(x) => OffMove(plan, o, x);
    case Remove(i) => OffRemove(plan, o, i);
    case Put(w) => OffPut(plan, o, w);
    case Land(x) => OffMove(plan, o, x);
    case Shift(x) => OffMove(plan, o, x);
  }

  lemma OffMove(plan: Plan, o: MoveItem, x: MoveItem)
    requires WellFormed(plan) && o in plan.moves && x in plan.moves && o.target !in Sources(plan)
    ensures Suits(Stage(x), o, false, true) && Suits(Land(x), o, false, true) && Suits(Shift(x), o, false, true)
  {
    if x != o { MovesDiffer(plan, x, o); }
    assert x.source in Sources(plan);
    hide PullPlan.WellFormed, Sources;
  }

  lemma OffRemove(plan: Plan, o: MoveItem, i: DeleteItem)
    requires WellFormed(plan) && o in plan.moves && i in plan.deletes && o.target !in Sources(plan)
    ensures Suits(Remove(i), o, false, true)
  {
    assert i.path in Sources(plan);
    hide PullPlan.WellFormed, Sources;
  }

  lemma OffPut(plan: Plan, o: MoveItem, w: WriteItem)
    requires WellFormed(plan) && o in plan.moves && w in plan.writes
    ensures Suits(Put(w), o, false, true)
  {
    WriteMove(plan, w, o);
    hide PullPlan.WellFormed;
  }

  /** A file at the target of its move that nothing in the plan vacates stays there. */
  lemma LandedStays(plan: Plan, s: Disk, again: int, o: MoveItem, bytes: Bytes)
    requires WellFormed(plan) && Separated(plan, s, {again}) && o in plan.moves && o.target !in Sources(plan)
    requires Sha256(bytes) == o.hash && At(s.live, o.target) == Some(bytes)
    ensures Carried(Apply(s, plan, again).disk, o, bytes, false, true)
  {
    var scope := Claims(plan, {again});
    BeforeFits(plan, {again}, again, 6);
    assert o.source in Sources(plan) && o.target in Targets(plan) && o.source != o.target;
    hide PullApply.Before, PullApply.Phase, PullPlan.WellFormed, PullApply.Exec, Suits, Targets, Sources;
    forall op | op in Before(plan, 6)
      ensures Suits(op, o, false, true)
    {
      var k := PhaseOf(plan, 6, op);
      OffTarget(plan, k, op, o);
    }
    ExecCarries(scope, s, Before(plan, 6), again, o, bytes, false, true, Apply(s, plan, again).disk);
  }

  lemma CarriedSomewhere(s: Disk, o: MoveItem, bytes: Bytes, src: bool, tgt: bool)
    requires Carried(s, o, bytes, src, tgt)
    ensures Somewhere(s, bytes)
  {
    assert At(s.live, o.source) == Some(bytes) ==> s.live[o.source] in s.live.Values;
    assert At(s.live, o.target) == Some(bytes) ==> s.live[o.target] in s.live.Values;
    assert At(s.staging, o.fileId) == Some(bytes) ==> s.staging[o.fileId] in s.staging.Values;
  }

  lemma SurvivesSomewhere(s: Disk, t: Tracked, bytes: Bytes)
    requires Survives(s, t, bytes)
    ensures Somewhere(s, bytes)
  {
    if At(s.live, t.path) == Some(bytes) {
      assert s.live[t.path] in s.live.Values;
    } else {
      var r :| r in s.doc && IsCopy(r, t.id, Sha256(bytes)) && At(s.live, r.path) == Some(bytes);
      assert s.live[r.path] in s.live.Values;
    }
  }

  /** Replaying from where a move is at its source or staged, its bytes do not get lost. */
  lemma ReplayCarries(plan: Plan, s: Disk, again: int, o: MoveItem, bytes: Bytes)
    requires WellFormed(plan) && Separated(plan, s, {again}) && o in plan.moves
    requires Sha256(bytes) == o.hash && Carried(s, o, bytes, true, false)
    ensures Somewhere(Apply(s, plan, again).disk, bytes)
  {
    var e := Apply(s, plan, again).disk;
    hide PullApply.Apply, PullPlan.WellFormed, Separated, Carried, Somewhere;
    SeparatedFine(plan, s, {again}, again, o);
    RunCarries(Claims(plan, {again}), s, plan, again, o, bytes, e);
    CarriedSomewhere(e, o, bytes, true, true);
  }

  /** Replaying over a file at the target of its move, its bytes do not get lost. */
  lemma ReplayKeepsLanded(plan: Plan, s: Disk, again: int, o: MoveItem, bytes: Bytes)
    requires WellFormed(plan) && Separated(plan, s, {again}) && UniqueCopies(s.doc) && o in plan.moves && TargetDiffers(plan, o)
    requires Sha256(bytes) == o.hash && At(s.live, o.target) == Some(bytes)
    ensures Somewhere(Apply(s, plan, again).disk, bytes)
  {
    var e := Apply(s, plan, again).disk;
    hide PullApply.Apply, PullPlan.WellFormed, Separated, UniqueCopies, Somewhere;
    if x :| x in plan.moves && x.source == o.target {
      if x.hash == o.hash {
        ReplayCarries(plan, s, again, x, bytes);
      } else {
        EndBlocks(plan, o, x.source);
        assert Tracks(plan, Stage(x));
        SurvivesRun(s, plan, {again}, again, e, Stage(x), bytes);
        SurvivesSomewhere(e, Guard(Stage(x)), bytes);
      }
    } else if i :| i in plan.deletes && i.path == o.target {
      assert Tracks(plan, Remove(i));
      SurvivesRun(s, plan, {again}, again, e, Remove(i), bytes);
      SurvivesSomewhere(e, Guard(Remove(i)), bytes);
    } else {
      LandedStays(plan, s, again, o, bytes);
      CarriedSomewhere(e, o, bytes, false, true);
    }
  }

  lemma CrashSeparated(d: Disk, plan: Plan, day: int, again: int, s: Disk)
    requires Separated(plan, d, {day, again}) && UniqueCopies(d.doc) && Apply(d, plan, day).Visits(s)
    ensures Separated(plan, s, {again}) && UniqueCopies(s.doc)
  {
    hide PullApply.Apply;
    RunKeeps(d, plan, {day, again}, day, s);
  }

  /** In a session, recovery leaves what the replay leaves, in place or set aside. */
  lemma ReplayLeaves(m: Machine, plan: Plan, again: int)
    requires InSession(m, plan)
    ensures var (r, e) := (Resume(m, again), Apply(m.disk, plan, again));
            && (r.mode == Replayed ==> e.Ok())
            && (r.mode == Replayed || r.fullPull ==> r.machine.disk.live == e.disk.live)
            && (r.fullPull ==> forall id, bytes :: At(e.disk.staging, id) == Some(bytes) ==> (id, bytes) in r.machine.orphans)
  {
    hide PullApply.Apply, MatchesDocument, Reconcile, MarkStale;
  }

  lemma SomewhereKept(m: Machine, plan: Plan, again: int, bytes: Bytes)
    requires InSession(m, plan) && Resume(m, again).fullPull && Somewhere(Apply(m.disk, plan, again).disk, bytes)
    ensures var f := Resume(m, again).machine;
            bytes in f.disk.live.Values || exists id :: (id, bytes) in f.orphans
  {
    var e := Apply(m.disk, plan, again).disk;
    ReplayLeaves(m, plan, again);
    hide PullApply.Apply, Resume, InSession;
    if bytes !in e.live.Values {
      var id :| id in e.staging && e.staging[id] == bytes;
      assert At(e.staging, id) == Some(bytes);
    }
  }

  /** Main result: the same when recovery first replays the plan, whether that succeeds or not: a replayed move is at its
      target, and if recovery gives up the bytes are in some file or set aside. A replay may take a file it has placed for an
      edit of the one that was there before, which it saves as a copy; it deletes it if the plan expects the same content. */
  lemma ReplayKeepsMoves(d: Disk, plan: Plan, day: int, m: Machine, again: int, o: MoveItem)
    requires WellFormed(plan) && Clean(plan, d) && Separated(plan, d, {day, again}) && UniqueCopies(d.doc)
    requires o in plan.moves && TargetDiffers(plan, o) && Apply(d, plan, day).Visits(m.disk) && InSession(m, plan)
    ensures var (bytes, r) := (d.live[o.source], Resume(m, again));
            && (r.mode == Replayed ==> At(r.machine.disk.live, o.target) == Some(bytes))
            && (r.fullPull ==> bytes in r.machine.disk.live.Values || exists id :: (id, bytes) in r.machine.orphans)
  {
    var bytes := d.live[o.source];
    var scope := Scope({}, {}, {});
    var s := m.disk;
    assert Sha256(bytes) == o.hash;
    CleanFine(plan, d, day, scope, o);
    CrashSeparated(d, plan, day, again, s);
    hide PullApply.Apply, PullPlan.WellFormed, Clean, Separated, UniqueCopies, Resume, InSession, TargetDiffers, Somewhere;
    RunCarries(scope, d, plan, day, o, bytes, s);
    ReplayLeaves(m, plan, again);
    if Resume(m, again).mode == Replayed { SuccessMeansApplied(s, plan, again); }
    if At(s.live, o.target) == Some(bytes) {
      ReplayKeepsLanded(plan, s, again, o, bytes);
    } else {
      ReplayCarries(plan, s, again, o, bytes);
    }
    if Resume(m, again).fullPull { SomewhereKept(m, plan, again, bytes); }
  }
}
