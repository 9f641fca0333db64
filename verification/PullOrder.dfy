/** The order of a run: every checked file is checked before anything touches it, and nothing placed is touched again. */
module PullOrder {
  import opened Basics
  import opened PullPlan
  import opened PullApply
  import opened PullFrames
  import opened PullSuccess

  /** The paths an iteration puts planned content at. */
  function Places(op: Op): set<Path> {
    match op
    case Stage(m) => {}
    case Remove(item) => {}
    case Put(w) => {w.target}
    case Land(m) => {m.target}
    case Shift(m) => {m.target}
  }

  /** `a` leaves alone what `b` checks, and `b` what `a` placed. */
  ghost predicate Spares(a: Op, b: Op) {
    && Places(a) !! Touch(b)
    && (Guard(b).expected.Some? ==>
          && Guard(b).path !in Touch(a)
          && (b.Put? ==> b.w.fileId !in Ids(a))
          && (Guard(a).expected.Some? ==> Guard(a).id != Guard(b).id))
  }

  ghost predicate Ordered(ops: seq<Op>) {
    ops == [] || (Ordered(ops[1..]) && forall b :: b in ops[1..] ==> Spares(ops[0], b))
  }

  lemma {:induction false} OrderedAppend(a: seq<Op>, b: seq<Op>)
    requires Ordered(a) && Ordered(b) && forall x, y :: x in a && y in b ==> Spares(x, y)
    ensures Ordered(a + b)
  {
    hide Spares;
    if a == [] {
      assert a + b == b;
    } else {
      assert (a + b)[0] == a[0] && (a + b)[1..] == a[1..] + b;
      OrderedAppend(a[1..], b);
    }
  }

  lemma DeletesDiffer(plan: Plan, a: DeleteItem, b: DeleteItem)
    requires WellFormed(plan) && a in plan.deletes && b in plan.deletes && a.path != b.path
    ensures a.fileId != b.fileId
  {
  }

  lemma MovesDiffer(plan: Plan, a: MoveItem, b: MoveItem)
    requires WellFormed(plan) && a in plan.moves && b in plan.moves && a != b
    ensures a.source != b.source && a.target != b.target && a.fileId != b.fileId
  {
  }

  lemma TargetBlocks(plan: Plan, p: Path)
    requires WellFormed(plan) && p in Targets(plan) && p in Sources(plan)
    ensures p in plan.blocking
  {
  }

  /** What stands in each loop. */
  lemma PhaseKind(plan: Plan, k: nat, op: Op)
    requires op in Phase(plan, k)
    ensures match op
            case Stage(m) => k == 1 && m in plan.moves && Blocks(m, plan.blocking)
            case Remove(i) => (k == 2 || k == 5) && i in plan.deletes && (k == 2 <==> i.path in plan.blocking)
            case Put(w) => k == 3 && w in plan.writes
            case Land(m) => k == 4 && m in plan.moves && Blocks(m, plan.blocking)
            case Shift(m) => k == 4 && m in plan.moves && !Blocks(m, plan.blocking)
  {
  }

  lemma SparesWithin(plan: Plan, k: nat, a: Op, b: Op)
    requires WellFormed(plan) && a in Phase(plan, k) && b in Phase(plan, k) && Apart(a, b)
    ensures Spares(a, b)
  {
    PhaseKind(plan, k, a);
    PhaseKind(plan, k, b);
    hide PullApply.Phase, PullPlan.WellFormed;
    assert Guard(b).path in Touch(b);
    if a.Remove? { DeletesDiffer(plan, a.item, b.item); }
  }

  lemma MoveDelete(plan: Plan, m: MoveItem, i: DeleteItem)
    requires WellFormed(plan) && m in plan.moves && i in plan.deletes
    ensures m.source != i.path && m.fileId != i.fileId
  {
  }

  lemma WriteMove(plan: Plan, w: WriteItem, m: MoveItem)
    requires WellFormed(plan) && w in plan.writes && m in plan.moves
    ensures w.fileId != m.fileId && w.target != m.target
    ensures InPlace(w) ==> w.target != m.source
  {
    assert InPlace(w) ==> w.target !in Sources(plan);
  }

  lemma WriteDelete(plan: Plan, w: WriteItem, i: DeleteItem)
    requires WellFormed(plan) && w in plan.writes && i in plan.deletes && InPlace(w)
    ensures w.fileId != i.fileId && w.target != i.path
  {
    assert w.target !in Sources(plan);
  }

  lemma StageSpares(m: MoveItem, b: Op)
    requires b.Land? || (b.Shift? && b.m.source != m.source && b.m.fileId != m.fileId)
             || (b.Remove? && b.item.path != m.source && b.item.fileId != m.fileId)
             || (b.Put? && b.w.fileId != m.fileId && (InPlace(b.w) ==> b.w.target != m.source))
    ensures Spares(Stage(m), b)
  {
  }

  lemma RemoveSpares(i: DeleteItem, b: Op)
    requires b.Land? || (b.Shift? && b.m.source != i.path && b.m.fileId != i.fileId)
             || (b.Remove? && b.item.path != i.path && b.item.fileId != i.fileId)
             || (b.Put? && (InPlace(b.w) ==> b.w.target != i.path && b.w.fileId != i.fileId))
    ensures Spares(Remove(i), b)
  {
  }

  lemma PutSpares(w: WriteItem, b: Op)
    requires (b.Land? && b.m.target != w.target)
             || (b.Shift? && b.m.source != w.target && b.m.target != w.target && b.m.fileId != w.fileId)
             || (b.Remove? && b.item.path != w.target && (InPlace(w) ==> b.item.fileId != w.fileId))
    ensures Spares(Put(w), b)
  {
  }

  lemma SparesStage(plan: Plan, m: MoveItem, k: nat, b: Op)
    requires WellFormed(plan) && m in plan.moves && Blocks(m, plan.blocking) && k > 1 && b in Phase(plan, k)
    ensures Spares(Stage(m), b)
  {
    PhaseKind(plan, k, b);
    hide PullApply.Phase, PullPlan.WellFormed, Spares, InPlace;
    match b
    case Shift(o) => MovesDiffer(plan, m, o); StageSpares(m, b);
    case Remove(i) => MoveDelete(plan, m, i); StageSpares(m, b);
    case Put(w) => WriteMove(plan, w, m); StageSpares(m, b);
    case Land(o) => StageSpares(m, b);
  }

  lemma SparesRemove(plan: Plan, i: DeleteItem, k: nat, b: Op)
    requires WellFormed(plan) && i in plan.deletes && i.path in plan.blocking && k > 2 && b in Phase(plan, k)
    ensures Spares(Remove(i), b)
  {
    PhaseKind(plan, k, b);
    hide PullApply.Phase, PullPlan.WellFormed, Spares, InPlace;
    match b
    case Shift(m) => MoveDelete(plan, m, i); RemoveSpares(i, b);
    case Remove(o) => DeletesDiffer(plan, i, o); RemoveSpares(i, b);
    case Put(w) => if InPlace(w) { WriteDelete(plan, w, i); } RemoveSpares(i, b);
    case Land(m) => RemoveSpares(i, b);
  }

  lemma SparesPut(plan: Plan, w: WriteItem, k: nat, b: Op)
    requires WellFormed(plan) && w in plan.writes && k > 3 && b in Phase(plan, k)
    ensures Spares(Put(w), b)
  {
    PhaseKind(plan, k, b);
    assert w.target in Targets(plan);
    PlacedOnce(plan, w.target, b);
    hide PullApply.Phase, PullPlan.WellFormed, Spares, InPlace;
    match b
    case Remove(i) => if InPlace(w) { WriteDelete(plan, w, i); } PutSpares(w, b);
    case Land(m) => WriteMove(plan, w, m); PutSpares(w, b);
    case Shift(m) => WriteMove(plan, w, m); PutSpares(w, b);
  }

  lemma SparesPlace(plan: Plan, m: MoveItem, b: Op)
    requires WellFormed(plan) && m in plan.moves && b in Phase(plan, 5)
    ensures Spares(PlaceOp(m, plan.blocking), b)
  {
    PhaseKind(plan, 5, b);
    hide PullApply.Phase, PullPlan.WellFormed;
    assert m.target in Targets(plan);
    PlacedOnce(plan, m.target, b);
    MoveDelete(plan, m, b.item);
  }

  lemma SparesAcross(plan: Plan, j: nat, k: nat, a: Op, b: Op)
    requires WellFormed(plan) && j < k && a in Phase(plan, j) && b in Phase(plan, k)
    ensures Spares(a, b)
  {
    PhaseKind(plan, j, a);
    PhaseKind(plan, k, b);
    hide PullApply.Phase, PullPlan.WellFormed, Spares;
    match a
    case Stage(m) => SparesStage(plan, m, k, b);
    case Remove(i) => SparesRemove(plan, i, k, b);
    case Put(w) => SparesPut(plan, w, k, b);
    case Land(m) => SparesPlace(plan, m, b);
    case Shift(m) => SparesPlace(plan, m, b);
  }

  lemma PlacedOnce(plan: Plan, p: Path, b: Op)
    requires WellFormed(plan) && p in Targets(plan)
    requires match b
             case Remove(i) => i in plan.deletes && i.path !in plan.blocking
             case Shift(m) => m in plan.moves && !Blocks(m, plan.blocking)
             case _ => true
    ensures b.Remove? ==> b.item.path != p
    ensures b.Shift? ==> b.m.source != p
  {
    if p in Sources(plan) { TargetBlocks(plan, p); }
  }

  lemma {:induction false} IndepOrdered(plan: Plan, k: nat, ops: seq<Op>)
    requires WellFormed(plan) && Indep(ops) && forall op :: op in ops ==> op in Phase(plan, k)
    ensures Ordered(ops)
  {
    hide PullPlan.WellFormed, PullApply.Phase, Apart, Spares;
    if ops != [] {
      IndepOrdered(plan, k, ops[1..]);
      forall b | b in ops[1..] { SparesWithin(plan, k, ops[0], b); }
    }
  }

  ghost predicate FromLoops(plan: Plan, k: nat, op: Op) {
    exists j :: 1 <= j < k && op in Phase(plan, j)
  }

  lemma {:induction false} BeforeFrom(plan: Plan, k: nat)
    ensures forall op :: op in Before(plan, k) ==> FromLoops(plan, k, op)
  {
    hide PullApply.Phase;
    if k > 1 {
      BeforeFrom(plan, k - 1);
      forall op | op in Before(plan, k)
        ensures FromLoops(plan, k, op)
      {
        if op in Before(plan, k - 1) {
          var j :| 1 <= j < k - 1 && op in Phase(plan, j);
        }
      }
    }
  }

  lemma {:induction false} RunOrdered(plan: Plan, k: nat)
    requires WellFormed(plan)
    ensures Ordered(Before(plan, k))
  {
    hide PullPlan.WellFormed, PullApply.Phase, Spares, Ordered;
    if k <= 1 {
      OrderedNone();
    } else {
      RunOrdered(plan, k - 1);
      PhaseIndep(plan, k - 1);
      IndepOrdered(plan, k - 1, Phase(plan, k - 1));
      BeforeFrom(plan, k - 1);
      forall a, b | a in Before(plan, k - 1) && b in Phase(plan, k - 1)
        ensures Spares(a, b)
      {
        var j :| 1 <= j < k - 1 && a in Phase(plan, j);
        SparesAcross(plan, j, k - 1, a, b);
      }
      OrderedAppend(Before(plan, k - 1), Phase(plan, k - 1));
    }
  }

  lemma OrderedNone()
    ensures Ordered([])
  {
  }

  /** The plan's tracked files: what it deletes, moves away or overwrites in place. */
  ghost predicate Tracks(plan: Plan, op: Op) {
    || (op.Remove? && op.item in plan.deletes)
    || (op.Put? && op.w in plan.writes && InPlace(op.w))
    || (op.Stage? && op.m in plan.moves && Blocks(op.m, plan.blocking))
    || (op.Shift? && op.m in plan.moves && !Blocks(op.m, plan.blocking))
  }

  lemma {:induction false} PhaseInBefore(plan: Plan, j: nat, k: nat, op: Op)
    requires 1 <= j < k && op in Phase(plan, j)
    ensures op in Before(plan, k)
  {
    hide PullApply.Phase;
    if j < k - 1 { PhaseInBefore(plan, j, k - 1, op); }
  }

  /** Every iteration of the first loops stands in one of them. */
  lemma {:induction false} PhaseOf(plan: Plan, n: nat, op: Op) returns (k: nat)
    requires op in Before(plan, n)
    ensures 1 <= k < n && op in Phase(plan, k)
    decreases n
  {
    hide PullApply.Phase;
    if op in Phase(plan, n - 1) { k := n - 1; } else { k := PhaseOf(plan, n - 1, op); }
  }

  lemma TrackedInRun(plan: Plan, op: Op)
    requires Tracks(plan, op)
    ensures op in Before(plan, 6)
  {
    match op
    case Stage(m) => PhaseInBefore(plan, 1, 6, op);
    case Remove(i) =>
      assert op in RemoveOps(plan.deletes, plan.blocking, i.path in plan.blocking);
      PhaseInBefore(plan, if i.path in plan.blocking then 2 else 5, 6, op);
    case Put(w) => PhaseInBefore(plan, 3, 6, op);
    case Shift(m) =>
      PlaceInPhase(plan, m);
      PhaseInBefore(plan, 4, 6, op);
  }
}
