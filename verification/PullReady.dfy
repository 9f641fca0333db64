/** When one iteration and one loop succeed, and the disks from which every replay can save what it needs to. */
module PullReady {
  import opened Basics
  import opened PullPlan
  import opened PullApply
  import opened PullFrames
  import opened PullSuccess
  import opened PullOrder
  import opened PullKept
  import opened PullSaves

  /** When one iteration succeeds, given that its save does. */
  predicate Can(op: Op, d: Disk) {
    match op
    case Stage(m) =>
      || Holds(d.live, m.source, m.hash)
      || (m.source in d.live && (Holds(d.live, m.target, m.hash) || Holds(d.staging, m.fileId, m.hash)))
      || (m.source !in d.live && (m.fileId in d.staging || Holds(d.live, m.target, m.hash)))
    case Remove(i) => true
    case Put(w) => Holds(d.staging, w.fileId, w.hash) || (w.fileId !in d.staging && Holds(d.live, w.target, w.hash))
    case Land(m) => Holds(d.staging, m.fileId, m.hash) || (m.fileId !in d.staging && Holds(d.live, m.target, m.hash))
    case Shift(m) =>
      || Holds(d.live, m.source, m.hash) || Holds(d.live, m.target, m.hash)
      || (m.source in d.live && Holds(d.staging, m.fileId, m.hash))
  }

  /** Nothing stands in the way of the save the iteration starts with. */
  predicate SaveReady(d: Disk, op: Op, day: int) {
    Needs(d, op) ==> CanSave(d, [], op, day)
  }

  lemma StepOkIff(o: Scope, d: Disk, op: Op, day: int)
    requires o.Has(Guard(op), day) && AllSafe(o, d, Touch(op)) && (op.Stage? ==> Safe(o, d, op.m.target))
    ensures Step(d, op, day).Ok() <==> Can(op, d) && SaveReady(d, op, day)
  {
    var g := Guard(op);
    var p := Save(d, op, day);
    PreserveFrame(o, d, g, day, p.disk);
    if !Dirty(d, g.path, g.expected) { assert p == Stay(d); }
    if Needs(d, op) { SaveOkIff(d, op, day); }
    hide PullApply.PreserveCopy, CanSave;
    if op.Stage? || op.Shift? {
      assert At(p.disk.live, op.m.target) == At(d.live, op.m.target);
    }
  }

  lemma {:induction false} ExecCan(o: Scope, d: Disk, ops: seq<Op>, day: int)
    requires Indep(ops) && AllFit(o, ops, day) && AllSafe(o, d, TouchAll(ops)) && Exec(d, ops, day).Ok()
    requires forall op :: op in ops ==> !op.Stage?
    ensures forall op :: op in ops ==> Can(op, d)
    decreases |ops|
  {
    if ops != [] {
      var r := Step(d, ops[0], day);
      TouchCons(ops);
      hide PullApply.Step, SaveReady, TouchAll, Can;
      StepOkIff(o, d, ops[0], day);
      StepFrame(o, d, ops[0], day, r.disk);
      ExecCan(o, r.disk, ops[1..], day);
      forall op | op in ops[1..]
        ensures Can(op, d)
      {
        CanFrame(o, d, r.disk, ops, op);
      }
    }
  }

  /** Whether an iteration can succeed is not changed by the one before it. */
  lemma CanFrame(o: Scope, d: Disk, e: Disk, ops: seq<Op>, op: Op)
    requires ops != [] && op in ops[1..] && Indep(ops) && AllSafe(o, d, TouchAll(ops))
    requires !op.Stage? && Frame(o, d, e, Touch(ops[0]), Ids(ops[0]))
    ensures Can(op, d) == Can(op, e)
  {
    assert Apart(ops[0], op);
    forall p | p in Touch(op)
      ensures At(e.live, p) == At(d.live, p)
    {
      assert p in TouchAll(ops) && p !in Touch(ops[0]);
    }
    assert forall id :: id in Ids(op) ==> At(e.staging, id) == At(d.staging, id);
  }

  /** A loop gets through when each of its iterations has its content and can save what it finds. */
  lemma {:induction false} CanExec(o: Scope, d: Disk, ops: seq<Op>, day: int)
    requires Indep(ops) && Ordered(ops) && AllFit(o, ops, day) && AllSafe(o, d, TouchAll(ops))
    requires forall op :: op in ops ==> !op.Stage? && Can(op, d)
    requires Registers(d, ops, day)
    ensures Exec(d, ops, day).Ok()
    decreases |ops|
  {
    if ops != [] {
      var e := Step(d, ops[0], day).disk;
      FirstReady(d, ops, day);
      TailFacts(o, d, ops, day);
      hide PullApply.Step, TouchAll, Can, Registers, SaveReady, AllFit, AllSafe, Ordered, Indep;
      FirstCan(o, d, ops, day);
      StepStepped(o, d, ops, day);
      RegistersTail(o, d, ops, day, e);
      StepFrame(o, d, ops[0], day, e);
      forall op | op in ops[1..]
        ensures Can(op, e)
      {
        CanFrame(o, d, e, ops, op);
      }
      IndepTail(ops);
      CanExec(o, e, ops[1..], day);
    }
  }

  lemma FirstReady(d: Disk, ops: seq<Op>, day: int)
    requires ops != [] && Registers(d, ops, day)
    ensures SaveReady(d, ops[0], day)
  {
    assert ops[..0] == [];
  }

  lemma FirstCan(o: Scope, d: Disk, ops: seq<Op>, day: int)
    requires ops != [] && o.Has(Guard(ops[0]), day) && AllSafe(o, d, Touch(ops[0])) && !ops[0].Stage?
    requires Can(ops[0], d) && SaveReady(d, ops[0], day)
    ensures Step(d, ops[0], day).Ok()
  {
    hide PullApply.Step, Can, SaveReady;
    StepOkIff(o, d, ops[0], day);
  }

  lemma IndepTail(ops: seq<Op>)
    requires ops != [] && Indep(ops)
    ensures Indep(ops[1..])
  {
  }

  /** A run without error could save whatever it had to. */
  lemma {:induction false} ExecRegisters(o: Scope, d: Disk, ops: seq<Op>, day: int)
    requires Ordered(ops) && AllFit(o, ops, day) && AllSafe(o, d, TouchAll(ops)) && OldIds(d, ops)
    requires Exec(d, ops, day).Ok()
    ensures Registers(d, ops, day)
    decreases |ops|
  {
    if ops != [] {
      var e := Step(d, ops[0], day).disk;
      StepSaved(d, ops[0], day);
      StepDraws(d, ops[0], day);
      hide PullApply.Step, TouchAll, Registers, SaveReady, AllFit, AllSafe, Ordered;
      StepStepped(o, d, ops, day);
      ExecRegisters(o, e, ops[1..], day);
      RegistersTail(o, d, ops, day, e);
    }
  }

  lemma StepSaved(d: Disk, op: Op, day: int)
    requires Step(d, op, day).Ok()
    ensures Needs(d, op) ==> CanSave(d, [], op, day)
  {
    if Needs(d, op) { SaveOkIff(d, op, day); }
    hide PullApply.PreserveCopy, CanSave;
  }

  // The disks from which the plan can be replayed on any of the given days.

  /** Registered names that a new copy could take exist on disk. */
  ghost predicate NamesLive(o: Scope, d: Disk) {
    forall r :: r in d.doc && r.status != Deleted && o.Covers(r.path) ==> r.path in d.live
  }

  /** An edit without a registered copy. */
  predicate Unsaved(d: Disk, t: Tracked) {
    Dirty(d, t.path, t.expected) && FindCopy(d.doc, t.id, Sha256(d.live[t.path])).None?
  }

  /** Every edit can be registered, now and when a replay finds planned content in place of what it checks. */
  ghost predicate Registrable(plan: Plan, d: Disk, days: set<int>) {
    && NamesLive(Claims(plan, days), d)
    && forall t :: t in Checked(plan) && (t.path in Targets(plan) || Unsaved(d, t)) ==> Knows(d.doc, t.id)
  }

  ghost predicate Good(plan: Plan, d: Disk, days: set<int>) {
    Separated(plan, d, days) && Registrable(plan, d, days)
  }

  lemma PreserveNames(o: Scope, d: Disk, t: Tracked, day: int, s: Disk)
    requires NamesLive(o, d) && PreserveCopy(d, t.id, t.path, t.expected, day).Visits(s)
    ensures NamesLive(o, s) && d.doc <= s.doc
  {
    if Dirty(d, t.path, t.expected) {
      hide PullApply.PreserveCopy;
      match FindCopy(d.doc, t.id, Sha256(d.live[t.path]))
      case Some(r) => KnownCopyShape(d, t.id, t.path, t.expected, day, s, r);
      case None => NewCopyShape(d, t.id, t.path, t.expected, day, s, NextFree(d.live.Keys, t.path, day, 1));
    }
  }

  lemma StepNames(o: Scope, d: Disk, op: Op, day: int, s: Disk)
    requires NamesLive(o, d) && AllSafe(o, d, Touch(op)) && Step(d, op, day).Visits(s)
    ensures NamesLive(o, s) && d.doc <= s.doc
  {
    StepShape(d, op, day, s);
    var p := Save(d, op, day);
    hide PullApply.PreserveCopy, PullApply.Step;
    PreserveNames(o, d, Guard(op), day, p.disk);
    if p.Visits(s) {
      PreserveNames(o, d, Guard(op), day, s);
    } else if s != d {
      forall r | r in s.doc && r.status != Deleted && o.Covers(r.path)
        ensures r.path in s.live
      {
        assert r.path !in Touch(op);
        assert At(s.live, r.path) == At(p.disk.live, r.path);
      }
    }
  }

  /** Where an iteration places nothing, a safe file keeps its content or goes. */
  ghost predicate Thins(o: Scope, d: Disk, s: Disk, op: Op) {
    forall p :: Safe(o, d, p) && p !in Places(op) ==> p !in s.live || At(s.live, p) == At(d.live, p)
  }

  /** A path is left as the save of the iteration did, or emptied. */
  ghost predicate EmptiesOnly(d: Disk, op: Op, day: int, s: Disk, p: Path) {
    s == d || Save(d, op, day).Visits(s) || p !in s.live || At(s.live, p) == At(Save(d, op, day).disk.live, p)
  }

  lemma StageEmpties(d: Disk, m: MoveItem, day: int, s: Disk, p: Path)
    requires Step(d, Stage(m), day).Visits(s) && p in Touch(Stage(m)) && p !in Places(Stage(m))
    ensures EmptiesOnly(d, Stage(m), day, s, p)
  {
    hide PullApply.PreserveCopy, Dirty;
    if !Dirty(d, Guard(Stage(m)).path, Guard(Stage(m)).expected) { CleanSave(d, Stage(m), day); }
  }

  lemma RemoveEmpties(d: Disk, i: DeleteItem, day: int, s: Disk, p: Path)
    requires Step(d, Remove(i), day).Visits(s) && p in Touch(Remove(i)) && p !in Places(Remove(i))
    ensures EmptiesOnly(d, Remove(i), day, s, p)
  {
    hide PullApply.PreserveCopy, Dirty;
    if !Dirty(d, Guard(Remove(i)).path, Guard(Remove(i)).expected) { CleanSave(d, Remove(i), day); }
  }

  lemma ShiftEmpties(d: Disk, m: MoveItem, day: int, s: Disk, p: Path)
    requires Step(d, Shift(m), day).Visits(s) && p in Touch(Shift(m)) && p !in Places(Shift(m))
    ensures EmptiesOnly(d, Shift(m), day, s, p)
  {
    hide PullApply.PreserveCopy, Dirty;
    if !Dirty(d, Guard(Shift(m)).path, Guard(Shift(m)).expected) { CleanSave(d, Shift(m), day); }
  }

  /** So it is with every path an iteration touches and places nothing at. */
  lemma EmptiedAfter(d: Disk, op: Op, day: int, s: Disk, p: Path)
    requires Step(d, op, day).Visits(s) && p in Touch(op) && p !in Places(op)
    ensures EmptiesOnly(d, op, day, s, p)
  {
    hide PullApply.Step, EmptiesOnly;
    match op
    case Stage(m) => StageEmpties(d, m, day, s, p);
    case Remove(i) => RemoveEmpties(d, i, day, s, p);
    case Put(_) =>
    case Land(_) =>
    case Shift(m) => ShiftEmpties(d, m, day, s, p);
  }

  lemma StepThins(o: Scope, d: Disk, op: Op, day: int, s: Disk)
    requires o.Has(Guard(op), day) && Step(d, op, day).Visits(s)
    ensures Thins(o, d, s, op)
  {
    StepFrame(o, d, op, day, s);
    PreserveFrame(o, d, Guard(op), day, Save(d, op, day).disk);
    if Save(d, op, day).Visits(s) { PreserveFrame(o, d, Guard(op), day, s); }
    hide PullApply.Step, PullFrames.Safe, Save, Places, Touch;
    forall p | Safe(o, d, p) && p !in Places(op)
      ensures p !in s.live || At(s.live, p) == At(d.live, p)
    {
      if p in Touch(op) { EmptiedAfter(d, op, day, s, p); }
    }
  }

  lemma FindGrows(a: seq<Record>, b: seq<Record>, id: FileId, h: Hash)
    requires a <= b && FindCopy(b, id, h).None?
    ensures FindCopy(a, id, h).None?
  {
    assert forall x :: x in a ==> x in b;
  }

  lemma KnowsGrows(a: seq<Record>, b: seq<Record>, id: FileId)
    requires a <= b && Knows(a, id)
    ensures Knows(b, id)
  {
    var k :| 0 <= k < |a| && a[k].fileId == id;
    assert b[k] in b;
  }

  lemma CheckedIn(plan: Plan)
    ensures forall t :: t in Checked(plan) ==> t.path in Targets(plan) + Sources(plan) && t.expected.Some?
  {
  }

  lemma StepGood(plan: Plan, d: Disk, days: set<int>, op: Op, day: int, s: Disk)
    requires Good(plan, d, days) && Step(d, op, day).Visits(s) && Claims(plan, days).Has(Guard(op), day)
    requires AllSafe(Claims(plan, days), d, Touch(op)) && Places(op) <= Targets(plan)
    ensures Good(plan, s, days)
  {
    var o := Claims(plan, days);
    StepFrame(o, d, op, day, s);
    StepNames(o, d, op, day, s);
    StepThins(o, d, op, day, s);
    CheckedIn(plan);
    hide PullApply.Step, Checked, Targets, Sources, Places, Touch;
    forall t | t in Checked(plan) && (t.path in Targets(plan) || Unsaved(s, t))
      ensures Knows(s.doc, t.id)
    {
      if t.path !in Targets(plan) {
        assert At(s.live, t.path) == At(d.live, t.path);
        FindGrows(d.doc, s.doc, t.id, Sha256(d.live[t.path]));
      }
      KnowsGrows(d.doc, s.doc, t.id);
    }
  }

  lemma PhasePlaces(plan: Plan, k: nat, op: Op)
    requires op in Phase(plan, k)
    ensures Places(op) <= Targets(plan)
  {
    PhaseKind(plan, k, op);
  }

  lemma GoodStep(plan: Plan, d: Disk, days: set<int>, op: Op, k: nat, day: int, s: Disk)
    requires Good(plan, d, days) && op in Phase(plan, k) && day in days && Step(d, op, day).Visits(s)
    ensures Good(plan, s, days)
  {
    PlanTouchSafe(plan, d, days, k);
    PhaseFits(plan, days, day, k);
    PhasePlaces(plan, k, op);
    assert Touch(op) <= TouchAll(Phase(plan, k));
    hide PullApply.Step, PullApply.Phase, Claims, Checked;
    StepGood(plan, d, days, op, day, s);
  }

  lemma {:induction false} ExecGood(plan: Plan, d: Disk, days: set<int>, ops: seq<Op>, k: nat, day: int, s: Disk)
    requires Good(plan, d, days) && day in days && Exec(d, ops, day).Visits(s)
    requires forall op :: op in ops ==> FromLoops(plan, k, op)
    ensures Good(plan, s, days)
    decreases |ops|
  {
    hide PullApply.Step, PullApply.Phase, Good;
    if ops != [] {
      var r := Step(d, ops[0], day);
      assert FromLoops(plan, k, ops[0]);
      var j :| 1 <= j < k && ops[0] in Phase(plan, j);
      GoodStep(plan, d, days, ops[0], j, day, r.disk);
      if r.Visits(s) {
        GoodStep(plan, d, days, ops[0], j, day, s);
      } else {
        ExecGood(plan, r.disk, days, ops[1..], k, day, s);
      }
    }
  }

  /** From such a disk every save of the run goes through. */
  lemma GoodRegisters(plan: Plan, d: Disk, days: set<int>, day: int)
    requires Good(plan, d, days) && day in days
    ensures Registers(d, Before(plan, 6), day)
  {
    var ops := Before(plan, 6);
    BeforeFits(plan, days, day, 6);
    BeforeFrom(plan, 6);
    hide PullApply.Before, PullApply.Phase, Checked;
    forall i | 0 <= i < |ops| && Needs(d, ops[i])
      ensures CanSave(d, ops[..i], ops[i], day)
    {
      assert FromLoops(plan, 6, ops[i]);
      FromChecked(plan, 6, ops[i]);
      var c := NameFor(d, ops[..i], ops[i], day);
      assert Claims(plan, days).Covers(c);
    }
  }

  lemma FromChecked(plan: Plan, k: nat, op: Op)
    requires FromLoops(plan, k, op) && Guard(op).expected.Some?
    ensures Guard(op) in Checked(plan)
  {
    var j :| 1 <= j < k && op in Phase(plan, j);
    PhaseKind(plan, j, op);
  }
}
