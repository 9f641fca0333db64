/** When a pull tells the device of a conflict: exactly when it found an edit to save. */
module PullFlag {
  import opened Basics
  import opened PullPlan
  import opened PullApply
  import opened PullFrames
  import opened PullSuccess
  import opened PullOrder
  import opened PullKept

  /** The iteration finds an edit that it has to save: other bytes than recorded, and not a write whose payload is spent
      because the target already has the new content. */
  predicate FindsEdit(d: Disk, op: Op) {
    var t := Guard(op);
    && t.expected.Some? && t.path in d.live && Some(Sha256(d.live[t.path])) != t.expected
    && !(op.Put? && op.w.fileId !in d.staging && op.w.target in d.live && Sha256(d.live[op.w.target]) == op.w.hash)
  }

  lemma StepFlag(d: Disk, op: Op, day: int, s: Disk)
    requires Step(d, op, day).Visits(s)
    ensures d.unresolved ==> s.unresolved
    ensures s.unresolved ==> d.unresolved || FindsEdit(d, op)
    ensures Step(d, op, day).Ok() && s == Step(d, op, day).disk && FindsEdit(d, op) ==> s.unresolved
  {
    var p := Save(d, op, day);
    StepShape(d, op, day, s);
    if p.Visits(s) { SaveFlag(d, op, day, s); }
    SaveFlag(d, op, day, p.disk);
    EditIs(d, op);
    hide PullApply.Step, PullFrames.Save, FindsEdit, Dirty, AlreadyWritten;
  }

  lemma EditIs(d: Disk, op: Op)
    ensures FindsEdit(d, op) <==> Dirty(d, Guard(op).path, Guard(op).expected) && !AlreadyWritten(d, op)
  {
  }

  lemma SaveFlag(d: Disk, op: Op, day: int, s: Disk)
    requires Save(d, op, day).Visits(s)
    ensures d.unresolved ==> s.unresolved
    ensures s.unresolved ==> d.unresolved || Dirty(d, Guard(op).path, Guard(op).expected)
    ensures Save(d, op, day).Ok() && s == Save(d, op, day).disk && Dirty(d, Guard(op).path, Guard(op).expected) ==> s.unresolved
  {
  }

  /** An earlier iteration leaves a file as it is that a later one checks. */
  lemma EditSeen(o: Scope, d: Disk, e: Disk, ops: seq<Op>, op: Op)
    requires ops != [] && op in ops[1..] && Ordered(ops) && AllSafe(o, d, TouchAll(ops))
    requires Frame(o, d, e, Touch(ops[0]), Ids(ops[0]))
    ensures FindsEdit(d, op) <==> FindsEdit(e, op)
    ensures AllSafe(o, e, TouchAll(ops[1..]))
  {
    assert Spares(ops[0], op);
    TouchCons(ops);
    assert Guard(op).path in Touch(op) && Guard(op).path in TouchAll(ops);
    if Guard(op).expected.Some? {
      assert At(e.live, Guard(op).path) == At(d.live, Guard(op).path);
      assert op.Put? ==> At(e.staging, op.w.fileId) == At(d.staging, op.w.fileId) && op.w.target == Guard(op).path;
    }
  }

  ghost predicate AnyEdit(d: Disk, ops: seq<Op>) {
    exists op :: op in ops && FindsEdit(d, op)
  }

  lemma AnyEditTail(o: Scope, d: Disk, e: Disk, ops: seq<Op>)
    requires ops != [] && Ordered(ops) && AllSafe(o, d, TouchAll(ops))
    requires Frame(o, d, e, Touch(ops[0]), Ids(ops[0]))
    ensures AnyEdit(d, ops) <==> FindsEdit(d, ops[0]) || AnyEdit(e, ops[1..])
    ensures AllSafe(o, e, TouchAll(ops[1..]))
  {
    hide FindsEdit, Frame, Ordered, TouchAll, Touch, Ids;
    assert ops[1..] == [] ==> AllSafe(o, e, TouchAll(ops[1..])) by { NoTouch(); }
    forall op | op in ops[1..]
      ensures FindsEdit(d, op) <==> FindsEdit(e, op)
      ensures AllSafe(o, e, TouchAll(ops[1..]))
    {
      EditSeen(o, d, e, ops, op);
    }
    assert ops[1..] != [] ==> ops[1..][0] in ops[1..];
  }

  lemma NoTouch()
    ensures TouchAll([]) == {}
  {
  }

  lemma {:induction false} ExecFlag(o: Scope, d: Disk, ops: seq<Op>, day: int, s: Disk)
    requires AllFit(o, ops, day) && Ordered(ops) && AllSafe(o, d, TouchAll(ops)) && Exec(d, ops, day).Visits(s)
    ensures d.unresolved ==> s.unresolved
    ensures s.unresolved ==> d.unresolved || AnyEdit(d, ops)
    ensures Exec(d, ops, day).Ok() && s == Exec(d, ops, day).disk && AnyEdit(d, ops) ==> s.unresolved
    decreases |ops|
  {
    if ops != [] {
      var r := Step(d, ops[0], day);
      hide PullApply.Step, FindsEdit, Ordered, TouchAll, AllSafe, Frame, AllFit, AnyEdit;
      FlagTail(o, ops, day);
      StepFlag(d, ops[0], day, r.disk);
      StepFrame(o, d, ops[0], day, r.disk);
      AnyEditTail(o, d, r.disk, ops);
      if r.Visits(s) { StepFlag(d, ops[0], day, s); }
      if r.Ok() && Exec(r.disk, ops[1..], day).Visits(s) {
        ExecFlag(o, r.disk, ops[1..], day, s);
      }
      if r.Ok() && s == Exec(d, ops, day).disk {
        ExecFlag(o, r.disk, ops[1..], day, s);
      }
    }
  }

  lemma FlagTail(o: Scope, ops: seq<Op>, day: int)
    requires ops != [] && AllFit(o, ops, day) && Ordered(ops)
    ensures o.Has(Guard(ops[0]), day) && AllFit(o, ops[1..], day) && Ordered(ops[1..])
  {
  }

  /** Main result: a finished run leaves the conflict flag raised if and only if it was raised already or the run found an edit
      to save; a run that was stopped never lowers it, and raises it for no other reason. */
  lemma FlagRaisedIff(d: Disk, plan: Plan, day: int, s: Disk)
    requires WellFormed(plan) && Separated(plan, d, {day}) && Apply(d, plan, day).Visits(s)
    ensures d.unresolved ==> s.unresolved
    ensures s.unresolved ==> d.unresolved || exists op :: Tracks(plan, op) && FindsEdit(d, op)
    ensures Apply(d, plan, day).Ok() && s == Apply(d, plan, day).disk ==>
              (s.unresolved <==> d.unresolved || exists op :: Tracks(plan, op) && FindsEdit(d, op))
  {
    RunOrdered(plan, 6);
    BeforeFits(plan, {day}, day, 6);
    BeforeIn(plan, 6);
    forall op | Tracks(plan, op) ensures op in Before(plan, 6) { TrackedInRun(plan, op); }
    forall op | op in Before(plan, 6) && FindsEdit(d, op) ensures Tracks(plan, op) { FindsTracked(plan, d, op); }
    hide PullApply.Exec, PullApply.Before, PullPlan.WellFormed, Ordered, TouchAll, Tracks, FindsEdit;
    ExecFlag(Claims(plan, {day}), d, Before(plan, 6), day, s);
  }

  lemma FindsTracked(plan: Plan, d: Disk, op: Op)
    requires op in Before(plan, 6) && FindsEdit(d, op)
    ensures Tracks(plan, op)
  {
    var k := PhaseOf(plan, 6, op);
    PhaseKind(plan, k, op);
    hide PullApply.Before, PullApply.Phase;
  }
}
