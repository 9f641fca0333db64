/** No locally edited tracked file is lost by a pull, not even by a crash or a failure part-way. */
module PullKept {
  import opened Basics
  import opened PullPlan
  import opened PullApply
  import opened PullFrames
  import opened PullSuccess
  import opened PullOrder

  /** A registered conflict copy of `id` holds exactly `bytes`. */
  ghost predicate Kept(d: Disk, id: FileId, bytes: Bytes) {
    exists r :: r in d.doc && IsCopy(r, id, Sha256(bytes)) && At(d.live, r.path) == Some(bytes)
  }

  /** Conflict copies registered at one path agree on its content. */
  ghost predicate UniqueCopies(doc: seq<Record>) {
    forall a, b :: a in doc && b in doc && a.status == ConflictCopy && b.status == ConflictCopy && a.path == b.path
      ==> a.hash == b.hash
  }

  /** Copies stay registered, and every kept edit of a file in scope stays kept. */
  ghost predicate Keeps(o: Scope, d: Disk, s: Disk) {
    UniqueCopies(s.doc) && forall id, bytes :: id in o.ids && Kept(d, id, bytes) ==> Kept(s, id, bytes)
  }

  /** The edit is still in place or already saved. */
  ghost predicate Survives(s: Disk, t: Tracked, bytes: Bytes) {
    At(s.live, t.path) == Some(bytes) || Kept(s, t.id, bytes)
  }

  lemma RecordKeeps(d: Disk, s: Disk, id: FileId, bytes: Bytes)
    requires Kept(d, id, bytes) && d.doc <= s.doc
    requires forall r :: (r in d.doc && IsCopy(r, id, Sha256(bytes)) && At(d.live, r.path) == Some(bytes)) ==>
      At(s.live, r.path) == Some(bytes)
    ensures Kept(s, id, bytes)
  {
    var r :| r in d.doc && IsCopy(r, id, Sha256(bytes)) && At(d.live, r.path) == Some(bytes);
    var k :| 0 <= k < |d.doc| && d.doc[k] == r;
    assert s.doc[k] == r;
  }

  lemma KnownCopyKeeps(o: Scope, d: Disk, id: FileId, p: Path, expected: Option<Hash>, day: int, s: Disk)
    requires Dirty(d, p, expected) && FindCopy(d.doc, id, Sha256(d.live[p])).Some?
    requires UniqueCopies(d.doc) && PreserveCopy(d, id, p, expected, day).Visits(s)
    ensures Keeps(o, d, s)
  {
    var r := FindCopy(d.doc, id, Sha256(d.live[p])).value;
    KnownCopyShape(d, id, p, expected, day, s, r);
    hide PullApply.PreserveCopy;
    forall i, bytes | Kept(d, i, bytes)
      ensures Kept(s, i, bytes)
    {
      RecordKeeps(d, s, i, bytes);
    }
  }

  lemma NewCopyKeeps(o: Scope, d: Disk, id: FileId, p: Path, expected: Option<Hash>, day: int, s: Disk)
    requires Dirty(d, p, expected) && FindCopy(d.doc, id, Sha256(d.live[p])).None?
    requires UniqueCopies(d.doc) && PreserveCopy(d, id, p, expected, day).Visits(s)
    ensures Keeps(o, d, s)
  {
    var c := NextFree(d.live.Keys, p, day, 1);
    NewCopyShape(d, id, p, expected, day, s, c);
    assert s.doc != d.doc ==> !Occupied(d.doc, c);
    hide PullApply.PreserveCopy;
    forall i, bytes | Kept(d, i, bytes)
      ensures Kept(s, i, bytes)
    {
      RecordKeeps(d, s, i, bytes);
    }
  }

  lemma PreserveKeeps(o: Scope, d: Disk, id: FileId, p: Path, expected: Option<Hash>, day: int, s: Disk)
    requires UniqueCopies(d.doc) && PreserveCopy(d, id, p, expected, day).Visits(s)
    ensures Keeps(o, d, s)
  {
    if Dirty(d, p, expected) {
      hide PullApply.PreserveCopy;
      if FindCopy(d.doc, id, Sha256(d.live[p])).Some? {
        KnownCopyKeeps(o, d, id, p, expected, day, s);
      } else {
        NewCopyKeeps(o, d, id, p, expected, day, s);
      }
    }
  }

  /** A finished save keeps the edited bytes. */
  lemma PreserveSaves(d: Disk, id: FileId, p: Path, expected: Option<Hash>, day: int)
    requires Dirty(d, p, expected) && PreserveCopy(d, id, p, expected, day).Ok()
    ensures Kept(PreserveCopy(d, id, p, expected, day).disk, id, d.live[p])
  {
    var e := PreserveCopy(d, id, p, expected, day).disk;
    var bytes := d.live[p];
    match FindCopy(d.doc, id, Sha256(bytes))
    case Some(r) =>
      assert r in e.doc && At(e.live, r.path) == Some(bytes);
    case None =>
      var c := NextFree(d.live.Keys, p, day, 1);
      var r := Record(Generated(d.drawn), c, ConflictCopy, Some(Sha256(bytes)), Some(id));
      assert e.doc[|d.doc|] == r;
      assert At(e.live, r.path) == Some(bytes);
  }

  /** Changing only safe paths keeps every copy in scope. */
  lemma SafeKeeps(o: Scope, d: Disk, s: Disk, ps: set<Path>)
    requires UniqueCopies(d.doc) && s.doc == d.doc && AllSafe(o, d, ps)
    requires forall p :: p !in ps ==> At(s.live, p) == At(d.live, p)
    ensures Keeps(o, d, s)
  {
    forall i, bytes | i in o.ids && Kept(d, i, bytes)
      ensures Kept(s, i, bytes)
    {
      assert forall r :: r in d.doc && IsCopy(r, i, Sha256(bytes)) ==> o.Owns(r);
      RecordKeeps(d, s, i, bytes);
    }
  }

  /** `s` differs from the disk after the save only in the paths the iteration touches and in staging. */
  ghost predicate AfterSave(d: Disk, op: Op, day: int, s: Disk) {
    var p := Save(d, op, day);
    && p.Ok() && s.doc == p.disk.doc && s.unresolved == p.disk.unresolved && s.drawn == p.disk.drawn
    && forall q :: q !in Touch(op) ==> At(s.live, q) == At(p.disk.live, q)
  }

  /** A write whose payload is gone because its target already has the new content. */
  predicate AlreadyWritten(d: Disk, op: Op) {
    op.Put? && op.w.fileId !in d.staging && Holds(d.live, op.w.target, op.w.hash)
  }

  /** Every state of an iteration is the start, part of the save, or what follows a finished save. */
  lemma StepShape(d: Disk, op: Op, day: int, s: Disk)
    requires Step(d, op, day).Visits(s)
    ensures s == d || Save(d, op, day).Visits(s) || AfterSave(d, op, day, s)
    ensures Step(d, op, day).Ok() && s == Step(d, op, day).disk ==> AfterSave(d, op, day, s) || AlreadyWritten(d, op)
  {
    if !Dirty(d, Guard(op).path, Guard(op).expected) {
      assert Save(d, op, day) == Stay(d);
    }
    hide PullApply.PreserveCopy;
    match op
    case Stage(m) => StageShape(d, m, day, s);
    case Remove(i) =>
    case Put(w) =>
    case Land(m) =>
    case Shift(m) => ShiftShape(d, m, day, s);
  }

  lemma StageShape(d: Disk, m: MoveItem, day: int, s: Disk)
    requires StageMove(d, m, day).Visits(s)
    requires !Dirty(d, m.source, Some(m.hash)) ==> Save(d, Stage(m), day) == Stay(d)
    ensures s == d || Save(d, Stage(m), day).Visits(s) || AfterSave(d, Stage(m), day, s)
    ensures StageMove(d, m, day).Ok() && s == StageMove(d, m, day).disk ==> AfterSave(d, Stage(m), day, s)
  {
    hide PullApply.PreserveCopy;
  }

  lemma ShiftShape(d: Disk, m: MoveItem, day: int, s: Disk)
    requires PlaceDirect(d, m, day).Visits(s)
    requires !Dirty(d, m.source, Some(m.hash)) ==> Save(d, Shift(m), day) == Stay(d)
    ensures s == d || Save(d, Shift(m), day).Visits(s) || AfterSave(d, Shift(m), day, s)
    ensures PlaceDirect(d, m, day).Ok() && s == PlaceDirect(d, m, day).disk ==> AfterSave(d, Shift(m), day, s)
  {
    hide PullApply.PreserveCopy;
  }

  lemma StepKeeps(o: Scope, d: Disk, op: Op, day: int, s: Disk)
    requires o.Has(Guard(op), day) && UniqueCopies(d.doc) && AllSafe(o, d, Touch(op)) && Step(d, op, day).Visits(s)
    ensures Keeps(o, d, s)
  {
    hide PullApply.PreserveCopy, PullApply.Step;
    var g := Guard(op);
    var p := Save(d, op, day);
    StepShape(d, op, day, s);
    PreserveKeeps(o, d, g.id, g.path, g.expected, day, p.disk);
    if p.Visits(s) {
      PreserveKeeps(o, d, g.id, g.path, g.expected, day, s);
    } else if s != d {
      PreserveFrame(o, d, g, day, p.disk);
      SafeKeeps(o, p.disk, s, Touch(op));
    }
  }

  lemma StepSaves(o: Scope, d: Disk, op: Op, day: int, s: Disk)
    requires o.Has(Guard(op), day) && UniqueCopies(d.doc) && AllSafe(o, d, Touch(op)) && Step(d, op, day).Visits(s)
    requires Dirty(d, Guard(op).path, Guard(op).expected)
    ensures Survives(s, Guard(op), d.live[Guard(op).path])
    ensures Step(d, op, day).Ok() && s == Step(d, op, day).disk ==>
              Kept(s, Guard(op).id, d.live[Guard(op).path]) || (AlreadyWritten(d, op) && s.live == d.live)
  {
    var g := Guard(op);
    var p := Save(d, op, day);
    assert g.path in Touch(op);
    StepShape(d, op, day, s);
    assert AlreadyWritten(d, op) && s == Step(d, op, day).disk ==> s == d;
    hide PullApply.PreserveCopy, PullApply.Step;
    PreserveFrame(o, d, g, day, p.disk);
    if p.Ok() {
      PreserveSaves(d, g.id, g.path, g.expected, day);
      PreserveKeeps(o, d, g.id, g.path, g.expected, day, p.disk);
    }
    if p.Visits(s) {
      PreserveFrame(o, d, g, day, s);
    } else if AfterSave(d, op, day, s) {
      SafeKeeps(o, p.disk, s, Touch(op));
    }
  }

  lemma {:induction false} ExecKeeps(o: Scope, d: Disk, ops: seq<Op>, day: int, s: Disk)
    requires AllFit(o, ops, day) && UniqueCopies(d.doc) && AllSafe(o, d, TouchAll(ops)) && Exec(d, ops, day).Visits(s)
    ensures Keeps(o, d, s)
    decreases |ops|
  {
    hide PullApply.Step, TouchAll, IdsAll;
    if ops != [] {
      var r := Step(d, ops[0], day);
      TouchCons(ops);
      StepKeeps(o, d, ops[0], day, r.disk);
      if r.Visits(s) {
        StepKeeps(o, d, ops[0], day, s);
      } else {
        StepFrame(o, d, ops[0], day, r.disk);
        ExecKeeps(o, r.disk, ops[1..], day, s);
      }
    }
  }

  /** How a finished run holds on to an edit: as a conflict copy, unless it was the new content itself. */
  ghost predicate Saved(s: Disk, op: Op, bytes: Bytes) {
    || Kept(s, Guard(op).id, bytes)
    || (op.Put? && Sha256(bytes) == op.w.hash && At(s.live, op.w.target) == Some(bytes))
  }

  /** The first iteration to touch an edited file is the one that saves it. */
  lemma {:induction false} ExecSaves(o: Scope, d: Disk, ops: seq<Op>, day: int, s: Disk, op: Op)
    requires op in ops && Ordered(ops) && AllFit(o, ops, day) && AllSafe(o, d, TouchAll(ops)) && UniqueCopies(d.doc)
    requires Dirty(d, Guard(op).path, Guard(op).expected) && Exec(d, ops, day).Visits(s)
    ensures Survives(s, Guard(op), d.live[Guard(op).path])
    ensures Exec(d, ops, day).Ok() && s == Exec(d, ops, day).disk ==> Saved(s, op, d.live[Guard(op).path])
    decreases |ops|
  {
    if op == ops[0] {
      SavedFirst(o, d, ops, day, s);
    } else {
      assert op in ops[1..];
      var r := Step(d, ops[0], day);
      assert r.Visits(s) || (r.Ok() && Exec(r.disk, ops[1..], day).Visits(s));
      assert Exec(d, ops, day).Ok() ==> r.Ok() && Exec(r.disk, ops[1..], day).Ok();
      assert s == Exec(d, ops, day).disk && r.Ok() ==> s == Exec(r.disk, ops[1..], day).disk;
      hide PullApply.Step, PullApply.Exec, TouchAll, IdsAll, Kept, UniqueCopies, Dirty, Ordered, AllFit, AllSafe, Saved, Spares;
      TailFacts(o, d, ops, day);
      StepKeeps(o, d, ops[0], day, r.disk);
      StepFrame(o, d, ops[0], day, r.disk);
      EditStays(o, d, r.disk, ops, op);
      if r.Ok() && Exec(r.disk, ops[1..], day).Visits(s) {
        ExecSaves(o, r.disk, ops[1..], day, s, op);
      } else {
        StepFrame(o, d, ops[0], day, s);
        EditStays(o, d, s, ops, op);
      }
    }
  }

  lemma TailFacts(o: Scope, d: Disk, ops: seq<Op>, day: int)
    requires ops != [] && Ordered(ops) && AllFit(o, ops, day) && AllSafe(o, d, TouchAll(ops))
    ensures o.Has(Guard(ops[0]), day) && AllSafe(o, d, Touch(ops[0]))
    ensures Ordered(ops[1..]) && AllFit(o, ops[1..], day)
  {
    TouchCons(ops);
  }

  /** An iteration leaves an edit in place that a later one checks. */
  lemma EditStays(o: Scope, d: Disk, s: Disk, ops: seq<Op>, op: Op)
    requires ops != [] && op in ops[1..] && Ordered(ops) && AllSafe(o, d, TouchAll(ops))
    requires Dirty(d, Guard(op).path, Guard(op).expected) && Frame(o, d, s, Touch(ops[0]), Ids(ops[0]))
    ensures At(s.live, Guard(op).path) == Some(d.live[Guard(op).path])
    ensures Dirty(s, Guard(op).path, Guard(op).expected)
    ensures AllSafe(o, s, TouchAll(ops[1..]))
  {
    assert Spares(ops[0], op);
    TouchCons(ops);
    assert Guard(op).path in Touch(op) && Guard(op).path in TouchAll(ops);
  }

  lemma SavedFirst(o: Scope, d: Disk, ops: seq<Op>, day: int, s: Disk)
    requires ops != [] && Ordered(ops) && AllFit(o, ops, day) && AllSafe(o, d, TouchAll(ops)) && UniqueCopies(d.doc)
    requires Dirty(d, Guard(ops[0]).path, Guard(ops[0]).expected) && Exec(d, ops, day).Visits(s)
    ensures Survives(s, Guard(ops[0]), d.live[Guard(ops[0]).path])
    ensures Exec(d, ops, day).Ok() && s == Exec(d, ops, day).disk ==> Saved(s, ops[0], d.live[Guard(ops[0]).path])
  {
    var op := ops[0];
    var r := Step(d, op, day);
    TouchCons(ops);
    StepKeeps(o, d, op, day, r.disk);
    StepSaves(o, d, op, day, r.disk);
    if r.Visits(s) { StepSaves(o, d, op, day, s); }
    if r.Ok() && Exec(r.disk, ops[1..], day).Visits(s) {
      StepFrame(o, d, op, day, r.disk);
      ExecKeeps(o, r.disk, ops[1..], day, s);
      ExecFrame(o, r.disk, ops[1..], day, s);
      PlacedStays(ops);
      hide PullApply.Step, TouchAll, IdsAll, Kept, UniqueCopies, PullApply.Exec;
      assert AlreadyWritten(d, op) ==> op.w.target in Places(op) && op.w.target in Touch(op);
    }
  }

  lemma PlacedStays(ops: seq<Op>)
    requires ops != [] && Ordered(ops)
    ensures Places(ops[0]) !! TouchAll(ops[1..])
  {
    forall b | b in ops[1..]
      ensures Places(ops[0]) !! Touch(b)
    {
      assert Spares(ops[0], b);
    }
  }

  lemma CheckedInScope(plan: Plan, days: set<int>, op: Op)
    requires Tracks(plan, op) && Guard(op).expected.Some?
    ensures Guard(op) in Checked(plan) && Guard(op).id in Claims(plan, days).ids
  {
  }

  /** Main result: at every crash point of every run, failed ones included, a locally edited
      tracked file still holds the edit or a registered conflict copy does. */
  lemma NoTrackedEditLost(d: Disk, plan: Plan, day: int, s: Disk, op: Op)
    requires WellFormed(plan) && Separated(plan, d, {day}) && UniqueCopies(d.doc)
    requires Tracks(plan, op) && Dirty(d, Guard(op).path, Guard(op).expected)
    requires Apply(d, plan, day).Visits(s)
    ensures Survives(s, Guard(op), d.live[Guard(op).path])
    ensures Apply(d, plan, day).Ok() && s == Apply(d, plan, day).disk ==> Saved(s, op, d.live[Guard(op).path])
  {
    RunSaves(d, plan, {day}, day, s, op);
  }

  lemma RunSaves(d: Disk, plan: Plan, days: set<int>, day: int, s: Disk, op: Op)
    requires WellFormed(plan) && Separated(plan, d, days) && day in days && UniqueCopies(d.doc)
    requires Tracks(plan, op) && Dirty(d, Guard(op).path, Guard(op).expected)
    requires Apply(d, plan, day).Visits(s)
    ensures Survives(s, Guard(op), d.live[Guard(op).path])
    ensures Apply(d, plan, day).Ok() && s == Apply(d, plan, day).disk ==> Saved(s, op, d.live[Guard(op).path])
  {
    hide PullApply.Exec, PullApply.Before, PullPlan.WellFormed, Kept, UniqueCopies, Ordered, TouchAll;
    RunOrdered(plan, 6);
    BeforeFits(plan, days, day, 6);
    BeforeIn(plan, 6);
    TrackedInRun(plan, op);
    ExecSaves(Claims(plan, days), d, Before(plan, 6), day, s, op);
  }

  lemma RunKeeps(d: Disk, plan: Plan, days: set<int>, day: int, s: Disk)
    requires Separated(plan, d, days) && day in days && UniqueCopies(d.doc) && Apply(d, plan, day).Visits(s)
    ensures Keeps(Claims(plan, days), d, s) && Separated(plan, s, days)
  {
    hide PullApply.Exec, PullApply.Before, Kept, UniqueCopies, TouchAll;
    BeforeFits(plan, days, day, 6);
    BeforeIn(plan, 6);
    ExecKeeps(Claims(plan, days), d, Before(plan, 6), day, s);
    ExecFrame(Claims(plan, days), d, Before(plan, 6), day, s);
  }

  /** After a normal return the edit is in a conflict copy, unless it already was the new content. */
  lemma EditsSavedOnSuccess(d: Disk, plan: Plan, day: int, op: Op)
    requires WellFormed(plan) && Separated(plan, d, {day}) && UniqueCopies(d.doc)
    requires Tracks(plan, op) && Dirty(d, Guard(op).path, Guard(op).expected)
    requires Apply(d, plan, day).Ok()
    ensures Saved(Apply(d, plan, day).disk, op, d.live[Guard(op).path])
  {
    RunSaves(d, plan, {day}, day, Apply(d, plan, day).disk, op);
  }

  /** One execution of the plan, cut short or not, and the disk it left. */
  datatype Attempt = Attempt(day: int, end: Disk)

  /** Executions one after the other, each starting from what the one before left. */
  ghost predicate Attempts(plan: Plan, d: Disk, attempts: seq<Attempt>, days: set<int>)
    decreases |attempts|
  {
    attempts == [] || (
      && attempts[0].day in days && Apply(d, plan, attempts[0].day).Visits(attempts[0].end)
      && Attempts(plan, attempts[0].end, attempts[1..], days))
  }

  function LastDisk(d: Disk, attempts: seq<Attempt>): Disk
    decreases |attempts|
  {
    if attempts == [] then d else LastDisk(attempts[0].end, attempts[1..])
  }

  /** Main result: however many executions are interrupted, at any crash point, the edit survives them all,
      and a further execution that returns normally has it saved. */
  lemma {:induction false} NoEditLostInReplays(d: Disk, plan: Plan, attempts: seq<Attempt>, days: set<int>, day: int,
                                               op: Op, bytes: Bytes)
    requires WellFormed(plan) && Separated(plan, d, days) && UniqueCopies(d.doc)
    requires Attempts(plan, d, attempts, days) && day in days
    requires Tracks(plan, op) && Guard(op).expected.Some? && Guard(op).expected != Some(Sha256(bytes))
    requires Survives(d, Guard(op), bytes)
    ensures Survives(LastDisk(d, attempts), Guard(op), bytes)
    ensures var r := Apply(LastDisk(d, attempts), plan, day);
            Survives(r.disk, Guard(op), bytes) && (r.Ok() ==> Saved(r.disk, op, bytes))
    decreases |attempts|
  {
    hide PullApply.Apply, PullPlan.WellFormed, Kept, UniqueCopies, Claims;
    CheckedInScope(plan, days, op);
    if attempts == [] {
      SurvivesRun(d, plan, days, day, Apply(d, plan, day).disk, op, bytes);
    } else {
      var e := attempts[0].end;
      RunKeeps(d, plan, days, attempts[0].day, e);
      SurvivesRun(d, plan, days, attempts[0].day, e, op, bytes);
      NoEditLostInReplays(e, plan, attempts[1..], days, day, op, bytes);
    }
  }

  lemma SurvivesRun(d: Disk, plan: Plan, days: set<int>, day: int, s: Disk, op: Op, bytes: Bytes)
    requires WellFormed(plan) && Separated(plan, d, days) && UniqueCopies(d.doc) && day in days
    requires Tracks(plan, op) && Guard(op).expected.Some? && Guard(op).expected != Some(Sha256(bytes))
    requires Survives(d, Guard(op), bytes) && Apply(d, plan, day).Visits(s)
    ensures Survives(s, Guard(op), bytes)
    ensures Apply(d, plan, day).Ok() && s == Apply(d, plan, day).disk ==> Saved(s, op, bytes)
  {
    hide PullApply.Apply, PullPlan.WellFormed, Kept, UniqueCopies, Claims;
    CheckedInScope(plan, days, op);
    if Kept(d, Guard(op).id, bytes) {
      RunKeeps(d, plan, days, day, s);
    } else {
      RunSaves(d, plan, days, day, s, op);
    }
  }
}
