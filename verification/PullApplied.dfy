/** Exactly when a run that returns normally has applied its plan, whatever conflict names the plan uses. */
module PullApplied {
  import opened Basics
  import opened PullPlan
  import opened PullApply
  import opened PullFrames
  import opened PullSuccess
  import opened PullOrder
  import opened PullKept
  import opened PullSaves
  import opened PullReady
  import opened PullLost

  datatype Copy = Copy(path: Path, bytes: Bytes)

  /** The bytes at a checked path are an edit that the iteration has to save. */
  predicate Edited(d: Disk, op: Op, bytes: Bytes) {
    && Guard(op).expected.Some? && Sha256(bytes) != Guard(op).expected.value
    && !(op.Put? && op.w.fileId !in d.staging && Sha256(bytes) == op.w.hash)
  }

  /** What iteration `k` finds at the path it checks: the file there at the start,
      or else a copy that an earlier iteration has put there. */
  function Found(d: Disk, ops: seq<Op>, k: nat, day: int): Option<Bytes>
    requires k < |ops|
    decreases k, 2
  {
    var p := Guard(ops[k]).path;
    if p in d.live then Some(d.live[p]) else Relayed(d, ops, k, day, p)
  }

  /** The copy that one of the first `j` iterations puts at `p`. */
  function Relayed(d: Disk, ops: seq<Op>, j: nat, day: int, p: Path): Option<Bytes>
    requires j <= |ops|
    decreases j, 1
  {
    if j == 0 then None
    else
      var c := NewCopy(d, ops, j - 1, day);
      if c.Some? && c.value.path == p then Some(c.value.bytes) else Relayed(d, ops, j - 1, day, p)
  }

  /** The new copy that iteration `i` makes, told from the disk at the start. */
  function NewCopy(d: Disk, ops: seq<Op>, i: nat, day: int): Option<Copy>
    requires i < |ops|
    decreases i, 3
  {
    match Found(d, ops, i, day)
    case None => None
    case Some(bytes) =>
      if Edited(d, ops[i], bytes) && FindCopy(d.doc, Guard(ops[i]).id, Sha256(bytes)).None?
      then Some(Copy(CopyName(d, ops[..i], ops[i], day), bytes))
      else None
  }

  /** Iteration `i` makes a copy at `x`, and neither it nor a later one touches that path. */
  predicate Lands(d: Disk, ops: seq<Op>, i: nat, day: int, x: Path)
    requires i < |ops|
  {
    NewCopy(d, ops, i, day).Some? && NewCopy(d, ops, i, day).value.path == x && x !in TouchAll(ops[i..])
  }

  /** Checkable before the call: no copy comes to stay at `x`. */
  predicate NoneLands(d: Disk, ops: seq<Op>, day: int, x: Path) {
    forall i :: 0 <= i < |ops| ==> !Lands(d, ops, i, day, x)
  }

  /** Iterations that run to their end on the paths `ps`. */
  ghost predicate Runs(d: Disk, ops: seq<Op>, day: int, ps: set<Path>) {
    && Ordered(ops) && Clear(d, ops, ps) && TouchAll(ops) <= ps && Exec(d, ops, day).Ok()
    && forall op :: op in ops && op.Shift? ==> op.m.source != op.m.target
  }

  lemma RunsTail(d: Disk, ops: seq<Op>, day: int, ps: set<Path>)
    requires ops != [] && Runs(d, ops, day, ps)
    ensures var e := Step(d, ops[0], day).disk;
            && Step(d, ops[0], day).Ok() && Runs(e, ops[1..], day, ps)
            && Exec(e, ops[1..], day).disk == Exec(d, ops, day).disk
  {
    TouchCons(ops);
    hide PullApply.Step, Clear, TouchAll, Ordered;
    ClearStep(d, ops, day, ps);
  }

  /** The first iteration makes a new copy exactly when it needs one; the name is free and on no record. */
  lemma FirstCopy(d: Disk, ops: seq<Op>, day: int, ps: set<Path>)
    requires ops != [] && Runs(d, ops, day, ps)
    ensures var t := Guard(ops[0]);
            NewCopy(d, ops, 0, day) ==
              if Needs(d, ops[0]) && Known(d, ops[0]).None?
              then Some(Copy(NextFree(d.live.Keys, t.path, day, 1), d.live[t.path])) else None
  {
    var t := Guard(ops[0]);
    assert ops[..0] == [] && Taken(d.live.Keys, []) == d.live.Keys;
    if Needs(d, ops[0]) && Known(d, ops[0]).None? {
      NewStep(d, ops[0], day);
      hide PullApply.Step;
      BetweenName(d.live.Keys, d.live.Keys, d.doc, t.path, day);
    }
  }

  /** The paths in `ps` after the first iteration. */
  lemma FirstLive(d: Disk, ops: seq<Op>, day: int, ps: set<Path>, x: Path)
    requires ops != [] && Runs(d, ops, day, ps) && x in ps && x !in Touch(ops[0])
    ensures var (e, c) := (Step(d, ops[0], day).disk, NewCopy(d, ops, 0, day));
            At(e.live, x) == if x in d.live then At(d.live, x)
                             else if c.Some? && c.value.path == x then Some(c.value.bytes) else None
  {
    FirstCopy(d, ops, day, ps);
    StepAdds(d, ops[0], day);
    NotOwned(d, ops, ps, x);
    if x in d.live { StillStep(d, ops[0], day, x); }
    if Needs(d, ops[0]) && Known(d, ops[0]).None? { NewStep(d, ops[0], day); }
    hide PullApply.Step, Runs, NewCopy;
  }

  lemma CopyOrigin(d: Disk, ops: seq<Op>, i: nat, day: int)
    requires i < |ops| && NewCopy(d, ops, i, day).Some?
    ensures Guard(ops[i]).expected.Some?
    ensures var p := NewCopy(d, ops, i, day).value.path;
            p.ConflictName? && p.original == Guard(ops[i]).path
  {
  }

  lemma {:induction false} RelayedOrigin(d: Disk, ops: seq<Op>, j: nat, day: int, p: Path)
    requires j <= |ops| && Relayed(d, ops, j, day, p).Some?
    ensures exists i :: 0 <= i < j && Guard(ops[i]).expected.Some? && p.ConflictName? && p.original == Guard(ops[i]).path
    decreases j
  {
    var c := NewCopy(d, ops, j - 1, day);
    hide NewCopy;
    if c.Some? && c.value.path == p {
      CopyOrigin(d, ops, j - 1, day);
    } else {
      RelayedOrigin(d, ops, j - 1, day, p);
    }
  }

  /** The name foreseen for a later copy is the same one iteration further. */
  lemma CopyNameSame(d: Disk, ops: seq<Op>, k: nat, day: int, ps: set<Path>)
    requires Runs(d, ops, day, ps) && 1 <= k < |ops| && Guard(ops[k]).expected.Some?
    ensures CopyName(Step(d, ops[0], day).disk, ops[1..k], ops[k], day) == CopyName(d, ops[..k], ops[k], day)
  {
    var (e, p) := (Step(d, ops[0], day).disk, Guard(ops[k]).path);
    assert ops[k] in ops[1..];
    TakenStep(d, ops, day, ops[k]);
    var (a, b) := (Taken(e.live.Keys, ops[1..k]) + Recorded(e.doc), Taken(d.live.Keys, ops[..k]) + Recorded(d.doc));
    hide PullApply.Step, Taken, Recorded, Ordered, Clear, TouchAll;
    forall n | n >= 1
      ensures ConflictName(p, day, n) in a <==> ConflictName(p, day, n) in b
    {
      RecordedStep(d, ops, day, ops[k], n);
      TakenCons(d.live.Keys, e.live.Keys, ops, k, ConflictName(p, day, n));
    }
    NextFreeSame(a, b, p, day);
  }

  /** What is foreseen for a later iteration is the same one iteration further. */
  lemma {:induction false} CopySame(d: Disk, ops: seq<Op>, k: nat, day: int, ps: set<Path>)
    requires Runs(d, ops, day, ps) && 1 <= k < |ops|
    ensures NewCopy(Step(d, ops[0], day).disk, ops[1..], k - 1, day) == NewCopy(d, ops, k, day)
    decreases k, 2
  {
    var (e, t) := (Step(d, ops[0], day).disk, Guard(ops[k]));
    assert ops[1..][k - 1] == ops[k] && ops[1..][..k - 1] == ops[1..k];
    if t.expected.Some? {
      FoundSame(d, ops, k, day, ps);
      SparedFacts(ops, k);
      StagingStays(d, ops, k, day);
      CopyNameSame(d, ops, k, day, ps);
      hide PullApply.Step, Runs, Found, CopyName;
      if Found(d, ops, k, day).Some? {
        FindStep(d, ops[0], day, t.id, Sha256(Found(d, ops, k, day).value));
      }
    }
  }

  lemma StagingStays(d: Disk, ops: seq<Op>, k: nat, day: int)
    requires 1 <= k < |ops| && Ordered(ops) && Guard(ops[k]).expected.Some?
    ensures ops[k].Put? ==> At(Step(d, ops[0], day).disk.staging, ops[k].w.fileId) == At(d.staging, ops[k].w.fileId)
  {
    var o := Scope({Guard(ops[0]).id}, {Guard(ops[0]).path}, {day});
    assert ops[k] in ops[1..] && Spares(ops[0], ops[k]);
    StepFrame(o, d, ops[0], day, Step(d, ops[0], day).disk);
    hide PullApply.Step;
  }

  lemma {:induction false} FoundSame(d: Disk, ops: seq<Op>, k: nat, day: int, ps: set<Path>)
    requires Runs(d, ops, day, ps) && 1 <= k < |ops| && Guard(ops[k]).expected.Some?
    ensures Found(Step(d, ops[0], day).disk, ops[1..], k - 1, day) == Found(d, ops, k, day)
    decreases k, 1
  {
    var (e, p) := (Step(d, ops[0], day).disk, Guard(ops[k]).path);
    assert ops[1..][k - 1] == ops[k];
    GuardIn(ops, k, ps);
    SparedFacts(ops, k);
    hide PullApply.Step, PullApply.Exec, Runs, NewCopy, Relayed, Touch, Places;
    FirstLive(d, ops, day, ps, p);
    if p !in d.live {
      RelayedSame(d, ops, k, day, ps, p);
      var c := NewCopy(d, ops, 0, day);
      if c.Some? && c.value.path == p && Relayed(e, ops[1..], k - 1, day, p).Some? {
        CopyOrigin(d, ops, 0, day);
        RelayedOrigin(e, ops[1..], k - 1, day, p);
        OneOrigin(ops, k, p, ps, d, day);
      }
    }
  }

  /** No later iteration checks the path that the first one does. */
  lemma OneOrigin(ops: seq<Op>, k: nat, p: Path, ps: set<Path>, d: Disk, day: int)
    requires ops != [] && Runs(d, ops, day, ps) && p.ConflictName? && p.original == Guard(ops[0]).path
    ensures !exists i :: 0 <= i < |ops[1..]| && Guard(ops[1..][i]).expected.Some? && p.original == Guard(ops[1..][i]).path
  {
    forall i | 0 <= i < |ops[1..]| && Guard(ops[1..][i]).expected.Some?
      ensures Guard(ops[1..][i]).path != p.original
    {
      SparedFacts(ops, i + 1);
      assert Guard(ops[0]).path in Touch(ops[0]);
    }
  }

  lemma {:induction false} RelayedSame(d: Disk, ops: seq<Op>, j: nat, day: int, ps: set<Path>, p: Path)
    requires Runs(d, ops, day, ps) && 1 <= j <= |ops|
    ensures var (late, c) := (Relayed(Step(d, ops[0], day).disk, ops[1..], j - 1, day, p), NewCopy(d, ops, 0, day));
            Relayed(d, ops, j, day, p) ==
              if late.Some? then late else if c.Some? && c.value.path == p then Some(c.value.bytes) else None
    decreases j, 0
  {
    hide PullApply.Step, Runs, NewCopy;
    if j > 1 {
      CopySame(d, ops, j - 1, day, ps);
      RelayedSame(d, ops, j - 1, day, ps, p);
    }
  }

  lemma LandsSame(d: Disk, ops: seq<Op>, i: nat, day: int, ps: set<Path>, x: Path)
    requires Runs(d, ops, day, ps) && 1 <= i < |ops|
    ensures Lands(Step(d, ops[0], day).disk, ops[1..], i - 1, day, x) <==> Lands(d, ops, i, day, x)
  {
    CopySame(d, ops, i, day, ps);
    assert ops[1..][i - 1..] == ops[i..];
    hide NewCopy, TouchAll;
  }

  /** A path that nothing is placed at is in use in the end exactly if it was and is untouched, or a copy lands there. */
  lemma {:induction false} LiveEnd(d: Disk, ops: seq<Op>, day: int, ps: set<Path>, x: Path)
    requires Runs(d, ops, day, ps) && x in ps && forall op :: op in ops ==> x !in Places(op)
    ensures x in Exec(d, ops, day).disk.live <==> (x in d.live && x !in TouchAll(ops)) || !NoneLands(d, ops, day, x)
    decreases |ops|
  {
    if ops != [] {
      var e := Step(d, ops[0], day).disk;
      RunsTail(d, ops, day, ps);
      TouchCons(ops);
      assert ops[0] in ops && ops[0..] == ops;
      forall i | 1 <= i < |ops|
        ensures Lands(e, ops[1..], i - 1, day, x) <==> Lands(d, ops, i, day, x)
      {
        LandsSame(d, ops, i, day, ps, x);
      }
      if x in Touch(ops[0]) { StepEnd(d, ops[0], day, x); } else { FirstLive(d, ops, day, ps, x); }
      hide PullApply.Step, PullApply.Exec, NewCopy, TouchAll, Runs;
      LiveEnd(e, ops[1..], day, ps, x);
      LandsCons(d, e, ops, day, x);
    }
  }

  lemma LandsCons(d: Disk, e: Disk, ops: seq<Op>, day: int, x: Path)
    requires ops != []
    requires forall i :: 1 <= i < |ops| ==> (Lands(e, ops[1..], i - 1, day, x) <==> Lands(d, ops, i, day, x))
    ensures NoneLands(d, ops, day, x) <==> !Lands(d, ops, 0, day, x) && NoneLands(e, ops[1..], day, x)
  {
    hide Lands;
    if NoneLands(d, ops, day, x) {
      forall i | 0 <= i < |ops[1..]|
        ensures !Lands(e, ops[1..], i, day, x)
      {
        assert !Lands(d, ops, i + 1, day, x);
      }
    }
    if !Lands(d, ops, 0, day, x) && NoneLands(e, ops[1..], day, x) {
      forall i | 0 <= i < |ops|
        ensures !Lands(d, ops, i, day, x)
      {
        assert i > 0 ==> !Lands(e, ops[1..], i - 1, day, x);
      }
    }
  }

  /** What an iteration places is there in the end. */
  lemma {:induction false} PlacedEnd(d: Disk, ops: seq<Op>, day: int, ps: set<Path>, op: Op, x: Path)
    requires Runs(d, ops, day, ps) && op in ops && x in Places(op)
    ensures Holds(Exec(d, ops, day).disk.live, x, PlacedHash(op).value)
    decreases |ops|
  {
    var e := Step(d, ops[0], day).disk;
    RunsTail(d, ops, day, ps);
    if op == ops[0] {
      TouchCons(ops);
      PlacedStays(ops);
      StepEnd(d, op, day, x);
      hide PullApply.Step, PullApply.Exec, TouchAll, Clear;
      StillStays(e, ops[1..], day, x, ps);
    } else {
      hide PullApply.Step, PullApply.Exec, Runs;
      PlacedEnd(e, ops[1..], day, ps, op, x);
    }
  }

  lemma VacatedTouched(plan: Plan, x: Path)
    requires x in Sources(plan)
    ensures x in TouchAll(Before(plan, 6))
  {
    if m :| m in plan.moves && m.source == x {
      var op := if Blocks(m, plan.blocking) then Stage(m) else Shift(m);
      TrackedInRun(plan, op);
      hide PullApply.Before;
      assert x in Touch(op);
    } else {
      var i :| i in plan.deletes && i.path == x;
      TrackedInRun(plan, Remove(i));
      hide PullApply.Before;
      assert x in Touch(Remove(i));
    }
  }

  lemma PlacesTargets(plan: Plan, op: Op)
    requires op in Before(plan, 6)
    ensures Places(op) <= Targets(plan)
  {
    BeforeFrom(plan, 6);
    hide PullApply.Before, PullApply.Phase, Targets;
    var j :| 1 <= j < 6 && op in Phase(plan, j);
    PhasePlaces(plan, j, op);
  }

  lemma TargetsEnd(d: Disk, plan: Plan, day: int, ps: set<Path>)
    requires Runs(d, Before(plan, 6), day, ps)
    ensures var f := Exec(d, Before(plan, 6), day).disk;
            && (forall w :: w in plan.writes ==> Holds(f.live, w.target, w.hash))
            && (forall m :: m in plan.moves ==> Holds(f.live, m.target, m.hash))
  {
    var ops := Before(plan, 6);
    hide PullApply.Before, PullApply.Exec, Runs;
    forall w | w in plan.writes
      ensures Holds(Exec(d, ops, day).disk.live, w.target, w.hash)
    {
      assert Put(w) in Phase(plan, 3);
      PhaseInBefore(plan, 3, 6, Put(w));
      PlacedEnd(d, ops, day, ps, Put(w), w.target);
    }
    forall m | m in plan.moves
      ensures Holds(Exec(d, ops, day).disk.live, m.target, m.hash)
    {
      PlaceInPhase(plan, m);
      PhaseInBefore(plan, 4, 6, PlaceOp(m, plan.blocking));
      PlacedEnd(d, ops, day, ps, PlaceOp(m, plan.blocking), m.target);
    }
  }

  /** Main result: whatever names the plan uses, a normal return has put every target in place, and it has applied
      the plan if and only if no copy of an edit comes to stay on a path the plan vacates. */
  lemma AppliedIff(d: Disk, plan: Plan, day: int)
    requires WellFormed(plan) && Separated(plan, d, {}) && UniqueCopies(d.doc) && Apply(d, plan, day).Ok()
    ensures var f := Apply(d, plan, day).disk;
            && (forall w :: w in plan.writes ==> Holds(f.live, w.target, w.hash))
            && (forall m :: m in plan.moves ==> Holds(f.live, m.target, m.hash))
            && (forall x :: x in Sources(plan) - Targets(plan) ==> (x !in f.live <==> NoneLands(d, Before(plan, 6), day, x)))
    ensures Applied(plan, Apply(d, plan, day).disk) <==>
              forall x :: x in Sources(plan) - Targets(plan) ==> NoneLands(d, Before(plan, 6), day, x)
  {
    var (ops, ps) := (Before(plan, 6), Targets(plan) + Sources(plan));
    PlanFinds(d, plan);
    assert Runs(d, ops, day, ps);
    hide PullApply.Before, PullApply.Exec, PullPlan.WellFormed, Runs, NoneLands, Targets, Sources, Separated;
    TargetsEnd(d, plan, day, ps);
    forall x | x in Sources(plan) - Targets(plan)
      ensures x !in Exec(d, ops, day).disk.live <==> NoneLands(d, ops, day, x)
    {
      VacatedTouched(plan, x);
      forall op | op in ops { PlacesTargets(plan, op); }
      LiveEnd(d, ops, day, ps, x);
    }
  }
}
