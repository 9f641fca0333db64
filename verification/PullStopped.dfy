/** What edits have come to wherever a run stops: at every crash point and when it fails. */
module PullStopped {
  import opened Basics
  import opened PullPlan
  import opened PullApply
  import opened PullFrames
  import opened PullSuccess
  import opened PullOrder
  import opened PullKept
  import opened PullSaves
  import opened PullReady
  import opened PullLost

  /** The state between the two file operations of a direct move from an edited source:
      the target is placed, the source is still there. */
  predicate Midway(e: Disk, op: Op, day: int, s: Disk) {
    && op.Shift? && op.m.source != op.m.target && Dirty(e, op.m.source, Some(op.m.hash))
    && Save(e, op, day).Ok() && Holds(e.staging, op.m.fileId, op.m.hash)
    && s == Store(Save(e, op, day).disk, op.m.target, e.staging[op.m.fileId])
  }

  /** The placing half of a move. */
  function Half(op: Op): Op
    requires op.Shift?
  {
    Put(WriteItem(op.m.fileId, op.m.target, op.m.hash, None, None))
  }

  /** `s` is a state of the run in which the first `k` iterations are done, and `past` is what has happened to its paths. */
  ghost predicate Stopped(d: Disk, ops: seq<Op>, day: int, k: nat, past: seq<Op>, s: Disk) {
    k <= |ops| && Exec(d, ops[..k], day).Ok() &&
    var e := Exec(d, ops[..k], day).disk;
    if past == ops[..k] then s == e || (k < |ops| && Save(e, ops[k], day).Visits(s))
    else k < |ops| && Midway(e, ops[k], day, s) && past == ops[..k] + [Half(ops[k])]
  }

  /** Inside an iteration: its start, its save, its end, or halfway through a move. */
  lemma StepStates(d: Disk, op: Op, day: int, s: Disk)
    requires Step(d, op, day).Visits(s) && (op.Shift? ==> op.m.source != op.m.target)
    ensures s == d || Save(d, op, day).Visits(s) || (Step(d, op, day).Ok() && s == Step(d, op, day).disk) || Midway(d, op, day, s)
    ensures !Step(d, op, day).Ok() ==> Step(d, op, day).disk == d || Save(d, op, day).Visits(Step(d, op, day).disk)
  {
    if !Dirty(d, Guard(op).path, Guard(op).expected) { CleanSave(d, op, day); }
    hide Save, Midway;
    match op
    case Stage(m) => StageStates(d, m, day, s);
    case Remove(i) => RemoveStates(d, i, day, s);
    case Put(w) => PutStates(d, w, day, s);
    case Land(m) =>
    case Shift(m) => ShiftStates(d, m, day, s);
  }

  lemma RemoveStates(d: Disk, i: DeleteItem, day: int, s: Disk)
    requires RemoveFile(d, i, day).Visits(s)
    ensures var r := RemoveFile(d, i, day);
            && (s == d || Save(d, Remove(i), day).Visits(s) || (r.Ok() && s == r.disk))
            && (!r.Ok() ==> r.disk == d || Save(d, Remove(i), day).Visits(r.disk))
  {
    hide PullApply.PreserveCopy;
  }

  lemma PutStates(d: Disk, w: WriteItem, day: int, s: Disk)
    requires PutFile(d, w, day).Visits(s)
    ensures var r := PutFile(d, w, day);
            && (s == d || Save(d, Put(w), day).Visits(s) || (r.Ok() && s == r.disk))
            && (!r.Ok() ==> r.disk == d || Save(d, Put(w), day).Visits(r.disk))
  {
    hide PullApply.PreserveCopy;
  }

  lemma StageStates(d: Disk, m: MoveItem, day: int, s: Disk)
    requires StageMove(d, m, day).Visits(s)
    requires !Dirty(d, m.source, Some(m.hash)) ==> Save(d, Stage(m), day) == Stay(d)
    ensures var r := StageMove(d, m, day);
            && (s == d || Save(d, Stage(m), day).Visits(s) || (r.Ok() && s == r.disk))
            && (!r.Ok() ==> r.disk == d || Save(d, Stage(m), day).Visits(r.disk))
  {
    hide PullApply.PreserveCopy;
  }

  lemma SaveStaging(d: Disk, op: Op, day: int)
    ensures Save(d, op, day).disk.staging == d.staging
  {
  }

  lemma ShiftStates(d: Disk, m: MoveItem, day: int, s: Disk)
    requires PlaceDirect(d, m, day).Visits(s) && m.source != m.target
    requires !Dirty(d, m.source, Some(m.hash)) ==> Save(d, Shift(m), day) == Stay(d)
    ensures var r := PlaceDirect(d, m, day);
            && (s == d || Save(d, Shift(m), day).Visits(s) || (r.Ok() && s == r.disk) || Midway(d, Shift(m), day, s))
            && (!r.Ok() ==> r.disk == d || Save(d, Shift(m), day).Visits(r.disk))
  {
    SaveStaging(d, Shift(m), day);
    hide PullApply.PreserveCopy;
  }

  /** Every state of a run is one where some number of its iterations are done. */
  lemma {:induction false} StoppedSomewhere(d: Disk, ops: seq<Op>, day: int, s: Disk) returns (k: nat, past: seq<Op>)
    requires Exec(d, ops, day).Visits(s) && forall op :: op in ops && op.Shift? ==> op.m.source != op.m.target
    ensures Stopped(d, ops, day, k, past, s)
    ensures !Exec(d, ops, day).Ok() && s == Exec(d, ops, day).disk ==> k < |ops| && past == ops[..k]
    decreases |ops|
  {
    k, past := 0, [];
    assert ops[..0] == [] && Exec(d, [], day) == Stay(d);
    if ops != [] {
      var r := Step(d, ops[0], day);
      assert ops[0] in ops;
      hide PullApply.Step, Midway;
      if r.Ok() && Exec(r.disk, ops[1..], day).Visits(s) {
        var j, rest := StoppedSomewhere(r.disk, ops[1..], day, s);
        k, past := j + 1, [ops[0]] + rest;
        LaterStop(d, ops, day, j, rest, s);
      } else {
        assert r.Visits(s);
        StepStates(d, ops[0], day, s);
        if s != d && !Save(d, ops[0], day).Visits(s) {
          if Midway(d, ops[0], day, s) && !(r.Ok() && s == r.disk) {
            past := [Half(ops[0])];
            assert ops[..0] + [Half(ops[0])] == past;
          } else {
            k, past := 1, [ops[0]];
            OneDone(d, ops, day);
          }
        }
      }
    }
  }

  lemma OneDone(d: Disk, ops: seq<Op>, day: int)
    requires ops != [] && Step(d, ops[0], day).Ok()
    ensures ops[..1] == [ops[0]] && Exec(d, ops[..1], day).Ok() && Exec(d, ops[..1], day).disk == Step(d, ops[0], day).disk
  {
    assert [ops[0]][1..] == [];
    hide PullApply.Step;
    assert Exec(Step(d, ops[0], day).disk, [], day) == Stay(Step(d, ops[0], day).disk);
  }

  lemma LaterStop(d: Disk, ops: seq<Op>, day: int, j: nat, rest: seq<Op>, s: Disk)
    requires ops != [] && Step(d, ops[0], day).Ok() && Stopped(Step(d, ops[0], day).disk, ops[1..], day, j, rest, s)
    ensures Stopped(d, ops, day, j + 1, [ops[0]] + rest, s)
    ensures rest == ops[1..][..j] ==> [ops[0]] + rest == ops[..j + 1]
  {
    var (e, a) := (Step(d, ops[0], day).disk, ops[..j + 1]);
    assert a[0] == ops[0] && a[1..] == ops[1..][..j] && a == [ops[0]] + ops[1..][..j];
    hide PullApply.Step, Midway;
    assert Exec(d, a, day).disk == Exec(e, ops[1..][..j], day).disk && Exec(d, a, day).Ok();
    if rest != ops[1..][..j] {
      assert [ops[0]] + rest == a + [Half(ops[j + 1])];
      assert |[ops[0]] + rest| == j + 2;
    }
  }

  // The fate of an edit through the save of a later iteration, and through half a move.

  /** The save of another file changes neither the copies of this one nor what stands at `x`. */
  lemma SaveApart(d: Disk, op: Op, day: int, s: Disk, id: FileId, x: Path)
    requires Save(d, op, day).Visits(s) && (Guard(op).expected.Some? ==> Guard(op).id != id)
    requires x in d.live || (x.ConflictName? && x.original != Guard(op).path)
    requires forall r :: r in d.doc && r.status == ConflictCopy && r.conflictOf == Some(Guard(op).id) ==> r.path != x
    ensures At(s.live, x) == At(d.live, x)
    ensures forall r: Record :: r.conflictOf == Some(id) ==> (r in s.doc <==> r in d.doc)
    ensures x.ConflictName? && x.original != Guard(op).path ==> forall r: Record :: r.path == x ==> (r in s.doc <==> r in d.doc)
  {
    var t := Guard(op);
    if Dirty(d, t.path, t.expected) {
      hide PullApply.PreserveCopy;
      match FindCopy(d.doc, t.id, Sha256(d.live[t.path]))
      case Some(r) => KnownCopyShape(d, t.id, t.path, t.expected, day, s, r);
      case None => NewCopyShape(d, t.id, t.path, t.expected, day, s, NextFree(d.live.Keys, t.path, day, 1));
    }
  }

  /** A copy off the plan's paths outlives the save of another file. */
  lemma SaveCopyOff(d: Disk, op: Op, day: int, s: Disk, id: FileId, bytes: Bytes, ps: set<Path>)
    requires Save(d, op, day).Visits(s) && UniqueCopies(d.doc) && CopyOff(d, id, bytes, ps)
    ensures CopyOff(s, id, bytes, ps)
  {
    var t := Guard(op);
    var r :| r in d.doc && IsCopy(r, id, Sha256(bytes)) && r.path !in ps && At(d.live, r.path) == Some(bytes);
    if Dirty(d, t.path, t.expected) {
      hide PullApply.PreserveCopy;
      match FindCopy(d.doc, t.id, Sha256(d.live[t.path]))
      case Some(q) => KnownCopyShape(d, t.id, t.path, t.expected, day, s, q);
      case None => NewCopyShape(d, t.id, t.path, t.expected, day, s, NextFree(d.live.Keys, t.path, day, 1));
    }
    assert r in s.doc && At(s.live, r.path) == Some(bytes);
  }

  lemma FateSave(d: Disk, op: Op, bytes: Bytes, known: bool, c: Path, past: seq<Op>, ps: set<Path>, next: Op, day: int, s: Disk)
    requires Fate(d, op, bytes, known, c, past, ps) && UniqueCopies(d.doc) && Save(d, next, day).Visits(s)
    requires Guard(next).expected.Some? ==>
      Guard(next).id != Guard(op).id && Guard(next).path != Guard(op).path &&
      forall r :: r in d.doc && r.status == ConflictCopy && r.conflictOf == Some(Guard(next).id) ==> r.path !in ps
    requires Guard(op).path in ps && c.ConflictName? && c.original == Guard(op).path
    ensures Fate(s, op, bytes, known, c, past, ps)
  {
    var t := Guard(op);
    if Guard(next).expected.None? {
      CleanSave(d, next, day);
    } else if Planned(op, bytes) {
      SaveApart(d, next, day, s, t.id, t.path);
    } else if known {
      SaveCopyOff(d, next, day, s, t.id, bytes, ps);
    } else {
      hide Undisturbed, PullApply.PreserveCopy, Save;
      SaveApart(d, next, day, s, t.id, c);
      assert forall r :: r in s.doc && IsCopy(r, t.id, Sha256(bytes)) ==> r in d.doc;
    }
  }

  lemma FateHalf(d: Disk, op: Op, bytes: Bytes, known: bool, c: Path, past: seq<Op>, ps: set<Path>, half: Op, s: Disk)
    requires Fate(d, op, bytes, known, c, past, ps) && half.Put?
    requires s.doc == d.doc && s.live == d.live[half.w.target := half.w.hash.preimage]
    requires half.w.target in ps && (Planned(op, bytes) ==> half.w.target != Guard(op).path)
    requires forall o :: o in past ==> half.w.target !in Places(o)
    ensures Fate(s, op, bytes, known, c, past + [half], ps)
  {
    var x := half.w.target;
    assert forall o :: o in past + [half] <==> o in past || o == half;
    assert TouchAll(past + [half]) == TouchAll(past) + {x} by { assert Touch(half) == {x}; }
    if !Planned(op, bytes) && !known {
      assert x == c ==> half in past + [half] && c in Places(half);
    }
  }

  lemma ClearPrefix(d: Disk, ops: seq<Op>, k: nat, ps: set<Path>)
    requires k <= |ops| && Ordered(ops) && Clear(d, ops, ps) && TouchAll(ops) <= ps
    ensures Ordered(ops[..k]) && Clear(d, ops[..k], ps) && TouchAll(ops[..k]) <= ps
  {
    OrderedPrefix(ops, k);
    assert forall op :: op in ops[..k] ==> op in ops;
    hide Ordered;
  }

  lemma {:induction false} OrderedPrefix(ops: seq<Op>, k: nat)
    requires k <= |ops| && Ordered(ops)
    ensures Ordered(ops[..k])
  {
    hide Spares;
    if k > 0 {
      assert ops[..k][0] == ops[0] && ops[..k][1..] == ops[1..][..k - 1];
      assert forall op :: op in ops[1..][..k - 1] ==> op in ops[1..];
      OrderedPrefix(ops[1..], k - 1);
    }
  }

  lemma {:induction false} SparesAt(ops: seq<Op>, i: nat, k: nat)
    requires i < k < |ops| && Ordered(ops)
    ensures Spares(ops[i], ops[k])
  {
    hide Spares;
    if i == 0 {
      assert ops[k] in ops[1..];
    } else {
      SparesAt(ops[1..], i - 1, k - 1);
    }
  }

  /** The copies that a later iteration may restore are still off the plan's paths when it starts. */
  lemma {:induction false} ClearAt(d: Disk, ops: seq<Op>, k: nat, day: int, ps: set<Path>)
    requires k <= |ops| && Ordered(ops) && Clear(d, ops, ps) && Exec(d, ops[..k], day).Ok()
    ensures Clear(Exec(d, ops[..k], day).disk, ops[k..], ps)
    decreases k
  {
    if k == 0 {
      assert ops[..0] == [] && ops[0..] == ops;
    } else {
      hide Clear, PullApply.Step, PullApply.Exec, Ordered;
      FirstDone(d, ops, k, day);
      ClearStep(d, ops, day, ps);
      ClearAt(Step(d, ops[0], day).disk, ops[1..], k - 1, day, ps);
    }
  }

  lemma ClearFirst(d: Disk, ops: seq<Op>, ps: set<Path>)
    requires ops != [] && Clear(d, ops, ps)
    ensures UniqueCopies(d.doc)
    ensures Guard(ops[0]).expected.Some? ==>
              forall r :: r in d.doc && r.status == ConflictCopy && r.conflictOf == Some(Guard(ops[0]).id) ==> r.path !in ps
  {
    assert ops[0] in ops;
  }

  // The edit before its iteration.

  lemma {:induction false} InPlaceAt(d: Disk, ops: seq<Op>, k: nat, i: nat, day: int, ps: set<Path>)
    requires k <= i < |ops| && Ordered(ops) && Clear(d, ops, ps) && TouchAll(ops) <= ps && Exec(d, ops[..k], day).Ok()
    requires Dirty(d, Guard(ops[i]).path, Guard(ops[i]).expected)
    ensures At(Exec(d, ops[..k], day).disk.live, Guard(ops[i]).path) == Some(Edit(d, ops[i]))
    decreases k
  {
    var t := Guard(ops[i]);
    if k > 0 {
      var e := Step(d, ops[0], day).disk;
      hide Clear, PullApply.Step, PullApply.Exec, Ordered, TouchAll, UniqueCopies;
      FirstDone(d, ops, k, day);
      TouchCons(ops);
      SparedFacts(ops, i);
      PathNotOwned(d, ops, i, ps);
      ClearStep(d, ops, day, ps);
      StillStep(d, ops[0], day, t.path);
      InPlaceAt(e, ops[1..], k - 1, i - 1, day, ps);
    }
  }

  /** A save leaves every checked file in place. */
  lemma SaveInPlace(e: Disk, op: Op, day: int, s: Disk, x: Path)
    requires Save(e, op, day).Visits(s) && x in e.live
    requires Guard(op).expected.Some? ==>
      forall r :: r in e.doc && r.status == ConflictCopy && r.conflictOf == Some(Guard(op).id) ==> r.path != x
    ensures At(s.live, x) == At(e.live, x)
  {
    var t := Guard(op);
    if Dirty(e, t.path, t.expected) {
      hide PullApply.PreserveCopy;
      match FindCopy(e.doc, t.id, Sha256(e.live[t.path]))
      case Some(r) => KnownCopyShape(e, t.id, t.path, t.expected, day, s, r);
      case None => NewCopyShape(e, t.id, t.path, t.expected, day, s, NextFree(e.live.Keys, t.path, day, 1));
    }
  }

  // The main results.

  /** A run of iterations on the paths `ps`, stopped at `s` with the first `k` done. */
  ghost predicate StoppedOn(d: Disk, ops: seq<Op>, day: int, k: nat, past: seq<Op>, s: Disk, ps: set<Path>) {
    Stopped(d, ops, day, k, past, s) && Ordered(ops) && Clear(d, ops, ps) && TouchAll(ops) <= ps &&
    forall op :: op in ops && op.Shift? ==> op.m.source != op.m.target
  }

  /** What a later iteration leaves alone of one whose file it does not check. */
  lemma LaterApart(d: Disk, ops: seq<Op>, day: int, k: nat, past: seq<Op>, s: Disk, ps: set<Path>)
    requires StoppedOn(d, ops, day, k, past, s, ps) && k < |ops|
    ensures var e := Exec(d, ops[..k], day).disk;
            UniqueCopies(e.doc) && (Guard(ops[k]).expected.Some? ==>
              forall r :: r in e.doc && r.status == ConflictCopy && r.conflictOf == Some(Guard(ops[k]).id) ==> r.path !in ps)
  {
    hide PullApply.Exec, Clear, Ordered, TouchAll;
    ClearAt(d, ops, k, day, ps);
    ClearFirst(Exec(d, ops[..k], day).disk, ops[k..], ps);
  }

  /** An edit whose iteration is still to come is in place. */
  lemma StillInPlace(d: Disk, ops: seq<Op>, day: int, k: nat, past: seq<Op>, s: Disk, ps: set<Path>, i: nat)
    requires StoppedOn(d, ops, day, k, past, s, ps) && k <= i < |ops|
    requires Dirty(d, Guard(ops[i]).path, Guard(ops[i]).expected)
    ensures At(s.live, Guard(ops[i]).path) == Some(Edit(d, ops[i]))
  {
    var (e, x) := (Exec(d, ops[..k], day).disk, Guard(ops[i]).path);
    InPlaceAt(d, ops, k, i, day, ps);
    LaterApart(d, ops, day, k, past, s, ps);
    GuardIn(ops, i, ps);
    if i > k { SparesAt(ops, k, i); }
    hide PullApply.Exec, Clear, Ordered, TouchAll, Save;
    if Save(e, ops[k], day).Visits(s) { SaveInPlace(e, ops[k], day, s, x); }
    if Midway(e, ops[k], day, s) { SaveInPlace(e, ops[k], day, Save(e, ops[k], day).disk, x); }
  }

  /** The fate of an edit whose iteration is done. */
  lemma FateStopped(d: Disk, ops: seq<Op>, day: int, k: nat, past: seq<Op>, s: Disk, ps: set<Path>, i: nat)
    requires StoppedOn(d, ops, day, k, past, s, ps) && i < k
    requires Dirty(d, Guard(ops[i]).path, Guard(ops[i]).expected)
    ensures |past| >= k && past[..k] == ops[..k]
    ensures var (t, bytes) := (Guard(ops[i]), Edit(d, ops[i]));
            Fate(s, ops[i], bytes, FindCopy(d.doc, t.id, Sha256(bytes)).Some?, CopyName(d, past[..i], ops[i], day), past[i..], ps)
  {
    var (e, t, bytes) := (Exec(d, ops[..k], day).disk, Guard(ops[i]), Edit(d, ops[i]));
    var (known, c) := (FindCopy(d.doc, t.id, Sha256(bytes)).Some?, CopyName(d, ops[..i], ops[i], day));
    assert t.expected.Some? && c.ConflictName? && c.original == t.path;
    ClearPrefix(d, ops, k, ps);
    assert ops[..k][i] == ops[i] && ops[..k][..i] == ops[..i];
    assert past[..i] == ops[..i];
    assert past == ops[..k] || past[i..] == ops[..k][i..] + [Half(ops[k])];
    GuardIn(ops, i, ps);
    hide PullApply.Exec, Clear, Ordered, TouchAll, Save, Fate, Undisturbed, CopyName, Midway, Dirty;
    FateAt(d, ops[..k], i, day, ps);
    assert Fate(e, ops[i], bytes, known, c, ops[..k][i..], ps);
    if k < |ops| {
      LaterApart(d, ops, day, k, past, s, ps);
      GuardsApart(ops, i, k);
      if past == ops[..k] {
        if Save(e, ops[k], day).Visits(s) { FateSave(e, ops[i], bytes, known, c, ops[..k][i..], ps, ops[k], day, s); }
      } else {
        HalfApart(ops, i, k, ps);
        FateMidway(e, ops[i], bytes, known, c, ops[..k][i..], ps, ops[k], day, s);
      }
    }
  }

  lemma FateMidway(d: Disk, op: Op, bytes: Bytes, known: bool, c: Path, past: seq<Op>, ps: set<Path>, next: Op, day: int, s: Disk)
    requires Fate(d, op, bytes, known, c, past, ps) && UniqueCopies(d.doc) && Midway(d, next, day, s)
    requires Guard(next).expected.Some? ==>
      Guard(next).id != Guard(op).id && Guard(next).path != Guard(op).path &&
      forall r :: r in d.doc && r.status == ConflictCopy && r.conflictOf == Some(Guard(next).id) ==> r.path !in ps
    requires Guard(op).path in ps && c.ConflictName? && c.original == Guard(op).path
    requires next.m.target in ps && (op.Put? ==> next.m.target != Guard(op).path)
    requires forall o :: o in past ==> next.m.target !in Places(o)
    ensures Fate(s, op, bytes, known, c, past + [Half(next)], ps)
  {
    var p := Save(d, next, day).disk;
    hide Fate, Save, UniqueCopies;
    FateSave(d, op, bytes, known, c, past, ps, next, day, p);
    FateHalf(p, op, bytes, known, c, past, ps, Half(next), s);
  }

  lemma GuardsApart(ops: seq<Op>, i: nat, k: nat)
    requires i < k < |ops| && Ordered(ops) && Guard(ops[i]).expected.Some?
    ensures Guard(ops[k]).expected.Some? ==> Guard(ops[k]).id != Guard(ops[i]).id && Guard(ops[k]).path != Guard(ops[i]).path
  {
    SparesAt(ops, i, k);
    assert Guard(ops[i]).path in Touch(ops[i]);
  }

  lemma HalfApart(ops: seq<Op>, i: nat, k: nat, ps: set<Path>)
    requires i < k < |ops| && Ordered(ops) && ops[k].Shift? && TouchAll(ops) <= ps
    ensures ops[k].m.target in ps && forall o :: o in ops[..k][i..] ==> ops[k].m.target !in Places(o)
    ensures ops[i].Put? ==> ops[k].m.target != Guard(ops[i]).path
  {
    GuardIn(ops, k, ps);
    hide Ordered, TouchAll;
    forall j | 0 <= j < k
      ensures ops[k].m.target !in Places(ops[j])
    {
      SparesAt(ops, j, k);
    }
    assert forall o :: o in ops[..k][i..] ==> exists j :: 0 <= j < k && o == ops[j];
  }

  /** Main result: wherever a run is stopped, by a crash at any file operation or by an error, and whatever names its plan
      uses, an edit whose iteration is not done is in place, and any other is saved if and only if it is the planned
      content itself, has a copy already, or got a name that what has happened since leaves alone. */
  lemma EditWhenStopped(d: Disk, plan: Plan, i: nat, day: int, s: Disk) returns (k: nat, past: seq<Op>)
    requires WellFormed(plan) && Separated(plan, d, {}) && UniqueCopies(d.doc) && Apply(d, plan, day).Visits(s)
    requires i < |Before(plan, 6)| && Dirty(d, Guard(Before(plan, 6)[i]).path, Guard(Before(plan, 6)[i]).expected)
    ensures Stopped(d, Before(plan, 6), day, k, past, s)
    ensures !Apply(d, plan, day).Ok() && s == Apply(d, plan, day).disk ==> k < |Before(plan, 6)| && past == Before(plan, 6)[..k]
    ensures k <= i ==> At(s.live, Guard(Before(plan, 6)[i]).path) == Some(Edit(d, Before(plan, 6)[i]))
    ensures i < k ==> i < |past| && past[i] == Before(plan, 6)[i] && (Saved(s, past[i], Edit(d, past[i])) <==> Lasts(d, past, i, day))
  {
    var (ops, ps) := (Before(plan, 6), Targets(plan) + Sources(plan));
    PlanFinds(d, plan);
    hide PullApply.Before, PullApply.Exec, PullPlan.WellFormed, Ordered, Clear, TouchAll, Stopped, CopyName, Fate, Undisturbed, Saved, Dirty;
    k, past := StoppedSomewhere(d, ops, day, s);
    assert StoppedOn(d, ops, day, k, past, s, ps);
    if k <= i {
      StillInPlace(d, ops, day, k, past, s, ps, i);
    } else {
      FateStopped(d, ops, day, k, past, s, ps, i);
      assert past[i] == past[..k][i];
      FateSaved(s, ops[i], Edit(d, ops[i]), FindCopy(d.doc, Guard(ops[i]).id, Sha256(Edit(d, ops[i]))).Some?,
                CopyName(d, past[..i], ops[i], day), past[i..], ps);
    }
  }
}
