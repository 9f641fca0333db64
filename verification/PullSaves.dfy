/** Exactly when the saves of a run can register their copies, told from the disk the run starts from. */
module PullSaves {
  import opened Basics
  import opened PullPlan
  import opened PullApply
  import opened PullFrames
  import opened PullSuccess
  import opened PullOrder
  import opened PullKept

  /** The iteration finds an edit that it has to save. */
  predicate Needs(d: Disk, op: Op) {
    Dirty(d, Guard(op).path, Guard(op).expected) && !AlreadyWritten(d, op)
  }

  /** The registered copy that already holds the edit. */
  function Known(d: Disk, op: Op): Option<Record>
    requires Needs(d, op)
  {
    FindCopy(d.doc, Guard(op).id, Sha256(d.live[Guard(op).path]))
  }

  /** Where the saves of `ops` put registered copies back. */
  function Restored(d: Disk, ops: seq<Op>): set<Path> {
    set op | op in ops && Needs(d, op) && Known(d, op).Some? :: Known(d, op).value.path
  }

  /** The conflict name a save takes after the iterations `before`. */
  function NameFor(d: Disk, before: seq<Op>, op: Op, day: int): Path {
    NextFree(d.live.Keys + Restored(d, before), Guard(op).path, day, 1)
  }

  /** The edit has a copy already, or the file is in the file map and no record has the name of the new copy. */
  predicate CanSave(d: Disk, before: seq<Op>, op: Op, day: int)
    requires Needs(d, op)
  {
    Known(d, op).Some? || (Knows(d.doc, Guard(op).id) && !Occupied(d.doc, NameFor(d, before, op, day)))
  }

  /** Checkable before the call: every edit in the way of the run can be saved. */
  predicate Registers(d: Disk, ops: seq<Op>, day: int) {
    forall i :: 0 <= i < |ops| && Needs(d, ops[i]) ==> CanSave(d, ops[..i], ops[i], day)
  }

  /** The first free name depends only on which names next to the file are taken. */
  lemma NextFreeSame(a: set<Path>, b: set<Path>, p: Path, day: int)
    requires forall n :: n >= 1 ==> (ConflictName(p, day, n) in a <==> ConflictName(p, day, n) in b)
    ensures NextFree(a, p, day, 1) == NextFree(b, p, day, 1)
  {
    var x, y := NextFree(a, p, day, 1), NextFree(b, p, day, 1);
    assert x == ConflictName(p, day, x.n) && y == ConflictName(p, day, y.n);
  }

  lemma SaveOkIff(d: Disk, op: Op, day: int)
    requires Needs(d, op)
    ensures Save(d, op, day).Ok() <==> CanSave(d, [], op, day)
  {
    assert d.live.Keys + Restored(d, []) == d.live.Keys;
  }

  lemma {:induction false} FindAppend(doc: seq<Record>, x: Record, id: FileId, h: Hash)
    requires !IsCopy(x, id, h)
    ensures FindCopy(doc + [x], id, h) == FindCopy(doc, id, h)
  {
    if doc == [] {
      assert [x][1..] == [] && doc + [x] == [x];
    } else {
      assert (doc + [x])[0] == doc[0] && (doc + [x])[1..] == doc[1..] + [x];
      FindAppend(doc[1..], x, id, h);
    }
  }

  /** The record of a new copy, with the next id drawn. */
  function CopyOf(drawn: nat, t: Tracked, c: Path, bytes: Bytes): Record {
    Record(Generated(drawn), c, ConflictCopy, Some(Sha256(bytes)), Some(t.id))
  }

  /** What a finished save leaves. */
  lemma SaveEffect(d: Disk, op: Op, day: int)
    requires Dirty(d, Guard(op).path, Guard(op).expected) && Save(d, op, day).Ok()
    ensures var (p, t) := (Save(d, op, day).disk, Guard(op));
            match FindCopy(d.doc, t.id, Sha256(d.live[t.path]))
            case Some(r) => p.doc == d.doc && p.live.Keys == d.live.Keys + {r.path}
            case None =>
              var c := NextFree(d.live.Keys, t.path, day, 1);
              p.doc == d.doc + [CopyOf(d.drawn, t, c, d.live[t.path])] && p.live.Keys == d.live.Keys + {c}
  {
  }

  /** What an iteration leaves besides the paths it touches: at most the copy it made or restored. */
  ghost predicate Adds(d: Disk, e: Disk, op: Op, day: int) {
    var t := Guard(op);
    if !Needs(d, op) then
      e.doc == d.doc && forall x :: x !in Touch(op) ==> (x in e.live <==> x in d.live)
    else match Known(d, op)
      case Some(r) =>
        e.doc == d.doc && forall x :: x !in Touch(op) ==> (x in e.live <==> x in d.live || x == r.path)
      case None =>
        var c := NextFree(d.live.Keys, t.path, day, 1);
        && e.doc == d.doc + [CopyOf(d.drawn, t, c, d.live[t.path])]
        && forall x :: x !in Touch(op) ==> (x in e.live <==> x in d.live || x == c)
  }

  lemma StepAdds(d: Disk, op: Op, day: int)
    requires Step(d, op, day).Ok()
    ensures Adds(d, Step(d, op, day).disk, op, day)
  {
    var e := Step(d, op, day).disk;
    StepShape(d, op, day, e);
    assert AlreadyWritten(d, op) ==> e == d;
    hide PullApply.PreserveCopy, PullApply.Step, AfterSave, Adds, AlreadyWritten;
    if AlreadyWritten(d, op) {
      SameAdds(d, op, day);
    } else {
      AfterSaveAdds(d, op, day, e);
    }
  }

  lemma SameAdds(d: Disk, op: Op, day: int)
    requires AlreadyWritten(d, op)
    ensures Adds(d, d, op, day)
  {
  }

  lemma CleanSave(d: Disk, op: Op, day: int)
    requires !Dirty(d, Guard(op).path, Guard(op).expected)
    ensures Save(d, op, day) == Stay(d)
  {
  }

  lemma AfterSaveAdds(d: Disk, op: Op, day: int, e: Disk)
    requires AfterSave(d, op, day, e) && !AlreadyWritten(d, op)
    ensures Adds(d, e, op, day)
  {
    var p := Save(d, op, day).disk;
    hide PullApply.PreserveCopy, AlreadyWritten, Guard, Touch, Save, Dirty;
    forall x | x !in Touch(op)
      ensures x in e.live <==> x in p.live
    {
      assert At(e.live, x) == At(p.live, x);
    }
    if Needs(d, op) {
      SaveEffect(d, op, day);
    } else {
      CleanSave(d, op, day);
    }
  }

  /** The ids of the checked files were drawn before. */
  ghost predicate OldIds(d: Disk, ops: seq<Op>) {
    forall op :: op in ops && Guard(op).expected.Some? && Guard(op).id.Generated? ==> Guard(op).id.serial < d.drawn
  }

  lemma StepDraws(d: Disk, op: Op, day: int)
    ensures Step(d, op, day).disk.drawn >= d.drawn
  {
    var t := Guard(op);
    PreserveDraws(d, t.id, t.path, t.expected, day);
    if op.Put? { PreserveDraws(d, op.w.fileId, op.w.target, op.w.expectedPrevious, day); }
    hide PullApply.PreserveCopy;
  }

  lemma PreserveDraws(d: Disk, id: FileId, p: Path, expected: Option<Hash>, day: int)
    ensures PreserveCopy(d, id, p, expected, day).disk.drawn >= d.drawn
  {
  }

  /** The first iteration done, with the others still to come. */
  ghost predicate Stepped(o: Scope, d: Disk, ops: seq<Op>, day: int, e: Disk) {
    && ops != [] && Ordered(ops) && AllFit(o, ops, day) && AllSafe(o, d, TouchAll(ops))
    && Frame(o, d, e, Touch(ops[0]), Ids(ops[0])) && Adds(d, e, ops[0], day)
  }

  lemma StepStepped(o: Scope, d: Disk, ops: seq<Op>, day: int)
    requires ops != [] && Ordered(ops) && AllFit(o, ops, day) && AllSafe(o, d, TouchAll(ops))
    requires Step(d, ops[0], day).Ok()
    ensures Stepped(o, d, ops, day, Step(d, ops[0], day).disk)
    ensures Ordered(ops[1..]) && AllFit(o, ops[1..], day) && AllSafe(o, Step(d, ops[0], day).disk, TouchAll(ops[1..]))
  {
    var e := Step(d, ops[0], day).disk;
    hide PullApply.Step;
    TouchCons(ops);
    StepAdds(d, ops[0], day);
    StepFrame(o, d, ops[0], day, e);
  }

  /** A later iteration needs the same save as before. */
  lemma NeedsSame(o: Scope, d: Disk, ops: seq<Op>, day: int, e: Disk, op: Op)
    requires Stepped(o, d, ops, day, e) && op in ops[1..]
    ensures Needs(e, op) == Needs(d, op)
    ensures Needs(d, op) ==> e.live[Guard(op).path] == d.live[Guard(op).path] && Known(e, op) == Known(d, op)
  {
    var t := Guard(op);
    if t.expected.Some? {
      CheckStays(o, d, ops, day, e, op);
      if Needs(d, op) && e.doc != d.doc {
        var c := NextFree(d.live.Keys, Guard(ops[0]).path, day, 1);
        FindAppend(d.doc, CopyOf(d.drawn, Guard(ops[0]), c, d.live[Guard(ops[0]).path]), t.id, Sha256(d.live[t.path]));
      }
    }
  }

  lemma CheckStays(o: Scope, d: Disk, ops: seq<Op>, day: int, e: Disk, op: Op)
    requires Stepped(o, d, ops, day, e) && op in ops[1..] && Guard(op).expected.Some?
    ensures At(e.live, Guard(op).path) == At(d.live, Guard(op).path)
    ensures op.Put? ==> At(e.staging, op.w.fileId) == At(d.staging, op.w.fileId)
    ensures Guard(ops[0]).expected.Some? ==> Guard(ops[0]).id != Guard(op).id
    ensures Guard(ops[0]).path != Guard(op).path
  {
    assert Spares(ops[0], op);
    TouchCons(ops);
    assert Guard(op).path in Touch(op) && Guard(op).path in TouchAll(ops[1..]);
    assert Guard(ops[0]).path in Touch(ops[0]);
  }

  lemma RestoredCons(o: Scope, d: Disk, ops: seq<Op>, day: int, e: Disk, i: nat)
    requires Stepped(o, d, ops, day, e) && 1 <= i <= |ops|
    ensures Restored(d, ops[..i]) == Restored(e, ops[1..i]) +
              if Needs(d, ops[0]) && Known(d, ops[0]).Some? then {Known(d, ops[0]).value.path} else {}
  {
    var (all, rest) := (ops[..i], ops[1..i]);
    assert all == [ops[0]] + rest;
    forall op | op in rest
      ensures Needs(e, op) == Needs(d, op) && (Needs(d, op) ==> Known(e, op) == Known(d, op))
    {
      assert op in ops[1..];
      NeedsSame(o, d, ops, day, e, op);
    }
    hide Needs, Known, Stepped;
    var own := if Needs(d, ops[0]) && Known(d, ops[0]).Some? then {Known(d, ops[0]).value.path} else {};
    forall x | x in Restored(d, all)
      ensures x in Restored(e, rest) + own
    {
      var op :| op in all && Needs(d, op) && Known(d, op).Some? && x == Known(d, op).value.path;
    }
    forall x | x in Restored(e, rest)
      ensures x in Restored(d, all)
    {
      var op :| op in rest && Needs(e, op) && Known(e, op).Some? && x == Known(e, op).value.path;
      assert op in all;
    }
  }

  /** A later save takes the name foreseen at the start. */
  lemma NameSame(o: Scope, d: Disk, ops: seq<Op>, day: int, e: Disk, i: nat)
    requires Stepped(o, d, ops, day, e) && 1 <= i < |ops| && Guard(ops[i]).expected.Some?
    ensures NameFor(e, ops[1..i], ops[i], day) == NameFor(d, ops[..i], ops[i], day)
  {
    var p := Guard(ops[i]).path;
    var (a, b) := (e.live.Keys + Restored(e, ops[1..i]), d.live.Keys + Restored(d, ops[..i]));
    RestoredCons(o, d, ops, day, e, i);
    assert ops[i] in ops[1..];
    CheckStays(o, d, ops, day, e, ops[i]);
    TouchCons(ops);
    assert o.Has(Guard(ops[i]), day);
    hide Restored, Known, Needs, TouchAll;
    forall n | n >= 1
      ensures ConflictName(p, day, n) in a <==> ConflictName(p, day, n) in b
    {
      var x := ConflictName(p, day, n);
      assert o.Covers(x) && x !in Touch(ops[0]);
    }
    NextFreeSame(a, b, p, day);
  }

  lemma RecordsSame(o: Scope, d: Disk, ops: seq<Op>, day: int, e: Disk, op: Op, c: Path)
    requires Stepped(o, d, ops, day, e) && op in ops[1..] && Guard(op).expected.Some?
    requires c.ConflictName? && c.original == Guard(op).path
    ensures Occupied(e.doc, c) <==> Occupied(d.doc, c)
    ensures Knows(d.doc, Guard(op).id) ==> Knows(e.doc, Guard(op).id)
    ensures OldIds(d, ops) && Knows(e.doc, Guard(op).id) ==> Knows(d.doc, Guard(op).id)
  {
    CheckStays(o, d, ops, day, e, op);
    if e.doc != d.doc {
      var n := NextFree(d.live.Keys, Guard(ops[0]).path, day, 1);
      var x := CopyOf(d.drawn, Guard(ops[0]), n, d.live[Guard(ops[0]).path]);
      assert e.doc == d.doc + [x];
      assert o.Has(Guard(ops[0]), day) && o.Covers(n);
      hide Stepped, Ordered, TouchAll;
      assert forall r :: r in d.doc ==> r in e.doc;
      assert forall r :: r in e.doc ==> r in d.doc || r == x;
    }
  }

  lemma CanSaveSame(o: Scope, d: Disk, ops: seq<Op>, day: int, e: Disk, i: nat)
    requires Stepped(o, d, ops, day, e) && 1 <= i < |ops| && Needs(d, ops[i])
    ensures Needs(e, ops[i])
    ensures CanSave(d, ops[..i], ops[i], day) ==> CanSave(e, ops[1..i], ops[i], day)
    ensures OldIds(d, ops) && CanSave(e, ops[1..i], ops[i], day) ==> CanSave(d, ops[..i], ops[i], day)
  {
    assert ops[i] in ops[1..];
    NeedsSame(o, d, ops, day, e, ops[i]);
    NameSame(o, d, ops, day, e, i);
    hide Stepped, Known, OldIds;
    RecordsSame(o, d, ops, day, e, ops[i], NameFor(d, ops[..i], ops[i], day));
  }

  /** After one iteration the rest can save what it needs to if it could at the start. */
  lemma RegistersTail(o: Scope, d: Disk, ops: seq<Op>, day: int, e: Disk)
    requires Stepped(o, d, ops, day, e)
    ensures Registers(d, ops, day) ==> Registers(e, ops[1..], day)
    ensures OldIds(d, ops) && Registers(e, ops[1..], day) && (Needs(d, ops[0]) ==> CanSave(d, [], ops[0], day)) ==>
              Registers(d, ops, day)
  {
    var rest := ops[1..];
    forall i | 1 <= i < |ops|
      ensures Needs(e, rest[i - 1]) == Needs(d, ops[i]) && rest[..i - 1] == ops[1..i] && rest[i - 1] == ops[i]
    {
      NeedsSame(o, d, ops, day, e, ops[i]);
    }
    forall i | 1 <= i < |ops| && Needs(d, ops[i])
      ensures CanSave(d, ops[..i], ops[i], day) ==> CanSave(e, ops[1..i], ops[i], day)
      ensures OldIds(d, ops) && CanSave(e, ops[1..i], ops[i], day) ==> CanSave(d, ops[..i], ops[i], day)
    {
      CanSaveSame(o, d, ops, day, e, i);
    }
    hide Needs, CanSave, Stepped, OldIds;
    if Registers(d, ops, day) {
      forall k | 0 <= k < |rest| && Needs(e, rest[k])
        ensures CanSave(e, rest[..k], rest[k], day)
      {
        assert Needs(d, ops[k + 1]) && CanSave(d, ops[..k + 1], ops[k + 1], day);
      }
    }
    if OldIds(d, ops) && Registers(e, rest, day) && (Needs(d, ops[0]) ==> CanSave(d, [], ops[0], day)) {
      forall i | 0 <= i < |ops| && Needs(d, ops[i])
        ensures CanSave(d, ops[..i], ops[i], day)
      {
        if i == 0 {
          assert ops[..0] == [];
        } else {
          assert CanSave(e, rest[..i - 1], rest[i - 1], day);
        }
      }
    }
  }

  /** After some iterations the rest can save what it needs to. */
  lemma {:induction false} RegistersRest(o: Scope, d: Disk, a: seq<Op>, b: seq<Op>, day: int)
    requires Ordered(a + b) && AllFit(o, a + b, day) && AllSafe(o, d, TouchAll(a + b))
    requires Registers(d, a + b, day) && Exec(d, a, day).Ok()
    ensures Registers(Exec(d, a, day).disk, b, day)
    decreases |a|
  {
    hide Registers, Ordered, AllFit, AllSafe, TouchAll, PullApply.Step;
    if a == [] {
      assert a + b == b;
    } else {
      var e := Step(d, a[0], day).disk;
      assert (a + b)[0] == a[0] && (a + b)[1..] == a[1..] + b;
      StepStepped(o, d, a + b, day);
      RegistersTail(o, d, a + b, day, e);
      RegistersRest(o, e, a[1..], b, day);
    }
  }

  lemma RegistersPrefix(d: Disk, a: seq<Op>, b: seq<Op>, day: int)
    requires Registers(d, a + b, day)
    ensures Registers(d, a, day)
  {
    forall i | 0 <= i < |a| && Needs(d, a[i])
      ensures CanSave(d, a[..i], a[i], day)
    {
      assert (a + b)[i] == a[i] && (a + b)[..i] == a[..i];
    }
  }
}
