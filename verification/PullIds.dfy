/** Every copy a pull registers gets an id of its own. */
module PullIds {
  import opened Basics
  import opened PullPlan
  import opened PullApply
  import opened PullFrames
  import opened PullOrder
  import opened PullKept

  /** No two records share an id, and the ids still to be drawn are new. */
  ghost predicate OwnIds(d: Disk) {
    && (forall i, j :: 0 <= i < j < |d.doc| ==> d.doc[i].fileId != d.doc[j].fileId)
    && (forall r :: r in d.doc && r.fileId.Generated? ==> r.fileId.serial < d.drawn)
  }

  lemma SaveDoc(d: Disk, op: Op, day: int, s: Disk)
    requires Save(d, op, day).Visits(s)
    ensures (s.doc == d.doc && s.drawn == d.drawn)
            || (|s.doc| == |d.doc| + 1 && s.doc == d.doc + [s.doc[|d.doc|]] && s.doc[|d.doc|].fileId == Generated(d.drawn) && s.drawn == d.drawn + 1)
  {
    var t := Guard(op);
    if Dirty(d, t.path, t.expected) {
      hide PullApply.PreserveCopy, Dirty;
      match FindCopy(d.doc, t.id, Sha256(d.live[t.path]))
      case Some(r) => KnownCopyShape(d, t.id, t.path, t.expected, day, s, r);
      case None => NewCopyShape(d, t.id, t.path, t.expected, day, s, NextFree(d.live.Keys, t.path, day, 1));
    }
  }

  lemma SaveIds(d: Disk, op: Op, day: int, s: Disk)
    requires OwnIds(d) && Save(d, op, day).Visits(s)
    ensures OwnIds(s) && d.doc <= s.doc && s.drawn >= d.drawn
  {
    SaveDoc(d, op, day, s);
    hide PullFrames.Save;
    if s.doc != d.doc {
      assert forall r :: r in s.doc ==> r in d.doc || r == s.doc[|d.doc|];
      assert forall i :: 0 <= i < |d.doc| ==> s.doc[i] == d.doc[i] && d.doc[i] in d.doc;
    }
  }

  lemma StepIds(d: Disk, op: Op, day: int, s: Disk)
    requires OwnIds(d) && Step(d, op, day).Visits(s)
    ensures OwnIds(s) && d.doc <= s.doc && s.drawn >= d.drawn
  {
    var p := Save(d, op, day);
    StepShape(d, op, day, s);
    SaveIds(d, op, day, p.disk);
    if p.Visits(s) { SaveIds(d, op, day, s); }
    hide PullApply.Step, PullFrames.Save, OwnIds;
    assert AfterSave(d, op, day, s) ==> s.doc == p.disk.doc && s.drawn == p.disk.drawn;
    if AfterSave(d, op, day, s) { SameIds(p.disk, s); }
  }

  lemma SameIds(d: Disk, s: Disk)
    requires OwnIds(d) && s.doc == d.doc && s.drawn == d.drawn
    ensures OwnIds(s)
  {
  }

  lemma {:induction false} ExecIds(d: Disk, ops: seq<Op>, day: int, s: Disk)
    requires OwnIds(d) && Exec(d, ops, day).Visits(s)
    ensures OwnIds(s) && d.doc <= s.doc && s.drawn >= d.drawn
    decreases |ops|
  {
    hide PullApply.Step, OwnIds;
    if ops != [] {
      var r := Step(d, ops[0], day);
      StepIds(d, ops[0], day, r.disk);
      if r.Visits(s) { StepIds(d, ops[0], day, s); } else { ExecIds(r.disk, ops[1..], day, s); }
    }
  }

  /** Main result: at every state of every run, failed and cut-short ones included, the file map still has the records it had, and
      all its records have ids of their own. */
  lemma RunIds(d: Disk, plan: Plan, day: int, s: Disk)
    requires OwnIds(d) && Apply(d, plan, day).Visits(s)
    ensures OwnIds(s) && d.doc <= s.doc
  {
    hide PullApply.Exec, PullApply.Before, OwnIds;
    ExecIds(d, Before(plan, 6), day, s);
  }
}
