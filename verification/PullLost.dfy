/** Exactly when an edit outlives a run whose plan uses conflict names: told from the disk the run starts from. */
module PullLost {
  import opened Basics
  import opened PullPlan
  import opened PullApply
  import opened PullFrames
  import opened PullSuccess
  import opened PullOrder
  import opened PullKept
  import opened PullSaves
  import opened PullReady

  /** The paths an iteration empties. */
  function Vacates(op: Op): set<Path> {
    match op
    case Stage(m) => {m.source}
    case Remove(item) => {item.path}
    case Put(w) => {}
    case Land(m) => {}
    case Shift(m) => {m.source}
  }

  /** The content an iteration places. */
  function PlacedHash(op: Op): Option<Hash> {
    match op
    case Put(w) => Some(w.hash)
    case Land(m) => Some(m.hash)
    case Shift(m) => Some(m.hash)
    case _ => None
  }

  /** The paths in use after the iterations `before`, conflict copies aside. */
  function Taken(live: set<Path>, before: seq<Op>): set<Path> {
    (live - set op, p | op in before && p in Vacates(op) :: p) + set op, p | op in before && p in Places(op) :: p
  }

  /** The paths of records that are not deleted. */
  function Recorded(doc: seq<Record>): set<Path> {
    set r | r in doc && r.status != Deleted :: r.path
  }

  /** The name the save of `op` takes: the first one neither in use nor on record. */
  function CopyName(d: Disk, before: seq<Op>, op: Op, day: int): Path {
    NextFree(Taken(d.live.Keys, before) + Recorded(d.doc), Guard(op).path, day, 1)
  }

  /** The iterations `ops` leave the bytes at `c`, or put them back. */
  predicate Undisturbed(ops: seq<Op>, c: Path, bytes: Bytes) {
    c !in TouchAll(ops) || exists op :: op in ops && c in Places(op) && PlacedHash(op) == Some(Sha256(bytes))
  }

  /** The edit is the very content the iteration is to write. */
  predicate Planned(op: Op, bytes: Bytes) {
    op.Put? && Sha256(bytes) == op.w.hash
  }

  /** Checkable before the call: the edit that iteration `i` finds is the planned content itself, has a copy already,
      or gets a name that from there on the run leaves alone. */
  predicate Lasts(d: Disk, ops: seq<Op>, i: nat, day: int)
    requires i < |ops| && Dirty(d, Guard(ops[i]).path, Guard(ops[i]).expected)
  {
    var (op, bytes) := (ops[i], d.live[Guard(ops[i]).path]);
    || Planned(op, bytes)
    || FindCopy(d.doc, Guard(op).id, Sha256(bytes)).Some?
    || Undisturbed(ops[i..], CopyName(d, ops[..i], op, day), bytes)
  }

  /** The files that some iterations check. */
  function Rest(ops: seq<Op>): Scope {
    Scope(set op | op in ops && Guard(op).expected.Some? :: Guard(op).id, {}, {})
  }

  /** No registered copy of a file still to be checked lies on the paths `ps`. */
  ghost predicate Clear(d: Disk, ops: seq<Op>, ps: set<Path>) {
    UniqueCopies(d.doc) && forall r :: r in d.doc && Rest(ops).Owns(r) ==> r.path !in ps
  }

  lemma RestTail(ops: seq<Op>, r: Record)
    requires ops != [] && Rest(ops[1..]).Owns(r)
    ensures Rest(ops).Owns(r)
  {
    var op :| op in ops[1..] && Guard(op).expected.Some? && r.conflictOf == Some(Guard(op).id);
    assert op in ops;
  }

  /** What is registered by the first iteration belongs to none of the later ones. */
  lemma NewNotOwned(ops: seq<Op>, drawn: nat, c: Path, bytes: Bytes)
    requires ops != [] && Ordered(ops) && Guard(ops[0]).expected.Some?
    ensures !Rest(ops[1..]).Owns(CopyOf(drawn, Guard(ops[0]), c, bytes))
  {
    assert forall op :: op in ops[1..] ==> Spares(ops[0], op);
  }

  // What one iteration leaves alone, whatever names it may use.

  /** A live file that is no registered copy of the checked file is not written by its save. */
  lemma StillStep(d: Disk, op: Op, day: int, x: Path)
    requires Step(d, op, day).Ok() && x in d.live && x !in Touch(op)
    requires Guard(op).expected.Some? ==>
               forall r :: r in d.doc && r.status == ConflictCopy && r.conflictOf == Some(Guard(op).id) ==> r.path != x
    ensures At(Step(d, op, day).disk.live, x) == At(d.live, x)
  {
    var e, p := Step(d, op, day).disk, Save(d, op, day);
    var t := Guard(op);
    StepShape(d, op, day, e);
    assert AlreadyWritten(d, op) ==> e == d;
    if !Dirty(d, t.path, t.expected) { assert p == Stay(d); }
    hide PullApply.PreserveCopy, PullApply.Step;
    if Dirty(d, t.path, t.expected) {
      match FindCopy(d.doc, t.id, Sha256(d.live[t.path]))
      case Some(r) => KnownCopyShape(d, t.id, t.path, t.expected, day, p.disk, r);
      case None => NewCopyShape(d, t.id, t.path, t.expected, day, p.disk, NextFree(d.live.Keys, t.path, day, 1));
    }
  }

  /** A registered copy off the touched paths stays registered and keeps its content. */
  lemma CopyStep(d: Disk, op: Op, day: int, r: Record, bytes: Bytes)
    requires Step(d, op, day).Ok() && UniqueCopies(d.doc) && r in d.doc && r.path !in Touch(op)
    requires r.status == ConflictCopy && r.hash == Some(Sha256(bytes)) && At(d.live, r.path) == Some(bytes)
    ensures var e := Step(d, op, day).disk;
            UniqueCopies(e.doc) && r in e.doc && At(e.live, r.path) == Some(bytes)
  {
    var e, p := Step(d, op, day).disk, Save(d, op, day);
    var t := Guard(op);
    StepShape(d, op, day, e);
    assert AlreadyWritten(d, op) ==> e == d;
    if !Dirty(d, t.path, t.expected) { assert p == Stay(d); }
    PreserveKeeps(Rest([]), d, t.id, t.path, t.expected, day, p.disk);
    hide PullApply.PreserveCopy, PullApply.Step;
    if Dirty(d, t.path, t.expected) {
      match FindCopy(d.doc, t.id, Sha256(d.live[t.path]))
      case Some(q) => KnownCopyShape(d, t.id, t.path, t.expected, day, p.disk, q);
      case None => NewCopyShape(d, t.id, t.path, t.expected, day, p.disk, NextFree(d.live.Keys, t.path, day, 1));
    }
  }

  lemma UniqueStep(d: Disk, op: Op, day: int)
    requires Step(d, op, day).Ok() && UniqueCopies(d.doc)
    ensures UniqueCopies(Step(d, op, day).disk.doc)
  {
    var e, p := Step(d, op, day).disk, Save(d, op, day);
    StepShape(d, op, day, e);
    assert AlreadyWritten(d, op) ==> e == d;
    PreserveKeeps(Rest([]), d, Guard(op).id, Guard(op).path, Guard(op).expected, day, p.disk);
    hide PullApply.PreserveCopy, PullApply.Step;
  }

  lemma {:induction false} CopyStays(d: Disk, ops: seq<Op>, day: int, r: Record, bytes: Bytes)
    requires Exec(d, ops, day).Ok() && UniqueCopies(d.doc) && r in d.doc && r.path !in TouchAll(ops)
    requires r.status == ConflictCopy && r.hash == Some(Sha256(bytes)) && At(d.live, r.path) == Some(bytes)
    ensures var f := Exec(d, ops, day).disk;
            r in f.doc && At(f.live, r.path) == Some(bytes)
    decreases |ops|
  {
    hide PullApply.Step, TouchAll, UniqueCopies;
    if ops != [] {
      TouchCons(ops);
      CopyStep(d, ops[0], day, r, bytes);
      CopyStays(Step(d, ops[0], day).disk, ops[1..], day, r, bytes);
    }
  }

  /** One iteration further the conditions still hold for the others. */
  lemma ClearStep(d: Disk, ops: seq<Op>, day: int, ps: set<Path>)
    requires ops != [] && Ordered(ops) && Clear(d, ops, ps) && Step(d, ops[0], day).Ok()
    ensures Clear(Step(d, ops[0], day).disk, ops[1..], ps) && Ordered(ops[1..])
  {
    var e := Step(d, ops[0], day).disk;
    StepAdds(d, ops[0], day);
    UniqueStep(d, ops[0], day);
    hide PullApply.Step;
    forall r | r in e.doc && Rest(ops[1..]).Owns(r)
      ensures r in d.doc && Rest(ops).Owns(r)
    {
      OwnedBefore(d, e, ops, day, r);
    }
  }

  lemma OwnedBefore(d: Disk, e: Disk, ops: seq<Op>, day: int, r: Record)
    requires ops != [] && Ordered(ops) && Adds(d, e, ops[0], day)
    requires r in e.doc && Rest(ops[1..]).Owns(r)
    ensures r in d.doc && Rest(ops).Owns(r)
  {
    RestTail(ops, r);
    if r !in d.doc {
      var t := Guard(ops[0]);
      NewNotOwned(ops, d.drawn, NextFree(d.live.Keys, t.path, day, 1), d.live[t.path]);
    }
  }

  /** The names next to `p` in use: at least `low`, and besides them only names on record in `doc`. */
  ghost predicate Between(live: set<Path>, low: set<Path>, doc: seq<Record>, p: Path, day: int) {
    forall n :: n >= 1 ==>
      var x := ConflictName(p, day, n);
      (x in low ==> x in live) && (x in live ==> x in low || x in Recorded(doc))
  }

  /** A free name that no record has is the first one neither in use nor on record. */
  lemma BetweenName(live: set<Path>, low: set<Path>, doc: seq<Record>, p: Path, day: int)
    requires Between(live, low, doc, p, day) && NextFree(live, p, day, 1) !in Recorded(doc)
    ensures NextFree(live, p, day, 1) == NextFree(low + Recorded(doc), p, day, 1)
  {
    var (x, y) := (NextFree(live, p, day, 1), NextFree(low + Recorded(doc), p, day, 1));
    assert x == ConflictName(p, day, x.n) && y == ConflictName(p, day, y.n);
    hide Recorded;
    assert y.n < x.n ==> y in live;
    assert x.n < y.n ==> x in low + Recorded(doc);
  }

  /** Which names next to a file checked later are in use after one iteration. */
  lemma TakenStep(d: Disk, ops: seq<Op>, day: int, op: Op)
    requires ops != [] && Ordered(ops) && op in ops[1..] && Guard(op).expected.Some? && Step(d, ops[0], day).Ok()
    requires ops[0].Shift? ==> ops[0].m.source != ops[0].m.target
    ensures Between(Step(d, ops[0], day).disk.live.Keys, (d.live.Keys - Vacates(ops[0])) + Places(ops[0]), d.doc, Guard(op).path, day)
  {
    var (e, p) := (Step(d, ops[0], day).disk, Guard(op).path);
    StepAdds(d, ops[0], day);
    assert Spares(ops[0], op) && Guard(ops[0]).path in Touch(ops[0]);
    hide PullApply.Step, Ordered, Recorded, Touch, Places, Vacates, PlacedHash;
    forall n | n >= 1
      ensures var (x, low) := (ConflictName(p, day, n), (d.live.Keys - Vacates(ops[0])) + Places(ops[0]));
              (x in low ==> x in e.live) && (x in e.live ==> x in low || x in Recorded(d.doc))
    {
      var x := ConflictName(p, day, n);
      TouchParts(ops[0], x);
      if x in Touch(ops[0]) {
        StepEnd(d, ops[0], day, x);
      } else {
        AddedNames(d, e, ops[0], day, x);
      }
    }
  }

  lemma TouchParts(op: Op, x: Path)
    ensures x in Touch(op) <==> x in Vacates(op) || x in Places(op)
  {
  }

  /** Off the touched paths an iteration brings back only what is on record, besides its own new name. */
  lemma AddedNames(d: Disk, e: Disk, op: Op, day: int, x: Path)
    requires Adds(d, e, op, day) && x !in Touch(op) && x.ConflictName? && x.original != Guard(op).path
    ensures (x in d.live ==> x in e.live) && (x in e.live ==> x in d.live || x in Recorded(d.doc))
  {
    assert Needs(d, op) && Known(d, op).Some? ==> Known(d, op).value.path in Recorded(d.doc);
    hide Recorded, Touch, Guard;
  }

  /** And which of them have records. */
  lemma RecordedStep(d: Disk, ops: seq<Op>, day: int, op: Op, n: nat)
    requires ops != [] && Ordered(ops) && op in ops[1..] && Guard(op).expected.Some? && Step(d, ops[0], day).Ok()
    ensures var x := ConflictName(Guard(op).path, day, n);
            x in Recorded(Step(d, ops[0], day).disk.doc) <==> x in Recorded(d.doc)
  {
    StepAdds(d, ops[0], day);
    assert Spares(ops[0], op) && Guard(ops[0]).path in Touch(ops[0]);
    hide PullApply.Step;
  }

  lemma TakenCons(live: set<Path>, e: set<Path>, ops: seq<Op>, i: nat, x: Path)
    requires 1 <= i <= |ops| && Ordered(ops)
    ensures (x in (live - Vacates(ops[0])) + Places(ops[0]) ==> x in e) && x in Taken(live, ops[..i]) ==> x in Taken(e, ops[1..i])
    ensures (x in e ==> x in (live - Vacates(ops[0])) + Places(ops[0])) && x in Taken(e, ops[1..i]) ==> x in Taken(live, ops[..i])
  {
    var (a, b) := (ops[..i], ops[1..i]);
    assert a == [ops[0]] + b;
    assert forall o :: o in a <==> o == ops[0] || o in b;
    forall o | o in b
      ensures Places(ops[0]) !! Vacates(o)
    {
      assert o in ops[1..] && Spares(ops[0], o) && Vacates(o) <= Touch(o);
    }
  }

  /** What the run up to an iteration leaves for it to find. */
  lemma {:induction false} Reaches(d: Disk, ops: seq<Op>, i: nat, day: int, ps: set<Path>)
    requires i < |ops| && Ordered(ops) && Clear(d, ops, ps) && TouchAll(ops) <= ps && Exec(d, ops, day).Ok()
    requires Dirty(d, Guard(ops[i]).path, Guard(ops[i]).expected)
    requires forall op :: op in ops && op.Shift? ==> op.m.source != op.m.target
    ensures var (e, t) := (Exec(d, ops[..i], day).disk, Guard(ops[i]));
            && Exec(d, ops[..i], day).Ok() && Exec(e, ops[i..], day).Ok()
            && Exec(e, ops[i..], day).disk == Exec(d, ops, day).disk
            && At(e.live, t.path) == At(d.live, t.path) && Clear(e, ops[i..], ps) && Ordered(ops[i..])
            && FindCopy(e.doc, t.id, Sha256(d.live[t.path])) == FindCopy(d.doc, t.id, Sha256(d.live[t.path]))
            && d.doc <= e.doc && Between(e.live.Keys, Taken(d.live.Keys, ops[..i]), d.doc, t.path, day)
    decreases i
  {
    var t := Guard(ops[i]);
    if i == 0 {
      assert ops[..0] == [] && ops[0..] == ops;
      assert Taken(d.live.Keys, []) == d.live.Keys;
    } else {
      var e := Step(d, ops[0], day).disk;
      hide PullApply.Step, PullApply.Exec, Clear, Ordered, Taken, Dirty, Recorded, Between, TouchAll, FindCopy;
      ReachStep(d, ops, i, day, ps);
      FirstDone(d, ops, i, day);
      WholeDone(d, ops, day);
      assert ops[i] in ops[1..];
      Reaches(e, ops[1..], i - 1, day, ps);
      TakenStep(d, ops, day, ops[i]);
      BetweenStep(d, ops, i, day, Exec(d, ops[..i], day).disk.live.Keys);
    }
  }

  lemma BetweenStep(d: Disk, ops: seq<Op>, i: nat, day: int, live: set<Path>)
    requires 1 <= i < |ops| && Ordered(ops) && Guard(ops[i]).expected.Some? && Step(d, ops[0], day).Ok()
    requires var (e, p) := (Step(d, ops[0], day).disk, Guard(ops[i]).path);
             && Between(e.live.Keys, (d.live.Keys - Vacates(ops[0])) + Places(ops[0]), d.doc, p, day)
             && Between(live, Taken(e.live.Keys, ops[1..i]), e.doc, p, day)
    ensures Between(live, Taken(d.live.Keys, ops[..i]), d.doc, Guard(ops[i]).path, day)
  {
    var (e, p) := (Step(d, ops[0], day).disk, Guard(ops[i]).path);
    var first := (d.live.Keys - Vacates(ops[0])) + Places(ops[0]);
    assert ops[i] in ops[1..];
    hide PullApply.Step, Ordered, Taken, Recorded;
    forall n | n >= 1
      ensures var x := ConflictName(p, day, n);
              (x in Taken(d.live.Keys, ops[..i]) ==> x in live) &&
              (x in live ==> x in Taken(d.live.Keys, ops[..i]) || x in Recorded(d.doc))
    {
      var x := ConflictName(p, day, n);
      RecordedStep(d, ops, day, ops[i], n);
      TakenCons(d.live.Keys, e.live.Keys, ops, i, x);
    }
  }

  /** The first of the first `i` iterations, and the others. */
  lemma FirstDone(d: Disk, ops: seq<Op>, i: nat, day: int)
    requires 1 <= i <= |ops|
    ensures ops[1..][..i - 1] == ops[1..i] && ops[i..] == ops[1..][i - 1..]
    ensures i < |ops| ==> ops[i] == ops[1..][i - 1]
    ensures Exec(d, ops[..i], day).Ok() <==> Step(d, ops[0], day).Ok() && Exec(Step(d, ops[0], day).disk, ops[1..i], day).Ok()
    ensures Step(d, ops[0], day).Ok() ==> Exec(d, ops[..i], day).disk == Exec(Step(d, ops[0], day).disk, ops[1..i], day).disk
  {
    assert ops[..i][0] == ops[0] && ops[..i][1..] == ops[1..i];
    hide PullApply.Step;
  }

  lemma WholeDone(d: Disk, ops: seq<Op>, day: int)
    requires ops != [] && Step(d, ops[0], day).Ok()
    ensures Exec(d, ops, day).disk == Exec(Step(d, ops[0], day).disk, ops[1..], day).disk
  {
    hide PullApply.Step;
  }

  lemma ReachStep(d: Disk, ops: seq<Op>, i: nat, day: int, ps: set<Path>)
    requires 1 <= i < |ops| && Ordered(ops) && Clear(d, ops, ps) && TouchAll(ops) <= ps && Exec(d, ops, day).Ok()
    requires Dirty(d, Guard(ops[i]).path, Guard(ops[i]).expected)
    ensures var (e, t) := (Step(d, ops[0], day).disk, Guard(ops[i]));
            && Step(d, ops[0], day).Ok() && Exec(e, ops[1..], day).Ok()
            && At(e.live, t.path) == At(d.live, t.path) && Dirty(e, t.path, t.expected)
            && FindCopy(e.doc, t.id, Sha256(d.live[t.path])) == FindCopy(d.doc, t.id, Sha256(d.live[t.path]))
            && Ordered(ops[1..]) && Clear(e, ops[1..], ps) && TouchAll(ops[1..]) <= ps && d.doc <= e.doc
  {
    var (e, t) := (Step(d, ops[0], day).disk, Guard(ops[i]));
    assert ops[i] in ops[1..];
    TouchCons(ops);
    SparedFacts(ops, i);
    ClearStep(d, ops, day, ps);
    PathNotOwned(d, ops, i, ps);
    StepAdds(d, ops[0], day);
    hide PullApply.Step, Ordered, Clear, TouchAll;
    StillStep(d, ops[0], day, t.path);
    FindStep(d, ops[0], day, t.id, Sha256(d.live[t.path]));
  }

  lemma SparedFacts(ops: seq<Op>, i: nat)
    requires 1 <= i < |ops| && Ordered(ops) && Guard(ops[i]).expected.Some?
    ensures Guard(ops[i]).path !in Touch(ops[0])
    ensures Guard(ops[0]).expected.Some? ==> Guard(ops[0]).id != Guard(ops[i]).id
  {
    assert ops[i] in ops[1..] && Spares(ops[0], ops[i]);
  }

  lemma FindStep(d: Disk, op: Op, day: int, id: FileId, h: Hash)
    requires Step(d, op, day).Ok() && (Guard(op).expected.Some? ==> Guard(op).id != id)
    ensures FindCopy(Step(d, op, day).disk.doc, id, h) == FindCopy(d.doc, id, h)
  {
    var (e, g) := (Step(d, op, day).disk, Guard(op));
    StepAdds(d, op, day);
    hide PullApply.Step;
    if e.doc != d.doc {
      FindAppend(d.doc, CopyOf(d.drawn, g, NextFree(d.live.Keys, g.path, day, 1), d.live[g.path]), id, h);
    }
  }

  lemma PathNotOwned(d: Disk, ops: seq<Op>, i: nat, ps: set<Path>)
    requires i < |ops| && Clear(d, ops, ps) && TouchAll(ops) <= ps
    ensures Guard(ops[0]).expected.Some? ==>
              forall r :: r in d.doc && r.status == ConflictCopy && r.conflictOf == Some(Guard(ops[0]).id) ==> r.path != Guard(ops[i]).path
  {
    assert ops[0] in ops && ops[i] in ops && Guard(ops[i]).path in Touch(ops[i]);
    assert Guard(ops[i]).path in TouchAll(ops);
    if Guard(ops[0]).expected.Some? {
      forall r | r in d.doc && r.status == ConflictCopy && r.conflictOf == Some(Guard(ops[0]).id)
        ensures Rest(ops).Owns(r)
      {
      }
    }
  }

  // What becomes of the edit from the iteration that finds it.

  /** A live file that the run neither touches nor has registered for a file it checks stays as it is. */
  lemma {:induction false} StillStays(d: Disk, ops: seq<Op>, day: int, x: Path, ps: set<Path>)
    requires Ordered(ops) && Clear(d, ops, ps) && Exec(d, ops, day).Ok()
    requires x in ps && x in d.live && x !in TouchAll(ops)
    ensures At(Exec(d, ops, day).disk.live, x) == At(d.live, x)
    decreases |ops|
  {
    if ops != [] {
      TouchCons(ops);
      NotOwned(d, ops, ps, x);
      hide PullApply.Step, Clear, Ordered, TouchAll;
      ClearStep(d, ops, day, ps);
      StillStep(d, ops[0], day, x);
      StillStays(Step(d, ops[0], day).disk, ops[1..], day, x, ps);
    }
  }

  lemma NotOwned(d: Disk, ops: seq<Op>, ps: set<Path>, x: Path)
    requires ops != [] && Clear(d, ops, ps) && x in ps
    ensures Guard(ops[0]).expected.Some? ==>
              forall r :: r in d.doc && r.status == ConflictCopy && r.conflictOf == Some(Guard(ops[0]).id) ==> r.path != x
  {
    assert ops[0] in ops;
  }

  /** The copies of a file the run does not check are the same at its end. */
  lemma {:induction false} CopiesSame(d: Disk, ops: seq<Op>, day: int, id: FileId)
    requires Exec(d, ops, day).Ok() && forall op :: op in ops && Guard(op).expected.Some? ==> Guard(op).id != id
    ensures forall r: Record :: r.conflictOf == Some(id) ==> (r in Exec(d, ops, day).disk.doc <==> r in d.doc)
    decreases |ops|
  {
    if ops != [] {
      StepAdds(d, ops[0], day);
      hide PullApply.Step;
      assert ops[0] in ops;
      CopiesSame(Step(d, ops[0], day).disk, ops[1..], day, id);
    }
  }

  /** A touched path holds in the end what was placed there, or nothing. */
  lemma {:induction false} TouchedEnd(o: Scope, d: Disk, ops: seq<Op>, day: int, x: Path)
    requires Ordered(ops) && AllFit(o, ops, day) && Safe(o, d, x) && Exec(d, ops, day).Ok() && x in TouchAll(ops)
    requires forall op :: op in ops && op.Shift? ==> op.m.source != op.m.target
    ensures var f := Exec(d, ops, day).disk;
            && (forall op :: op in ops && x in Places(op) ==> At(f.live, x) == Some(PlacedHash(op).value.preimage))
            && ((forall op :: op in ops ==> x !in Places(op)) ==> x !in f.live)
    decreases |ops|
  {
    var e, f := Step(d, ops[0], day).disk, Exec(d, ops, day).disk;
    TouchCons(ops);
    PlacedOnlyLast(ops, x);
    if x in Touch(ops[0]) { StepEnd(d, ops[0], day, x); }
    hide PullApply.Step, TouchAll, PlacedHash, Safe, Ordered, Places, Touch;
    StepFrame(o, d, ops[0], day, e);
    if x in TouchAll(ops[1..]) {
      TouchedEnd(o, e, ops[1..], day, x);
    } else {
      ExecFrame(o, e, ops[1..], day, f);
    }
  }

  lemma PlacedOnlyLast(ops: seq<Op>, x: Path)
    requires ops != [] && Ordered(ops)
    ensures Ordered(ops[1..]) && ops[0] in ops && forall op :: op in ops <==> op == ops[0] || op in ops[1..]
    ensures x in TouchAll(ops[1..]) ==> x !in Places(ops[0])
    ensures x !in TouchAll(ops[1..]) ==> forall op :: op in ops[1..] ==> x !in Places(op)
  {
    PlacedStays(ops);
    assert forall op :: Places(op) <= Touch(op);
  }

  lemma StepEnd(d: Disk, op: Op, day: int, x: Path)
    requires Step(d, op, day).Ok() && x in Touch(op) && (op.Shift? ==> op.m.source != op.m.target)
    ensures var e := Step(d, op, day).disk;
            if x in Places(op) then At(e.live, x) == Some(PlacedHash(op).value.preimage) else x !in e.live
  {
    StepDone(d, op, day);
    hide PullApply.Step;
  }

  /** Iterations that still run, the first of which finds an edit. */
  ghost predicate Finds(d: Disk, ops: seq<Op>, day: int, ps: set<Path>) {
    && ops != [] && Ordered(ops) && Clear(d, ops, ps) && TouchAll(ops) <= ps && Exec(d, ops, day).Ok()
    && (forall op :: op in ops && op.Shift? ==> op.m.source != op.m.target)
    && Dirty(d, Guard(ops[0]).path, Guard(ops[0]).expected)
  }

  function Edit(d: Disk, op: Op): Bytes
    requires Dirty(d, Guard(op).path, Guard(op).expected)
  {
    d.live[Guard(op).path]
  }

  /** A registered copy off the paths `ps` holds the edit. */
  ghost predicate CopyOff(s: Disk, id: FileId, bytes: Bytes, ps: set<Path>) {
    exists r :: r in s.doc && IsCopy(r, id, Sha256(bytes)) && r.path !in ps && At(s.live, r.path) == Some(bytes)
  }

  /** The edit's only copies are at `c`, and no other file has a record there. */
  ghost predicate CopyOnlyAt(s: Disk, id: FileId, bytes: Bytes, c: Path) {
    && (exists r :: r in s.doc && IsCopy(r, id, Sha256(bytes)))
    && (forall r :: r in s.doc && IsCopy(r, id, Sha256(bytes)) ==> r.path == c)
    && (forall r :: r in s.doc && r.status != Deleted && r.path == c ==> r.conflictOf == Some(id))
  }

  /** What has become of an edit once `past`, the iteration that found it and those after it, are done:
      `known` says that it had a copy before, `c` is the name of its copy otherwise. */
  ghost predicate Fate(s: Disk, op: Op, bytes: Bytes, known: bool, c: Path, past: seq<Op>, ps: set<Path>) {
    if Planned(op, bytes) then At(s.live, Guard(op).path) == Some(bytes)
    else if known then CopyOff(s, Guard(op).id, bytes, ps)
    else CopyOnlyAt(s, Guard(op).id, bytes, c) && (At(s.live, c) == Some(bytes) <==> Undisturbed(past, c, bytes))
  }

  lemma FateSaved(s: Disk, op: Op, bytes: Bytes, known: bool, c: Path, past: seq<Op>, ps: set<Path>)
    requires Fate(s, op, bytes, known, c, past, ps)
    ensures Saved(s, op, bytes) <==> Planned(op, bytes) || known || Undisturbed(past, c, bytes)
  {
    hide Undisturbed;
  }

  lemma PlannedLasts(d: Disk, ops: seq<Op>, day: int, ps: set<Path>)
    requires Finds(d, ops, day, ps) && Planned(ops[0], Edit(d, ops[0]))
    ensures At(Exec(d, ops, day).disk.live, Guard(ops[0]).path) == Some(Edit(d, ops[0]))
  {
    var e := Step(d, ops[0], day).disk;
    var t := ops[0].w.target;
    TouchCons(ops);
    PlacedStays(ops);
    StepDone(d, ops[0], day);
    hide PullApply.Step, Ordered, Clear, TouchAll;
    ClearStep(d, ops, day, ps);
    StillStays(e, ops[1..], day, t, ps);
  }

  lemma KnownLasts(d: Disk, ops: seq<Op>, day: int, ps: set<Path>)
    requires Finds(d, ops, day, ps) && !Planned(ops[0], Edit(d, ops[0]))
    requires FindCopy(d.doc, Guard(ops[0]).id, Sha256(Edit(d, ops[0]))).Some?
    ensures CopyOff(Exec(d, ops, day).disk, Guard(ops[0]).id, Edit(d, ops[0]), ps)
  {
    var e := Step(d, ops[0], day).disk;
    var bytes := Edit(d, ops[0]);
    var r := FindCopy(d.doc, Guard(ops[0]).id, Sha256(bytes)).value;
    TouchCons(ops);
    assert Rest(ops).Owns(r) by { assert ops[0] in ops; }
    StepAdds(d, ops[0], day);
    UniqueStep(d, ops[0], day);
    KnownStep(d, ops[0], day, r);
    hide PullApply.Step, Ordered, UniqueCopies, TouchAll;
    CopyStays(e, ops[1..], day, r, bytes);
  }

  lemma KnownStep(d: Disk, op: Op, day: int, r: Record)
    requires Needs(d, op) && Step(d, op, day).Ok() && Known(d, op) == Some(r) && r.path !in Touch(op)
    ensures var e := Step(d, op, day).disk;
            r in e.doc && At(e.live, r.path) == Some(d.live[Guard(op).path])
  {
    var e := Step(d, op, day).disk;
    StepShape(d, op, day, e);
    assert Save(d, op, day).Ok() ==> At(Save(d, op, day).disk.live, r.path) == Some(d.live[Guard(op).path]);
    StepAdds(d, op, day);
    hide PullApply.PreserveCopy, PullApply.Step;
  }

  /** A new copy is registered under a name no record had, with the edit's bytes unless the iteration itself places something there. */
  lemma NewStep(d: Disk, op: Op, day: int)
    requires Needs(d, op) && Step(d, op, day).Ok() && Known(d, op) == None
    ensures var (e, t) := (Step(d, op, day).disk, Guard(op));
            var c := NextFree(d.live.Keys, t.path, day, 1);
            && e.doc == d.doc + [CopyOf(d.drawn, t, c, d.live[t.path])] && !Occupied(d.doc, c)
            && (c !in Touch(op) ==> At(e.live, c) == Some(d.live[t.path]))
  {
    var (e, t) := (Step(d, op, day).disk, Guard(op));
    var c := NextFree(d.live.Keys, t.path, day, 1);
    StepShape(d, op, day, e);
    StepSaved(d, op, day);
    assert d.live.Keys + Restored(d, []) == d.live.Keys;
    assert Save(d, op, day).Ok() ==> At(Save(d, op, day).disk.live, c) == Some(d.live[t.path]);
    StepAdds(d, op, day);
    hide PullApply.PreserveCopy, PullApply.Step;
  }

  /** The names and files in question for the iterations after the first. */
  function Later(ops: seq<Op>, day: int): Scope
    requires ops != []
  {
    Scope(Rest(ops[1..]).ids, set op | op in ops[1..] && Guard(op).expected.Some? :: Guard(op).path, {day})
  }

  lemma LaterFits(ops: seq<Op>, day: int)
    requires ops != []
    ensures AllFit(Later(ops, day), ops[1..], day)
  {
  }

  lemma NameSafe(d: Disk, e: Disk, ops: seq<Op>, day: int, c: Path, bytes: Bytes)
    requires ops != [] && Ordered(ops) && Guard(ops[0]).expected.Some?
    requires c.ConflictName? && c.original == Guard(ops[0]).path && !Occupied(d.doc, c)
    requires e.doc == d.doc + [CopyOf(d.drawn, Guard(ops[0]), c, bytes)]
    ensures Safe(Later(ops, day), e, c)
  {
    NewNotOwned(ops, d.drawn, c, bytes);
    forall op | op in ops[1..] && Guard(op).expected.Some?
      ensures Guard(op).path != c.original
    {
      assert Spares(ops[0], op) && c.original in Touch(ops[0]);
    }
  }

  /** What the name of the copy holds in the end. */
  lemma NameEnd(d: Disk, ops: seq<Op>, day: int, ps: set<Path>)
    requires Finds(d, ops, day, ps) && Needs(d, ops[0]) && Known(d, ops[0]) == None
    ensures var (f, bytes) := (Exec(d, ops, day).disk, Edit(d, ops[0]));
            var c := NextFree(d.live.Keys, Guard(ops[0]).path, day, 1);
            At(f.live, c) == Some(bytes) <==> Undisturbed(ops, c, bytes)
  {
    var (e, f) := (Step(d, ops[0], day).disk, Exec(d, ops, day).disk);
    var (t, bytes) := (Guard(ops[0]), Edit(d, ops[0]));
    var c := NextFree(d.live.Keys, t.path, day, 1);
    var o := Later(ops, day);
    TouchCons(ops);
    PlacedOnlyLast(ops, c);
    NewStep(d, ops[0], day);
    if c in Touch(ops[0]) { StepEnd(d, ops[0], day, c); }
    LaterFits(ops, day);
    NameSafe(d, e, ops, day, c, bytes);
    hide PullApply.Step, TouchAll, PlacedHash, Safe, Ordered, Places, Touch, Later, Clear;
    if c in TouchAll(ops[1..]) {
      TouchedEnd(o, e, ops[1..], day, c);
    } else {
      ExecFrame(o, e, ops[1..], day, f);
    }
  }

  /** The records at a name that none of the iterations can take are the same at the end. */
  lemma {:induction false} RecordsStay(d: Disk, ops: seq<Op>, day: int, c: Path)
    requires Exec(d, ops, day).Ok() && c.ConflictName?
    requires forall op :: op in ops && Guard(op).expected.Some? ==> Guard(op).path != c.original
    ensures forall r: Record :: r.path == c ==> (r in Exec(d, ops, day).disk.doc <==> r in d.doc)
    decreases |ops|
  {
    if ops != [] {
      StepAdds(d, ops[0], day);
      hide PullApply.Step;
      assert ops[0] in ops;
      RecordsStay(Step(d, ops[0], day).disk, ops[1..], day, c);
    }
  }

  /** Without an earlier copy the edit has a copy only under its new name. */
  lemma NewOnly(d: Disk, ops: seq<Op>, day: int, ps: set<Path>)
    requires Finds(d, ops, day, ps) && Needs(d, ops[0]) && Known(d, ops[0]) == None
    ensures var t := Guard(ops[0]);
            CopyOnlyAt(Exec(d, ops, day).disk, t.id, Edit(d, ops[0]), NextFree(d.live.Keys, t.path, day, 1))
  {
    var (e, f) := (Step(d, ops[0], day).disk, Exec(d, ops, day).disk);
    var (t, bytes) := (Guard(ops[0]), Edit(d, ops[0]));
    var c := NextFree(d.live.Keys, t.path, day, 1);
    var x := CopyOf(d.drawn, t, c, bytes);
    NewStep(d, ops[0], day);
    forall op | op in ops[1..] && Guard(op).expected.Some?
      ensures Guard(op).id != t.id && Guard(op).path != t.path
    {
      assert Spares(ops[0], op) && t.path in Touch(ops[0]);
    }
    hide PullApply.Step, Ordered, Clear, TouchAll, Touch, Places;
    CopiesSame(e, ops[1..], day, t.id);
    RecordsStay(e, ops[1..], day, c);
    assert x in e.doc && x in f.doc && IsCopy(x, t.id, Sha256(bytes));
    forall r | r in f.doc && (IsCopy(r, t.id, Sha256(bytes)) || (r.status != Deleted && r.path == c))
      ensures r == x
    {
      assert r in e.doc;
    }
  }

  /** A new copy gets a name no record has. */
  lemma FirstSaved(d: Disk, ops: seq<Op>, day: int, ps: set<Path>)
    requires Finds(d, ops, day, ps) && !Planned(ops[0], Edit(d, ops[0]))
    requires FindCopy(d.doc, Guard(ops[0]).id, Sha256(Edit(d, ops[0]))).None?
    ensures NextFree(d.live.Keys, Guard(ops[0]).path, day, 1) !in Recorded(d.doc)
  {
    hide Ordered, Clear, TouchAll;
    NewStep(d, ops[0], day);
  }

  lemma FateHere(d: Disk, ops: seq<Op>, day: int, ps: set<Path>, known: bool, c: Path)
    requires Finds(d, ops, day, ps) && known == FindCopy(d.doc, Guard(ops[0]).id, Sha256(Edit(d, ops[0]))).Some?
    requires !Planned(ops[0], Edit(d, ops[0])) && !known ==> c == NextFree(d.live.Keys, Guard(ops[0]).path, day, 1)
    ensures Fate(Exec(d, ops, day).disk, ops[0], Edit(d, ops[0]), known, c, ops, ps)
  {
    hide PullApply.Exec, Ordered, Clear, TouchAll, Touch, Undisturbed, CopyOff, CopyOnlyAt;
    if Planned(ops[0], Edit(d, ops[0])) {
      PlannedLasts(d, ops, day, ps);
    } else if known {
      KnownLasts(d, ops, day, ps);
    } else {
      NameEnd(d, ops, day, ps);
      NewOnly(d, ops, day, ps);
    }
  }

  /** The fate of the edit that iteration `i` of a run finds, told from the disk at its start. */
  lemma FateAt(d: Disk, ops: seq<Op>, i: nat, day: int, ps: set<Path>)
    requires i < |ops| && Ordered(ops) && Clear(d, ops, ps) && TouchAll(ops) <= ps && Exec(d, ops, day).Ok()
    requires Dirty(d, Guard(ops[i]).path, Guard(ops[i]).expected)
    requires forall op :: op in ops && op.Shift? ==> op.m.source != op.m.target
    ensures var (t, bytes) := (Guard(ops[i]), Edit(d, ops[i]));
            Fate(Exec(d, ops, day).disk, ops[i], bytes, FindCopy(d.doc, t.id, Sha256(bytes)).Some?,
                 CopyName(d, ops[..i], ops[i], day), ops[i..], ps)
  {
    var e := Exec(d, ops[..i], day).disk;
    var (t, bytes) := (Guard(ops[i]), Edit(d, ops[i]));
    hide PullApply.Exec, Ordered, Clear, TouchAll, Touch, Fate, Taken;
    Reaches(d, ops, i, day, ps);
    assert ops[i..][0] == ops[i] && forall op :: op in ops[i..] ==> op in ops;
    SuffixIn(ops, i);
    assert Recorded(d.doc) <= Recorded(e.doc);
    hide Recorded;
    if !Planned(ops[i], bytes) && FindCopy(d.doc, t.id, Sha256(bytes)).None? {
      FirstSaved(e, ops[i..], day, ps);
      BetweenName(e.live.Keys, Taken(d.live.Keys, ops[..i]), d.doc, t.path, day);
    }
    FateHere(e, ops[i..], day, ps, FindCopy(d.doc, t.id, Sha256(bytes)).Some?, CopyName(d, ops[..i], ops[i], day));
  }

  lemma RestInClaims(plan: Plan, r: Record)
    requires Rest(Before(plan, 6)).Owns(r)
    ensures Claims(plan, {}).Owns(r)
  {
    BeforeFrom(plan, 6);
    hide PullApply.Before, PullApply.Phase, Checked;
    var op :| op in Before(plan, 6) && Guard(op).expected.Some? && r.conflictOf == Some(Guard(op).id);
    FromChecked(plan, 6, op);
  }

  lemma PlanFinds(d: Disk, plan: Plan)
    requires WellFormed(plan) && Separated(plan, d, {}) && UniqueCopies(d.doc)
    ensures var (ops, ps) := (Before(plan, 6), Targets(plan) + Sources(plan));
            && Ordered(ops) && Clear(d, ops, ps) && TouchAll(ops) <= ps
            && forall op :: op in ops && op.Shift? ==> op.m.source != op.m.target
  {
    var (ops, ps) := (Before(plan, 6), Targets(plan) + Sources(plan));
    RunOrdered(plan, 6);
    BeforeIn(plan, 6);
    RunShifts(plan);
    hide PullApply.Before, PullPlan.WellFormed, TouchAll, Checked, Rest;
    forall r | r in d.doc && Rest(ops).Owns(r)
      ensures Claims(plan, {}).Owns(r) && r.path !in ps
    {
      RestInClaims(plan, r);
      if r.path in ps { PathSafe(plan, d, {}, r.path); }
    }
  }

  lemma RunShifts(plan: Plan)
    requires WellFormed(plan)
    ensures forall op :: op in Before(plan, 6) && op.Shift? ==> op.m.source != op.m.target
  {
    BeforeFrom(plan, 6);
    hide PullApply.Before, PullApply.Phase, PullPlan.WellFormed;
    forall op | op in Before(plan, 6) && op.Shift?
      ensures op.m.source != op.m.target
    {
      var j :| 1 <= j < 6 && op in Phase(plan, j);
      PhaseShifts(plan, j);
    }
  }

  /** Main result: of a run that returns normally, whatever names its plan uses, an edit outlives it if and only if
      it is the planned content itself, has a copy already, or gets a name the rest of the run leaves alone. */
  lemma EditLastsIff(d: Disk, plan: Plan, i: nat, day: int)
    requires WellFormed(plan) && Separated(plan, d, {}) && UniqueCopies(d.doc) && Apply(d, plan, day).Ok()
    requires i < |Before(plan, 6)|
    requires var t := Guard(Before(plan, 6)[i]);
             Dirty(d, t.path, t.expected)
    ensures var op := Before(plan, 6)[i];
            Saved(Apply(d, plan, day).disk, op, d.live[Guard(op).path]) <==> Lasts(d, Before(plan, 6), i, day)
  {
    var (ops, ps) := (Before(plan, 6), Targets(plan) + Sources(plan));
    var (t, bytes) := (Guard(ops[i]), Edit(d, ops[i]));
    PlanFinds(d, plan);
    hide PullApply.Before, PullApply.Exec, PullPlan.WellFormed, Ordered, Clear, TouchAll, Touch, Kept, Undisturbed, CopyName, Fate, Saved;
    FateAt(d, ops, i, day, ps);
    FateSaved(Apply(d, plan, day).disk, ops[i], bytes, FindCopy(d.doc, t.id, Sha256(bytes)).Some?,
              CopyName(d, ops[..i], ops[i], day), ops[i..], ps);
  }

  lemma GuardIn(ops: seq<Op>, k: nat, ps: set<Path>)
    requires k < |ops| && TouchAll(ops) <= ps
    ensures Guard(ops[k]).path in ps && Touch(ops[k]) <= ps
  {
    assert ops[k] in ops && Guard(ops[k]).path in Touch(ops[k]);
    assert Touch(ops[k]) <= TouchAll(ops);
  }

  lemma SuffixIn(ops: seq<Op>, i: nat)
    requires i <= |ops|
    ensures TouchAll(ops[i..]) <= TouchAll(ops)
  {
    assert forall op :: op in ops[i..] ==> op in ops;
  }
}
