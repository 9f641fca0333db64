/** The SQLite state repository: many processes load, compute and save one versioned state. */
module Repository {
  import opened Basics

  /** An operation on a state; it may raise. */
  type Operation<!S, !Q> = (S, Q) -> Option<S>

  datatype Row<S> = Absent | Stored(version: nat, payload: S)

  /** A process's copy of the state: its version marker, how many writes it is built on, what was done to it since,
      and whether its last save failed while committing. */
  datatype Local<S, Q> = Local(state: S, marker: Option<nat>, base: nat, ops: seq<Q>, tainted: bool)

  /** What one successful write did: operations on the state before it, or a whole new state. */
  datatype Tx<S, Q> = Ops(ops: seq<Q>) | Whole(state: S)

  datatype World<S, Q> = World(row: Row<S>, locals: map<nat, Local<S, Q>>, log: seq<Tx<S, Q>>)

  datatype Event<S, Q> =
    | Load(p: nat)
    | Compute(p: nat, op: Q)
    | Save(p: nat, commits: bool)
    | Update(op: Q, commits: bool)
    | Import(state: S, force: bool)
    | Craft(p: nat, state: S)

  /** The version a save would write, unless it conflicts. */
  function NextVersion<S>(row: Row<S>, marker: Option<nat>): Option<nat> {
    match row
    case Absent => if marker.Some? && marker.value != 0 then None else Some(1)
    case Stored(version, _) => if marker.Some? && marker.value != version then None else Some(version + 1)
  }

  function Current<S>(row: Row<S>, initial: S): S {
    if row.Absent? then initial else row.payload
  }

  function Version<S>(row: Row<S>): nat {
    if row.Absent? then 0 else row.version
  }

  /** A save as one transaction: the row and the process's copy afterwards. */
  function SaveStep<S, Q>(w: World<S, Q>, p: nat, commits: bool): World<S, Q> {
    if p !in w.locals then w
    else
      var l := w.locals[p];
      match NextVersion(w.row, l.marker)
      case None => w
      case Some(next) =>
        if commits then
          World(Stored(next, l.state), w.locals[p := Local(l.state, Some(next), |w.log| + 1, [], false)],
                w.log + [if l.marker.Some? then Ops(l.ops) else Whole(l.state)])
        else w.(locals := w.locals[p := l.(marker := Some(next), tainted := true)])
  }

  function UpdateStep<S, Q>(apply: Operation<S, Q>, initial: S, w: World<S, Q>, op: Q, commits: bool): World<S, Q> {
    match apply(Current(w.row, initial), op)
    case None => w
    case Some(s) => if commits then w.(row := Stored(Version(w.row) + 1, s), log := w.log + [Ops([op])]) else w
  }

  function ImportStep<S, Q>(w: World<S, Q>, state: S, force: bool): World<S, Q> {
    if w.row.Stored? && !force then w
    else w.(row := Stored(Version(w.row) + 1, state), log := w.log + [Whole(state)])
  }

  /** An operation that raises abandons the process's copy. */
  function ComputeStep<S, Q>(apply: Operation<S, Q>, w: World<S, Q>, p: nat, op: Q): World<S, Q> {
    if p !in w.locals then w
    else
      var l := w.locals[p];
      match apply(l.state, op)
      case None => w.(locals := w.locals - {p})
      case Some(s) => w.(locals := w.locals[p := l.(state := s, ops := l.ops + [op])])
  }

  function Step<S, Q>(apply: Operation<S, Q>, initial: S, w: World<S, Q>, e: Event<S, Q>): World<S, Q> {
    match e
    case Load(p) => w.(locals := w.locals[p := Local(Current(w.row, initial), Some(Version(w.row)), |w.log|, [], false)])
    case Compute(p, op) => ComputeStep(apply, w, p, op)
    case Save(p, commits) => SaveStep(w, p, commits)
    case Update(op, commits) => UpdateStep(apply, initial, w, op, commits)
    case Import(state, force) => ImportStep(w, state, force)
    case Craft(p, state) => w.(locals := w.locals[p := Local(state, None, 0, [], false)])
  }

  function Run<S, Q>(apply: Operation<S, Q>, initial: S, w: World<S, Q>, es: seq<Event<S, Q>>): World<S, Q>
    decreases |es|
  {
    if es == [] then w else Run(apply, initial, Step(apply, initial, w, es[0]), es[1..])
  }

  function Start<S, Q>(): World<S, Q> {
    World(Absent, map[], [])
  }

  // The serial reference.

  function Execute<S, Q>(apply: Operation<S, Q>, s: S, ops: seq<Q>): Option<S> {
    if ops == [] then Some(s)
    else
      match Execute(apply, s, ops[..|ops| - 1])
      case None => None
      case Some(t) => apply(t, ops[|ops| - 1])
  }

  /** The writes one after another, each on the state the one before left. */
  function Serial<S, Q>(apply: Operation<S, Q>, initial: S, log: seq<Tx<S, Q>>): Option<S> {
    if log == [] then Some(initial)
    else
      match Serial(apply, initial, log[..|log| - 1])
      case None => None
      case Some(s) =>
        match log[|log| - 1]
        case Ops(ops) => Execute(apply, s, ops)
        case Whole(t) => Some(t)
  }

  // The invariant.

  ghost predicate RowOk<S, Q>(apply: Operation<S, Q>, initial: S, w: World<S, Q>) {
    && Version(w.row) == |w.log| && (w.row.Absent? <==> w.log == [])
    && Serial(apply, initial, w.log) == Some(Current(w.row, initial))
  }

  /** A loaded copy is the state after its base's writes with its own operations applied, and its marker is that base. */
  ghost predicate LocalOk<S, Q>(apply: Operation<S, Q>, initial: S, log: seq<Tx<S, Q>>, l: Local<S, Q>) {
    l.base <= |log| && (l.tainted ==> l.marker.Some?) && (l.marker.Some? ==>
      && (if l.tainted then l.base < l.marker.value else l.base == l.marker.value)
      && (!l.tainted ==> Built(apply, initial, log, l)))
  }

  ghost predicate Built<S, Q>(apply: Operation<S, Q>, initial: S, log: seq<Tx<S, Q>>, l: Local<S, Q>)
    requires l.base <= |log|
  {
    var s := Serial(apply, initial, log[..l.base]);
    s.Some? && Execute(apply, s.value, l.ops) == Some(l.state)
  }

  ghost predicate LocalsOk<S, Q>(apply: Operation<S, Q>, initial: S, w: World<S, Q>) {
    forall p :: p in w.locals ==> LocalOk(apply, initial, w.log, w.locals[p])
  }

  ghost predicate Serialised<S, Q>(apply: Operation<S, Q>, initial: S, w: World<S, Q>) {
    RowOk(apply, initial, w) && LocalsOk(apply, initial, w)
  }

  /** A process whose save failed while committing does not save that copy again. */
  ghost predicate Careful<S, Q>(w: World<S, Q>, e: Event<S, Q>) {
    e.Save? && e.p in w.locals ==> !w.locals[e.p].tainted
  }

  ghost predicate CarefulRun<S, Q>(apply: Operation<S, Q>, initial: S, w: World<S, Q>, es: seq<Event<S, Q>>)
    decreases |es|
  {
    es == [] || (Careful(w, es[0]) && CarefulRun(apply, initial, Step(apply, initial, w, es[0]), es[1..]))
  }

  lemma LogGrows<S, Q>(apply: Operation<S, Q>, initial: S, log: seq<Tx<S, Q>>, tx: Tx<S, Q>, l: Local<S, Q>)
    requires LocalOk(apply, initial, log, l)
    ensures LocalOk(apply, initial, log + [tx], l)
  {
    if l.base <= |log| { assert (log + [tx])[..l.base] == log[..l.base]; }
    hide Serial, Execute;
  }

  lemma SerialAppend<S, Q>(apply: Operation<S, Q>, initial: S, log: seq<Tx<S, Q>>, tx: Tx<S, Q>)
    requires Serial(apply, initial, log).Some?
    ensures Serial(apply, initial, log + [tx]) ==
              match tx case Ops(ops) => Execute(apply, Serial(apply, initial, log).value, ops) case Whole(t) => Some(t)
  {
    assert (log + [tx])[..|log|] == log;
  }

  lemma ExecuteAppend<S, Q>(apply: Operation<S, Q>, s: S, ops: seq<Q>, op: Q)
    requires Execute(apply, s, ops).Some?
    ensures Execute(apply, s, ops + [op]) == apply(Execute(apply, s, ops).value, op)
  {
    assert (ops + [op])[..|ops|] == ops;
  }

  lemma UpdateKeeps<S, Q>(apply: Operation<S, Q>, initial: S, w: World<S, Q>, op: Q, commits: bool)
    requires Serialised(apply, initial, w)
    ensures Serialised(apply, initial, UpdateStep(apply, initial, w, op, commits))
  {
    SerialAppend(apply, initial, w.log, Ops([op]));
    ExecuteAppend(apply, Current(w.row, initial), [], op);
    assert [] + [op] == [op];
    forall p | p in w.locals { LogGrows(apply, initial, w.log, Ops([op]), w.locals[p]); }
    hide Serial, Execute, LocalOk;
  }

  lemma ImportKeeps<S, Q>(apply: Operation<S, Q>, initial: S, w: World<S, Q>, state: S, force: bool)
    requires Serialised(apply, initial, w)
    ensures Serialised(apply, initial, ImportStep(w, state, force))
  {
    SerialAppend(apply, initial, w.log, Whole(state));
    forall p | p in w.locals { LogGrows(apply, initial, w.log, Whole(state), w.locals[p]); }
    hide Serial, Execute, LocalOk;
  }

  lemma ComputeKeeps<S, Q>(apply: Operation<S, Q>, initial: S, w: World<S, Q>, p: nat, op: Q)
    requires Serialised(apply, initial, w)
    ensures Serialised(apply, initial, ComputeStep(apply, w, p, op))
  {
    if p in w.locals {
      var l := w.locals[p];
      if l.marker.Some? && !l.tainted { ExecuteAppend(apply, Serial(apply, initial, w.log[..l.base]).value, l.ops, op); }
    }
    hide Serial, Execute;
  }

  lemma LoadKeeps<S, Q>(apply: Operation<S, Q>, initial: S, w: World<S, Q>, p: nat)
    requires Serialised(apply, initial, w)
    ensures Serialised(apply, initial, Step(apply, initial, w, Load(p)))
  {
    assert w.log[..|w.log|] == w.log;
    assert Execute(apply, Current(w.row, initial), []) == Some(Current(w.row, initial));
    hide Serial, Execute;
  }

  lemma SavedRow<S, Q>(apply: Operation<S, Q>, initial: S, w: World<S, Q>, p: nat)
    requires RowOk(apply, initial, w) && p in w.locals && LocalOk(apply, initial, w.log, w.locals[p]) && !w.locals[p].tainted
    requires NextVersion(w.row, w.locals[p].marker).Some?
    ensures var v := SaveStep(w, p, true);
            RowOk(apply, initial, v) && LocalOk(apply, initial, v.log, v.locals[p])
  {
    var l := w.locals[p];
    var v := SaveStep(w, p, true);
    SerialAppend(apply, initial, w.log, if l.marker.Some? then Ops(l.ops) else Whole(l.state));
    assert w.log[..|w.log|] == w.log && v.log[..|v.log|] == v.log;
    assert Execute(apply, l.state, []) == Some(l.state);
    hide Serial, Execute;
  }

  lemma SaveKeeps<S, Q>(apply: Operation<S, Q>, initial: S, w: World<S, Q>, p: nat, commits: bool)
    requires Serialised(apply, initial, w) && Careful(w, Save(p, commits))
    ensures Serialised(apply, initial, SaveStep(w, p, commits))
  {
    if p in w.locals && NextVersion(w.row, w.locals[p].marker).Some? && commits {
      var l := w.locals[p];
      assert LocalOk(apply, initial, w.log, l);
      SavedRow(apply, initial, w, p);
      hide LocalOk, RowOk;
      forall q | q in w.locals
        ensures LocalOk(apply, initial, SaveStep(w, p, commits).log, w.locals[q])
      {
        LogGrows(apply, initial, w.log, if l.marker.Some? then Ops(l.ops) else Whole(l.state), w.locals[q]);
      }
    }
    hide Serial, Execute;
  }

  lemma StepKeeps<S, Q>(apply: Operation<S, Q>, initial: S, w: World<S, Q>, e: Event<S, Q>)
    requires Serialised(apply, initial, w) && Careful(w, e)
    ensures Serialised(apply, initial, Step(apply, initial, w, e))
  {
    match e
    case Load(p) => LoadKeeps(apply, initial, w, p);
    case Compute(p, op) => ComputeKeeps(apply, initial, w, p, op);
    case Save(p, commits) => SaveKeeps(apply, initial, w, p, commits);
    case Update(op, commits) => UpdateKeeps(apply, initial, w, op, commits);
    case Import(state, force) => ImportKeeps(apply, initial, w, state, force);
    case Craft(p, state) => hide Serial, Execute;
    hide SaveStep, UpdateStep, ImportStep, ComputeStep, RowOk, Careful, Serial, Execute;
  }

  /** Main result: for any number of processes and any interleaving of loads, computations, saves, updates and imports,
      the stored state is what its successful writes give one after another, and the version counts them. */
  lemma {:induction false} EveryInterleavingIsSerial<S, Q>(apply: Operation<S, Q>, initial: S, w: World<S, Q>, es: seq<Event<S, Q>>)
    requires Serialised(apply, initial, w) && CarefulRun(apply, initial, w, es)
    ensures Serialised(apply, initial, Run(apply, initial, w, es))
    decreases |es|
  {
    if es != [] {
      StepKeeps(apply, initial, w, es[0]);
      EveryInterleavingIsSerial(apply, initial, Step(apply, initial, w, es[0]), es[1..]);
    }
    hide Step, Serialised, Careful;
  }

  lemma StartSerialised<S, Q>(apply: Operation<S, Q>, initial: S)
    ensures Serialised(apply, initial, Start<S, Q>())
  {
  }

  /** The save takes effect although others have written since the copy was loaded. */
  ghost predicate StaleSaveLands<S, Q>(w: World<S, Q>, p: nat) {
    p in w.locals && w.locals[p].marker.Some? && SaveStep(w, p, true).row != w.row && w.locals[p].base < |w.log|
  }

  /** Bases, markers and versions agree in every run, careful or not. */
  ghost predicate Counted<S, Q>(w: World<S, Q>) {
    && Version(w.row) == |w.log| && (w.row.Absent? <==> w.log == [])
    && forall p :: p in w.locals ==>
         var l := w.locals[p];
         && l.base <= |w.log| && (l.tainted ==> l.marker.Some?)
         && (l.marker.Some? ==> if l.tainted then l.base < l.marker.value else l.base == l.marker.value)
  }

  lemma StepCounts<S, Q>(apply: Operation<S, Q>, initial: S, w: World<S, Q>, e: Event<S, Q>)
    requires Counted(w)
    ensures Counted(Step(apply, initial, w, e))
  {
  }

  lemma {:induction false} RunCounts<S, Q>(apply: Operation<S, Q>, initial: S, w: World<S, Q>, es: seq<Event<S, Q>>)
    requires Counted(w)
    ensures Counted(Run(apply, initial, w, es))
    decreases |es|
  {
    if es != [] {
      StepCounts(apply, initial, w, es[0]);
      RunCounts(apply, initial, Step(apply, initial, w, es[0]), es[1..]);
    }
    hide Counted, Step;
  }

  /** Main result: over any run at all, a save built on a stale load takes effect exactly when the process had a save
      fail while committing, kept its copy, and the marker that failure left equals the current version. */
  lemma StaleSaveLandsIff<S, Q>(apply: Operation<S, Q>, initial: S, es: seq<Event<S, Q>>, p: nat)
    ensures var w := Run(apply, initial, Start(), es);
            StaleSaveLands(w, p) <==>
              p in w.locals && w.locals[p].tainted && w.locals[p].marker == Some(Version(w.row))
  {
    RunCounts(apply, initial, Start(), es);
    hide Run;
  }

  /** What a save does. Without a version marker, or with that of the stored state, it writes the copy as the next version and marks
      it so; if the commit fails only the marker moves. With any other marker, and for a process without a copy, it does nothing. */
  lemma SavingIs<S, Q>(w: World<S, Q>, p: nat, commits: bool)
    ensures var v := SaveStep(w, p, commits);
            if p !in w.locals || (w.locals[p].marker.Some? && w.locals[p].marker.value != Version(w.row)) then v == w
            else var (l, next) := (w.locals[p], Version(w.row) + 1);
                 if commits then v.row == Stored(next, l.state) && |v.log| == |w.log| + 1 && v.log[..|w.log|] == w.log
                                 && p in v.locals && v.locals == w.locals[p := v.locals[p]]
                                 && v.locals[p] == Local(l.state, Some(next), |v.log|, [], false)
                 else v.row == w.row && v.log == w.log && v.locals == w.locals[p := l.(marker := Some(next), tainted := true)]
  {
  }

  /** The event is not one that gives process `p` another copy or saves its copy. */
  predicate LeavesMarker<S, Q>(e: Event<S, Q>, p: nat) {
    !((e.Load? || e.Craft? || e.Save?) && e.p == p)
  }

  lemma {:induction false} MarkerStays<S, Q>(apply: Operation<S, Q>, initial: S, w: World<S, Q>, p: nat, es: seq<Event<S, Q>>)
    requires forall e :: e in es ==> LeavesMarker(e, p)
    ensures var v := Run(apply, initial, w, es);
            p in v.locals ==> p in w.locals && v.locals[p].marker == w.locals[p].marker
    decreases |es|
  {
    if es != [] {
      var v := Step(apply, initial, w, es[0]);
      assert LeavesMarker(es[0], p);
      assert p in v.locals ==> p in w.locals && v.locals[p].marker == w.locals[p].marker;
      MarkerStays(apply, initial, v, p, es[1..]);
    }
  }

  /** Main result: a save writes exactly when nobody has written since its copy was loaded, whatever others and the process itself have
      done in between. */
  lemma SaveLandsIff<S, Q>(apply: Operation<S, Q>, initial: S, w: World<S, Q>, p: nat, es: seq<Event<S, Q>>)
    requires Counted(w) && forall e :: e in es ==> LeavesMarker(e, p)
    ensures var v := Run(apply, initial, Step(apply, initial, w, Load(p)), es);
            p in v.locals ==> (SaveStep(v, p, true) != v <==> |v.log| == |w.log|)
  {
    var u := Step(apply, initial, w, Load(p));
    RunCounts(apply, initial, u, es);
    MarkerStays(apply, initial, u, p, es);
    hide Run, SaveStep;
    SavingIs(Run(apply, initial, u, es), p, true);
  }

  lemma {:induction false} StaysAway<S, Q>(apply: Operation<S, Q>, initial: S, w: World<S, Q>, p: nat, es: seq<Event<S, Q>>)
    requires p !in w.locals && forall e :: e in es ==> !((e.Load? || e.Craft?) && e.p == p)
    ensures p !in Run(apply, initial, w, es).locals
    decreases |es|
  {
    if es != [] {
      assert es[0] in es && p !in Step(apply, initial, w, es[0]).locals;
      StaysAway(apply, initial, Step(apply, initial, w, es[0]), p, es[1..]);
    }
  }

  /** Main result: a process whose operation raised writes nothing until it loads again or makes a state of its own, whatever happens
      in between. */
  lemma RaisedWritesNothing<S, Q>(apply: Operation<S, Q>, initial: S, w: World<S, Q>, p: nat, op: Q, es: seq<Event<S, Q>>, commits: bool)
    requires p in w.locals && apply(w.locals[p].state, op) == None
    requires forall e :: e in es ==> !((e.Load? || e.Craft?) && e.p == p)
    ensures var v := Run(apply, initial, Step(apply, initial, w, Compute(p, op)), es);
            Step(apply, initial, v, Save(p, commits)) == v
  {
    StaysAway(apply, initial, Step(apply, initial, w, Compute(p, op)), p, es);
    hide Run;
  }

  function Add(s: int, n: int): Option<int> {
    Some(s + n)
  }

  /** A concrete run in which a reused copy overwrites another process's update: 10 is added and lost. */
  lemma FailedCommitLosesUpdate()
    ensures var es := [Load(1), Compute(1, 1), Save(1, false), Update(10, true), Save(1, true)];
            var w := Run(Add, 0, Start(), es);
            w.row == Stored(2, 1) && Serial(Add, 0, w.log) == Some(11)
  {
    RunFive(Start(), Load(1), Compute(1, 1), Save(1, false), Update(10, true), Save(1, true));
    LostSteps();
    LostSerial();
    hide *;
  }

  lemma LostSteps()
    ensures var w3: World<int, int> := Step(Add, 0, Step(Add, 0, Step(Add, 0, Start(), Load(1)), Compute(1, 1)), Save(1, false));
            var w5 := Step(Add, 0, Step(Add, 0, w3, Update(10, true)), Save(1, true));
            w5.row == Stored(2, 1) && w5.log == [Ops([10]), Ops([1])]
  {
    var w3: World<int, int> := Step(Add, 0, Step(Add, 0, Step(Add, 0, Start(), Load(1)), Compute(1, 1)), Save(1, false));
    assert [] + [1] == [1];
    assert w3 == World(Absent, map[1 := Local(1, Some(1), 0, [1], true)], []);
    var w4 := Step(Add, 0, w3, Update(10, true));
    assert w4.row == Stored(1, 10) && w4.log == [Ops([10])] && w4.locals == w3.locals;
  }

  lemma LostSerial()
    ensures Serial(Add, 0, [Ops([10]), Ops([1])]) == Some(11)
  {
    var log: seq<Tx<int, int>> := [Ops([10]), Ops([1])];
    assert log[..1] == [Ops([10])] && log[..1][..0] == [];
    assert [10][..0] == [] && [1][..0] == [];
    assert Execute(Add, 0, [10]) == Some(10) && Execute(Add, 10, [1]) == Some(11);
  }

  lemma RunFive(w: World<int, int>, a: Event<int, int>, b: Event<int, int>, c: Event<int, int>, d: Event<int, int>, e: Event<int, int>)
    ensures Run(Add, 0, w, [a, b, c, d, e]) ==
              Step(Add, 0, Step(Add, 0, Step(Add, 0, Step(Add, 0, Step(Add, 0, w, a), b), c), d), e)
  {
    hide *;
    var w1 := Step(Add, 0, w, a);
    var w2 := Step(Add, 0, w1, b);
    var w3 := Step(Add, 0, w2, c);
    var w4 := Step(Add, 0, w3, d);
    RunOne(w, [a, b, c, d, e]);
    RunOne(w1, [b, c, d, e]);
    RunOne(w2, [c, d, e]);
    RunOne(w3, [d, e]);
    RunOne(w4, [e]);
    assert [a, b, c, d, e][1..] == [b, c, d, e] && [b, c, d, e][1..] == [c, d, e] && [c, d, e][1..] == [d, e] && [d, e][1..] == [e];
    assert [e][1..] == [];
    RunNone(Step(Add, 0, w4, e));
  }

  lemma RunOne(w: World<int, int>, es: seq<Event<int, int>>)
    requires es != []
    ensures Run(Add, 0, w, es) == Run(Add, 0, Step(Add, 0, w, es[0]), es[1..])
  {
  }

  lemma RunNone(w: World<int, int>)
    ensures Run(Add, 0, w, []) == w
  {
  }
}
