/** The repository object, and several server processes sharing one vault through it. */
module Deployment {
  import opened Basics
  import opened Repository
  import opened Vault
  import VaultChain
  import VaultRuns

  /** One process with its copy, before the row as it is. */
  function Alone<S, Q>(row: Row<S>, state: S, marker: Option<nat>): World<S, Q> {
    World(row, map[0 := Local(state, marker, 0, [], false)], [])
  }

  /** What a call does to the row and to the caller's marker depends on these two and the caller's state alone:
      the repository's methods below are the steps of every run of `Repository`. */
  lemma StepsAlone<S, Q>(apply: Operation<S, Q>, initial: S, w: World<S, Q>, p: nat, commits: bool, op: Q, state: S, force: bool)
    requires p in w.locals
    ensures var l := w.locals[p];
            var a := Alone<S, Q>(w.row, l.state, l.marker);
            && SaveStep(w, p, commits).row == SaveStep(a, 0, commits).row
            && SaveStep(w, p, commits).locals[p].marker == SaveStep(a, 0, commits).locals[0].marker
            && UpdateStep(apply, initial, w, op, commits).row == UpdateStep(apply, initial, a, op, commits).row
            && ImportStep(w, state, force).row == ImportStep(a, state, force).row
            && Step(apply, initial, w, Event.Load(p)).locals[p].state == Step(apply, initial, a, Event.Load(0)).locals[0].state
            && Step(apply, initial, w, Event.Load(p)).locals[p].marker == Step(apply, initial, a, Event.Load(0)).locals[0].marker
  {
  }

  /** The `sync_state` row behind its transactions: a transaction's write shows only if its commit goes through. */
  class SqliteRepository<S, Q> {
    var row: Row<S>

    constructor ()
      ensures row == Absent
    {
      row := Absent;
    }

    method Load(initial: S) returns (state: S, marker: nat)
      ensures state == Current(row, initial) && marker == Version(row)
      ensures forall apply: Operation<S, Q> ::
                var l := Step(apply, initial, Alone<S, Q>(row, initial, None), Event.Load(0)).locals[0];
                l.state == state && l.marker == Some(marker)
    {
      if row.Absent? {
        return initial, 0;
      }
      state, marker := row.payload, row.version;
    }

    /** Saves a copy if its marker is current; the marker moves on even when the commit then fails. */
    method Save(state: S, marker: Option<nat>, commits: bool) returns (saved: bool, next: Option<nat>)
      modifies this
      ensures saved <==> NextVersion(old(row), marker).Some? && commits
      ensures next == if NextVersion(old(row), marker).Some? then NextVersion(old(row), marker) else marker
      ensures row == if saved then Stored(next.value, state) else old(row)
      ensures Version(row) == Version(old(row)) + if saved then 1 else 0
      ensures var w := SaveStep(Alone<S, Q>(old(row), state, marker), 0, commits);
              row == w.row && next == w.locals[0].marker
    {
      var version;
      if row.Absent? {
        if marker.Some? && marker.value != 0 {
          return false, marker;
        }
        version := 1;
      } else {
        if marker.Some? && marker.value != row.version {
          return false, marker;
        }
        version := row.version + 1;
      }
      var written := Stored(version, state);
      next := Some(version);
      if !commits {
        return false, next;
      }
      row := written;
      saved := true;
    }

    /** Reads, applies and writes under one lock; an operation that raises rolls everything back. */
    method Update(apply: Operation<S, Q>, initial: S, op: Q, commits: bool) returns (done: bool)
      modifies this
      ensures done <==> commits && apply(Current(old(row), initial), op).Some?
      ensures row == if done then Stored(Version(old(row)) + 1, apply(Current(old(row), initial), op).value) else old(row)
      ensures row == UpdateStep(apply, initial, Alone<S, Q>(old(row), initial, None), op, commits).row
    {
      var state, next := initial, 1;
      if row.Stored? {
        state, next := row.payload, row.version + 1;
      }
      var result := apply(state, op);
      if result.None? || !commits {
        return false;
      }
      row := Stored(next, result.value);
      done := true;
    }

    method ImportState(state: S, force: bool) returns (imported: bool)
      modifies this
      ensures imported <==> old(row).Absent? || force
      ensures row == if imported then Stored(Version(old(row)) + 1, state) else old(row)
      ensures row == ImportStep(Alone<S, Q>(old(row), state, None), state, force).row
    {
      if row.Stored? && !force {
        return false;
      }
      var next := if row.Absent? then 1 else row.version + 1;
      row := Stored(next, state);
      imported := true;
    }
  }

  // Server processes.

  /** A server call on the vault: a rejected request raises and leaves nothing behind. */
  function VaultOp(env: Env): Operation<VaultState, Request> {
    (v: VaultState, q: Request) => if Serve(env, v, q).1.Rejected? then None else Some(Serve(env, v, q).0)
  }

  /** The requests behind a list of writes, in commit order. */
  function Requests(log: seq<Tx<VaultState, Request>>): seq<Request> {
    if log == [] then []
    else Requests(log[..|log| - 1]) + match log[|log| - 1] case Ops(ops) => ops case Whole(_) => []
  }

  lemma {:induction false} ServingAppend(env: Env, v: VaultState, a: seq<Request>, b: seq<Request>)
    ensures Serving(env, v, a + b) == Serving(env, Serving(env, v, a), b)
    decreases |a|
  {
    hide Serve;
    if a == [] {
      assert a + b == b;
    } else {
      assert (a + b)[1..] == a[1..] + b;
      ServingAppend(env, Serve(env, v, a[0]).0, a[1..], b);
    }
  }

  lemma {:induction false} ExecuteIsServing(env: Env, v: VaultState, ops: seq<Request>)
    requires Execute(VaultOp(env), v, ops).Some?
    ensures Execute(VaultOp(env), v, ops).value == Serving(env, v, ops)
    decreases |ops|
  {
    hide Serve;
    if ops != [] {
      var init := ops[..|ops| - 1];
      ExecuteIsServing(env, v, init);
      ServingAppend(env, v, init, [ops[|ops| - 1]]);
      assert ops == init + [ops[|ops| - 1]];
      assert [ops[|ops| - 1]][1..] == [];
    }
  }

  lemma {:induction false} SerialIsServing(env: Env, v: VaultState, log: seq<Tx<VaultState, Request>>)
    requires Serial(VaultOp(env), v, log).Some? && forall tx :: tx in log ==> tx.Ops?
    ensures Serial(VaultOp(env), v, log).value == Serving(env, v, Requests(log))
    decreases |log|
  {
    hide VaultOp;
    if log != [] {
      var init := log[..|log| - 1];
      assert log[|log| - 1] in log && forall tx :: tx in init ==> tx in log;
      SerialIsServing(env, v, init);
      ExecuteIsServing(env, Serving(env, v, Requests(init)), log[|log| - 1].ops);
      ServingAppend(env, v, Requests(init), log[|log| - 1].ops);
      hide Execute, Serving;
    }
  }

  /** Main result: several server processes over one database, interleaved in any way, leave the vault a single
      server would have left serving the committed requests in commit order; so it is always valid. */
  lemma ProcessesAreOneServer(env: Env, id: string, blobs: set<string>, es: seq<Event<VaultState, Request>>)
    requires EnvOk(env) && CarefulRun(VaultOp(env), NewVault(id, blobs), Start(), es)
    requires forall tx :: tx in Run(VaultOp(env), NewVault(id, blobs), Start(), es).log ==> tx.Ops?
    requires VaultChain.FreshRun(env, NewVault(id, blobs), Requests(Run(VaultOp(env), NewVault(id, blobs), Start(), es).log))
    ensures var w := Run(VaultOp(env), NewVault(id, blobs), Start(), es);
            && Current(w.row, NewVault(id, blobs)) == Serving(env, NewVault(id, blobs), Requests(w.log))
            && VaultChain.Valid(env, Current(w.row, NewVault(id, blobs)))
  {
    hide *;
    var v := NewVault(id, blobs);
    var w := Run(VaultOp(env), v, Start(), es);
    StartSerialised(VaultOp(env), v);
    EveryInterleavingIsSerial(VaultOp(env), v, Start(), es);
    SerialisedRow(VaultOp(env), v, w);
    SerialIsServing(env, v, w.log);
    VaultRuns.NewVaultValid(env, id, blobs);
    VaultRuns.RunKeeps(env, v, Requests(w.log));
    KeptValid(env, v, Serving(env, v, Requests(w.log)));
  }

  lemma SerialisedRow<S, Q>(apply: Operation<S, Q>, initial: S, w: World<S, Q>)
    requires Serialised(apply, initial, w)
    ensures Serial(apply, initial, w.log) == Some(Current(w.row, initial))
  {
  }

  lemma KeptValid(env: Env, v: VaultState, w: VaultState)
    requires VaultChain.Kept(env, v, w)
    ensures VaultChain.Valid(env, w)
  {
  }
}
