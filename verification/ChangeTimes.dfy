/** The times a plan gives: every move and every deletion comes one after all it has to follow. */
module ChangeTimes {
  import opened Basics
  import opened Ordering
  import opened ChangePlan
  import opened ChangeFacts
  import opened ChangeStages
  import opened ChangeProofs
  import ChangeResults
  import opened ChangeScene

  /** A record whose turn it is, and a time it has to follow. */
  datatype Turn = Turn(id: string, floor: nat)

  /** The times of the turns that come after `now`. */
  function Ticks(now: nat, us: seq<Turn>): (r: seq<nat>)
    ensures |r| == |us|
    decreases |us|
  {
    if us == [] then [] else var t := Max(now, us[0].floor) + 1; [t] + Ticks(t, us[1..])
  }

  function Last(now: nat, times: seq<nat>): nat {
    if times == [] then now else times[|times| - 1]
  }

  /** Each time is one more than the latest of `now`, its floor and the times before it. */
  lemma {:induction false} TicksRise(now: nat, us: seq<Turn>, i: nat)
    requires i < |us|
    ensures var r := Ticks(now, us);
            && r[i] > now && r[i] > us[i].floor && (forall j :: 0 <= j < i ==> r[j] < r[i])
            && ((i == 0 && r[i] == now + 1) || r[i] == us[i].floor + 1 || (i > 0 && r[i] == r[i - 1] + 1))
    decreases |us|
  {
    var t := Max(now, us[0].floor) + 1;
    if i > 0 {
      TicksRise(t, us[1..], i - 1);
      var (r, rest) := (Ticks(now, us), Ticks(t, us[1..]));
      assert r == [t] + rest && us[i] == us[1..][i - 1];
      assert forall j :: 0 < j <= i ==> r[j] == rest[j - 1];
    }
  }

  lemma {:induction false} TicksJoin(now: nat, us: seq<Turn>, vs: seq<Turn>)
    ensures Ticks(now, us + vs) == Ticks(now, us) + Ticks(Last(now, Ticks(now, us)), vs)
    decreases |us|
  {
    if us == [] {
      assert us + vs == vs;
    } else {
      var t := Max(now, us[0].floor) + 1;
      assert (us + vs)[0] == us[0] && (us + vs)[1..] == us[1..] + vs;
      TicksJoin(t, us[1..], vs);
      assert Last(now, [t] + Ticks(t, us[1..])) == Last(t, Ticks(t, us[1..]));
    }
  }

  // What the stages do to times.

  /** The records keep their ids, those whose turn it was have the time of their turn and the others their own. */
  ghost predicate Stamped(a: seq<FileRecord>, b: seq<FileRecord>, us: seq<Turn>, times: seq<nat>) {
    && |a| == |b| && |us| == |times|
    && forall k :: 0 <= k < |a| ==>
         && b[k].id == a[k].id
         && (forall i :: 0 <= i < |us| && us[i].id == a[k].id ==> b[k].updatedAt == times[i])
         && ((forall i :: 0 <= i < |us| ==> us[i].id != a[k].id) ==> b[k].updatedAt == a[k].updatedAt)
  }

  ghost predicate Apart(us: seq<Turn>) {
    forall i, j :: 0 <= i < j < |us| ==> us[i].id != us[j].id
  }

  lemma NoneStamped(a: seq<FileRecord>)
    ensures Stamped(a, a, [], [])
  {
  }

  lemma StampedJoin(a: seq<FileRecord>, b: seq<FileRecord>, c: seq<FileRecord>, us: seq<Turn>, ts: seq<nat>, vs: seq<Turn>, tt: seq<nat>)
    requires Stamped(a, b, us, ts) && Stamped(b, c, vs, tt) && Apart(us + vs)
    ensures Stamped(a, c, us + vs, ts + tt)
  {
    var (ws, times) := (us + vs, ts + tt);
    forall k | 0 <= k < |a|
      ensures c[k].id == a[k].id
      ensures forall i :: 0 <= i < |ws| && ws[i].id == a[k].id ==> c[k].updatedAt == times[i]
      ensures (forall i :: 0 <= i < |ws| ==> ws[i].id != a[k].id) ==> c[k].updatedAt == a[k].updatedAt
    {
      StampedAt(a, b, us, ts, k);
      StampedAt(b, c, vs, tt, k);
      hide Stamped;
      assert forall i :: 0 <= i < |us| ==> ws[i] == us[i];
      assert forall i :: 0 <= i < |vs| ==> ws[|us| + i] == vs[i];
      forall i | 0 <= i < |ws| && ws[i].id == a[k].id
        ensures c[k].updatedAt == times[i]
      {
        if i < |us| {
          assert forall j :: 0 <= j < |vs| ==> vs[j] == ws[|us| + j] && vs[j].id != ws[i].id;
        } else {
          assert vs[i - |us|].id == b[k].id;
        }
      }
    }
  }

  lemma StampedAt(a: seq<FileRecord>, b: seq<FileRecord>, us: seq<Turn>, times: seq<nat>, k: nat)
    requires Stamped(a, b, us, times) && k < |a|
    ensures |a| == |b| && |us| == |times| && b[k].id == a[k].id
    ensures forall i :: 0 <= i < |us| && us[i].id == a[k].id ==> b[k].updatedAt == times[i]
    ensures (forall i :: 0 <= i < |us| ==> us[i].id != a[k].id) ==> b[k].updatedAt == a[k].updatedAt
  {
  }

  lemma RewriteStamped(a: seq<FileRecord>, id: string, g: FileRecord -> FileRecord, floor: nat, t: nat)
    requires forall r :: g(r).id == r.id && g(r).updatedAt == t
    ensures Stamped(a, Rewrite(a, id, g), [Turn(id, floor)], [t])
  {
    var (b, us, times) := (Rewrite(a, id, g), [Turn(id, floor)], [t]);
    hide Rewrite;
    forall k | 0 <= k < |a|
      ensures b[k].id == a[k].id
      ensures forall i :: 0 <= i < |us| && us[i].id == a[k].id ==> b[k].updatedAt == times[i]
      ensures (forall i :: 0 <= i < |us| ==> us[i].id != a[k].id) ==> b[k].updatedAt == a[k].updatedAt
    {
      assert us[0].id == id;
    }
  }

  /** What a rename has to follow: the time of its record and that of its file. */
  function RenameFloor(ws: Workspace, files: seq<FileRecord>, e: Rename): nat {
    var r := LastRecord(files, e.id);
    Max(if r.Some? then r.value.updatedAt else 0, if e.target.path in ws then ws[e.target.path].mtime else 0)
  }

  function RenameTurns(ws: Workspace, files: seq<FileRecord>, rs: seq<Rename>): seq<Turn> {
    Map((e: Rename) => Turn(e.id, RenameFloor(ws, files, e)), rs)
  }

  function DeleteTurns(files: seq<FileRecord>, ids: set<string>): seq<Turn> {
    Map((r: FileRecord) => Turn(r.id, r.updatedAt), Doomed(files, ids))
  }

  lemma OneTick(now: nat, u: Turn, us: seq<Turn>)
    ensures Ticks(now, [u]) == [Max(now, u.floor) + 1]
    ensures Ticks(now, [u] + us) == [Max(now, u.floor) + 1] + Ticks(Max(now, u.floor) + 1, us)
  {
    assert [u][1..] == [] && ([u] + us)[1..] == us;
  }

  lemma TailApart(us: seq<Turn>)
    requires us != [] && Apart(us)
    ensures Apart(us[1..]) && us == [us[0]] + us[1..]
  {
  }

  lemma MaxOfThree(a: nat, b: nat, c: nat)
    ensures Max(Max(a, b), c) == Max(a, Max(b, c))
  {
  }

  lemma RenameTicks(env: Env, ws: Workspace, files: seq<FileRecord>, st: State, e: Rename)
    requires RenameOne(env, ws, files, st, e).Ok?
    ensures var t := RenameOne(env, ws, files, st, e).value;
            var at := Max(st.doc.updatedAt, RenameFloor(ws, files, e)) + 1;
            && Stamped(st.doc.files, t.doc.files, [Turn(e.id, RenameFloor(ws, files, e))], [at])
            && t.doc.updatedAt == at && t.doc.vault == st.doc.vault
  {
    hide Stamped, Occupied, LastRecord, Max, Rewrite;
    var r := LastRecord(files, e.id).value;
    var f := ws[e.target.path];
    MaxOfThree(st.doc.updatedAt, r.updatedAt, f.mtime);
    var at := Max(st.doc.updatedAt, RenameFloor(ws, files, e)) + 1;
    RewriteStamped(st.doc.files, e.id, Renaming(env, f, e.target.path, at), RenameFloor(ws, files, e), at);
  }

  lemma {:induction false} RenamesTick(env: Env, ws: Workspace, files: seq<FileRecord>, st: State, rs: seq<Rename>)
    requires RenameAll(env, ws, files, st, rs).Ok? && Apart(RenameTurns(ws, files, rs))
    ensures var (t, us) := (RenameAll(env, ws, files, st, rs).value, RenameTurns(ws, files, rs));
            var times := Ticks(st.doc.updatedAt, us);
            Stamped(st.doc.files, t.doc.files, us, times) && t.doc.updatedAt == Last(st.doc.updatedAt, times) && t.doc.vault == st.doc.vault
    decreases |rs|
  {
    hide Stamped, RenameOne, Max, RenameFloor, Apart;
    var us := RenameTurns(ws, files, rs);
    if rs == [] {
      NoneStamped(st.doc.files);
    } else {
      var v := RenameOne(env, ws, files, st, rs[0]).value;
      assert us[1..] == RenameTurns(ws, files, rs[1..]) && us[0] == Turn(rs[0].id, RenameFloor(ws, files, rs[0]));
      RenameTicks(env, ws, files, st, rs[0]);
      TailApart(us);
      RenamesTick(env, ws, files, v, rs[1..]);
      OneTick(st.doc.updatedAt, us[0], us[1..]);
      hide RenameTurns, RenameAll, Ticks;
      StampedJoin(st.doc.files, v.doc.files, RenameAll(env, ws, files, v, rs[1..]).value.doc.files,
                  [us[0]], [v.doc.updatedAt], us[1..], Ticks(v.doc.updatedAt, us[1..]));
    }
  }

  lemma DeleteTicks(st: State, r: FileRecord, device: Option<string>)
    ensures var t := DeleteOne(st, r, device);
            var at := Max(st.doc.updatedAt, r.updatedAt) + 1;
            && Stamped(st.doc.files, t.doc.files, [Turn(r.id, r.updatedAt)], [at]) && t.doc.updatedAt == at && t.doc.vault == st.doc.vault
  {
    hide Stamped, LastRecord, Max, Rewrite;
    var at := Max(st.doc.updatedAt, r.updatedAt) + 1;
    RewriteStamped(st.doc.files, r.id, Deletion(at), r.updatedAt, at);
  }

  lemma {:induction false} DeletesTick(st: State, files: seq<FileRecord>, ids: set<string>, device: Option<string>)
    requires Apart(DeleteTurns(files, ids))
    ensures var (t, us) := (DeleteAll(st, files, ids, device), DeleteTurns(files, ids));
            var times := Ticks(st.doc.updatedAt, us);
            Stamped(st.doc.files, t.doc.files, us, times) && t.doc.updatedAt == Last(st.doc.updatedAt, times) && t.doc.vault == st.doc.vault
    decreases |files|
  {
    hide Stamped, DeleteOne, Max, Apart;
    var us := DeleteTurns(files, ids);
    if files == [] {
      NoneStamped(st.doc.files);
    } else if files[0].id !in ids {
      assert us == DeleteTurns(files[1..], ids);
      DeletesTick(st, files[1..], ids, device);
    } else {
      var v := DeleteOne(st, files[0], device);
      assert us[1..] == DeleteTurns(files[1..], ids) && us[0] == Turn(files[0].id, files[0].updatedAt);
      DeleteTicks(st, files[0], device);
      TailApart(us);
      DeletesTick(v, files[1..], ids, device);
      OneTick(st.doc.updatedAt, us[0], us[1..]);
      hide DeleteTurns, DeleteAll, Ticks;
      StampedJoin(st.doc.files, v.doc.files, DeleteAll(v, files[1..], ids, device).doc.files,
                  [us[0]], [v.doc.updatedAt], us[1..], Ticks(v.doc.updatedAt, us[1..]));
    }
  }

  /** The old records stay as they are; if records are added the document has the time of the last. */
  ghost predicate Grown(x: Scene, a: Document, b: Document) {
    && |a.files| <= |b.files| && |x.files| <= |a.files| && b.files[..|x.files|] == a.files[..|x.files|] && b.vault == a.vault
    && if |b.files| == |a.files| then b == a else b.updatedAt == b.files[|b.files| - 1].updatedAt
  }

  ghost predicate OldIds(x: Scene, files: seq<FileRecord>) {
    |x.files| <= |files| && forall k :: 0 <= k < |x.files| ==> files[k].id == x.files[k].id
  }

  lemma AddGrows(x: Scene, st: State, c: Change)
    requires FreshIds(x) && OldIds(x, st.doc.files) && c.path in x.ws
    ensures var t := AddStep(x.env, st, x.ws[c.path], c);
            Grown(x, st.doc, t.doc) && OldIds(x, t.doc.files) && |t.doc.files| == |st.doc.files| + 1
  {
    var t := AddStep(x.env, st, x.ws[c.path], c);
    forall k | 0 <= k < |x.files|
      ensures t.doc.files[k] == st.doc.files[k]
    {
      assert x.files[k] in x.files;
    }
  }

  lemma {:induction false} AddsGrow(x: Scene, st: State, changes: seq<Change>, consumed: set<string>)
    requires FreshIds(x) && OldIds(x, st.doc.files) && AddAll(x.env, x.ws, st, changes, consumed).Ok?
    ensures Grown(x, st.doc, AddAll(x.env, x.ws, st, changes, consumed).value.doc)
    decreases |changes|
  {
    hide FreshIds, AddStep, Occupied;
    if changes != [] {
      var c := changes[0];
      if !c.kind.Untracked? || c.path in consumed {
        AddsGrow(x, st, changes[1..], consumed);
      } else {
        AddGrows(x, st, c);
        AddsGrow(x, AddStep(x.env, st, x.ws[c.path], c), changes[1..], consumed);
      }
    }
  }

  /** `now` is the latest of `start` and the times of the files to refresh. */
  ghost predicate LatestFile(ws: Workspace, files: seq<FileRecord>, ids: set<string>, start: nat, now: nat) {
    && start <= now
    && (forall r :: r in files && r.id in ids && r.path in ws ==> ws[r.path].mtime <= now)
    && (now == start || exists r :: r in files && r.id in ids && r.path in ws && ws[r.path].mtime == now)
  }

  lemma LatestMore(ws: Workspace, files: seq<FileRecord>, ids: set<string>, start: nat, mid: nat, now: nat)
    requires files != [] && LatestFile(ws, files[..1], ids, start, mid) && LatestFile(ws, files[1..], ids, mid, now)
    ensures LatestFile(ws, files, ids, start, now)
  {
    assert files == files[..1] + files[1..];
  }

  lemma {:induction false} RefreshLatest(env: Env, ws: Workspace, files: seq<FileRecord>, ids: set<string>, st: State)
    requires Refresh(env, ws, files, ids, st).Ok?
    ensures var t := Refresh(env, ws, files, ids, st).value;
            LatestFile(ws, files, ids, st.doc.updatedAt, t.doc.updatedAt) && t.doc.vault == st.doc.vault
    decreases |files|
  {
    if files != [] {
      var r := files[0];
      var v := if r.id !in ids then st.(doc := st.doc.(files := st.doc.files + [r])) else RefreshStep(env, ws, r, ids, st);
      RefreshLatest(env, ws, files[1..], ids, v);
      assert files[..1] == [r];
      assert LatestFile(ws, files[..1], ids, st.doc.updatedAt, v.doc.updatedAt) by {
        if r.id in ids { assert r in files[..1]; }
      }
      LatestMore(ws, files, ids, st.doc.updatedAt, v.doc.updatedAt, Refresh(env, ws, files, ids, st).value.doc.updatedAt);
    }
  }

  // The whole plan.

  /** The turns of a plan: the moves in the order they are carried out, then the deletions in that of the document. */
  function Turns(x: Scene): seq<Turn> {
    RenameTurns(x.ws, x.files, Ordered(x)) + DeleteTurns(x.files, Lost(x))
  }

  ghost predicate For(us: seq<Turn>, ids: set<string>) {
    forall i :: 0 <= i < |us| ==> us[i].id in ids
  }

  lemma RenamesApart(x: Scene)
    requires SceneOk(x)
    ensures Apart(RenameTurns(x.ws, x.files, Ordered(x))) && For(RenameTurns(x.ws, x.files, Ordered(x)), RenamedIds(MatchRenames(x.files, x.changes)))
  {
    var rs := Ordered(x);
    var us := RenameTurns(x.ws, x.files, rs);
    MatchedRenames(x.env, x.ws, x.files, x.changes);
    OrderedApart(x);
    OrderedIsSame(x);
    hide SceneOk, Ordered, MatchRenames, GoodRename, RenameFloor, Ordering.Map;
    assert forall i :: 0 <= i < |us| ==> us[i].id == rs[i].id && rs[i] in rs;
  }

  lemma DeletesApart(x: Scene)
    requires SceneOk(x)
    ensures Apart(DeleteTurns(x.files, Lost(x))) && For(DeleteTurns(x.files, Lost(x)), Lost(x))
  {
    var ds := Doomed(x.files, Lost(x));
    var us := DeleteTurns(x.files, Lost(x));
    ChangeResults.DoomedAre(x.files, Lost(x));
    SceneUnique(x);
    hide SceneOk, Lost, Doomed, Ordering.Map;
    assert forall i :: 0 <= i < |us| ==> us[i].id == ds[i].id && ds[i] in ds;
  }

  lemma JoinApart(us: seq<Turn>, vs: seq<Turn>, a: set<string>, b: set<string>)
    requires Apart(us) && Apart(vs) && For(us, a) && For(vs, b) && a !! b
    ensures Apart(us + vs)
  {
  }

  lemma TurnsApart(x: Scene)
    requires SceneOk(x)
    ensures Apart(RenameTurns(x.ws, x.files, Ordered(x))) && Apart(DeleteTurns(x.files, Lost(x))) && Apart(Turns(x))
  {
    RenamesApart(x);
    DeletesApart(x);
    LostApart(x);
    hide SceneOk, RenameTurns, DeleteTurns, Lost, MatchRenames, Apart, For;
    JoinApart(RenameTurns(x.ws, x.files, Ordered(x)), DeleteTurns(x.files, Lost(x)), RenamedIds(MatchRenames(x.files, x.changes)), Lost(x));
  }

  /** Each record whose turn it was has the time of its turn. */
  ghost predicate Stamps(x: Scene, now: nat, files: seq<FileRecord>) {
    && |x.files| <= |files|
    && forall k, i :: 0 <= k < |x.files| && 0 <= i < |Turns(x)| && Turns(x)[i].id == x.files[k].id ==>
         files[k].updatedAt == Ticks(now, Turns(x))[i]
  }

  lemma StampsAll(x: Scene, now: nat, a: seq<FileRecord>, b: seq<FileRecord>, c: seq<FileRecord>)
    requires OldIds(x, a) && |a| == |x.files| && Stamped(a, b, Turns(x), Ticks(now, Turns(x)))
    requires |x.files| <= |c| && |x.files| <= |b| && c[..|x.files|] == b[..|x.files|]
    ensures Stamps(x, now, c)
  {
    hide Turns, Ticks;
    assert forall k :: 0 <= k < |x.files| ==> c[k] == c[..|x.files|][k] && b[k] == b[..|x.files|][k];
    forall k, i | 0 <= k < |x.files| && 0 <= i < |Turns(x)| && Turns(x)[i].id == x.files[k].id
      ensures c[k].updatedAt == Ticks(now, Turns(x))[i]
    {
      StampedAt(a, b, Turns(x), Ticks(now, Turns(x)), k);
    }
  }

  lemma StampedIds(x: Scene, a: seq<FileRecord>, b: seq<FileRecord>, us: seq<Turn>, times: seq<nat>)
    requires OldIds(x, a) && Stamped(a, b, us, times)
    ensures OldIds(x, b) && |a| == |b|
  {
  }

  lemma RefreshedIds(x: Scene, ids: set<string>, st: State)
    requires Refreshed(x.env, x.ws, x.files, ids, st)
    ensures OldIds(x, st.doc.files) && |st.doc.files| == |x.files|
  {
    hide Reads;
  }

  lemma PlanRuns(x: Scene, doc: Document, ts: seq<Tombstone>, deleteSeq: nat, device: Option<string>, p: State)
      returns (refreshed: State, renamed: State, deleted: State, added: State)
    requires ChangeResults.Plan(x, doc, ts, deleteSeq, device, p)
    ensures Refresh(x.env, x.ws, x.files, IdsOf(x.changes, Modified), State(doc.(files := []), map[], ts, deleteSeq)) == Ok(refreshed)
    ensures RenameAll(x.env, x.ws, x.files, refreshed, Ordered(x)) == Ok(renamed)
    ensures deleted == DeleteAll(renamed, x.files, Lost(x), device)
    ensures AddAll(x.env, x.ws, deleted, x.changes, Consumed(MatchRenames(x.files, x.changes))) == Ok(added)
    ensures CheckAll(x.ws, added, added.doc.files) == Ok(p)
  {
    hide Refresh, RenameAll, DeleteAll, AddAll, CheckAll, MatchRenames, IdsOf, Sort, RenamedIds, Consumed, SceneOk;
    refreshed := Refresh(x.env, x.ws, x.files, IdsOf(x.changes, Modified), State(doc.(files := []), map[], ts, deleteSeq)).value;
    renamed := RenameAll(x.env, x.ws, x.files, refreshed, Ordered(x)).value;
    deleted := DeleteAll(renamed, x.files, Lost(x), device);
    added := AddAll(x.env, x.ws, deleted, x.changes, Consumed(MatchRenames(x.files, x.changes))).value;
  }

  lemma PlanTicks(x: Scene, doc: Document, ts: seq<Tombstone>, deleteSeq: nat, device: Option<string>, p: State) returns (now: nat)
    requires ChangeResults.Plan(x, doc, ts, deleteSeq, device, p)
    ensures LatestFile(x.ws, x.files, IdsOf(x.changes, Modified), doc.updatedAt, now)
    ensures Stamps(x, now, p.doc.files) && p.doc.vault == doc.vault
    ensures p.doc.updatedAt == if |p.doc.files| == |x.files| then Last(now, Ticks(now, Turns(x))) else p.doc.files[|p.doc.files| - 1].updatedAt
  {
    hide *;
    PlanScene(x, doc, ts, deleteSeq, device, p);
    var a := ChangeResults.Unpack(x, doc, ts, deleteSeq, device, p);
    var refreshed, renamed, deleted, added := PlanRuns(x, doc, ts, deleteSeq, device, p);
    var start := State(doc.(files := []), map[], ts, deleteSeq);
    var again := RefreshedFrom(x, start);
    RefreshedIds(x, IdsOf(x.changes, Modified), refreshed);
    RefreshLatest(x.env, x.ws, x.files, IdsOf(x.changes, Modified), start);
    now := refreshed.doc.updatedAt;
    TurnsApart(x);
    var (us, vs) := (RenameTurns(x.ws, x.files, Ordered(x)), DeleteTurns(x.files, Lost(x)));
    RenamesTick(x.env, x.ws, x.files, refreshed, Ordered(x));
    DeletesTick(renamed, x.files, Lost(x), device);
    TicksJoin(now, us, vs);
    TurnsAre(x);
    StampedJoin(refreshed.doc.files, renamed.doc.files, deleted.doc.files, us, Ticks(now, us), vs, Ticks(renamed.doc.updatedAt, vs));
    StampedIds(x, refreshed.doc.files, deleted.doc.files, Turns(x), Ticks(now, Turns(x)));
    SceneFresh(x);
    AddsGrow(x, deleted, x.changes, Consumed(MatchRenames(x.files, x.changes)));
    GrownParts(x, deleted.doc, added.doc);
    StampsAll(x, now, refreshed.doc.files, deleted.doc.files, added.doc.files);
    CheckKeeps(x.ws, added, added.doc.files);
    LastJoin(now, Ticks(now, us), Ticks(renamed.doc.updatedAt, vs));
  }

  lemma TurnsAre(x: Scene)
    ensures Turns(x) == RenameTurns(x.ws, x.files, Ordered(x)) + DeleteTurns(x.files, Lost(x))
  {
  }

  lemma LastJoin(now: nat, a: seq<nat>, b: seq<nat>)
    ensures Last(now, a + b) == Last(Last(now, a), b)
  {
  }

  lemma SceneFresh(x: Scene)
    requires SceneOk(x)
    ensures FreshIds(x)
  {
  }

  lemma GrownParts(x: Scene, a: Document, b: Document)
    requires Grown(x, a, b)
    ensures |x.files| <= |a.files| <= |b.files| && b.files[..|x.files|] == a.files[..|x.files|] && b.vault == a.vault
    ensures b.updatedAt == if |b.files| == |a.files| then a.updatedAt else b.files[|b.files| - 1].updatedAt
  {
  }

  // The turns told from the scene.

  /** The plan moves or deletes the record. */
  ghost predicate Handled(x: Scene, r: FileRecord) {
    Gone(x, r) || exists path :: RenamedTo(x, r, path)
  }

  /** Record `j` is moved before record `k` is moved or deleted, or deleted before it. */
  ghost predicate Sooner(x: Scene, j: nat, k: nat)
    requires j < |x.files| && k < |x.files|
  {
    || (exists a :: RenamedTo(x, x.files[j], a) && Gone(x, x.files[k]))
    || (exists a, b :: RenamedTo(x, x.files[j], a) && RenamedTo(x, x.files[k], b) && StrLeq(a, b) && a != b)
    || (Gone(x, x.files[j]) && Gone(x, x.files[k]) && j < k)
  }

  /** Turn `i` is that of record `k`. */
  ghost predicate TurnIs(x: Scene, k: nat, i: nat) {
    && k < |x.files| && i < |Turns(x)| && Turns(x)[i].id == x.files[k].id
    && if i < |Ordered(x)|
       then var path := Ordered(x)[i].target.path;
            RenamedTo(x, x.files[k], path) && path in x.ws && Turns(x)[i].floor == Max(x.files[k].updatedAt, x.ws[path].mtime)
       else && Gone(x, x.files[k]) && Turns(x)[i].floor == x.files[k].updatedAt
            && i - |Ordered(x)| < |Doomed(x.files, Lost(x))| && Doomed(x.files, Lost(x))[i - |Ordered(x)|] == x.files[k]
  }

  lemma OnePath(x: Scene, r: FileRecord, a: string, b: string)
    requires RenamedTo(x, r, a) && RenamedTo(x, r, b)
    ensures a == b && !Gone(x, r)
  {
  }

  lemma RenamedFacts(x: Scene, r: FileRecord, path: string)
    requires RenamedTo(x, r, path)
    ensures Watched(x, r) && r in x.files && path in x.ws
  {
  }

  lemma RenameTurn(x: Scene, k: nat, i: nat)
    requires SceneOk(x) && i < |Ordered(x)| && k < |x.files| && Ordered(x)[i].id == x.files[k].id && RenamedTo(x, x.files[k], Ordered(x)[i].target.path)
    ensures TurnIs(x, k, i)
  {
    var (rs, r) := (Ordered(x), x.files[k]);
    SceneUnique(x);
    LastRecordIs(x.files, r);
    RenamedFacts(x, r, rs[i].target.path);
    hide SceneOk, Ordered, Lost, RenamedTo, Gone, LastRecord, Doomed, Ordering.Map, DeleteTurns, Max;
    assert Turns(x)[i] == RenameTurns(x.ws, x.files, rs)[i];
  }

  lemma DeleteTurn(x: Scene, k: nat, j: nat)
    requires j < |Doomed(x.files, Lost(x))| && k < |x.files| && Doomed(x.files, Lost(x))[j] == x.files[k] && Gone(x, x.files[k])
    ensures TurnIs(x, k, |Ordered(x)| + j)
  {
    hide Ordered, Lost, RenamedTo, Gone, Doomed, Ordering.Map, RenameFloor, Max;
    assert Turns(x)[|Ordered(x)| + j] == DeleteTurns(x.files, Lost(x))[j];
  }

  lemma LostListed(x: Scene)
    requires SceneOk(x)
    ensures forall r :: r in Doomed(x.files, Lost(x)) <==> r in x.files && Gone(x, r)
  {
    ChangeResults.DoomedAre(x.files, Lost(x));
    hide SceneOk, Doomed, MatchRenames, Lost, RenamedTo, Watched;
    forall r | r in x.files
      ensures r.id in Lost(x) <==> Gone(x, r)
    {
      LostIs(x, r);
    }
    forall r | Gone(x, r) { GoneListed(x, r); }
  }

  lemma LostIs(x: Scene, r: FileRecord)
    requires SceneOk(x) && r in x.files
    ensures r.id in Lost(x) <==> Gone(x, r)
  {
    RecordStatus(x, r);
    WatchedIs(x, r);
    hide SceneOk, MatchRenames, Watched, Tracked, RenamedTo, IdsOf, RenamedIds;
    if Watched(x, r) { RenamedIdsAre(x, r); }
  }

  lemma TurnOf(x: Scene, k: nat) returns (i: nat)
    requires SceneOk(x) && k < |x.files| && Handled(x, x.files[k])
    ensures TurnIs(x, k, i)
  {
    hide SceneOk, Gone, RenamedTo, TurnIs, Ordered, MatchRenames, Lost, Doomed;
    var r := x.files[k];
    if path :| RenamedTo(x, r, path) {
      var e := RenameOf(x, r, path);
      OrderedIsSame(x);
      i :| 0 <= i < |Ordered(x)| && Ordered(x)[i] == e;
      RenameTurn(x, k, i);
    } else {
      LostListed(x);
      var ds := Doomed(x.files, Lost(x));
      var j :| 0 <= j < |ds| && ds[j] == r;
      DeleteTurn(x, k, j);
      i := |Ordered(x)| + j;
    }
  }

  lemma TurnsCount(x: Scene)
    ensures |Turns(x)| == |Ordered(x)| + |Doomed(x.files, Lost(x))|
  {
    hide Ordered, Lost, Doomed, RenameFloor;
  }

  lemma RecordAt(x: Scene, i: nat) returns (k: nat)
    requires SceneOk(x) && i < |Turns(x)|
    ensures TurnIs(x, k, i)
  {
    hide *;
    TurnsCount(x);
    if i < |Ordered(x)| {
      var e := Ordered(x)[i];
      OrderedIsSame(x);
      assert e in Ordered(x);
      RenamesAre(x, e);
      var r :| RenamedTo(x, r, e.target.path) && r.id == e.id;
      RenamedFacts(x, r, e.target.path);
      k :| 0 <= k < |x.files| && x.files[k] == r;
      RenameTurn(x, k, i);
    } else {
      var ds := Doomed(x.files, Lost(x));
      var r := ds[i - |Ordered(x)|];
      assert r in ds;
      LostListed(x);
      k :| 0 <= k < |x.files| && x.files[k] == r;
      DeleteTurn(x, k, i - |Ordered(x)|);
    }
  }

  lemma RenameOrder()
    ensures Preorder(RenameLeq)
  {
    hide StrLeq;
    forall a, b
      ensures RenameLeq(a, b) || RenameLeq(b, a)
    {
      StrTotal(a.target.path, b.target.path);
      StrTotal(a.id, b.id);
    }
    forall a, b, c | RenameLeq(a, b) && RenameLeq(b, c)
      ensures RenameLeq(a, c)
    {
      if a.target.path == b.target.path == c.target.path { StrTransitive(a.id, b.id, c.id); }
      else if a.target.path != b.target.path && b.target.path != c.target.path {
        StrTransitive(a.target.path, b.target.path, c.target.path);
        StrTotal(a.target.path, b.target.path);
      }
    }
  }

  lemma OrderedByPath(x: Scene, i: nat, j: nat)
    requires SceneOk(x) && i < j < |Ordered(x)|
    ensures StrLeq(Ordered(x)[i].target.path, Ordered(x)[j].target.path) && Ordered(x)[i].target.path != Ordered(x)[j].target.path
  {
    RenameOrder();
    SortSorts(MatchRenames(x.files, x.changes), RenameLeq);
    MatchedRenames(x.env, x.ws, x.files, x.changes);
    OrderedApart(x);
    hide SceneOk, MatchRenames, Sort, GoodRename, StrLeq, Preorder;
    assert RenameLeq(Ordered(x)[i], Ordered(x)[j]);
  }

  lemma DoomedRising(x: Scene, a: nat, b: nat, j: nat, k: nat)
    requires SceneOk(x) && a < b < |Doomed(x.files, Lost(x))| && j < |x.files| && k < |x.files|
    requires Doomed(x.files, Lost(x))[a] == x.files[j] && Doomed(x.files, Lost(x))[b] == x.files[k]
    ensures j < k
  {
    var ks := DoomedOrder(x.files, Lost(x));
    SceneUnique(x);
    hide SceneOk, Lost, Doomed;
    assert x.files[ks[a]].id == x.files[j].id && x.files[ks[b]].id == x.files[k].id;
  }

  lemma TurnKind(x: Scene, k: nat, i: nat)
    requires TurnIs(x, k, i)
    ensures i < |Ordered(x)| ==> RenamedTo(x, x.files[k], Ordered(x)[i].target.path)
    ensures i >= |Ordered(x)| ==>
              && Gone(x, x.files[k]) && i - |Ordered(x)| < |Doomed(x.files, Lost(x))|
              && Doomed(x.files, Lost(x))[i - |Ordered(x)|] == x.files[k]
    ensures k < |x.files|
  {
  }

  lemma MoveSooner(x: Scene, j: nat, k: nat, a: string, b: string)
    requires j < |x.files| && k < |x.files| && RenamedTo(x, x.files[j], a) && RenamedTo(x, x.files[k], b) && StrLeq(a, b) && a != b
    ensures Sooner(x, j, k)
  {
    hide RenamedTo, Gone, StrLeq;
  }

  lemma GoneLater(x: Scene, j: nat, k: nat, a: string)
    requires j < |x.files| && k < |x.files| && RenamedTo(x, x.files[j], a) && Gone(x, x.files[k])
    ensures Sooner(x, j, k)
  {
    hide RenamedTo, Gone, StrLeq;
  }

  lemma GoneSooner(x: Scene, j: nat, k: nat)
    requires j < k < |x.files| && Gone(x, x.files[j]) && Gone(x, x.files[k])
    ensures Sooner(x, j, k)
  {
    hide RenamedTo, Gone, StrLeq;
  }

  lemma TurnsSooner(x: Scene, j: nat, k: nat, a: nat, b: nat)
    requires SceneOk(x) && TurnIs(x, j, a) && TurnIs(x, k, b) && a < b
    ensures j < |x.files| && k < |x.files| && Sooner(x, j, k)
  {
    hide *;
    TurnKind(x, j, a);
    TurnKind(x, k, b);
    var n := |Ordered(x)|;
    if b < n {
      OrderedByPath(x, a, b);
      MoveSooner(x, j, k, Ordered(x)[a].target.path, Ordered(x)[b].target.path);
    } else if a < n {
      GoneLater(x, j, k, Ordered(x)[a].target.path);
    } else {
      DoomedRising(x, a - n, b - n, j, k);
      GoneSooner(x, j, k);
    }
  }

  /** Never both ways. */
  lemma SoonerOnce(x: Scene, j: nat, k: nat)
    requires j < |x.files| && k < |x.files| && Sooner(x, j, k)
    ensures !Sooner(x, k, j) && Handled(x, x.files[j])
  {
    forall a, b | RenamedTo(x, x.files[j], a) && RenamedTo(x, x.files[j], b)
      ensures a == b
    {
      OnePath(x, x.files[j], a, b);
    }
    forall a, b | RenamedTo(x, x.files[k], a) && RenamedTo(x, x.files[k], b)
      ensures a == b
    {
      OnePath(x, x.files[k], a, b);
    }
    forall a | RenamedTo(x, x.files[j], a) { OnePath(x, x.files[j], a, a); }
    forall a | RenamedTo(x, x.files[k], a) { OnePath(x, x.files[k], a, a); }
    forall a, b { StrTotal(a, b); }
    hide RenamedTo, Gone, StrLeq;
  }

  /** The turn of a record that comes sooner. */
  lemma SoonerTurn(x: Scene, j: nat, k: nat, b: nat) returns (a: nat)
    requires SceneOk(x) && j < |x.files| && k < |x.files| && Sooner(x, j, k) && TurnIs(x, k, b)
    ensures TurnIs(x, j, a) && a < b
  {
    hide *;
    SoonerOnce(x, j, k);
    a := TurnOf(x, j);
    if b < a {
      TurnsSooner(x, k, j, b, a);
    } else if a == b {
      SameTurn(x, j, k, a);
    }
  }

  lemma SameTurn(x: Scene, j: nat, k: nat, a: nat)
    requires SceneOk(x) && TurnIs(x, j, a) && TurnIs(x, k, a)
    ensures j == k
  {
    SceneUnique(x);
    hide SceneOk, Turns, Ordered, Doomed, RenamedTo, Gone, Lost;
  }

  /** A time the document has before the first move: its own or that of a changed file. */
  ghost predicate Early(x: Scene, doc: Document, t: nat) {
    t == doc.updatedAt || exists r :: Watched(x, r) && r.path in x.ws && !Accurate(x, r) && t == x.ws[r.path].mtime
  }

  /** A time that the plan's time of record `k` has to follow: the document's, that of a changed file, that of a record moved or
      deleted sooner, its own, and that of the file it is moved to. */
  ghost predicate Follows(x: Scene, doc: Document, files: seq<FileRecord>, k: nat, t: nat)
    requires k < |x.files| <= |files|
  {
    || Early(x, doc, t)
    || (exists j: nat :: j < |x.files| && Sooner(x, j, k) && t == files[j].updatedAt)
    || t == x.files[k].updatedAt
    || (exists path :: RenamedTo(x, x.files[k], path) && path in x.ws && t == x.ws[path].mtime)
  }

  lemma ChangedIds(x: Scene, r: FileRecord)
    requires SceneOk(x) && r in x.files
    ensures r.id in IdsOf(x.changes, Modified) <==> Watched(x, r) && r.path in x.ws && !Accurate(x, r)
  {
    RecordStatus(x, r);
    WatchedIs(x, r);
    hide SceneOk, IdsOf, Watched, Tracked;
  }

  lemma NowIsLatest(x: Scene, doc: Document, now: nat)
    requires SceneOk(x) && LatestFile(x.ws, x.files, IdsOf(x.changes, Modified), doc.updatedAt, now)
    ensures Early(x, doc, now) && forall t: nat :: Early(x, doc, t) ==> t <= now
  {
    forall r | r in x.files { ChangedIds(x, r); }
    forall r | Watched(x, r)
      ensures r in x.files
    {
    }
    hide SceneOk, IdsOf, Watched, Accurate;
  }

  lemma StampsAt(x: Scene, now: nat, files: seq<FileRecord>, k: nat, i: nat)
    requires Stamps(x, now, files) && TurnIs(x, k, i)
    ensures k < |x.files| <= |files| && i < |Turns(x)| && files[k].updatedAt == Ticks(now, Turns(x))[i]
  {
    hide Turns, Ordered, Doomed, Lost, RenamedTo, Gone, Ticks;
  }

  lemma FloorIs(x: Scene, k: nat, i: nat)
    requires TurnIs(x, k, i)
    ensures i < |Turns(x)| && k < |x.files| && Turns(x)[i].floor >= x.files[k].updatedAt
    ensures forall path :: RenamedTo(x, x.files[k], path) ==> path in x.ws && Turns(x)[i].floor >= x.ws[path].mtime
    ensures Turns(x)[i].floor == x.files[k].updatedAt ||
              exists path :: RenamedTo(x, x.files[k], path) && path in x.ws && Turns(x)[i].floor == x.ws[path].mtime
  {
    forall path | RenamedTo(x, x.files[k], path)
      ensures path in x.ws && !Gone(x, x.files[k]) && (i < |Ordered(x)| ==> path == Ordered(x)[i].target.path)
    {
      OnePath(x, x.files[k], path, path);
      RenamedFacts(x, x.files[k], path);
      if i < |Ordered(x)| { OnePath(x, x.files[k], path, Ordered(x)[i].target.path); }
    }
    hide Turns, Ordered, Doomed, Lost, RenamedTo, Gone;
  }

  lemma TimeAbove(x: Scene, doc: Document, now: nat, files: seq<FileRecord>, k: nat, i: nat, t: nat)
    requires SceneOk(x) && LatestFile(x.ws, x.files, IdsOf(x.changes, Modified), doc.updatedAt, now) && Stamps(x, now, files) && TurnIs(x, k, i)
    requires k < |x.files| <= |files| && Follows(x, doc, files, k, t)
    ensures t < files[k].updatedAt
  {
    hide SceneOk, LatestFile, Stamps, TurnIs, Turns, Ticks, Early, Sooner, RenamedTo, IdsOf;
    NowIsLatest(x, doc, now);
    StampsAt(x, now, files, k, i);
    TicksRise(now, Turns(x), i);
    FloorIs(x, k, i);
    if j: nat :| j < |x.files| && Sooner(x, j, k) && t == files[j].updatedAt {
      var a := SoonerTurn(x, j, k, i);
      StampsAt(x, now, files, j, a);
    }
  }

  lemma TimeReached(x: Scene, doc: Document, now: nat, files: seq<FileRecord>, k: nat, i: nat)
    requires SceneOk(x) && LatestFile(x.ws, x.files, IdsOf(x.changes, Modified), doc.updatedAt, now) && Stamps(x, now, files) && TurnIs(x, k, i)
    requires k < |x.files| <= |files|
    ensures files[k].updatedAt > 0 && Follows(x, doc, files, k, files[k].updatedAt - 1)
  {
    hide SceneOk, LatestFile, Stamps, TurnIs, Turns, Ticks, Early, Sooner, RenamedTo, IdsOf;
    NowIsLatest(x, doc, now);
    StampsAt(x, now, files, k, i);
    TicksRise(now, Turns(x), i);
    FloorIs(x, k, i);
    var t: nat := files[k].updatedAt - 1;
    if i > 0 && t == Ticks(now, Turns(x))[i - 1] {
      var j := RecordAt(x, i - 1);
      TurnsSooner(x, j, k, i - 1, i);
      StampsAt(x, now, files, j, i - 1);
    }
  }

  /** Main result: a plan gives each record it moves or deletes a time one later than the latest of those it has to follow: the
      document's, those of the changed files, of the records it moves or deletes sooner, the record's own and its new file's. */
  lemma TimesRise(x: Scene, doc: Document, ts: seq<Tombstone>, deleteSeq: nat, device: Option<string>, p: State, k: nat)
    requires ChangeResults.Plan(x, doc, ts, deleteSeq, device, p) && k < |x.files|
    requires Handled(x, x.files[k])
    ensures |x.files| <= |p.doc.files| && p.doc.files[k].updatedAt > 0
    ensures Follows(x, doc, p.doc.files, k, p.doc.files[k].updatedAt - 1)
    ensures forall t: nat :: Follows(x, doc, p.doc.files, k, t) ==> t < p.doc.files[k].updatedAt
  {
    hide *;
    PlanScene(x, doc, ts, deleteSeq, device, p);
    var now := PlanTicks(x, doc, ts, deleteSeq, device, p);
    var i := TurnOf(x, k);
    StampsAt(x, now, p.doc.files, k, i);
    TimeReached(x, doc, now, p.doc.files, k, i);
    forall t: nat | Follows(x, doc, p.doc.files, k, t)
      ensures t < p.doc.files[k].updatedAt
    {
      TimeAbove(x, doc, now, p.doc.files, k, i, t);
    }
  }

  /** A time the document had while the old records were dealt with: its own, that of a changed file or of a moved or deleted record. */
  ghost predicate Passed(x: Scene, doc: Document, files: seq<FileRecord>, t: nat)
    requires |x.files| <= |files|
  {
    || Early(x, doc, t)
    || exists k: nat :: k < |x.files| && Handled(x, x.files[k]) && t == files[k].updatedAt
  }

  lemma HandledBefore(x: Scene, now: nat, files: seq<FileRecord>, k: nat)
    requires SceneOk(x) && Stamps(x, now, files) && k < |x.files| <= |files| && Handled(x, x.files[k])
    ensures files[k].updatedAt <= Last(now, Ticks(now, Turns(x)))
  {
    hide SceneOk, Stamps, Turns, Ticks, TurnIs, Handled;
    var i := TurnOf(x, k);
    StampsAt(x, now, files, k, i);
    TicksRise(now, Turns(x), |Turns(x)| - 1);
  }

  lemma LastHandled(x: Scene, now: nat, files: seq<FileRecord>) returns (k: nat)
    requires SceneOk(x) && Stamps(x, now, files) && Turns(x) != []
    ensures k < |x.files| <= |files| && Handled(x, x.files[k]) && files[k].updatedAt == Last(now, Ticks(now, Turns(x)))
    ensures now < Last(now, Ticks(now, Turns(x)))
  {
    hide SceneOk, Stamps, Turns, Ticks, TurnIs, Gone, RenamedTo, Ordered, Doomed, Lost;
    var i: nat := |Turns(x)| - 1;
    k := RecordAt(x, i);
    StampsAt(x, now, files, k, i);
    TurnKind(x, k, i);
    TicksRise(now, Turns(x), i);
  }

  lemma LastPassed(x: Scene, doc: Document, now: nat, files: seq<FileRecord>)
    requires SceneOk(x) && LatestFile(x.ws, x.files, IdsOf(x.changes, Modified), doc.updatedAt, now) && Stamps(x, now, files) && |x.files| <= |files|
    ensures var last := Last(now, Ticks(now, Turns(x)));
            Passed(x, doc, files, last) && forall t: nat :: Passed(x, doc, files, t) ==> t <= last
  {
    hide Early, SceneOk, LatestFile, Stamps, Turns, Handled, Ticks;
    NowIsLatest(x, doc, now);
    if Turns(x) != [] { var k := LastHandled(x, now, files); }
    forall k: nat | k < |x.files| && Handled(x, x.files[k]) { HandledBefore(x, now, files, k); }
  }

  /** Main result: of the document a plan changes files and time alone; the time is that of the last new record, or without one the
      latest of the document's, the changed files' and those of the moved and deleted records. */
  lemma DocumentEnds(x: Scene, doc: Document, ts: seq<Tombstone>, deleteSeq: nat, device: Option<string>, p: State)
    requires ChangeResults.Plan(x, doc, ts, deleteSeq, device, p)
    ensures |x.files| <= |p.doc.files| && p.doc.vault == doc.vault
    ensures |p.doc.files| > |x.files| ==> p.doc.updatedAt == p.doc.files[|p.doc.files| - 1].updatedAt
    ensures |p.doc.files| == |x.files| ==>
              Passed(x, doc, p.doc.files, p.doc.updatedAt) && forall t: nat :: Passed(x, doc, p.doc.files, t) ==> t <= p.doc.updatedAt
  {
    hide *;
    PlanScene(x, doc, ts, deleteSeq, device, p);
    NewRecords(x, doc, ts, deleteSeq, device, p);
    var now := PlanTicks(x, doc, ts, deleteSeq, device, p);
    LastPassed(x, doc, now, p.doc.files);
  }
}
