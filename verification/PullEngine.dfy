/** The desktop's pull engine as it runs: files, staging and journal updated in place. */
module PullEngine {
  import opened Basics
  import opened PullPlan
  import opened PullApply
  import opened PullFrames
  import opened PullSuccess
  import opened PullExact
  import opened PullKept
  import opened PullRecovery

  class Desktop {
    const vault: string
    var live: map<Path, Bytes>
    var staging: map<FileId, Bytes>
    var doc: seq<Record>
    var unresolved: bool
    var drawn: nat
    var journal: Option<Journal>
    var planFile: PlanFile
    var state: VaultState
    var orphans: set<(FileId, Bytes)>
    /** Every disk left by an atomic file operation so far: where a crash can strike. */
    ghost var seen: set<Disk>

    function View(): Disk
      reads this
    {
      Disk(live, staging, doc, unresolved, drawn)
    }

    function Whole(): Machine
      reads this
    {
      Machine(vault, View(), journal, planFile, state, orphans)
    }

    /** The disk, its history and the error are those of the run `r`. */
    ghost predicate Did(r: Run, before: set<Disk>, error: Option<Error>)
      reads this
    {
      View() == r.disk && seen == before + r.seen && error == r.error
    }

    constructor (vault: string, doc: seq<Record>, live: map<Path, Bytes>, drawn: nat, state: VaultState)
      ensures Whole() == Machine(vault, Disk(live, map[], doc, false, drawn), None, Missing, state, {})
      ensures this.vault == vault && seen == {}
    {
      this.vault, this.live, this.staging, this.doc := vault, live, map[], doc;
      this.unresolved, this.drawn := false, drawn;
      this.journal, this.planFile, this.state, this.orphans, this.seen := None, Missing, state, {}, {};
    }

    // Atomic file operations.

    method WriteLive(p: Path, bytes: Bytes)
      modifies this`live, this`seen
      ensures Did(One(Store(old(View()), p, bytes)), old(seen), None)
    {
      live := live[p := bytes];
      seen := seen + {View()};
    }

    method UnlinkLive(p: Path)
      modifies this`live, this`seen
      ensures Did(One(Unlink(old(View()), p)), old(seen), None)
    {
      live := live - {p};
      seen := seen + {View()};
    }

    method RegisterCopy(id: FileId, p: Path, bytes: Bytes) returns (error: Option<Error>)
      modifies this`doc, this`drawn, this`seen
      ensures Did(
        if !Knows(old(doc), id) then Fail(Stay(old(View())), UnknownSource)
        else if Occupied(old(doc), p) then Fail(Stay(old(View())), PathOccupied)
        else One(old(View()).(doc := old(doc) + [Record(Generated(old(drawn)), p, ConflictCopy, Some(Sha256(bytes)), Some(id))],
                              drawn := old(drawn) + 1)),
        old(seen), error)
    {
      if !Knows(doc, id) {
        return Some(UnknownSource);
      }
      if Occupied(doc, p) {
        return Some(PathOccupied);
      }
      doc := doc + [Record(Generated(drawn), p, ConflictCopy, Some(Sha256(bytes)), Some(id))];
      drawn := drawn + 1;
      seen := seen + {View()};
      return None;
    }

    method RaiseConflictFlag()
      modifies this`unresolved, this`seen
      ensures Did(Flag(old(View())), old(seen), None)
    {
      if !unresolved {
        unresolved := true;
        seen := seen + {View()};
      }
    }

    method PreserveDirty(id: FileId, p: Path, expected: Option<Hash>, day: int) returns (error: Option<Error>)
      modifies this`live, this`doc, this`drawn, this`unresolved, this`seen
      ensures Did(PreserveCopy(old(View()), id, p, expected, day), old(seen), error)
    {
      if expected.None? || p !in live {
        return None;
      }
      var bytes := live[p];
      if Sha256(bytes) == expected.value {
        return None;
      }
      var known := FindCopy(doc, id, Sha256(bytes));
      if known.Some? {
        if !Holds(live, known.value.path, Sha256(bytes)) {
          WriteLive(known.value.path, bytes);
        }
        RaiseConflictFlag();
        return None;
      }
      var copy := NextFree(live.Keys, p, day, 1);
      WriteLive(copy, bytes);
      error := RegisterCopy(id, copy, bytes);
      if error.None? {
        RaiseConflictFlag();
      }
    }

    // One iteration of each loop.

    method StageOne(m: MoveItem, day: int) returns (error: Option<Error>)
      modifies this`live, this`staging, this`doc, this`drawn, this`unresolved, this`seen
      ensures Did(StageMove(old(View()), m, day), old(seen), error)
    {
      hide PullApply.PreserveCopy;
      if m.source in live {
        if Sha256(live[m.source]) != m.hash {
          error := PreserveDirty(m.fileId, m.source, Some(m.hash), day);
          if error.Some? {
            return;
          }
          if m.target in live && Sha256(live[m.target]) == m.hash {
            UnlinkLive(m.source);
            return None;
          }
          if m.fileId !in staging {
            return Some(NotFound);
          }
          if Sha256(staging[m.fileId]) != m.hash {
            return Some(Mismatch);
          }
          UnlinkLive(m.source);
          return None;
        }
        live, staging := live - {m.source}, staging[m.fileId := live[m.source]];
        seen := seen + {View()};
        return None;
      }
      if m.fileId in staging {
        return None;
      }
      if m.target in live {
        return if Sha256(live[m.target]) != m.hash then Some(Mismatch) else None;
      }
      return Some(NotFound);
    }

    method RemoveOne(item: DeleteItem, day: int) returns (error: Option<Error>)
      modifies this`live, this`doc, this`drawn, this`unresolved, this`seen
      ensures Did(RemoveFile(old(View()), item, day), old(seen), error)
    {
      hide PullApply.PreserveCopy;
      error := PreserveDirty(item.fileId, item.path, item.expected, day);
      if error.Some? {
        return;
      }
      if item.path in live {
        UnlinkLive(item.path);
      }
    }

    method PutOne(w: WriteItem, day: int) returns (error: Option<Error>)
      modifies this`live, this`doc, this`drawn, this`unresolved, this`seen
      ensures Did(PutFile(old(View()), w, day), old(seen), error)
    {
      hide PullApply.PreserveCopy;
      if w.fileId !in staging {
        return if w.target in live && Sha256(live[w.target]) == w.hash then None else Some(NotFound);
      }
      var payload := staging[w.fileId];
      if Sha256(payload) != w.hash {
        return Some(Mismatch);
      }
      if InPlace(w) {
        error := PreserveDirty(w.fileId, w.target, w.expectedPrevious, day);
        if error.Some? {
          return;
        }
      }
      WriteLive(w.target, payload);
      return None;
    }

    method LandOne(m: MoveItem) returns (error: Option<Error>)
      modifies this`live, this`staging, this`seen
      ensures Did(PlaceStaged(old(View()), m), old(seen), error)
    {
      if m.fileId in staging {
        if Sha256(staging[m.fileId]) != m.hash {
          return Some(Mismatch);
        }
        live, staging := live[m.target := staging[m.fileId]], staging - {m.fileId};
        seen := seen + {View()};
        return None;
      }
      if m.target in live {
        return if Sha256(live[m.target]) != m.hash then Some(Mismatch) else None;
      }
      return Some(NotFound);
    }

    method ShiftOne(m: MoveItem, day: int) returns (error: Option<Error>)
      modifies this`live, this`doc, this`drawn, this`unresolved, this`seen
      ensures Did(PlaceDirect(old(View()), m, day), old(seen), error)
    {
      hide PullApply.PreserveCopy;
      if m.source in live {
        if Sha256(live[m.source]) != m.hash {
          error := PreserveDirty(m.fileId, m.source, Some(m.hash), day);
          if error.Some? {
            return;
          }
          if m.target in live && Sha256(live[m.target]) == m.hash {
            UnlinkLive(m.source);
            return None;
          }
          if m.fileId !in staging {
            return Some(NotFound);
          }
          if Sha256(staging[m.fileId]) != m.hash {
            return Some(Mismatch);
          }
          WriteLive(m.target, staging[m.fileId]);
          UnlinkLive(m.source);
          return None;
        }
        live := (live - {m.source})[m.target := live[m.source]];
        seen := seen + {View()};
        return None;
      }
      if m.target in live {
        return if Sha256(live[m.target]) != m.hash then Some(Mismatch) else None;
      }
      return Some(NotFound);
    }

    // The loops.

    /** A loop at work: `rest` is what remains of the run `whole`. */
    ghost predicate Doing(whole: Run, before: set<Disk>, rest: Run)
      reads this
    {
      whole.disk == rest.disk && before + whole.seen == seen + rest.seen && whole.error == rest.error
    }

    /** The iteration just done was the head of the loop's remaining operations. */
    lemma Advance(d: Disk, op: Op, ops: seq<Op>, rest: seq<Op>, day: int)
      requires ops == [op] + rest
      ensures Exec(d, ops, day) ==
              if Step(d, op, day).Ok() then Then(Step(d, op, day), Exec(Step(d, op, day).disk, rest, day)) else Step(d, op, day)
    {
      assert ops[0] == op && ops[1..] == rest;
    }

    method StageBlockingMoves(plan: Plan, day: int) returns (error: Option<Error>)
      modifies this`live, this`staging, this`doc, this`drawn, this`unresolved, this`seen
      ensures Did(Exec(old(View()), StageOps(plan.moves, plan.blocking), day), old(seen), error)
    {
      hide PullApply.StageMove;
      ghost var whole := Exec(View(), StageOps(plan.moves, plan.blocking), day);
      assert plan.moves[0..] == plan.moves;
      for i := 0 to |plan.moves|
        invariant Doing(whole, old(seen), Exec(View(), StageOps(plan.moves[i..], plan.blocking), day))
      {
        var m := plan.moves[i];
        assert plan.moves[i..][0] == m && plan.moves[i..][1..] == plan.moves[i + 1..];
        ghost var rest := StageOps(plan.moves[i + 1..], plan.blocking);
        if Blocks(m, plan.blocking) {
          Advance(View(), Stage(m), StageOps(plan.moves[i..], plan.blocking), rest, day);
          error := StageOne(m, day);
          if error.Some? {
            return;
          }
        } else {
          assert StageOps(plan.moves[i..], plan.blocking) == rest;
        }
      }
      return None;
    }

    lemma RemoveNext(deletes: seq<DeleteItem>, i: nat, blocking: set<Path>, early: bool)
      requires i < |deletes|
      ensures RemoveOps(deletes[i..], blocking, early) ==
              (if (deletes[i].path in blocking) == early then [Remove(deletes[i])] else []) + RemoveOps(deletes[i + 1..], blocking, early)
    {
      assert deletes[i..][0] == deletes[i] && deletes[i..][1..] == deletes[i + 1..];
    }

    lemma RemoveDone(d: Disk, deletes: seq<DeleteItem>, blocking: set<Path>, early: bool, day: int)
      ensures deletes[0..] == deletes && Exec(d, RemoveOps(deletes[|deletes|..], blocking, early), day) == Stay(d)
    {
    }

    method RemoveFiles(plan: Plan, early: bool, day: int) returns (error: Option<Error>)
      modifies this`live, this`doc, this`drawn, this`unresolved, this`seen
      ensures Did(Exec(old(View()), RemoveOps(plan.deletes, plan.blocking, early), day), old(seen), error)
    {
      hide PullApply.RemoveFile, PullApply.Exec, PullApply.RemoveOps;
      ghost var whole := Exec(View(), RemoveOps(plan.deletes, plan.blocking, early), day);
      RemoveDone(View(), plan.deletes, plan.blocking, early, day);
      for i := 0 to |plan.deletes|
        invariant Doing(whole, old(seen), Exec(View(), RemoveOps(plan.deletes[i..], plan.blocking, early), day))
      {
        var item := plan.deletes[i];
        ghost var rest := RemoveOps(plan.deletes[i + 1..], plan.blocking, early);
        RemoveNext(plan.deletes, i, plan.blocking, early);
        if (item.path in plan.blocking) == early {
          Advance(View(), Remove(item), RemoveOps(plan.deletes[i..], plan.blocking, early), rest, day);
          error := RemoveOne(item, day);
          if error.Some? {
            return;
          }
        } else {
          assert [] + rest == rest;
        }
      }
      RemoveDone(View(), plan.deletes, plan.blocking, early, day);
      return None;
    }

    lemma PutNext(writes: seq<WriteItem>, i: nat)
      requires i < |writes|
      ensures PutOps(writes[i..]) == [Put(writes[i])] + PutOps(writes[i + 1..])
    {
      assert writes[i..][0] == writes[i] && writes[i..][1..] == writes[i + 1..];
    }

    lemma PutDone(d: Disk, writes: seq<WriteItem>, day: int)
      ensures writes[0..] == writes && Exec(d, PutOps(writes[|writes|..]), day) == Stay(d)
    {
    }

    method PutFiles(plan: Plan, day: int) returns (error: Option<Error>)
      modifies this`live, this`doc, this`drawn, this`unresolved, this`seen
      ensures Did(Exec(old(View()), PutOps(plan.writes), day), old(seen), error)
    {
      hide PullApply.PutFile, PullApply.Exec, PullApply.PutOps;
      ghost var whole := Exec(View(), PutOps(plan.writes), day);
      PutDone(View(), plan.writes, day);
      for i := 0 to |plan.writes|
        invariant Doing(whole, old(seen), Exec(View(), PutOps(plan.writes[i..]), day))
      {
        var w := plan.writes[i];
        PutNext(plan.writes, i);
        Advance(View(), Put(w), PutOps(plan.writes[i..]), PutOps(plan.writes[i + 1..]), day);
        error := PutOne(w, day);
        if error.Some? {
          return;
        }
      }
      PutDone(View(), plan.writes, day);
      return None;
    }

    method PlaceMoves(plan: Plan, day: int) returns (error: Option<Error>)
      modifies this`live, this`staging, this`doc, this`drawn, this`unresolved, this`seen
      ensures Did(Exec(old(View()), PlaceOps(plan.moves, plan.blocking), day), old(seen), error)
    {
      hide PullApply.PlaceStaged, PullApply.PlaceDirect;
      ghost var whole := Exec(View(), PlaceOps(plan.moves, plan.blocking), day);
      assert plan.moves[0..] == plan.moves;
      for i := 0 to |plan.moves|
        invariant Doing(whole, old(seen), Exec(View(), PlaceOps(plan.moves[i..], plan.blocking), day))
      {
        var m := plan.moves[i];
        assert plan.moves[i..][0] == m && plan.moves[i..][1..] == plan.moves[i + 1..];
        Advance(View(), PlaceOp(m, plan.blocking), PlaceOps(plan.moves[i..], plan.blocking),
                PlaceOps(plan.moves[i + 1..], plan.blocking), day);
        if Blocks(m, plan.blocking) {
          error := LandOne(m);
        } else {
          error := ShiftOne(m, day);
        }
        if error.Some? {
          return;
        }
      }
      return None;
    }

    /** The five loops, one after the other; the first error stops them. */
    method RunLoops(plan: Plan, day: int) returns (error: Option<Error>)
      modifies this`live, this`staging, this`doc, this`drawn, this`unresolved, this`seen
      ensures Did(Apply(old(View()), plan, day), old(seen), error)
    {
      ghost var d := View();
      UptoStart(d, plan, day);
      assert Apply(d, plan, day) == Upto(d, plan, 6, day);
      hide PullApply.Exec, PullApply.Before, Upto, PullApply.Apply;
      hide PullApply.StageOps, PullApply.RemoveOps, PullApply.PutOps, PullApply.PlaceOps, PullApply.Phase;
      PhaseLoops(plan);
      UptoStep(d, plan, 1, day);
      UnionAssoc(old(seen), Upto(d, plan, 1, day).seen, Exec(View(), Phase(plan, 1), day).seen);
      error := StageBlockingMoves(plan, day);
      assert Did(Upto(d, plan, 2, day), old(seen), error);
      if error.Some? {
        StopsAt(d, plan, day, 2);
        return;
      }
      UptoStep(d, plan, 2, day);
      UnionAssoc(old(seen), Upto(d, plan, 2, day).seen, Exec(View(), Phase(plan, 2), day).seen);
      error := RemoveFiles(plan, true, day);
      assert Did(Upto(d, plan, 3, day), old(seen), error);
      if error.Some? {
        StopsAt(d, plan, day, 3);
        return;
      }
      UptoStep(d, plan, 3, day);
      UnionAssoc(old(seen), Upto(d, plan, 3, day).seen, Exec(View(), Phase(plan, 3), day).seen);
      error := PutFiles(plan, day);
      assert Did(Upto(d, plan, 4, day), old(seen), error);
      if error.Some? {
        StopsAt(d, plan, day, 4);
        return;
      }
      UptoStep(d, plan, 4, day);
      UnionAssoc(old(seen), Upto(d, plan, 4, day).seen, Exec(View(), Phase(plan, 4), day).seen);
      error := PlaceMoves(plan, day);
      assert Did(Upto(d, plan, 5, day), old(seen), error);
      if error.Some? {
        StopsAt(d, plan, day, 5);
        return;
      }
      UptoStep(d, plan, 5, day);
      UnionAssoc(old(seen), Upto(d, plan, 5, day).seen, Exec(View(), Phase(plan, 5), day).seen);
      error := RemoveFiles(plan, false, day);
      assert Did(Upto(d, plan, 6, day), old(seen), error);
    }

    lemma UnionAssoc(a: set<Disk>, b: set<Disk>, c: set<Disk>)
      ensures (a + b) + c == a + (b + c)
    {
    }

    lemma PhaseLoops(plan: Plan)
      ensures Phase(plan, 1) == StageOps(plan.moves, plan.blocking)
      ensures Phase(plan, 2) == RemoveOps(plan.deletes, plan.blocking, true)
      ensures Phase(plan, 3) == PutOps(plan.writes)
      ensures Phase(plan, 4) == PlaceOps(plan.moves, plan.blocking)
      ensures Phase(plan, 5) == RemoveOps(plan.deletes, plan.blocking, false)
    {
    }

    lemma {:induction false} StopsAt(d: Disk, plan: Plan, day: int, k: nat)
      requires 1 <= k <= 6 && !Upto(d, plan, k, day).Ok()
      ensures Upto(d, plan, 6, day) == Upto(d, plan, k, day)
      decreases 6 - k
    {
      hide Upto, PullApply.Phase, PullApply.Exec;
      if k < 6 {
        UptoStep(d, plan, k, day);
        StopsAt(d, plan, day, k + 1);
      }
    }

    // The pull session.

    /** Other operations are refused while an apply journal is active. */
    method RequireNoActiveJournal() returns (allowed: bool)
      ensures allowed <==> journal.None?
    {
      allowed := journal.None?;
    }

    method WritePayloads(payloads: map<FileId, Bytes>)
      modifies this`staging
      ensures staging == old(staging) + payloads
    {
      var left := payloads.Keys;
      while left != {}
        invariant left <= payloads.Keys
        invariant staging.Keys == old(staging).Keys + (payloads.Keys - left)
        invariant forall id :: id in staging ==>
          staging[id] == if id in payloads && id !in left then payloads[id] else old(staging)[id]
        decreases left
      {
        var id :| id in left;
        staging := staging[id := payloads[id]];
        left := left - {id};
      }
    }

    /** Persists the plan and the downloaded payloads before anything is applied. */
    method StagePull(plan: Plan, opsHash: string, summary: string, payloads: map<FileId, Bytes>) returns (allowed: bool)
      modifies this`journal, this`planFile, this`staging
      ensures allowed <==> old(journal).None?
      ensures Whole() == if !allowed then old(Whole()) else old(Whole()).(
        journal := Some(Journal(vault, plan.revision, summary, Staging, opsHash)),
        planFile := Stored(vault, plan, opsHash),
        disk := old(View()).(staging := old(staging) + payloads))
    {
      allowed := RequireNoActiveJournal();
      if !allowed {
        return;
      }
      journal := Some(Journal(vault, plan.revision, summary, Preparing, opsHash));
      planFile := Stored(vault, plan, opsHash);
      WritePayloads(payloads);
      journal := Some(journal.value.(phase := Staging));
    }

    method ApplyStaged(plan: Plan, planVault: string, opsHash: string, day: int) returns (error: Option<Error>)
      modifies this`journal, this`live, this`staging, this`doc, this`drawn, this`unresolved, this`seen
      ensures old(journal).None? ==> error == Some(NotFound) && Whole() == old(Whole()) && seen == old(seen)
      ensures old(journal).Some? && (old(journal).value.revision != plan.revision || old(journal).value.vault != planVault) ==>
                error == Some(Mismatch) && Whole() == old(Whole()) && seen == old(seen)
      ensures old(journal).Some? && old(journal).value.revision == plan.revision && old(journal).value.vault == planVault ==>
                && Did(Apply(old(View()), plan, day), old(seen), error)
                && journal == Some(old(journal).value.(phase := Materializing, opsHash := opsHash))
    {
      if journal.None? {
        return Some(NotFound);
      }
      if journal.value.revision != plan.revision || journal.value.vault != planVault {
        return Some(Mismatch);
      }
      journal := Some(journal.value.(phase := Materializing, opsHash := opsHash));
      error := RunLoops(plan, day);
    }

    method ClearArtifacts(j: Journal)
      modifies this`journal, this`state, this`staging, this`planFile
      ensures Whole() == Finish(old(Whole()), j)
    {
      state := Reconcile(state, j);
      journal := None;
      staging := map[];
      planFile := Missing;
    }

    method IsolateArtifacts()
      modifies this`journal, this`state, this`staging, this`planFile, this`orphans
      ensures Whole() == SetAside(old(Whole()))
    {
      state := MarkStale(state);
      journal := None;
      orphans := orphans + staging.Items;
      staging := map[];
      planFile := Missing;
    }

    method FinalizeApplied(plan: Plan, planVault: string) returns (error: Option<Error>)
      modifies this`journal, this`state, this`staging, this`planFile
      ensures old(journal).None? ==> error == Some(NotFound)
      ensures old(journal).Some? ==>
        (error.None? <==> old(journal).value.vault == planVault && old(journal).value.revision == plan.revision &&
                          old(journal).value.phase == Materializing)
      ensures error.Some? ==> Whole() == old(Whole())
      ensures error.None? ==> Whole() == Finish(old(Whole()), old(journal).value)
    {
      if journal.None? {
        return Some(NotFound);
      }
      if journal.value.vault != planVault || journal.value.revision != plan.revision || journal.value.phase != Materializing {
        return Some(Mismatch);
      }
      journal := Some(journal.value.(phase := FilemapRewrite));
      journal := Some(journal.value.(phase := Finalizing));
      ClearArtifacts(journal.value);
      return None;
    }

    method FallBack(j: Journal, documentAtStart: seq<Record>) returns (mode: Mode, fullPull: bool)
      requires journal.Some?
      modifies this`journal, this`state, this`staging, this`planFile, this`orphans
      ensures Resumed(Whole(), mode, fullPull) == Fallback(old(Whole()), j, documentAtStart)
    {
      if j.phase == Materializing && MatchesDocument(live, documentAtStart) {
        ClearArtifacts(j);
        return Finalized, false;
      }
      IsolateArtifacts();
      return Degraded, true;
    }

    /** Resumes whatever an interrupted pull left behind. */
    method ResumeRecovery(day: int) returns (mode: Mode, fullPull: bool)
      modifies this
      ensures Resumed(Whole(), mode, fullPull) == Resume(old(Whole()), day)
    {
      hide PullApply.Apply;
      if journal.None? {
        if staging == map[] && planFile == Missing {
          return Idle, false;
        }
        IsolateArtifacts();
        return Orphaned, true;
      }
      var j := journal.value;
      if j.phase == Staging || j.phase == Materializing {
        var document := doc;
        if !PlanFits(planFile, j) {
          mode, fullPull := FallBack(j, document);
          return;
        }
        var plan := planFile.plan;
        var error := ApplyStaged(plan, planFile.vault, planFile.opsHash, day);
        if error.None? {
          error := FinalizeApplied(plan, j.vault);
          return Replayed, false;
        }
        mode, fullPull := FallBack(j, document);
        return;
      }
      if j.phase == FilemapRewrite || j.phase == Finalizing {
        ClearArtifacts(j);
        return Finalized, false;
      }
      IsolateArtifacts();
      return Degraded, true;
    }
  }
}
