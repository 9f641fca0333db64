/** Recovery of an interrupted pull: what resuming does from any journal, plan file and staging left behind. */
module PullRecovery {
  import opened Basics
  import opened PullPlan
  import opened PullApply
  import opened PullFrames
  import opened PullSuccess
  import opened PullOrder
  import opened PullKept
  import opened PullSaves
  import opened PullReady
  import opened PullExact
  import opened PullCrash
  import opened PullApplied

  datatype JournalPhase = Preparing | Staging | Materializing | FilemapRewrite | Finalizing
  datatype Journal = Journal(vault: string, revision: nat, summary: string, phase: JournalPhase, opsHash: string)

  datatype PlanFile = Missing | Unreadable | Stored(vault: string, plan: Plan, opsHash: string)

  datatype SummaryStatus = Valid | Absent | Stale
  datatype VaultState = VaultState(lastApplied: nat, remoteHead: nat, acked: nat, pendingAck: set<nat>,
                                   summary: Option<string>, status: SummaryStatus)

  /** A device: its files, the apply journal, the persisted plan, and payloads set aside by recovery. */
  datatype Machine = Machine(vault: string, disk: Disk, journal: Option<Journal>, planFile: PlanFile,
                             state: VaultState, orphans: set<(FileId, Bytes)>)

  datatype Mode = Idle | Orphaned | Replayed | Finalized | Degraded
  datatype Resumed = Resumed(machine: Machine, mode: Mode, fullPull: bool)

  function Max(a: nat, b: nat): nat { if a < b then b else a }

  function MarkStale(s: VaultState): VaultState {
    s.(summary := None, status := Stale)
  }

  function Reconcile(s: VaultState, j: Journal): VaultState {
    VaultState(Max(s.lastApplied, j.revision), Max(s.remoteHead, j.revision), Max(s.acked, j.revision),
               s.pendingAck + {j.revision}, Some(j.summary), Valid)
  }

  /** Every active record is on disk with its recorded content. */
  predicate MatchesDocument(live: map<Path, Bytes>, doc: seq<Record>) {
    forall r :: r in doc && r.status == Active ==> r.hash.Some? && Holds(live, r.path, r.hash.value)
  }

  /** Commits the journal's revision to the vault state and clears everything the apply left. */
  function Finish(m: Machine, j: Journal): Machine {
    m.(journal := None, planFile := Missing, disk := m.disk.(staging := map[]), state := Reconcile(m.state, j))
  }

  /** Sets staged payloads aside and asks for a full pull. */
  function SetAside(m: Machine): Machine {
    m.(journal := None, planFile := Missing, disk := m.disk.(staging := map[]), state := MarkStale(m.state),
       orphans := m.orphans + m.disk.staging.Items)
  }

  function Fallback(m: Machine, j: Journal, doc: seq<Record>): Resumed {
    if j.phase == Materializing && MatchesDocument(m.disk.live, doc)
    then Resumed(Finish(m, j), Finalized, false)
    else Resumed(SetAside(m), Degraded, true)
  }

  predicate PlanFits(f: PlanFile, j: Journal) {
    f.Stored? && f.vault == j.vault && f.plan.revision == j.revision && f.opsHash == j.opsHash
  }

  function Replay(m: Machine, j: Journal, plan: Plan, day: int): Resumed {
    var r := Apply(m.disk, plan, day);
    var after := m.(disk := r.disk, journal := Some(j.(phase := Materializing)));
    if r.Ok() then Resumed(Finish(after, j), Replayed, false)
    else Fallback(after, j, m.disk.doc)
  }

  function Resume(m: Machine, day: int): Resumed {
    match m.journal
    case None =>
      if m.disk.staging == map[] && m.planFile == Missing then Resumed(m, Idle, false)
      else Resumed(SetAside(m), Orphaned, true)
    case Some(j) =>
      if j.phase == Staging || j.phase == Materializing then
        if PlanFits(m.planFile, j) then Replay(m, j, m.planFile.plan, day)
        else Fallback(m, j, m.disk.doc)
      else if j.phase == FilemapRewrite || j.phase == Finalizing then Resumed(Finish(m, j), Finalized, false)
      else Resumed(SetAside(m), Degraded, true)
  }

  ghost predicate Quiescent(m: Machine) {
    m.journal == None && m.planFile == Missing && m.disk.staging == map[]
  }

  /** Main result: whatever was left behind, resuming reaches a quiescent state, and resuming again does nothing. */
  lemma ResumeIsQuiescent(m: Machine, day: int, again: int)
    ensures Quiescent(Resume(m, day).machine)
    ensures Resume(Resume(m, day).machine, again) == Resumed(Resume(m, day).machine, Idle, false)
  {
    hide PullApply.Apply;
  }

  /** The state after closing a journal: no revision goes back, the journal's is to be acknowledged, its summary is the valid one. */
  predicate Advances(s: VaultState, j: Journal, t: VaultState) {
    && t.lastApplied == (if s.lastApplied < j.revision then j.revision else s.lastApplied)
    && t.remoteHead == (if s.remoteHead < j.revision then j.revision else s.remoteHead)
    && t.acked == (if s.acked < j.revision then j.revision else s.acked)
    && t.pendingAck == s.pendingAck + {j.revision} && t.summary == Some(j.summary) && t.status == Valid
  }

  /** Nothing but the summary is forgotten. */
  predicate GoesStale(s: VaultState, t: VaultState) {
    && t.lastApplied == s.lastApplied && t.remoteHead == s.remoteHead && t.acked == s.acked && t.pendingAck == s.pendingAck
    && t.summary == None && t.status == Stale
  }

  /** The device has a journal of a pull being staged or applied, and the stored plan is that of the journal. */
  predicate HasPlan(m: Machine) {
    && m.journal.Some? && (m.journal.value.phase == Staging || m.journal.value.phase == Materializing) && m.planFile.Stored?
    && m.planFile.vault == m.journal.value.vault && m.planFile.plan.revision == m.journal.value.revision
    && m.planFile.opsHash == m.journal.value.opsHash
  }

  /** Every active record has a hash, and its file is there with it. */
  predicate AsRecorded(live: map<Path, Bytes>, doc: seq<Record>) {
    forall k :: 0 <= k < |doc| && doc[k].status == Active ==>
      doc[k].hash.Some? && doc[k].path in live && Sha256(live[doc[k].path]) == doc[k].hash.value
  }

  lemma RecordedIs(live: map<Path, Bytes>, doc: seq<Record>)
    ensures MatchesDocument(live, doc) <==> AsRecorded(live, doc)
  {
    if AsRecorded(live, doc) {
      forall r | r in doc && r.status == Active
        ensures r.hash.Some? && Holds(live, r.path, r.hash.value)
      {
        var k :| 0 <= k < |doc| && doc[k] == r;
      }
    }
  }

  /** Main result: what recovery does, exactly. It replays if and only if it has the plan of an open journal and the replay goes
      through; without replay it closes a journal only past the point of applying, or if every active file is as recorded. */
  lemma ResumeModes(m: Machine, day: int)
    ensures var r := Resume(m, day);
            && (r.mode == Idle <==> m.journal.None? && m.disk.staging == map[] && m.planFile == Missing)
            && (r.mode == Orphaned <==> m.journal.None? && !(m.disk.staging == map[] && m.planFile == Missing))
            && (r.mode == Replayed <==> HasPlan(m) && Apply(m.disk, m.planFile.plan, day).Ok())
            && (r.mode == Finalized <==> (
                  && m.journal.Some? && r.mode != Replayed
                  && (m.journal.value.phase == FilemapRewrite || m.journal.value.phase == Finalizing ||
                      (m.journal.value.phase == Materializing && AsRecorded(r.machine.disk.live, m.disk.doc)))))
            && (r.mode == Finalized && m.journal.value.phase != Materializing ==> r.machine.disk.live == m.disk.live)
            && r.machine.vault == m.vault
            && r.machine.disk.(staging := map[]) ==
                 (if HasPlan(m) then Apply(m.disk, m.planFile.plan, day).disk else m.disk).(staging := map[])
  {
    RecordedIs(m.disk.live, m.disk.doc);
    if HasPlan(m) { RecordedIs(Apply(m.disk, m.planFile.plan, day).disk.live, m.disk.doc); }
    hide PullApply.Apply, MatchesDocument, AsRecorded, Reconcile, MarkStale;
  }

  /** Main result: a full pull is asked for exactly when the summary was marked stale, and no file
      is trusted without proof: a replay has applied its plan, and a materializing journal is
      closed without one only if every active file matches its record. */
  lemma ResumeIsSound(m: Machine, day: int)
    ensures var r := Resume(m, day);
            && (r.fullPull <==> r.mode == Orphaned || r.mode == Degraded)
            && (r.fullPull ==> GoesStale(m.state, r.machine.state))
            && (r.mode == Idle ==> r.machine == m)
            && (!r.fullPull && r.mode != Idle ==> m.journal.Some? && Advances(m.state, m.journal.value, r.machine.state))
    ensures m.journal.Some? && m.journal.value.phase.Materializing? && Resume(m, day).mode != Replayed ==>
              (Resume(m, day).mode == Finalized <==> AsRecorded(Resume(m, day).machine.disk.live, m.disk.doc))
    ensures m.journal.Some? && m.journal.value.phase.Staging? && Resume(m, day).mode != Replayed ==>
              Resume(m, day).mode == Degraded
    ensures Resume(m, day).mode == Replayed ==> HasPlan(m)
    ensures Resume(m, day).mode == Replayed && WellFormed(m.planFile.plan) &&
              Separated(m.planFile.plan, m.disk, {day}) ==>
              Applied(m.planFile.plan, Resume(m, day).machine.disk)
  {
    ResumeModes(m, day);
    if Resume(m, day).mode == Replayed {
      hide PullApply.Apply, AsRecorded, MatchesDocument;
      if WellFormed(m.planFile.plan) && Separated(m.planFile.plan, m.disk, {day}) {
        SuccessMeansApplied(m.disk, m.planFile.plan, day);
      }
    }
    hide PullApply.Apply, AsRecorded, MatchesDocument;
  }

  /** Main result: a replay, whatever names its plan uses, has put every target in place, and has applied the plan
      if and only if no copy of an edit comes to stay on a path the plan vacates. */
  lemma ReplayAppliedIff(m: Machine, day: int)
    requires Resume(m, day).mode == Replayed
    requires WellFormed(m.planFile.plan) && Separated(m.planFile.plan, m.disk, {}) && UniqueCopies(m.disk.doc)
    ensures var (plan, f) := (m.planFile.plan, Resume(m, day).machine.disk);
            && (forall w :: w in plan.writes ==> Holds(f.live, w.target, w.hash))
            && (forall o :: o in plan.moves ==> Holds(f.live, o.target, o.hash))
            && (Applied(plan, f) <==>
                  forall x :: x in Sources(plan) - Targets(plan) ==> NoneLands(m.disk, Before(plan, 6), day, x))
  {
    var plan := m.planFile.plan;
    ResumedFiles(m, plan, day);
    hide PullApply.Apply, PullApply.Before, PullPlan.WellFormed, Separated, Resume, UniqueCopies, NoneLands, Sources, Targets;
    AppliedIff(m.disk, plan, day);
  }

  /** A pull that has staged its payloads and may have started to apply them. */
  ghost predicate InSession(m: Machine, plan: Plan) {
    HasPlan(m) && m.planFile.plan == plan
  }

  /** Main result: recovery replays a session if and only if its disk supplies the plan
      and every edit in the way can be saved. */
  lemma ReplayedIffReady(m: Machine, plan: Plan, day: int)
    requires InSession(m, plan) && WellFormed(plan) && Separated(plan, m.disk, {day}) && IdsDrawn(plan, m.disk)
    ensures Resume(m, day).mode == Replayed <==> Ready(plan, m.disk, false) && Registers(m.disk, Before(plan, 6), day)
    ensures Resume(m, day).mode == Replayed ==> Applied(plan, Resume(m, day).machine.disk)
  {
    hide PullApply.Apply, PullApply.Before, Ready, Registers, PullPlan.WellFormed;
    SucceedsIffReady(m.disk, plan, day);
    if Apply(m.disk, plan, day).Ok() { SuccessMeansApplied(m.disk, plan, day); }
  }

  lemma ReplayedWhenGood(m: Machine, plan: Plan, days: set<int>, day: int)
    requires InSession(m, plan) && WellFormed(plan) && Good(plan, m.disk, days) && day in days && Ready(plan, m.disk, false)
    ensures Resume(m, day).mode == Replayed && Applied(plan, Resume(m, day).machine.disk)
  {
    GoodParts(plan, m.disk, days);
    GoodSucceedsIff(m.disk, plan, days, day);
    SuccessMeansApplied(m.disk, plan, day);
    hide PullApply.Apply;
  }

  /** The same device after a crash: only its disk and the phase of its journal may differ. */
  ghost predicate CrashOf(m: Machine, c: Machine, plan: Plan, day: int) {
    && InSession(m, plan) && c == m.(disk := c.disk, journal := Some(m.journal.value.(phase := Materializing)))
    && (c.disk == m.disk || Upto(m.disk, plan, if NoChain(plan) then 6 else 4, day).Visits(c.disk))
  }

  ghost predicate CrashRun(m: Machine, crashes: seq<Machine>, days: seq<int>, plan: Plan)
    requires |crashes| == |days|
    decreases |crashes|
  {
    crashes == [] || (CrashOf(m, crashes[0], plan, days[0]) && CrashRun(crashes[0], crashes[1..], days[1..], plan))
  }

  /** Main result: a session and any number of recoveries may be killed, each before its second move loop
      or, without chained moves, anywhere; the next recovery that runs to its end applies the plan. */
  lemma {:induction false} RecoveryCompletes(m: Machine, crashes: seq<Machine>, days: seq<int>, plan: Plan,
                                             within: set<int>, day: int)
    requires |crashes| == |days| && CrashRun(m, crashes, days, plan) && InSession(m, plan)
    requires (forall k :: 0 <= k < |days| ==> days[k] in within) && day in within
    requires WellFormed(plan) && Good(plan, m.disk, within) && Ready(plan, m.disk, false)
    ensures var last := if crashes == [] then m else crashes[|crashes| - 1];
            var r := Resume(last, day);
            && r.mode == Replayed && !r.fullPull && Applied(plan, r.machine.disk)
            && Advances(m.state, m.journal.value, r.machine.state)
    decreases |crashes|
  {
    hide PullApply.Apply, Good, Ready, PullPlan.WellFormed, Upto;
    if crashes == [] {
      ReplayedWhenGood(m, plan, within, day);
      ResumeIsSound(m, day);
    } else {
      var c := crashes[0];
      if c.disk != m.disk {
        CrashKeepsReady(plan, m.disk, within, if NoChain(plan) then 6 else 4, days[0], c.disk);
      }
      RecoveryCompletes(c, crashes[1..], days[1..], plan, within, day);
      assert crashes[1..] != [] ==> crashes[1..][|crashes| - 2] == crashes[|crashes| - 1];
    }
  }

  ghost predicate SameFiles(d: Disk, e: Disk) {
    d.live == e.live && d.doc == e.doc
  }

  /** Besides clearing staging, recovery leaves the files as they are or as the replay left them. */
  lemma ResumedFiles(m: Machine, plan: Plan, day: int)
    requires m.planFile.Stored? ==> m.planFile.plan == plan
    ensures var (f, r) := (Resume(m, day).machine.disk, Apply(m.disk, plan, day));
            && (SameFiles(f, m.disk) || SameFiles(f, r.disk))
            && (Resume(m, day).mode == Replayed ==> r.Ok() && SameFiles(f, r.disk))
  {
    hide PullApply.Apply, MatchesDocument, Reconcile, MarkStale;
  }

  lemma SameFate(d: Disk, e: Disk, op: Op, bytes: Bytes)
    requires SameFiles(d, e)
    ensures Survives(d, Guard(op), bytes) ==> Survives(e, Guard(op), bytes)
    ensures Saved(d, op, bytes) ==> Saved(e, op, bytes)
  {
  }

  /** Main result: an edit that a session and any number of interrupted recoveries found, stopped at any crash point,
      is still there after the next recovery, and saved if that recovery replayed the plan. */
  lemma RecoveryKeepsEdits(d: Disk, plan: Plan, attempts: seq<Attempt>, days: set<int>, m: Machine, day: int,
                           op: Op, bytes: Bytes)
    requires WellFormed(plan) && Separated(plan, d, days) && UniqueCopies(d.doc)
    requires Attempts(plan, d, attempts, days) && day in days
    requires Tracks(plan, op) && Guard(op).expected.Some? && Guard(op).expected != Some(Sha256(bytes))
    requires Survives(d, Guard(op), bytes)
    requires m.disk == LastDisk(d, attempts) && (m.planFile.Stored? ==> m.planFile.plan == plan)
    ensures var r := Resume(m, day);
            && Survives(r.machine.disk, Guard(op), bytes)
            && (r.mode == Replayed ==> Saved(r.machine.disk, op, bytes))
  {
    var e := Apply(m.disk, plan, day).disk;
    NoEditLostInReplays(d, plan, attempts, days, day, op, bytes);
    ResumedFiles(m, plan, day);
    hide PullApply.Apply, PullPlan.WellFormed, LastDisk, Resume, Survives, Saved, Separated, UniqueCopies;
    var f := Resume(m, day).machine.disk;
    if SameFiles(f, e) { SameFate(e, f, op, bytes); }
    if SameFiles(f, m.disk) { SameFate(m.disk, f, op, bytes); }
  }
}
