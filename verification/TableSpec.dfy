/** The jobs of all units together (core/bin/job/table.rs), as values: what the table holds at
    rest, and the operations on it that involve more than one unit. */
module TableSpec {
  import opened Wrappers
  import opened JobTypes
  import opened JobStore
  import opened UnitSpec
  import opened UnitInvariant
  import opened Mirror

  type Units = map<UnitId, UnitState>

  function Get(units: Units, u: UnitId): UnitState {
    if u in units then units[u] else NewUnit(u)
  }

  /** A unit without jobs is dropped from the table (`try_gc_empty_unit`). */
  function Put(units: Units, u: UnitId, s: UnitState): Units {
    if IsEmpty(s) then units - {u} else units[u := s]
  }

  ghost predicate Keyed(units: Units) {
    forall u :: u in units ==> units[u].unit == u
  }

  lemma {:induction false} SubsetSize<T>(a: set<T>, b: set<T>)
    requires a <= b
    ensures |a| <= |b|
    decreases a
  {
    if a != {} {
      var x :| x in a;
      SubsetSize(a - {x}, b - {x});
    }
  }

  lemma StoreTwice<K, V>(m: map<K, V>, k: K, v: V, w: V)
    ensures m[k := v][k := w] == m[k := w]
  {
  }

  lemma PutTwice(units: Units, u: UnitId, s: UnitState)
    ensures Put(units[u := s], u, s) == Put(units, u, s)
  {
  }

  /** The table at rest: every unit keeps its invariant, and none is empty. */
  ghost predicate UnitsOk(units: Units) {
    forall u :: u in units ==> units[u].unit == u && UnitInv(units[u]) && !IsEmpty(units[u])
  }

  ghost predicate Mirrored(units: Units, db: JobDb) {
    forall u :: MirrorUnit(Get(units, u), db)
  }

  // ---------------------------------------------------------------- waking neighbours

  function ResumeEntry(s: UnitState): UnitState {
    if s.pause then Rest(Resume(s)) else s
  }

  /** Those of `others` that were held back get another try; nothing else changes. */
  ghost predicate Resumed(units: Units, others: set<UnitId>, now: Units) {
    && (forall u :: u in now <==> u in units)
    && (forall u :: u in now ==> now[u] == if u in others then ResumeEntry(units[u]) else units[u])
  }

  lemma ResumeStep(s: UnitState)
    requires UnitInv(s)
    ensures UnitInv(ResumeEntry(s)) && ResumeEntry(s).unit == s.unit
    ensures ResumeEntry(s).suspends == s.suspends && ResumeEntry(s).trigger == s.trigger && ResumeEntry(s).sq == s.sq
  {
  }

  /** Resuming makes a unit ready whenever anything in it could go on. */
  lemma ResumedIsReady(s: UnitState)
    requires UnitInv(s)
    ensures ResumeEntry(s).ready <==> NaturalReady(s).Some?
  {
  }

  lemma ResumedTwice(units: Units, first: set<UnitId>, mid: Units, second: set<UnitId>, now: Units)
    requires Resumed(units, first, mid) && Resumed(mid, second, now)
    ensures Resumed(units, first + second, now)
  {
  }

  lemma ResumeOneMore(units: Units, others: set<UnitId>, now: Units, u: UnitId)
    requires Resumed(units, others, now)
    ensures Resumed(units, others + {u}, if u in now then now[u := ResumeEntry(now[u])] else now)
  {
  }

  /** A trigger that is to be run again. */
  predicate Rearmed(s: UnitState) {
    s.trigger.Some? && s.retrigger && !s.pause
  }

  lemma RearmedIsReady(s: UnitState)
    requires UnitInv(s) && Rearmed(s)
    ensures s.ready
  {
  }

  predicate HasTrigger(units: Units, u: UnitId) {
    u in units && units[u].trigger.Some?
  }

  /** The unit has a trigger that is to be run again, or it has none. */
  predicate IsDue(units: Units, u: UnitId, due: bool) {
    if due then u in units && Rearmed(units[u]) else !HasTrigger(units, u)
  }

  /** As a table is rebuilt: every trigger is to be run again, and nobody is paused. */
  ghost predicate AllRearmed(units: Units) {
    forall u :: u in units ==> !units[u].pause && (units[u].trigger.Some? ==> Rearmed(units[u]))
  }

  // ---------------------------------------------------------------- one unit changes

  lemma MirrorAt(units: Units, db: JobDb, u: UnitId, s: UnitState, db': JobDb)
    requires Mirrored(units, db) && Keyed(units) && s.unit == u
    requires MirrorUnit(s, db') && SameOutside(u, db, db')
    ensures Mirrored(units[u := s], db')
    ensures IsEmpty(s) ==> Mirrored(units - {u}, db')
  {
    var with, without := units[u := s], units - {u};
    forall v ensures MirrorUnit(Get(with, v), db') {
      if v != u {
        OtherMirrors(Get(units, v), u, db, db');
      }
    }
    if IsEmpty(s) {
      forall v ensures MirrorUnit(Get(without, v), db') {
        if v == u {
          SameJobsMirror(s, NewUnit(u), db');
        } else {
          OtherMirrors(Get(units, v), u, db, db');
        }
      }
    }
  }

  lemma OtherMirrors(s: UnitState, u: UnitId, db: JobDb, db': JobDb)
    requires MirrorUnit(s, db) && SameOutside(u, db, db') && s.unit != u
    ensures MirrorUnit(s, db')
  {
  }

  lemma PutOk(units: Units, u: UnitId, s: UnitState)
    requires UnitsOk(units) && UnitInv(s) && s.unit == u
    ensures UnitsOk(Put(units, u, s))
  {
  }

  /** One event of one unit keeps the whole table at rest and mirrored. */
  lemma PutKeeps(units: Units, db: JobDb, u: UnitId, e: Event)
    requires UnitsOk(units) && u in units && Enabled(units[u], e) && db.Recording() && Mirrored(units, db)
    ensures Safe(units[u], e)
    ensures UnitsOk(Put(units, u, Step(units[u], e)))
    ensures Mirrored(Put(units, u, Step(units[u], e)), StepDb(db, units[u], e))
    ensures StepDb(db, units[u], e).Recording()
  {
    var s := units[u];
    StepKeepsInv(s, e);
    assert MirrorUnit(Get(units, u), db);
    StepMirrors(s, e, db);
    MirrorAt(units, db, u, Step(s, e), StepDb(db, s, e));
    PutOk(units, u, Step(s, e));
  }

  // ---------------------------------------------------------------- a ready unit is tried

  /** Run the next job of a ready unit, or pause the unit when it is held back. */
  function TryRaw(s: UnitState, run: bool, outcome: Outcome): UnitState
    requires Triable(s)
  {
    if run then TriggerState(s, outcome) else Pause(s)
  }

  function TryUnit(s: UnitState, run: bool, outcome: Outcome): UnitState
    requires Triable(s)
  {
    Rest(TryRaw(s, run, outcome))
  }

  function TryDb(db: JobDb, s: UnitState, run: bool): JobDb
    requires Triable(s)
  {
    if run then TriggerDb(db, NextState(s).trigger.value, Replaced(s)) else db
  }

  predicate Triable(s: UnitState) {
    CalcReady(s).Some? && (CalcReady(s).value ==> s.sq[0] in s.suspends)
  }

  lemma TryUnitRests(s: UnitState, run: bool, outcome: Outcome)
    requires UnitInv(s) && s.ready
    ensures Triable(s) && RunSafe(s)
    ensures var s' := TryUnit(s, run, outcome);
            UnitInv(s') && s'.unit == s.unit && !s'.ready && !IsEmpty(s')
    ensures !TryRaw(s, run, outcome).ready
  {
    NextOk(s);
    if run {
      RunStep(s, outcome);
    } else {
      StepKeepsInv(s, PauseIt);
      CanonEmpty(s.suspends.Keys);
    }
  }

  lemma TryKeeps(units: Units, db: JobDb, u: UnitId, run: bool, outcome: Outcome)
    requires UnitsOk(units) && u in units && units[u].ready && db.Recording() && Mirrored(units, db)
    ensures Triable(units[u])
    ensures UnitsOk(units[u := TryUnit(units[u], run, outcome)])
    ensures Mirrored(units[u := TryUnit(units[u], run, outcome)], TryDb(db, units[u], run))
    ensures TryDb(db, units[u], run).Recording()
  {
    TryUnitRests(units[u], run, outcome);
    PutKeeps(units, db, u, if run then Run(outcome) else PauseIt);
  }

  /** What the index knows of a unit plays no part. */
  lemma TrySame(s: UnitState, run: bool, outcome: Outcome, db: JobDb)
    requires Triable(s)
    ensures Triable(s.(upReady := false))
    ensures TryUnit(s.(upReady := false), run, outcome) == TryUnit(s, run, outcome)
    ensures var raw := TryRaw(s.(upReady := false), run, outcome);
            raw.ready == TryRaw(s, run, outcome).ready && raw.unit == s.unit && !raw.upReady
    ensures TryDb(db, s.(upReady := false), run) == TryDb(db, s, run)
  {
    NextSame(s);
    RawSame(s, run, outcome);
  }

  lemma RawSame(s: UnitState, run: bool, outcome: Outcome)
    requires Triable(s)
    ensures TryRaw(s.(upReady := false), run, outcome) == TryRaw(s, run, outcome).(upReady := false)
    ensures TryRaw(s, run, outcome).unit == s.unit
  {
    if run {
      RunSame(s, outcome);
    }
  }

  lemma RunSame(s: UnitState, outcome: Outcome)
    requires Triable(s)
    ensures TriggerState(s.(upReady := false), outcome) == TriggerState(s, outcome).(upReady := false)
    ensures TriggerState(s, outcome).unit == s.unit
  {
    NextSame(s);
    RunNextSame(NextState(s), Triggered(NextState(s).trigger.value, Replaced(s)), outcome);
  }

  lemma RunNextSame(s: UnitState, job: Job, outcome: Outcome)
    ensures RunNext(s.(upReady := false), job, outcome) == RunNext(s, job, outcome).(upReady := false)
    ensures RunNext(s, job, outcome).unit == s.unit
  {
    AgainSame(s.(trigger := Some(job)));
  }

  lemma AgainSame(s: UnitState)
    ensures Retrigger(Pause(s.(upReady := false))) == Retrigger(Pause(s)).(upReady := false)
    ensures Retrigger(Pause(s)).unit == s.unit
  {
  }

  lemma NextSame(s: UnitState)
    requires Triable(s)
    ensures NextState(s.(upReady := false)) == NextState(s).(upReady := false)
    ensures Replaced(s.(upReady := false)) == Replaced(s)
  {
  }

  // ---------------------------------------------------------------- a stage is committed

  /** The suspended jobs of a staging table; nothing in it has been triggered. */
  ghost predicate StageTable(stage: Units) {
    forall u :: u in stage ==> stage[u].unit == u && StageOk(u, stage[u].suspends) && stage[u].trigger.None?
                               && stage[u].suspends != map[]
  }

  function Theirs(stage: Units, u: UnitId): map<JobKind, Job> {
    if u in stage then stage[u].suspends else map[]
  }

  // What a commit does to the jobs of one unit: `j` is added, updated, flushed or merged away.

  predicate AddedAt(s: UnitState, theirs: map<JobKind, Job>, j: Job) {
    j.kind in theirs && j.kind !in Kept(s, theirs) && j == theirs[j.kind].(stage := Wait)
  }

  predicate UpdatedAt(s: UnitState, theirs: map<JobKind, Job>, j: Job) {
    && j.kind in theirs && j.kind in Kept(s, theirs)
    && var a, b := s.suspends[j.kind].attr, theirs[j.kind].attr;
       j == s.suspends[j.kind].(attr := JobAttr(
         a.ignoreOrder || b.ignoreOrder, a.irreversible || b.irreversible, a.force || b.force, a.noRelevancy || b.noRelevancy))
  }

  predicate FlushedAt(s: UnitState, theirs: map<JobKind, Job>, j: Job) {
    && IsConflict(s.suspends.Keys + theirs.Keys)
    && j.kind in s.suspends && j == s.suspends[j.kind].(stage := End(Cancelled))
  }

  predicate MergedAt(m: UnitState, active: bool, j: Job) {
    && m.dirty && !m.order
    && j.kind in m.suspends && IsMerged(m.suspends.Keys, active, j.kind) && j == m.suspends[j.kind].(stage := End(Merged))
  }

  /** The jobs of the units of `done` that a merge adds, updates and flushes. */
  ghost predicate MergeReport(
      units: Units, stage: Units, done: set<UnitId>, adds: set<Job>, updates: set<Job>, dels: set<Job>)
  {
    && (forall j :: j in adds <==> j.unit in done && AddedAt(Get(units, j.unit), Theirs(stage, j.unit), j))
    && (forall j :: j in updates <==> j.unit in done && UpdatedAt(Get(units, j.unit), Theirs(stage, j.unit), j))
    && (forall j :: j in dels <==> j.unit in done && FlushedAt(Get(units, j.unit), Theirs(stage, j.unit), j))
  }

  /** The jobs of the units of `done` that a reshuffle merges away. */
  ghost predicate ReshuffleReport(units: Units, active: set<UnitId>, done: set<UnitId>, merged: set<Job>) {
    forall j :: j in merged <==> j.unit in done && j.unit in units && MergedAt(units[j.unit], j.unit in active, j)
  }

  function AddsOf(s: UnitState, theirs: map<JobKind, Job>): set<Job> {
    set k | k in theirs && k !in Kept(s, theirs) :: WaitJob(theirs[k])
  }

  function UpdatesOf(s: UnitState, theirs: map<JobKind, Job>): set<Job> {
    set k | k in theirs && k in Kept(s, theirs) :: MergeAttr(s.suspends[k], theirs[k])
  }

  function FlushesOf(s: UnitState, theirs: map<JobKind, Job>): set<Job> {
    if IsConflict(s.suspends.Keys + theirs.Keys) then set k | k in s.suspends :: FinishJob(s.suspends[k], Cancelled)
    else {}
  }

  function MergesOf(m: UnitState, active: bool): set<Job> {
    if m.dirty && !m.order
    then set k | k in m.suspends && IsMerged(m.suspends.Keys, active, k) :: FinishJob(m.suspends[k], Merged)
    else {}
  }

  lemma ReportOneMore(
      units: Units, stage: Units, done: set<UnitId>, adds: set<Job>, updates: set<Job>, dels: set<Job>, u: UnitId)
    requires MergeReport(units, stage, done, adds, updates, dels) && u !in done
    requires SuspendsOk(u, Get(units, u).suspends) && StageOk(u, Theirs(stage, u))
    ensures var s, theirs := Get(units, u), Theirs(stage, u);
            MergeReport(units, stage, done + {u},
                        adds + AddsOf(s, theirs), updates + UpdatesOf(s, theirs), dels + FlushesOf(s, theirs))
  {
    ReportOf(u, Get(units, u), Theirs(stage, u));
  }

  lemma ReportOf(u: UnitId, s: UnitState, theirs: map<JobKind, Job>)
    requires SuspendsOk(u, s.suspends) && StageOk(u, theirs)
    ensures forall j :: j in AddsOf(s, theirs) <==> j.unit == u && AddedAt(s, theirs, j)
    ensures forall j :: j in UpdatesOf(s, theirs) <==> j.unit == u && UpdatedAt(s, theirs, j)
    ensures forall j :: j in FlushesOf(s, theirs) <==> j.unit == u && FlushedAt(s, theirs, j)
  {
  }

  lemma MergesOneMore(units: Units, active: set<UnitId>, done: set<UnitId>, merged: set<Job>, u: UnitId)
    requires ReshuffleReport(units, active, done, merged) && u in units && u !in done
    requires forall k :: k in units[u].suspends ==> units[u].suspends[k].kind == k && units[u].suspends[k].unit == u
    ensures ReshuffleReport(units, active, done + {u}, merged + MergesOf(units[u], u in active))
  {
  }

  /** The units of `done` have been merged, the others not yet. */
  ghost predicate MergedUpTo(units: Units, stage: Units, done: set<UnitId>, now: Units) {
    && (forall u :: u in now <==> u in units || u in done)
    && (forall u :: u in now ==>
          now[u] == if u in done then MergeSuspends(Get(units, u), Theirs(stage, u)) else units[u])
  }

  /** The units of `done` have been reshuffled and dropped if empty, the others not yet. */
  ghost predicate ReshuffledUpTo(units: Units, active: set<UnitId>, done: set<UnitId>, now: Units) {
    && (forall u :: u in now <==> u in units && (u in done ==> !IsEmpty(ReshuffleEntry(units[u], u in active))))
    && (forall u :: u in now ==> now[u] == if u in done then ReshuffleEntry(units[u], u in active) else units[u])
  }

  /** The stage has been merged and everything is at rest again. */
  ghost predicate Committed(units: Units, stage: Units, active: set<UnitId>, now: Units) {
    && (forall u :: u in now <==> u in units || u in stage)
    && (forall u :: u in now ==> now[u] == CommitUnit(Get(units, u), Theirs(stage, u), u in active))
  }

  lemma GetInv(units: Units, u: UnitId)
    requires UnitsOk(units)
    ensures UnitInv(Get(units, u)) && Get(units, u).unit == u
  {
  }

  /** What a merge makes of a unit: it can be reshuffled, and its rows are up to date. */
  lemma MergeKeeps(s: UnitState, theirs: map<JobKind, Job>, active: bool, rows: JobDb)
    requires UnitInv(s) && StageOk(s.unit, theirs) && rows.Recording() && MirrorUnit(s, rows)
    ensures var m := MergeSuspends(s, theirs);
            && m.unit == s.unit && m.upReady == s.upReady && (m.dirty ==> ReshuffleSafe(m, active))
            && MirrorUnit(m, MergeDb(rows, s, theirs)) && SameOutside(s.unit, rows, MergeDb(rows, s, theirs))
            && UnitInv(CommitUnit(s, theirs, active)) && CommitUnit(s, theirs, active).unit == s.unit
  {
    CommitRests(s, theirs, active);
    MergeMirrors(s, theirs, rows);
  }

  lemma CommitNotEmpty(s: UnitState, theirs: map<JobKind, Job>, active: bool)
    requires UnitInv(s) && StageOk(s.unit, theirs) && (theirs != map[] || !IsEmpty(s))
    ensures !IsEmpty(CommitUnit(s, theirs, active))
  {
    MergedOk(s, theirs);
    MergeDirty(s, theirs);
    var m := MergeSuspends(s, theirs);
    if m.dirty {
      OrderSettles(m, active);
    }
    CommitRests(s, theirs, active);
    CanonEmpty(CommitUnit(s, theirs, active).suspends.Keys);
  }

  lemma NothingToCommit(s: UnitState, active: bool)
    requires UnitInv(s)
    ensures CommitUnit(s, map[], active) == s
  {
    assert MergedSuspends(s.suspends, map[]) == s.suspends;
    var none: map<JobKind, Job> := map[];
    assert s.suspends.Keys + none.Keys == s.suspends.Keys;
  }

  /** The jobs of a unit after a commit. */
  lemma CommittedJobs(s: UnitState, theirs: map<JobKind, Job>, active: bool)
    requires UnitInv(s) && StageOk(s.unit, theirs)
    ensures var s' := CommitUnit(s, theirs, active);
            && s'.trigger == s.trigger && s'.pause == s.pause
            && s'.suspends.Keys == Unmerged(Kept(s, theirs).Keys + theirs.Keys, active)
            && forall k :: k in s'.suspends ==> s'.suspends[k] == MergedSuspends(Kept(s, theirs), theirs)[k]
  {
    MergeLeaves(s, theirs);
    MergedOk(s, theirs);
    MergeDirty(s, theirs);
    var m := MergeSuspends(s, theirs);
    if m.dirty {
      OrderSettles(m, active);
      return;
    }
    SettledStaysSettled(s.suspends.Keys, m.suspends.Keys, active);
  }

  predicate KnownJobs(s: UnitState, u: UnitId) {
    s.unit == u && forall k :: k in s.suspends ==> s.suspends[k].kind == k && s.suspends[k].unit == u
  }

  /** What `reshuffle` needs of each unit, and what makes the result at rest. */
  ghost predicate MayReshuffle(s: UnitState, active: bool) {
    && UnitInv(ReshuffleEntry(s, active)) && KnownJobs(s, s.unit)
    && (s.dirty ==> ReshuffleSafe(s, active) && Reshuffle(s, active).upReady == s.upReady)
  }

  /** The units of a merged stage are free of conflicts, so they may be reshuffled. */
  lemma MergedMayReshuffle(units: Units, stage: Units, active: set<UnitId>, now: Units, u: UnitId)
    requires UnitsOk(units) && StageTable(stage) && MergedUpTo(units, stage, stage.Keys, now) && u in now
    ensures MayReshuffle(now[u], u in active) && now[u].unit == u
  {
    GetInv(units, u);
    if u in stage {
      UnitMayReshuffle(Get(units, u), stage[u].suspends, u in active);
    } else {
      KnowsItsJobs(units[u]);
    }
  }

  lemma KnowsItsJobs(s: UnitState)
    requires SuspendsOk(s.unit, s.suspends)
    ensures KnownJobs(s, s.unit)
  {
    assert forall k :: k in s.suspends ==> SuspendOk(s.unit, k, s.suspends[k]);
  }

  lemma UnitMayReshuffle(s: UnitState, theirs: map<JobKind, Job>, active: bool)
    requires UnitInv(s) && StageOk(s.unit, theirs)
    ensures MayReshuffle(MergeSuspends(s, theirs), active) && MergeSuspends(s, theirs).unit == s.unit
  {
    CommitRests(s, theirs, active);
    MergedOk(s, theirs);
    MergeLeaves(s, theirs);
    KnowsItsJobs(MergeSuspends(s, theirs));
    ReshuffleLeavesIndex(MergeSuspends(s, theirs), active);
  }

  lemma ReshuffleLeavesIndex(s: UnitState, active: bool)
    ensures Reshuffle(s, active).upReady == s.upReady
  {
  }

  lemma AllMayReshuffle(units: Units, stage: Units, active: set<UnitId>, now: Units)
    requires UnitsOk(units) && StageTable(stage) && MergedUpTo(units, stage, stage.Keys, now)
    ensures forall u :: u in now ==> MayReshuffle(now[u], u in active)
  {
    forall u | u in now
      ensures MayReshuffle(now[u], u in active)
    {
      MergedMayReshuffle(units, stage, active, now, u);
    }
  }

  lemma CommittedAt(units: Units, stage: Units, active: set<UnitId>, now: Units, u: UnitId)
    requires UnitsOk(units) && StageTable(stage) && MergedUpTo(units, stage, stage.Keys, now) && u in now
    ensures ReshuffleEntry(now[u], u in active) == CommitUnit(Get(units, u), Theirs(stage, u), u in active)
    ensures !IsEmpty(CommitUnit(Get(units, u), Theirs(stage, u), u in active))
  {
    GetInv(units, u);
    CommitNotEmpty(Get(units, u), Theirs(stage, u), u in active);
    if u !in stage {
      NothingToCommit(units[u], u in active);
    }
  }

  /** No unit of a commit ends up empty: merging and reshuffling make exactly `Committed`. */
  lemma CommitsAll(units: Units, stage: Units, active: set<UnitId>, mid: Units, now: Units)
    requires UnitsOk(units) && StageTable(stage) && MergedUpTo(units, stage, stage.Keys, mid)
    requires ReshuffledUpTo(mid, active, mid.Keys, now)
    ensures Committed(units, stage, active, now)
  {
    forall u | u in mid
      ensures u in now && now[u] == CommitUnit(Get(units, u), Theirs(stage, u), u in active)
    {
      CommittedAt(units, stage, active, mid, u);
    }
  }
}
