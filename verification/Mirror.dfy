/** The persistent tables mirror the live jobs of a unit: every waiting job has its row in the
    suspends table, and the running trigger has the unit's row in the trigger table. */
module Mirror {
  import opened Wrappers
  import opened JobTypes
  import opened JobStore
  import opened UnitSpec
  import opened UnitInvariant

  // ---------------------------------------------------------------- what each event writes

  function AttrsOf(jobs: map<JobKind, Job>, kinds: set<JobKind>): map<JobKind, JobAttr>
    requires kinds <= jobs.Keys
  {
    map k | k in kinds :: jobs[k].attr
  }

  function MergeBase(db: JobDb, s: UnitState, theirs: map<JobKind, Job>): JobDb {
    if IsConflict(s.suspends.Keys + theirs.Keys) then db.SuspDrop(s.unit, s.suspends.Keys) else db
  }

  /** Flushed jobs lose their rows; added and updated ones get theirs. */
  function MergeDb(db: JobDb, s: UnitState, theirs: map<JobKind, Job>): JobDb {
    MergeBase(db, s, theirs).SuspPut(s.unit, AttrsOf(MergedSuspends(Kept(s, theirs), theirs), theirs.Keys))
  }

  function ReshuffleDb(db: JobDb, s: UnitState, active: bool): JobDb {
    if s.order then db else db.SuspDrop(s.unit, s.suspends.Keys - Unmerged(s.suspends.Keys, active))
  }

  function CommitDb(db: JobDb, s: UnitState, theirs: map<JobKind, Job>, active: bool): JobDb {
    ReshuffleDb(MergeDb(db, s, theirs), MergeSuspends(s, theirs), active)
  }

  /** The replaced trigger is finished before the new one is run. */
  function TriggerDb(db: JobDb, next: Job, replaced: Option<Job>): JobDb {
    match replaced
    case None => RunDb(db, next)
    case Some(r) =>
      if r.kind == next.kind
      then RunDb(FinishDb(MergeAttrDb(db, next, r), r, Merged), MergeAttr(next, r))
      else RunDb(FinishDb(db, r, Merged), next)
  }

  function StepDb(db: JobDb, s: UnitState, e: Event): JobDb
    requires Safe(s, e)
  {
    match e
    case Commit(theirs, active) => CommitDb(db, s, theirs, active)
    case Remove(kinds, active) => db.SuspDrop(s.unit, kinds * s.suspends.Keys)
    case PauseIt => db
    case ResumeIt => db
    case Run(outcome) => TriggerDb(db, NextState(s).trigger.value, Replaced(s))
    case Finish(result) => FinishDb(db, s.trigger.value, result)
  }

  // ---------------------------------------------------------------- the mirror

  ghost predicate SuspMirror(unit: UnitId, suspends: map<JobKind, Job>, rows: map<SuspKey, JobAttr>) {
    forall k :: if k in suspends
                then SuspKey(unit, k) in rows && rows[SuspKey(unit, k)] == suspends[k].attr
                else SuspKey(unit, k) !in rows
  }

  predicate TrigMirror(unit: UnitId, trigger: Option<Job>, rows: map<UnitId, TrigData>) {
    if trigger.Some?
    then unit in rows && rows[unit] == TrigData(trigger.value.kind, trigger.value.attr)
    else unit !in rows
  }

  ghost predicate MirrorUnit(s: UnitState, db: JobDb) {
    SuspMirror(s.unit, s.suspends, db.suspends.rows) && TrigMirror(s.unit, s.trigger, db.trigger.rows)
  }

  /** The rows of all other units are untouched. */
  ghost predicate SameOutside(unit: UnitId, db: JobDb, db': JobDb) {
    && db'.trigger.ignore == db.trigger.ignore && db'.suspends.ignore == db.suspends.ignore
    && (forall u :: u != unit ==>
          (u in db.trigger.rows <==> u in db'.trigger.rows)
          && (u in db.trigger.rows ==> db.trigger.rows[u] == db'.trigger.rows[u]))
    && (forall k: SuspKey :: k.unit != unit ==>
          (k in db.suspends.rows <==> k in db'.suspends.rows)
          && (k in db.suspends.rows ==> db.suspends.rows[k] == db'.suspends.rows[k]))
  }

  lemma DropMirrors(db: JobDb, unit: UnitId, suspends: map<JobKind, Job>, left: map<JobKind, Job>, kinds: set<JobKind>)
    requires db.Recording() && SuspMirror(unit, suspends, db.suspends.rows)
    requires left == suspends - kinds
    ensures SuspMirror(unit, left, db.SuspDrop(unit, kinds).suspends.rows)
    ensures SameOutside(unit, db, db.SuspDrop(unit, kinds))
    ensures db.SuspDrop(unit, kinds).trigger == db.trigger
  {
  }

  lemma PutMirrors(db: JobDb, unit: UnitId, suspends: map<JobKind, Job>, more: map<JobKind, Job>, kinds: set<JobKind>)
    requires db.Recording() && SuspMirror(unit, suspends, db.suspends.rows)
    requires more.Keys == suspends.Keys + kinds
    requires forall k :: k in suspends && k !in kinds ==> more[k] == suspends[k]
    ensures var db' := db.SuspPut(unit, AttrsOf(more, kinds));
            && SuspMirror(unit, more, db'.suspends.rows) && SameOutside(unit, db, db') && db'.trigger == db.trigger
  {
  }

  lemma SameOutsideTrans(unit: UnitId, a: JobDb, b: JobDb, c: JobDb)
    requires SameOutside(unit, a, b) && SameOutside(unit, b, c)
    ensures SameOutside(unit, a, c)
  {
  }

  lemma MergeMirrors(s: UnitState, theirs: map<JobKind, Job>, db: JobDb)
    requires db.Recording() && MirrorUnit(s, db)
    ensures MirrorUnit(MergeSuspends(s, theirs), MergeDb(db, s, theirs))
    ensures SameOutside(s.unit, db, MergeDb(db, s, theirs))
  {
    var base := MergeBase(db, s, theirs);
    KeptMirrors(s, theirs, db);
    var now := MergedSuspends(Kept(s, theirs), theirs);
    PutMirrors(base, s.unit, Kept(s, theirs), now, theirs.Keys);
    SameJobsMirror(s.(suspends := now), MergeSuspends(s, theirs), MergeDb(db, s, theirs));
    SameOutsideTrans(s.unit, db, base, MergeDb(db, s, theirs));
  }

  lemma KeptMirrors(s: UnitState, theirs: map<JobKind, Job>, db: JobDb)
    requires db.Recording() && MirrorUnit(s, db)
    ensures var base := MergeBase(db, s, theirs);
            && base.Recording() && SuspMirror(s.unit, Kept(s, theirs), base.suspends.rows)
            && base.trigger == db.trigger && SameOutside(s.unit, db, base)
  {
  }

  lemma ReshuffleMirrors(s: UnitState, active: bool, db: JobDb)
    requires db.Recording() && MirrorUnit(s, db)
    ensures MirrorUnit(Reshuffle(s, active), ReshuffleDb(db, s, active))
    ensures SameOutside(s.unit, db, ReshuffleDb(db, s, active))
  {
    if !s.order {
      var merged := s.suspends.Keys - Unmerged(s.suspends.Keys, active);
      assert OrderQueue(s, active).suspends == s.suspends - merged;
      DropMirrors(db, s.unit, s.suspends, s.suspends - merged, merged);
    }
  }

  lemma CommitMirrors(s: UnitState, theirs: map<JobKind, Job>, active: bool, db: JobDb)
    requires UnitInv(s) && StageOk(s.unit, theirs) && db.Recording() && MirrorUnit(s, db)
    ensures MirrorUnit(CommitUnit(s, theirs, active), CommitDb(db, s, theirs, active))
    ensures SameOutside(s.unit, db, CommitDb(db, s, theirs, active))
  {
    MergeMirrors(s, theirs, db);
    MergeDirty(s, theirs);
    var m := MergeSuspends(s, theirs);
    var mdb := MergeDb(db, s, theirs);
    if m.dirty {
      ReshuffleMirrors(m, active, mdb);
      SameOutsideTrans(s.unit, db, mdb, CommitDb(db, s, theirs, active));
    }
  }

  /** All in all the new trigger's row moves from one table to the other, replacing the old one. */
  lemma TriggerRows(db: JobDb, next: Job, replaced: Option<Job>)
    requires db.Recording() && next.stage == Wait
    requires replaced.Some? ==> replaced.value.unit == next.unit && replaced.value.stage == Running
    ensures var db' := TriggerDb(db, next, replaced);
            var job := Triggered(next, replaced);
            && db'.suspends == db.suspends.Remove(SuspKey(next.unit, next.kind))
            && db'.trigger == db.trigger.Insert(next.unit, TrigData(job.kind, job.attr))
  {
  }

  lemma MoveMirrors(db: JobDb, db': JobDb, s: UnitState, k: JobKind, job: Job)
    requires db.Recording() && MirrorUnit(s, db)
    requires db'.suspends == db.suspends.Remove(SuspKey(s.unit, k))
    requires db'.trigger == db.trigger.Insert(s.unit, TrigData(job.kind, job.attr))
    ensures SuspMirror(s.unit, s.suspends - {k}, db'.suspends.rows)
    ensures TrigMirror(s.unit, Some(job), db'.trigger.rows)
    ensures SameOutside(s.unit, db, db')
  {
  }

  lemma RunMirrors(s: UnitState, outcome: Outcome, db: JobDb)
    requires UnitInv(s) && s.ready && db.Recording() && MirrorUnit(s, db)
    requires Safe(s, Run(outcome))
    ensures MirrorUnit(TriggerState(s, outcome), TriggerDb(db, NextState(s).trigger.value, Replaced(s)))
    ensures SameOutside(s.unit, db, TriggerDb(db, NextState(s).trigger.value, Replaced(s)))
  {
    if CalcReady(s).value {
      var next := s.suspends[s.sq[0]];
      assert SuspendOk(s.unit, s.sq[0], s.suspends[s.sq[0]]);
      TriggerRows(db, next, Replaced(s));
      MoveMirrors(db, TriggerDb(db, next, Replaced(s)), s, s.sq[0], Triggered(next, Replaced(s)));
    }
  }

  /** Running the new trigger before finishing the replaced one would lose its row. */
  lemma RunBeforeFinishLosesTrigger(db: JobDb, next: Job, replaced: Job)
    requires db.Recording() && next.unit == replaced.unit && next.stage == Wait && replaced.stage == Running
    ensures next.unit !in FinishDb(RunDb(db, next), replaced, Merged).trigger.rows
    ensures next.unit in RunDb(FinishDb(db, replaced, Merged), next).trigger.rows
  {
  }

  lemma RemoveMirrors(s: UnitState, kinds: set<JobKind>, active: bool, db: JobDb)
    requires UnitInv(s) && db.Recording() && MirrorUnit(s, db)
    ensures MirrorUnit(RemoveUnit(s, kinds, active), db.SuspDrop(s.unit, kinds * s.suspends.Keys))
    ensures SameOutside(s.unit, db, db.SuspDrop(s.unit, kinds * s.suspends.Keys))
  {
    var left := s.suspends - kinds;
    RemovalMergesNothing(s, kinds, active);
    assert left == s.suspends - kinds * s.suspends.Keys;
    DropMirrors(db, s.unit, s.suspends, left, kinds * s.suspends.Keys);
  }

  lemma FinishMirrors(s: UnitState, result: JobResult, db: JobDb)
    requires s.trigger.Some? && s.trigger.value.unit == s.unit && s.trigger.value.stage == Running
    requires db.Recording() && MirrorUnit(s, db)
    ensures MirrorUnit(FinishTrigger(s, result), FinishDb(db, s.trigger.value, result))
    ensures SameOutside(s.unit, db, FinishDb(db, s.trigger.value, result))
  {
  }

  /** Flags are not persistent. */
  lemma SameJobsMirror(s: UnitState, s': UnitState, db: JobDb)
    requires s'.unit == s.unit && s'.suspends == s.suspends && s'.trigger == s.trigger
    ensures MirrorUnit(s, db) <==> MirrorUnit(s', db)
  {
  }

  /** Every event leaves the tables an exact mirror of the unit, and other units' rows alone. */
  lemma StepMirrors(s: UnitState, e: Event, db: JobDb)
    requires UnitInv(s) && Enabled(s, e) && Safe(s, e)
    requires db.Recording() && MirrorUnit(s, db)
    ensures MirrorUnit(Step(s, e), StepDb(db, s, e))
    ensures SameOutside(s.unit, db, StepDb(db, s, e))
  {
    match e
    case Commit(theirs, active) => CommitMirrors(s, theirs, active, db);
    case Remove(kinds, active) => RemoveMirrors(s, kinds, active, db);
    case PauseIt => SameJobsMirror(s, Rest(Pause(s)), db);
    case ResumeIt => SameJobsMirror(s, Rest(Resume(s)), db);
    case Run(outcome) =>
      RunMirrors(s, outcome, db);
      SameJobsMirror(TriggerState(s, outcome), Rest(TriggerState(s, outcome)), StepDb(db, s, e));
    case Finish(result) =>
      FinishMirrors(s, result, db);
      SameJobsMirror(FinishTrigger(s, result), Rest(FinishTrigger(s, result)), StepDb(db, s, e));
  }
}
