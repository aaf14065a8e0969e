/** The index of jobs by id (`t_id` of core/bin/job/table.rs) against the jobs of all units. */
module TableIds {
  import opened Wrappers
  import opened JobTypes
  import opened JobStore
  import opened UnitSpec
  import opened UnitInvariant
  import opened TableSpec

  // ---------------------------------------------------------------- the id index

  /** The unit holds a job of that id and kind. */
  predicate OwnsAt(s: UnitState, id: nat, kind: JobKind) {
    || (kind in s.suspends && s.suspends[kind].id == id)
    || (s.trigger.Some? && s.trigger.value.id == id && s.trigger.value.kind == kind)
  }

  /** Each job of the unit is found by its id, and no two jobs share one. */
  ghost predicate IdsAt(s: UnitState, ids: map<nat, JobConf>) {
    && (forall k :: k in s.suspends ==> s.suspends[k].id in ids && ids[s.suspends[k].id] == JobConf(s.unit, k))
    && (s.trigger.Some? ==>
          var t := s.trigger.value;
          t.id in ids && ids[t.id] == JobConf(s.unit, t.kind)
          && (t.kind in s.suspends ==> s.suspends[t.kind].id != t.id))
  }

  /** The index holds exactly the suspended and triggered jobs of all units. */
  ghost predicate IdsOk(units: Units, ids: map<nat, JobConf>) {
    && (forall u :: u in units ==> IdsAt(units[u], ids))
    && (forall id :: id in ids ==> ids[id].unit in units && OwnsAt(units[ids[id].unit], id, ids[id].kind))
  }

  /** Jobs of a stage whose ids are all new are no triggers of the table. */
  lemma ApartNotTrigger(units: Units, ids: map<nat, JobConf>, stage: Units, stageIds: map<nat, JobConf>)
    requires IdsOk(units, ids) && IdsOk(stage, stageIds) && ids.Keys !! stageIds.Keys
    ensures forall u :: u in stage ==> NotTrigger(Get(units, u).trigger, stage[u].suspends)
  {
    forall u, k | u in stage && k in stage[u].suspends && u in units && units[u].trigger.Some?
      ensures stage[u].suspends[k].id != units[u].trigger.value.id
    {
      assert IdsAt(units[u], ids) && IdsAt(stage[u], stageIds);
    }
  }

  /** A unit lets go of the jobs with the ids in `gone`, and keeps the others. */
  ghost predicate LetsGo(s: UnitState, s': UnitState, gone: set<nat>) {
    && s'.unit == s.unit
    && (forall k :: k in s'.suspends ==> k in s.suspends && s'.suspends[k].id == s.suspends[k].id)
    && (s'.trigger.Some? ==>
          && OwnsAt(s, s'.trigger.value.id, s'.trigger.value.kind)
          && (s'.trigger.value.kind in s'.suspends ==> s'.suspends[s'.trigger.value.kind].id != s'.trigger.value.id))
    && (forall id, kind :: OwnsAt(s, id, kind) ==> (id in gone <==> !OwnsAt(s', id, kind)))
    && (forall id :: id in gone ==> exists kind :: OwnsAt(s, id, kind))
  }

  lemma IdsShrink(units: Units, ids: map<nat, JobConf>, u: UnitId, s': UnitState, gone: set<nat>)
    requires IdsOk(units, ids) && Keyed(units) && u in units && LetsGo(units[u], s', gone)
    ensures IdsOk(Put(units, u, s'), ids - gone)
  {
    var s := units[u];
    var ids' := ids - gone;
    forall id | id in gone
      ensures id in ids && ids[id].unit == u
    {
      var kind :| OwnsAt(s, id, kind);
    }
    assert IdsAt(s', ids') by {
      forall k | k in s'.suspends
        ensures s'.suspends[k].id !in gone
      {
        assert OwnsAt(s, s'.suspends[k].id, k) && OwnsAt(s', s'.suspends[k].id, k);
      }
      if s'.trigger.Some? {
        assert OwnsAt(s', s'.trigger.value.id, s'.trigger.value.kind);
      }
    }
    forall v | v in units && v != u
      ensures IdsAt(units[v], ids')
    {
      assert IdsAt(units[v], ids);
    }
    forall id | id in ids'
      ensures ids'[id].unit in Put(units, u, s') && OwnsAt(Put(units, u, s')[ids'[id].unit], id, ids'[id].kind)
    {
      if ids[id].unit == u {
        assert OwnsAt(s', id, ids[id].kind);
      }
    }
  }

  function FinishGone(s: UnitState, result: JobResult): set<nat>
    requires s.trigger.Some?
  {
    if IsRetry(s.trigger.value, result) then {} else {s.trigger.value.id}
  }

  lemma FinishedAre(s: UnitState, result: JobResult)
    requires s.trigger.Some?
    ensures var s', job := Rest(FinishTrigger(s, result)), s.trigger.value;
            && s'.unit == s.unit && s'.suspends == s.suspends
            && (if IsRetry(job, result)
                then s'.trigger.Some? && s'.trigger.value.id == job.id && s'.trigger.value.kind == job.kind
                     && s'.trigger.value.attr == job.attr
                else s'.trigger.None?)
  {
  }

  lemma EndLetsGo(s: UnitState, s': UnitState, ids: map<nat, JobConf>)
    requires IdsAt(s, ids) && s.trigger.Some? && s'.unit == s.unit && s'.suspends == s.suspends && s'.trigger.None?
    ensures LetsGo(s, s', {s.trigger.value.id})
  {
    assert OwnsAt(s, s.trigger.value.id, s.trigger.value.kind);
  }

  lemma RemoveLetsGo(s: UnitState, kinds: set<JobKind>, active: bool, ids: map<nat, JobConf>)
    requires UnitInv(s) && IdsAt(s, ids)
    ensures LetsGo(s, RemoveUnit(s, kinds, active), set k | k in kinds && k in s.suspends :: s.suspends[k].id)
  {
    RemovalMergesNothing(s, kinds, active);
    FewerLetsGo(s, RemoveUnit(s, kinds, active), kinds, ids);
  }

  lemma FewerLetsGo(s: UnitState, s': UnitState, kinds: set<JobKind>, ids: map<nat, JobConf>)
    requires IdsAt(s, ids) && s'.unit == s.unit && s'.trigger == s.trigger && s'.suspends == s.suspends - kinds
    ensures LetsGo(s, s', set k | k in kinds && k in s.suspends :: s.suspends[k].id)
  {
    var gone := set k | k in kinds && k in s.suspends :: s.suspends[k].id;
    forall id, kind | OwnsAt(s, id, kind)
      ensures id in gone <==> !OwnsAt(s', id, kind)
    {
      if id in gone {
        var k :| k in kinds && k in s.suspends && s.suspends[k].id == id;
        assert k == kind;
      }
    }
    forall id | id in gone
      ensures exists kind :: OwnsAt(s, id, kind)
    {
      var k :| k in kinds && k in s.suspends && s.suspends[k].id == id;
      assert OwnsAt(s, id, k);
    }
  }

  /** A suspended job becomes the trigger, in place of the one there was. */
  lemma MoveLetsGo(s: UnitState, s': UnitState, k: JobKind, ids: map<nat, JobConf>)
    requires IdsAt(s, ids) && k in s.suspends && s'.unit == s.unit && s'.suspends == s.suspends - {k}
    requires s'.trigger.Some? && s'.trigger.value.id == s.suspends[k].id && s'.trigger.value.kind == k
    ensures LetsGo(s, s', if s.trigger.Some? then {s.trigger.value.id} else {})
  {
    assert OwnsAt(s, s.suspends[k].id, k);
    if s.trigger.Some? {
      assert OwnsAt(s, s.trigger.value.id, s.trigger.value.kind);
    }
  }

  lemma StayLetsGo(s: UnitState, s': UnitState, ids: map<nat, JobConf>)
    requires IdsAt(s, ids) && s'.unit == s.unit && s'.suspends == s.suspends
    requires s.trigger.Some? <==> s'.trigger.Some?
    requires s.trigger.Some? ==> s'.trigger.value.id == s.trigger.value.id && s'.trigger.value.kind == s.trigger.value.kind
    ensures LetsGo(s, s', {})
  {
  }

  ghost function TryGone(s: UnitState, run: bool): set<nat> {
    if run && Replaced(s).Some? then {Replaced(s).value.id} else {}
  }

  lemma TryLetsGo(s: UnitState, run: bool, outcome: Outcome, ids: map<nat, JobConf>)
    requires UnitInv(s) && s.ready && Triable(s) && IdsAt(s, ids)
    ensures LetsGo(s, TryUnit(s, run, outcome), TryGone(s, run))
  {
    var s' := TryUnit(s, run, outcome);
    if run && CalcReady(s).value {
      assert SuspendOk(s.unit, s.sq[0], s.suspends[s.sq[0]]);
      MoveLetsGo(s, s', s.sq[0], ids);
    } else {
      StayLetsGo(s, s', ids);
    }
  }

  lemma IdsResumed(units: Units, ids: map<nat, JobConf>, others: set<UnitId>, now: Units)
    requires UnitsOk(units) && IdsOk(units, ids) && Resumed(units, others, now)
    ensures IdsOk(now, ids)
  {
    forall u | u in now
      ensures IdsAt(now[u], ids) && now[u].suspends == units[u].suspends && now[u].trigger == units[u].trigger
    {
      ResumeStep(units[u]);
      SameJobsLetGo(units[u], now[u], ids);
    }
  }

  lemma SameJobsLetGo(s: UnitState, s': UnitState, ids: map<nat, JobConf>)
    requires s'.unit == s.unit && s'.suspends == s.suspends && s'.trigger == s.trigger && IdsAt(s, ids)
    ensures IdsAt(s', ids)
  {
  }

  // ---------------------------------------------------------------- what a stage holds

  predicate InStage(units: Units, conf: JobConf) {
    conf.unit in units && conf.kind in units[conf.unit].suspends
  }

  /** A job as `record_suspend` leaves it: a Restart begins with its Stop phase, a Nop and a job
      that ignores dependencies are in no order, and the mode alone makes a job irreversible. */
  predicate StagedJob(conf: JobConf, job: Job, mode: JobMode) {
    && IsBasicOp(conf.kind) && job.unit == conf.unit && job.kind == conf.kind && job.stage == Init
    && job.runKind == (if conf.kind == Restart then Stop else conf.kind)
    && job.attr == JobAttr(mode == IgnoreDependencies || conf.kind == Nop, mode == ReplaceIrreversible, false, false)
  }

  /** A staging table: new jobs only, none of them triggered. */
  ghost predicate Staged(units: Units, mode: JobMode) {
    forall u :: u in units ==> units[u].unit == u && StagedUnit(units[u], mode)
  }

  ghost predicate StagedUnit(s: UnitState, mode: JobMode) {
    && s.trigger.None? && s.suspends != map[]
    && forall k :: k in s.suspends ==> StagedJob(JobConf(s.unit, k), s.suspends[k], mode)
  }

  lemma StagedIsStageTable(stage: Units, mode: JobMode)
    requires Staged(stage, mode) && forall u :: u in stage ==> !IsConflict(stage[u].suspends.Keys)
    ensures StageTable(stage)
  {
  }

  /** The jobs of a stage: new ids, and none of them stands in for another. */
  predicate FreshJobs(theirs: map<JobKind, Job>, known: set<nat>) {
    forall k :: k in theirs ==> theirs[k].id !in known && !theirs[k].attr.noRelevancy
  }

  lemma StagedAreFresh(stage: Units, mode: JobMode, ids: map<nat, JobConf>, known: set<nat>)
    requires Staged(stage, mode) && IdsOk(stage, ids) && forall id :: id in ids ==> id !in known
    ensures forall u :: u in stage ==> FreshJobs(stage[u].suspends, known)
  {
    forall u, k | u in stage && k in stage[u].suspends
      ensures stage[u].suspends[k].id !in known && !stage[u].suspends[k].attr.noRelevancy
    {
      assert IdsAt(stage[u], ids) && StagedJob(JobConf(u, k), stage[u].suspends[k], mode);
    }
  }

  lemma StageOneMore(units: Units, ids: map<nat, JobConf>, job: Job, conf: JobConf, mode: JobMode)
    requires Staged(units, mode) && IdsOk(units, ids) && job.id !in ids
    requires StagedJob(conf, job, mode) && conf.kind !in Get(units, conf.unit).suspends
    ensures var now := units[conf.unit := InsertSuspend(Get(units, conf.unit), job)];
            && Staged(now, mode) && IdsOk(now, ids[job.id := conf])
            && (forall c :: InStage(now, c) <==> InStage(units, c) || c == conf)
  {
    var was := Get(units, conf.unit);
    StageOneUnit(was, job, conf, mode);
    StageGrows(units, was, InsertSuspend(was, job), job, conf, mode);
    IdsGrow(units, ids, was, InsertSuspend(was, job), job, conf);
  }

  lemma StageGrows(units: Units, was: UnitState, s: UnitState, job: Job, conf: JobConf, mode: JobMode)
    requires Staged(units, mode) && StagedUnit(s, mode) && s.unit == conf.unit
    requires if conf.unit in units then was == units[conf.unit] else was.suspends == map[]
    requires s.suspends == was.suspends[conf.kind := job]
    ensures Staged(units[conf.unit := s], mode)
    ensures forall c :: InStage(units[conf.unit := s], c) <==> InStage(units, c) || c == conf
  {
    forall c
      ensures InStage(units[conf.unit := s], c) <==> InStage(units, c) || c == conf
    {
      assert c == JobConf(c.unit, c.kind);
    }
  }

  lemma StageOneUnit(was: UnitState, job: Job, conf: JobConf, mode: JobMode)
    requires StagedJob(conf, job, mode) && was.unit == conf.unit
    requires StagedUnit(was, mode) || was == NewUnit(conf.unit)
    ensures var s := InsertSuspend(was, job);
            && s.unit == was.unit && s.trigger == was.trigger && s.suspends == was.suspends[conf.kind := job]
            && StagedUnit(s, mode)
  {
    assert conf.kind in InsertSuspend(was, job).suspends;
  }

  lemma IdsGrow(units: Units, ids: map<nat, JobConf>, was: UnitState, s: UnitState, job: Job, conf: JobConf)
    requires IdsOk(units, ids) && job.id !in ids && conf.kind !in was.suspends
    requires if conf.unit in units then was == units[conf.unit] else was == NewUnit(conf.unit)
    requires s.unit == was.unit == conf.unit && s.trigger == was.trigger
    requires s.suspends == was.suspends[conf.kind := job]
    ensures IdsOk(units[conf.unit := s], ids[job.id := conf])
  {
    var now, ids' := units[conf.unit := s], ids[job.id := conf];
    forall u | u in now
      ensures IdsAt(now[u], ids')
    {
      if u in units {
        assert IdsAt(units[u], ids);
      }
    }
    forall id | id in ids'
      ensures ids'[id].unit in now && OwnsAt(now[ids'[id].unit], id, ids'[id].kind)
    {
      if id != job.id {
        assert OwnsAt(units[ids[id].unit], id, ids[id].kind);
      }
    }
  }

  lemma IdsGrowTrigger(units: Units, ids: map<nat, JobConf>, s: UnitState, job: Job)
    requires IdsOk(units, ids) && job.id !in ids && s.unit !in units
    requires s.trigger == Some(job) && s.suspends == map[] && job.unit == s.unit
    ensures IdsOk(units[s.unit := s], ids[job.id := JobConf(s.unit, job.kind)])
  {
    var now, ids' := units[s.unit := s], ids[job.id := JobConf(s.unit, job.kind)];
    forall u | u in now
      ensures IdsAt(now[u], ids')
    {
      if u in units {
        assert IdsAt(units[u], ids);
      }
    }
    forall id | id in ids'
      ensures ids'[id].unit in now && OwnsAt(now[ids'[id].unit], id, ids'[id].kind)
    {
      if id != job.id {
        assert OwnsAt(units[ids[id].unit], id, ids[id].kind);
      }
    }
  }

  // ---------------------------------------------------------------- what an operation takes away

  function Listed(units: seq<UnitId>): set<UnitId> {
    set u | u in units
  }

  /** The units that are ordered with `u`. */
  function Neighbours(db: UnitDb, u: UnitId): set<UnitId> {
    Listed(db.DepGetsAtom(u, After)) + Listed(db.DepGetsAtom(u, Before))
  }

  function RemovedUnits(db: UnitDb, units: Units, u: UnitId, kinds: set<JobKind>): Units {
    if u in units then Put(units, u, RemoveUnit(units[u], kinds, db.IsActive(u))) else units
  }

  function RemovedJobs(units: Units, u: UnitId, kinds: set<JobKind>, result: JobResult): set<Job> {
    if u in units then set k | k in kinds && k in units[u].suspends :: FinishJob(units[u].suspends[k], result) else {}
  }

  function RemovedIds(units: Units, u: UnitId, kinds: set<JobKind>): set<nat> {
    if u in units then set k | k in kinds && k in units[u].suspends :: units[u].suspends[k].id else {}
  }

  /** What `try_trigger` tells of the job it ran: the job, and its result if it is over. */
  function RunInfo(s: UnitState, run: bool, outcome: Outcome): Option<(Job, Option<JobResult>)>
    requires Triable(s)
  {
    if run then Some((NextState(s).trigger.value, if outcome.Ended? then Some(outcome.result) else None)) else None
  }

  lemma RemoveKeepsIds(units: Units, ids: map<nat, JobConf>, db: UnitDb, u: UnitId, kinds: set<JobKind>)
    requires UnitsOk(units) && IdsOk(units, ids)
    ensures IdsOk(RemovedUnits(db, units, u, kinds), ids - RemovedIds(units, u, kinds))
  {
    if u in units {
      RemoveLetsGo(units[u], kinds, db.IsActive(u), ids);
      IdsShrink(units, ids, u, RemoveUnit(units[u], kinds, db.IsActive(u)), RemovedIds(units, u, kinds));
    } else {
      assert ids - {} == ids;
    }
  }

  lemma FinishKeepsIds(units: Units, ids: map<nat, JobConf>, u: UnitId, result: JobResult)
    requires UnitsOk(units) && IdsOk(units, ids) && u in units && units[u].trigger.Some?
    ensures IdsOk(Put(units, u, Rest(FinishTrigger(units[u], result))), ids - FinishGone(units[u], result))
  {
    var s' := Rest(FinishTrigger(units[u], result));
    FinishedAre(units[u], result);
    if IsRetry(units[u].trigger.value, result) {
      StayLetsGo(units[u], s', ids);
    } else {
      EndLetsGo(units[u], s', ids);
    }
    IdsShrink(units, ids, u, s', FinishGone(units[u], result));
  }
}
