/** `JobTable` of core/bin/job/table.rs: the unit table together with the index of jobs by id. */
module JobTables {
  import opened Wrappers
  import opened JobTypes
  import opened JobStore
  import opened UnitSpec
  import opened UnitInvariant
  import opened TableSpec
  import opened TableIds
  import opened UnitTable
  import opened JobAllocs
  import opened CommitIds

  /** The jobs a commit adds, deletes (flushed or merged away) and updates. */
  datatype Affect = Affect(adds: set<Job>, dels: set<Job>, updates: set<Job>)

  ghost predicate Reports(units: Units, stage: Units, active: set<UnitId>, affect: Affect) {
    && (forall j :: j in affect.adds <==> j.unit in stage && AddedAt(Get(units, j.unit), Theirs(stage, j.unit), j))
    && (forall j :: j in affect.updates <==> j.unit in stage && UpdatedAt(Get(units, j.unit), Theirs(stage, j.unit), j))
    && (forall j :: j in affect.dels <==>
          && j.unit in stage
          && var s, theirs := Get(units, j.unit), Theirs(stage, j.unit);
             FlushedAt(s, theirs, j) || MergedAt(MergeSuspends(s, theirs), j.unit in active, j))
  }

  /** The stage flushes something of this unit. */
  predicate IsFlushed(units: Units, stage: Units, u: UnitId) {
    ConflictsAt(units, stage, u) && units[u].suspends != map[]
  }

  function FlushedOf(units: Units, stage: Units): set<UnitId> {
    set u | u in units && IsFlushed(units, stage, u)
  }

  /** The suspended jobs of a unit conflict with those that a stage holds for it. */
  predicate ConflictsAt(units: Units, stage: Units, u: UnitId) {
    u in units && u in stage && IsConflict(units[u].suspends.Keys + stage[u].suspends.Keys)
  }

  ghost predicate Conflicts(units: Units, stage: Units) {
    exists u :: ConflictsAt(units, stage, u)
  }

  lemma FlushedUnits(units: Units, stage: Units, adds: set<Job>, updates: set<Job>, dels: set<Job>)
    requires UnitsOk(units) && MergeReport(units, stage, stage.Keys, adds, updates, dels)
    ensures UnitsOf(dels) == FlushedOf(units, stage)
  {
    forall u
      ensures u in UnitsOf(dels) ==> IsFlushed(units, stage, u)
      ensures IsFlushed(units, stage, u) ==> u in UnitsOf(dels)
    {
      if u in UnitsOf(dels) {
        var j :| j in dels && j.unit == u;
        assert FlushedAt(Get(units, u), Theirs(stage, u), j);
      }
      if IsFlushed(units, stage, u) {
        FlushedUnit(units, stage, adds, updates, dels, u);
      }
    }
  }

  lemma FlushedUnit(units: Units, stage: Units, adds: set<Job>, updates: set<Job>, dels: set<Job>, u: UnitId)
    requires UnitsOk(units) && MergeReport(units, stage, stage.Keys, adds, updates, dels) && IsFlushed(units, stage, u)
    ensures u in UnitsOf(dels)
  {
    var k :| k in units[u].suspends;
    assert SuspendOk(u, k, units[u].suspends[k]);
    var j := units[u].suspends[k].(stage := End(Cancelled));
    assert FlushedAt(Get(units, u), Theirs(stage, u), j);
  }

  /** `jobs_2_units` */
  function UnitsOf(jobs: set<Job>): set<UnitId> {
    set j | j in jobs :: j.unit
  }

  function AllNeighbours(db: UnitDb, units: set<UnitId>): set<UnitId> {
    set v, u | v in units && u in Neighbours(db, v) :: u
  }

  lemma CommitReports(
      units: Units, stage: Units, mid: Units, active: set<UnitId>,
      adds: set<Job>, updates: set<Job>, flushed: set<Job>, merged: set<Job>)
    requires UnitsOk(units) && MergedUpTo(units, stage, stage.Keys, mid)
    requires MergeReport(units, stage, stage.Keys, adds, updates, flushed) && ReshuffleReport(mid, active, mid.Keys, merged)
    ensures Reports(units, stage, active, Affect(adds, flushed + merged, updates))
  {
    forall j
      ensures j in merged <==>
                j.unit in stage && MergedAt(MergeSuspends(Get(units, j.unit), Theirs(stage, j.unit)), j.unit in active, j)
    {
      assert j.unit in units && j.unit !in stage ==> !MergedAt(units[j.unit], j.unit in active, j);
    }
  }

  /** A job as it is rebuilt from its row: a Restart begins with its first phase again. */
  function MappedJob(id: nat, conf: JobConf, stage: JobStage, attr: JobAttr): Job {
    NewJob(id, conf).(stage := stage, attr := attr)
  }

  class JobTable {
    const tUnit: JobUnitTable
    var tId: map<nat, JobConf>

    ghost predicate Live()
      reads this, tUnit
    {
      tUnit.Live() && IdsOk(tUnit.tData, tId)
    }

    /** Being filled by a transaction; the allocator knows all ids in use. */
    ghost predicate Staging(ja: JobAlloc, mode: JobMode)
      reads this, tUnit, ja
    {
      && tUnit.Indexed() && Staged(tUnit.tData, mode) && IdsOk(tUnit.tData, tId)
      && ja.Valid() && forall id :: id in tId ==> id in ja.ids
    }

    constructor (re: JobDb)
      ensures fresh(tUnit) && tUnit.Indexed() && tUnit.sync && tUnit.tData == map[] && tUnit.re == re && tId == map[]
    {
      tUnit := new JobUnitTable(re);
      tId := map[];
    }

    method Clear()
      modifies this, tUnit
      ensures tUnit.Indexed() && tUnit.sync && tUnit.tData == map[] && tUnit.re == old(tUnit.re) && tId == map[]
    {
      tId := map[];
      tUnit.Clear();
    }

    // -------------------------------------------------------------- queries

    method GetTriggerInfo(u: UnitId) returns (info: Option<(Job, bool)>)
      ensures info == if u in tUnit.tData && tUnit.tData[u].trigger.Some?
                      then Some((tUnit.tData[u].trigger.value, tUnit.tData[u].pause)) else None
    {
      if u in tUnit.tData && tUnit.tData[u].trigger.Some? {
        return Some((tUnit.tData[u].trigger.value, tUnit.tData[u].pause));
      }
      return None;
    }

    method IsTrigger(id: nat) returns (found: bool)
      requires Live()
      ensures found <==> exists u :: u in tUnit.tData && tUnit.tData[u].trigger.Some? && tUnit.tData[u].trigger.value.id == id
    {
      found := false;
      if id in tId {
        var info := GetTriggerInfo(tId[id].unit);
        found := info.Some? && info.value.0.id == id;
      }
      assert forall u :: u in tUnit.tData ==> IdsAt(tUnit.tData[u], tId);
    }

    method IsSuspendsConflict() returns (conflict: bool)
      ensures conflict <==> exists u :: u in tUnit.tData && IsConflict(tUnit.tData[u].suspends.Keys)
    {
      var rest := tUnit.tData.Keys;
      while rest != {}
        invariant rest <= tUnit.tData.Keys
        invariant forall u :: u in tUnit.tData && u !in rest ==> !IsConflict(tUnit.tData[u].suspends.Keys)
      {
        var u :| u in rest;
        if IsConflict(tUnit.tData[u].suspends.Keys) {
          return true;
        }
        rest := rest - {u};
      }
      return false;
    }

    method IsSuspendsConflictWith(other: JobTable) returns (conflict: bool)
      ensures conflict <==> Conflicts(tUnit.tData, other.tUnit.tData)
    {
      var units, stage := tUnit.tData, other.tUnit.tData;
      var rest := units.Keys;
      while rest != {}
        invariant rest <= units.Keys
        invariant forall u :: u in units && u !in rest ==> !ConflictsAt(units, stage, u)
      {
        var u :| u in rest;
        if ConflictsAt(units, stage, u) {
          return true;
        }
        rest := rest - {u};
      }
      return false;
    }

    /** May the jobs of `other` take the place of those that they conflict with? */
    method IsSuspendsReplaceWith(other: JobTable) returns (may: bool)
      requires forall u :: u in tUnit.tData ==> !IsConflict(tUnit.tData[u].suspends.Keys)
      requires forall u :: u in other.tUnit.tData ==> !IsConflict(other.tUnit.tData[u].suspends.Keys)
      ensures may <==> forall u :: ConflictsAt(tUnit.tData, other.tUnit.tData, u) ==> !IsIrreversible(tUnit.tData[u])
    {
      var units, stage := tUnit.tData, other.tUnit.tData;
      var rest := units.Keys;
      while rest != {}
        invariant rest <= units.Keys
        invariant forall u :: u in units && u !in rest && ConflictsAt(units, stage, u) ==> !IsIrreversible(units[u])
      {
        var u :| u in rest;
        if ConflictsAt(units, stage, u) && IsIrreversible(units[u]) {
          return false;
        }
        rest := rest - {u};
      }
      return true;
    }

    // -------------------------------------------------------------- jobs come to an end

    /** The units ordered with `u` get another try. */
    method ProcessRelation(db: UnitDb, u: UnitId)
      requires Live()
      modifies tUnit`tReady, tUnit`readys, tUnit`tData
      ensures Live() && Resumed(old(tUnit.tData), Neighbours(db, u), tUnit.tData)
    {
      ghost var units := tUnit.tData;
      ResumeAll(db.DepGetsAtom(u, After), units, {});
      ResumeAll(db.DepGetsAtom(u, Before), units, Listed(db.DepGetsAtom(u, After)));
      assert Listed(db.DepGetsAtom(u, After)) + Listed(db.DepGetsAtom(u, Before)) == Neighbours(db, u);
      IdsResumed(units, tId, Neighbours(db, u), tUnit.tData);
    }

    method ResumeUnit(u: UnitId)
      requires Live()
      modifies tUnit`tReady, tUnit`readys, tUnit`tData
      ensures Live() && Resumed(old(tUnit.tData), {u}, tUnit.tData)
    {
      ghost var units := tUnit.tData;
      ResumeOneMore(units, {}, units, u);
      assert {} + {u} == {u};
      tUnit.ResumeUnit(u);
      IdsResumed(units, tId, {u}, tUnit.tData);
    }

    method ResumeAll(others: seq<UnitId>, ghost units: Units, ghost done: set<UnitId>)
      requires tUnit.Live() && Resumed(units, done, tUnit.tData)
      modifies tUnit`tReady, tUnit`readys, tUnit`tData
      ensures tUnit.Live() && Resumed(units, done + Listed(others), tUnit.tData)
    {
      var i := 0;
      assert done + Listed(others[..0]) == done;
      while i < |others|
        invariant i <= |others| && tUnit.Live() && Resumed(units, done + Listed(others[..i]), tUnit.tData)
      {
        ResumeOneMore(units, done + Listed(others[..i]), tUnit.tData, others[i]);
        tUnit.ResumeUnit(others[i]);
        assert done + Listed(others[..i + 1]) == done + Listed(others[..i]) + {others[i]};
        i := i + 1;
      }
      assert others[..i] == others;
    }

    /** Remove suspended jobs of a unit for a reason other than success. */
    method RemoveSuspends(db: UnitDb, u: UnitId, kinds: set<JobKind>, result: JobResult) returns (deleted: set<Job>)
      requires Live() && result != Done && (u in tUnit.tData ==> RemovalSafe(tUnit.tData[u], kinds))
      modifies this, tUnit`tReady, tUnit`readys, tUnit`tData, tUnit`re
      ensures Live() && deleted == RemovedJobs(old(tUnit.tData), u, kinds, result)
      ensures tId == old(tId) - RemovedIds(old(tUnit.tData), u, kinds)
      ensures Resumed(RemovedUnits(db, old(tUnit.tData), u, kinds), if deleted == {} then {} else Neighbours(db, u), tUnit.tData)
    {
      deleted := RemovedJobs(tUnit.tData, u, kinds, result);
      RemoveFromBoth(db, u, kinds);
      if deleted == {} {
        return;
      }
      ProcessRelation(db, u);
    }

    method RemoveFromBoth(db: UnitDb, u: UnitId, kinds: set<JobKind>)
      requires Live() && (u in tUnit.tData ==> RemovalSafe(tUnit.tData[u], kinds))
      modifies this, tUnit`tReady, tUnit`readys, tUnit`tData, tUnit`re
      ensures Live() && tUnit.tData == RemovedUnits(db, old(tUnit.tData), u, kinds)
      ensures tId == old(tId) - RemovedIds(old(tUnit.tData), u, kinds)
    {
      RemoveKeepsIds(tUnit.tData, tId, db, u, kinds);
      tId := tId - RemovedIds(tUnit.tData, u, kinds);
      var _ := tUnit.RemoveSuspendsOf(u, kinds, db.IsActive(u));
    }

    /** Finish the trigger of a unit. Units that are ordered with it are woken only when the
        job is over: a Restart that goes on to its second phase wakes nobody. */
    method FinishTrigger(db: UnitDb, u: UnitId, result: JobResult) returns (deleted: Option<Job>)
      requires Live() && u in tUnit.tData && tUnit.tData[u].trigger.Some?
      modifies this, tUnit`tReady, tUnit`readys, tUnit`tData, tUnit`re
      ensures Live()
      ensures deleted == var job := old(tUnit.tData)[u].trigger.value;
                         if IsRetry(job, result) then None else Some(FinishJob(job, result))
      ensures tId == old(tId) - FinishGone(old(tUnit.tData)[u], result)
      ensures Resumed(Put(old(tUnit.tData), u, Rest(UnitSpec.FinishTrigger(old(tUnit.tData)[u], result))),
                      if deleted.None? then {} else Neighbours(db, u), tUnit.tData)
    {
      deleted := FinishInBoth(u, result);
      if deleted.None? {
        return;
      }
      ProcessRelation(db, u);
    }

    method FinishInBoth(u: UnitId, result: JobResult) returns (deleted: Option<Job>)
      requires Live() && u in tUnit.tData && tUnit.tData[u].trigger.Some?
      modifies this, tUnit`tReady, tUnit`readys, tUnit`tData, tUnit`re
      ensures Live() && tUnit.tData == Put(old(tUnit.tData), u, Rest(UnitSpec.FinishTrigger(old(tUnit.tData)[u], result)))
      ensures deleted == var job := old(tUnit.tData)[u].trigger.value;
                         if IsRetry(job, result) then None else Some(FinishJob(job, result))
      ensures tId == old(tId) - FinishGone(old(tUnit.tData)[u], result)
    {
      FinishKeepsIds(tUnit.tData, tId, u, result);
      tId := tId - FinishGone(tUnit.tData[u], result);
      deleted := tUnit.FinishTriggerOf(u, result);
    }

    /** Try one ready unit; a trigger that is replaced leaves the index. `act` is what the
        action on a unit reports, if it comes to that. */
    method TryTrigger(db: UnitDb, unit: Option<UnitId>, act: UnitId -> Outcome)
        returns (popped: Option<UnitId>, run: bool, info: Option<(Job, Option<JobResult>)>, replaced: Option<Job>)
      requires Live()
      modifies this, tUnit`tReady, tUnit`readys, tUnit`tData, tUnit`re
      ensures Live() && Popped(unit, popped, ReadySet(old(tUnit.tData)))
      ensures popped.None? ==> tUnit.tData == old(tUnit.tData) && tUnit.re == old(tUnit.re) && tId == old(tId)
      ensures popped.Some? ==>
                && Tried(db, old(tUnit.tData), old(tUnit.re), popped.value, run, act(popped.value), tUnit.tData, tUnit.re)
                && info == RunInfo(old(tUnit.tData)[popped.value], run, act(popped.value))
                && replaced == (if run then Replaced(old(tUnit.tData)[popped.value]) else None)
                && tId == old(tId) - TryGone(old(tUnit.tData)[popped.value], run)
    {
      var units := tUnit.tData;
      popped, run := tUnit.TryTriggerUnit(db, unit, act);
      info, replaced := None, None;
      if popped.None? {
        return;
      }
      var s, outcome := units[popped.value], act(popped.value);
      TryLetsGo(s, run, outcome, tId);
      IdsShrink(units, tId, popped.value, TryUnit(s, run, outcome), TryGone(s, run));
      TryUnitRests(s, run, outcome);
      info := RunInfo(s, run, outcome);
      replaced := if run then Replaced(s) else None;
      tId := tId - if replaced.Some? then {replaced.value.id} else {};
    }

    // -------------------------------------------------------------- commit

    method MergeSuspendsFrom(other: JobTable) returns (adds: set<Job>, dels: set<Job>, updates: set<Job>)
      requires Live() && other != this && other.tUnit != tUnit
      requires StageTable(other.tUnit.tData) && IdsOk(other.tUnit.tData, other.tId) && tId.Keys !! other.tId.Keys
      modifies this, tUnit`tData, tUnit`re, tUnit`sync
      ensures tUnit.Indexed() && tUnit.re.Recording() && Mirrored(tUnit.tData, tUnit.re)
      ensures MergedUpTo(old(tUnit.tData), other.tUnit.tData, other.tUnit.tData.Keys, tUnit.tData)
      ensures MergeReport(old(tUnit.tData), other.tUnit.tData, other.tUnit.tData.Keys, adds, updates, dels)
      ensures IdsOk(tUnit.tData, tId) && Accounted(old(tId), adds, dels, tId)
    {
      ghost var units, stage := tUnit.tData, other.tUnit.tData;
      ApartNotTrigger(units, tId, stage, other.tId);
      adds, dels, updates := tUnit.MergeFrom(other.tUnit);
      assert other.tUnit.tData == stage;
      var added := map id | id in IdsOf(adds) && id in other.tId :: other.tId[id];
      ghost var ids := tId;
      tId := (tId + added) - IdsOf(dels);
      MergeIsAccounted(units, stage, ids, other.tId, adds, updates, dels, tUnit.tData, tId);
    }

    method Reshuffle(active: set<UnitId>) returns (merged: set<Job>)
      requires tUnit.Indexed() && tUnit.re.Recording() && Mirrored(tUnit.tData, tUnit.re) && IdsOk(tUnit.tData, tId)
      requires forall u :: u in tUnit.tData ==> MayReshuffle(tUnit.tData[u], u in active)
      modifies this, tUnit
      ensures Live() && ReshuffledUpTo(old(tUnit.tData), active, old(tUnit.tData.Keys), tUnit.tData)
      ensures ReshuffleReport(old(tUnit.tData), active, old(tUnit.tData.Keys), merged)
      ensures Accounted(old(tId), {}, merged, tId)
    {
      ghost var units, ids := tUnit.tData, tId;
      merged := tUnit.ReshuffleUnits(active);
      tId := tId - IdsOf(merged);
      ReshuffleIds(units, active, ids, merged, tUnit.tData, tId);
    }

    /** Those who wait for a unit that lost jobs get another try. */
    method ProcessRelations(db: UnitDb, units: set<UnitId>)
      requires Live()
      modifies tUnit`tReady, tUnit`readys, tUnit`tData
      ensures Live() && Resumed(old(tUnit.tData), AllNeighbours(db, units), tUnit.tData)
    {
      var rest := units;
      ghost var done := {};
      while rest != {}
        invariant units == done + rest && Live()
        invariant Resumed(old(tUnit.tData), AllNeighbours(db, done), tUnit.tData)
        decreases rest
      {
        var u :| u in rest;
        ghost var mid := tUnit.tData;
        ProcessRelation(db, u);
        ResumedTwice(old(tUnit.tData), AllNeighbours(db, done), mid, Neighbours(db, u), tUnit.tData);
        assert AllNeighbours(db, done + {u}) == AllNeighbours(db, done) + Neighbours(db, u);
        rest, done := rest - {u}, done + {u};
      }
      assert done == units;
    }

    /** Move the jobs of a stage over. It is all or nothing: ids are checked before anything
        is changed, and nothing fails after that. */
    method Commit(db: UnitDb, other: JobTable) returns (r: Result<Affect>, ghost resting: Units)
      requires Live() && other != this && other.tUnit != tUnit
      requires StageTable(other.tUnit.tData) && IdsOk(other.tUnit.tData, other.tId)
      modifies this, tUnit
      ensures Live()
      ensures r.Success? <==> old(tId).Keys !! other.tId.Keys
      ensures r.Failure? ==> tUnit.tData == old(tUnit.tData) && tUnit.re == old(tUnit.re) && tId == old(tId)
      ensures r.Success? ==>
                && Committed(old(tUnit.tData), other.tUnit.tData, db.active, resting)
                && Resumed(resting, AllNeighbours(db, FlushedOf(old(tUnit.tData), other.tUnit.tData)), tUnit.tData)
                && Reports(old(tUnit.tData), other.tUnit.tData, db.active, r.value)
                && Accounted(old(tId), r.value.adds, r.value.dels, tId)
    {
      if !(tId.Keys !! other.tId.Keys) {
        return Failure(Internal), tUnit.tData;
      }
      var affect, rest := CommitApart(db, other);
      return Success(affect), rest;
    }

    method CommitApart(db: UnitDb, other: JobTable) returns (affect: Affect, ghost resting: Units)
      requires Live() && other != this && other.tUnit != tUnit && tId.Keys !! other.tId.Keys
      requires StageTable(other.tUnit.tData) && IdsOk(other.tUnit.tData, other.tId)
      modifies this, tUnit
      ensures Live()
      ensures Committed(old(tUnit.tData), other.tUnit.tData, db.active, resting)
      ensures Resumed(resting, AllNeighbours(db, FlushedOf(old(tUnit.tData), other.tUnit.tData)), tUnit.tData)
      ensures Reports(old(tUnit.tData), other.tUnit.tData, db.active, affect)
      ensures Accounted(old(tId), affect.adds, affect.dels, tId)
    {
      ghost var units, stage, ids := tUnit.tData, other.tUnit.tData, tId;
      var adds, flushed, updates := MergeSuspendsFrom(other);
      ghost var merging, mid := tUnit.tData, tId;
      AllMayReshuffle(units, stage, db.active, merging);
      var merged := Reshuffle(db.active);
      AccountedInTwo(ids, adds, flushed, mid, merged, tId);
      CommitReports(units, stage, merging, db.active, adds, updates, flushed, merged);
      CommitsAll(units, stage, db.active, merging, tUnit.tData);
      resting := tUnit.tData;
      FlushedUnits(units, stage, adds, updates, flushed);
      ProcessRelations(db, UnitsOf(flushed));
      affect := Affect(adds, flushed + merged, updates);
    }

    // -------------------------------------------------------------- staging

    /** `rentry_map_trigger`: a job that was running, as its row tells. */
    method RentryMapTrigger(ja: JobAlloc, conf: JobConf, attr: JobAttr)
      requires tUnit.Indexed() && IdsOk(tUnit.tData, tId) && ja.Valid() && forall id :: id in tId ==> id in ja.ids
      requires |ja.ids| < ID_NUM && IsBasicOp(conf.kind) && conf.unit !in tUnit.tData
      modifies this, tUnit`tData, tUnit`sync, ja
      ensures tUnit.Indexed() && IdsOk(tUnit.tData, tId) && ja.Valid() && forall id :: id in tId ==> id in ja.ids
      ensures |ja.ids| == |old(ja.ids)| + 1
      ensures tUnit.tData ==
              old(tUnit.tData)[conf.unit := InsertTrigger(NewUnit(conf.unit), MappedJob(ja.lastId, conf, Running, attr))]
    {
      var id := ja.AllocId();
      var job := MappedJob(id, conf, Running, attr);
      IdsGrowTrigger(tUnit.tData, tId, InsertTrigger(NewUnit(conf.unit), job), job);
      tUnit.InsertTriggered(job);
      tId := tId[id := conf];
    }

    /** `rentry_map_suspend`: a job that was waiting, as its row tells. */
    method RentryMapSuspend(ja: JobAlloc, conf: JobConf, attr: JobAttr)
      requires tUnit.Indexed() && IdsOk(tUnit.tData, tId) && ja.Valid() && forall id :: id in tId ==> id in ja.ids
      requires |ja.ids| < ID_NUM && IsBasicOp(conf.kind) && conf.kind !in Get(tUnit.tData, conf.unit).suspends
      modifies this, tUnit`tData, tUnit`sync, ja
      ensures tUnit.Indexed() && IdsOk(tUnit.tData, tId) && ja.Valid() && forall id :: id in tId ==> id in ja.ids
      ensures |ja.ids| == |old(ja.ids)| + 1
      ensures tUnit.tData ==
              old(tUnit.tData)[conf.unit :=
                InsertSuspend(Get(old(tUnit.tData), conf.unit), MappedJob(ja.lastId, conf, Wait, attr))]
    {
      var id := ja.AllocId();
      var job := MappedJob(id, conf, Wait, attr);
      var was := Get(tUnit.tData, conf.unit);
      IdsGrow(tUnit.tData, tId, was, InsertSuspend(was, job), job, conf);
      tUnit.InsertSuspended(job);
      tId := tId[id := conf];
    }

    /** Add a job only when nothing with the same unit and kind exists. */
    method RecordSuspend(ja: JobAlloc, conf: JobConf, mode: JobMode) returns (added: bool)
      requires Staging(ja, mode) && IsBasicOp(conf.kind)
      requires !InStage(tUnit.tData, conf) ==> |ja.ids| < ID_NUM
      modifies this, tUnit`tData, tUnit`sync, ja
      ensures Staging(ja, mode) && old(ja.ids) <= ja.ids
      ensures added == !InStage(old(tUnit.tData), conf)
      ensures forall c :: InStage(tUnit.tData, c) <==> InStage(old(tUnit.tData), c) || c == conf
      ensures |ja.ids| == |old(ja.ids)| + if added then 1 else 0
      ensures forall id :: id in tId ==> id in old(tId) || id !in old(ja.ids)
    {
      added := false;
      if conf.kind !in Get(tUnit.tData, conf.unit).suspends {
        var id := ja.AllocId();
        var job := InitAttr(NewJob(id, conf), mode);
        StageOneMore(tUnit.tData, tId, job, conf, mode);
        tUnit.InsertSuspended(job);
        tId := tId[id := conf];
        added := true;
      }
    }
  }
}
