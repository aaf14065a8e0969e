/** `JobManagerData` of core/bin/job/manager.rs: requests become transactions, ready jobs are
    dispatched, and jobs are finished as their units change. */
module Managers {
  import opened Wrappers
  import opened JobTypes
  import opened UnitSpec
  import opened UnitInvariant
  import opened TableSpec
  import opened Ordering
  import opened UnitTable
  import opened TableIds
  import opened CommitIds
  import opened JobTables
  import opened JobAllocs
  import opened Graphs
  import opened Transaction
  import opened Fallback
  import opened Progress
  import opened Runs

  /** `job_trans_check_input` */
  predicate InputOk(config: JobConf, mode: JobMode) {
    && (mode == Isolate ==> config.kind == Start)
    && (mode == Trigger ==> config.kind == Stop)
  }

  class JobManager {
    const jobs: JobTable
    const stage: JobTable
    const ja: JobAlloc

    ghost predicate Valid()
      reads this, jobs, jobs.tUnit, stage, stage.tUnit, ja
    {
      && jobs != stage && jobs.tUnit != stage.tUnit
      && jobs.Live() && ja.Valid() && forall id :: id in jobs.tId ==> id in ja.ids
    }

    constructor (jobs: JobTable, stage: JobTable, ja: JobAlloc)
      requires jobs != stage && jobs.tUnit != stage.tUnit && jobs.Live() && ja.Valid()
      requires forall id :: id in jobs.tId ==> id in ja.ids
      ensures Valid() && this.jobs == jobs && this.stage == stage && this.ja == ja
    {
      this.jobs, this.stage, this.ja := jobs, stage, ja;
    }

    /** Carry out a request as one transaction: either the live jobs and their rows are as they
        were, or the whole expansion of the request has been committed. `staged` is what the
        request was expanded to, `resting` the table before those who wait were woken. */
    method Exec(db: UnitDb, config: JobConf, mode: JobMode)
        returns (r: Result<Affect>, ghost staged: Units, ghost resting: Units)
      requires Valid() && |ja.ids| + |Universe(db, {config.unit})| <= ID_NUM
      requires InputOk(config, mode) ==> mode != Isolate && mode != Trigger && mode != Flush
      modifies jobs, jobs.tUnit, stage, stage.tUnit, ja
      ensures Valid()
      ensures InputOk(config, mode) ==> Staged(staged, mode) && Expanded(db, config, mode, staged)
      ensures old(ja.ids) <= ja.ids && |ja.ids| <= |old(ja.ids)| + |Universe(db, {config.unit})|
      ensures r.Success? ==> StageTable(staged) && forall u :: u in staged ==> FreshJobs(staged[u].suspends, old(ja.ids))
      ensures r.Failure? <==> !InputOk(config, mode) || Refused(staged, old(jobs.tUnit.tData), mode)
      ensures r == Failure(Input) <==>
                (mode == Isolate && config.kind != Start) || (mode == Trigger && config.kind != Stop)
      ensures r.Failure? ==>
                && r.error == (if InputOk(config, mode) then Conflict else Input)
                && jobs.tUnit.tData == old(jobs.tUnit.tData) && jobs.tUnit.re == old(jobs.tUnit.re) && jobs.tId == old(jobs.tId)
      ensures r.Success? ==>
                && Committed(old(jobs.tUnit.tData), staged, db.active, resting)
                && Resumed(resting, AllNeighbours(db, FlushedOf(old(jobs.tUnit.tData), staged)), jobs.tUnit.tData)
                && Reports(old(jobs.tUnit.tData), staged, db.active, r.value)
                && Accounted(old(jobs.tId), r.value.adds, r.value.dels, jobs.tId)
      ensures r.Success? ==> KeepsWaiting(old(jobs.tUnit.tData), staged, mode, db.active, jobs.tUnit.tData)
    {
      ghost var units := jobs.tUnit.tData;
      staged, resting := map[], map[];
      if !InputOk(config, mode) {
        return Failure(Input), staged, resting;
      }
      stage.Clear();
      JobTransExpand(stage, ja, db, config, mode);
      staged := stage.tUnit.tData;
      var verified := JobTransVerify(stage, jobs, mode);
      if verified.Failure? {
        return Failure(verified.error), staged, resting;
      }
      StagedIsStageTable(staged, mode);
      StagedAreFresh(staged, mode, stage.tId, old(ja.ids));
      r, resting := jobs.Commit(db, stage);
      if r.Success? {
        NothingIrreversibleFlushed(
          units, staged, mode, db.active, resting, AllNeighbours(db, FlushedOf(units, staged)), jobs.tUnit.tData);
      }
      stage.Clear();
    }

    // -------------------------------------------------------------- jobs end

    /** What the failure of a job means for others: those that depend on it go, or after a
        recovery, when the job stood in for one that is gone, the unit itself is stopped. */
    method DoRemoveRelation(db: UnitDb, info: Job) returns (ghost hit: set<UnitId>)
      requires Valid() && (info.attr.noRelevancy ==> |ja.ids| + |Universe(db, {info.unit})| <= ID_NUM)
      modifies jobs, jobs.tUnit, stage, stage.tUnit, ja
      ensures Valid()
      ensures Followed(db, old(jobs.tUnit.tData), info, hit, jobs.tUnit.tData)
      ensures !info.attr.noRelevancy ==> jobs.tId.Keys <= old(jobs.tId.Keys) && ja.ids == old(ja.ids)
      ensures info.attr.noRelevancy ==>
                && AllMilder(old(jobs.tUnit.tData), jobs.tUnit.tData, old(ja.ids))
                && old(ja.ids) <= ja.ids && |ja.ids| <= |old(ja.ids)| + Width(db)
    {
      hit := {};
      if info.attr.noRelevancy {
        StopInstead(db, info.unit);
        return;
      }
      var _, h := JobTransFallback(jobs, db, info.unit, info.runKind, Dependency);
      hit := h;
    }

    method StopInstead(db: UnitDb, u: UnitId)
      requires Valid() && |ja.ids| + |Universe(db, {u})| <= ID_NUM
      modifies jobs, jobs.tUnit, stage, stage.tUnit, ja
      ensures Valid()
      ensures exists staged, resting :: StoppedInstead(db, old(jobs.tUnit.tData), u, staged, resting, jobs.tUnit.tData)
      ensures AllMilder(old(jobs.tUnit.tData), jobs.tUnit.tData, old(ja.ids))
      ensures old(ja.ids) <= ja.ids && |ja.ids| <= |old(ja.ids)| + Width(db)
    {
      ghost var units, ids := jobs.tUnit.tData, ja.ids;
      UniverseWidth(db, u);
      var r, staged, resting := Exec(db, JobConf(u, Stop), Replace);
      assert StoppedInstead(db, units, u, staged, resting, jobs.tUnit.tData);
      if r.Failure? {
        SameJobsFewer(units, units);
        AllFewerIsMilder(units, units, ids);
        return;
      }
      CommitsMilder(db, units, staged, resting, jobs.tUnit.tData, ids);
    }

    /** End the trigger of a unit; `info` is what was known of the job when the end was decided.
        Only a failure concerns others. */
    method DoRemoveTrigger(db: UnitDb, info: Job, result: JobResult)
        returns (deleted: bool, ghost mid: Units, ghost hit: set<UnitId>)
      requires Valid() && info.unit in jobs.tUnit.tData && jobs.tUnit.tData[info.unit].trigger.Some?
      requires !jobs.tUnit.tData[info.unit].pause
      requires result != Done && info.attr.noRelevancy ==> |ja.ids| + |Universe(db, {info.unit})| <= ID_NUM
      requires info.attr.noRelevancy ==> jobs.tUnit.tData[info.unit].trigger.value.attr.noRelevancy
      modifies jobs, jobs.tUnit, stage, stage.tUnit, ja
      ensures Onward(db, old(jobs.tUnit.tData), old(ja.ids), jobs.tUnit.tData, ja.ids)
      ensures Valid() && EndedTo(db, old(jobs.tUnit.tData), info.unit, result, mid)
      ensures deleted <==> !IsRetry(old(jobs.tUnit.tData)[info.unit].trigger.value, result)
      ensures result == Done ==> jobs.tUnit.tData == mid
      ensures result != Done ==> Followed(db, mid, info, hit, jobs.tUnit.tData)
      ensures result == Done || !info.attr.noRelevancy ==>
                && AllFewer(old(jobs.tUnit.tData), jobs.tUnit.tData)
                && jobs.tId.Keys <= old(jobs.tId.Keys) && ja.ids == old(ja.ids)
    {
      hit := {};
      ghost var units, ids := jobs.tUnit.tData, ja.ids;
      var del := jobs.FinishTrigger(db, info.unit, result);
      deleted := del.Some?;
      mid := jobs.tUnit.tData;
      EndedFewer(db, units, info.unit, result, mid);
      FewerOnward(db, units, mid, ids);
      if result == Done {
        return;
      }
      hit := DoRemoveRelation(db, info);
      if !info.attr.noRelevancy {
        FellFewer(db, units, mid, info, hit, jobs.tUnit.tData);
        FewerOnward(db, units, jobs.tUnit.tData, ids);
        return;
      }
      StopOnward(db, units, info.unit, result, mid, ids, jobs.tUnit.tData, ja.ids);
    }

    method ResumePaused(u: UnitId)
      requires Valid()
      modifies jobs.tUnit
      ensures Valid() && Resumed(old(jobs.tUnit.tData), {u}, jobs.tUnit.tData)
      ensures AllFewer(old(jobs.tUnit.tData), jobs.tUnit.tData)
    {
      jobs.ResumeUnit(u);
      ResumedSameJobs(old(jobs.tUnit.tData), {u}, jobs.tUnit.tData);
      SameJobsFewer(old(jobs.tUnit.tData), jobs.tUnit.tData);
    }

    /** `do_try_finish`: a unit has changed its state. A paused trigger gets another try. */
    method DoTryFinish(db: UnitDb, n: Notice) returns (ghost mid: Units, ghost hit: set<UnitId>)
      requires Valid() && MayFinish(jobs.tUnit.tData, n)
      requires Irrelevant(Get(jobs.tUnit.tData, n.unit)) ==> |ja.ids| + |Universe(db, {n.unit})| <= ID_NUM
      modifies jobs, jobs.tUnit, stage, stage.tUnit, ja
      ensures Onward(db, old(jobs.tUnit.tData), old(ja.ids), jobs.tUnit.tData, ja.ids)
      ensures Valid()
      ensures FinishedAs(db, old(jobs.tUnit.tData), n, mid, hit, jobs.tUnit.tData)
      ensures AnswersNotice(db, old(jobs.tUnit.tData), n, jobs.tUnit.tData)
      ensures !Irrelevant(Get(old(jobs.tUnit.tData), n.unit)) ==>
                && AllFewer(old(jobs.tUnit.tData), jobs.tUnit.tData)
                && jobs.tId.Keys <= old(jobs.tId.Keys) && ja.ids == old(ja.ids)
    {
      ghost var units := jobs.tUnit.tData;
      var trigger := jobs.GetTriggerInfo(n.unit);
      if trigger.None? {
        NothingFinished(db, jobs.tUnit.tData, n);
        FewerOnward(db, jobs.tUnit.tData, jobs.tUnit.tData, ja.ids);
        return jobs.tUnit.tData, {};
      }
      mid, hit := FinishNoticed(db, n, trigger.value.0, trigger.value.1);
      AnswerIs(db, units, n, mid, hit, jobs.tUnit.tData);
    }

    method FinishNoticed(db: UnitDb, n: Notice, info: Job, paused: bool) returns (ghost mid: Units, ghost hit: set<UnitId>)
      requires Valid() && MayFinish(jobs.tUnit.tData, n) && n.unit in jobs.tUnit.tData
      requires jobs.tUnit.tData[n.unit].trigger == Some(info) && jobs.tUnit.tData[n.unit].pause == paused
      requires info.attr.noRelevancy ==> |ja.ids| + |Universe(db, {n.unit})| <= ID_NUM
      modifies jobs, jobs.tUnit, stage, stage.tUnit, ja
      ensures Onward(db, old(jobs.tUnit.tData), old(ja.ids), jobs.tUnit.tData, ja.ids)
      ensures Valid() && FinishedAs(db, old(jobs.tUnit.tData), n, mid, hit, jobs.tUnit.tData)
      ensures !info.attr.noRelevancy ==>
                && AllFewer(old(jobs.tUnit.tData), jobs.tUnit.tData)
                && jobs.tId.Keys <= old(jobs.tId.Keys) && ja.ids == old(ja.ids)
    {
      if paused {
        mid, hit := ResumeNoticed(db, n);
        return;
      }
      mid, hit := FinishUnpaused(db, n, info);
    }

    method ResumeNoticed(db: UnitDb, n: Notice) returns (ghost mid: Units, ghost hit: set<UnitId>)
      requires Valid() && MayFinish(jobs.tUnit.tData, n)
      requires Get(jobs.tUnit.tData, n.unit).trigger.Some? && Get(jobs.tUnit.tData, n.unit).pause
      modifies jobs.tUnit
      ensures Valid() && FinishedAs(db, old(jobs.tUnit.tData), n, mid, hit, jobs.tUnit.tData)
      ensures AllFewer(old(jobs.tUnit.tData), jobs.tUnit.tData)
      ensures Onward(db, old(jobs.tUnit.tData), ja.ids, jobs.tUnit.tData, ja.ids)
    {
      mid, hit := jobs.tUnit.tData, {};
      ResumePaused(n.unit);
      PausedFinished(db, mid, n, jobs.tUnit.tData);
      FewerOnward(db, mid, jobs.tUnit.tData, ja.ids);
    }

    method FinishUnpaused(db: UnitDb, n: Notice, info: Job) returns (ghost mid: Units, ghost hit: set<UnitId>)
      requires Valid() && MayFinish(jobs.tUnit.tData, n) && n.unit in jobs.tUnit.tData
      requires jobs.tUnit.tData[n.unit].trigger == Some(info) && !jobs.tUnit.tData[n.unit].pause
      requires info.attr.noRelevancy ==> |ja.ids| + |Universe(db, {n.unit})| <= ID_NUM
      modifies jobs, jobs.tUnit, stage, stage.tUnit, ja
      ensures Onward(db, old(jobs.tUnit.tData), old(ja.ids), jobs.tUnit.tData, ja.ids)
      ensures Valid() && FinishedAs(db, old(jobs.tUnit.tData), n, mid, hit, jobs.tUnit.tData)
      ensures !info.attr.noRelevancy ==>
                && AllFewer(old(jobs.tUnit.tData), jobs.tUnit.tData)
                && jobs.tId.Keys <= old(jobs.tId.Keys) && ja.ids == old(ja.ids)
    {
      var suggested := ProcessUnit(info.runKind, n.ns, n.reloadFailure);
      assert suggested == Suggested(jobs.tUnit.tData, n);
      if suggested.None? {
        NothingFinished(db, jobs.tUnit.tData, n);
        FewerOnward(db, jobs.tUnit.tData, jobs.tUnit.tData, ja.ids);
        return jobs.tUnit.tData, {};
      }
      mid, hit := EndSuggested(db, n, info, suggested.value);
    }

    method EndSuggested(db: UnitDb, n: Notice, info: Job, result: JobResult) returns (ghost mid: Units, ghost hit: set<UnitId>)
      requires Valid() && MayFinish(jobs.tUnit.tData, n) && Suggested(jobs.tUnit.tData, n) == Some(result)
      requires n.unit in jobs.tUnit.tData && jobs.tUnit.tData[n.unit].trigger == Some(info)
      requires info.attr.noRelevancy ==> |ja.ids| + |Universe(db, {n.unit})| <= ID_NUM
      modifies jobs, jobs.tUnit, stage, stage.tUnit, ja
      ensures Onward(db, old(jobs.tUnit.tData), old(ja.ids), jobs.tUnit.tData, ja.ids)
      ensures Valid() && FinishedAs(db, old(jobs.tUnit.tData), n, mid, hit, jobs.tUnit.tData)
      ensures !info.attr.noRelevancy ==>
                && AllFewer(old(jobs.tUnit.tData), jobs.tUnit.tData)
                && jobs.tId.Keys <= old(jobs.tId.Keys) && ja.ids == old(ja.ids)
    {
      var _, m, h := DoRemoveTrigger(db, info, result);
      return m, h;
    }

    // -------------------------------------------------------------- dispatch

    /** One round: run a ready unit, unless something holds it back, then end its job if the
        unit, or the job, says so. */
    method RunRound(db: UnitDb, unit: Option<UnitId>, world: World, n: nat) returns (popped: Option<UnitId>)
      requires Valid() && Answerable(world) && HasRoom(db, jobs.tUnit.tData, ja.ids)
      modifies jobs, jobs.tUnit, stage, stage.tUnit, ja
      ensures Valid() && HasRoom(db, jobs.tUnit.tData, ja.ids)
      ensures Relevant(old(jobs.tUnit.tData)) ==> Relevant(jobs.tUnit.tData) && jobs.tId.Keys <= old(jobs.tId.Keys)
      ensures popped.None? <==> NoneLeft(unit, old(jobs.tUnit.tData))
      ensures popped.None? ==> jobs.tUnit.tData == old(jobs.tUnit.tData)
      ensures popped.Some? ==> IsRound(db, unit, world, n, old(jobs.tUnit.tData), jobs.tUnit.tData)
      ensures popped.Some? ==>
                LessToDo(old(jobs.tUnit.tData), jobs.tUnit.tData) || NagsFor(world(n, old(jobs.tUnit.tData), popped.value))
    {
      var units := jobs.tUnit.tData;
      var run, info, replaced;
      popped, run, info, replaced := jobs.TryTrigger(db, unit, (u: UnitId) => world(n, units, u).outcome);
      if popped.None? {
        return;
      }
      ghost var noticed := EndRound(db, units, popped.value, run, info, world(n, units, popped.value));
      assert RoundOn(db, unit, units, popped.value, world(n, units, popped.value), noticed, jobs.tUnit.tData);
    }

    method EndRound(
        db: UnitDb, ghost units: Units, u: UnitId, run: bool, info: Option<(Job, Option<JobResult>)>, action: Action)
        returns (ghost noticed: Units)
      requires Valid() && UnitsOk(units) && HasRoom(db, units, ja.ids) && u in units && units[u].ready && Triable(units[u])
      requires jobs.tUnit.tData == units[u := TryUnit(units[u], run, action.outcome)]
      requires info == RunInfo(units[u], run, action.outcome)
      requires action.notice.Some? && run ==> MayFinish(jobs.tUnit.tData, action.notice.value)
      modifies jobs, jobs.tUnit, stage, stage.tUnit, ja
      ensures Valid() && HasRoom(db, jobs.tUnit.tData, ja.ids)
      ensures LessToDo(units, jobs.tUnit.tData) || NagsFor(action)
      ensures Relevant(units) ==> Relevant(jobs.tUnit.tData) && jobs.tId.Keys <= old(jobs.tId.Keys)
      ensures RoundOf(db, units, u, run, action, noticed, jobs.tUnit.tData)
    {
      ghost var mid := jobs.tUnit.tData;
      noticed := mid;
      TriedRoom(db, units, u, run, action.outcome, mid, ja.ids);
      if !run {
        SameJobsFewer(mid, mid);
        LessAfterRound(units, u, false, action, mid, mid);
        return;
      }
      TriedJob(units, u, action.outcome);
      ghost var ids := ja.ids;
      noticed := FinishRound(db, u, info.value, action);
      LessAfterRound(units, u, true, action, mid, jobs.tUnit.tData);
    }

    /** The notice of the unit goes first; then the result of the job, if the job is still there. */
    method FinishRound(db: UnitDb, u: UnitId, info: (Job, Option<JobResult>), action: Action)
        returns (ghost noticed: Units)
      requires Valid() && HasRoom(db, jobs.tUnit.tData, ja.ids)
      requires StillThere(jobs.tUnit.tData, info.0) && info.0.unit == u && (info.1.Some? ==> !jobs.tUnit.tData[u].pause)
      requires info.0.attr.noRelevancy ==> jobs.tUnit.tData[u].trigger.value.attr.noRelevancy
      requires action.notice.Some? ==> MayFinish(jobs.tUnit.tData, action.notice.value)
      modifies jobs, jobs.tUnit, stage, stage.tUnit, ja
      ensures Valid() && Onward(db, old(jobs.tUnit.tData), old(ja.ids), jobs.tUnit.tData, ja.ids)
      ensures action.notice.None? && info.1.None? ==> jobs.tUnit.tData == old(jobs.tUnit.tData)
      ensures Relevant(old(jobs.tUnit.tData)) ==> Relevant(jobs.tUnit.tData) && jobs.tId.Keys <= old(jobs.tId.Keys)
      ensures Noticed(db, old(jobs.tUnit.tData), action.notice, noticed)
      ensures Resulted(db, noticed, info.0, info.1, jobs.tUnit.tData)
    {
      ghost var units, ids, known := jobs.tUnit.tData, jobs.tId, ja.ids;
      Notify(db, action.notice);
      noticed := jobs.tUnit.tData;
      if info.1.None? {
        OnwardRelevant(db, units, ids, known, noticed, jobs.tId, ja.ids);
        return;
      }
      IsStillThere(units, ids, noticed, jobs.tId, known, info.0);
      if info.0.id !in jobs.tId {
        OnwardRelevant(db, units, ids, known, noticed, jobs.tId, ja.ids);
        return;
      }
      StillAsItWas(units, noticed, known, u);
      ghost var more := ja.ids;
      EndReported(db, info.0, info.1.value);
      OnwardTwice(db, units, known, noticed, more, jobs.tUnit.tData, ja.ids);
      OnwardRelevant(db, units, ids, known, jobs.tUnit.tData, jobs.tId, ja.ids);
    }

    method Notify(db: UnitDb, notice: Option<Notice>)
      requires Valid() && HasRoom(db, jobs.tUnit.tData, ja.ids)
      requires notice.Some? ==> MayFinish(jobs.tUnit.tData, notice.value)
      modifies jobs, jobs.tUnit, stage, stage.tUnit, ja
      ensures Valid() && Onward(db, old(jobs.tUnit.tData), old(ja.ids), jobs.tUnit.tData, ja.ids)
      ensures Noticed(db, old(jobs.tUnit.tData), notice, jobs.tUnit.tData)
    {
      ghost var units := jobs.tUnit.tData;
      if notice.None? {
        SameJobsFewer(units, units);
        FewerOnward(db, units, units, ja.ids);
        return;
      }
      RoomForStop(db, units, ja.ids, notice.value.unit);
      var m, h := DoTryFinish(db, notice.value);
      assert FinishedAs(db, units, notice.value, m, h, jobs.tUnit.tData);
    }

    method EndReported(db: UnitDb, info: Job, result: JobResult)
      requires Valid() && StillThere(jobs.tUnit.tData, info) && !jobs.tUnit.tData[info.unit].pause
      requires HasRoom(db, jobs.tUnit.tData, ja.ids)
      requires info.attr.noRelevancy ==> jobs.tUnit.tData[info.unit].trigger.value.attr.noRelevancy
      modifies jobs, jobs.tUnit, stage, stage.tUnit, ja
      ensures Valid() && Onward(db, old(jobs.tUnit.tData), old(ja.ids), jobs.tUnit.tData, ja.ids)
      ensures Resulted(db, old(jobs.tUnit.tData), info, Some(result), jobs.tUnit.tData)
    {
      ghost var units := jobs.tUnit.tData;
      RoomForStop(db, units, ja.ids, info.unit);
      var _, m, h := DoRemoveTrigger(db, info, result);
      assert EndedAs(db, units, info, result, m, h, jobs.tUnit.tData);
    }

    /** Dispatching comes to an end, whatever the units report, and even if jobs of a recovery
        fail, each of which brings in a transaction of its own, as long as no unit nags for ever:
        then no unit is ready, or the one asked for is not. Something has been tried if and only
        if it was ready. Without jobs of a recovery there is no job that was not there before. */
    method Run(db: UnitDb, unit: Option<UnitId>, world: World, ghost bound: nat) returns (cnt: nat, ghost trace: seq<Units>)
      requires Valid() && Tame(world, bound) && HasRoom(db, jobs.tUnit.tData, ja.ids)
      modifies jobs, jobs.tUnit, stage, stage.tUnit, ja
      ensures Valid() && HasRoom(db, jobs.tUnit.tData, ja.ids)
      ensures Relevant(old(jobs.tUnit.tData)) ==> Relevant(jobs.tUnit.tData) && jobs.tId.Keys <= old(jobs.tId.Keys)
      ensures NoneLeft(unit, jobs.tUnit.tData) && (cnt == 0 <==> NoneLeft(unit, old(jobs.tUnit.tData)))
      ensures HasRun(db, unit, world, old(jobs.tUnit.tData), trace, cnt, jobs.tUnit.tData)
    {
      cnt, trace := 0, [jobs.tUnit.tData];
      NoRoundYet(db, unit, world, jobs.tUnit.tData);
      while true
        invariant Valid() && HasRoom(db, jobs.tUnit.tData, ja.ids)
        invariant Relevant(old(jobs.tUnit.tData)) ==> Relevant(jobs.tUnit.tData) && jobs.tId.Keys <= old(jobs.tId.Keys)
        invariant HasRun(db, unit, world, old(jobs.tUnit.tData), trace, cnt, jobs.tUnit.tData)
        invariant cnt > 0 ==> !NoneLeft(unit, old(jobs.tUnit.tData))
        decreases if cnt < bound then bound - cnt else 0,
                  StandInTokens(jobs.tUnit.tData), Tokens(jobs.tUnit.tData), ReadySet(jobs.tUnit.tData)
      {
        ghost var units := jobs.tUnit.tData;
        var popped := RunRound(db, unit, world, cnt);
        if popped.None? {
          break;
        }
        OneMoreRound(db, unit, world, old(jobs.tUnit.tData), trace, cnt, units, jobs.tUnit.tData);
        Tamed(world, bound, cnt, units, popped.value);
        trace := trace + [jobs.tUnit.tData];
        cnt := cnt + 1;
      }
    }

    /** `trigger_unit` asserts that something has been triggered: so it has, exactly if the unit
        is ready. */
    method TriggerUnit(db: UnitDb, u: UnitId, world: World, ghost bound: nat) returns (ghost trace: seq<Units>)
      requires Valid() && Tame(world, bound) && HasRoom(db, jobs.tUnit.tData, ja.ids)
      requires u in ReadySet(jobs.tUnit.tData)
      modifies jobs, jobs.tUnit, stage, stage.tUnit, ja
      ensures Valid() && HasRoom(db, jobs.tUnit.tData, ja.ids) && u !in ReadySet(jobs.tUnit.tData)
      ensures |trace| > 1 && HasRun(db, Some(u), world, old(jobs.tUnit.tData), trace, |trace| - 1, jobs.tUnit.tData)
    {
      var cnt, t := Run(db, Some(u), world, bound);
      assert cnt != 0;
      trace := t;
    }

    /** `dispatch` asserts that nothing is left to do. */
    method Dispatch(db: UnitDb, world: World, ghost bound: nat)
      requires Valid() && Tame(world, bound) && HasRoom(db, jobs.tUnit.tData, ja.ids)
      modifies jobs, jobs.tUnit, stage, stage.tUnit, ja
      ensures Valid() && forall u :: u in jobs.tUnit.tData ==> !jobs.tUnit.tData[u].ready
      ensures Relevant(old(jobs.tUnit.tData)) ==> jobs.tId.Keys <= old(jobs.tId.Keys)
    {
      var _, _ := Run(db, None, world, bound);
      NobodyIsReady(jobs.tUnit.tData);
      var ready := jobs.tUnit.CalcReadyNow();
      assert !ready;
    }
  }

  // ---------------------------------------------------------------- ids, and how far there is to go

  /** The ids in use, and those that transactions in place of failing jobs may still take. */
  ghost function Claim(db: UnitDb, units: Units, ids: set<nat>): nat {
    |ids| + |StandInTokens(units)| * Width(db)
  }

  ghost predicate HasRoom(db: UnitDb, units: Units, ids: set<nat>) {
    Claim(db, units, ids) <= ID_NUM
  }

  /** A step that runs nothing: it takes work away, or a job that stood in for another. */
  ghost predicate Onward(db: UnitDb, units: Units, ids: set<nat>, now: Units, ids': set<nat>) {
    && AllMilder(units, now, ids) && ids <= ids' && Claim(db, now, ids') <= Claim(db, units, ids)
    && (AllFewer(units, now) || StandInTokens(now) < StandInTokens(units))
  }

  /** What a round makes less of: jobs that stand in for others, or work, or ready units. */
  ghost predicate LessToDo(units: Units, now: Units) {
    || StandInTokens(now) < StandInTokens(units)
    || (StandInTokens(now) == StandInTokens(units)
        && (Tokens(now) < Tokens(units) || (Tokens(now) == Tokens(units) && ReadySet(now) < ReadySet(units))))
  }

  lemma MulMonotone(a: nat, b: nat, w: nat)
    requires a <= b
    ensures a * w <= b * w
  {
  }

  lemma SameIdsClaim(db: UnitDb, units: Units, now: Units, ids: set<nat>)
    requires StandInTokens(now) <= StandInTokens(units)
    ensures Claim(db, now, ids) <= Claim(db, units, ids)
  {
    SubsetSize(StandInTokens(now), StandInTokens(units));
    MulMonotone(|StandInTokens(now)|, |StandInTokens(units)|, Width(db));
  }

  lemma MilderTokens(units: Units, now: Units, known: set<nat>)
    requires AllMilder(units, now, known)
    ensures StandInTokens(now) <= StandInTokens(units)
  {
    forall u: UnitId
      ensures StandIns(Get(now, u)) <= StandIns(Get(units, u))
    {
      assert Milder(Get(units, u), Get(now, u), known);
    }
    FewerStandIns(units, now);
  }

  lemma FewerOnward(db: UnitDb, units: Units, now: Units, ids: set<nat>)
    requires AllFewer(units, now)
    ensures Onward(db, units, ids, now, ids)
  {
    AllFewerIsMilder(units, now, ids);
    MilderTokens(units, now, ids);
    SameIdsClaim(db, units, now, ids);
  }

  lemma OnwardTwice(db: UnitDb, units: Units, ids: set<nat>, mid: Units, more: set<nat>, now: Units, ids': set<nat>)
    requires Onward(db, units, ids, mid, more) && Onward(db, mid, more, now, ids')
    ensures Onward(db, units, ids, now, ids')
  {
    AllMilderTwice(units, mid, now, ids, more);
    MilderTokens(units, mid, ids);
    MilderTokens(mid, now, more);
    if AllFewer(units, mid) && AllFewer(mid, now) {
      AllFewerTwice(units, mid, now);
    }
  }

  /** The failure of a job that stood in for another: a transaction takes its place. */
  lemma StopOnward(
      db: UnitDb, units: Units, u: UnitId, result: JobResult, mid: Units, ids: set<nat>, now: Units, ids': set<nat>)
    requires UnitsOk(units) && EndedTo(db, units, u, result, mid) && AllFewer(units, mid) && result != Done
    requires units[u].trigger.value.attr.noRelevancy && AllMilder(mid, now, ids)
    requires ids <= ids' && |ids'| <= |ids| + Width(db)
    ensures Onward(db, units, ids, now, ids')
  {
    AllFewerIsMilder(units, mid, ids);
    AllMilderTwice(units, mid, now, ids, ids);
    EndedLess(db, units, u, result, mid);
    MilderTokens(units, mid, ids);
    MilderTokens(mid, now, ids);
    SubsetSize(StandInTokens(now), StandInTokens(mid));
    ProperSubsetSize(StandInTokens(mid), StandInTokens(units));
    MulMonotone(|StandInTokens(now)| + 1, |StandInTokens(units)|, Width(db));
  }

  lemma ProperSubsetSize<T>(a: set<T>, b: set<T>)
    requires a < b
    ensures |a| + 1 <= |b|
  {
    var x :| x in b && x !in a;
    SubsetSize(a, b - {x});
  }

  lemma EndedLess(db: UnitDb, units: Units, u: UnitId, result: JobResult, mid: Units)
    requires UnitsOk(units) && EndedTo(db, units, u, result, mid) && AllFewer(units, mid) && result != Done
    requires units[u].trigger.value.attr.noRelevancy
    ensures StandInTokens(mid) < StandInTokens(units)
  {
    forall v: UnitId
      ensures StandIns(Get(mid, v)) <= StandIns(Get(units, v))
    {
      assert Fewer(Get(units, v), Get(mid, v));
      FewerIsMilder(Get(units, v), Get(mid, v), {});
    }
    TriggerIsGone(db, units, u, result, mid);
    assert Fewer(Get(units, u), Get(mid, u));
    FewerWaiting(Get(units, u).suspends, Get(mid, u).suspends);
    OneStandInLess(units, mid, u);
  }

  lemma TriggerIsGone(db: UnitDb, units: Units, u: UnitId, result: JobResult, mid: Units)
    requires UnitsOk(units) && EndedTo(db, units, u, result, mid) && result != Done
    ensures Get(mid, u).trigger.None?
  {
    var s := Rest(FinishTrigger(units[u], result));
    FinishStep(units[u], result);
    assert s.trigger.None?;
    if u in Put(units, u, s) {
      ResumeStep(s);
    }
  }

  /** A transaction is no step back: no trigger changes, and nobody new stands in for another. */
  lemma CommitsMilder(db: UnitDb, units: Units, stage: Units, resting: Units, now: Units, known: set<nat>)
    requires UnitsOk(units) && StageTable(stage) && Committed(units, stage, db.active, resting)
    requires Resumed(resting, AllNeighbours(db, FlushedOf(units, stage)), now)
    requires forall u :: u in stage ==> FreshJobs(stage[u].suspends, known)
    ensures AllMilder(units, now, known)
  {
    forall u: UnitId
      ensures Milder(Get(units, u), Get(now, u), known)
    {
      if u in resting {
        CommitOneMilder(units, stage, u, u in db.active, known);
        ResumedMilder(Get(units, u), resting[u], now[u], known);
      }
    }
  }

  lemma CommitOneMilder(units: Units, stage: Units, u: UnitId, active: bool, known: set<nat>)
    requires UnitsOk(units) && StageTable(stage) && (u in stage ==> FreshJobs(stage[u].suspends, known))
    ensures var s := CommitUnit(Get(units, u), Theirs(stage, u), active);
            && Milder(Get(units, u), s, known)
            && ResumeEntry(s).suspends == s.suspends && ResumeEntry(s).trigger == s.trigger
  {
    GetInv(units, u);
    CommitMilder(Get(units, u), Theirs(stage, u), active, known);
    CommitRests(Get(units, u), Theirs(stage, u), active);
    ResumeStep(CommitUnit(Get(units, u), Theirs(stage, u), active));
  }

  lemma ResumedMilder(s: UnitState, mid: UnitState, now: UnitState, known: set<nat>)
    requires Milder(s, mid, known) && (now == mid || now == ResumeEntry(mid))
    requires ResumeEntry(mid).suspends == mid.suspends && ResumeEntry(mid).trigger == mid.trigger
    ensures Milder(s, now, known)
  {
  }

  lemma RoomForStop(db: UnitDb, units: Units, ids: set<nat>, u: UnitId)
    requires HasRoom(db, units, ids)
    ensures u in units && units[u].trigger.Some? && units[u].trigger.value.attr.noRelevancy ==>
              |ids| + |Universe(db, {u})| <= ID_NUM
  {
    if u in units && units[u].trigger.Some? && units[u].trigger.value.attr.noRelevancy {
      UniverseWidth(db, u);
      assert (u, 0) in StandInTokens(units);
      SubsetSize({(u, 0 as int)}, StandInTokens(units));
      MulMonotone(1, |StandInTokens(units)|, Width(db));
    }
  }

  lemma StillAsItWas(units: Units, now: Units, known: set<nat>, u: UnitId)
    requires AllMilder(units, now, known) && u in units && !units[u].pause && u in now && now[u].trigger.Some?
    ensures !now[u].pause && units[u].trigger.Some? && now[u].trigger.value.attr == units[u].trigger.value.attr
  {
    assert Milder(Get(units, u), Get(now, u), known);
  }

  lemma FewerIds(units: Units, ids: map<nat, JobConf>, now: Units, ids': map<nat, JobConf>)
    requires IdsOk(units, ids) && IdsOk(now, ids') && AllFewer(units, now)
    ensures ids'.Keys <= ids.Keys
  {
    forall id | id in ids'
      ensures id in ids
    {
      var c := ids'[id];
      assert OwnsAt(now[c.unit], id, c.kind);
      assert Fewer(Get(units, c.unit), Get(now, c.unit));
      assert IdsAt(units[c.unit], ids);
    }
  }

  /** Where no job stands in for another, none ever will, and there are no new jobs. */
  lemma OnwardRelevant(
      db: UnitDb, units: Units, ids: map<nat, JobConf>, known: set<nat>,
      now: Units, ids': map<nat, JobConf>, known': set<nat>)
    requires IdsOk(units, ids) && IdsOk(now, ids') && Onward(db, units, known, now, known')
    ensures Relevant(units) ==> Relevant(now) && ids'.Keys <= ids.Keys
  {
    if Relevant(units) {
      assert StandInTokens(units) == {};
      FewerRelevant(units, now);
      FewerIds(units, ids, now, ids');
    }
  }

  lemma TriedRoom(db: UnitDb, units: Units, u: UnitId, run: bool, outcome: Outcome, mid: Units, ids: set<nat>)
    requires UnitsOk(units) && u in units && units[u].ready && Triable(units[u])
    requires mid == units[u := TryUnit(units[u], run, outcome)]
    ensures StandInTokens(mid) <= StandInTokens(units)
    ensures HasRoom(db, units, ids) ==> HasRoom(db, mid, ids)
    ensures Relevant(units) ==> Relevant(mid)
  {
    TriedTokens(units, u, run, outcome, mid);
    SameIdsClaim(db, units, mid, ids);
    if Relevant(units) {
      RunRelevant(units[u], run, outcome);
    }
  }

  lemma TriedJob(units: Units, u: UnitId, outcome: Outcome)
    requires UnitsOk(units) && u in units && units[u].ready && Triable(units[u])
    ensures var info, s' := NextState(units[u]).trigger.value, TryUnit(units[u], true, outcome);
            && info.unit == u && s'.trigger.Some? && s'.trigger.value.id == info.id && (outcome != Again ==> !s'.pause)
            && (info.attr.noRelevancy ==> s'.trigger.value.attr.noRelevancy)
  {
    NextOk(units[u]);
  }

  lemma LessAfterRound(units: Units, u: UnitId, run: bool, action: Action, mid: Units, now: Units)
    requires UnitsOk(units) && u in units && units[u].ready && Triable(units[u])
    requires mid == units[u := TryUnit(units[u], run, action.outcome)]
    requires AllFewer(mid, now) || StandInTokens(now) < StandInTokens(mid)
    requires !run || (action.outcome == Again && action.notice.None?) ==> now == mid
    ensures LessToDo(units, now) || NagsFor(action)
  {
    TriedTokens(units, u, run, action.outcome, mid);
    if AllFewer(mid, now) {
      AllFewerIsMilder(mid, now, {});
      MilderTokens(mid, now, {});
      if !run || !NagsFor(action) {
        RoundProgress(units, u, run, action.outcome, mid, now);
      }
    }
  }

  lemma TriedTokens(units: Units, u: UnitId, run: bool, outcome: Outcome, mid: Units)
    requires UnitsOk(units) && u in units && units[u].ready && Triable(units[u])
    requires mid == units[u := TryUnit(units[u], run, outcome)]
    ensures StandInTokens(mid) <= StandInTokens(units)
  {
    TryStandIns(units[u], run, outcome);
    FewerStandIns(units, mid);
  }

  lemma NobodyIsReady(units: Units)
    requires UnitsOk(units) && ReadySet(units) == {}
    ensures forall u :: u in units ==> !units[u].ready && !units[u].upReady
  {
    forall u | u in units
      ensures !units[u].ready && !units[u].upReady
    {
      assert u !in ReadySet(units);
    }
  }

  /** A trigger has ended, or gone on to its second phase, and whoever waited has been woken. */
  ghost predicate EndedTo(db: UnitDb, units: Units, u: UnitId, result: JobResult, now: Units) {
    && u in units && units[u].trigger.Some?
    && Resumed(Put(units, u, Rest(FinishTrigger(units[u], result))),
               if IsRetry(units[u].trigger.value, result) then {} else Neighbours(db, u), now)
  }

  lemma EndedFewer(db: UnitDb, units: Units, u: UnitId, result: JobResult, now: Units)
    requires UnitsOk(units) && EndedTo(db, units, u, result, now)
    ensures AllFewer(units, now)
  {
    var mid := Put(units, u, Rest(FinishTrigger(units[u], result)));
    FinishFewer(units, u, result);
    FinishStep(units[u], result);
    PutOk(units, u, Rest(FinishTrigger(units[u], result)));
    ResumedSameJobs(mid, if IsRetry(units[u].trigger.value, result) then {} else Neighbours(db, u), now);
    SameJobsFewer(mid, now);
    AllFewerTwice(units, mid, now);
  }

  lemma FellFewer(db: UnitDb, units: Units, mid: Units, info: Job, hit: set<UnitId>, now: Units)
    requires AllFewer(units, mid) && Fell(db, mid, info, hit, now)
    ensures AllFewer(units, now)
  {
  }

  /** What a unit tells the engine: the state it is in now, and whether a reload failed. */
  datatype Notice = Notice(unit: UnitId, ns: ActiveState, reloadFailure: bool)

  /** The state of a unit is weighed against its trigger only for kinds that act on the unit;
      for a Verify or a Nop the engine has no answer and panics. */
  predicate MayFinish(units: Units, n: Notice) {
    var s := Get(units, n.unit);
    s.trigger.Some? && !s.pause ==> s.trigger.value.runKind in {Start, Stop, Reload}
  }

  /** What a notice suggests to do with the trigger of its unit. */
  function Suggested(units: Units, n: Notice): Option<JobResult>
    requires MayFinish(units, n)
  {
    var s := Get(units, n.unit);
    if s.trigger.None? || s.pause then None
    else ProcessUnit(s.trigger.value.runKind, n.ns, n.reloadFailure)
  }

  /** What the action of a job reports, and the first notice that comes in before it returns. */
  datatype Action = Action(outcome: Outcome, notice: Option<Notice>)

  /** The units as the dispatcher meets them: in each round the action may depend on everything
      that has happened. */
  type World = (nat, Units, UnitId) -> Action

  /** Nobody announces a change of a unit whose job has no answer to it. */
  ghost predicate Answerable(world: World) {
    forall n, units, u :: u in units && Triable(units[u]) && world(n, units, u).notice.Some? ==>
      MayFinish(units[u := TryUnit(units[u], true, world(n, units, u).outcome)], world(n, units, u).notice.value)
  }

  /** A unit asks to be tried again, and a change is announced all the same: that may wake it at
      once. */
  predicate NagsFor(action: Action) {
    action.outcome == Again && action.notice.Some?
  }

  /** From a round on, nobody nags any more. */
  ghost predicate Tame(world: World, bound: nat) {
    Answerable(world) && forall n, units, u :: n >= bound ==> !NagsFor(world(n, units, u))
  }

  lemma Tamed(world: World, bound: nat, n: nat, units: Units, u: UnitId)
    requires Tame(world, bound)
    ensures NagsFor(world(n, units, u)) ==> n < bound
  {
  }

  /** No unit is ready, or the one asked for is not. */
  ghost predicate NoneLeft(unit: Option<UnitId>, units: Units) {
    match unit
    case None => ReadySet(units) == {}
    case Some(u) => u !in ReadySet(units)
  }

  ghost predicate RoundOn(
      db: UnitDb, unit: Option<UnitId>, units: Units, u: UnitId, action: Action, noticed: Units, now: Units)
  {
    && UnitsOk(units) && Popped(unit, Some(u), ReadySet(units))
    && u in units && units[u].ready && HasNext(units[u]) && Triable(units[u])
    && RoundOf(db, units, u, Runnable(db, units, u), action, noticed, now)
  }

  /** The n-th round of a run. */
  ghost predicate IsRound(db: UnitDb, unit: Option<UnitId>, world: World, n: nat, units: Units, now: Units) {
    exists u, noticed :: RoundOn(db, unit, units, u, world(n, units, u), noticed, now)
  }

  ghost function RoundSteps(db: UnitDb, unit: Option<UnitId>, world: World): (int, Units, Units) -> bool {
    (n: int, units: Units, now: Units) => n >= 0 && IsRound(db, unit, world, n, units, now)
  }

  /** The tables between the rounds of a run. */
  ghost predicate RunsThrough(db: UnitDb, unit: Option<UnitId>, world: World, trace: seq<Units>) {
    Linked(RoundSteps(db, unit, world), trace)
  }

  lemma NthIsRound(db: UnitDb, unit: Option<UnitId>, world: World, trace: seq<Units>, n: nat)
    requires RunsThrough(db, unit, world, trace) && n + 1 < |trace|
    ensures IsRound(db, unit, world, n, trace[n], trace[n + 1])
  {
    LinkedAt(RoundSteps(db, unit, world), trace, n);
  }

  ghost predicate HasRun(
      db: UnitDb, unit: Option<UnitId>, world: World, was: Units, trace: seq<Units>, cnt: nat, now: Units)
  {
    |trace| == cnt + 1 && trace[0] == was && trace[cnt] == now && RunsThrough(db, unit, world, trace)
  }

  lemma NoRoundYet(db: UnitDb, unit: Option<UnitId>, world: World, units: Units)
    ensures HasRun(db, unit, world, units, [units], 0, units)
  {
  }

  lemma OneMoreRound(
      db: UnitDb, unit: Option<UnitId>, world: World, was: Units, trace: seq<Units>, cnt: nat, units: Units, now: Units)
    requires HasRun(db, unit, world, was, trace, cnt, units) && IsRound(db, unit, world, cnt, units, now)
    ensures HasRun(db, unit, world, was, trace + [now], cnt + 1, now)
  {
    LinkedOn(RoundSteps(db, unit, world), trace, now);
  }

  /** The trigger stands in for a job that was lost in a crash. */
  predicate Irrelevant(s: UnitState) {
    s.trigger.Some? && s.trigger.value.attr.noRelevancy
  }

  /** A notice resumes a paused trigger, leaves a trigger alone, or ends it. */
  ghost predicate FinishedAs(db: UnitDb, units: Units, n: Notice, mid: Units, hit: set<UnitId>, now: Units)
    requires MayFinish(units, n)
  {
    match Suggested(units, n)
    case None => Resumed(units, if Get(units, n.unit).trigger.Some? && Get(units, n.unit).pause then {n.unit} else {}, now)
    case Some(result) =>
      && EndedTo(db, units, n.unit, result, mid)
      && (result == Done ==> now == mid)
      && (result != Done ==> Followed(db, mid, units[n.unit].trigger.value, hit, now))
  }

  lemma NothingFinished(db: UnitDb, units: Units, n: Notice)
    requires MayFinish(units, n) && Suggested(units, n).None?
    requires Get(units, n.unit).trigger.None? || !Get(units, n.unit).pause
    ensures FinishedAs(db, units, n, units, {}, units) && AllFewer(units, units)
  {
    SameJobsFewer(units, units);
  }

  lemma PausedFinished(db: UnitDb, units: Units, n: Notice, now: Units)
    requires MayFinish(units, n) && Get(units, n.unit).trigger.Some? && Get(units, n.unit).pause
    requires Resumed(units, {n.unit}, now)
    ensures FinishedAs(db, units, n, units, {}, now)
  {
  }

  /** What a notice, if there is one, makes of the units. */
  ghost predicate Noticed(db: UnitDb, units: Units, notice: Option<Notice>, now: Units) {
    match notice
    case None => now == units
    case Some(n) => MayFinish(units, n) && exists mid, hit :: FinishedAs(db, units, n, mid, hit, now)
  }

  /** A job has ended with a result, and a failure has taken others along. */
  ghost predicate EndedAs(
      db: UnitDb, units: Units, info: Job, result: JobResult, mid: Units, hit: set<UnitId>, now: Units)
  {
    && EndedTo(db, units, info.unit, result, mid)
    && (result == Done ==> now == mid)
    && (result != Done ==> Followed(db, mid, info, hit, now))
  }

  predicate StillThere(units: Units, info: Job) {
    info.unit in units && units[info.unit].trigger.Some? && units[info.unit].trigger.value.id == info.id
  }

  /** What the result of a job makes of the units; a notice may have ended it already. */
  ghost predicate Resulted(db: UnitDb, units: Units, info: Job, result: Option<JobResult>, now: Units) {
    if result.Some? && StillThere(units, info) then exists mid, hit :: EndedAs(db, units, info, result.value, mid, hit, now)
    else now == units
  }

  /** A round, exactly: the unit is paused, or its next job is run, the notice comes first, and
      then the result. */
  ghost predicate RoundOf(db: UnitDb, units: Units, u: UnitId, run: bool, action: Action, noticed: Units, now: Units)
    requires u in units && Triable(units[u])
  {
    var tried := units[u := TryUnit(units[u], run, action.outcome)];
    if !run then now == tried
    else
      && Noticed(db, tried, action.notice, noticed)
      && Resulted(db, noticed, NextState(units[u]).trigger.value,
                  if action.outcome.Ended? then Some(action.outcome.result) else None, now)
  }

  lemma IsStillThere(
      units: Units, ids: map<nat, JobConf>, now: Units, ids': map<nat, JobConf>, known: set<nat>, info: Job)
    requires IdsOk(units, ids) && IdsOk(now, ids') && Keyed(units) && AllMilder(units, now, known)
    requires ids.Keys <= known && StillThere(units, info)
    ensures info.id in ids' <==> StillThere(now, info)
  {
    if info.id in ids' {
      StillTrigger(units, ids, now, ids', known, info.unit, info.id);
    }
    if StillThere(now, info) {
      assert IdsAt(now[info.unit], ids');
    }
  }

  /** The failure of `info` has taken along exactly the units that it spreads to. */
  ghost predicate Fell(db: UnitDb, units: Units, info: Job, hit: set<UnitId>, now: Units) {
    && Stripped(units, hit, now) && StripsTo(db, units, Dependency, now)
    && SpreadsTo(db, units, info.unit, info.runKind, hit)
  }

  /** The unit is stopped by a transaction of its own, if that is not refused. */
  ghost predicate StoppedInstead(db: UnitDb, units: Units, u: UnitId, staged: Units, resting: Units, now: Units) {
    && Staged(staged, Replace) && Expanded(db, JobConf(u, Stop), Replace, staged)
    && if Refused(staged, units, Replace) then now == units
       else
         && StageTable(staged) && Committed(units, staged, db.active, resting)
         && Resumed(resting, AllNeighbours(db, FlushedOf(units, staged)), now)
  }

  /** What the failure of a job leads to. */
  ghost predicate Followed(db: UnitDb, units: Units, info: Job, hit: set<UnitId>, now: Units) {
    if info.attr.noRelevancy then exists staged, resting :: StoppedInstead(db, units, info.unit, staged, resting, now)
    else Fell(db, units, info, hit, now)
  }

  /** What a transaction leaves of the waiting jobs: those of a unit that has an irreversible one,
      and in Fail mode those of every unit, are all still there, but for those that the reshuffle
      merges into others of the same unit. */
  ghost predicate KeepsWaiting(units: Units, staged: Units, mode: JobMode, active: set<UnitId>, now: Units) {
    forall u :: u in units && (mode == Fail || IsIrreversible(units[u])) ==>
      u in now && now[u].suspends.Keys == Unmerged(units[u].suspends.Keys + Theirs(staged, u).Keys, u in active)
  }

  lemma NothingIrreversibleFlushed(
      units: Units, staged: Units, mode: JobMode, active: set<UnitId>, resting: Units, others: set<UnitId>, now: Units)
    requires UnitsOk(units) && StageTable(staged) && !Refused(staged, units, mode)
    requires Committed(units, staged, active, resting) && Resumed(resting, others, now)
    ensures KeepsWaiting(units, staged, mode, active, now)
  {
    forall u | u in units && (mode == Fail || IsIrreversible(units[u]))
      ensures u in now && now[u].suspends.Keys == Unmerged(units[u].suspends.Keys + Theirs(staged, u).Keys, u in active)
    {
      assert !ConflictsAt(units, staged, u);
      NoConflict(units, staged, u);
      KeptWhole(units[u], Theirs(staged, u), u in active);
      assert u in resting && resting[u] == CommitUnit(Get(units, u), Theirs(staged, u), u in active);
    }
  }

  lemma NoConflict(units: Units, staged: Units, u: UnitId)
    requires UnitsOk(units) && u in units && !ConflictsAt(units, staged, u)
    ensures !IsConflict(units[u].suspends.Keys + Theirs(staged, u).Keys)
  {
    if u !in staged {
      assert units[u].suspends.Keys + Theirs(staged, u).Keys == units[u].suspends.Keys;
    }
  }

  lemma KeptWhole(s: UnitState, theirs: map<JobKind, Job>, active: bool)
    requires UnitInv(s) && StageOk(s.unit, theirs) && !IsConflict(s.suspends.Keys + theirs.Keys)
    ensures var s' := CommitUnit(s, theirs, active);
            && s'.suspends.Keys == Unmerged(s.suspends.Keys + theirs.Keys, active)
            && ResumeEntry(s').suspends == s'.suspends
  {
    CommittedJobs(s, theirs, active);
    CommitRests(s, theirs, active);
    ResumeStep(CommitUnit(s, theirs, active));
  }

  // ---------------------------------------------------------------- notices, told by what they do

  /** All waiting jobs are as they were, and all triggers but that of `u`. */
  ghost predicate OthersKeepAll(units: Units, u: UnitId, now: Units) {
    forall v: UnitId ::
      Get(now, v).suspends == Get(units, v).suspends && (v != u ==> Get(now, v).trigger == Get(units, v).trigger)
  }

  /** Nobody who is ordered with `u` is held back any more. */
  ghost predicate NeighboursAwake(db: UnitDb, u: UnitId, now: Units) {
    forall v :: v in now && (v in db.DepGetsAtom(u, Before) || v in db.DepGetsAtom(u, After)) ==> !now[v].pause
  }

  /** The job of `u` has ended in success: a Restart that has stopped the unit goes on to start
      it, any other job is gone. */
  ghost predicate HasSucceeded(db: UnitDb, units: Units, u: UnitId, now: Units)
    requires HasTrigger(units, u)
  {
    var job := units[u].trigger.value;
    && OthersKeepAll(units, u, now)
    && if job.kind == Restart && job.runKind == Stop
       then u in now && Rearmed(now[u]) && now[u].trigger == Some(job.(runKind := Start))
       else Get(now, u).trigger.None? && NeighboursAwake(db, u, now)
  }

  /** Only Start and Verify jobs have gone, and no trigger but that of `u`. */
  ghost predicate OnlyStartsGone(units: Units, u: UnitId, now: Units) {
    && (forall v: UnitId :: v != u ==> Get(now, v).trigger == Get(units, v).trigger)
    && (forall v: UnitId, k :: k in Get(now, v).suspends ==>
          k in Get(units, v).suspends && Get(now, v).suspends[k] == Get(units, v).suspends[k])
    && (forall v: UnitId, k :: k in Get(units, v).suspends && k != Start && k != Verify ==> k in Get(now, v).suspends)
  }

  ghost predicate NoStartLeft(units: Units, others: seq<UnitId>) {
    forall v :: v in others ==> Start !in Get(units, v).suspends && Verify !in Get(units, v).suspends
  }

  /** A Stop has been requested in place of the job of `u`, and is waiting unless it was refused. */
  ghost predicate StopTakesItsPlace(db: UnitDb, units: Units, u: UnitId, now: Units) {
    exists mid, staged :: OthersKeepAll(units, u, mid) && StopFollows(db, mid, u, staged, now)
  }

  ghost predicate StopFollows(db: UnitDb, mid: Units, u: UnitId, staged: Units, now: Units) {
    && Staged(staged, Replace) && ReachedFrom(Edges(db, Replace), JobConf(u, Stop), staged)
    && if Refused(staged, mid, Replace) then now == mid else Stop in Get(now, u).suspends
  }

  /** The job of `u` has failed: it is gone, and those that depend on it lose their Start and
      Verify jobs; if it stood in for another, its unit is stopped instead. */
  ghost predicate HasFailed(db: UnitDb, units: Units, u: UnitId, now: Units)
    requires HasTrigger(units, u)
  {
    var job := units[u].trigger.value;
    && Get(now, u).trigger.None?
    && if job.attr.noRelevancy then StopTakesItsPlace(db, units, u, now)
       else
         && OnlyStartsGone(units, u, now) && NeighboursAwake(db, u, now)
         && (job.runKind == Stop ==> NoStartLeft(now, db.DepGetsAtom(u, PropagateStopFailure)))
         && (job.runKind == Start ==> NoStartLeft(now, db.DepGetsAtom(u, PropagateStartFailure)))
         && (job.runKind == Reload ==> OthersKeepAll(units, u, now))
  }

  /** A paused unit is awake again, and nothing else has changed. */
  ghost predicate HasResumed(units: Units, u: UnitId, now: Units)
    requires u in units
  {
    && u in now && now == units[u := now[u]] && !now[u].pause
    && now[u].trigger == units[u].trigger && now[u].suspends == units[u].suspends
  }

  /** What the announcement of a new state does to the job that its unit is running. */
  ghost predicate AnswersNotice(db: UnitDb, units: Units, n: Notice, now: Units) {
    if !HasTrigger(units, n.unit) then now == units
    else if units[n.unit].pause then HasResumed(units, n.unit, now)
    else
      match units[n.unit].trigger.value.runKind
      case Start =>
        if n.ns == UnitActive || n.ns == UnitInActive then HasSucceeded(db, units, n.unit, now)
        else if n.ns == UnitFailed then HasFailed(db, units, n.unit, now)
        else now == units
      case Stop =>
        if n.ns == UnitInActive || n.ns == UnitFailed then HasSucceeded(db, units, n.unit, now)
        else if n.ns == UnitDeActivating then now == units
        else HasFailed(db, units, n.unit, now)
      case Reload =>
        if n.ns == UnitInActive || (n.ns == UnitActive && !n.reloadFailure) then HasSucceeded(db, units, n.unit, now)
        else if n.ns == UnitFailed || n.ns == UnitActive then HasFailed(db, units, n.unit, now)
        else now == units
      case _ => false
  }

  lemma AnswerIs(db: UnitDb, units: Units, n: Notice, mid: Units, hit: set<UnitId>, now: Units)
    requires UnitsOk(units) && MayFinish(units, n) && FinishedAs(db, units, n, mid, hit, now)
    ensures AnswersNotice(db, units, n, now)
  {
    if !HasTrigger(units, n.unit) {
      NobodyResumed(units, now);
    } else if units[n.unit].pause {
      OneResumed(units, n.unit, now);
    } else {
      if Suggested(units, n).None? {
        NobodyResumed(units, now);
      } else {
        EndIs(db, units, n.unit, Suggested(units, n).value, mid, hit, now);
      }
      AnswerByResult(db, units, n, now);
    }
  }

  lemma AnswerByResult(db: UnitDb, units: Units, n: Notice, now: Units)
    requires MayFinish(units, n) && HasTrigger(units, n.unit) && !units[n.unit].pause
    requires Suggested(units, n).None? ==> now == units
    requires Suggested(units, n) == Some(Done) ==> HasSucceeded(db, units, n.unit, now)
    requires Suggested(units, n).Some? && Suggested(units, n) != Some(Done) ==> HasFailed(db, units, n.unit, now)
    ensures AnswersNotice(db, units, n, now)
  {
  }

  lemma NobodyResumed(units: Units, now: Units)
    requires Resumed(units, {}, now)
    ensures now == units
  {
  }

  lemma OneResumed(units: Units, u: UnitId, now: Units)
    requires UnitsOk(units) && u in units && units[u].pause && Resumed(units, {u}, now)
    ensures HasResumed(units, u, now)
  {
    ResumedPause(units[u]);
    OnlyOneChanges(units, u, now);
  }

  lemma ResumedPause(s: UnitState)
    requires UnitInv(s) && s.pause
    ensures var e := ResumeEntry(s); !e.pause && e.trigger == s.trigger && e.suspends == s.suspends
  {
    ResumeStep(s);
  }

  lemma OnlyOneChanges(units: Units, u: UnitId, now: Units)
    requires u in units && Resumed(units, {u}, now)
    ensures u in now && now == units[u := now[u]]
  {
    assert now.Keys == units.Keys;
    forall v | v in now
      ensures now[v] == units[u := now[u]][v]
    {
    }
  }

  lemma EndIs(
      db: UnitDb, units: Units, u: UnitId, result: JobResult, mid: Units, hit: set<UnitId>, now: Units)
    requires UnitsOk(units) && HasTrigger(units, u) && !units[u].pause
    requires EndedAs(db, units, units[u].trigger.value, result, mid, hit, now)
    ensures if result == Done then HasSucceeded(db, units, u, now) else HasFailed(db, units, u, now)
  {
    EndedIs(db, units, u, result, mid);
    if result != Done {
      FailureIs(db, units, u, mid, hit, now);
    }
  }

  lemma EndedIs(db: UnitDb, units: Units, u: UnitId, result: JobResult, mid: Units)
    requires UnitsOk(units) && EndedTo(db, units, u, result, mid) && !units[u].pause
    ensures UnitsOk(mid) && OthersKeepAll(units, u, mid)
    ensures result == Done ==> HasSucceeded(db, units, u, mid)
    ensures result != Done ==> Get(mid, u).trigger.None? && NeighboursAwake(db, u, mid)
  {
    var s := Rest(FinishTrigger(units[u], result));
    var put := Put(units, u, s);
    FinishedUnit(units[u], result);
    PutOk(units, u, s);
    PutKeepsAll(units, u, s);
    var others := if IsRetry(units[u].trigger.value, result) then {} else Neighbours(db, u);
    ResumedKeepsAll(units, u, put, others, mid);
    ResumedAwake(put, others, mid);
  }

  lemma FinishedUnit(s: UnitState, result: JobResult)
    requires UnitInv(s) && s.trigger.Some? && !s.pause
    ensures var e, job := Rest(FinishTrigger(s, result)), s.trigger.value;
            && UnitInv(e) && e.unit == s.unit && e.suspends == s.suspends
            && (IsRetry(job, result) <==> result == Done && job.kind == Restart && job.runKind == Stop)
            && if IsRetry(job, result) then Rearmed(e) && e.trigger == Some(job.(runKind := Start)) else e.trigger.None?
  {
    FinishStep(s, result);
  }

  lemma PutKeepsAll(units: Units, u: UnitId, s: UnitState)
    requires u in units && s.suspends == units[u].suspends
    ensures OthersKeepAll(units, u, Put(units, u, s)) && Get(Put(units, u, s), u).trigger == s.trigger
    ensures s.trigger.Some? ==> u in Put(units, u, s) && Put(units, u, s)[u] == s
  {
  }

  lemma ResumedKeepsAll(units: Units, u: UnitId, mid: Units, others: set<UnitId>, now: Units)
    requires UnitsOk(mid) && OthersKeepAll(units, u, mid) && Resumed(mid, others, now)
    ensures UnitsOk(now) && OthersKeepAll(units, u, now) && Get(now, u).trigger == Get(mid, u).trigger
    ensures u in mid && Rearmed(mid[u]) ==> u in now && now[u] == mid[u]
  {
    forall v | v in now
      ensures now[v].unit == v && UnitInv(now[v]) && !IsEmpty(now[v])
      ensures now[v].suspends == mid[v].suspends && now[v].trigger == mid[v].trigger
    {
      ResumeStep(mid[v]);
    }
    forall v: UnitId
      ensures Get(now, v).suspends == Get(units, v).suspends
      ensures v != u ==> Get(now, v).trigger == Get(units, v).trigger
    {
      assert Get(mid, v).suspends == Get(units, v).suspends;
    }
  }

  lemma ResumedAwake(units: Units, others: set<UnitId>, now: Units)
    requires Resumed(units, others, now)
    ensures forall v :: v in now && v in others ==> !now[v].pause
  {
  }

  lemma FailureIs(db: UnitDb, units: Units, u: UnitId, mid: Units, hit: set<UnitId>, now: Units)
    requires UnitsOk(mid) && HasTrigger(units, u) && units[u].trigger.value.unit == u
    requires Followed(db, mid, units[u].trigger.value, hit, now)
    requires OthersKeepAll(units, u, mid) && Get(mid, u).trigger.None? && NeighboursAwake(db, u, mid)
    ensures HasFailed(db, units, u, now)
  {
    if units[u].trigger.value.attr.noRelevancy {
      StandInFailed(db, units, u, mid, now);
    } else {
      FollowersFell(db, units, u, mid, hit, now);
    }
  }

  lemma StandInFailed(db: UnitDb, units: Units, u: UnitId, mid: Units, now: Units)
    requires UnitsOk(mid) && OthersKeepAll(units, u, mid) && Get(mid, u).trigger.None?
    requires exists staged, resting :: StoppedInstead(db, mid, u, staged, resting, now)
    ensures StopTakesItsPlace(db, units, u, now) && Get(now, u).trigger.None?
  {
    var staged, resting :| StoppedInstead(db, mid, u, staged, resting, now);
    StopIsThere(db, mid, u, staged, resting, now);
  }

  lemma FollowersFell(db: UnitDb, units: Units, u: UnitId, mid: Units, hit: set<UnitId>, now: Units)
    requires HasTrigger(units, u) && units[u].trigger.value.unit == u && !units[u].trigger.value.attr.noRelevancy
    requires Fell(db, mid, units[u].trigger.value, hit, now)
    requires OthersKeepAll(units, u, mid) && Get(mid, u).trigger.None? && NeighboursAwake(db, u, mid)
    ensures HasFailed(db, units, u, now)
  {
    HitIsSpared(db, mid, u, units[u].trigger.value.runKind, hit, now);
    FallIs(db, units, u, mid, hit, now);
  }

  lemma FallIs(db: UnitDb, units: Units, u: UnitId, mid: Units, hit: set<UnitId>, now: Units)
    requires OthersKeepAll(units, u, mid) && Stripped(mid, hit, now) && NeighboursAwake(db, u, mid)
    ensures OnlyStartsGone(units, u, now) && NeighboursAwake(db, u, now)
    ensures Get(now, u).trigger == Get(mid, u).trigger
    ensures hit == {} ==> OthersKeepAll(units, u, now)
  {
    forall v: UnitId
      ensures v != u ==> Get(now, v).trigger == Get(units, v).trigger
      ensures Get(now, v).suspends == if v in hit then Get(units, v).suspends - FALLEN_KINDS else Get(units, v).suspends
      ensures Get(now, v).pause ==> v in mid && mid[v].pause
    {
      assert Get(mid, v).suspends == Get(units, v).suspends;
    }
  }

  lemma StopIsThere(db: UnitDb, mid: Units, u: UnitId, staged: Units, resting: Units, now: Units)
    requires UnitsOk(mid) && Get(mid, u).trigger.None? && StoppedInstead(db, mid, u, staged, resting, now)
    ensures StopFollows(db, mid, u, staged, now) && Get(now, u).trigger.None?
  {
    StagesStop(db, u, staged);
    if !Refused(staged, mid, Replace) {
      StopGoesIn(mid, u, staged, db.active, resting);
      ResumeStep(resting[u]);
    }
  }

  lemma StagesStop(db: UnitDb, u: UnitId, staged: Units)
    requires Expanded(db, JobConf(u, Stop), Replace, staged)
    ensures ReachedFrom(Edges(db, Replace), JobConf(u, Stop), staged) && InStage(staged, JobConf(u, Stop))
  {
    ReachesItself(Edges(db, Replace), JobConf(u, Stop));
  }

  lemma StopGoesIn(mid: Units, u: UnitId, staged: Units, active: set<UnitId>, resting: Units)
    requires UnitsOk(mid) && Get(mid, u).trigger.None? && StageTable(staged) && InStage(staged, JobConf(u, Stop))
    requires Committed(mid, staged, active, resting)
    ensures u in resting && UnitInv(resting[u]) && Stop in resting[u].suspends && resting[u].trigger.None?
  {
    GetInv(mid, u);
    StopIsKept(Get(mid, u), Theirs(staged, u), u in active);
  }

  lemma StopIsKept(s: UnitState, theirs: map<JobKind, Job>, active: bool)
    requires UnitInv(s) && StageOk(s.unit, theirs) && Stop in theirs
    ensures var e := CommitUnit(s, theirs, active);
            UnitInv(e) && Stop in e.suspends && e.trigger == s.trigger
  {
    CommittedJobs(s, theirs, active);
    CommitRests(s, theirs, active);
    assert Stop in CommitUnit(s, theirs, active).suspends.Keys;
  }
}
