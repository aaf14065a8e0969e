/** `JobUnitTable` of core/bin/job/table.rs: the jobs of all units, with the ready units indexed
    by a sorted map (`tReady`) and by a vector that stands in for its missing `pop_last`. */
module UnitTable {
  import opened Wrappers
  import opened JobTypes
  import opened JobStore
  import opened UnitSpec
  import opened UnitInvariant
  import opened Mirror
  import opened TableSpec
  import opened Ordering

  ghost predicate Ascending(units: seq<UnitId>) {
    forall i, j :: 0 <= i < j < |units| ==> units[i] < units[j]
  }

  /** The index and the flags that the units keep about it agree. */
  ghost predicate IndexOk(units: Units, tReady: set<UnitId>, readys: seq<UnitId>) {
    && Keyed(units)
    && (readys == [] || tReady == {}) && Ascending(readys)
    && (forall u :: u in tReady || u in readys <==> u in units && units[u].upReady)
  }

  lemma AscendingPush(units: seq<UnitId>, u: UnitId)
    requires Ascending(units) && forall v :: v in units ==> v < u
    ensures Ascending(units + [u])
  {
    assert forall i :: 0 <= i < |units| ==> units[i] in units;
  }

  /** The last of an ascending sequence is its greatest, and not among the others. */
  lemma AscendingLast(units: seq<UnitId>)
    requires Ascending(units) && units != []
    ensures var front, last := units[..|units| - 1], units[|units| - 1];
            && Ascending(front)
            && (forall v :: v in units <==> v in front || v == last)
            && (forall v :: v in front ==> v < last)
  {
  }

  ghost predicate IsGreatest(u: UnitId, ready: set<UnitId>) {
    u in ready && forall v :: v in ready ==> v <= u
  }

  /** What a pop takes out of the ready units. */
  ghost predicate Popped(unit: Option<UnitId>, popped: Option<UnitId>, ready: set<UnitId>) {
    match unit
    case Some(u) => popped == if u in ready then Some(u) else None
    case None => if popped.Some? then IsGreatest(popped.value, ready) else ready == {}
  }

  /** A ready unit has been run, if nothing holds it back, or else paused. */
  ghost predicate TriedTo(db: UnitDb, units: Units, u: UnitId, run: bool, outcome: Outcome, units': Units) {
    && u in units && units[u].ready && HasNext(units[u]) && Triable(units[u])
    && run == Runnable(db, units, u)
    && units' == units[u := TryUnit(units[u], run, outcome)]
  }

  ghost predicate Tried(
      db: UnitDb, units: Units, rows: JobDb, u: UnitId, run: bool, outcome: Outcome, units': Units, rows': JobDb)
  {
    TriedTo(db, units, u, run, outcome, units') && rows' == TryDb(rows, units[u], run)
  }

  ghost function UpReadySet(units: Units): set<UnitId> {
    set u | u in units && units[u].upReady
  }

  ghost function ReadySet(units: Units): set<UnitId> {
    set u | u in units && units[u].ready
  }

  class JobUnitTable {
    var tData: Units
    var tReady: set<UnitId>
    var readys: seq<UnitId>
    var upReady: bool
    var sync: bool
    /** The persistent rows that the jobs write as they change. */
    var re: JobDb

    ghost predicate Indexed()
      reads this
    {
      IndexOk(tData, tReady, readys)
    }

    /** At rest: no unit is dirty, and exactly the ready units are indexed. */
    ghost predicate Live()
      reads this
    {
      sync && Indexed() && UnitsOk(tData) && re.Recording() && Mirrored(tData, re)
    }

    constructor (re: JobDb)
      ensures Indexed() && sync && tData == map[] && this.re == re
    {
      tData, tReady, readys, upReady, sync := map[], {}, [], false, true;
      this.re := re;
    }

    method Clear()
      modifies this
      ensures Indexed() && sync && tData == map[] && re == old(re)
    {
      tData, tReady, readys, upReady, sync := map[], {}, [], false, true;
    }

    // -------------------------------------------------------------- the ready index

    method ReadysBackfill()
      requires Indexed()
      modifies this`tReady, this`readys
      ensures Indexed() && readys == []
      ensures forall u :: u in tReady <==> u in old(tReady) || u in old(readys)
    {
      if readys != [] {
        var units := readys;
        readys := [];
        var i := 0;
        while i < |units|
          invariant i <= |units| && readys == []
          invariant forall u :: u in tReady <==> u in old(tReady) || u in units[..i]
        {
          assert units[..i + 1] == units[..i] + [units[i]];
          tReady := tReady + {units[i]};
          i := i + 1;
        }
        assert units[..i] == units;
      }
    }

    /** The values of the sorted map come in ascending order. */
    method ReadysFill()
      requires Indexed()
      modifies this`tReady, this`readys
      ensures Indexed() && tReady == {}
      ensures forall u :: u in readys <==> u in old(tReady) || u in old(readys)
    {
      if readys == [] {
        var rest := tReady;
        while rest != {}
          invariant Ascending(readys) && rest <= old(tReady)
          invariant forall u :: u in old(tReady) <==> u in readys || u in rest
          invariant forall u, v :: u in readys && v in rest ==> u < v
          decreases rest
        {
          var u := LeastOf(rest);
          AscendingPush(readys, u);
          readys := readys + [u];
          rest := rest - {u};
        }
        tReady := {};
      }
    }

    /** Take a ready unit out of the index: the one asked for, or else the greatest. */
    method ReadyPop(unit: Option<UnitId>) returns (popped: Option<UnitId>)
      requires Indexed()
      modifies this`tReady, this`readys, this`tData
      ensures Indexed()
      ensures Popped(unit, popped, UpReadySet(old(tData)))
      ensures tData == if popped.Some? then old(tData)[popped.value := old(tData)[popped.value].(upReady := false)]
                       else old(tData)
    {
      popped := None;
      match unit {
        case Some(u) =>
          ReadysBackfill();
          if u in tReady {
            popped := Some(u);
            tReady := tReady - {u};
          }
        case None =>
          ReadysFill();
          if readys != [] {
            var last := |readys| - 1;
            AscendingLast(readys);
            popped := Some(readys[last]);
            readys := readys[..last];
          }
      }
      if popped.Some? {
        tData := tData[popped.value := tData[popped.value].(upReady := false)];
      }
    }

    /** Put a unit into the index, or take it out, as its readiness says. */
    method ReadySync(u: UnitId)
      requires Indexed() && u in tData
      modifies this`tReady, this`readys, this`tData
      ensures Indexed() && tData == old(tData)[u := old(tData)[u].(upReady := old(tData)[u].ready)]
    {
      if tData[u].ready {
        if !tData[u].upReady {
          ReadysBackfill();
          tReady := tReady + {u};
          tData := tData[u := tData[u].(upReady := true)];
        }
      } else {
        if tData[u].upReady {
          ReadysBackfill();
          tReady := tReady - {u};
          tData := tData[u := tData[u].(upReady := false)];
        }
      }
    }

    // -------------------------------------------------------------- operations on one unit

    /** Store a unit, synchronise the index with it, and call it clean. */
    method StoreSynced(u: UnitId, s: UnitState)
      requires Indexed() && u in tData && s.unit == u && s.upReady == tData[u].upReady
      modifies this`tReady, this`readys, this`tData
      ensures Indexed() && tData == old(tData)[u := Rest(s)]
    {
      ghost var was := tData;
      var synced := s.(upReady := s.ready);
      IndexIgnoresJobs(tData, tReady, readys, u, s);
      tData := tData[u := s];
      ReadySync(u);
      StoreTwice(was, u, s, synced);
      IndexIgnoresJobs(tData, tReady, readys, u, tData[u].(dirty := false));
      tData := tData[u := tData[u].(dirty := false)];
      StoreTwice(was, u, synced, Rest(s));
    }

    method TryGcEmptyUnit(u: UnitId)
      requires Indexed() && u in tData
      requires IsEmpty(tData[u]) ==> !tData[u].ready && !tData[u].upReady
      modifies this`tReady, this`tData
      ensures Indexed() && tData == Put(old(tData), u, old(tData)[u])
    {
      if IsEmpty(tData[u]) {
        assert !tData[u].ready;
        assert !tData[u].upReady;
        tData := tData - {u};
        tReady := tReady - {u};
      }
    }

    /** Store what an operation made of a unit, with the rows it wrote. */
    method StoreLive(u: UnitId, s: UnitState, rows: JobDb)
      requires Live() && u in tData && s.upReady == tData[u].upReady
      requires s.unit == u && UnitInv(Rest(s))
      requires rows.Recording() && MirrorUnit(Rest(s), rows) && SameOutside(u, re, rows)
      modifies this`tReady, this`readys, this`tData, this`re
      ensures Live() && tData == Put(old(tData), u, Rest(s)) && re == rows
    {
      MirrorAt(tData, re, u, Rest(s), rows);
      PutOk(tData, u, Rest(s));
      EmptyIsNotReady(Rest(s));
      re := rows;
      StoreOrDrop(u, s);
    }

    method StoreOrDrop(u: UnitId, s: UnitState)
      requires Indexed() && u in tData && s.unit == u && s.upReady == tData[u].upReady
      requires IsEmpty(s) ==> !s.ready
      modifies this`tReady, this`readys, this`tData
      ensures Indexed() && tData == Put(old(tData), u, Rest(s))
    {
      StoreSynced(u, s);
      PutTwice(old(tData), u, Rest(s));
      TryGcEmptyUnit(u);
    }

    method FinishTriggerOf(u: UnitId, result: JobResult) returns (deleted: Option<Job>)
      requires Live() && u in tData && tData[u].trigger.Some?
      modifies this`tReady, this`readys, this`tData, this`re
      ensures Live()
      ensures tData == Put(old(tData), u, Rest(FinishTrigger(old(tData)[u], result)))
      ensures re == FinishDb(old(re), old(tData)[u].trigger.value, result)
      ensures deleted == var job := old(tData)[u].trigger.value;
                         if IsRetry(job, result) then None else Some(FinishJob(job, result))
    {
      var s := tData[u];
      assert !s.dirty;
      StepKeepsInv(s, Finish(result));
      assert MirrorUnit(Get(tData, u), re);
      StepMirrors(s, Finish(result), re);
      StoreLive(u, FinishTrigger(s, result), FinishDb(re, s.trigger.value, result));
      deleted := if IsRetry(s.trigger.value, result) then None else Some(FinishJob(s.trigger.value, result));
    }

    /** Take suspended jobs away from a unit; the reshuffle that follows merges nothing. */
    method RemoveSuspendsOf(u: UnitId, kinds: set<JobKind>, active: bool) returns (deleted: set<JobKind>)
      requires Live() && (u in tData ==> RemovalSafe(tData[u], kinds))
      modifies this`tReady, this`readys, this`tData, this`re
      ensures Live()
      ensures tData == if u in old(tData) then Put(old(tData), u, RemoveUnit(old(tData)[u], kinds, active)) else old(tData)
      ensures deleted == if u in old(tData) then kinds * old(tData)[u].suspends.Keys else {}
    {
      deleted := {};
      if u in tData {
        var s := tData[u];
        assert !s.dirty;
        StepKeepsInv(s, Remove(kinds, active));
        assert MirrorUnit(Get(tData, u), re);
        StepMirrors(s, Remove(kinds, active), re);
        deleted := kinds * s.suspends.Keys;
        StoreLive(u, Reshuffle(RemoveKinds(s, kinds), active), re.SuspDrop(u, deleted));
      }
    }

    method ResumeUnit(u: UnitId)
      requires Live()
      modifies this`tReady, this`readys, this`tData
      ensures Live()
      ensures tData == if u in old(tData) then old(tData)[u := ResumeEntry(old(tData)[u])] else old(tData)
    {
      if u in tData {
        var s := tData[u];
        assert !s.dirty;
        if s.pause {
          PutKeeps(tData, re, u, ResumeIt);
          StoreSynced(u, Resume(s));
        }
      }
    }

    // -------------------------------------------------------------- triggering

    /** Is the next job of `u` held back by the jobs of the units it is ordered with? */
    method IsRunnable(db: UnitDb, u: UnitId) returns (runnable: bool)
      requires u in tData && HasNext(tData[u])
      ensures runnable <==> Runnable(db, tData, u)
    {
      runnable := IsRunnableBy(db, u, After);
      if runnable {
        runnable := IsRunnableBy(db, u, Before);
      }
    }

    method IsRunnableBy(db: UnitDb, u: UnitId, atom: Atom) returns (runnable: bool)
      requires u in tData && HasNext(tData[u]) && (atom == Before || atom == After)
      ensures runnable <==> RunnableBy(db, tData, u, atom)
    {
      var others := db.DepGetsAtom(u, atom);
      var i := 0;
      while i < |others|
        invariant i <= |others|
        invariant forall j :: 0 <= j < i && others[j] in tData ==>
                    OrderedWith(NextTrigger(tData[u]), tData[others[j]], atom)
      {
        if others[i] in tData && !OrderedWith(NextTrigger(tData[u]), tData[others[i]], atom) {
          return false;
        }
        i := i + 1;
      }
      return true;
    }

    /** Pop a ready unit and run its next job, or pause the unit if it is held back. */
    method TryTriggerUnit(db: UnitDb, unit: Option<UnitId>, act: UnitId -> Outcome)
        returns (popped: Option<UnitId>, run: bool)
      requires Live()
      modifies this`tReady, this`readys, this`tData, this`re
      ensures Live()
      ensures Popped(unit, popped, ReadySet(old(tData)))
      ensures popped.None? ==> tData == old(tData) && re == old(re)
      ensures popped.Some? ==> Tried(db, old(tData), old(re), popped.value, run, act(popped.value), tData, re)
    {
      assert sync;
      ReadyIsUpReady(tData);
      popped := ReadyPop(unit);
      if popped.None? {
        return None, false;
      }
      run := TryPopped(db, old(tData), popped.value, act(popped.value));
    }

    method TryPopped(db: UnitDb, ghost units: Units, u: UnitId, outcome: Outcome) returns (run: bool)
      requires Indexed() && u in units && tData == units[u := units[u].(upReady := false)]
      requires UnitsOk(units) && units[u].ready && re.Recording() && Mirrored(units, re)
      modifies this`tData, this`re
      ensures Tried(db, units, old(re), u, run, outcome, tData, re)
      ensures Indexed() && UnitsOk(tData) && re.Recording() && Mirrored(tData, re)
    {
      PoppedMayBeTried(db, units, u);
      assert !tData[u].dirty;
      run := IsRunnable(db, u);
      TryRunnable(db, units, u, run, outcome);
    }

    method TryRunnable(db: UnitDb, ghost units: Units, u: UnitId, run: bool, outcome: Outcome)
      requires Indexed() && u in units && tData == units[u := units[u].(upReady := false)]
      requires UnitsOk(units) && units[u].ready && re.Recording() && Mirrored(units, re)
      requires HasNext(units[u]) && run == Runnable(db, units, u)
      modifies this`tData, this`re
      ensures Tried(db, units, old(re), u, run, outcome, tData, re)
      ensures Indexed() && UnitsOk(tData) && re.Recording() && Mirrored(tData, re)
    {
      ghost var now, rows := PoppedIsTried(db, units, re, u, run, outcome);
      re := TryDb(re, tData[u], run);
      StorePopped(u, TryRaw(tData[u], run, outcome));
      assert tData == now && re == rows;
    }

    /** A unit that has been popped and then run or paused is not ready: the index is in step. */
    method StorePopped(u: UnitId, s: UnitState)
      requires Indexed() && u in tData && !tData[u].upReady
      requires s.unit == u && !s.ready && !s.upReady
      modifies this`tData
      ensures Indexed() && tData == old(tData)[u := Rest(s)]
    {
      tData := tData[u := s];
      assert !tData[u].ready;
      tData := tData[u := tData[u].(dirty := false)];
      StoreTwice(old(tData), u, s, Rest(s));
    }

    // -------------------------------------------------------------- staging and committing

    /** `get_mut_uv_pad`: an absent unit is padded. */
    method Pad(u: UnitId)
      requires Indexed()
      modifies this`tData
      ensures Indexed() && tData == old(tData)[u := Get(old(tData), u)]
    {
      if u !in tData {
        tData := tData[u := NewUnit(u)];
      }
    }

    /** Put a job into a staging table: nothing is persistent before it is committed. */
    method InsertSuspended(job: Job)
      requires Indexed() && IsBasicOp(job.kind) && job.kind !in Get(tData, job.unit).suspends
      modifies this`tData, this`sync
      ensures Indexed() && !sync
      ensures tData == old(tData)[job.unit := InsertSuspend(Get(old(tData), job.unit), job)]
    {
      Pad(job.unit);
      StoreTwice(old(tData), job.unit, tData[job.unit], InsertSuspend(tData[job.unit], job));
      tData := tData[job.unit := InsertSuspend(tData[job.unit], job)];
      assert tData[job.unit].dirty;
      sync := false;
    }

    /** Put a job that was running before a crash back in its place; it is to be run again. */
    method InsertTriggered(job: Job)
      requires Indexed() && IsBasicOp(job.kind) && job.unit !in tData
      modifies this`tData, this`sync
      ensures Indexed() && !sync
      ensures tData == old(tData)[job.unit := InsertTrigger(NewUnit(job.unit), job)]
    {
      Pad(job.unit);
      StoreTwice(old(tData), job.unit, tData[job.unit], InsertTrigger(tData[job.unit], job));
      tData := tData[job.unit := InsertTrigger(tData[job.unit], job)];
      assert tData[job.unit].dirty;
      sync := false;
    }

    /** Merge the jobs of every unit of a stage. */
    method MergeFrom(other: JobUnitTable) returns (adds: set<Job>, dels: set<Job>, updates: set<Job>)
      requires Live() && other != this && StageTable(other.tData)
      requires forall u :: u in other.tData ==> NotTrigger(Get(tData, u).trigger, other.tData[u].suspends)
      modifies this`tData, this`re, this`sync
      ensures Indexed() && !sync && re.Recording() && Mirrored(tData, re)
      ensures MergedUpTo(old(tData), other.tData, other.tData.Keys, tData)
      ensures MergeReport(old(tData), other.tData, other.tData.Keys, adds, updates, dels)
    {
      NothingMergedYet(tData, other.tData);
      adds, dels, updates := MergeAll(other.tData);
      sync := false;
    }

    method MergeAll(stage: Units) returns (adds: set<Job>, dels: set<Job>, updates: set<Job>)
      requires UnitsOk(tData) && StageTable(stage) && MergedSoFar(tData, stage, {}, {}, {}, {})
      requires forall u :: u in stage ==> NotTrigger(Get(tData, u).trigger, stage[u].suspends)
      modifies this`tData, this`re
      ensures MergedSoFar(old(tData), stage, stage.Keys, adds, updates, dels)
    {
      var rest := stage.Keys;
      ghost var done := {};
      adds, dels, updates := {}, {}, {};
      while rest != {}
        invariant forall u :: u in stage <==> (u in rest) != (u in done)
        invariant MergedSoFar(old(tData), stage, done, adds, updates, dels)
        decreases rest
      {
        var u :| u in rest;
        adds, dels, updates := MergeNext(u, stage[u].suspends, old(tData), stage, done, adds, dels, updates);
        rest, done := rest - {u}, done + {u};
      }
      assert done == stage.Keys;
    }

    /** The units of `done` have been merged and reported. */
    ghost predicate MergedSoFar(
        units: Units, stage: Units, done: set<UnitId>, adds: set<Job>, updates: set<Job>, dels: set<Job>)
      reads this
    {
      && Indexed() && re.Recording() && Mirrored(tData, re)
      && MergedUpTo(units, stage, done, tData) && MergeReport(units, stage, done, adds, updates, dels)
    }

    method MergeNext(
        u: UnitId, theirs: map<JobKind, Job>, ghost units: Units, ghost stage: Units, ghost done: set<UnitId>,
        adds: set<Job>, dels: set<Job>, updates: set<Job>)
        returns (adds': set<Job>, dels': set<Job>, updates': set<Job>)
      requires MergedSoFar(units, stage, done, adds, updates, dels) && UnitsOk(units) && StageTable(stage)
      requires u in stage && theirs == stage[u].suspends && u !in done && NotTrigger(Get(units, u).trigger, theirs)
      modifies this`tData, this`re
      ensures MergedSoFar(units, stage, done + {u}, adds', updates', dels')
    {
      MergeReportGrows(units, stage, done, adds, updates, dels, u);
      FitToBeAdded(units, u, theirs);
      var more, gone, changed := MergeUnit(u, theirs, units, stage, done);
      return adds + more, dels + gone, updates + changed;
    }

    method MergeUnit(
        u: UnitId, theirs: map<JobKind, Job>, ghost units: Units, ghost stage: Units, ghost done: set<UnitId>)
        returns (adds: set<Job>, dels: set<Job>, updates: set<Job>)
      requires Indexed() && re.Recording() && Mirrored(tData, re) && UnitsOk(units)
      requires u in stage && theirs == stage[u].suspends && StageOk(u, theirs) && u !in done
      requires NotTrigger(Get(units, u).trigger, theirs)
      requires MergedUpTo(units, stage, done, tData)
      modifies this`tData, this`re
      ensures Indexed() && re.Recording() && Mirrored(tData, re)
      ensures MergedUpTo(units, stage, done + {u}, tData)
      ensures var s := Get(units, u);
              adds == AddsOf(s, theirs) && dels == FlushesOf(s, theirs) && updates == UpdatesOf(s, theirs)
    {
      MergeOneKeeps(units, stage, done, tData, re, u);
      var s := Get(tData, u);
      IndexIgnoresJobs(tData, tReady, readys, u, MergeSuspends(s, theirs));
      adds, dels, updates := AddsOf(s, theirs), FlushesOf(s, theirs), UpdatesOf(s, theirs);
      re := MergeDb(re, s, theirs);
      tData := tData[u := MergeSuspends(s, theirs)];
    }

    /** Bring every dirty unit to rest, and drop the units that have no jobs left. */
    method ReshuffleUnits(active: set<UnitId>) returns (merged: set<Job>)
      requires Indexed() && re.Recording() && Mirrored(tData, re)
      requires forall u :: u in tData ==> MayReshuffle(tData[u], u in active)
      modifies this
      ensures Live()
      ensures ReshuffledUpTo(old(tData), active, old(tData.Keys), tData)
      ensures ReshuffleReport(old(tData), active, old(tData.Keys), merged)
    {
      var rest := tData.Keys;
      ghost var done := {};
      merged := {};
      while rest != {}
        invariant forall u :: u in old(tData) <==> (u in rest) != (u in done)
        invariant Indexed() && re.Recording() && Mirrored(tData, re)
        invariant ReshuffledUpTo(old(tData), active, done, tData)
        invariant ReshuffleReport(old(tData), active, done, merged)
        decreases rest
      {
        var u :| u in rest;
        MergesOneMore(old(tData), active, done, merged, u);
        var gone := ReshuffleUnit(u, old(tData), active, done);
        merged := merged + gone;
        rest, done := rest - {u}, done + {u};
      }
      assert done == old(tData.Keys);
      sync := true;
    }

    method ReshuffleUnit(u: UnitId, ghost units: Units, active: set<UnitId>, ghost done: set<UnitId>)
        returns (merged: set<Job>)
      requires Indexed() && re.Recording() && Mirrored(tData, re)
      requires u in units && u !in done && MayReshuffle(units[u], u in active)
      requires ReshuffledUpTo(units, active, done, tData)
      modifies this`tReady, this`readys, this`tData, this`re
      ensures Indexed() && re.Recording() && Mirrored(tData, re)
      ensures ReshuffledUpTo(units, active, done + {u}, tData) && merged == MergesOf(units[u], u in active)
    {
      ReshuffleOneKeeps(units, active, done, tData, re, u);
      merged := MergesOf(tData[u], u in active);
      ReshuffleStored(u, active);
    }

    method ReshuffleStored(u: UnitId, active: set<UnitId>)
      requires Indexed() && u in tData && tData[u].unit == u
      requires var e := ReshuffleEntry(tData[u], u in active); IsEmpty(e) ==> !e.ready && !e.upReady
      requires tData[u].dirty ==> Reshuffle(tData[u], u in active).upReady == tData[u].upReady
      modifies this`tReady, this`readys, this`tData, this`re
      ensures Indexed()
      ensures tData == Put(old(tData), u, ReshuffleEntry(old(tData)[u], u in active))
      ensures re == if old(tData)[u].dirty then ReshuffleDb(old(re), old(tData)[u], u in active) else old(re)
    {
      var s := tData[u];
      if s.dirty {
        re := ReshuffleDb(re, s, u in active);
        StoreOrDrop(u, Reshuffle(s, u in active));
        return;
      }
      TryGcEmptyUnit(u);
    }

    /** `calc_ready`: is there anything to dispatch? */
    method CalcReadyNow() returns (ready: bool)
      requires Indexed()
      ensures ready <==> sync && exists u :: u in tData && tData[u].upReady
    {
      ready := sync && !(tReady == {} && readys == []);
      if tReady != {} {
        var u :| u in tReady;
      } else if readys != [] {
        assert readys[0] in readys;
      }
    }
  }

  lemma ReadyIsUpReady(units: Units)
    requires UnitsOk(units)
    ensures ReadySet(units) == UpReadySet(units)
  {
  }

  lemma PoppedMayBeTried(db: UnitDb, units: Units, u: UnitId)
    requires UnitsOk(units) && u in units && units[u].ready
    ensures var popped := units[u := units[u].(upReady := false)];
            && HasNext(units[u]) && HasNext(popped[u]) && !popped[u].dirty
            && (Runnable(db, popped, u) <==> Runnable(db, units, u))
  {
    NextOk(units[u]);
    RunnableSame(db, units, u);
  }

  lemma PoppedIsTried(db: UnitDb, units: Units, rows: JobDb, u: UnitId, run: bool, outcome: Outcome)
      returns (units': Units, rows': JobDb)
    requires UnitsOk(units) && u in units && units[u].ready && rows.Recording() && Mirrored(units, rows)
    requires HasNext(units[u]) && run == Runnable(db, units, u)
    ensures var now := units[u].(upReady := false);
            && Triable(now) && !TryRaw(now, run, outcome).ready && !TryRaw(now, run, outcome).upReady
            && TryRaw(now, run, outcome).unit == u
            && units' == units[u := now][u := TryUnit(now, run, outcome)] && rows' == TryDb(rows, now, run)
    ensures Tried(db, units, rows, u, run, outcome, units', rows')
    ensures UnitsOk(units') && rows'.Recording() && Mirrored(units', rows')
  {
    var s := units[u];
    TryKeeps(units, rows, u, run, outcome);
    TryUnitRests(s, run, outcome);
    TrySame(s, run, outcome, rows);
    StoreTwice(units, u, s.(upReady := false), TryUnit(s, run, outcome));
    units', rows' := units[u := TryUnit(s, run, outcome)], TryDb(rows, s, run);
  }

  /** The assertions of `insert_suspend` hold of every job that is added. */
  lemma FitToBeAdded(units: Units, u: UnitId, theirs: map<JobKind, Job>)
    requires UnitsOk(units) && StageOk(u, theirs) && NotTrigger(Get(units, u).trigger, theirs)
    ensures var s := Get(units, u);
            forall k :: k in theirs && k !in Kept(s, theirs) ==> MayBeAdded(s.trigger, theirs[k])
  {
    GetInv(units, u);
    AddedAreFit(Get(units, u), theirs);
  }

  lemma NothingMergedYet(units: Units, stage: Units)
    ensures MergedUpTo(units, stage, {}, units) && MergeReport(units, stage, {}, {}, {}, {})
  {
  }

  lemma MergedOneMore(units: Units, stage: Units, done: set<UnitId>, now: Units, u: UnitId)
    requires MergedUpTo(units, stage, done, now) && u !in done
    ensures Get(now, u) == Get(units, u)
    ensures MergedUpTo(units, stage, done + {u}, now[u := MergeSuspends(Get(units, u), Theirs(stage, u))])
  {
  }

  lemma MergeReportGrows(
      units: Units, stage: Units, done: set<UnitId>, adds: set<Job>, updates: set<Job>, dels: set<Job>, u: UnitId)
    requires MergeReport(units, stage, done, adds, updates, dels) && u !in done
    requires UnitsOk(units) && u in stage && StageTable(stage)
    ensures var s, theirs := Get(units, u), stage[u].suspends;
            MergeReport(units, stage, done + {u},
                        adds + AddsOf(s, theirs), updates + UpdatesOf(s, theirs), dels + FlushesOf(s, theirs))
  {
    GetInv(units, u);
    ReportOneMore(units, stage, done, adds, updates, dels, u);
  }

  lemma MergeOneKeeps(units: Units, stage: Units, done: set<UnitId>, now: Units, rows: JobDb, u: UnitId)
    requires Keyed(now) && rows.Recording() && Mirrored(now, rows) && UnitsOk(units)
    requires u in stage && StageOk(u, stage[u].suspends) && u !in done && MergedUpTo(units, stage, done, now)
    ensures var s := Get(now, u);
            var m := MergeSuspends(s, stage[u].suspends);
            var rows' := MergeDb(rows, s, stage[u].suspends);
            && m.unit == u && m.upReady == s.upReady && rows'.Recording() && Mirrored(now[u := m], rows')
            && MergedUpTo(units, stage, done + {u}, now[u := m]) && s == Get(units, u)
  {
    MergedOneMore(units, stage, done, now, u);
    GetInv(units, u);
    var s := Get(now, u);
    assert MirrorUnit(s, rows);
    MergeKeeps(s, stage[u].suspends, true, rows);
    MirrorAt(now, rows, u, MergeSuspends(s, stage[u].suspends), MergeDb(rows, s, stage[u].suspends));
  }

  lemma IndexIgnoresJobs(units: Units, tReady: set<UnitId>, readys: seq<UnitId>, u: UnitId, s: UnitState)
    requires IndexOk(units, tReady, readys) && s.unit == u && s.upReady == Get(units, u).upReady
    ensures IndexOk(units[u := s], tReady, readys)
  {
  }

  lemma ReshuffleKeeps(s: UnitState, active: bool, rows: JobDb)
    requires rows.Recording()
    ensures ReshuffleEntry(s, active).unit == s.unit
    ensures MirrorUnit(s, rows) ==>
              var rows' := if s.dirty then ReshuffleDb(rows, s, active) else rows;
              && MirrorUnit(ReshuffleEntry(s, active), rows') && SameOutside(s.unit, rows, rows')
  {
    if MirrorUnit(s, rows) && s.dirty {
      ReshuffleMirrors(s, active, rows);
      SameJobsMirror(Reshuffle(s, active), ReshuffleEntry(s, active), ReshuffleDb(rows, s, active));
    }
  }

  lemma ReshuffleOneKeeps(
      units: Units, active: set<UnitId>, done: set<UnitId>, now: Units, rows: JobDb, u: UnitId)
    requires Keyed(now) && rows.Recording() && Mirrored(now, rows)
    requires u in units && u !in done && MayReshuffle(units[u], u in active) && ReshuffledUpTo(units, active, done, now)
    ensures u in now && now[u] == units[u]
    ensures var e := ReshuffleEntry(now[u], u in active);
            var rows' := if now[u].dirty then ReshuffleDb(rows, now[u], u in active) else rows;
            && rows'.Recording() && Mirrored(Put(now, u, e), rows')
            && ReshuffledUpTo(units, active, done + {u}, Put(now, u, e)) && (IsEmpty(e) ==> !e.ready && !e.upReady)
  {
    var e := ReshuffleEntry(now[u], u in active);
    ReshuffleKeeps(now[u], u in active, rows);
    assert MirrorUnit(Get(now, u), rows);
    MirrorAt(now, rows, u, e, if now[u].dirty then ReshuffleDb(rows, now[u], u in active) else rows);
    EmptyIsNotReady(e);
  }

  lemma EmptyIsNotReady(s: UnitState)
    requires UnitInv(s)
    ensures IsEmpty(s) ==> !s.ready
  {
  }

  method LeastOf(units: set<UnitId>) returns (least: UnitId)
    requires units != {}
    ensures least in units && forall u :: u in units ==> least <= u
  {
    least :| least in units;
    var rest := units - {least};
    while rest != {}
      invariant rest <= units && least in units
      invariant forall u :: u in units && u !in rest ==> least <= u
    {
      var u :| u in rest;
      if u < least {
        least := u;
      }
      rest := rest - {u};
    }
  }
}
