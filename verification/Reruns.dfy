/** The end of a recovery (core/bin/job/manager.rs `do_compensate_last`, `do_compensate_others`):
    every trigger that was kept is run again, one unit after the other. Each time the engine
    asserts that something was triggered. */
module Reruns {
  import opened Wrappers
  import opened JobTypes
  import opened JobStore
  import opened Mirror
  import opened TableSpec
  import opened UnitTable
  import opened Managers
  import opened Rounds

  /** The units as they are met while one of them is run again. */
  type Worlds = UnitId -> World

  /** Every world is tame, and announces changes only of the unit that is run in it. */
  ghost predicate KeepToThemselves(worlds: Worlds, bound: nat) {
    forall u :: Tame(worlds(u), bound) && forall v :: v != u ==> Spares(worlds(u), u, v)
  }

  /** The triggers of these units are to be run again. */
  ghost predicate ToBeRerun(units: Units, us: set<UnitId>) {
    forall v :: v in us ==> IsDue(units, v, true)
  }

  /** Nothing has changed about which of the other units have a trigger to be run again, and which
      have none. */
  ghost predicate OthersAsDue(units: Units, us: set<UnitId>, now: Units) {
    forall v, due :: v !in us && IsDue(units, v, due) ==> IsDue(now, v, due)
  }

  lemma OthersStayDue(
      db: UnitDb, u: UnitId, worlds: Worlds, bound: nat, was: Units, trace: seq<Units>, now: Units)
    requires KeepToThemselves(worlds, bound)
    requires |trace| > 0 && HasRun(db, Some(u), worlds(u), was, trace, |trace| - 1, now)
    ensures OthersAsDue(was, {u}, now)
  {
    forall v, due | v !in {u} && IsDue(was, v, due)
      ensures IsDue(now, v, due)
    {
      assert v != u && Spares(worlds(u), u, v);
      RunLeavesRearmed(db, u, worlds(u), was, trace, |trace| - 1, now, v, due);
    }
  }

  lemma OneMoreTried(was: Units, us: set<UnitId>, rest: set<UnitId>, units: Units, u: UnitId, now: Units)
    requires u in rest && rest <= us && ToBeRerun(units, rest)
    requires OthersAsDue(was, us, units) && OthersAsDue(units, {u}, now)
    ensures ToBeRerun(now, rest - {u}) && OthersAsDue(was, us, now)
  {
    forall v, due | v !in us && IsDue(was, v, due)
      ensures IsDue(now, v, due)
    {
      assert IsDue(units, v, due);
    }
  }

  /** The units of `done` have been tried, each once. */
  ghost predicate EachOnce(tried: seq<UnitId>, done: set<UnitId>) {
    && (forall u :: u in tried <==> u in done)
    && (forall i, k :: 0 <= i < k < |tried| ==> tried[i] != tried[k])
  }

  lemma OnceMore(tried: seq<UnitId>, us: set<UnitId>, rest: set<UnitId>, u: UnitId)
    requires EachOnce(tried, us - rest) && u in rest && rest <= us
    ensures EachOnce(tried + [u], us - (rest - {u}))
  {
    assert forall i :: 0 <= i < |tried| ==> tried[i] in tried;
  }

  lemma IsReadyNow(units: Units, u: UnitId)
    requires UnitsOk(units) && IsDue(units, u, true)
    ensures u in ReadySet(units)
  {
    RearmedIsReady(units[u]);
  }

  /** The trigger of a unit is run again, and the assertion holds. */
  method TriggerAgain(m: JobManager, db: UnitDb, u: UnitId, worlds: Worlds, ghost bound: nat)
    requires m.Valid() && KeepToThemselves(worlds, bound) && HasRoom(db, m.jobs.tUnit.tData, m.ja.ids)
    requires IsDue(m.jobs.tUnit.tData, u, true)
    modifies m.jobs, m.jobs.tUnit, m.stage, m.stage.tUnit, m.ja
    ensures m.Valid() && HasRoom(db, m.jobs.tUnit.tData, m.ja.ids)
    ensures OthersAsDue(old(m.jobs.tUnit.tData), {u}, m.jobs.tUnit.tData)
  {
    ghost var units := m.jobs.tUnit.tData;
    IsReadyNow(units, u);
    ghost var trace := m.TriggerUnit(db, u, worlds(u), bound);
    OthersStayDue(db, u, worlds, bound, units, trace, m.jobs.tUnit.tData);
  }

  /** The triggers of some units are run again, in any order: none of the assertions fires, if
      nobody announces a change of another unit than the one that is run. */
  method TriggerUnits(m: JobManager, db: UnitDb, us: set<UnitId>, worlds: Worlds, ghost bound: nat)
      returns (tried: seq<UnitId>)
    requires m.Valid() && KeepToThemselves(worlds, bound) && HasRoom(db, m.jobs.tUnit.tData, m.ja.ids)
    requires ToBeRerun(m.jobs.tUnit.tData, us)
    modifies m.jobs, m.jobs.tUnit, m.stage, m.stage.tUnit, m.ja
    ensures m.Valid() && HasRoom(db, m.jobs.tUnit.tData, m.ja.ids)
    ensures EachOnce(tried, us) && OthersAsDue(old(m.jobs.tUnit.tData), us, m.jobs.tUnit.tData)
  {
    tried := [];
    var rest := us;
    ghost var was := m.jobs.tUnit.tData;
    while rest != {}
      invariant rest <= us && m.Valid() && HasRoom(db, m.jobs.tUnit.tData, m.ja.ids)
      invariant ToBeRerun(m.jobs.tUnit.tData, rest) && OthersAsDue(was, us, m.jobs.tUnit.tData)
      invariant EachOnce(tried, us - rest)
      decreases rest
    {
      var u :| u in rest;
      ghost var units := m.jobs.tUnit.tData;
      TriggerAgain(m, db, u, worlds, bound);
      OneMoreTried(was, us, rest, units, u, m.jobs.tUnit.tData);
      OnceMore(tried, us, rest, u);
      tried, rest := tried + [u], rest - {u};
    }
  }

  lemma KeysAreTriggers(units: Units, rows: JobDb)
    requires Keyed(units) && Mirrored(units, rows)
    ensures forall u :: u in rows.trigger.rows <==> HasTrigger(units, u)
  {
    forall u: UnitId
      ensures u in rows.trigger.rows <==> HasTrigger(units, u)
    {
      assert MirrorUnit(Get(units, u), rows);
    }
  }

  /** `do_compensate_others` runs all the triggers that there are rows of, but that of the last
      unit. */
  method DoCompensateOthers(m: JobManager, db: UnitDb, last: Option<UnitId>, worlds: Worlds, ghost bound: nat)
      returns (tried: seq<UnitId>)
    requires m.Valid() && KeepToThemselves(worlds, bound) && HasRoom(db, m.jobs.tUnit.tData, m.ja.ids)
    requires forall u: UnitId :: HasTrigger(m.jobs.tUnit.tData, u) && last != Some(u) ==> IsDue(m.jobs.tUnit.tData, u, true)
    modifies m.jobs, m.jobs.tUnit, m.stage, m.stage.tUnit, m.ja
    ensures m.Valid() && HasRoom(db, m.jobs.tUnit.tData, m.ja.ids)
    ensures forall u: UnitId :: u in tried <==> HasTrigger(old(m.jobs.tUnit.tData), u) && last != Some(u)
  {
    var keys := m.jobs.tUnit.re.trigger.rows.Keys;
    KeysAreTriggers(m.jobs.tUnit.tData, m.jobs.tUnit.re);
    tried := TriggerUnits(m, db, if last.Some? then keys - {last.value} else keys, worlds, bound);
  }

  /** `do_compensate_last` runs the trigger of the last unit. */
  method DoCompensateLast(m: JobManager, db: UnitDb, last: Option<UnitId>, worlds: Worlds, ghost bound: nat)
    requires m.Valid() && KeepToThemselves(worlds, bound) && HasRoom(db, m.jobs.tUnit.tData, m.ja.ids)
    requires last.Some? ==> IsDue(m.jobs.tUnit.tData, last.value, true)
    modifies m.jobs, m.jobs.tUnit, m.stage, m.stage.tUnit, m.ja
    ensures m.Valid() && HasRoom(db, m.jobs.tUnit.tData, m.ja.ids)
    ensures OthersAsDue(
              old(m.jobs.tUnit.tData), if last.Some? then {last.value} else {}, m.jobs.tUnit.tData)
  {
    if last.Some? {
      TriggerAgain(m, db, last.value, worlds, bound);
    }
  }

  /** `make_consistent`, as far as jobs go, on a table that has just been rebuilt: the last unit
      first, if the job engine was at work, and then all others. Every trigger that was kept
      gets its turn, and is ready when it does. */
  method MakeConsistent(
      m: JobManager, db: UnitDb, last: Option<UnitId>, byEngine: bool, worlds: Worlds, ghost bound: nat)
      returns (tried: seq<UnitId>)
    requires m.Valid() && KeepToThemselves(worlds, bound) && HasRoom(db, m.jobs.tUnit.tData, m.ja.ids)
    requires AllRearmed(m.jobs.tUnit.tData) && (byEngine && last.Some? ==> HasTrigger(m.jobs.tUnit.tData, last.value))
    modifies m.jobs, m.jobs.tUnit, m.stage, m.stage.tUnit, m.ja
    ensures m.Valid() && HasRoom(db, m.jobs.tUnit.tData, m.ja.ids)
    ensures forall u: UnitId :: u in tried <==> HasTrigger(old(m.jobs.tUnit.tData), u) && last != Some(u)
  {
    ghost var was := m.jobs.tUnit.tData;
    var first := if byEngine then last else None;
    DoCompensateLast(m, db, first, worlds, bound);
    StillDue(was, if first.Some? then {first.value} else {}, m.jobs.tUnit.tData);
    tried := DoCompensateOthers(m, db, last, worlds, bound);
  }

  lemma StillDue(was: Units, us: set<UnitId>, now: Units)
    requires AllRearmed(was) && OthersAsDue(was, us, now)
    ensures forall u :: u !in us ==> (HasTrigger(now, u) <==> HasTrigger(was, u))
    ensures forall u :: u !in us && HasTrigger(now, u) ==> IsDue(now, u, true)
  {
    forall u | u !in us
      ensures IsDue(now, u, HasTrigger(was, u))
    {
      assert IsDue(was, u, HasTrigger(was, u));
    }
  }
}
