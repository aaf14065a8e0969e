/** What the manager does, as events of the job table: every round of a run, every notice and
    every request is a sequence of them. So what holds of the events holds of whole runs: which
    of them leave somebody asleep in vain, and whose turn is bound to come. */
module Rounds {
  import opened Wrappers
  import opened JobTypes
  import opened UnitSpec
  import opened UnitInvariant
  import opened TableSpec
  import opened Ordering
  import opened TableIds
  import opened JobTables
  import opened Transaction
  import opened Fallback
  import opened Progress
  import opened Runs
  import opened Managers
  import opened Waking

  // ---------------------------------------------------------------- sequences of events

  ghost function StepBy(db: UnitDb, allowed: TableEvent -> bool): (Units, TableEvent, Units) -> bool {
    (units: Units, e: TableEvent, now: Units) => TableStep(db, units, e, now) && allowed(e)
  }

  ghost predicate IsWalkOf(db: UnitDb, trace: seq<Units>, events: seq<TableEvent>, allowed: TableEvent -> bool) {
    Led(StepBy(db, allowed), trace, events) && UnitsOk(trace[0])
  }

  lemma NthStep(db: UnitDb, trace: seq<Units>, events: seq<TableEvent>, allowed: TableEvent -> bool, i: nat)
    requires IsWalkOf(db, trace, events, allowed) && i < |events|
    ensures TableStep(db, trace[i], events[i], trace[i + 1]) && allowed(events[i])
  {
    LedAt(StepBy(db, allowed), trace, events, i);
  }

  /** Some events of the allowed kind lead from one table to the other. */
  ghost predicate LeadsTo(db: UnitDb, units: Units, allowed: TableEvent -> bool, now: Units) {
    UnitsOk(units) && Reach(StepBy(db, allowed), units, now)
  }

  lemma WalkTo(db: UnitDb, units: Units, allowed: TableEvent -> bool, now: Units)
      returns (trace: seq<Units>, events: seq<TableEvent>)
    requires LeadsTo(db, units, allowed, now)
    ensures IsWalkOf(db, trace, events, allowed) && trace[0] == units && trace[|events|] == now
  {
    trace, events := ReachBy(StepBy(db, allowed), units, now);
  }

  lemma LeadsNowhere(db: UnitDb, units: Units, allowed: TableEvent -> bool)
    requires UnitsOk(units)
    ensures LeadsTo(db, units, allowed, units)
  {
    ReachItself(StepBy(db, allowed), units);
  }

  lemma LeadsOne(db: UnitDb, units: Units, e: TableEvent, allowed: TableEvent -> bool, now: Units)
    requires UnitsOk(units) && TableStep(db, units, e, now) && allowed(e)
    ensures LeadsTo(db, units, allowed, now)
  {
    ReachNext(StepBy(db, allowed), units, e, now);
  }

  lemma LeadsOn(db: UnitDb, units: Units, mid: Units, allowed: TableEvent -> bool, now: Units)
    requires LeadsTo(db, units, allowed, mid) && LeadsTo(db, mid, allowed, now)
    ensures LeadsTo(db, units, allowed, now)
  {
    ReachOn(StepBy(db, allowed), units, mid, now);
  }

  lemma {:induction false} WalkRests(
      db: UnitDb, trace: seq<Units>, events: seq<TableEvent>, allowed: TableEvent -> bool, n: nat)
    requires IsWalkOf(db, trace, events, allowed) && n <= |events|
    ensures UnitsOk(trace[n])
  {
    if n > 0 {
      WalkRests(db, trace, events, allowed, n - 1);
      NthRests(db, trace, events, allowed, n - 1);
    }
  }

  lemma NthRests(db: UnitDb, trace: seq<Units>, events: seq<TableEvent>, allowed: TableEvent -> bool, i: nat)
    requires IsWalkOf(db, trace, events, allowed) && i < |events| && UnitsOk(trace[i])
    ensures UnitsOk(trace[i + 1])
  {
    NthStep(db, trace, events, allowed, i);
    TableStepRests(db, trace[i], events[i], trace[i + 1]);
  }

  lemma LeadsRest(db: UnitDb, units: Units, allowed: TableEvent -> bool, now: Units)
    requires LeadsTo(db, units, allowed, now)
    ensures UnitsOk(now)
  {
    var trace, events := WalkTo(db, units, allowed, now);
    WalkRests(db, trace, events, allowed, |events|);
  }

  // ---------------------------------------------------------------- the events of a round

  /** The end of a job of `u`, or of the unit that a notice is about: it strips those that a
      failure takes along, and commits a transaction only in place of a job that stands in for
      another. */
  predicate EndEvent(u: UnitId, notice: Option<Notice>, commits: bool, e: TableEvent) {
    match e
    case Tries(_, _, _) => false
    case Ends(v, _) => v == u || (notice.Some? && v == notice.value.unit)
    case Removes(_, kinds, result) => kinds == FALLEN_KINDS && result == Dependency
    case Commits(_, _) => commits
    case Wakes(v) => notice.Some? && v == notice.value.unit
  }

  function EndEvents(u: UnitId, notice: Option<Notice>, commits: bool): TableEvent -> bool {
    (e: TableEvent) => EndEvent(u, notice, commits, e)
  }

  /** A round tries a unit first. */
  function RoundEvents(u: UnitId, notice: Option<Notice>, commits: bool): TableEvent -> bool {
    (e: TableEvent) => (e.Tries? && e.u == u) || EndEvent(u, notice, commits, e)
  }

  lemma LeadsWider(
      db: UnitDb, units: Units, allowed: TableEvent -> bool, wider: TableEvent -> bool, now: Units)
    requires LeadsTo(db, units, allowed, now) && forall e :: allowed(e) ==> wider(e)
    ensures LeadsTo(db, units, wider, now)
  {
    var trace, events := WalkTo(db, units, allowed, now);
    forall i: int | Nth(i) && 0 <= i < |events|
      ensures StepBy(db, wider)(trace[i], events[i], trace[i + 1])
    {
      LedAt(StepBy(db, allowed), trace, events, i);
    }
    assert Led(StepBy(db, wider), trace, events);
  }

  lemma {:induction false} StripsLead(
      db: UnitDb, trace: seq<Units>, us: seq<UnitId>, u: UnitId, notice: Option<Notice>, commits: bool, n: nat)
    requires StripSteps(db, trace, us, Dependency) && UnitsOk(trace[0]) && n <= |us|
    ensures LeadsTo(db, trace[0], EndEvents(u, notice, commits), trace[n])
  {
    if n == 0 {
      LeadsNowhere(db, trace[0], EndEvents(u, notice, commits));
      return;
    }
    StripsLead(db, trace, us, u, notice, commits, n - 1);
    LeadsRest(db, trace[0], EndEvents(u, notice, commits), trace[n - 1]);
    NthIsStripped(db, trace, us, Dependency, n - 1);
    StripLeads(db, trace[n - 1], us[n - 1], u, notice, commits, trace[n]);
    LeadsOn(db, trace[0], trace[n - 1], EndEvents(u, notice, commits), trace[n]);
  }

  lemma StripLeads(
      db: UnitDb, units: Units, v: UnitId, u: UnitId, notice: Option<Notice>, commits: bool, now: Units)
    requires UnitsOk(units) && StripStep(db, units, v, Dependency, now)
    ensures LeadsTo(db, units, EndEvents(u, notice, commits), now)
  {
    StripIsRemoval(db, units, v, now);
    LeadsOne(db, units, Removes(v, FALLEN_KINDS, Dependency), EndEvents(u, notice, commits), now);
  }

  lemma StripIsRemoval(db: UnitDb, units: Units, v: UnitId, now: Units)
    requires UnitsOk(units) && StripStep(db, units, v, Dependency, now)
    ensures TableStep(db, units, Removes(v, FALLEN_KINDS, Dependency), now)
  {
    if v in units {
      FallingIsSafe(units[v]);
    }
  }

  lemma FollowedLeads(
      db: UnitDb, units: Units, info: Job, hit: set<UnitId>, u: UnitId, notice: Option<Notice>, commits: bool, now: Units)
    requires UnitsOk(units) && Followed(db, units, info, hit, now) && (info.attr.noRelevancy ==> commits)
    ensures LeadsTo(db, units, EndEvents(u, notice, commits), now)
  {
    if info.attr.noRelevancy {
      var staged, resting :| StoppedInstead(db, units, info.unit, staged, resting, now);
      StoppedLeads(db, units, info.unit, staged, resting, u, notice, now);
    } else {
      var trace, us := ReachBy(StripBy(db, Dependency), units, now);
      StripsLead(db, trace, us, u, notice, commits, |us|);
    }
  }

  lemma StoppedLeads(
      db: UnitDb, units: Units, v: UnitId, staged: Units, resting: Units, u: UnitId, notice: Option<Notice>, now: Units)
    requires UnitsOk(units) && StoppedInstead(db, units, v, staged, resting, now)
    ensures LeadsTo(db, units, EndEvents(u, notice, true), now)
  {
    if Refused(staged, units, Replace) {
      LeadsNowhere(db, units, EndEvents(u, notice, true));
    } else {
      RequestIsOneEvent(db, units, staged, resting, now);
      LeadsOne(db, units, Commits(staged, resting), EndEvents(u, notice, true), now);
    }
  }

  /** An accepted request is one event. */
  lemma RequestIsOneEvent(db: UnitDb, units: Units, staged: Units, resting: Units, now: Units)
    requires StageTable(staged) && Committed(units, staged, db.active, resting)
    requires Resumed(resting, AllNeighbours(db, FlushedOf(units, staged)), now)
    ensures TableStep(db, units, Commits(staged, resting), now)
  {
  }

  lemma EndedLeads(
      db: UnitDb, units: Units, info: Job, result: JobResult, mid: Units, hit: set<UnitId>,
      u: UnitId, notice: Option<Notice>, commits: bool, now: Units)
    requires UnitsOk(units) && EndedAs(db, units, info, result, mid, hit, now) && !units[info.unit].pause
    requires info.attr.noRelevancy ==> commits
    requires info.unit == u || (notice.Some? && info.unit == notice.value.unit)
    ensures LeadsTo(db, units, EndEvents(u, notice, commits), now)
  {
    var allowed := EndEvents(u, notice, commits);
    assert TableStep(db, units, Ends(info.unit, result), mid);
    LeadsOne(db, units, Ends(info.unit, result), allowed, mid);
    if result != Done {
      TableStepRests(db, units, Ends(info.unit, result), mid);
      FollowedLeads(db, mid, info, hit, u, notice, commits, now);
      LeadsOn(db, units, mid, allowed, now);
    }
  }

  lemma FinishLeads(
      db: UnitDb, units: Units, n: Notice, mid: Units, hit: set<UnitId>, u: UnitId, commits: bool, now: Units)
    requires UnitsOk(units) && MayFinish(units, n) && FinishedAs(db, units, n, mid, hit, now)
    requires Irrelevant(Get(units, n.unit)) ==> commits
    ensures LeadsTo(db, units, EndEvents(u, Some(n), commits), now)
  {
    var s, allowed := Get(units, n.unit), EndEvents(u, Some(n), commits);
    if Suggested(units, n).Some? {
      TriggersUnit(units, n.unit);
      EndedLeads(db, units, s.trigger.value, Suggested(units, n).value, mid, hit, u, Some(n), commits, now);
    } else if s.trigger.Some? && s.pause {
      LeadsOne(db, units, Wakes(n.unit), allowed, now);
    } else {
      NobodyResumed(units, now);
      LeadsNowhere(db, units, allowed);
    }
  }

  lemma TriggersUnit(units: Units, u: UnitId)
    requires UnitsOk(units)
    ensures u in units && units[u].trigger.Some? ==> units[u].trigger.value.unit == u
  {
  }

  lemma NoticeLeads(db: UnitDb, units: Units, notice: Option<Notice>, u: UnitId, commits: bool, now: Units)
    requires UnitsOk(units) && Noticed(db, units, notice, now) && (commits || Relevant(units))
    ensures LeadsTo(db, units, EndEvents(u, notice, commits), now)
  {
    if notice.None? {
      LeadsNowhere(db, units, EndEvents(u, notice, commits));
      return;
    }
    var mid, hit := NoticedAs(db, units, notice, now);
    RelevantTrigger(units, notice.value.unit);
    FinishLeads(db, units, notice.value, mid, hit, u, commits, now);
    assert Some(notice.value) == notice;
  }

  lemma NoticedAs(db: UnitDb, units: Units, notice: Option<Notice>, now: Units) returns (mid: Units, hit: set<UnitId>)
    requires Noticed(db, units, notice, now) && notice.Some?
    ensures MayFinish(units, notice.value) && FinishedAs(db, units, notice.value, mid, hit, now)
  {
    mid, hit :| FinishedAs(db, units, notice.value, mid, hit, now);
  }

  lemma RelevantTrigger(units: Units, u: UnitId)
    ensures Relevant(units) ==> !Irrelevant(Get(units, u))
  {
  }

  lemma ResultLeads(
      db: UnitDb, units: Units, info: Job, result: Option<JobResult>, notice: Option<Notice>, commits: bool, now: Units)
    requires UnitsOk(units) && Resulted(db, units, info, result, now) && (info.attr.noRelevancy ==> commits)
    requires result.Some? && StillThere(units, info) ==> !units[info.unit].pause
    ensures LeadsTo(db, units, EndEvents(info.unit, notice, commits), now)
  {
    if result.Some? && StillThere(units, info) {
      var mid, hit :| EndedAs(db, units, info, result.value, mid, hit, now);
      EndedLeads(db, units, info, result.value, mid, hit, info.unit, notice, commits, now);
    } else {
      LeadsNowhere(db, units, EndEvents(info.unit, notice, commits));
    }
  }

  /** Without a try, nobody is paused who was not before. */
  lemma {:induction false} NobodyPaused(
      db: UnitDb, trace: seq<Units>, events: seq<TableEvent>, allowed: TableEvent -> bool, n: nat, w: UnitId)
    requires IsWalkOf(db, trace, events, allowed) && n <= |events| && forall e :: allowed(e) ==> !e.Tries?
    requires w in trace[n] && trace[n][w].pause
    ensures w in trace[0] && trace[0][w].pause
  {
    if n > 0 {
      WalkRests(db, trace, events, allowed, n - 1);
      NthStep(db, trace, events, allowed, n - 1);
      OnlyTriesPause(db, trace[n - 1], events[n - 1], trace[n], w);
      NobodyPaused(db, trace, events, allowed, n - 1, w);
    }
  }

  lemma LeadsUnpaused(
      db: UnitDb, units: Units, u: UnitId, notice: Option<Notice>, commits: bool, now: Units, w: UnitId)
    requires LeadsTo(db, units, EndEvents(u, notice, commits), now)
    ensures w in now && now[w].pause ==> w in units && units[w].pause
  {
    var allowed := EndEvents(u, notice, commits);
    var trace, events := WalkTo(db, units, allowed, now);
    if w in now && now[w].pause {
      NobodyPaused(db, trace, events, allowed, |events|, w);
    }
  }

  /** A round is a sequence of events; it commits nothing if no job stands in for another. */
  lemma RoundLeads(
      db: UnitDb, units: Units, u: UnitId, action: Action, noticed: Units, commits: bool, now: Units)
    requires UnitsOk(units) && u in units && units[u].ready && HasNext(units[u]) && Triable(units[u])
    requires RoundOf(db, units, u, Runnable(db, units, u), action, noticed, now) && (commits || Relevant(units))
    ensures LeadsTo(db, units, RoundEvents(u, action.notice, commits), now)
  {
    var run := Runnable(db, units, u);
    var tried := units[u := TryUnit(units[u], run, action.outcome)];
    var e := Tries(u, run, action.outcome);
    assert TableStep(db, units, e, tried);
    LeadsOne(db, units, e, RoundEvents(u, action.notice, commits), tried);
    if run {
      TableStepRests(db, units, e, tried);
      EndsLead(db, units, u, action, noticed, commits, now);
      LeadsWider(db, tried, EndEvents(u, action.notice, commits), RoundEvents(u, action.notice, commits), now);
      LeadsOn(db, units, tried, RoundEvents(u, action.notice, commits), now);
    }
  }

  lemma EndsLead(
      db: UnitDb, units: Units, u: UnitId, action: Action, noticed: Units, commits: bool, now: Units)
    requires UnitsOk(units) && u in units && units[u].ready && Triable(units[u])
    requires RoundOf(db, units, u, true, action, noticed, now) && (commits || Relevant(units))
    ensures LeadsTo(db, units[u := TryUnit(units[u], true, action.outcome)], EndEvents(u, action.notice, commits), now)
  {
    var tried := units[u := TryUnit(units[u], true, action.outcome)];
    var info, allowed := NextState(units[u]).trigger.value, EndEvents(u, action.notice, commits);
    var result := if action.outcome.Ended? then Some(action.outcome.result) else None;
    TriedRests(db, units, u, action.outcome);
    NoticeLeads(db, tried, action.notice, u, commits, noticed);
    LeadsRest(db, tried, allowed, noticed);
    LeadsUnpaused(db, tried, u, action.notice, commits, noticed, u);
    NextIsRelevant(units, u);
    ResultLeads(db, noticed, info, result, action.notice, commits, now);
    LeadsOn(db, tried, noticed, allowed, now);
  }

  lemma TriedRests(db: UnitDb, units: Units, u: UnitId, outcome: Outcome)
    requires UnitsOk(units) && u in units && units[u].ready && Triable(units[u])
    ensures var tried := units[u := TryUnit(units[u], true, outcome)];
            && UnitsOk(tried) && (Relevant(units) ==> Relevant(tried)) && (outcome != Again ==> !tried[u].pause)
            && NextState(units[u]).trigger.value.unit == u
  {
    var tried := units[u := TryUnit(units[u], true, outcome)];
    TryUnitRests(units[u], true, outcome);
    OneChanged(units, u, tried[u]);
    TriedRoom(db, units, u, true, outcome, tried, {});
    TriedJob(units, u, outcome);
  }

  lemma NextIsRelevant(units: Units, u: UnitId)
    requires UnitsOk(units) && u in units && units[u].ready && Triable(units[u])
    ensures Relevant(units) ==> !NextState(units[u]).trigger.value.attr.noRelevancy
  {
    NextOk(units[u]);
  }

  function AllEvents(): TableEvent -> bool {
    (e: TableEvent) => true
  }

  /** A whole run is a sequence of events. */
  lemma RunLeads(
      db: UnitDb, unit: Option<UnitId>, world: World, was: Units, trace: seq<Units>, cnt: nat, now: Units)
    requires HasRun(db, unit, world, was, trace, cnt, now) && UnitsOk(was)
    ensures LeadsTo(db, was, AllEvents(), now)
  {
    LeadsNowhere(db, was, AllEvents());
    RoundsLead(db, unit, world, was, trace, cnt);
  }

  lemma {:induction false} RoundsLead(
      db: UnitDb, unit: Option<UnitId>, world: World, was: Units, trace: seq<Units>, n: nat)
    requires RunsThrough(db, unit, world, trace) && n < |trace| && LeadsTo(db, was, AllEvents(), trace[0])
    ensures LeadsTo(db, was, AllEvents(), trace[n])
  {
    if n > 0 {
      RoundsLead(db, unit, world, was, trace, n - 1);
      NextRoundLeads(db, unit, world, was, trace, n - 1);
    }
  }

  lemma NextRoundLeads(db: UnitDb, unit: Option<UnitId>, world: World, was: Units, trace: seq<Units>, n: nat)
    requires RunsThrough(db, unit, world, trace) && n + 1 < |trace| && LeadsTo(db, was, AllEvents(), trace[n])
    ensures LeadsTo(db, was, AllEvents(), trace[n + 1])
  {
    NthRoundLeads(db, unit, world, trace, n);
    LeadsOn(db, was, trace[n], AllEvents(), trace[n + 1]);
  }

  lemma RoundAt(db: UnitDb, unit: Option<UnitId>, world: World, n: nat, units: Units, now: Units)
      returns (u: UnitId, noticed: Units)
    requires IsRound(db, unit, world, n, units, now)
    ensures RoundOn(db, unit, units, u, world(n, units, u), noticed, now)
  {
    u, noticed :| RoundOn(db, unit, units, u, world(n, units, u), noticed, now);
  }

  lemma NthRoundLeads(db: UnitDb, unit: Option<UnitId>, world: World, trace: seq<Units>, n: nat)
    requires RunsThrough(db, unit, world, trace) && n + 1 < |trace|
    ensures LeadsTo(db, trace[n], AllEvents(), trace[n + 1])
  {
    assert Nth(n);
    IsRoundLeads(db, unit, world, n, trace[n], trace[n + 1]);
  }

  lemma IsRoundLeads(db: UnitDb, unit: Option<UnitId>, world: World, n: nat, units: Units, now: Units)
    requires IsRound(db, unit, world, n, units, now)
    ensures LeadsTo(db, units, AllEvents(), now)
  {
    var u, noticed := RoundAt(db, unit, world, n, units, now);
    RoundLeads(db, units, u, world(n, units, u), noticed, true, now);
    LeadsWider(db, units, RoundEvents(u, world(n, units, u).notice, true), AllEvents(), now);
  }

  // ---------------------------------------------------------------- tables in which nobody is forgotten

  /** A job that takes part in the order from first to last, and stands in for no other. */
  predicate PlainJob(j: Job) {
    && j.kind in {Start, Stop, Reload, Verify}
    && !j.attr.ignoreOrder && !j.attr.noRelevancy
  }

  predicate CalmUnit(s: UnitState) {
    (forall k :: k in s.suspends ==> PlainJob(s.suspends[k])) && (s.trigger.Some? ==> PlainJob(s.trigger.value))
  }

  /** No Restart, no Nop, and no job that ignores the order or has been put there by a recovery. */
  ghost predicate Calm(units: Units) {
    forall u :: u in units ==> CalmUnit(units[u])
  }

  /** All that a run does to such a table. */
  predicate CalmEvent(e: TableEvent) {
    !e.Commits? && (e.Removes? ==> e.kinds == FALLEN_KINDS)
  }

  function CalmEvents(): TableEvent -> bool {
    (e: TableEvent) => CalmEvent(e)
  }

  lemma CalmIsRelevant(units: Units)
    requires Calm(units)
    ensures Relevant(units)
  {
  }

  lemma CalmStep(db: UnitDb, units: Units, e: TableEvent, now: Units)
    requires UnitsOk(units) && Calm(units) && TableStep(db, units, e, now) && CalmEvent(e)
    ensures Calm(now)
  {
    match e
    case Tries(u, run, outcome) => CalmTry(units[u], run, outcome);
    case Ends(u, result) => CalmEnds(db, units, u, result, now);
    case Removes(u, kinds, result) => CalmRemoves(db, units, u, kinds, result, now);
    case Wakes(u) => CalmResumed(units, {u}, now);
  }

  lemma CalmEnds(db: UnitDb, units: Units, u: UnitId, result: JobResult, now: Units)
    requires UnitsOk(units) && Calm(units) && EndedTo(db, units, u, result, now)
    ensures Calm(now)
  {
    CalmEnd(units[u], result);
    FinishStep(units[u], result);
    var s := Rest(FinishTrigger(units[u], result));
    PutOk(units, u, s);
    CalmResumed(Put(units, u, s), if IsRetry(units[u].trigger.value, result) then {} else Neighbours(db, u), now);
  }

  lemma CalmRemoves(db: UnitDb, units: Units, u: UnitId, kinds: set<JobKind>, result: JobResult, now: Units)
    requires UnitsOk(units) && Calm(units) && RemovedTo(db, units, u, kinds, result, now)
    ensures Calm(now)
  {
    RemovedRests(db, units, u, kinds);
    CalmRemoved(db, units, u, kinds);
    CalmResumed(RemovedUnits(db, units, u, kinds), WokenByRemoval(db, units, u, kinds, result), now);
  }

  lemma CalmRemoved(db: UnitDb, units: Units, u: UnitId, kinds: set<JobKind>)
    requires UnitsOk(units) && Calm(units)
    ensures Calm(RemovedUnits(db, units, u, kinds))
  {
    if u in units {
      CalmWithout(units[u], kinds, db.IsActive(u));
      CalmPut(units, u, RemoveUnit(units[u], kinds, db.IsActive(u)));
    }
  }

  lemma CalmPut(units: Units, u: UnitId, s: UnitState)
    requires Calm(units) && CalmUnit(s)
    ensures Calm(Put(units, u, s))
  {
  }

  lemma CalmWithout(s: UnitState, kinds: set<JobKind>, active: bool)
    requires UnitInv(s) && CalmUnit(s)
    ensures CalmUnit(RemoveUnit(s, kinds, active))
  {
    RemoveLeaves(s, kinds, active);
  }

  lemma CalmTry(s: UnitState, run: bool, outcome: Outcome)
    requires UnitInv(s) && s.ready && CalmUnit(s)
    ensures Triable(s) && CalmUnit(TryUnit(s, run, outcome))
  {
    RunJobs(s, outcome);
  }

  lemma CalmEnd(s: UnitState, result: JobResult)
    requires UnitInv(s) && CalmUnit(s) && s.trigger.Some?
    ensures !IsRetry(s.trigger.value, result) && CalmUnit(Rest(FinishTrigger(s, result)))
  {
  }

  lemma CalmResumed(units: Units, others: set<UnitId>, now: Units)
    requires UnitsOk(units) && Calm(units) && Resumed(units, others, now)
    ensures Calm(now)
  {
    forall u | u in now
      ensures CalmUnit(now[u])
    {
      ResumeStep(units[u]);
    }
  }

  /** When a calm unit loses Start and Verify jobs, what is next then waits for the same units as
      what was next before. */
  lemma NextWaitsAlike(s: UnitState, active: bool)
    requires UnitInv(s) && CalmUnit(s) && RemovalSafe(s, FALLEN_KINDS)
    ensures var s' := RemoveUnit(s, FALLEN_KINDS, active);
            HasNext(s') ==>
              && HasNext(s) && Binding(NextTrigger(s)) && Binding(NextTrigger(s'))
              && (NextTrigger(s).runKind == Stop <==> NextTrigger(s').runKind == Stop)
  {
    var s' := RemoveUnit(s, FALLEN_KINDS, active);
    RemovalMergesNothing(s, FALLEN_KINDS, active);
    RemoveStep(s, FALLEN_KINDS, active);
    CalmWithout(s, FALLEN_KINDS, active);
    CalmNext(s);
    CalmNext(s');
    assert Stop in s'.suspends <==> Stop in s.suspends;
  }

  /** What is next in a calm unit. */
  lemma CalmNext(s: UnitState)
    requires UnitInv(s) && CalmUnit(s)
    ensures HasNext(s) <==>
              if s.trigger.None? then s.suspends != map[] else Stop in s.suspends || s.retrigger
    ensures HasNext(s) ==>
              && Binding(NextTrigger(s))
              && (NextTrigger(s).runKind == Stop <==>
                    Stop in s.suspends || (s.trigger.Some? && s.trigger.value.runKind == Stop))
  {
    CalmFront(s);
  }

  /** A Stop waits alone, and is what is next; anything else that waits is no Stop. */
  lemma CalmFront(s: UnitState)
    requires UnitInv(s) && CalmUnit(s)
    ensures s.sq == [] <==> s.suspends == map[]
    ensures s.sq != [] ==>
              && s.sq[0] in s.suspends && Binding(s.suspends[s.sq[0]])
              && (s.suspends[s.sq[0]].runKind == Stop <==> Stop in s.suspends)
              && (IsStopLike(s.sq[0]) <==> Stop in s.suspends)
    ensures s.trigger.Some? ==> Binding(s.trigger.value)
  {
    CanonEmpty(s.suspends.Keys);
    if s.suspends != map[] {
      assert s.suspends.Keys != {} && Nop !in s.suspends && Restart !in s.suspends;
      CanonFront(s.suspends.Keys);
      var k := s.sq[0];
      assert SuspendOk(s.unit, k, s.suspends[k]) && PlainJob(s.suspends[k]);
    }
  }

  lemma CalmForgetsNobody(db: UnitDb, units: Units, waiting: set<UnitId>, e: TableEvent, now: Units)
    requires UnitsOk(units) && Calm(units) && SleepersOk(db, units, waiting)
    requires TableStep(db, units, e, now) && CalmEvent(e)
    ensures ForgetsNobody(db, units, waiting, e)
  {
    match e
    case Tries(u, run, outcome) =>
    case Ends(u, result) => CalmEnd(units[u], result);
    case Wakes(u) =>
    case Removes(u, kinds, result) =>
      if u in units && u in waiting && units[u].pause {
        NextWaitsAlike(units[u], db.IsActive(u));
        assert SleeperOk(db, units, waiting, u);
        StripForgetsNot(db, units, u);
      }
  }

  lemma StripForgetsNot(db: UnitDb, units: Units, u: UnitId)
    requires UnitsOk(units) && u in units && units[u].pause && !InVain(db, units, u)
    requires var s' := RemoveUnit(units[u], FALLEN_KINDS, db.IsActive(u));
             HasNext(s') ==>
               && HasNext(units[u]) && Binding(NextTrigger(units[u])) && Binding(NextTrigger(s'))
               && (NextTrigger(units[u]).runKind == Stop <==> NextTrigger(s').runKind == Stop)
    ensures !RemoveForgets(db, units, u, FALLEN_KINDS, u)
  {
    var s' := RemoveUnit(units[u], FALLEN_KINDS, db.IsActive(u));
    if HasNext(s') {
      RunnableIsFree(db, units, u);
      var v :| HeldIn(db, units, u, NextTrigger(units[u]), v);
      assert HeldIn(db, units, u, NextTrigger(s'), v);
    }
  }

  /** Those who wait after the first n events. */
  function WaitingFrom(waiting: set<UnitId>, events: seq<TableEvent>, n: nat): set<UnitId>
    requires n <= |events|
  {
    if n == 0 then waiting else WaitingNext(WaitingFrom(waiting, events, n - 1), events, n - 1)
  }

  function WaitingNext(waiting: set<UnitId>, events: seq<TableEvent>, n: nat): set<UnitId>
    requires n < |events|
  {
    Waiting(waiting, events[n])
  }

  /** Those who sleep in a calm table do so rightly. */
  ghost predicate SleepsWell(db: UnitDb, units: Units) {
    exists waiting :: Quiet(db, units, waiting)
  }

  /** A calm table at rest, in which nobody sleeps in vain. */
  ghost predicate Quiet(db: UnitDb, units: Units, waiting: set<UnitId>) {
    UnitsOk(units) && Calm(units) && SleepersOk(db, units, waiting)
  }

  lemma CalmOnce(db: UnitDb, units: Units, waiting: set<UnitId>, e: TableEvent, now: Units)
    requires Acyclic(db) && AfterIsInverse(db) && UnitsOk(units) && Calm(units) && SleepersOk(db, units, waiting)
    requires TableStep(db, units, e, now) && CalmEvent(e)
    ensures UnitsOk(now) && Calm(now) && SleepersOk(db, now, Waiting(waiting, e))
  {
    CalmStep(db, units, e, now);
    CalmForgetsNobody(db, units, waiting, e, now);
    SleepersStep(db, units, waiting, e, now);
  }

  /** What each event keeps, all of them keep. */
  lemma {:induction false} WalkKeeps(
      keeps: (Units, set<UnitId>) -> bool, trace: seq<Units>, events: seq<TableEvent>, waiting: set<UnitId>, n: nat)
    requires n <= |events| && |trace| == |events| + 1 && keeps(trace[0], waiting)
    requires forall i: nat, w :: i < |events| && keeps(trace[i], w) ==> keeps(trace[i + 1], WaitingNext(w, events, i))
    ensures keeps(trace[n], WaitingFrom(waiting, events, n))
  {
    if n > 0 {
      WalkKeeps(keeps, trace, events, waiting, n - 1);
    }
  }

  lemma CalmWalk(db: UnitDb, trace: seq<Units>, events: seq<TableEvent>, waiting: set<UnitId>, n: nat)
    requires Acyclic(db) && AfterIsInverse(db) && IsWalkOf(db, trace, events, CalmEvents()) && n <= |events|
    requires Quiet(db, trace[0], waiting)
    ensures Quiet(db, trace[n], WaitingFrom(waiting, events, n))
  {
    var quiet := (units: Units, w: set<UnitId>) => Quiet(db, units, w);
    forall i: nat, w | i < |events| && quiet(trace[i], w)
      ensures quiet(trace[i + 1], WaitingNext(w, events, i))
    {
      CalmNth(db, trace, events, w, i);
    }
    WalkKeeps(quiet, trace, events, waiting, n);
  }

  lemma CalmNth(db: UnitDb, trace: seq<Units>, events: seq<TableEvent>, waiting: set<UnitId>, n: nat)
    requires n < |events| && |trace| == |events| + 1
    ensures Acyclic(db) && AfterIsInverse(db) && IsWalkOf(db, trace, events, CalmEvents()) && Quiet(db, trace[n], waiting)
            ==> Quiet(db, trace[n + 1], WaitingNext(waiting, events, n))
  {
    if Acyclic(db) && AfterIsInverse(db) && IsWalkOf(db, trace, events, CalmEvents()) && Quiet(db, trace[n], waiting) {
      NthStep(db, trace, events, CalmEvents(), n);
      CalmOnce(db, trace[n], waiting, events[n], trace[n + 1]);
    }
  }

  lemma CalmRoundLeads(
      db: UnitDb, unit: Option<UnitId>, units: Units, u: UnitId, action: Action, noticed: Units, now: Units)
    requires RoundOn(db, unit, units, u, action, noticed, now) && Calm(units)
    ensures LeadsTo(db, units, CalmEvents(), now)
  {
    CalmIsRelevant(units);
    RoundLeads(db, units, u, action, noticed, false, now);
    LeadsWider(db, units, RoundEvents(u, action.notice, false), CalmEvents(), now);
  }

  lemma CalmRound(db: UnitDb, unit: Option<UnitId>, world: World, trace: seq<Units>, n: nat)
    requires Acyclic(db) && AfterIsInverse(db) && RunsThrough(db, unit, world, trace) && n + 1 < |trace|
    requires SleepsWell(db, trace[n])
    ensures SleepsWell(db, trace[n + 1])
  {
    var waiting :| Quiet(db, trace[n], waiting);
    NthLeads(db, unit, world, trace, n);
    var _ := CalmLeads(db, trace[n], waiting, trace[n + 1]);
  }

  lemma NthLeads(db: UnitDb, unit: Option<UnitId>, world: World, trace: seq<Units>, n: nat)
    requires RunsThrough(db, unit, world, trace) && n + 1 < |trace| && Calm(trace[n])
    ensures LeadsTo(db, trace[n], CalmEvents(), trace[n + 1])
  {
    assert Nth(n);
    var u, noticed := RoundAt(db, unit, world, n, trace[n], trace[n + 1]);
    CalmRoundLeads(db, unit, trace[n], u, world(n, trace[n], u), noticed, trace[n + 1]);
  }

  lemma CalmLeads(db: UnitDb, units: Units, waiting: set<UnitId>, now: Units) returns (waiting': set<UnitId>)
    requires Acyclic(db) && AfterIsInverse(db) && LeadsTo(db, units, CalmEvents(), now)
    requires Quiet(db, units, waiting)
    ensures Quiet(db, now, waiting')
  {
    var trace, events := WalkTo(db, units, CalmEvents(), now);
    CalmWalk(db, trace, events, waiting, |events|);
    waiting' := WaitingFrom(waiting, events, |events|);
  }

  /** A run of a calm table, whatever the units report, forgets nobody: who was asleep rightly, or
      falls asleep in it, is woken as soon as nothing holds it back. */
  lemma CalmRunForgetsNobody(
      db: UnitDb, unit: Option<UnitId>, world: World, was: Units, trace: seq<Units>, cnt: nat, now: Units)
    requires Acyclic(db) && AfterIsInverse(db) && HasRun(db, unit, world, was, trace, cnt, now) && SleepsWell(db, was)
    ensures SleepsWell(db, now)
  {
    var good := (i: nat) => i < |trace| && SleepsWell(db, trace[i]);
    forall i: nat | i < cnt && good(i)
      ensures good(i + 1)
    {
      CalmRound(db, unit, world, trace, i);
    }
    UpTo(good, cnt);
  }

  /** A table that has just been filled or rebuilt. */
  lemma AwakeSleepsWell(db: UnitDb, units: Units)
    requires Awake(units) && Calm(units)
    ensures SleepsWell(db, units)
  {
    assert Quiet(db, units, {});
  }

  /** So once a run is over and no job is under way, all the work has been done. */
  lemma CalmRunDoesAll(
      db: UnitDb, world: World, was: Units, trace: seq<Units>, cnt: nat, now: Units)
    requires Acyclic(db) && AfterIsInverse(db) && HasRun(db, None, world, was, trace, cnt, now) && SleepsWell(db, was)
    requires NoneLeft(None, now) && forall u :: u in now ==> now[u].trigger.None?
    ensures now == map[]
  {
    CalmRunForgetsNobody(db, None, world, was, trace, cnt, now);
    var waiting :| Quiet(db, now, waiting);
    forall u | u in now
      ensures !Stranded(now[u])
    {
      CalmIsNotStranded(now[u]);
    }
    AllIsDone(db, now, waiting);
  }

  lemma CalmIsNotStranded(s: UnitState)
    requires UnitInv(s) && CalmUnit(s)
    ensures !Stranded(s)
  {
    assert Nop in s.suspends.Keys ==> SuspendOk(s.unit, Nop, s.suspends[Nop]);
  }

  // ---------------------------------------------------------------- triggers that are to be run again

  /** All events but a try of `v`, and the end of its job. */
  predicate SparingEvent(v: UnitId, e: TableEvent) {
    !(e.Tries? && e.u == v) && !(e.Ends? && e.u == v)
  }

  function SparingEvents(v: UnitId): TableEvent -> bool {
    (e: TableEvent) => SparingEvent(v, e)
  }

  /** A trigger that is to be run again stays so whatever happens to other units, and whatever is
      requested of its own; and where there is none, none comes up. */
  lemma StaysRearmed(db: UnitDb, units: Units, e: TableEvent, now: Units, v: UnitId, due: bool)
    requires UnitsOk(units) && TableStep(db, units, e, now) && SparingEvent(v, e)
    requires IsDue(units, v, due)
    ensures IsDue(now, v, due)
  {
    match e
    case Tries(u, run, outcome) =>
    case Ends(u, result) => EndLeavesRearmed(db, units, u, result, now, v, due);
    case Removes(u, kinds, result) =>
      RemovalLeavesRearmed(db, units, u, kinds, v, due);
      WakingLeavesRearmed(
        RemovedUnits(db, units, u, kinds), WokenByRemoval(db, units, u, kinds, result), now, v, due);
    case Commits(stage, resting) =>
      CommitLeavesRearmed(units, stage, db.active, resting, v, due);
      WakingLeavesRearmed(resting, AllNeighbours(db, FlushedOf(units, stage)), now, v, due);
    case Wakes(u) => WakingLeavesRearmed(units, {u}, now, v, due);
  }

  lemma WakingLeavesRearmed(units: Units, others: set<UnitId>, now: Units, v: UnitId, due: bool)
    requires Resumed(units, others, now) && IsDue(units, v, due)
    ensures IsDue(now, v, due)
  {
    assert v in now <==> v in units;
  }

  lemma EndLeavesRearmed(
      db: UnitDb, units: Units, u: UnitId, result: JobResult, now: Units, v: UnitId, due: bool)
    requires EndedTo(db, units, u, result, now) && u != v && IsDue(units, v, due)
    ensures IsDue(now, v, due)
  {
    var mid := Put(units, u, Rest(FinishTrigger(units[u], result)));
    WakingLeavesRearmed(mid, if IsRetry(units[u].trigger.value, result) then {} else Neighbours(db, u), now, v, due);
  }

  lemma RemovalLeavesRearmed(db: UnitDb, units: Units, u: UnitId, kinds: set<JobKind>, v: UnitId, due: bool)
    requires UnitsOk(units) && IsDue(units, v, due)
    ensures IsDue(RemovedUnits(db, units, u, kinds), v, due)
  {
    if u == v && u in units {
      RemoveLeaves(units[u], kinds, db.IsActive(u));
      RemovalMergesNothing(units[u], kinds, db.IsActive(u));
    }
  }

  lemma CommitLeavesRearmed(
      units: Units, stage: Units, active: set<UnitId>, resting: Units, v: UnitId, due: bool)
    requires UnitsOk(units) && StageTable(stage) && Committed(units, stage, active, resting) && IsDue(units, v, due)
    ensures IsDue(resting, v, due)
  {
    if v in resting {
      GetInv(units, v);
      CommitKeepsTrigger(Get(units, v), Theirs(stage, v), v in active);
    }
  }

  lemma CommitKeepsTrigger(s: UnitState, theirs: map<JobKind, Job>, active: bool)
    requires UnitInv(s) && StageOk(s.unit, theirs)
    ensures var s' := CommitUnit(s, theirs, active);
            s'.trigger == s.trigger && s'.retrigger == s.retrigger && s'.pause == s.pause
  {
    MergeLeaves(s, theirs);
    CommittedJobs(s, theirs, active);
  }

  lemma {:induction false} WalkLeavesRearmed(
      db: UnitDb, trace: seq<Units>, events: seq<TableEvent>, v: UnitId, due: bool, n: nat)
    requires IsWalkOf(db, trace, events, SparingEvents(v)) && n <= |events|
    requires IsDue(trace[0], v, due)
    ensures IsDue(trace[n], v, due)
  {
    if n > 0 {
      WalkLeavesRearmed(db, trace, events, v, due, n - 1);
      EventLeavesRearmed(db, trace, events, v, due, n - 1);
    }
  }

  lemma EventLeavesRearmed(db: UnitDb, trace: seq<Units>, events: seq<TableEvent>, v: UnitId, due: bool, n: nat)
    requires IsWalkOf(db, trace, events, SparingEvents(v)) && n < |events|
    requires IsDue(trace[n], v, due)
    ensures IsDue(trace[n + 1], v, due)
  {
    WalkRests(db, trace, events, SparingEvents(v), n);
    NthStep(db, trace, events, SparingEvents(v), n);
    StaysRearmed(db, trace[n], events[n], trace[n + 1], v, due);
  }

  lemma LeadsRearmed(db: UnitDb, units: Units, v: UnitId, due: bool, now: Units)
    requires LeadsTo(db, units, SparingEvents(v), now) && IsDue(units, v, due)
    ensures IsDue(now, v, due)
  {
    var trace, events := WalkTo(db, units, SparingEvents(v), now);
    WalkLeavesRearmed(db, trace, events, v, due, |events|);
  }

  /** While `u` is run, nobody announces a change of `v`. */
  ghost predicate Spares(world: World, u: UnitId, v: UnitId) {
    forall n, units :: world(n, units, u).notice.Some? ==> world(n, units, u).notice.value.unit != v
  }

  lemma SparingRoundLeads(
      db: UnitDb, units: Units, u: UnitId, action: Action, noticed: Units, v: UnitId, now: Units)
    requires RoundOn(db, Some(u), units, u, action, noticed, now) && u != v
    requires action.notice.Some? ==> action.notice.value.unit != v
    ensures LeadsTo(db, units, SparingEvents(v), now)
  {
    RoundLeads(db, units, u, action, noticed, true, now);
    LeadsWider(db, units, RoundEvents(u, action.notice, true), SparingEvents(v), now);
  }

  lemma SparingRound(db: UnitDb, u: UnitId, world: World, trace: seq<Units>, n: nat, v: UnitId)
    requires RunsThrough(db, Some(u), world, trace) && n + 1 < |trace| && u != v && Spares(world, u, v)
    ensures LeadsTo(db, trace[n], SparingEvents(v), trace[n + 1])
  {
    assert Nth(n);
    var u', noticed := RoundAt(db, Some(u), world, n, trace[n], trace[n + 1]);
    OnlyTheOneAskedFor(db, u, trace[n], u', world(n, trace[n], u'), noticed, trace[n + 1]);
    SparingRoundLeads(db, trace[n], u, world(n, trace[n], u), noticed, v, trace[n + 1]);
  }

  lemma OnlyTheOneAskedFor(
      db: UnitDb, u: UnitId, units: Units, u': UnitId, action: Action, noticed: Units, now: Units)
    requires RoundOn(db, Some(u), units, u', action, noticed, now)
    ensures u' == u
  {
  }

  /** Running one unit leaves a trigger of another that is to be run again as it is, if no change
      of that other unit is announced meanwhile; and it gives it none. */
  lemma RunLeavesRearmed(
      db: UnitDb, u: UnitId, world: World, was: Units, trace: seq<Units>, cnt: nat, now: Units, v: UnitId, due: bool)
    requires HasRun(db, Some(u), world, was, trace, cnt, now) && u != v && Spares(world, u, v) && IsDue(was, v, due)
    ensures IsDue(now, v, due)
  {
    var good := (i: nat) => i < |trace| && IsDue(trace[i], v, due);
    forall i: nat | i < cnt && good(i)
      ensures good(i + 1)
    {
      SparingRound(db, u, world, trace, i, v);
      LeadsRearmed(db, trace[i], v, due, trace[i + 1]);
    }
    UpTo(good, cnt);
  }
}
