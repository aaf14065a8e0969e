/** When a job fails, those that depend on it are removed (`job_trans_fallback`,
    core/bin/job/transaction.rs): an exact fixed point along the failure dependencies. */
module Fallback {
  import opened JobTypes
  import opened JobStore
  import opened UnitSpec
  import opened UnitInvariant
  import opened TableSpec
  import opened TableIds
  import opened JobTables
  import opened Graphs
  import opened Runs

  /** The kinds of jobs that a failure takes along. */
  const FALLEN_KINDS: set<JobKind> := {Start, Verify}

  predicate Hit(s: UnitState) {
    Start in s.suspends || Verify in s.suspends
  }

  ghost function HitSet(units: Units): set<UnitId> {
    set u | u in units && Hit(units[u])
  }

  /** The units next in line after a job of kind `runKind` has failed on `u`. */
  function Followers(db: UnitDb, u: UnitId, runKind: JobKind): seq<UnitId> {
    match runKind
    case Start => db.DepGetsAtom(u, PropagateStartFailure)
    case Verify => db.DepGetsAtom(u, PropagateStartFailure)
    case Stop => db.DepGetsAtom(u, PropagateStopFailure)
    case _ => []
  }

  ghost function FailEdges(db: UnitDb, all: set<UnitId>): (UnitId, UnitId) -> bool {
    (u: UnitId, v: UnitId) => v in db.DepGetsAtom(u, PropagateStartFailure) && v in all
  }

  /** A failure spreads from the first followers on through units that it hits. */
  ghost predicate Spreads(db: UnitDb, all: set<UnitId>, first: seq<UnitId>, w: UnitId) {
    exists v :: v in first && v in all && Reaches(FailEdges(db, all), v, w)
  }

  /** The units of `hit` have lost their Start and Verify jobs, and no job else has gone. */
  ghost predicate Stripped(units: Units, hit: set<UnitId>, now: Units) {
    && hit <= HitSet(units)
    && forall u :: Get(now, u).trigger == Get(units, u).trigger && Get(now, u).retrigger == Get(units, u).retrigger
                   && (Get(now, u).pause ==> Get(units, u).pause)
                   && Get(now, u).suspends == if u in hit then Get(units, u).suspends - FALLEN_KINDS else Get(units, u).suspends
  }

  /** One unit loses its Start and Verify jobs, and those who waited for it are woken. */
  ghost predicate StripStep(db: UnitDb, units: Units, u: UnitId, result: JobResult, now: Units) {
    Resumed(RemovedUnits(db, units, u, FALLEN_KINDS),
            if RemovedJobs(units, u, FALLEN_KINDS, result) == {} then {} else Neighbours(db, u), now)
  }

  ghost function StripBy(db: UnitDb, result: JobResult): (Units, UnitId, Units) -> bool {
    (units: Units, u: UnitId, now: Units) => StripStep(db, units, u, result, now)
  }

  /** One unit after the other. */
  ghost predicate StripSteps(db: UnitDb, trace: seq<Units>, us: seq<UnitId>, result: JobResult) {
    Led(StripBy(db, result), trace, us)
  }

  lemma NthIsStripped(db: UnitDb, trace: seq<Units>, us: seq<UnitId>, result: JobResult, i: nat)
    requires StripSteps(db, trace, us, result) && i < |us|
    ensures StripStep(db, trace[i], us[i], result, trace[i + 1])
  {
    LedAt(StripBy(db, result), trace, us, i);
  }

  ghost predicate StripsTo(db: UnitDb, units: Units, result: JobResult, now: Units) {
    Reach(StripBy(db, result), units, now)
  }

  lemma StripsOne(db: UnitDb, units: Units, u: UnitId, result: JobResult, now: Units)
    requires StripStep(db, units, u, result, now)
    ensures StripsTo(db, units, result, now)
  {
    ReachNext(StripBy(db, result), units, u, now);
  }

  lemma StripsOn(db: UnitDb, units: Units, mid: Units, result: JobResult, now: Units)
    requires StripsTo(db, units, result, mid) && StripsTo(db, mid, result, now)
    ensures StripsTo(db, units, result, now)
  {
    ReachOn(StripBy(db, result), units, mid, now);
  }

  predicate Fallen(units: Units, hit: set<UnitId>, result: JobResult, j: Job) {
    && j.unit in hit && j.kind in FALLEN_KINDS
    && j.kind in Get(units, j.unit).suspends && j == FinishJob(Get(units, j.unit).suspends[j.kind], result)
  }

  /** The list holds the removed jobs of `hit`, each of them once. */
  ghost predicate Listing(units: Units, hit: set<UnitId>, result: JobResult, dels: seq<Job>) {
    && (forall j :: j in dels <==> Fallen(units, hit, result, j))
    && Once(dels)
  }

  ghost predicate Once(dels: seq<Job>) {
    forall i, k :: 0 <= i < k < |dels| ==> dels[i] != dels[k]
  }

  // ---------------------------------------------------------------- how removals add up

  lemma StrippedTwice(units: Units, first: set<UnitId>, mid: Units, second: set<UnitId>, now: Units)
    requires Stripped(units, first, mid) && Stripped(mid, second, now)
    ensures Stripped(units, first + second, now)
    ensures first !! second && HitSet(now) <= HitSet(mid) <= HitSet(units)
    ensures HitSet(mid) == HitSet(units) - first
  {
  }

  lemma ListingTwice(
      units: Units, first: set<UnitId>, mid: Units, second: set<UnitId>, now: Units, result: JobResult,
      dels: seq<Job>, more: seq<Job>)
    requires Stripped(units, first, mid) && Stripped(mid, second, now)
    requires Listing(units, first, result, dels) && Listing(mid, second, result, more)
    ensures Listing(units, first + second, result, dels + more)
  {
    StrippedTwice(units, first, mid, second, now);
    assert forall i :: 0 <= i < |dels| ==> dels[i] in dels;
    assert forall i :: 0 <= i < |more| ==> more[i] in more;
  }

  lemma ListingSwapped(units: Units, hit: set<UnitId>, result: JobResult, dels: seq<Job>, more: seq<Job>)
    requires Listing(units, hit, result, dels + more)
    ensures Listing(units, hit, result, more + dels)
  {
    var a, b := dels + more, more + dels;
    forall j
      ensures j in a <==> j in b
    {
    }
    forall i, k | 0 <= i < k < |b|
      ensures b[i] != b[k]
    {
      var i' := if i < |more| then |dels| + i else i - |more|;
      var k' := if k < |more| then |dels| + k else k - |more|;
      assert a[i'] == b[i] && a[k'] == b[k];
    }
  }

  /** Taking Start and Verify jobs away never disturbs a trigger that is being interrupted. */
  lemma FallingIsSafe(s: UnitState)
    requires UnitInv(s)
    ensures RemovalSafe(s, FALLEN_KINDS)
  {
  }

  ghost predicate SameJobs(units: Units, now: Units) {
    forall u :: Get(now, u).trigger == Get(units, u).trigger && Get(now, u).retrigger == Get(units, u).retrigger
                && Get(now, u).suspends == Get(units, u).suspends && (Get(now, u).pause ==> Get(units, u).pause)
  }

  lemma ResumedSameJobs(units: Units, others: set<UnitId>, now: Units)
    requires UnitsOk(units) && Resumed(units, others, now)
    ensures SameJobs(units, now)
  {
    forall u | u in units
      ensures now[u].trigger == units[u].trigger && now[u].suspends == units[u].suspends
      ensures now[u].retrigger == units[u].retrigger && (now[u].pause ==> units[u].pause)
    {
      ResumeStep(units[u]);
    }
  }

  lemma RemovedStripped(db: UnitDb, units: Units, u: UnitId)
    requires UnitsOk(units)
    ensures Stripped(units, if u in HitSet(units) then {u} else {}, RemovedUnits(db, units, u, FALLEN_KINDS))
  {
    if u in units {
      RemovalMergesNothing(units[u], FALLEN_KINDS, db.IsActive(u));
      assert units[u].trigger.None? ==> !units[u].retrigger;
      StripOne(units, u, RemoveUnit(units[u], FALLEN_KINDS, db.IsActive(u)));
    }
  }

  lemma StripOne(units: Units, u: UnitId, s: UnitState)
    requires u in units && s.suspends == units[u].suspends - FALLEN_KINDS && s.trigger == units[u].trigger
    requires s.retrigger == units[u].retrigger && (s.trigger.None? ==> !s.retrigger) && s.pause == units[u].pause
    ensures Stripped(units, if u in HitSet(units) then {u} else {}, Put(units, u, s))
  {
    PutGet(units, u, s);
    if !Hit(units[u]) {
      assert units[u].suspends - FALLEN_KINDS == units[u].suspends;
    }
  }

  lemma PutGet(units: Units, u: UnitId, s: UnitState)
    requires s.trigger.None? ==> !s.retrigger
    ensures forall v :: v != u ==> Get(Put(units, u, s), v) == Get(units, v)
    ensures var now := Get(Put(units, u, s), u);
            && now.suspends == s.suspends && now.trigger == s.trigger && now.retrigger == s.retrigger
            && (now.pause ==> s.pause)
  {
  }

  // ---------------------------------------------------------------- the traversal

  /** One job after the other, in some order. */
  method InOrder(jobs: set<Job>) returns (list: seq<Job>)
    ensures Once(list) && forall j :: j in list <==> j in jobs
  {
    list := [];
    var rest := jobs;
    while rest != {}
      invariant Once(list) && rest <= jobs
      invariant forall j :: j in list <==> j in jobs && j !in rest
      decreases rest
    {
      var j :| j in rest;
      assert forall i :: 0 <= i < |list| ==> list[i] in list;
      list := list + [j];
      rest := rest - {j};
    }
  }

  lemma RemovedOk(db: UnitDb, units: Units, u: UnitId)
    requires UnitsOk(units)
    ensures UnitsOk(RemovedUnits(db, units, u, FALLEN_KINDS))
  {
    if u in units {
      FallingIsSafe(units[u]);
      RemoveStep(units[u], FALLEN_KINDS, db.IsActive(u));
      RemovalMergesNothing(units[u], FALLEN_KINDS, db.IsActive(u));
      PutOk(units, u, RemoveUnit(units[u], FALLEN_KINDS, db.IsActive(u)));
    }
  }

  lemma StripUnitDone(db: UnitDb, units: Units, u: UnitId, woken: set<UnitId>, now: Units)
    requires UnitsOk(units) && Resumed(RemovedUnits(db, units, u, FALLEN_KINDS), woken, now)
    ensures Stripped(units, if u in HitSet(units) then {u} else {}, now)
  {
    var mid := RemovedUnits(db, units, u, FALLEN_KINDS);
    RemovedOk(db, units, u);
    RemovedStripped(db, units, u);
    ResumedSameJobs(mid, woken, now);
    StrippedStays(units, if u in HitSet(units) then {u} else {}, mid, now);
  }

  lemma StrippedStays(units: Units, hit: set<UnitId>, mid: Units, now: Units)
    requires Stripped(units, hit, mid) && SameJobs(mid, now)
    ensures Stripped(units, hit, now)
  {
  }

  method StripUnit(jobs: JobTable, db: UnitDb, u: UnitId, result: JobResult) returns (dels: seq<Job>, ghost hit: set<UnitId>)
    requires jobs.Live() && result != Done
    modifies jobs, jobs.tUnit
    ensures jobs.tId.Keys <= old(jobs.tId.Keys)
    ensures jobs.Live() && hit == if u in HitSet(old(jobs.tUnit.tData)) then {u} else {}
    ensures Stripped(old(jobs.tUnit.tData), hit, jobs.tUnit.tData) && Listing(old(jobs.tUnit.tData), hit, result, dels)
    ensures StripsTo(db, old(jobs.tUnit.tData), result, jobs.tUnit.tData)
  {
    ghost var units := jobs.tUnit.tData;
    hit := if u in HitSet(units) then {u} else {};
    if u in jobs.tUnit.tData {
      FallingIsSafe(jobs.tUnit.tData[u]);
    }
    var removed := jobs.RemoveSuspends(db, u, FALLEN_KINDS, result);
    StripUnitDone(db, units, u, if removed == {} then {} else Neighbours(db, u), jobs.tUnit.tData);
    StripsOne(db, units, u, result, jobs.tUnit.tData);
    dels := InOrder(removed);
    RemovedAreFallen(units, u, result);
  }

  lemma RemovedAreFallen(units: Units, u: UnitId, result: JobResult)
    requires UnitsOk(units)
    ensures forall j :: j in RemovedJobs(units, u, FALLEN_KINDS, result) <==>
                          Fallen(units, if u in HitSet(units) then {u} else {}, result, j)
  {
    if u in units {
      ShapeOfRemoved(units, u, result);
    }
  }

  lemma ShapeOfRemoved(units: Units, u: UnitId, result: JobResult)
    requires u in units && SuspendsOk(u, units[u].suspends)
    ensures forall j :: j in RemovedJobs(units, u, FALLEN_KINDS, result) <==>
                          && j.unit == u && j.kind in FALLEN_KINDS && j.kind in units[u].suspends
                          && j == FinishJob(units[u].suspends[j.kind], result)
  {
  }

  /** `trans_fallback`: strip the units one after the other. */
  method StripUnits(jobs: JobTable, db: UnitDb, others: seq<UnitId>, result: JobResult)
      returns (dels: seq<Job>, ghost hit: set<UnitId>)
    requires jobs.Live() && result != Done
    modifies jobs, jobs.tUnit
    ensures jobs.tId.Keys <= old(jobs.tId.Keys)
    ensures jobs.Live() && forall v :: v in hit <==> v in others && v in HitSet(old(jobs.tUnit.tData))
    ensures Stripped(old(jobs.tUnit.tData), hit, jobs.tUnit.tData) && Listing(old(jobs.tUnit.tData), hit, result, dels)
    ensures StripsTo(db, old(jobs.tUnit.tData), result, jobs.tUnit.tData)
  {
    ghost var units := jobs.tUnit.tData;
    ReachItself(StripBy(db, result), units);
    dels, hit := [], {};
    var i := 0;
    while i < |others|
      invariant i <= |others| && jobs.Live() && jobs.tId.Keys <= old(jobs.tId.Keys)
      invariant StrippedUpTo(units, others, i, hit, result, jobs.tUnit.tData, dels)
      invariant StripsTo(db, units, result, jobs.tUnit.tData)
    {
      ghost var mid := jobs.tUnit.tData;
      var more, h := StripUnit(jobs, db, others[i], result);
      StripsOn(db, units, mid, result, jobs.tUnit.tData);
      StripOneMore(units, others, i, hit, result, mid, dels, h, jobs.tUnit.tData, more);
      dels, hit := dels + more, hit + h;
      i := i + 1;
    }
    assert others[..i] == others;
  }

  ghost predicate StrippedUpTo(
      units: Units, others: seq<UnitId>, i: nat, hit: set<UnitId>, result: JobResult, now: Units, dels: seq<Job>)
    requires i <= |others|
  {
    && (forall v :: v in hit <==> v in others[..i] && v in HitSet(units))
    && Stripped(units, hit, now) && Listing(units, hit, result, dels)
  }

  lemma StripOneMore(
      units: Units, others: seq<UnitId>, i: nat, hit: set<UnitId>, result: JobResult, mid: Units, dels: seq<Job>,
      h: set<UnitId>, now: Units, more: seq<Job>)
    requires i < |others| && StrippedUpTo(units, others, i, hit, result, mid, dels)
    requires h == if others[i] in HitSet(mid) then {others[i]} else {}
    requires Stripped(mid, h, now) && Listing(mid, h, result, more)
    ensures StrippedUpTo(units, others, i + 1, hit + h, result, now, dels + more)
  {
    StrippedHits(units, hit, mid);
    StrippedTwice(units, hit, mid, h, now);
    ListingTwice(units, hit, mid, h, now, result, dels, more);
    assert others[..i + 1] == others[..i] + [others[i]];
  }

  /** None of these units has a job left that a failure would take along. */
  ghost predicate Spared(units: Units, others: seq<UnitId>) {
    forall v :: v in others ==> v !in HitSet(units)
  }

  /** The failure has spread from the units of `hit`, except for those of `todo`. */
  ghost predicate Spread(db: UnitDb, units: Units, hit: set<UnitId>, todo: set<UnitId>) {
    forall w :: w in hit && w !in todo ==> Spared(units, db.DepGetsAtom(w, PropagateStartFailure))
  }

  /** The failure of a job of that kind on `u` hits exactly these units. */
  ghost predicate SpreadsTo(db: UnitDb, units: Units, u: UnitId, runKind: JobKind, hit: set<UnitId>) {
    && (runKind == Stop ==>
          forall w :: w in hit <==> Spreads(db, HitSet(units), db.DepGetsAtom(u, PropagateStopFailure), w))
    && (runKind == Start || runKind == Verify ==>
          forall w :: w in hit <==> Spreads(db, HitSet(units), db.DepGetsAtom(u, PropagateStartFailure), w))
    && (runKind !in {Start, Verify, Stop} ==> hit == {})
  }

  /** Those that depend on `u` have no job left that would need what failed. */
  ghost predicate FollowersSpared(db: UnitDb, units: Units, u: UnitId, runKind: JobKind) {
    && (runKind == Stop ==> Spared(units, db.DepGetsAtom(u, PropagateStopFailure)))
    && (runKind == Start || runKind == Verify ==> Spared(units, db.DepGetsAtom(u, PropagateStartFailure)))
  }

  /** Where a failure has hit exactly those units, they are spared. */
  lemma HitIsSpared(db: UnitDb, units: Units, u: UnitId, runKind: JobKind, hit: set<UnitId>, now: Units)
    requires Stripped(units, hit, now) && SpreadsTo(db, units, u, runKind, hit)
    ensures FollowersSpared(db, now, u, runKind)
  {
    StrippedHits(units, hit, now);
    var first := db.DepGetsAtom(u, if runKind == Stop then PropagateStopFailure else PropagateStartFailure);
    forall v | runKind in {Start, Verify, Stop} && v in first && v in HitSet(units)
      ensures v in hit
    {
      ReachesItself(FailEdges(db, HitSet(units)), v);
      assert Spreads(db, HitSet(units), first, v);
    }
  }

  ghost function UnitsFrom(dels: seq<Job>, i: nat): set<UnitId>
    requires i <= |dels|
  {
    set j | j in dels[i..] :: j.unit
  }

  lemma StrippedHits(units: Units, hit: set<UnitId>, now: Units)
    requires Stripped(units, hit, now)
    ensures HitSet(now) == HitSet(units) - hit
  {
  }

  lemma NothingStripped(units: Units, result: JobResult)
    ensures Stripped(units, {}, units) && Listing(units, {}, result, [])
  {
  }

  lemma FirstHit(db: UnitDb, all: set<UnitId>, units: Units, first: seq<UnitId>, hit: set<UnitId>, now: Units)
    requires HitSet(units) <= all && Stripped(units, hit, now)
    requires forall v :: v in hit <==> v in first && v in HitSet(units)
    ensures Spared(now, first) && forall w :: w in hit ==> Spreads(db, all, first, w)
  {
    StrippedHits(units, hit, now);
    forall w | w in hit
      ensures Spreads(db, all, first, w)
    {
      ReachesItself(FailEdges(db, all), w);
    }
  }

  /** The removed jobs name every unit that was hit. */
  lemma StepUnits(units: Units, hit: set<UnitId>, result: JobResult, step: seq<Job>)
    requires UnitsOk(units) && hit <= HitSet(units) && Listing(units, hit, result, step)
    ensures UnitsFrom(step, 0) == hit
  {
    assert step[0..] == step;
    forall u | u in hit
      ensures u in UnitsFrom(step, 0)
    {
      var j := SomeFallen(units, hit, result, u);
    }
  }

  lemma SomeFallen(units: Units, hit: set<UnitId>, result: JobResult, u: UnitId) returns (j: Job)
    requires UnitsOk(units) && hit <= HitSet(units) && u in hit
    ensures Fallen(units, hit, result, j) && j.unit == u
  {
    var k := if Start in units[u].suspends then Start else Verify;
    assert SuspendOk(u, k, units[u].suspends[k]);
    j := FinishJob(units[u].suspends[k], result);
  }

  /** From a removed job the failure spreads along the start failures of its unit. */
  lemma FallenFollowers(db: UnitDb, units: Units, hit: set<UnitId>, result: JobResult, j: Job)
    requires UnitsOk(units) && result != Done && Fallen(units, hit, result, j)
    ensures j.unit in units && Followers(db, j.unit, j.runKind) == db.DepGetsAtom(j.unit, PropagateStartFailure)
  {
  }

  lemma SpreadOneMore(
      db: UnitDb, before: Units, hit: set<UnitId>, step: seq<Job>, i: nat, more: set<UnitId>, now: Units)
    requires i < |step| && Spread(db, before, hit, UnitsFrom(step, i)) && HitSet(now) <= HitSet(before)
    requires Spared(now, db.DepGetsAtom(step[i].unit, PropagateStartFailure)) && Spread(db, now, more, {})
    ensures Spread(db, now, hit + more, UnitsFrom(step, i + 1))
  {
  }

  lemma SpreadsFurther(db: UnitDb, all: set<UnitId>, first: seq<UnitId>, u: UnitId, w: UnitId)
    requires u in first && u in all && Spreads(db, all, db.DepGetsAtom(u, PropagateStartFailure), w)
    ensures Spreads(db, all, first, w)
  {
    var v :| v in db.DepGetsAtom(u, PropagateStartFailure) && v in all && Reaches(FailEdges(db, all), v, w);
    ReachesFurther(FailEdges(db, all), u, v, w);
  }

  lemma AllSpreadFurther(db: UnitDb, all: set<UnitId>, first: seq<UnitId>, u: UnitId, more: set<UnitId>)
    requires u in first && u in all
    requires forall w :: w in more ==> Spreads(db, all, db.DepGetsAtom(u, PropagateStartFailure), w)
    ensures forall w :: w in more ==> Spreads(db, all, first, w)
  {
    forall w | w in more
      ensures Spreads(db, all, first, w)
    {
      SpreadsFurther(db, all, first, u, w);
    }
  }

  /** One step, then one step more from each job that was removed. */
  method FallbackBody(
      jobs: JobTable, db: UnitDb, u: UnitId, runKind: JobKind, result: JobResult, ghost all: set<UnitId>)
      returns (dels: seq<Job>, ghost hit: set<UnitId>)
    requires jobs.Live() && result != Done && HitSet(jobs.tUnit.tData) <= all
    modifies jobs, jobs.tUnit
    ensures jobs.Live() && Stripped(old(jobs.tUnit.tData), hit, jobs.tUnit.tData) && jobs.tId.Keys <= old(jobs.tId.Keys)
    ensures Listing(old(jobs.tUnit.tData), hit, result, dels)
    ensures Spared(jobs.tUnit.tData, Followers(db, u, runKind)) && Spread(db, jobs.tUnit.tData, hit, {})
    ensures forall w :: w in hit ==> Spreads(db, all, Followers(db, u, runKind), w)
    ensures StripsTo(db, old(jobs.tUnit.tData), result, jobs.tUnit.tData)
    decreases HitSet(jobs.tUnit.tData)
  {
    ghost var units, first := jobs.tUnit.tData, Followers(db, u, runKind);
    var step, h := StripUnits(jobs, db, Followers(db, u, runKind), result);
    ghost var mid, later := jobs.tUnit.tData, {};
    FallingStarts(db, all, first, units, h, mid, step, result);
    dels := [];
    var i := 0;
    while i < |step|
      invariant i <= |step| && jobs.Live() && jobs.tId.Keys <= old(jobs.tId.Keys)
      invariant Falling(db, all, first, units, h, mid, step, i, later, result, jobs.tUnit.tData, dels)
      invariant StripsTo(db, units, result, jobs.tUnit.tData)
    {
      FallingFrom(db, all, first, units, h, mid, step, i, later, result, jobs.tUnit.tData, dels);
      ghost var before := jobs.tUnit.tData;
      var more, h' := FallbackBody(jobs, db, step[i].unit, step[i].runKind, result, all);
      StripsOn(db, units, before, result, jobs.tUnit.tData);
      FallingOneMore(db, all, first, units, h, mid, step, i, later, result, before, dels, h', jobs.tUnit.tData, more);
      dels, later := dels + more, later + h';
      i := i + 1;
    }
    hit := h + later;
    FallingEnds(db, all, first, units, h, mid, step, later, result, jobs.tUnit.tData, dels);
    dels := dels + step;
  }

  /** After one step and the fall of the first `i` jobs that it removed. */
  ghost predicate Falling(
      db: UnitDb, all: set<UnitId>, first: seq<UnitId>, units: Units, h: set<UnitId>, mid: Units, step: seq<Job>,
      i: nat, later: set<UnitId>, result: JobResult, now: Units, dels: seq<Job>)
    requires i <= |step|
  {
    && UnitsOk(units) && result != Done && HitSet(units) <= all
    && (forall v :: v in h ==> v in first) && Stripped(units, h, mid) && Listing(units, h, result, step)
    && Stripped(mid, later, now) && Listing(mid, later, result, dels)
    && Spared(now, first) && Spread(db, now, h + later, UnitsFrom(step, i))
    && (forall w :: w in h + later ==> Spreads(db, all, first, w))
  }

  lemma FallingStarts(
      db: UnitDb, all: set<UnitId>, first: seq<UnitId>, units: Units, h: set<UnitId>, mid: Units, step: seq<Job>,
      result: JobResult)
    requires UnitsOk(units) && result != Done && HitSet(units) <= all
    requires forall v :: v in h <==> v in first && v in HitSet(units)
    requires Stripped(units, h, mid) && Listing(units, h, result, step)
    ensures Falling(db, all, first, units, h, mid, step, 0, {}, result, mid, [])
  {
    FirstHit(db, all, units, first, h, mid);
    NothingStripped(mid, result);
    StepUnits(units, h, result, step);
    assert h + {} == h;
  }

  lemma FallingFrom(
      db: UnitDb, all: set<UnitId>, first: seq<UnitId>, units: Units, h: set<UnitId>, mid: Units, step: seq<Job>,
      i: nat, later: set<UnitId>, result: JobResult, now: Units, dels: seq<Job>)
    requires i < |step| && Falling(db, all, first, units, h, mid, step, i, later, result, now, dels)
    ensures HitSet(now) < HitSet(units) && step[i].unit in h && step[i].unit in first && step[i].unit in all
    ensures Followers(db, step[i].unit, step[i].runKind) == db.DepGetsAtom(step[i].unit, PropagateStartFailure)
  {
    assert Fallen(units, h, result, step[i]);
    FallenFollowers(db, units, h, result, step[i]);
    StrippedTwice(units, h, mid, later, now);
    StrippedHits(mid, later, now);
  }

  lemma FallingOneMore(
      db: UnitDb, all: set<UnitId>, first: seq<UnitId>, units: Units, h: set<UnitId>, mid: Units, step: seq<Job>,
      i: nat, later: set<UnitId>, result: JobResult, before: Units, dels: seq<Job>,
      h': set<UnitId>, now: Units, more: seq<Job>)
    requires i < |step| && Falling(db, all, first, units, h, mid, step, i, later, result, before, dels)
    requires Stripped(before, h', now) && Listing(before, h', result, more)
    requires Spared(now, Followers(db, step[i].unit, step[i].runKind)) && Spread(db, now, h', {})
    requires forall w :: w in h' ==> Spreads(db, all, Followers(db, step[i].unit, step[i].runKind), w)
    ensures Falling(db, all, first, units, h, mid, step, i + 1, later + h', result, now, dels + more)
  {
    FallingFrom(db, all, first, units, h, mid, step, i, later, result, before, dels);
    StrippedHits(before, h', now);
    StrippedTwice(mid, later, before, h', now);
    ListingTwice(mid, later, before, h', now, result, dels, more);
    SpreadOneMore(db, before, h + later, step, i, h', now);
    assert h + later + h' == h + (later + h');
    AllSpreadFurther(db, all, first, step[i].unit, h');
  }

  lemma FallingEnds(
      db: UnitDb, all: set<UnitId>, first: seq<UnitId>, units: Units, h: set<UnitId>, mid: Units, step: seq<Job>,
      later: set<UnitId>, result: JobResult, now: Units, dels: seq<Job>)
    requires Falling(db, all, first, units, h, mid, step, |step|, later, result, now, dels)
    ensures Stripped(units, h + later, now) && Listing(units, h + later, result, dels + step)
    ensures Spread(db, now, h + later, {})
  {
    assert UnitsFrom(step, |step|) == {};
    StrippedTwice(units, h, mid, later, now);
    ListingTwice(units, h, mid, later, now, result, step, dels);
    ListingSwapped(units, h + later, result, step, dels);
  }

  /** Failure fallback is an exact fixed point: it strips the units that the failure spreads to
      along the failure dependencies, through units that it hits, and no others; what it strips
      is each job once. */
  method JobTransFallback(jobs: JobTable, db: UnitDb, u: UnitId, runKind: JobKind, result: JobResult)
      returns (dels: seq<Job>, ghost hit: set<UnitId>)
    requires jobs.Live() && result != Done
    modifies jobs, jobs.tUnit
    ensures jobs.Live() && Stripped(old(jobs.tUnit.tData), hit, jobs.tUnit.tData) && jobs.tId.Keys <= old(jobs.tId.Keys)
    ensures SpreadsTo(db, old(jobs.tUnit.tData), u, runKind, hit) && FollowersSpared(db, jobs.tUnit.tData, u, runKind)
    ensures runKind !in {Start, Verify, Stop} ==> dels == [] && SameJobs(old(jobs.tUnit.tData), jobs.tUnit.tData)
    ensures Listing(old(jobs.tUnit.tData), hit, result, dels)
    ensures StripsTo(db, old(jobs.tUnit.tData), result, jobs.tUnit.tData)
  {
    ghost var all := HitSet(jobs.tUnit.tData);
    dels, hit := FallbackBody(jobs, db, u, runKind, result, all);
    StrippedHits(old(jobs.tUnit.tData), hit, jobs.tUnit.tData);
    forall w | Spreads(db, all, Followers(db, u, runKind), w)
      ensures w in hit
    {
      SpreadIsAll(db, all, Followers(db, u, runKind), jobs.tUnit.tData, hit, w);
    }
    FallsExactly(db, old(jobs.tUnit.tData), u, runKind, hit, jobs.tUnit.tData, dels, result);
  }

  lemma FallsExactly(
      db: UnitDb, units: Units, u: UnitId, runKind: JobKind, hit: set<UnitId>, now: Units, dels: seq<Job>,
      result: JobResult)
    requires Stripped(units, hit, now) && Listing(units, hit, result, dels) && Spared(now, Followers(db, u, runKind))
    requires forall w :: w in hit <==> Spreads(db, HitSet(units), Followers(db, u, runKind), w)
    ensures SpreadsTo(db, units, u, runKind, hit) && FollowersSpared(db, now, u, runKind)
    ensures runKind !in {Start, Verify, Stop} ==> dels == [] && SameJobs(units, now)
  {
    if runKind !in {Start, Verify, Stop} {
      assert hit == {};
      FirstIsIn(dels);
    }
  }

  lemma FirstIsIn(dels: seq<Job>)
    ensures dels != [] ==> exists j :: j in dels
  {
    assert dels != [] ==> dels[0] in dels;
  }

  lemma SpreadIsAll(db: UnitDb, all: set<UnitId>, first: seq<UnitId>, now: Units, hit: set<UnitId>, w: UnitId)
    requires HitSet(now) == all - hit && Spared(now, first) && Spread(db, now, hit, {})
    requires Spreads(db, all, first, w)
    ensures w in hit
  {
    var edge := FailEdges(db, all);
    var v :| v in first && v in all && Reaches(edge, v, w);
    var walk :| IsWalk(edge, walk) && walk[0] == v && walk[|walk| - 1] == w;
    assert v !in HitSet(now);
    forall a, b | a in hit && edge(a, b)
      ensures b in hit
    {
      assert Spared(now, db.DepGetsAtom(a, PropagateStartFailure));
    }
    ClosedHolds(edge, hit, walk);
  }
}
