/** Why dispatching comes to an end: no step of it adds work, and each round either takes some
    away or leaves one ready unit less. */
module Progress {
  import opened Wrappers
  import opened JobTypes
  import opened JobStore
  import opened UnitSpec
  import opened UnitInvariant
  import opened TableSpec
  import opened UnitTable
  import opened TableIds
  import opened Fallback

  // ---------------------------------------------------------------- the work that a unit holds

  function WaitWeight(suspends: map<JobKind, Job>, kind: JobKind): nat {
    if kind !in suspends then 0 else if kind == Restart then 5 else 3
  }

  /** A waiting job has still to be run, perhaps twice as often as it has phases. */
  function WaitsWeight(suspends: map<JobKind, Job>): nat {
    WaitWeight(suspends, Start) + WaitWeight(suspends, Stop) + WaitWeight(suspends, Reload)
    + WaitWeight(suspends, Restart) + WaitWeight(suspends, Verify) + WaitWeight(suspends, Nop)
  }

  function TriggerWeight(trigger: Option<Job>, retrigger: bool): nat {
    match trigger
    case None => 0
    case Some(j) => 1 + (if retrigger then 1 else 0) + (if j.kind == Restart && j.runKind == Stop then 2 else 0)
  }

  function Weight(s: UnitState): nat {
    WaitsWeight(s.suspends) + TriggerWeight(s.trigger, s.retrigger)
  }

  /** No job is new, the trigger is the one that it was, and nothing has been paused. */
  ghost predicate Fewer(s: UnitState, s': UnitState) {
    && (forall k :: k in s'.suspends ==> k in s.suspends && s'.suspends[k] == s.suspends[k])
    && (s'.trigger.Some? ==>
          s.trigger.Some? && s'.trigger.value.id == s.trigger.value.id && s'.trigger.value.kind == s.trigger.value.kind
          && s'.trigger.value.attr == s.trigger.value.attr)
    && TriggerWeight(s'.trigger, s'.retrigger) <= TriggerWeight(s.trigger, s.retrigger)
    && (s'.pause ==> s.pause)
  }

  lemma FewerIsLighter(s: UnitState, s': UnitState)
    requires Fewer(s, s')
    ensures Weight(s') <= Weight(s)
  {
  }

  /** Running the next job of a unit takes work away, unless the job is to be tried again. */
  lemma RunIsLighter(s: UnitState, outcome: Outcome)
    requires UnitInv(s) && s.ready
    ensures Triable(s)
    ensures var s' := TryUnit(s, true, outcome);
            Weight(s') < Weight(s) || (outcome == Again && Weight(s') == Weight(s))
  {
    NextOk(s);
    if CalcReady(s).value {
      var k := s.sq[0];
      assert SuspendOk(s.unit, k, s.suspends[k]);
      PoppedIsLighter(s.suspends, k);
    }
  }

  lemma PoppedIsLighter(suspends: map<JobKind, Job>, kind: JobKind)
    requires kind in suspends && IsBasicOp(kind)
    ensures WaitsWeight(suspends - {kind}) == WaitsWeight(suspends) - if kind == Restart then 5 else 3
  {
  }

  // ---------------------------------------------------------------- all units together

  ghost predicate AllFewer(units: Units, now: Units) {
    forall u :: Fewer(Get(units, u), Get(now, u))
  }

  lemma AllFewerTwice(units: Units, mid: Units, now: Units)
    requires AllFewer(units, mid) && AllFewer(mid, now)
    ensures AllFewer(units, now)
  {
  }

  lemma SameJobsFewer(units: Units, now: Units)
    requires SameJobs(units, now)
    ensures AllFewer(units, now)
  {
  }

  lemma FinishFewer(units: Units, u: UnitId, result: JobResult)
    requires UnitsOk(units) && u in units && units[u].trigger.Some?
    ensures AllFewer(units, Put(units, u, Rest(FinishTrigger(units[u], result))))
  {
    FinishOneFewer(units[u], result);
  }

  lemma FinishOneFewer(s: UnitState, result: JobResult)
    requires TriggerOk(s.unit, s.trigger) && s.trigger.Some?
    ensures Fewer(s, Rest(FinishTrigger(s, result)))
  {
    FinishedAre(s, result);
    FinishedWeighs(s, result);
  }

  lemma FinishedWeighs(s: UnitState, result: JobResult)
    requires TriggerOk(s.unit, s.trigger) && s.trigger.Some?
    ensures var s' := Rest(FinishTrigger(s, result));
            TriggerWeight(s'.trigger, s'.retrigger) <= TriggerWeight(s.trigger, s.retrigger)
  {
    FinishedTrigger(s, result);
    if IsRetry(s.trigger.value, result) {
      SecondPhaseWeighs(s.trigger.value, result, s.retrigger);
    }
  }

  lemma FinishedTrigger(s: UnitState, result: JobResult)
    requires s.trigger.Some?
    ensures var s', job := Rest(FinishTrigger(s, result)), s.trigger.value;
            if IsRetry(job, result) then s'.trigger == Some(FinishJob(job, result)) && s'.retrigger else s'.trigger.None?
  {
  }

  lemma SecondPhaseWeighs(job: Job, result: JobResult, retrigger: bool)
    requires IsBasicOp(job.kind) && RunKindOk(job) && IsRetry(job, result)
    ensures TriggerWeight(Some(FinishJob(job, result)), true) <= TriggerWeight(Some(job), retrigger)
  {
  }

  /** As many tokens for each unit as it weighs. */
  ghost function Tokens(units: Units): set<(UnitId, int)> {
    set u, i | u in units && 0 <= i < Weight(units[u]) :: (u, i)
  }

  lemma FewerTokens(units: Units, now: Units)
    requires AllFewer(units, now)
    ensures Tokens(now) <= Tokens(units)
  {
    forall t | t in Tokens(now)
      ensures t in Tokens(units)
    {
      assert Fewer(Get(units, t.0), Get(now, t.0));
      FewerIsLighter(Get(units, t.0), Get(now, t.0));
    }
  }

  lemma LighterTokens(units: Units, u: UnitId, s: UnitState)
    requires u in units && Weight(s) <= Weight(units[u])
    ensures Tokens(units[u := s]) <= Tokens(units)
    ensures Weight(s) < Weight(units[u]) ==> Tokens(units[u := s]) < Tokens(units)
    ensures Weight(s) == Weight(units[u]) ==> Tokens(units[u := s]) == Tokens(units)
  {
    var now := units[u := s];
    forall t
      ensures t in Tokens(now) <==> t.0 in units && 0 <= t.1 < (if t.0 == u then Weight(s) else Weight(units[t.0]))
    {
    }
    if Weight(s) < Weight(units[u]) {
      assert (u, Weight(s)) in Tokens(units) && (u, Weight(s)) !in Tokens(now);
    }
  }

  /** A round that runs a unit leaves less work behind, or it is only that unit that waits. */
  lemma RoundProgress(units: Units, u: UnitId, run: bool, outcome: Outcome, mid: Units, now: Units)
    requires UnitsOk(units) && u in units && units[u].ready && Triable(units[u])
    requires mid == units[u := TryUnit(units[u], run, outcome)] && AllFewer(mid, now)
    requires !run || outcome == Again ==> now == mid
    ensures Tokens(now) < Tokens(units) || (Tokens(now) == Tokens(units) && ReadySet(now) < ReadySet(units))
  {
    var s' := TryUnit(units[u], run, outcome);
    TryUnitRests(units[u], run, outcome);
    FewerTokens(mid, now);
    if run {
      RunIsLighter(units[u], outcome);
    }
    LighterTokens(units, u, s');
    if Tokens(mid) == Tokens(units) {
      OneReadyLess(units, u, s');
    }
  }

  lemma OneReadyLess(units: Units, u: UnitId, s: UnitState)
    requires u in units && units[u].ready && !s.ready
    ensures ReadySet(units[u := s]) < ReadySet(units)
  {
    assert u in ReadySet(units) && u !in ReadySet(units[u := s]);
  }

  // ---------------------------------------------------------------- jobs that stand in for others

  function StandInAt(suspends: map<JobKind, Job>, kind: JobKind): nat {
    if kind in suspends && suspends[kind].attr.noRelevancy then 1 else 0
  }

  function StandInTrigger(trigger: Option<Job>): nat {
    if trigger.Some? && trigger.value.attr.noRelevancy then 1 else 0
  }

  function WaitingStandIns(suspends: map<JobKind, Job>): nat {
    StandInAt(suspends, Start) + StandInAt(suspends, Stop) + StandInAt(suspends, Reload)
    + StandInAt(suspends, Restart) + StandInAt(suspends, Verify) + StandInAt(suspends, Nop)
  }

  /** The jobs of a unit that a recovery put there: when one of them fails the unit is stopped,
      by a transaction that brings in new jobs. */
  function StandIns(s: UnitState): nat {
    WaitingStandIns(s.suspends) + StandInTrigger(s.trigger)
  }

  lemma FewerWaiting(suspends: map<JobKind, Job>, now: map<JobKind, Job>)
    requires forall k :: k in now && now[k].attr.noRelevancy ==> k in suspends && suspends[k].attr.noRelevancy
    ensures WaitingStandIns(now) <= WaitingStandIns(suspends)
  {
  }

  /** The trigger is the one that it was, nothing has been paused, a waiting job is an old one
      or has an id that was not known before, and no job stands in for another that did not. */
  ghost predicate Milder(s: UnitState, s': UnitState, known: set<nat>) {
    && (s'.trigger.Some? ==>
          s.trigger.Some? && s'.trigger.value.id == s.trigger.value.id && s'.trigger.value.kind == s.trigger.value.kind
          && s'.trigger.value.attr == s.trigger.value.attr)
    && (s'.pause ==> s.pause)
    && (forall k :: k in s'.suspends ==>
          (k in s.suspends && s'.suspends[k].id == s.suspends[k].id) || s'.suspends[k].id !in known)
    && StandIns(s') <= StandIns(s)
  }

  ghost predicate AllMilder(units: Units, now: Units, known: set<nat>) {
    forall u :: Milder(Get(units, u), Get(now, u), known)
  }

  lemma FewerIsMilder(s: UnitState, s': UnitState, known: set<nat>)
    requires Fewer(s, s')
    ensures Milder(s, s', known)
  {
    FewerWaiting(s.suspends, s'.suspends);
  }

  lemma AllFewerIsMilder(units: Units, now: Units, known: set<nat>)
    requires AllFewer(units, now)
    ensures AllMilder(units, now, known)
  {
    forall u: UnitId
      ensures Milder(Get(units, u), Get(now, u), known)
    {
      assert Fewer(Get(units, u), Get(now, u));
      FewerIsMilder(Get(units, u), Get(now, u), known);
    }
  }

  lemma AllMilderTwice(units: Units, mid: Units, now: Units, known: set<nat>, more: set<nat>)
    requires AllMilder(units, mid, known) && AllMilder(mid, now, more) && known <= more
    ensures AllMilder(units, now, known)
  {
    forall u: UnitId
      ensures Milder(Get(units, u), Get(now, u), known)
    {
      assert Milder(Get(units, u), Get(mid, u), known) && Milder(Get(mid, u), Get(now, u), more);
    }
  }

  lemma CommitMilder(s: UnitState, theirs: map<JobKind, Job>, active: bool, known: set<nat>)
    requires UnitInv(s) && StageOk(s.unit, theirs) && FreshJobs(theirs, known)
    ensures Milder(s, CommitUnit(s, theirs, active), known)
  {
    var s' := CommitUnit(s, theirs, active);
    CommittedJobs(s, theirs, active);
    CommittedMilder(s, theirs, s', known);
  }

  lemma CommittedMilder(s: UnitState, theirs: map<JobKind, Job>, s': UnitState, known: set<nat>)
    requires FreshJobs(theirs, known) && s'.trigger == s.trigger && s'.pause == s.pause
    requires s'.suspends.Keys <= Kept(s, theirs).Keys + theirs.Keys
    requires forall k :: k in s'.suspends ==> s'.suspends[k] == MergedSuspends(Kept(s, theirs), theirs)[k]
    ensures Milder(s, s', known)
  {
    forall k | k in s'.suspends
      ensures (k in s.suspends && s'.suspends[k].id == s.suspends[k].id) || s'.suspends[k].id !in known
      ensures s'.suspends[k].attr.noRelevancy ==> k in s.suspends && s.suspends[k].attr.noRelevancy
    {
      assert k in s'.suspends.Keys;
    }
    FewerWaiting(s.suspends, s'.suspends);
  }

  /** As many tokens for each unit as it has jobs that stand in for others. */
  ghost function StandInTokens(units: Units): set<(UnitId, int)> {
    set u, i | u in units && 0 <= i < StandIns(units[u]) :: (u, i)
  }

  lemma FewerStandIns(units: Units, now: Units)
    requires forall u: UnitId :: StandIns(Get(now, u)) <= StandIns(Get(units, u))
    ensures StandInTokens(now) <= StandInTokens(units)
  {
    forall t | t in StandInTokens(now)
      ensures t in StandInTokens(units)
    {
      assert StandIns(Get(now, t.0)) <= StandIns(Get(units, t.0));
    }
  }

  lemma OneStandInLess(units: Units, now: Units, u: UnitId)
    requires forall v: UnitId :: StandIns(Get(now, v)) <= StandIns(Get(units, v))
    requires StandIns(Get(now, u)) < StandIns(Get(units, u))
    ensures StandInTokens(now) < StandInTokens(units)
  {
    FewerStandIns(units, now);
    var t := (u, StandIns(Get(now, u)) as int);
    assert t in StandInTokens(units) && t !in StandInTokens(now);
  }

  /** Running a job makes no new ones stand in: one that pushes another of its kind out takes
      over what that one stood for. */
  lemma TryStandIns(s: UnitState, run: bool, outcome: Outcome)
    requires UnitInv(s) && s.ready && Triable(s)
    ensures StandIns(TryUnit(s, run, outcome)) <= StandIns(s)
  {
    NextOk(s);
    if run && CalcReady(s).value {
      var k := s.sq[0];
      assert SuspendOk(s.unit, k, s.suspends[k]);
      PoppedStandIns(s.suspends, k);
    }
  }

  lemma PoppedStandIns(suspends: map<JobKind, Job>, kind: JobKind)
    requires kind in suspends && IsBasicOp(kind)
    ensures WaitingStandIns(suspends - {kind}) == WaitingStandIns(suspends) - StandInAt(suspends, kind)
  {
  }

  // ---------------------------------------------------------------- a job that is still there

  /** A trigger whose id is still known is still the trigger of its unit. */
  lemma StillTrigger(
      units: Units, ids: map<nat, JobConf>, now: Units, ids': map<nat, JobConf>, known: set<nat>, u: UnitId, id: nat)
    requires IdsOk(units, ids) && IdsOk(now, ids') && Keyed(units) && AllMilder(units, now, known)
    requires ids.Keys <= known && id in ids'
    requires u in units && units[u].trigger.Some? && units[u].trigger.value.id == id
    ensures u in now && now[u].trigger.Some? && now[u].trigger.value.id == id
  {
    var c := ids'[id];
    assert OwnsAt(now[c.unit], id, c.kind);
    assert Milder(Get(units, c.unit), Get(now, c.unit), known);
    assert IdsAt(units[u], ids);
    assert c.unit in units ==> IdsAt(units[c.unit], ids);
  }

  // ---------------------------------------------------------------- irrelevant jobs

  /** No job was put there by a recovery: their failure is the business of their followers. */
  ghost predicate Relevant(units: Units) {
    forall u :: u in units ==> RelevantUnit(units[u])
  }

  predicate RelevantUnit(s: UnitState) {
    && (forall k :: k in s.suspends ==> !s.suspends[k].attr.noRelevancy)
    && (s.trigger.Some? ==> !s.trigger.value.attr.noRelevancy)
  }

  lemma FewerRelevant(units: Units, now: Units)
    requires Relevant(units) && AllFewer(units, now)
    ensures Relevant(now)
  {
    forall u | u in now
      ensures RelevantUnit(now[u])
    {
      assert Fewer(Get(units, u), Get(now, u));
    }
  }

  lemma RunRelevant(s: UnitState, run: bool, outcome: Outcome)
    requires RelevantUnit(s) && Triable(s)
    ensures RelevantUnit(TryUnit(s, run, outcome))
    ensures run ==> !NextState(s).trigger.value.attr.noRelevancy
  {
  }
}
