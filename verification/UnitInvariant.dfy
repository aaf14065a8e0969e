/** What every run of a unit's operations keeps, and that none of the assertions of
    core/bin/job/junit.rs fires on the way. */
module UnitInvariant {
  import opened Wrappers
  import opened JobTypes
  import opened JobStore
  import opened UnitSpec

  // ---------------------------------------------------------------- the queue

  lemma CanonMembers(kinds: set<JobKind>, k: JobKind)
    requires AllBasic(kinds)
    ensures k in Canon(kinds) <==> k in kinds && (Stop in kinds ==> k == Stop)
  {
  }

  lemma CanonEmpty(kinds: set<JobKind>)
    requires AllBasic(kinds)
    ensures Canon(kinds) == [] <==> kinds == {}
  {
  }

  /** Only a Stop or a Restart puts a Stop or a Restart at the front, and then it is there. */
  lemma CanonFront(kinds: set<JobKind>)
    requires Settled(kinds) && AllBasic(kinds) && kinds != {}
    ensures Canon(kinds) != [] && Canon(kinds)[0] in kinds
    ensures IsStopLike(Canon(kinds)[0]) <==> Stop in kinds || Restart in kinds
  {
  }

  /** Popping the front leaves the rest of the queue, or strands a Nop behind a Stop. */
  lemma CanonTail(kinds: set<JobKind>, rest: set<JobKind>)
    requires Settled(kinds) && AllBasic(kinds) && kinds != {}
    requires Canon(kinds) != [] && rest == kinds - {Canon(kinds)[0]}
    ensures Canon(kinds)[1..] == Canon(rest) || (Canon(kinds)[1..] == [] && rest == {Nop})
    ensures Canon(kinds)[1..] != [] ==> !IsStopLike(Canon(kinds)[1])
  {
  }

  /** The queue never holds more than one job that can change the unit's stage, and never
      more than three in all (JOBUNIT_SQ_MUTOP_MAX_NUM, JOBUNIT_SQ_MAX_NUM). */
  predicate QueueFits(kinds: set<JobKind>) {
    |MutOps(kinds)| <= 1 && |Canon(kinds)| <= 3
  }

  /** Merging the redundant kinds away settles any set of kinds without a conflict. */
  lemma MergeSettles(kinds: set<JobKind>, active: bool)
    requires AllBasic(kinds) && !IsConflict(kinds)
    ensures Settled(Unmerged(kinds, active)) && AllBasic(Unmerged(kinds, active))
    ensures QueueFits(Unmerged(kinds, active))
    ensures Unmerged(kinds, active) == {} <==> kinds == {}
    ensures Unmerged(kinds, active) ==
            if Stop in kinds then kinds
            else if Restart in kinds then kinds - {Start, Reload}
            else if Start in kinds && Reload in kinds then kinds - {if active then Start else Reload}
            else kinds
  {
    var rest := Unmerged(kinds, active);
    if kinds != {} {
      var k :| k in kinds;
      assert k in rest || Restart in rest || Start in rest || Reload in rest;
    }
  }

  /** Settled jobs have nothing left to merge, so reshuffling after a removal merges nothing. */
  lemma SettledStaysSettled(kinds: set<JobKind>, fewer: set<JobKind>, active: bool)
    requires Settled(kinds) && fewer <= kinds
    ensures Settled(fewer) && Unmerged(fewer, active) == fewer
  {
  }

  // ---------------------------------------------------------------- the events of a unit

  /** The jobs that a stage holds for a unit. */
  predicate StageOk(unit: UnitId, theirs: map<JobKind, Job>) {
    && (forall k :: k in theirs ==>
        var j := theirs[k];
        j.kind == k && j.unit == unit && IsBasicOp(k) && j.stage == Init && j.runKind == RkindNew(k))
    && !IsConflict(theirs.Keys)
  }

  /** None of the jobs is the trigger; jobs are told apart by their ids. */
  predicate NotTrigger(trigger: Option<Job>, jobs: map<JobKind, Job>) {
    trigger.Some? ==> forall k :: k in jobs ==> jobs[k].id != trigger.value.id
  }

  datatype Event =
    | Commit(theirs: map<JobKind, Job>, active: bool)
    | Remove(kinds: set<JobKind>, active: bool)
    | PauseIt
    | ResumeIt
    | Run(outcome: Outcome)
    | Finish(result: JobResult)

  /** Taking suspended jobs away goes wrong only when it empties the queue in front of a
      trigger that a suspended Stop or Restart is about to interrupt. */
  predicate RemovalSafe(s: UnitState, kinds: set<JobKind>) {
    !(s.interrupt && s.suspends.Keys <= kinds)
  }

  /** What the callers of `JobUnit` make sure of. */
  predicate Enabled(s: UnitState, e: Event) {
    match e
    case Commit(theirs, active) => StageOk(s.unit, theirs) && NotTrigger(s.trigger, theirs)
    case Remove(kinds, active) => RemovalSafe(s, kinds)
    case PauseIt => s.ready
    case ResumeIt => s.pause
    case Run(outcome) => s.ready
    case Finish(result) => s.trigger.Some?
  }

  /** `reshuffle` asserts: no conflict, a queue that fits, a consistent readiness decision. */
  predicate ReshuffleSafe(s: UnitState, active: bool) {
    && !IsConflict(s.suspends.Keys)
    && (!s.order ==> QueueFits(Unmerged(s.suspends.Keys, active)))
    && ReadyAsserts(MarkInterrupt(OrderQueue(s, active)))
  }

  /** `do_next_trigger` and `Job::merge_attr`, `finish` and `run` assert: there is a next job,
      it is queued in order and waiting (or running, when taken again), a trigger taken again
      is not being interrupted, a replaced one is running. */
  predicate RunSafe(s: UnitState) {
    && CalcReady(s).Some? && s.order
    && (CalcReady(s).value ==>
        && s.sq != [] && s.sq[0] in s.suspends && s.suspends[s.sq[0]].stage == Wait
        && s.suspends[s.sq[0]].kind == s.sq[0]
        && (s.interrupt ==> s.trigger.Some? && s.trigger.value.stage == Running)
        && (!s.interrupt ==> s.trigger.None?))
    && (!CalcReady(s).value ==> s.trigger.Some? && s.retrigger && !s.interrupt && s.trigger.value.stage == Running)
  }

  predicate FinishSafe(s: UnitState, result: JobResult) {
    && s.trigger.Some? && s.order && IsLive(s.trigger.value)
    && (IsRetry(s.trigger.value, result) ==> ReadyAsserts(s.(retrigger := true)))
  }

  predicate MayBeAdded(trigger: Option<Job>, job: Job) {
    IsBasicOp(job.kind) && job.stage == Init && !(trigger.Some? && trigger.value.id == job.id)
  }

  /** The assertions met while an event is handled. A job that is added must be a basic one,
      not yet waiting, and not the trigger; one that takes over attributes must be waiting. */
  predicate Safe(s: UnitState, e: Event) {
    match e
    case Commit(theirs, active) =>
      var m := MergeSuspends(s, theirs);
      && (forall k :: k in Kept(s, theirs) && k in theirs ==> Kept(s, theirs)[k].stage == Wait)
      && (forall k :: k in theirs && k !in Kept(s, theirs) ==> MayBeAdded(s.trigger, theirs[k]))
      && (m.dirty ==> ReshuffleSafe(m, active))
    case Remove(kinds, active) => ReshuffleSafe(RemoveKinds(s, kinds), active)
    case PauseIt => s.order
    case ResumeIt => s.order && ReadyAsserts(s.(pause := false))
    case Run(outcome) => RunSafe(s) && ReadyAsserts(NextState(s)) && NextState(s).order
    case Finish(result) => FinishSafe(s, result)
  }

  function Step(s: UnitState, e: Event): UnitState
    requires Safe(s, e)
  {
    match e
    case Commit(theirs, active) => CommitUnit(s, theirs, active)
    case Remove(kinds, active) => RemoveUnit(s, kinds, active)
    case PauseIt => Rest(Pause(s))
    case ResumeIt => Rest(Resume(s))
    case Run(outcome) => Rest(TriggerState(s, outcome))
    case Finish(result) => Rest(FinishTrigger(s, result))
  }

  // ---------------------------------------------------------------- one event at a time

  lemma MergedOk(s: UnitState, theirs: map<JobKind, Job>)
    requires SuspendsOk(s.unit, s.suspends) && !IsConflict(s.suspends.Keys) && StageOk(s.unit, theirs)
    ensures SuspendsOk(s.unit, MergeSuspends(s, theirs).suspends)
    ensures !IsConflict(MergeSuspends(s, theirs).suspends.Keys)
    ensures theirs != map[] ==> MergeSuspends(s, theirs).suspends != map[]
    ensures MergeSuspends(s, theirs).suspends.Keys == Kept(s, theirs).Keys + theirs.Keys
    ensures AllBasic(MergeSuspends(s, theirs).suspends.Keys)
  {
    KeptOk(s, theirs);
    MergedAreOk(s.unit, Kept(s, theirs), theirs);
    MergedShape(s, theirs);
    if theirs != map[] {
      var k :| k in theirs;
      assert k in MergedSuspends(Kept(s, theirs), theirs).Keys;
    }
  }

  lemma MergedShape(s: UnitState, theirs: map<JobKind, Job>)
    ensures MergeSuspends(s, theirs).suspends == MergedSuspends(Kept(s, theirs), theirs)
    ensures MergeSuspends(s, theirs).unit == s.unit
  {
  }

  lemma KeptOk(s: UnitState, theirs: map<JobKind, Job>)
    requires SuspendsOk(s.unit, s.suspends) && !IsConflict(theirs.Keys)
    ensures SuspendsOk(s.unit, Kept(s, theirs)) && !IsConflict(Kept(s, theirs).Keys + theirs.Keys)
  {
  }

  lemma MergedAreOk(unit: UnitId, kept: map<JobKind, Job>, theirs: map<JobKind, Job>)
    requires SuspendsOk(unit, kept) && StageOk(unit, theirs)
    ensures SuspendsOk(unit, MergedSuspends(kept, theirs)) && AllBasic(MergedSuspends(kept, theirs).Keys)
  {
  }

  /** What is left to show for a unit to be at rest once its flags are refreshed. */
  predicate Ordered(s: UnitState) {
    && SuspendsOk(s.unit, s.suspends) && TriggerOk(s.unit, s.trigger) && Settled(s.suspends.Keys)
    && s.order && QueueOk(s.sq, s.suspends.Keys)
  }

  lemma OrderedRests(s: UnitState)
    requires Ordered(s) && FlagsOk(s.trigger, s.sq, s.interrupt, s.retrigger)
    ensures UnitInv(Rest(UpdateReady(s))) && ReadyAsserts(s)
  {
  }

  lemma OrderSettles(s: UnitState, active: bool)
    requires SuspendsOk(s.unit, s.suspends) && TriggerOk(s.unit, s.trigger)
    requires !IsConflict(s.suspends.Keys) && !s.order
    ensures var o := OrderQueue(s, active);
            && o.suspends.Keys == Unmerged(s.suspends.Keys, active) && Ordered(o)
            && QueueFits(o.suspends.Keys) && (o.sq == [] <==> s.suspends == map[])
  {
    MergeSettles(s.suspends.Keys, active);
    CanonEmpty(Unmerged(s.suspends.Keys, active));
    assert s.suspends.Keys == {} <==> s.suspends == map[];
  }

  /** Ordering a dirty unit without conflicts brings it to rest. */
  lemma ReshuffleRests(s: UnitState, active: bool)
    requires SuspendsOk(s.unit, s.suspends) && TriggerOk(s.unit, s.trigger)
    requires !IsConflict(s.suspends.Keys) && !s.order
    requires s.trigger.None? ==> !s.interrupt && !s.retrigger
    requires s.suspends == map[] ==> !s.interrupt
    ensures ReshuffleSafe(s, active)
    ensures UnitInv(Rest(Reshuffle(s, active)))
    ensures Reshuffle(s, active).suspends.Keys == Unmerged(s.suspends.Keys, active)
  {
    var o := OrderQueue(s, active);
    OrderSettles(s, active);
    MarkedIsOk(o);
    OrderedRests(MarkInterrupt(o));
  }

  lemma MarkedIsOk(o: UnitState)
    requires Ordered(o) && (o.trigger.None? ==> !o.interrupt && !o.retrigger) && (o.sq == [] ==> !o.interrupt)
    ensures var m := MarkInterrupt(o);
            && Ordered(m) && FlagsOk(m.trigger, m.sq, m.interrupt, m.retrigger)
            && m.suspends == o.suspends && m.unit == o.unit && m.order
  {
  }

  lemma MergeDirty(s: UnitState, theirs: map<JobKind, Job>)
    requires UnitInv(s) && StageOk(s.unit, theirs)
    ensures var m := MergeSuspends(s, theirs);
            if m.dirty then !m.order && m.suspends != map[]
            else CleanMerge(s, m) && theirs.Keys <= s.suspends.Keys && Kept(s, theirs) == s.suspends
  {
  }

  lemma CommitStep(s: UnitState, theirs: map<JobKind, Job>, active: bool)
    requires UnitInv(s) && StageOk(s.unit, theirs)
    ensures NotTrigger(s.trigger, theirs) ==> Safe(s, Commit(theirs, active))
    ensures UnitInv(CommitUnit(s, theirs, active))
    ensures CommitUnit(s, theirs, active).unit == s.unit
  {
    CommitRests(s, theirs, active);
    AddedAreFit(s, theirs);
  }

  lemma AddedAreFit(s: UnitState, theirs: map<JobKind, Job>)
    requires SuspendsOk(s.unit, s.suspends) && StageOk(s.unit, theirs)
    ensures forall k :: k in Kept(s, theirs) && k in theirs ==> Kept(s, theirs)[k].stage == Wait
    ensures NotTrigger(s.trigger, theirs) ==>
              forall k :: k in theirs && k !in Kept(s, theirs) ==> MayBeAdded(s.trigger, theirs[k])
  {
  }

  lemma CommitRests(s: UnitState, theirs: map<JobKind, Job>, active: bool)
    requires UnitInv(s) && StageOk(s.unit, theirs)
    ensures MergeSuspends(s, theirs).dirty ==> ReshuffleSafe(MergeSuspends(s, theirs), active)
    ensures UnitInv(CommitUnit(s, theirs, active))
    ensures CommitUnit(s, theirs, active).unit == s.unit
  {
    MergedOk(s, theirs);
    MergeDirty(s, theirs);
    MergeLeaves(s, theirs);
    MergedRests(s, MergeSuspends(s, theirs), active);
  }

  lemma MergedRests(s: UnitState, m: UnitState, active: bool)
    requires UnitInv(s) && SuspendsOk(m.unit, m.suspends) && !IsConflict(m.suspends.Keys)
    requires m.unit == s.unit && m.trigger == s.trigger && m.interrupt == s.interrupt && m.retrigger == s.retrigger
    requires if m.dirty then !m.order && m.suspends != map[] else CleanMerge(s, m)
    ensures m.dirty ==> ReshuffleSafe(m, active)
    ensures UnitInv(ReshuffleEntry(m, active)) && ReshuffleEntry(m, active).unit == s.unit
  {
    if m.dirty {
      assert TriggerOk(m.unit, m.trigger) && (m.trigger.None? ==> !m.interrupt && !m.retrigger);
      DirtyMergeRests(m, active);
    } else {
      CleanMergeRests(s, m);
    }
  }

  lemma DirtyMergeRests(m: UnitState, active: bool)
    requires SuspendsOk(m.unit, m.suspends) && TriggerOk(m.unit, m.trigger) && !IsConflict(m.suspends.Keys)
    requires m.dirty && !m.order && m.suspends != map[] && (m.trigger.None? ==> !m.interrupt && !m.retrigger)
    ensures ReshuffleSafe(m, active) && UnitInv(ReshuffleEntry(m, active)) && ReshuffleEntry(m, active).unit == m.unit
  {
    ReshuffleRests(m, active);
  }

  /** Only the attributes of some waiting jobs are other ones. */
  predicate CleanMerge(s: UnitState, m: UnitState) {
    m == s.(suspends := m.suspends) && m.suspends.Keys == s.suspends.Keys
  }

  lemma CleanMergeRests(s: UnitState, m: UnitState)
    requires UnitInv(s) && CleanMerge(s, m) && SuspendsOk(m.unit, m.suspends)
    ensures UnitInv(m) && !m.dirty
  {
  }

  lemma MergeLeaves(s: UnitState, theirs: map<JobKind, Job>)
    ensures var m := MergeSuspends(s, theirs);
            && m.unit == s.unit && m.trigger == s.trigger && m.sq == s.sq
            && m.interrupt == s.interrupt && m.retrigger == s.retrigger && m.pause == s.pause && m.upReady == s.upReady
  {
  }

  /** Removal is safe, and keeps the invariant, exactly when `RemovalSafe` says so. When it
      does not, the stale interrupt flag makes the engine panic, unless the unit is paused. */
  lemma RemoveStep(s: UnitState, kinds: set<JobKind>, active: bool)
    requires UnitInv(s)
    ensures UnitInv(RemoveUnit(s, kinds, active)) <==> RemovalSafe(s, kinds)
    ensures Safe(s, Remove(kinds, active)) <==> RemovalSafe(s, kinds) || s.pause
    ensures Unmerged(s.suspends.Keys - kinds, active) == s.suspends.Keys - kinds
  {
    var r := RemoveKinds(s, kinds);
    assert r.suspends.Keys == s.suspends.Keys - kinds;
    SettledStaysSettled(s.suspends.Keys, r.suspends.Keys, active);
    assert r.suspends.Keys == {} <==> s.suspends.Keys <= kinds by {
      if r.suspends.Keys == {} {
        forall k | k in s.suspends ensures k in kinds {
          assert k in kinds || k in r.suspends.Keys;
        }
      }
    }
    if RemovalSafe(s, kinds) {
      ReshuffleRests(r, active);
    } else {
      var o := OrderQueue(r, active);
      assert r.suspends.Keys == {};
      assert o.suspends.Keys == {};
      assert o.sq == [] && o.trigger.Some? && o.interrupt;
      assert QueueFits({});
    }
  }

  /** Reshuffling after a removal merges nothing, so `remove_entry` may drop its result. */
  lemma RemovalMergesNothing(s: UnitState, kinds: set<JobKind>, active: bool)
    requires Settled(s.suspends.Keys)
    ensures RemoveUnit(s, kinds, active).suspends == s.suspends - kinds
    ensures RemoveUnit(s, kinds, active).trigger == s.trigger && RemoveUnit(s, kinds, active).retrigger == s.retrigger
    ensures RemoveUnit(s, kinds, active).unit == s.unit && RemoveUnit(s, kinds, active).pause == s.pause
  {
  }

  lemma QueueTail(s: UnitState)
    requires AllBasic(s.suspends.Keys) && Settled(s.suspends.Keys) && QueueOk(s.sq, s.suspends.Keys) && s.sq != []
    ensures s.sq[0] in s.suspends
    ensures var rest := s.suspends.Keys - {s.sq[0]};
            s.sq[1..] == Canon(rest) || (s.sq[1..] == [] && rest == {Nop})
    ensures s.sq[1..] != [] ==> !IsStopLike(s.sq[1])
  {
    CanonEmpty(s.suspends.Keys);
    CanonFront(s.suspends.Keys);
    CanonTail(s.suspends.Keys, s.suspends.Keys - {s.sq[0]});
  }

  lemma RunSuspend(s: UnitState, n: UnitState)
    requires UnitInv(s) && CalcReady(s) == Some(true) && s.sq[0] in s.suspends && n == NextState(s)
    ensures SuspendsOk(n.unit, n.suspends) && Settled(n.suspends.Keys) && QueueOk(n.sq, n.suspends.Keys)
    ensures FlagsOk(n.trigger, n.sq, n.interrupt, n.retrigger)
    ensures n.trigger == Some(s.suspends[s.sq[0]]) && !n.ready && n.order && n.unit == s.unit
  {
    QueueTail(s);
    assert n.suspends.Keys == s.suspends.Keys - {s.sq[0]};
    SettledStaysSettled(s.suspends.Keys, n.suspends.Keys, true);
  }

  lemma NextOk(s: UnitState)
    requires UnitInv(s) && s.ready
    ensures RunSafe(s)
    ensures var n := NextState(s);
            && SuspendsOk(n.unit, n.suspends) && Settled(n.suspends.Keys) && QueueOk(n.sq, n.suspends.Keys)
            && FlagsOk(n.trigger, n.sq, n.interrupt, n.retrigger) && ReadyAsserts(n)
            && n.order && !n.ready && !n.retrigger && !n.pause && n.unit == s.unit && n.trigger.Some?
            && (n.trigger.value.unit == s.unit && IsBasicOp(n.trigger.value.kind) && RunKindOk(n.trigger.value))
  {
    if CalcReady(s).value {
      QueueTail(s);
      RunSuspend(s, NextState(s));
    }
  }

  /** A unit that has just been run or paused is not ready, which `try_trigger_entry` asserts. */
  lemma RunStep(s: UnitState, outcome: Outcome)
    requires UnitInv(s) && s.ready
    ensures Safe(s, Run(outcome))
    ensures UnitInv(Rest(TriggerState(s, outcome)))
    ensures !TriggerState(s, outcome).ready
    ensures TriggerState(s, outcome).trigger.Some? && TriggerState(s, outcome).unit == s.unit
  {
    NextOk(s);
    var n := NextState(s);
    var job := Triggered(n.trigger.value, Replaced(s));
    assert TriggerOk(n.unit, Some(job));
    var r := n.(trigger := Some(job), pause := outcome == Again, retrigger := outcome == Again, dirty := true);
    assert TriggerState(s, outcome) == r;
    OrderedRests(r);
  }

  lemma FinishStep(s: UnitState, result: JobResult)
    requires UnitInv(s) && s.trigger.Some?
    ensures Safe(s, Finish(result))
    ensures UnitInv(Rest(FinishTrigger(s, result))) && FinishTrigger(s, result).unit == s.unit
  {
    var job := s.trigger.value;
    if IsRetry(job, result) {
      OrderedRests(s.(trigger := Some(FinishJob(job, result)), retrigger := true, dirty := true));
    } else {
      OrderedRests(s.(trigger := None, interrupt := false, retrigger := false, dirty := true));
    }
  }

  /** Every event that a caller may cause passes all assertions and keeps the invariant. */
  lemma StepKeepsInv(s: UnitState, e: Event)
    requires UnitInv(s) && Enabled(s, e)
    ensures Safe(s, e) && UnitInv(Step(s, e)) && Step(s, e).unit == s.unit
  {
    match e
    case Commit(theirs, active) => CommitStep(s, theirs, active);
    case Remove(kinds, active) => RemoveStep(s, kinds, active);
    case PauseIt =>
    case ResumeIt =>
    case Run(outcome) => RunStep(s, outcome);
    case Finish(result) => FinishStep(s, result);
  }

  // ---------------------------------------------------------------- whole runs

  /** `trace` is a run: it starts with a fresh unit and every event was enabled. */
  ghost predicate IsRun(unit: UnitId, trace: seq<UnitState>, events: seq<Event>) {
    && |trace| == |events| + 1 && trace[0] == NewUnit(unit)
    && forall i :: 0 <= i < |events| ==> Follows(trace[i], events[i], trace[i + 1])
  }

  predicate Follows(s: UnitState, e: Event, s': UnitState) {
    Enabled(s, e) && (Safe(s, e) ==> s' == Step(s, e))
  }

  lemma FollowsKeeps(s: UnitState, e: Event, s': UnitState)
    requires UnitInv(s) && Follows(s, e, s')
    ensures Safe(s, e) && UnitInv(s') && s'.unit == s.unit
  {
    StepKeepsInv(s, e);
  }

  /** No run of a unit fires an assertion, and the invariant holds all along it. */
  lemma {:induction false} RunsAreSafe(unit: UnitId, trace: seq<UnitState>, events: seq<Event>, n: nat)
    requires IsRun(unit, trace, events) && n <= |events|
    ensures UnitInv(trace[n]) && trace[n].unit == unit
    ensures forall i :: 0 <= i < n ==> Safe(trace[i], events[i])
  {
    if n == 0 {
      assert Canon({}) == [];
    } else {
      RunsAreSafe(unit, trace, events, n - 1);
      FollowsKeeps(trace[n - 1], events[n - 1], trace[n - 1 + 1]);
    }
  }

  /** At rest a unit with jobs but no trigger is ready to go on, unless it is paused or its
      one job is a Nop that was suspended beside a Stop: nothing queues that Nop again until
      the unit is made dirty. */
  lemma WaitingJobsAreReady(s: UnitState)
    requires UnitInv(s) && s.trigger.None? && !IsEmpty(s) && !s.pause
    ensures s.ready <==> !(s.sq == [] && s.suspends.Keys == {Nop})
  {
  }

  /** Committing a second Nop does not queue a stranded one. */
  lemma StrandedNopStays(s: UnitState, nop: Job, active: bool)
    requires UnitInv(s) && s.sq == [] && s.suspends.Keys == {Nop}
    requires StageOk(s.unit, map[Nop := nop])
    ensures CommitUnit(s, map[Nop := nop], active).sq == []
    ensures CommitUnit(s, map[Nop := nop], active).suspends.Keys == {Nop}
    ensures CommitUnit(s, map[Nop := nop], active).ready == s.ready
  {
  }

  /** A run strands a Nop: request a Stop and a Nop together, then let the Stop run and end. */
  lemma NopIsStranded(stop: Job, nop: Job) returns (s: UnitState)
    requires StageOk(0, map[Stop := stop, Nop := nop])
    ensures UnitInv(s) && s.trigger.None? && s.suspends.Keys == {Nop} && !s.pause && !s.ready
  {
    var s1 := StopAndNop(stop, nop);
    RunStep(s1, Ok);
    var s2 := Rest(TriggerState(s1, Ok));
    assert s2.suspends.Keys == {Nop} && s2.sq == [];
    FinishStep(s2, Done);
    s := Rest(FinishTrigger(s2, Done));
  }

  lemma StopAndNop(stop: Job, nop: Job) returns (s: UnitState)
    requires StageOk(0, map[Stop := stop, Nop := nop])
    ensures s == CommitUnit(NewUnit(0), map[Stop := stop, Nop := nop], false)
    ensures UnitInv(s) && s.suspends.Keys == {Stop, Nop} && s.sq == [Stop] && s.ready
    ensures s.trigger.None? && !s.pause && s.suspends[Stop].kind == Stop
  {
    var theirs := map[Stop := stop, Nop := nop];
    assert Canon({}) == [];
    CommitStep(NewUnit(0), theirs, false);
    MergedStopAndNop(theirs);
    s := CommitUnit(NewUnit(0), theirs, false);
  }

  lemma MergedStopAndNop(theirs: map<JobKind, Job>)
    requires theirs.Keys == {Stop, Nop} && theirs[Stop].kind == Stop
    ensures var m := MergeSuspends(NewUnit(0), theirs);
            && m.suspends.Keys == {Stop, Nop} && m.suspends[Stop].kind == Stop && m.dirty && !m.order
            && Unmerged(m.suspends.Keys, false) == m.suspends.Keys && Canon(m.suspends.Keys) == [Stop]
  {
  }

  /** Taking a suspended Stop back goes wrong after a short run: a Start is under way, a Stop is
      requested that is about to interrupt it, and is removed before it is run. Then there is
      nothing left that interrupts, the flag is up still, and the readiness decision asserts
      that it is not. */
  lemma StaleInterrupt(start: Job, stop: Job) returns (trace: seq<UnitState>, events: seq<Event>)
    requires StageOk(0, map[Start := start]) && StageOk(0, map[Stop := stop]) && start.id != stop.id
    ensures IsRun(0, trace, events) && |events| == 3
    ensures var s := trace[3]; UnitInv(s) && !Enabled(s, Remove({Stop}, false)) && !Safe(s, Remove({Stop}, false))
  {
    trace, events := StopIsWaiting(start, stop);
    CannotTakeBack(trace[3]);
  }

  lemma StartIsWaiting(start: Job) returns (trace: seq<UnitState>, events: seq<Event>)
    requires StageOk(0, map[Start := start])
    ensures IsRun(0, trace, events) && |events| == 1
    ensures var s := trace[1];
            && UnitInv(s) && s.unit == 0 && s.suspends == map[Start := WaitJob(start)] && s.sq == [Start]
            && s.trigger.None? && s.ready && !s.pause
  {
    var s := CommittedStart(start);
    RunGrows(0, [NewUnit(0)], [], Commit(map[Start := start], false), s);
    trace, events := [NewUnit(0)] + [s], [] + [Commit(map[Start := start], false)];
  }

  lemma StartIsUnderWay(start: Job) returns (trace: seq<UnitState>, events: seq<Event>)
    requires StageOk(0, map[Start := start])
    ensures IsRun(0, trace, events) && |events| == 2
    ensures var s := trace[2];
            && UnitInv(s) && s.unit == 0 && s.suspends == map[] && !s.pause
            && s.trigger.Some? && s.trigger.value.id == start.id
  {
    trace, events := StartIsWaiting(start);
    var s := StartedUnit(trace[1]);
    RunGrows(0, trace, events, Run(Ok), s);
    trace, events := trace + [s], events + [Run(Ok)];
  }

  lemma StopIsWaiting(start: Job, stop: Job) returns (trace: seq<UnitState>, events: seq<Event>)
    requires StageOk(0, map[Start := start]) && StageOk(0, map[Stop := stop]) && start.id != stop.id
    ensures IsRun(0, trace, events) && |events| == 3
    ensures var s := trace[3]; UnitInv(s) && s.suspends.Keys == {Stop} && s.interrupt && !s.pause
  {
    trace, events := StartIsUnderWay(start);
    var s := StopInterrupts(trace[2], stop);
    RunGrows(0, trace, events, Commit(map[Stop := stop], false), s);
    trace, events := trace + [s], events + [Commit(map[Stop := stop], false)];
  }

  lemma CannotTakeBack(s: UnitState)
    requires UnitInv(s) && s.suspends.Keys == {Stop} && s.interrupt && !s.pause
    ensures !Enabled(s, Remove({Stop}, false)) && !Safe(s, Remove({Stop}, false))
  {
    RemoveStep(s, {Stop}, false);
  }

  lemma RunGrows(unit: UnitId, trace: seq<UnitState>, events: seq<Event>, e: Event, s: UnitState)
    requires IsRun(unit, trace, events) && Follows(trace[|events|], e, s)
    ensures IsRun(unit, trace + [s], events + [e])
  {
    var longer, more := trace + [s], events + [e];
    forall i | 0 <= i < |more|
      ensures Follows(longer[i], more[i], longer[i + 1])
    {
      assert i < |events| ==> longer[i] == trace[i] && more[i] == events[i] && longer[i + 1] == trace[i + 1];
    }
  }

  lemma CommittedStart(start: Job) returns (s: UnitState)
    requires StageOk(0, map[Start := start])
    ensures s == CommitUnit(NewUnit(0), map[Start := start], false) && UnitInv(s) && s.unit == 0
    ensures Follows(NewUnit(0), Commit(map[Start := start], false), s)
    ensures s.suspends == map[Start := WaitJob(start)] && s.sq == [Start] && s.trigger.None? && s.ready && !s.pause
  {
    var theirs := map[Start := start];
    assert Canon({}) == [];
    CommitRests(NewUnit(0), theirs, false);
    var m := MergeSuspends(NewUnit(0), theirs);
    assert Start in theirs.Keys && Start !in Kept(NewUnit(0), theirs).Keys;
    assert m.suspends == map[Start := WaitJob(start)] && m.dirty && !m.order;
    assert m.suspends.Keys == {Start} && Unmerged({Start}, false) == {Start} && Canon({Start}) == [Start];
    s := CommitUnit(NewUnit(0), theirs, false);
  }

  lemma StartedUnit(s: UnitState) returns (s': UnitState)
    requires UnitInv(s) && s.suspends.Keys == {Start} && s.sq == [Start] && s.trigger.None? && s.ready && !s.pause
    ensures Follows(s, Run(Ok), s') && UnitInv(s') && s'.unit == s.unit
    ensures s'.suspends == map[] && !s'.pause && s'.trigger.Some? && s'.trigger.value.id == s.suspends[Start].id
  {
    RunStep(s, Ok);
    s' := Rest(TriggerState(s, Ok));
    assert s'.suspends.Keys == {};
  }

  lemma StopInterrupts(s: UnitState, stop: Job) returns (s': UnitState)
    requires UnitInv(s) && s.suspends == map[] && s.trigger.Some? && !s.pause
    requires StageOk(s.unit, map[Stop := stop]) && s.trigger.value.id != stop.id
    ensures Follows(s, Commit(map[Stop := stop], false), s') && UnitInv(s')
    ensures s'.suspends.Keys == {Stop} && s'.interrupt && !s'.pause
  {
    var theirs := map[Stop := stop];
    CommitStep(s, theirs, false);
    var m := MergeSuspends(s, theirs);
    assert Stop in theirs.Keys && Stop !in Kept(s, theirs).Keys;
    assert m.suspends.Keys == {Stop} && m.dirty && !m.order;
    assert Unmerged({Stop}, false) == {Stop} && Canon({Stop}) == [Stop];
    s' := CommitUnit(s, theirs, false);
  }
}
