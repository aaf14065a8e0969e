/** Who sleeps, and whether rightly so: a unit that was held back is paused until a unit it is
    ordered with lets go of something (core/bin/job/table.rs `process_relation`). Some events
    wake nobody although they set a unit free; this says exactly which, and what follows when
    none of them happens. */
module Waking {
  import opened Wrappers
  import opened JobTypes
  import opened JobStore
  import opened UnitSpec
  import opened UnitInvariant
  import opened TableSpec
  import opened Ordering
  import opened UnitTable
  import opened TableIds
  import opened JobTables
  import opened Managers

  // ---------------------------------------------------------------- what others see of a unit

  /** All that the ordering sees of a unit: something of it is about to stop it, and something
      of it takes part at all. */
  datatype Face = Face(stops: bool, works: bool)

  ghost function FaceOf(s: UnitState): Face {
    Face(Stopping(s), Working(s))
  }

  /** A unit with this face holds back the job of `w`. */
  predicate HeldBy(db: UnitDb, w: UnitId, job: Job, v: UnitId, face: Face) {
    && Binding(job)
    && (|| (v in db.DepGetsAtom(w, Before) && face.stops)
        || (v in db.DepGetsAtom(w, After) && job.runKind != Stop && face.works))
  }

  ghost predicate HeldIn(db: UnitDb, units: Units, w: UnitId, job: Job, v: UnitId) {
    v in units && HeldBy(db, w, job, v, FaceOf(units[v]))
  }

  lemma SameFaces(s: UnitState, s': UnitState)
    requires s'.suspends == s.suspends && s'.trigger == s.trigger
    ensures FaceOf(s') == FaceOf(s)
  {
  }

  lemma NextIsOk(s: UnitState)
    requires UnitInv(s) && HasNext(s)
    ensures RunKindOk(NextTrigger(s))
  {
    CanonFrontOf(s);
  }

  /** A unit may run exactly if no other holds it back. */
  lemma RunnableIsFree(db: UnitDb, units: Units, w: UnitId)
    requires UnitsOk(units) && w in units && HasNext(units[w])
    ensures Runnable(db, units, w) <==> forall v :: !HeldIn(db, units, w, NextTrigger(units[w]), v)
  {
    var job := NextTrigger(units[w]);
    NextIsOk(units[w]);
    forall v | v in units
      ensures HeldIn(db, units, w, job, v) <==>
                || (v in db.DepGetsAtom(w, Before) && !OrderedWith(job, units[v], Before))
                || (v in db.DepGetsAtom(w, After) && !OrderedWith(job, units[v], After))
    {
      HeldIs(db, w, job, v, units[v]);
    }
  }

  lemma HeldIs(db: UnitDb, w: UnitId, job: Job, v: UnitId, s: UnitState)
    requires UnitInv(s) && RunKindOk(job)
    ensures HeldBy(db, w, job, v, FaceOf(s)) <==>
              || (v in db.DepGetsAtom(w, Before) && !OrderedWith(job, s, Before))
              || (v in db.DepGetsAtom(w, After) && !OrderedWith(job, s, After))
  {
    HeldBack(job, s, Before);
    HeldBack(job, s, After);
  }

  // ---------------------------------------------------------------- sleeping

  /** Paused, although there is something to do. */
  predicate Sleeps(units: Units, w: UnitId) {
    w in units && units[w].pause && HasNext(units[w])
  }

  /** Nothing holds the unit back any more. */
  ghost predicate InVain(db: UnitDb, units: Units, w: UnitId) {
    Sleeps(units, w) && Runnable(db, units, w)
  }

  // ---------------------------------------------------------------- the events of a table

  datatype TableEvent =
    | Tries(u: UnitId, run: bool, outcome: Outcome)
    | Ends(u: UnitId, result: JobResult)
    | Removes(u: UnitId, kinds: set<JobKind>, result: JobResult)
    | Commits(stage: Units, resting: Units)
    | Wakes(u: UnitId)

  /** What the operations of the table promise of each. The trigger of a paused unit does not
      end: a notice about it resumes it instead. */
  ghost predicate TableStep(db: UnitDb, units: Units, e: TableEvent, now: Units) {
    match e
    case Tries(u, run, outcome) => TriedTo(db, units, u, run, outcome, now)
    case Ends(u, result) => EndedTo(db, units, u, result, now) && !units[u].pause
    case Removes(u, kinds, result) => RemovedTo(db, units, u, kinds, result, now)
    case Commits(stage, resting) => CommittedTo(db, units, stage, resting, now)
    case Wakes(u) => Resumed(units, {u}, now)
  }

  function WokenByRemoval(db: UnitDb, units: Units, u: UnitId, kinds: set<JobKind>, result: JobResult): set<UnitId> {
    if RemovedJobs(units, u, kinds, result) == {} then {} else Neighbours(db, u)
  }

  ghost predicate RemovedTo(
      db: UnitDb, units: Units, u: UnitId, kinds: set<JobKind>, result: JobResult, now: Units)
  {
    && (u in units ==> RemovalSafe(units[u], kinds))
    && Resumed(RemovedUnits(db, units, u, kinds), WokenByRemoval(db, units, u, kinds, result), now)
  }

  ghost predicate CommittedTo(db: UnitDb, units: Units, stage: Units, resting: Units, now: Units) {
    && StageTable(stage) && Committed(units, stage, db.active, resting)
    && Resumed(resting, AllNeighbours(db, FlushedOf(units, stage)), now)
  }

  /** Every event leaves the table at rest. */
  lemma TableStepRests(db: UnitDb, units: Units, e: TableEvent, now: Units)
    requires UnitsOk(units) && TableStep(db, units, e, now)
    ensures UnitsOk(now)
  {
    match e
    case Tries(u, run, outcome) => TryUnitRests(units[u], run, outcome);
    case Ends(u, result) =>
      FinishStep(units[u], result);
      var s := Rest(FinishTrigger(units[u], result));
      PutOk(units, u, s);
      ResumedRests(Put(units, u, s), if IsRetry(units[u].trigger.value, result) then {} else Neighbours(db, u), now);
    case Removes(u, kinds, result) =>
      RemovedRests(db, units, u, kinds);
      ResumedRests(RemovedUnits(db, units, u, kinds), WokenByRemoval(db, units, u, kinds, result), now);
    case Commits(stage, resting) =>
      CommittedRests(units, stage, db.active, resting);
      ResumedRests(resting, AllNeighbours(db, FlushedOf(units, stage)), now);
    case Wakes(u) => ResumedRests(units, {u}, now);
  }

  lemma ResumedRests(units: Units, others: set<UnitId>, now: Units)
    requires UnitsOk(units) && Resumed(units, others, now)
    ensures UnitsOk(now)
  {
    forall u | u in now
      ensures now[u].unit == u && UnitInv(now[u]) && !IsEmpty(now[u])
    {
      ResumeStep(units[u]);
    }
  }

  lemma RemovedRests(db: UnitDb, units: Units, u: UnitId, kinds: set<JobKind>)
    requires UnitsOk(units) && (u in units ==> RemovalSafe(units[u], kinds))
    ensures UnitsOk(RemovedUnits(db, units, u, kinds))
  {
    if u in units {
      RemoveStep(units[u], kinds, db.IsActive(u));
      PutOk(units, u, RemoveUnit(units[u], kinds, db.IsActive(u)));
    }
  }

  lemma CommittedRests(units: Units, stage: Units, active: set<UnitId>, resting: Units)
    requires UnitsOk(units) && StageTable(stage) && Committed(units, stage, active, resting)
    ensures UnitsOk(resting)
  {
    forall u | u in resting
      ensures resting[u].unit == u && UnitInv(resting[u]) && !IsEmpty(resting[u])
    {
      GetInv(units, u);
      CommitRests(Get(units, u), Theirs(stage, u), u in active);
      CommitNotEmpty(Get(units, u), Theirs(stage, u), u in active);
    }
  }

  // ---------------------------------------------------------------- what an event makes of a face

  /** The next job is about to push the trigger out. */
  predicate Interrupts(s: UnitState) {
    s.trigger.Some? && s.interrupt && s.sq != [] && s.sq[0] in s.suspends
  }

  /** Of the job that pushes out and the one that is pushed out, if they are of a kind, one
      ignores the order. */
  predicate InterruptIgnores(s: UnitState)
    requires Interrupts(s)
  {
    || s.suspends[s.sq[0]].attr.ignoreOrder
    || (s.trigger.value.kind == s.sq[0] && s.trigger.value.attr.ignoreOrder)
  }

  /** A suspended job, not the one at the front, that takes part in the order. */
  ghost predicate WaitsBehind(s: UnitState) {
    exists k :: k in s.suspends && Binding(s.suspends[k]) && !IsStopLike(k)
  }

  /** A suspended job that is going to stop the unit. */
  ghost predicate WaitsToStop(s: UnitState) {
    exists k :: k in s.suspends && Binding(s.suspends[k]) && s.suspends[k].runKind == Stop
  }

  /** The jobs of a unit that has just been run. */
  lemma RunJobs(s: UnitState, outcome: Outcome)
    requires UnitInv(s) && s.ready
    ensures Triable(s)
    ensures var s' := TryUnit(s, true, outcome);
            if NaturalReady(s).value then
              && s.sq != [] && s.sq[0] in s.suspends && (Interrupts(s) <==> s.trigger.Some?)
              && s'.suspends == s.suspends - {s.sq[0]}
              && s'.trigger == Some(Triggered(s.suspends[s.sq[0]], if Interrupts(s) then s.trigger else None))
            else !Interrupts(s) && s.trigger.Some? && s'.suspends == s.suspends && s'.trigger == s.trigger
  {
    NextOk(s);
  }

  lemma FaceWithout(s: UnitState, s': UnitState, kind: JobKind, job: Job)
    requires kind in s.suspends && s.trigger.None?
    requires s'.suspends == s.suspends - {kind} && s'.trigger == Some(job)
    requires Binding(job) == Binding(s.suspends[kind]) && job.runKind == s.suspends[kind].runKind
    ensures FaceOf(s') == FaceOf(s)
  {
    forall k | k in s.suspends && k != kind ensures k in s'.suspends && s'.suspends[k] == s.suspends[k] {
    }
  }

  lemma InterruptFace(s: UnitState, s': UnitState)
    requires UnitInv(s) && Interrupts(s) && s'.suspends == s.suspends - {s.sq[0]}
    requires s'.trigger == Some(Triggered(s.suspends[s.sq[0]], s.trigger))
    ensures FaceOf(s') == if InterruptIgnores(s) then Face(false, WaitsBehind(s)) else Face(true, true)
  {
    var kind := s.sq[0];
    assert SuspendOk(s.unit, kind, s.suspends[kind]);
    assert IsStopLike(kind);
    forall k | k in s'.suspends ensures !IsStopLike(k) && s'.suspends[k].runKind != Stop {
      assert SuspendOk(s.unit, k, s.suspends[k]);
    }
    forall k | k in s.suspends && !IsStopLike(k) ensures k in s'.suspends && s'.suspends[k] == s.suspends[k] {
    }
  }

  /** Running a job lessens the face of a unit only by pushing out a trigger that takes part in
      the order, for a job that does not. */
  lemma RunFace(s: UnitState, outcome: Outcome)
    requires UnitInv(s) && s.ready
    ensures Triable(s)
    ensures FaceOf(TryUnit(s, true, outcome))
            == if !Interrupts(s) then FaceOf(s)
               else if InterruptIgnores(s) then Face(false, WaitsBehind(s))
               else Face(true, true)
  {
    RunJobs(s, outcome);
    var s' := TryUnit(s, true, outcome);
    if Interrupts(s) {
      InterruptFace(s, s');
    } else if NaturalReady(s).value {
      FaceWithout(s, s', s.sq[0], s'.trigger.value);
    }
  }

  /** A trigger that ends for good leaves the face of the suspended jobs; a Restart that goes on
      to its second phase does not stop the unit any more. */
  lemma RetryFace(s: UnitState, result: JobResult)
    requires UnitInv(s) && s.trigger.Some? && IsRetry(s.trigger.value, result)
    ensures FaceOf(Rest(FinishTrigger(s, result))) == Face(WaitsToStop(s), Working(s))
  {
  }

  /** After a commit: a suspended job that is not merged away, and that neither side makes
      ignore the order. */
  predicate StaysBinding(s: UnitState, theirs: map<JobKind, Job>, active: bool, k: JobKind) {
    && k in Unmerged(Kept(s, theirs).Keys + theirs.Keys, active) && k != Nop
    && !(k in Kept(s, theirs) && s.suspends[k].attr.ignoreOrder)
    && !(k in theirs && theirs[k].attr.ignoreOrder)
  }

  ghost function CommitFace(s: UnitState, theirs: map<JobKind, Job>, active: bool): Face {
    var bound := s.trigger.Some? && Binding(s.trigger.value);
    Face((bound && s.trigger.value.runKind == Stop) || exists k :: StaysBinding(s, theirs, active, k) && IsStopLike(k),
         bound || exists k :: StaysBinding(s, theirs, active, k))
  }

  lemma CommitFaceIs(s: UnitState, theirs: map<JobKind, Job>, active: bool)
    requires UnitInv(s) && StageOk(s.unit, theirs)
    ensures FaceOf(CommitUnit(s, theirs, active)) == CommitFace(s, theirs, active)
  {
    CommittedJobs(s, theirs, active);
    FaceCommitted(s, theirs, active, CommitUnit(s, theirs, active));
  }

  lemma FaceCommitted(s: UnitState, theirs: map<JobKind, Job>, active: bool, s': UnitState)
    requires SuspendsOk(s.unit, s.suspends) && StageOk(s.unit, theirs) && s'.trigger == s.trigger
    requires s'.suspends.Keys == Unmerged(Kept(s, theirs).Keys + theirs.Keys, active)
    requires forall k :: k in s'.suspends ==> s'.suspends[k] == MergedSuspends(Kept(s, theirs), theirs)[k]
    ensures FaceOf(s') == CommitFace(s, theirs, active)
  {
    forall k
      ensures k in s'.suspends && Binding(s'.suspends[k]) <==> StaysBinding(s, theirs, active, k)
      ensures k in s'.suspends ==> (s'.suspends[k].runKind == Stop <==> IsStopLike(k))
    {
      CommittedBinding(s, theirs, active, s'.suspends, k);
    }
    FaceAmong(s', s.trigger, (k: JobKind) => StaysBinding(s, theirs, active, k));
  }

  lemma CommittedBinding(
      s: UnitState, theirs: map<JobKind, Job>, active: bool, suspends: map<JobKind, Job>, k: JobKind)
    requires SuspendsOk(s.unit, s.suspends) && StageOk(s.unit, theirs)
    requires suspends.Keys == Unmerged(Kept(s, theirs).Keys + theirs.Keys, active)
    requires k in suspends ==> suspends[k] == MergedSuspends(Kept(s, theirs), theirs)[k]
    ensures k in suspends && Binding(suspends[k]) <==> StaysBinding(s, theirs, active, k)
    ensures k in suspends ==> (suspends[k].runKind == Stop <==> IsStopLike(k))
  {
    if k in suspends {
      assert k in suspends.Keys;
      StaysBindingIs(s, theirs, active, k);
    }
  }

  lemma FaceAmong(s: UnitState, trigger: Option<Job>, binding: JobKind -> bool)
    requires s.trigger == trigger
    requires forall k :: k in s.suspends && Binding(s.suspends[k]) <==> binding(k)
    requires forall k :: k in s.suspends ==> (s.suspends[k].runKind == Stop <==> IsStopLike(k))
    ensures var bound := trigger.Some? && Binding(trigger.value);
            FaceOf(s) == Face((bound && trigger.value.runKind == Stop) || exists k :: binding(k) && IsStopLike(k),
                              bound || exists k :: binding(k))
  {
    forall k | k in s.suspends && Binding(s.suspends[k]) ensures binding(k) {
    }
    forall k | binding(k) ensures k in s.suspends && Binding(s.suspends[k]) {
    }
  }

  lemma StaysBindingIs(s: UnitState, theirs: map<JobKind, Job>, active: bool, k: JobKind)
    requires SuspendsOk(s.unit, s.suspends) && StageOk(s.unit, theirs)
    requires k in Kept(s, theirs).Keys + theirs.Keys
    ensures var job := MergedSuspends(Kept(s, theirs), theirs)[k];
            && (job.runKind == Stop <==> IsStopLike(k))
            && (Binding(job) && k in Unmerged(Kept(s, theirs).Keys + theirs.Keys, active)
                <==> StaysBinding(s, theirs, active, k))
  {
    if k in Kept(s, theirs) {
      assert SuspendOk(s.unit, k, s.suspends[k]);
    }
  }

  /** A commit of jobs that all take part in the order lessens the face of no unit that it does
      not flush. */
  lemma PlainCommitFace(s: UnitState, theirs: map<JobKind, Job>, active: bool)
    requires UnitInv(s) && StageOk(s.unit, theirs)
    requires forall k :: k in theirs ==> k == Nop || !theirs[k].attr.ignoreOrder
    requires IsConflict(s.suspends.Keys + theirs.Keys) ==> s.suspends == map[]
    ensures (Stopping(s) ==> CommitFace(s, theirs, active).stops) && (Working(s) ==> CommitFace(s, theirs, active).works)
  {
    var kinds := Kept(s, theirs).Keys + theirs.Keys;
    forall k | k in s.suspends && Binding(s.suspends[k])
      ensures exists k' :: StaysBinding(s, theirs, active, k') && (s.suspends[k].runKind == Stop ==> IsStopLike(k'))
    {
      assert SuspendOk(s.unit, k, s.suspends[k]);
      if StaysBinding(s, theirs, active, k) {
      } else if Restart in kinds {
        assert StaysBinding(s, theirs, active, Restart);
      } else {
        assert StaysBinding(s, theirs, active, if k == Start then Reload else Start);
      }
    }
  }

  // ---------------------------------------------------------------- who is forgotten

  /** If anybody but `u` let go of `w`, it would make no difference. */
  ghost predicate HeldAtMostBy(db: UnitDb, units: Units, w: UnitId, u: UnitId)
    requires w in units && HasNext(units[w])
  {
    forall v :: v != u ==> !HeldIn(db, units, w, NextTrigger(units[w]), v)
  }

  /** A job that ignores the order pushes out the trigger that alone held `w` back. */
  ghost predicate TryForgets(db: UnitDb, units: Units, u: UnitId, w: UnitId)
    requires w in units
  {
    && w != u && u in units && Interrupts(units[u]) && InterruptIgnores(units[u])
    && HasNext(units[w]) && HeldAtMostBy(db, units, w, u)
    && !HeldBy(db, w, NextTrigger(units[w]), u, Face(false, WaitsBehind(units[u])))
  }

  /** What alone held `w` back is the first phase of a Restart, and the second does not. */
  ghost predicate EndForgets(db: UnitDb, units: Units, u: UnitId, result: JobResult, w: UnitId)
    requires w in units
  {
    && u in units && units[u].trigger.Some? && IsRetry(units[u].trigger.value, result)
    && HasNext(units[w]) && HeldAtMostBy(db, units, w, u)
    && !HeldBy(db, w, NextTrigger(units[w]), u, Face(WaitsToStop(units[u]), Working(units[u])))
  }

  /** A job of `w` itself is removed, and nobody holds back the one that is next then. */
  ghost predicate RemoveForgets(db: UnitDb, units: Units, u: UnitId, kinds: set<JobKind>, w: UnitId)
    requires w in units
  {
    && w == u
    && var s' := RemoveUnit(units[u], kinds, db.IsActive(u));
       HasNext(s') && forall v :: !HeldIn(db, units, u, NextTrigger(s'), v)
  }

  /** No neighbour of `w` is flushed, and no unit, with the jobs that it has after the commit,
      holds back the job of `w` that is next then. */
  ghost predicate CommitForgets(db: UnitDb, units: Units, stage: Units, w: UnitId)
    requires w in units
  {
    && w !in AllNeighbours(db, FlushedOf(units, stage))
    && var s' := CommitUnit(units[w], Theirs(stage, w), w in db.active);
       HasNext(s') && forall v :: !HeldAfterCommit(db, units, stage, w, NextTrigger(s'), v)
  }

  /** The event lets go of the sleeping unit `w`, and does not wake it. */
  ghost predicate Forgets(db: UnitDb, units: Units, e: TableEvent, w: UnitId)
    requires w in units
  {
    match e
    case Tries(u, run, _) => run && TryForgets(db, units, u, w)
    case Ends(u, result) => EndForgets(db, units, u, result, w)
    case Removes(u, kinds, _) => RemoveForgets(db, units, u, kinds, w)
    case Commits(stage, _) => CommitForgets(db, units, stage, w)
    case Wakes(_) => false
  }

  ghost predicate HeldAfterCommit(db: UnitDb, units: Units, stage: Units, w: UnitId, job: Job, v: UnitId) {
    (v in units || v in stage) && HeldBy(db, w, job, v, CommitFace(Get(units, v), Theirs(stage, v), v in db.active))
  }

  /** Asleep, and rightly so. */
  ghost predicate SleepsRightly(db: UnitDb, units: Units, w: UnitId) {
    w in units && units[w].pause && !InVain(db, units, w)
  }

  lemma NotItsOwnNeighbour(db: UnitDb, u: UnitId)
    requires Acyclic(db) && AfterIsInverse(db)
    ensures u !in db.DepGetsAtom(u, Before) && u !in db.DepGetsAtom(u, After)
  {
    if u in db.DepGetsAtom(u, Before) {
      assert IsPath(db, [u, u]);
    }
  }

  /** Whoever holds a unit back is one of its neighbours. */
  lemma HolderIsNeighbour(db: UnitDb, w: UnitId, job: Job, u: UnitId, face: Face)
    requires AfterIsInverse(db) && HeldBy(db, w, job, u, face)
    ensures w in Neighbours(db, u)
  {
  }

  /** Some units have been resumed: nobody's face has changed. */
  lemma HeldResumed(db: UnitDb, units: Units, others: set<UnitId>, now: Units, w: UnitId, job: Job)
    requires UnitsOk(units) && Resumed(units, others, now)
    ensures forall v :: HeldIn(db, now, w, job, v) <==> HeldIn(db, units, w, job, v)
  {
    forall v
      ensures HeldIn(db, now, w, job, v) <==> HeldIn(db, units, w, job, v)
    {
      if v in units {
        ResumeStep(units[v]);
        SameFaces(units[v], now[v]);
      }
    }
  }

  /** They are awake, and the others sleep as they did. */
  lemma ResumedFaces(db: UnitDb, units: Units, others: set<UnitId>, now: Units, w: UnitId)
    requires UnitsOk(units) && Resumed(units, others, now)
    ensures InVain(db, now, w) <==> w !in others && InVain(db, units, w)
  {
    if w in others || w !in units {
      return;
    }
    assert now[w] == units[w];
    if HasNext(units[w]) {
      ResumedRests(units, others, now);
      RunnableIsFree(db, units, w);
      RunnableIsFree(db, now, w);
      HeldResumed(db, units, others, now, w, NextTrigger(units[w]));
    }
  }

  /** One other unit has changed its face. */
  lemma FaceChanged(db: UnitDb, units: Units, u: UnitId, now: Units, w: UnitId)
    requires UnitsOk(units) && UnitsOk(now) && u in now && u in units && now == units[u := now[u]]
    requires Sleeps(units, w) && w != u
    ensures InVain(db, now, w)
            <==> HeldAtMostBy(db, units, w, u) && !HeldBy(db, w, NextTrigger(units[w]), u, FaceOf(now[u]))
  {
    assert now[w] == units[w];
    var job := NextTrigger(units[w]);
    RunnableIsFree(db, now, w);
    assert HeldIn(db, now, w, job, u) <==> HeldBy(db, w, job, u, FaceOf(now[u]));
    forall v | v != u
      ensures HeldIn(db, now, w, job, v) <==> HeldIn(db, units, w, job, v)
    {
      assert v in units ==> now[v] == units[v];
    }
  }

  /** If it was only held by a unit that does not lessen its face, it still is. */
  lemma StillHeld(db: UnitDb, units: Units, w: UnitId, u: UnitId, face: Face)
    requires UnitsOk(units) && Sleeps(units, w) && !Runnable(db, units, w) && HeldAtMostBy(db, units, w, u)
    ensures u in units && HeldBy(db, w, NextTrigger(units[w]), u, FaceOf(units[u]))
    ensures (Stopping(units[u]) ==> face.stops) && (Working(units[u]) ==> face.works)
            ==> HeldBy(db, w, NextTrigger(units[w]), u, face)
  {
    RunnableIsFree(db, units, w);
  }

  lemma PausedFace(s: UnitState, outcome: Outcome)
    requires UnitInv(s) && s.ready && Triable(s)
    ensures FaceOf(TryUnit(s, false, outcome)) == FaceOf(s)
  {
  }

  lemma TriesExactly(db: UnitDb, units: Units, u: UnitId, run: bool, outcome: Outcome, now: Units, w: UnitId)
    requires UnitsOk(units) && TriedTo(db, units, u, run, outcome, now) && SleepsRightly(db, units, w)
    ensures InVain(db, now, w) <==> run && TryForgets(db, units, u, w)
  {
    assert w != u && now[w] == units[w];
    if !HasNext(units[w]) {
      return;
    }
    TryUnitRests(units[u], run, outcome);
    OneChanged(units, u, now[u]);
    FaceChanged(db, units, u, now, w);
    if HeldAtMostBy(db, units, w, u) {
      StillHeld(db, units, w, u, FaceOf(now[u]));
      if run {
        RunFace(units[u], outcome);
      } else {
        PausedFace(units[u], outcome);
      }
    }
  }

  lemma OneChanged(units: Units, u: UnitId, s: UnitState)
    requires UnitsOk(units) && UnitInv(s) && s.unit == u && !IsEmpty(s)
    ensures UnitsOk(units[u := s])
  {
  }

  /** Nobody but `u` has changed, and `u` is no neighbour of `w`: whoever held `w` still does. */
  lemma HeldByAnother(db: UnitDb, units: Units, u: UnitId, now: Units, w: UnitId)
    requires AfterIsInverse(db) && UnitsOk(units) && UnitsOk(now) && SleepsRightly(db, units, w) && w != u
    requires forall v :: v in units && v != u ==> v in now && now[v] == units[v]
    requires w !in Neighbours(db, u) || (u in units && u in now && FaceOf(now[u]) == FaceOf(units[u]))
    ensures !InVain(db, now, w)
  {
    if HasNext(units[w]) {
      var job := NextTrigger(units[w]);
      RunnableIsFree(db, units, w);
      RunnableIsFree(db, now, w);
      var v :| HeldIn(db, units, w, job, v);
      HolderIsNeighbour(db, w, job, v, FaceOf(units[v]));
      assert HeldIn(db, now, w, job, v);
    }
  }

  lemma EndsExactly(db: UnitDb, units: Units, u: UnitId, result: JobResult, now: Units, w: UnitId)
    requires AfterIsInverse(db) && UnitsOk(units) && EndedTo(db, units, u, result, now) && !units[u].pause
    requires SleepsRightly(db, units, w)
    ensures InVain(db, now, w) <==> EndForgets(db, units, u, result, w)
  {
    var s' := Rest(FinishTrigger(units[u], result));
    var mid := Put(units, u, s');
    FinishStep(units[u], result);
    PutOk(units, u, s');
    assert w != u && mid[w] == units[w];
    if IsRetry(units[u].trigger.value, result) {
      ResumedFaces(db, mid, {}, now, w);
      if HasNext(units[w]) {
        RetryFace(units[u], result);
        FaceChanged(db, units, u, mid, w);
      }
    } else {
      ResumedFaces(db, mid, Neighbours(db, u), now, w);
      if w !in Neighbours(db, u) {
        HeldByAnother(db, units, u, mid, w);
      }
    }
  }

  lemma RemoveLeaves(s: UnitState, kinds: set<JobKind>, active: bool)
    requires UnitInv(s)
    ensures var s' := RemoveUnit(s, kinds, active);
            s'.trigger == s.trigger && s'.pause == s.pause && s'.unit == s.unit && s'.suspends == s.suspends - kinds
  {
    RemovalMergesNothing(s, kinds, active);
  }

  lemma RemovesOwn(db: UnitDb, units: Units, u: UnitId, kinds: set<JobKind>)
    requires Acyclic(db) && AfterIsInverse(db) && UnitsOk(units) && u in units && RemovalSafe(units[u], kinds)
    requires units[u].pause
    ensures InVain(db, RemovedUnits(db, units, u, kinds), u) <==> RemoveForgets(db, units, u, kinds, u)
  {
    var s' := RemoveUnit(units[u], kinds, db.IsActive(u));
    var mid := RemovedUnits(db, units, u, kinds);
    RemoveLeaves(units[u], kinds, db.IsActive(u));
    RemovedRests(db, units, u, kinds);
    if HasNext(s') {
      assert !IsEmpty(s') && mid == units[u := s'];
      RunnableIsFree(db, mid, u);
      HeldInOthers(db, units, u, mid, NextTrigger(s'));
    }
  }

  lemma HeldInOthers(db: UnitDb, units: Units, u: UnitId, now: Units, job: Job)
    requires Acyclic(db) && AfterIsInverse(db) && u in now && now == units[u := now[u]]
    ensures forall v :: HeldIn(db, now, u, job, v) <==> HeldIn(db, units, u, job, v)
  {
    NotItsOwnNeighbour(db, u);
    forall v
      ensures HeldIn(db, now, u, job, v) <==> HeldIn(db, units, u, job, v)
    {
      assert v != u ==> (v in now <==> v in units) && (v in units ==> now[v] == units[v]);
    }
  }

  lemma RemovesOther(db: UnitDb, units: Units, u: UnitId, kinds: set<JobKind>, result: JobResult, w: UnitId)
    requires AfterIsInverse(db) && UnitsOk(units) && (u in units ==> RemovalSafe(units[u], kinds))
    requires SleepsRightly(db, units, w) && w != u && w !in WokenByRemoval(db, units, u, kinds, result)
    ensures !InVain(db, RemovedUnits(db, units, u, kinds), w)
  {
    if u in units {
      RemovedRests(db, units, u, kinds);
      OthersStay(db, units, u, kinds);
      if w in Neighbours(db, u) {
        RemovesNothing(db, units, u, kinds, result);
      }
      HeldByAnother(db, units, u, RemovedUnits(db, units, u, kinds), w);
    }
  }

  lemma OthersStay(db: UnitDb, units: Units, u: UnitId, kinds: set<JobKind>)
    ensures var mid := RemovedUnits(db, units, u, kinds);
            forall v :: v in units && v != u ==> v in mid && mid[v] == units[v]
  {
  }

  lemma RemovesNothing(db: UnitDb, units: Units, u: UnitId, kinds: set<JobKind>, result: JobResult)
    requires UnitsOk(units) && u in units && RemovedJobs(units, u, kinds, result) == {}
    ensures var mid := RemovedUnits(db, units, u, kinds); u in mid && FaceOf(mid[u]) == FaceOf(units[u])
  {
    var s' := RemoveUnit(units[u], kinds, db.IsActive(u));
    RemoveLeaves(units[u], kinds, db.IsActive(u));
    NothingRemoved(units, u, kinds, result);
    SameFaces(units[u], s');
    assert !IsEmpty(s');
  }

  lemma NothingRemoved(units: Units, u: UnitId, kinds: set<JobKind>, result: JobResult)
    requires u in units
    ensures RemovedJobs(units, u, kinds, result) != {} || units[u].suspends - kinds == units[u].suspends
  {
    if k :| k in kinds && k in units[u].suspends {
      assert FinishJob(units[u].suspends[k], result) in RemovedJobs(units, u, kinds, result);
    }
  }

  lemma RemovesExactly(
      db: UnitDb, units: Units, u: UnitId, kinds: set<JobKind>, result: JobResult, now: Units, w: UnitId)
    requires Acyclic(db) && AfterIsInverse(db) && UnitsOk(units)
    requires RemovedTo(db, units, u, kinds, result, now) && SleepsRightly(db, units, w)
    ensures InVain(db, now, w) <==> RemoveForgets(db, units, u, kinds, w)
  {
    RemovedRests(db, units, u, kinds);
    ResumedFaces(db, RemovedUnits(db, units, u, kinds), WokenByRemoval(db, units, u, kinds, result), now, w);
    RemovedInVain(db, units, u, kinds, result, w);
  }

  lemma RemovedInVain(db: UnitDb, units: Units, u: UnitId, kinds: set<JobKind>, result: JobResult, w: UnitId)
    requires Acyclic(db) && AfterIsInverse(db) && UnitsOk(units)
    requires (u in units ==> RemovalSafe(units[u], kinds)) && SleepsRightly(db, units, w)
    ensures w in WokenByRemoval(db, units, u, kinds, result) ==> w != u
    ensures w !in WokenByRemoval(db, units, u, kinds, result) ==>
              (InVain(db, RemovedUnits(db, units, u, kinds), w) <==> RemoveForgets(db, units, u, kinds, w))
  {
    NotItsOwnNeighbour(db, u);
    if w == u {
      RemovesOwn(db, units, u, kinds);
    } else if w !in WokenByRemoval(db, units, u, kinds, result) {
      RemovesOther(db, units, u, kinds, result, w);
    }
  }

  lemma CommitsExactly(db: UnitDb, units: Units, stage: Units, resting: Units, now: Units, w: UnitId)
    requires UnitsOk(units) && CommittedTo(db, units, stage, resting, now) && SleepsRightly(db, units, w)
    ensures InVain(db, now, w) <==> CommitForgets(db, units, stage, w)
  {
    CommittedRests(units, stage, db.active, resting);
    ResumedFaces(db, resting, AllNeighbours(db, FlushedOf(units, stage)), now, w);
    CommittedJobs(units[w], Theirs(stage, w), w in db.active);
    assert resting[w] == CommitUnit(units[w], Theirs(stage, w), w in db.active);
    if HasNext(resting[w]) {
      RunnableIsFree(db, resting, w);
      HeldCommitted(db, units, stage, resting, w, NextTrigger(resting[w]));
    }
  }

  lemma HeldCommitted(db: UnitDb, units: Units, stage: Units, resting: Units, w: UnitId, job: Job)
    requires UnitsOk(units) && StageTable(stage) && Committed(units, stage, db.active, resting)
    ensures forall v :: HeldIn(db, resting, w, job, v) <==> HeldAfterCommit(db, units, stage, w, job, v)
  {
    forall v
      ensures HeldIn(db, resting, w, job, v) <==> HeldAfterCommit(db, units, stage, w, job, v)
    {
      if v in resting {
        GetInv(units, v);
        CommitFaceIs(Get(units, v), Theirs(stage, v), v in db.active);
      }
    }
  }

  /** A unit that sleeps rightly sleeps in vain after an event exactly if the event forgets it. */
  lemma ForgottenExactly(db: UnitDb, units: Units, e: TableEvent, now: Units, w: UnitId)
    requires Acyclic(db) && AfterIsInverse(db) && UnitsOk(units)
    requires TableStep(db, units, e, now) && SleepsRightly(db, units, w)
    ensures InVain(db, now, w) <==> Forgets(db, units, e, w)
  {
    match e
    case Tries(u, run, outcome) => TriesExactly(db, units, u, run, outcome, now, w);
    case Ends(u, result) => EndsExactly(db, units, u, result, now, w);
    case Removes(u, kinds, result) => RemovesExactly(db, units, u, kinds, result, now, w);
    case Commits(stage, resting) => CommitsExactly(db, units, stage, resting, now, w);
    case Wakes(u) => ResumedFaces(db, units, {u}, now, w);
  }

  ghost predicate AllInOrder(stage: Units) {
    forall u, k :: u in stage && k in stage[u].suspends && k != Nop ==> !stage[u].suspends[k].attr.ignoreOrder
  }

  /** A commit that has no job for a unit, and none that ignores the order, never forgets it. */
  lemma PlainCommitForgetsNobody(db: UnitDb, units: Units, stage: Units, w: UnitId)
    requires AfterIsInverse(db) && UnitsOk(units) && StageTable(stage) && AllInOrder(stage)
    requires SleepsRightly(db, units, w) && w !in stage
    ensures !CommitForgets(db, units, stage, w)
  {
    NothingToCommit(units[w], w in db.active);
    if HasNext(units[w]) && w !in AllNeighbours(db, FlushedOf(units, stage)) {
      RunnableIsFree(db, units, w);
      var job := NextTrigger(units[w]);
      var v :| HeldIn(db, units, w, job, v);
      HolderIsNeighbour(db, w, job, v, FaceOf(units[v]));
      HolderStays(db, units, stage, w, job, v);
    }
  }

  lemma HolderStays(db: UnitDb, units: Units, stage: Units, w: UnitId, job: Job, v: UnitId)
    requires UnitsOk(units) && StageTable(stage) && AllInOrder(stage)
    requires w in Neighbours(db, v) && w !in AllNeighbours(db, FlushedOf(units, stage)) && HeldIn(db, units, w, job, v)
    ensures HeldAfterCommit(db, units, stage, w, job, v)
  {
    assert v !in FlushedOf(units, stage);
    PlainCommitFace(units[v], Theirs(stage, v), v in db.active);
  }

  // ---------------------------------------------------------------- whole runs

  /** Those that were held back when they were last tried. */
  function Waiting(waiting: set<UnitId>, e: TableEvent): set<UnitId> {
    match e
    case Tries(u, run, _) => if run then waiting - {u} else waiting + {u}
    case _ => waiting
  }

  /** Of the paused units, those that were held back still are, and the others have a trigger
      that is to be run again. */
  ghost predicate SleepersOk(db: UnitDb, units: Units, waiting: set<UnitId>) {
    forall w :: w in units && units[w].pause ==> SleeperOk(db, units, waiting, w)
  }

  ghost predicate SleeperOk(db: UnitDb, units: Units, waiting: set<UnitId>, w: UnitId)
    requires w in units
  {
    if w in waiting then !InVain(db, units, w) else units[w].trigger.Some?
  }

  /** The event forgets no unit that was held back. */
  ghost predicate ForgetsNobody(db: UnitDb, units: Units, waiting: set<UnitId>, e: TableEvent) {
    forall w :: w in units && w in waiting && units[w].pause ==> !Forgets(db, units, e, w)
  }

  /** Only a try pauses a unit, and the trigger of a paused one stays. */
  lemma OnlyTriesPause(db: UnitDb, units: Units, e: TableEvent, now: Units, w: UnitId)
    requires UnitsOk(units) && TableStep(db, units, e, now) && w in now && now[w].pause && !(e.Tries? && w == e.u)
    ensures w in units && units[w].pause && now[w].trigger == units[w].trigger
  {
    match e
    case Tries(u, run, outcome) =>
    case Ends(u, result) => EndsPauses(db, units, u, result, now, w);
    case Removes(u, kinds, result) => RemovesPauses(db, units, u, kinds, result, now, w);
    case Commits(stage, resting) => CommitsPauses(db, units, stage, resting, now, w);
    case Wakes(u) => ResumeStep(units[w]);
  }

  lemma EndsPauses(db: UnitDb, units: Units, u: UnitId, result: JobResult, now: Units, w: UnitId)
    requires UnitsOk(units) && EndedTo(db, units, u, result, now) && !units[u].pause && w in now && now[w].pause
    ensures w in units && units[w].pause && now[w].trigger == units[w].trigger
  {
    var mid := Put(units, u, Rest(FinishTrigger(units[u], result)));
    assert w in mid && now[w] == mid[w];
    assert !Rest(FinishTrigger(units[u], result)).pause;
  }

  lemma RemovesPauses(
      db: UnitDb, units: Units, u: UnitId, kinds: set<JobKind>, result: JobResult, now: Units, w: UnitId)
    requires UnitsOk(units) && RemovedTo(db, units, u, kinds, result, now) && w in now && now[w].pause
    ensures w in units && units[w].pause && now[w].trigger == units[w].trigger
  {
    RemovedPauses(db, units, u, kinds, w);
    assert now[w] == RemovedUnits(db, units, u, kinds)[w];
  }

  lemma RemovedPauses(db: UnitDb, units: Units, u: UnitId, kinds: set<JobKind>, w: UnitId)
    requires UnitsOk(units)
    ensures var mid := RemovedUnits(db, units, u, kinds);
            w in mid && mid[w].pause ==> w in units && units[w].pause && mid[w].trigger == units[w].trigger
  {
    if w == u && u in units {
      RemoveLeaves(units[u], kinds, db.IsActive(u));
    }
  }

  lemma CommitsPauses(db: UnitDb, units: Units, stage: Units, resting: Units, now: Units, w: UnitId)
    requires UnitsOk(units) && CommittedTo(db, units, stage, resting, now) && w in now && now[w].pause
    ensures w in units && units[w].pause && now[w].trigger == units[w].trigger
  {
    assert w in resting && now[w] == resting[w];
    CommitPauses(units, Theirs(stage, w), w in db.active, w);
  }

  lemma CommitPauses(units: Units, theirs: map<JobKind, Job>, active: bool, w: UnitId)
    requires UnitsOk(units) && StageOk(w, theirs)
    ensures var s' := CommitUnit(Get(units, w), theirs, active);
            s'.pause ==> w in units && units[w].pause && s'.trigger == units[w].trigger
  {
    GetInv(units, w);
    CommittedJobs(Get(units, w), theirs, active);
  }

  /** A unit that has just been tried in vain sleeps rightly. */
  lemma PausedIsHeld(db: UnitDb, units: Units, u: UnitId, outcome: Outcome, now: Units)
    requires UnitsOk(units) && TriedTo(db, units, u, false, outcome, now)
    ensures !InVain(db, now, u)
  {
    TryUnitRests(units[u], false, outcome);
    OneChanged(units, u, now[u]);
    PausedFace(units[u], outcome);
    PausedNext(units[u], outcome);
    var v := Holder(db, units, u);
    if HasNext(now[u]) {
      SameFace(db, units, now, u, NextTrigger(units[u]), v);
      NotInVain(db, now, u, v);
    }
  }

  lemma Holder(db: UnitDb, units: Units, w: UnitId) returns (v: UnitId)
    requires UnitsOk(units) && w in units && HasNext(units[w]) && !Runnable(db, units, w)
    ensures HeldIn(db, units, w, NextTrigger(units[w]), v)
  {
    RunnableIsFree(db, units, w);
    v :| HeldIn(db, units, w, NextTrigger(units[w]), v);
  }

  lemma NotInVain(db: UnitDb, units: Units, w: UnitId, v: UnitId)
    requires UnitsOk(units) && w in units && HasNext(units[w]) && HeldIn(db, units, w, NextTrigger(units[w]), v)
    ensures !InVain(db, units, w)
  {
    RunnableIsFree(db, units, w);
  }

  lemma PausedNext(s: UnitState, outcome: Outcome)
    requires UnitInv(s) && s.ready && Triable(s) && HasNext(s)
    ensures var s' := TryUnit(s, false, outcome); HasNext(s') ==> NextTrigger(s') == NextTrigger(s)
  {
  }

  lemma SameFace(db: UnitDb, units: Units, now: Units, w: UnitId, job: Job, v: UnitId)
    requires HeldIn(db, units, w, job, v) && v in now && FaceOf(now[v]) == FaceOf(units[v])
    ensures HeldIn(db, now, w, job, v)
  {
  }

  lemma TriedSleeps(db: UnitDb, units: Units, u: UnitId, run: bool, outcome: Outcome, now: Units)
    requires UnitsOk(units) && TriedTo(db, units, u, run, outcome, now)
    ensures if run then now[u].trigger.Some? else !InVain(db, now, u)
  {
    if run {
      RunStep(units[u], outcome);
    } else {
      PausedIsHeld(db, units, u, outcome, now);
    }
  }

  /** Nobody sleeps in vain after an event exactly if it forgets nobody. */
  lemma SleepersStep(db: UnitDb, units: Units, waiting: set<UnitId>, e: TableEvent, now: Units)
    requires Acyclic(db) && AfterIsInverse(db) && UnitsOk(units)
    requires SleepersOk(db, units, waiting) && TableStep(db, units, e, now)
    ensures UnitsOk(now)
    ensures SleepersOk(db, now, Waiting(waiting, e)) <==> ForgetsNobody(db, units, waiting, e)
  {
    TableStepRests(db, units, e, now);
    if ForgetsNobody(db, units, waiting, e) {
      forall w | w in now && now[w].pause
        ensures SleeperOk(db, now, Waiting(waiting, e), w)
      {
        NewSleeper(db, units, waiting, e, now, w);
      }
    } else {
      var w :| w in units && w in waiting && units[w].pause && Forgets(db, units, e, w);
      OldSleeper(db, units, waiting, e, now, w);
    }
  }

  lemma OldSleeper(db: UnitDb, units: Units, waiting: set<UnitId>, e: TableEvent, now: Units, w: UnitId)
    requires Acyclic(db) && AfterIsInverse(db) && UnitsOk(units)
    requires SleepersOk(db, units, waiting) && TableStep(db, units, e, now)
    requires w in units && w in waiting && units[w].pause
    ensures w in Waiting(waiting, e) && (InVain(db, now, w) <==> Forgets(db, units, e, w))
  {
    assert SleeperOk(db, units, waiting, w);
    ForgottenExactly(db, units, e, now, w);
  }

  lemma NewSleeper(db: UnitDb, units: Units, waiting: set<UnitId>, e: TableEvent, now: Units, w: UnitId)
    requires Acyclic(db) && AfterIsInverse(db) && UnitsOk(units)
    requires SleepersOk(db, units, waiting) && TableStep(db, units, e, now) && ForgetsNobody(db, units, waiting, e)
    requires w in now && now[w].pause
    ensures SleeperOk(db, now, Waiting(waiting, e), w)
  {
    if e.Tries? && w == e.u {
      TriedSleeps(db, units, e.u, e.run, e.outcome, now);
      return;
    }
    OnlyTriesPause(db, units, e, now, w);
    assert SleeperOk(db, units, waiting, w);
    if w in waiting {
      OldSleeper(db, units, waiting, e, now, w);
    }
  }

  /** At rest, and nobody sleeps: a new table, or one that has just been rebuilt. */
  ghost predicate Awake(units: Units) {
    UnitsOk(units) && forall u :: u in units ==> !units[u].pause
  }

  /** A run of the table, from where nobody sleeps. The orderings are fixed; units come up and go
      down. */
  ghost predicate IsTableRun(dbs: seq<UnitDb>, trace: seq<Units>, events: seq<TableEvent>) {
    && |dbs| == |trace| == |events| + 1 && Awake(trace[0])
    && (forall i :: 0 <= i < |dbs| ==> dbs[i].deps == dbs[0].deps)
    && forall i :: 0 <= i < |events| ==> TableStep(dbs[i], trace[i], events[i], trace[i + 1])
  }

  function WaitingAfter(events: seq<TableEvent>): set<UnitId> {
    if events == [] then {} else Waiting(WaitingAfter(events[..|events| - 1]), events[|events| - 1])
  }

  /** Until an event forgets a unit, nobody ever sleeps in vain. */
  lemma {:induction false} NobodyIsForgotten(dbs: seq<UnitDb>, trace: seq<Units>, events: seq<TableEvent>, n: nat)
    requires IsTableRun(dbs, trace, events) && n <= |events| && Acyclic(dbs[0]) && AfterIsInverse(dbs[0])
    requires forall i :: 0 <= i < n ==> ForgetsNobody(dbs[i], trace[i], WaitingAfter(events[..i]), events[i])
    ensures UnitsOk(trace[n]) && SleepersOk(dbs[n], trace[n], WaitingAfter(events[..n]))
  {
    if n > 0 {
      NobodyIsForgotten(dbs, trace, events, n - 1);
      SameOrderings(dbs[0], dbs[n - 1]);
      var waiting := WaitingAfter(events[..n - 1]);
      SleepersStep(dbs[n - 1], trace[n - 1], waiting, events[n - 1], trace[n]);
      assert events[..n][..n - 1] == events[..n - 1];
      SameSleepers(dbs[n - 1], dbs[n], trace[n], Waiting(waiting, events[n - 1]));
    }
  }

  lemma SameOrderings(db: UnitDb, db': UnitDb)
    requires db.deps == db'.deps && Acyclic(db) && AfterIsInverse(db)
    ensures Acyclic(db') && AfterIsInverse(db')
  {
    forall path | IsPath(db', path)
      ensures path[0] != path[|path| - 1]
    {
      assert forall i :: 0 <= i < |path| - 1 ==> db'.DepGetsAtom(path[i], Before) == db.DepGetsAtom(path[i], Before);
      assert IsPath(db, path);
    }
    forall u, v
      ensures v in db'.DepGetsAtom(u, After) <==> u in db'.DepGetsAtom(v, Before)
    {
      assert db'.DepGetsAtom(u, After) == db.DepGetsAtom(u, After);
      assert db'.DepGetsAtom(v, Before) == db.DepGetsAtom(v, Before);
    }
  }

  lemma SameSleepers(db: UnitDb, db': UnitDb, units: Units, waiting: set<UnitId>)
    requires db.deps == db'.deps && SleepersOk(db, units, waiting)
    ensures SleepersOk(db', units, waiting)
  {
    forall w | w in units
      ensures InVain(db', units, w) <==> InVain(db, units, w)
    {
      assert db'.DepGetsAtom(w, Before) == db.DepGetsAtom(w, Before);
      assert db'.DepGetsAtom(w, After) == db.DepGetsAtom(w, After);
    }
  }

  // ---------------------------------------------------------------- the end of all work

  /** A Nop that was suspended beside a Stop, and that nothing queues any more. */
  predicate Stranded(s: UnitState) {
    s.sq == [] && s.suspends.Keys == {Nop}
  }

  /** Unless a unit was forgotten: once no unit is ready and no job under way, all has been
      done, except for stranded Nops. */
  lemma AllIsDone(db: UnitDb, units: Units, waiting: set<UnitId>)
    requires Acyclic(db) && AfterIsInverse(db) && UnitsOk(units) && SleepersOk(db, units, waiting)
    requires ReadySet(units) == {} && forall u :: u in units ==> units[u].trigger.None?
    ensures forall u :: u in units ==> Stranded(units[u])
  {
    var rest := map u | u in units && !Stranded(units[u]) :: units[u];
    assert forall u :: u in units && !Stranded(units[u]) ==> u in rest;
    if rest != map[] {
      var u := SomebodySleepsInVain(db, units, waiting, rest);
      assert false;
    }
  }

  lemma SomebodySleepsInVain(db: UnitDb, units: Units, waiting: set<UnitId>, rest: Units) returns (u: UnitId)
    requires Acyclic(db) && AfterIsInverse(db) && UnitsOk(units)
    requires ReadySet(units) == {} && forall u :: u in units ==> units[u].trigger.None?
    requires rest != map[] && Unstranded(units, rest)
    ensures u in units && units[u].pause && InVain(db, units, u)
  {
    forall v | v in rest
      ensures HasNext(rest[v]) && rest[v].pause
    {
      assert v !in ReadySet(units);
      MustBePaused(units[v]);
    }
    u := SomeUnitMayRun(db, rest);
    FreeAmongStranded(db, units, rest, u);
  }

  /** All units but the stranded ones. */
  ghost predicate Unstranded(units: Units, rest: Units) {
    && (forall v :: v in rest ==> v in units && rest[v] == units[v] && !Stranded(units[v]))
    && (forall v :: v in units && v !in rest ==> Stranded(units[v]))
  }

  lemma MustBePaused(s: UnitState)
    requires UnitInv(s) && !IsEmpty(s) && s.trigger.None? && !s.ready && !Stranded(s)
    ensures s.pause && HasNext(s)
  {
    if !s.pause {
      WaitingJobsAreReady(s);
    }
    CanonEmpty(s.suspends.Keys);
    CanonFront(s.suspends.Keys);
  }

  /** A stranded Nop holds nobody back. */
  lemma StrandedFace(s: UnitState)
    requires UnitInv(s) && Stranded(s) && s.trigger.None?
    ensures FaceOf(s) == Face(false, false)
  {
    assert SuspendOk(s.unit, Nop, s.suspends[Nop]);
  }

  lemma FreeAmongStranded(db: UnitDb, units: Units, rest: Units, u: UnitId)
    requires UnitsOk(units) && Unstranded(units, rest) && forall v :: v in units ==> units[v].trigger.None?
    requires u in rest && HasNext(rest[u]) && Runnable(db, rest, u)
    ensures Runnable(db, units, u)
  {
    var job := NextTrigger(units[u]);
    assert UnitsOk(rest);
    RunnableIsFree(db, rest, u);
    RunnableIsFree(db, units, u);
    forall v
      ensures !HeldIn(db, units, u, job, v)
    {
      assert !HeldIn(db, rest, u, job, v);
      if v in units && v !in rest {
        StrandedFace(units[v]);
      }
    }
  }
}
