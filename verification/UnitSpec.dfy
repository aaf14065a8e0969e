/** The state of one unit's jobs (core/bin/job/junit.rs) as a value: what each operation of
    `JobUnitData` makes of it, and the invariant every run of those operations keeps. */
module UnitSpec {
  import opened Wrappers
  import opened JobTypes
  import opened JobStore

  datatype UnitState = UnitState(
    unit: UnitId,
    suspends: map<JobKind, Job>,
    trigger: Option<Job>,
    order: bool,
    sq: seq<JobKind>,
    interrupt: bool,
    retrigger: bool,
    dirty: bool,
    pause: bool,
    ready: bool,
    upReady: bool)

  function NewUnit(unit: UnitId): UnitState {
    UnitState(unit, map[], None, true, [], false, false, false, false, false, false)
  }

  predicate IsEmpty(s: UnitState) {
    s.trigger.None? && s.suspends == map[]
  }

  // ---------------------------------------------------------------- queries

  /** Some kind other than Stop and Nop. */
  predicate HasOthers(kinds: set<JobKind>) {
    || Start in kinds || Reload in kinds || Restart in kinds || Verify in kinds
    || TryReload in kinds || TryRestart in kinds || ReloadOrStart in kinds
  }

  /** A Stop agrees with nothing but a Nop. */
  predicate IsConflict(kinds: set<JobKind>) {
    Stop in kinds && HasOthers(kinds)
  }

  predicate IsIrreversible(s: UnitState) {
    exists k :: k in s.suspends && s.suspends[k].attr.irreversible
  }

  predicate IsStopLike(kind: JobKind) {
    kind == Stop || kind == Restart
  }

  /** Some(true): the front of the queue is next. Some(false): the trigger is run again. */
  function NaturalReady(s: UnitState): Option<bool> {
    if !s.order then None
    else if s.trigger.Some? && s.sq != [] then
      if s.interrupt then Some(true) else if s.retrigger then Some(false) else None
    else if s.trigger.Some? then
      if s.retrigger then Some(false) else None
    else if s.sq != [] then Some(true)
    else None
  }

  function CalcReady(s: UnitState): Option<bool> {
    if s.pause then None else NaturalReady(s)
  }

  /** The assertions on the way to a readiness decision: nothing is there to interrupt, or
      to be interrupted, unless both a trigger and a queue exist. */
  predicate ReadyAsserts(s: UnitState) {
    !s.pause && s.order && (s.trigger.Some? <==> s.sq == []) ==> !s.interrupt
  }

  function UpdateReady(s: UnitState): UnitState {
    s.(ready := CalcReady(s).Some?)
  }

  /** The job that a ready unit runs next. */
  function NextTrigger(s: UnitState): Job
    requires NaturalReady(s).Some? && (NaturalReady(s).value ==> s.sq[0] in s.suspends)
  {
    if NaturalReady(s).value then s.suspends[s.sq[0]] else s.trigger.value
  }

  /** `job` is not held back by any job of the unit `other`. */
  predicate OrderedWith(job: Job, other: UnitState, atom: Atom)
    requires atom == Before || atom == After
  {
    || job.attr.ignoreOrder || job.kind == Nop
    || ((forall k :: k in other.suspends ==> IsOrderWith(job, other.suspends[k], atom) <= 0)
        && (other.trigger.Some? ==> IsOrderWith(job, other.trigger.value, atom) <= 0))
  }

  // ---------------------------------------------------------------- operations

  function Opt(kinds: set<JobKind>, kind: JobKind): seq<JobKind> {
    if kind in kinds then [kind] else []
  }

  /** A Stop waits alone; else the job that changes the unit goes first, then Verify, then Nop. */
  function Canon(kinds: set<JobKind>): seq<JobKind> {
    if Stop in kinds then [Stop] else MutOps(kinds) + (Opt(kinds, Verify) + Opt(kinds, Nop))
  }

  function MutOps(kinds: set<JobKind>): seq<JobKind> {
    Opt(kinds, Restart) + Opt(kinds, Start) + Opt(kinds, Reload)
  }

  /** The suspended kinds that others make superfluous. */
  predicate IsMerged(kinds: set<JobKind>, active: bool, k: JobKind) {
    && Stop !in kinds
    && (k == Start || k == Reload)
    && (Restart in kinds || (Start in kinds && Reload in kinds && (k == Start <==> active)))
  }

  function Unmerged(kinds: set<JobKind>, active: bool): set<JobKind> {
    set k | k in kinds && !IsMerged(kinds, active, k)
  }

  function InsertSuspend(s: UnitState, job: Job): UnitState {
    s.(suspends := s.suspends[job.kind := job], order := false, dirty := true, ready := false)
  }

  function RemoveSuspend(s: UnitState, kind: JobKind): UnitState {
    s.(suspends := s.suspends - {kind}, order := false, dirty := true, ready := false)
  }

  function FlushSuspends(s: UnitState): UnitState {
    s.(suspends := map[], order := false, dirty := true, ready := false)
  }

  function MergedSuspends(ours: map<JobKind, Job>, theirs: map<JobKind, Job>): (r: map<JobKind, Job>)
    ensures r.Keys == ours.Keys + theirs.Keys
  {
    map k | k in ours.Keys + theirs.Keys ::
      if k !in theirs then ours[k]
      else if k in ours then MergeAttr(ours[k], theirs[k])
      else WaitJob(theirs[k])
  }

  /** What is left of the suspended jobs before those of a stage are added. */
  function Kept(s: UnitState, theirs: map<JobKind, Job>): map<JobKind, Job> {
    if IsConflict(s.suspends.Keys + theirs.Keys) then map[] else s.suspends
  }

  /** Merging attributes alone leaves the queue as it is: only a new or a flushed job
      makes the unit dirty. */
  function MergeSuspends(s: UnitState, theirs: map<JobKind, Job>): UnitState {
    var kept := Kept(s, theirs);
    var touched := IsConflict(s.suspends.Keys + theirs.Keys) || !(theirs.Keys <= kept.Keys);
    var s1 := s.(suspends := MergedSuspends(kept, theirs));
    if touched then s1.(order := false, dirty := true, ready := false) else s1
  }

  function OrderQueue(s: UnitState, active: bool): UnitState {
    if s.order then s
    else
      var kinds := Unmerged(s.suspends.Keys, active);
      s.(suspends := map k | k in kinds :: s.suspends[k], sq := Canon(kinds), order := true)
  }

  function MarkInterrupt(s: UnitState): UnitState {
    if s.trigger.Some? && s.sq != [] then s.(interrupt := IsStopLike(s.sq[0])) else s
  }

  function Reshuffle(s: UnitState, active: bool): UnitState {
    UpdateReady(MarkInterrupt(OrderQueue(s, active)))
  }

  function Pause(s: UnitState): UnitState {
    UpdateReady(s.(dirty := true, pause := true))
  }

  function Resume(s: UnitState): UnitState {
    UpdateReady(s.(dirty := true, pause := false))
  }

  function Retrigger(s: UnitState): UnitState {
    UpdateReady(s.(retrigger := true, dirty := true))
  }

  function InsertTrigger(s: UnitState, job: Job): UnitState {
    Retrigger(s.(trigger := Some(job)))
  }

  function FinishTrigger(s: UnitState, result: JobResult): UnitState
    requires s.trigger.Some?
  {
    var job := s.trigger.value;
    if IsRetry(job, result)
    then Retrigger(s.(trigger := Some(FinishJob(job, result))))
    else UpdateReady(s.(trigger := None, interrupt := false, retrigger := false, dirty := true))
  }

  /** The front of the queue becomes the trigger, or the trigger is taken again. */
  function NextState(s: UnitState): UnitState
    requires CalcReady(s).Some? && (CalcReady(s).value ==> s.sq[0] in s.suspends)
  {
    if CalcReady(s).value then
      UpdateReady(s.(trigger := Some(s.suspends[s.sq[0]]), suspends := s.suspends - {s.sq[0]}, sq := s.sq[1..],
                     interrupt := false, retrigger := if s.interrupt then false else s.retrigger, dirty := true))
    else
      UpdateReady(s.(retrigger := false, dirty := true))
  }

  /** The job that the next trigger pushes out. */
  function Replaced(s: UnitState): Option<Job> {
    if CalcReady(s) == Some(true) && s.interrupt then s.trigger else None
  }

  /** What `Job::run` reports: it is under way, it has to be tried again, or it is over. */
  datatype Outcome = Ok | Again | Ended(result: JobResult)

  /** The new trigger as it is run: it takes over the attributes of a replaced job of its kind. */
  function Triggered(next: Job, replaced: Option<Job>): Job {
    RunJob(if replaced.Some? && replaced.value.kind == next.kind then MergeAttr(next, replaced.value) else next)
  }

  function TriggerState(s: UnitState, outcome: Outcome): UnitState
    requires CalcReady(s).Some? && (CalcReady(s).value ==> s.sq[0] in s.suspends)
  {
    RunNext(NextState(s), Triggered(NextState(s).trigger.value, Replaced(s)), outcome)
  }

  /** The new trigger has been run; it may have to be tried again. */
  function RunNext(s: UnitState, job: Job, outcome: Outcome): UnitState {
    var s' := s.(trigger := Some(job));
    if outcome == Again then Retrigger(Pause(s')) else s'
  }

  /** After a unit has been synchronised with the ready index. */
  function Rest(s: UnitState): UnitState {
    s.(dirty := false, upReady := s.ready)
  }

  function ReshuffleEntry(s: UnitState, active: bool): UnitState {
    if s.dirty then Rest(Reshuffle(s, active)) else s
  }

  function CommitUnit(s: UnitState, theirs: map<JobKind, Job>, active: bool): UnitState {
    ReshuffleEntry(MergeSuspends(s, theirs), active)
  }

  function RemoveKinds(s: UnitState, kinds: set<JobKind>): UnitState {
    s.(suspends := s.suspends - kinds, order := false, dirty := true, ready := false)
  }

  function RemoveUnit(s: UnitState, kinds: set<JobKind>, active: bool): UnitState {
    Rest(Reshuffle(RemoveKinds(s, kinds), active))
  }

  // ---------------------------------------------------------------- the invariant

  predicate SuspendOk(unit: UnitId, k: JobKind, j: Job) {
    j.kind == k && j.unit == unit && IsBasicOp(k) && j.stage == Wait && j.runKind == RkindNew(k)
  }

  predicate SuspendsOk(unit: UnitId, suspends: map<JobKind, Job>) {
    forall k :: k in suspends ==> SuspendOk(unit, k, suspends[k])
  }

  predicate TriggerOk(unit: UnitId, trigger: Option<Job>) {
    trigger.Some? ==>
      var j := trigger.value;
      j.unit == unit && IsBasicOp(j.kind) && j.stage == Running && RunKindOk(j)
  }

  /** The suspended kinds agree with each other, and the redundant ones are merged. */
  predicate Settled(kinds: set<JobKind>) {
    && !IsConflict(kinds)
    && (Restart in kinds ==> Start !in kinds && Reload !in kinds)
    && (Start in kinds ==> Reload !in kinds)
  }

  /** Every suspended job is queued, except for a Nop that waited beside a Stop. */
  predicate QueueOk(sq: seq<JobKind>, kinds: set<JobKind>) {
    sq == Canon(kinds) || (sq == [] && kinds == {Nop})
  }

  /** Interrupting is what a Stop or Restart at the front does to a trigger, and nothing else. */
  predicate FlagsOk(trigger: Option<Job>, sq: seq<JobKind>, interrupt: bool, retrigger: bool) {
    && (interrupt <==> trigger.Some? && sq != [] && IsStopLike(sq[0]))
    && (trigger.None? ==> !retrigger)
  }

  /** A unit between operations of the table. */
  predicate UnitInv(s: UnitState) {
    && SuspendsOk(s.unit, s.suspends) && TriggerOk(s.unit, s.trigger) && Settled(s.suspends.Keys)
    && s.order && QueueOk(s.sq, s.suspends.Keys) && FlagsOk(s.trigger, s.sq, s.interrupt, s.retrigger)
    && !s.dirty && s.ready == CalcReady(s).Some? && s.upReady == s.ready
  }
}
