/** The vocabulary of the job engine (core/bin/job/entry.rs, core/bin/job/rentry.rs):
    job kinds, attributes, stages and results, and the pure matches over them. */
module JobTypes {
  import opened Wrappers

  /** Units are ordered by their id; only the order matters to the engine. */
  type UnitId = nat

  datatype Error = Input | Conflict | Internal

  datatype Result<+T> = Success(value: T) | Failure(error: Error)

  datatype JobKind =
    | Start | Stop | Reload | Restart   // can change the stage of the unit
    | Verify | Nop                      // can not
    | TryReload | TryRestart | ReloadOrStart  // compound

  predicate IsBasicOp(kind: JobKind) {
    kind == Start || kind == Stop || kind == Reload || kind == Restart || kind == Verify || kind == Nop
  }

  predicate AllBasic(kinds: set<JobKind>) {
    forall k :: k in kinds ==> IsBasicOp(k)
  }

  datatype JobAttr = JobAttr(ignoreOrder: bool, irreversible: bool, force: bool, noRelevancy: bool) {
    function Or(other: JobAttr): JobAttr {
      JobAttr(ignoreOrder || other.ignoreOrder, irreversible || other.irreversible,
              force || other.force, noRelevancy || other.noRelevancy)
    }
  }

  const PLAIN_ATTR := JobAttr(false, false, false, false)

  datatype JobResult =
    | Done | Cancelled | TimeOut | Failed | Dependency | Skipped
    | Invalid | Assert | UnSupported | Collected | Once | Merged

  datatype JobStage = Init | Wait | Running | End(result: JobResult)

  datatype JobMode =
    | Fail | Replace | ReplaceIrreversible | Isolate | Flush
    | IgnoreDependencies | IgnoreRequirements | Trigger

  datatype Atom =
    | PullInStart | PullInStartIgnored | PullInVerify | PullInStop | PullInStopIgnored
    | PropagateStop | PropagateRestart | PropagatesReloadTo
    | PropagateStartFailure | PropagateStopFailure
    | Before | After | TriggeredBy

  datatype ActiveState =
    | UnitActive | UnitReloading | UnitInActive | UnitFailed
    | UnitActivating | UnitDeActivating | UnitMaintenance

  /** What is requested of a unit, and the part of a job that never changes. */
  datatype JobConf = JobConf(unit: UnitId, kind: JobKind)

  datatype Job = Job(id: nat, unit: UnitId, kind: JobKind, attr: JobAttr, runKind: JobKind, stage: JobStage)

  function RkindNew(kind: JobKind): JobKind {
    if kind == Restart then Stop else kind
  }

  /** The kind to run once `last` is done; the same one when nothing is left to do. */
  function RkindMap(kind: JobKind, last: JobKind): JobKind {
    match (kind, last)
    case (Restart, Stop) => Start
    case (Restart, Start) => Start
    case _ => kind
  }

  function NewJob(id: nat, conf: JobConf): Job {
    Job(id, conf.unit, conf.kind, PLAIN_ATTR, RkindNew(conf.kind), Init)
  }

  function InitAttr(job: Job, mode: JobMode): Job {
    job.(attr := job.attr.(
      ignoreOrder := job.attr.ignoreOrder || mode == IgnoreDependencies || job.kind == Nop,
      irreversible := job.attr.irreversible || mode == ReplaceIrreversible))
  }

  /** A successful job that has a second phase left is run again instead of ending. */
  predicate IsRetry(job: Job, result: JobResult) {
    result == Done && RkindMap(job.kind, job.runKind) != job.runKind
  }

  /** The states a job goes through after it has been triggered: a Restart runs its Stop
      phase and then its Start phase, every other job has the one phase of its kind. */
  predicate RunKindOk(job: Job) {
    if job.kind == Restart then job.runKind == Stop || job.runKind == Start
    else job.runKind == job.kind
  }

  function MergeUnit(kind: JobKind, active: bool): JobKind {
    match (kind, active)
    case (TryReload, false) => Nop
    case (TryReload, true) => Reload
    case (TryRestart, false) => Nop
    case (TryRestart, true) => Restart
    case (ReloadOrStart, false) => Start
    case (ReloadOrStart, true) => Reload
    case (k, _) => k
  }

  /** Positive: b before a. Negative: a before b. Zero: independent. */
  function OrderCompare(a: JobKind, b: JobKind, atom: Atom): int
    requires atom == Before || atom == After
    decreases atom == After
  {
    if a == Nop || b == Nop then 0
    else if atom == After then -OrderCompare(b, a, Before)
    else if b == Stop then 1 else -1
  }

  function IsOrderWith(job: Job, other: Job, atom: Atom): int
    requires atom == Before || atom == After
  {
    if job.attr.ignoreOrder || other.attr.ignoreOrder then 0
    else OrderCompare(job.runKind, other.runKind, atom)
  }

  /** What the state change of a unit means for the job triggered on it: a suggested result. */
  function ProcessUnit(runKind: JobKind, ns: ActiveState, reloadFailure: bool): Option<JobResult>
    requires runKind == Start || runKind == Stop || runKind == Reload
  {
    match runKind
    case Start => (
      match ns
      case UnitActive => Some(Done)
      case UnitActivating => None
      case UnitInActive => Some(Done)
      case UnitFailed => Some(Failed)
      case _ => None)
    case Stop => (
      match ns
      case UnitInActive => Some(Done)
      case UnitFailed => Some(Done)
      case UnitDeActivating => None
      case _ => Some(Failed))
    case _ => (
      match ns
      case UnitActive => Some(if reloadFailure then Failed else Done)
      case UnitReloading => None
      case UnitInActive => Some(Done)
      case UnitFailed => Some(Failed)
      case _ => None)
  }

  /** The dependencies between units, and the active state of each unit. */
  datatype UnitDb = UnitDb(deps: map<(UnitId, Atom), seq<UnitId>>, active: set<UnitId>) {
    function DepGetsAtom(unit: UnitId, atom: Atom): seq<UnitId> {
      if (unit, atom) in deps then deps[(unit, atom)] else []
    }

    /** `UnitX::active_state().is_active_or_reloading()` */
    predicate IsActive(unit: UnitId) {
      unit in active
    }
  }
}
