/** The vocabulary of a service (coms/service/src/rentry.rs, coms/service/src/config.rs). */
module ServiceTypes {
  import opened Wrappers

  datatype ServiceState =
    | Dead | Condition | StartPre | Start | StartPost | Running | Exited | Reload | Stop | StopWatchdog | StopPost
    | StopSigterm | StopSigkill | FinalWatchdog | FinalSigterm | FinalSigkill | AutoRestart | Failed | Cleaning

  datatype ServiceResult =
    | Success | FailureProtocol | FailureResources | FailureSignal | FailureStartLimitHit | FailureWatchdog
    | FailureExitCode | FailureCoreDump | FailureTimeout | SkipCondition | ResultInvalid

  datatype ServiceCommand = Condition | StartPre | Start | StartPost | Reload | Stop | StopPost

  datatype ServiceType = Simple | Forking | Oneshot | Notify

  datatype ServiceRestart = No | OnSuccess | OnFailure | OnWatchdog | OnAbnormal | OnAbort | Always

  /** A command line; what it says does not matter here. */
  type ExecCommand = string

  datatype ServiceConfig = ServiceConfig(
    kind: ServiceType,
    execs: map<ServiceCommand, seq<ExecCommand>>,
    restart: ServiceRestart,
    preventable: bool,        // some exit status prevents a restart
    remainAfterExit: bool,
    pidFile: bool)
  {
    function Cmds(command: ServiceCommand): seq<ExecCommand> {
      if command in execs then execs[command] else []
    }
  }

  predicate RestartsOn(restart: ServiceRestart, result: ServiceResult) {
    match restart
    case No => false
    case OnSuccess => result == Success
    case OnFailure => result != Success && result != SkipCondition
    case OnWatchdog => result == FailureWatchdog
    case OnAbnormal => result != Success && result != FailureExitCode && result != SkipCondition
    case OnAbort => result == FailureSignal || result == FailureCoreDump
    case Always => result != SkipCondition
  }

  /** The policies that restart a service after a result. */
  function RestartedBy(result: ServiceResult): set<ServiceRestart> {
    match result
    case Success => {OnSuccess, Always}
    case FailureExitCode => {OnFailure, Always}
    case FailureSignal => {OnFailure, OnAbnormal, OnAbort, Always}
    case FailureCoreDump => {OnFailure, OnAbnormal, OnAbort, Always}
    case FailureWatchdog => {OnFailure, OnAbnormal, OnWatchdog, Always}
    case SkipCondition => {}
    case _ => {OnFailure, OnAbnormal, Always}
  }

  datatype WaitStatus = ExitedWith(pid: nat, status: int) | Signaled(pid: nat, coreDump: bool)

  function SigchldResult(status: WaitStatus): (res: ServiceResult)
    ensures res == Success <==> status.ExitedWith? && status.status == 0
    ensures res == FailureExitCode <==> status.ExitedWith? && status.status != 0
    ensures res == FailureCoreDump <==> status.Signaled? && status.coreDump
    ensures res == FailureSignal <==> status.Signaled? && !status.coreDump
  {
    match status
    case ExitedWith(_, code) => if code == 0 then Success else FailureExitCode
    case Signaled(_, coreDump) => if coreDump then FailureCoreDump else FailureSignal
  }

  predicate IsSuffix(queue: seq<ExecCommand>, all: seq<ExecCommand>) {
    |queue| <= |all| && forall i :: 0 <= i < |queue| ==> queue[i] == all[|all| - |queue| + i]
  }

  /** The last `len` commands; all of them if there are not so many. */
  function LastOf(all: seq<ExecCommand>, len: nat): seq<ExecCommand> {
    if len <= |all| then all[|all| - len..] else all
  }

  // ---------------------------------------------------------------- the outside

  /** What a process is started for: the first command of a kind, or the next one in a queue. */
  datatype Purpose = FirstOf(command: ServiceCommand) | NextMain | NextControl

  /** A command that was to be started, and the process that came of it. */
  datatype Attempt = Attempt(purpose: Purpose, cmd: ExecCommand, pid: Option<nat>)

  datatype PidFile = Unreadable(unwatched: bool) | SameProcess | OtherProcess(pid: nat)

  /** The answers of the system: to the n-th command that is started, and to the n-th question. */
  datatype Outside = Outside(
    pids: nat -> Option<nat>, answers: nat -> bool, pidFiles: nat -> PidFile, guesses: nat -> Option<nat>)
  {
    function Spawned(n: nat): Option<nat> {
      pids(n)
    }

    function Answer(n: nat): bool {
      answers(n)
    }

    function PidFileAt(n: nat): PidFile {
      pidFiles(n)
    }

    function Guess(n: nat): Option<nat> {
      guesses(n)
    }
  }

  /** The last thing tried was to start a start-post command, or the next command of a queue, and
      it could not be started: the source logs that, and does nothing else. */
  predicate StuckOn(attempts: seq<Attempt>) {
    && attempts != []
    && var last := attempts[|attempts| - 1];
       && last.pid.None?
       && (last.purpose == FirstOf(ServiceCommand.StartPost) || last.purpose == NextMain || last.purpose == NextControl)
  }

  /** Starting is stuck, when the n-th command is the first to be started: a Simple service whose
      main process runs, or a Oneshot that has none, has a start-post command that cannot be
      started. */
  predicate StartSticks(config: ServiceConfig, outside: Outside, n: nat) {
    && config.Cmds(ServiceCommand.StartPost) != []
    && match config.kind
       case Simple => config.Cmds(ServiceCommand.Start) != [] && outside.Spawned(n).Some? && outside.Spawned(n + 1).None?
       case Oneshot => config.Cmds(ServiceCommand.Start) == [] && outside.Spawned(n).None?
       case _ => false
  }
}
