/** Where the phases of a service lead (coms/service/src/mng.rs): a function for each of them, over
    what can be seen of the service and what the system answers. */
module ServiceWays {
  import opened Wrappers
  import opened ServiceTypes
  import opened Runs

  /** The states in which a main process may be tracked, and its commands kept. */
  predicate KeepsMain(s: ServiceState) {
    match s
    case Dead | Condition | StartPre | Exited | AutoRestart | Failed | Cleaning => false
    case _ => true
  }

  /** The same for a control process. */
  predicate KeepsControl(s: ServiceState) {
    match s
    case Dead | Running | Exited | AutoRestart | Failed => false
    case _ => true
  }

  predicate Over(s: ServiceState) {
    s == Dead || s == ServiceState.Failed || s == AutoRestart
  }

  predicate Stopping(s: ServiceState) {
    s == ServiceState.Stop || s == ServiceState.StopPost
  }

  /** The signals of the stop phase, and those that come after the stop-post phase. */
  predicate StopSignal(s: ServiceState) {
    s == StopWatchdog || s == StopSigterm || s == StopSigkill
  }

  predicate FinalSignal(s: ServiceState) {
    s == FinalWatchdog || s == FinalSigterm || s == FinalSigkill
  }

  /** Signals have been sent, and the end of a process leads on. */
  predicate LeavesBySignal(s: ServiceState) {
    StopSignal(s) || s == FinalSigterm || s == FinalSigkill
  }

  /** The control queue after `control_command_fill`. */
  function Refilled(config: ServiceConfig, command: ServiceCommand, queue: seq<ExecCommand>): seq<ExecCommand> {
    if command in config.execs then config.execs[command] else queue
  }

  /** A stop answers with a signal right away. */
  predicate Starting(s: ServiceState) {
    match s
    case Condition | StartPre | Start | StartPost | Reload | StopWatchdog => true
    case _ => false
  }

  /** Only the end of a control process leads out of the state. (Starting a forking service, and
      start-post, wait for one as well, if not for a pid file.) */
  predicate AwaitsControl(s: ServiceState) {
    match s
    case Condition | StartPre | Reload | Stop | StopPost => true
    case _ => false
  }

  // ---------------------------------------------------------------- what is tried, and what is left

  /** The attempts so far, and the control queue. */
  datatype Left = Left(attempts: seq<Attempt>, queue: seq<ExecCommand>)

  /** The attempts, once the front of a queue has been tried. */
  function TriedFront(outside: Outside, attempts: seq<Attempt>, command: ServiceCommand, queue: seq<ExecCommand>)
    : seq<Attempt>
  {
    if queue == [] then attempts
    else attempts + [Attempt(FirstOf(command), queue[0], outside.Spawned(|attempts|))]
  }

  /** The control queue is refilled, and its first command tried. */
  function Tried(config: ServiceConfig, outside: Outside, command: ServiceCommand, left: Left): Left {
    var queue := Refilled(config, command, left.queue);
    Left(TriedFront(outside, left.attempts, command, queue), if queue == [] then [] else queue[1..])
  }

  /** There is a first command, and it can be started. */
  predicate Starts(config: ServiceConfig, outside: Outside, command: ServiceCommand, left: Left) {
    Refilled(config, command, left.queue) != [] && outside.Spawned(|left.attempts|).Some?
  }

  function LeftByStopPost(config: ServiceConfig, outside: Outside, left: Left): Left {
    var tried := Tried(config, outside, ServiceCommand.StopPost, left);
    if Starts(config, outside, ServiceCommand.StopPost, left) then tried else Left(tried.attempts, [])
  }

  /** When the stop command cannot be started, those behind it are left to the stop-post phase. */
  function LeftByStop(config: ServiceConfig, outside: Outside, left: Left): Left {
    var tried := Tried(config, outside, ServiceCommand.Stop, left);
    if Starts(config, outside, ServiceCommand.Stop, left) then tried else LeftByStopPost(config, outside, tried)
  }

  function LeftByRunning(config: ServiceConfig, outside: Outside, asked: nat, result: ServiceResult, left: Left): Left
  {
    if result != Success then LeftByStopPost(config, outside, left)
    else if outside.Answer(asked) || config.remainAfterExit then Left(left.attempts, [])
    else LeftByStop(config, outside, left)
  }

  // ---------------------------------------------------------------- where an event leads

  /** What can be seen of a service, and how often the system has been asked. */
  datatype View = View(
    state: ServiceState, result: ServiceResult, mainPid: Option<nat>, controlPid: Option<nat>,
    mainCommand: seq<ExecCommand>, left: Left, asked: nat, forbid: bool)

  /** The first failure is kept. */
  function Note(s: View, res: ServiceResult): View {
    s.(result := if s.result == Success then res else s.result)
  }

  /** The ways of a service: where each phase leads to, by what can be started and what the
      system answers. */
  datatype Ways = Ways(config: ServiceConfig, outside: Outside) {

    function Asked(s: View, n: nat): View {
      s.(asked := s.asked + n)
    }

    /** The result of a signal that is sent with the next question. */
    function Signal(s: View): ServiceResult {
      if outside.Answer(s.asked) then Success else FailureResources
    }

    function Ends(s: View, restart: bool, n: nat): View {
      View(if restart then AutoRestart else if s.result == Success then Dead else ServiceState.Failed,
           s.result, None, None, [], Left(s.left.attempts, []), s.asked + n, false)
    }

    /** The end: a stop job, a stop by hand or the exit status forbid a restart. */
    function Dies(s: View, res: ServiceResult): View {
      var noted := Note(s, res);
      if outside.Answer(s.asked) || s.forbid then Ends(noted, false, 1)
      else if config.preventable then
        Ends(noted, !outside.Answer(s.asked + 1) && config.restart in RestartedBy(noted.result), 2)
      else Ends(noted, config.restart in RestartedBy(noted.result), 1)
    }

    function FinalKill(s: View): View {
      Dies(Asked(s, 1), Signal(s))
    }

    function FinalTerm(s: View): View {
      if outside.Answer(s.asked) then FinalKill(Asked(s, 1)) else Dies(Asked(s, 1), FailureResources)
    }

    function Tries(s: View, command: ServiceCommand): View {
      s.(left := Tried(config, outside, command, s.left))
    }

    /** A control process is under way. */
    function Runs(s: View, command: ServiceCommand, state: ServiceState): View {
      Tries(s, command).(state := state, controlPid := outside.Spawned(|s.left.attempts|))
    }

    function StopPosts(s: View, res: ServiceResult): View {
      if Starts(config, outside, ServiceCommand.StopPost, s.left)
      then Runs(Note(s, res), ServiceCommand.StopPost, ServiceState.StopPost)
      else FinalTerm(Tries(Note(s, res), ServiceCommand.StopPost))
    }

    function StopTerm(s: View): View {
      StopPosts(Asked(s, 1), Signal(s))
    }

    function Stops(s: View, res: ServiceResult): View {
      if Starts(config, outside, ServiceCommand.Stop, s.left)
      then Runs(Note(s, res), ServiceCommand.Stop, ServiceState.Stop)
      else StopTerm(Tries(Note(s, res), ServiceCommand.Stop))
    }

    /** A service that should be running is, unless it is not alive, or has announced its end, or
        something has failed. */
    function RunsOn(s: View, res: ServiceResult): View {
      if Note(s, res).result != Success then StopTerm(Note(s, res).(controlPid := None))
      else Settles(s.(controlPid := None))
    }

    function Settles(s: View): View {
      if outside.Answer(s.asked) then
        if outside.Answer(s.asked + 1) then s.(state := StopSigterm, asked := s.asked + 2)
        else s.(state := Running, left := Left(s.left.attempts, []), asked := s.asked + 2)
      else if config.remainAfterExit then
        View(Exited, Success, None, None, [], Left(s.left.attempts, []), s.asked + 1, s.forbid)
      else Stops(Asked(s, 1), Success)
    }

    /** Where the first command cannot be started, the service stays as it is. */
    function StartPosts(s: View): View {
      if Refilled(config, ServiceCommand.StartPost, s.left.queue) == [] then
        RunsOn(s.(controlPid := None, left := Left(s.left.attempts, [])), Success)
      else if Starts(config, outside, ServiceCommand.StartPost, s.left) then
        Runs(s, ServiceCommand.StartPost, ServiceState.StartPost)
      else Tries(s.(controlPid := None), ServiceCommand.StartPost)
    }

    // ------------------------------------------------------------ starting

    function Conditions(s: View): View {
      if Refilled(config, ServiceCommand.Condition, s.left.queue) == [] then
        PreStarts(Tries(s, ServiceCommand.Condition))
      else PrepareBy(s, ServiceCommand.Condition, ServiceState.Condition)
    }

    function PreStarts(s: View): View {
      if Refilled(config, ServiceCommand.StartPre, s.left.queue) == [] then StartsUp(s)
      else PrepareBy(s, ServiceCommand.StartPre, ServiceState.StartPre)
    }

    /** A command that comes before the start: without it there is none. */
    function PrepareBy(s: View, command: ServiceCommand, state: ServiceState): View {
      if outside.Spawned(|s.left.attempts|).Some? then Runs(s, command, state).(mainPid := None, mainCommand := [])
      else Dies(Tries(s, command).(controlPid := None), FailureResources)
    }

    /** The start commands of a forking service are run as control commands. */
    function StartsUp(s: View): View {
      var cmds := config.Cmds(ServiceCommand.Start);
      var cleared := s.(left := Left(s.left.attempts, []), controlPid := None, mainPid := None);
      if cmds == [] then StartsWithout(cleared.(mainCommand := []))
      else if config.kind == Forking then
        StartsWith(cleared.(mainCommand := cmds, left := Left(s.left.attempts, cmds[1..])), cmds[0])
      else StartsWith(cleared.(mainCommand := cmds[1..]), cmds[0])
    }

    function StartsWithout(s: View): View {
      if config.kind == Oneshot then StartPosts(s.(state := ServiceState.Start)) else StopTerm(s)
    }

    function StartsWith(s: View, cmd: ExecCommand): View {
      var pid := outside.Spawned(|s.left.attempts|);
      var tried := s.(left := s.left.(attempts := s.left.attempts + [Attempt(FirstOf(ServiceCommand.Start), cmd, pid)]));
      if pid.None? then StopTerm(tried) else StartsAs(tried, pid)
    }

    function StartsAs(s: View, pid: Option<nat>): View {
      match config.kind
      case Simple => StartPosts(s.(mainPid := pid))
      case Forking => s.(state := ServiceState.Start, controlPid := pid)
      case _ => s.(state := ServiceState.Start, mainPid := pid)
    }

    function Reloads(s: View): View {
      var cleared := s.(controlPid := None, left := Left(s.left.attempts, []));
      if Starts(config, outside, ServiceCommand.Reload, cleared.left)
      then Runs(cleared, ServiceCommand.Reload, ServiceState.Reload)
      else RunsOn(Tries(cleared, ServiceCommand.Reload), Success)
    }

    // ------------------------------------------------------------ the end of the main process

    /** The pid file may name another main process. */
    function MainExits(s: View, res: ServiceResult): View {
      if !config.pidFile then MainEnds(s, res)
      else if outside.PidFileAt(s.asked).OtherProcess? then FileRead(s)
      else MainEnds(FileRead(s), res)
    }

    function FileRead(s: View): View {
      match outside.PidFileAt(s.asked)
      case Unreadable(unwatched) => Asked(s, 1).(mainPid := if unwatched then None else s.mainPid)
      case SameProcess => Asked(s, 1)
      case OtherProcess(pid) => Asked(s, 1).(mainPid := Some(pid))
    }

    function MainEnds(s: View, res: ServiceResult): View {
      var lost := Note(s.(mainPid := None), res);
      if s.mainCommand != [] && res == Success && config.kind == Oneshot then NextMain(lost) else LastMainEnds(lost, res)
    }

    /** The service is left as it is, as long as some other process of it is there. */
    function LastMainEnds(s: View, res: ServiceResult): View {
      var asked := Asked(s, 1).(mainCommand := []);
      if outside.Answer(s.asked) then asked else MainIsGone(asked, res)
    }

    function NextMain(s: View): View
      requires s.mainCommand != []
    {
      var pid := outside.Spawned(|s.left.attempts|);
      s.(mainPid := pid, mainCommand := s.mainCommand[1..],
         left := s.left.(attempts := s.left.attempts + [Attempt(Purpose.NextMain, s.mainCommand[0], pid)]))
    }

    /** No process of the service is left. */
    function MainIsGone(s: View, res: ServiceResult): View {
      match s.state
      case Start => (
        match config.kind
        case Oneshot => if res == Success then StartPosts(s) else StopTerm(s)
        case Notify => StopTerm(s)
        case _ => RunsOn(s, res))
      case StartPost => if s.controlPid.Some? then Stops(s, res) else s
      case Reload => if s.controlPid.Some? then Stops(s, res) else s
      case Running => RunsOn(s, res)
      case StopWatchdog => StopPosts(s, res)
      case StopSigterm => StopPosts(s, res)
      case StopSigkill => StopPosts(s, res)
      case FinalSigterm => Dies(s, res)
      case FinalSigkill => Dies(s, res)
      case _ => s
    }

    // ------------------------------------------------------------ the end of a control process

    function ControlEnds(s: View, res: ServiceResult): View {
      var ended := s.(controlPid := None);
      if s.left.queue != [] && res == Success then NextControl(ended)
      else ControlIsGone(ended.(left := Left(s.left.attempts, [])), res)
    }

    function NextControl(s: View): View
      requires s.left.queue != []
    {
      var pid := outside.Spawned(|s.left.attempts|);
      s.(controlPid := pid,
         left := Left(s.left.attempts + [Attempt(Purpose.NextControl, s.left.queue[0], pid)], s.left.queue[1..]))
    }

    function ControlIsGone(s: View, res: ServiceResult): View {
      match s.state
      case Condition => if res == Success then PreStarts(s) else StopTerm(s)
      case StartPre => if res == Success then StartsUp(s) else StopTerm(s)
      case Start => if config.kind != Forking then s else if res == Success then Forks(s) else StopTerm(s)
      case StartPost => PostStarted(if res == Success then s else StopTerm(s))
      case Reload => RunsOn(s, res)
      case Stop => StopTerm(s)
      case StopWatchdog => StopPosts(s, res)
      case StopSigterm => StopPosts(s, res)
      case StopSigkill => StopPosts(s, res)
      case StopPost => FinalTerm(s)
      case FinalSigterm => Dies(s, res)
      case FinalSigkill => Dies(s, res)
      case _ => s
    }

    function Guesses(s: View): View {
      if s.mainPid.Some? then s else Asked(s, 1).(mainPid := outside.Guess(s.asked))
    }

    /** With a pid file that could be read, the start-post phase is entered twice. */
    function Forks(s: View): View {
      if !config.pidFile then StartPosts(Guesses(s))
      else if outside.PidFileAt(s.asked).Unreadable? && config.Cmds(ServiceCommand.StartPost) == [] then
        AwaitsFile(FileRead(s))
      else StartPostsTwice(FileRead(s))
    }

    function StartPostsTwice(s: View): View {
      StartPosts(StartPosts(s))
    }

    /** The file can be watched, and there is a process left that may write it. */
    function AwaitsFile(s: View): View {
      if !outside.Answer(s.asked) then StopTerm(Asked(s, 1))
      else if !outside.Answer(s.asked + 1) then StopTerm(Asked(s, 2))
      else Asked(s, 2)
    }

    function PostStarted(s: View): View {
      if !config.pidFile then RunsOn(Guesses(s), Success)
      else if outside.PidFileAt(s.asked).Unreadable? then PostAwaitsFile(FileRead(s))
      else RunsOn(FileRead(s), Success)
    }

    function PostAwaitsFile(s: View): View {
      if !outside.Answer(s.asked) then StopTerm(Asked(s, 1))
      else if !outside.Answer(s.asked + 1) then Stops(Asked(s, 2), FailureProtocol)
      else Asked(s, 2)
    }
  }

  /** A way leads from one view to another. What that means is looked at only where it matters. */
  ghost predicate Leads(way: View -> View, s: View, s': View) {
    forall i: int {:trigger Nth(i)} :: Nth(i) ==> s' == way(s)
  }

  /** The same for a way that takes something along, such as a result. */
  ghost predicate LeadsBy<R(!new)>(way: (View, R) -> View, s: View, res: R, s': View) {
    forall i: int {:trigger Nth(i)} :: Nth(i) ==> s' == way(s, res)
  }

  lemma LeadsTo(way: View -> View, s: View, s': View)
    ensures Leads(way, s, s') <==> s' == way(s)
  {
    assert Nth(0);
  }

  lemma LeadsByTo<R(!new)>(way: (View, R) -> View, s: View, res: R, s': View)
    ensures LeadsBy(way, s, res, s') <==> s' == way(s, res)
  {
    assert Nth(0);
  }

  lemma DiesLeads(w: Ways, s: View, res: ServiceResult, restart: bool, s': View)
    requires restart <==>
               && !w.outside.Answer(s.asked) && !s.forbid && !(w.config.preventable && w.outside.Answer(s.asked + 1))
               && w.config.restart in RestartedBy(Note(s, res).result)
    requires s' == w.Ends(Note(s, res), restart,
                          if !w.outside.Answer(s.asked) && !s.forbid && w.config.preventable then 2 else 1)
    ensures LeadsBy(w.Dies, s, res, s')
  {
    LeadsByTo(w.Dies, s, res, s');
  }

  lemma SameView(s: View, s': View)
    requires s' == s
    ensures s'.state == s.state && s'.result == s.result && s'.mainPid == s.mainPid && s'.controlPid == s.controlPid
    ensures s'.mainCommand == s.mainCommand && s'.left == s.left && s'.forbid == s.forbid
  {
  }

  lemma FinalKillLeads(w: Ways, s: View, s': View)
    requires LeadsBy(w.Dies, w.Asked(s, 1), w.Signal(s), s')
    ensures Leads(w.FinalKill, s, s')
  {
    LeadsByTo(w.Dies, w.Asked(s, 1), w.Signal(s), s');
    LeadsTo(w.FinalKill, s, s');
  }

  lemma FinalTermLeads(w: Ways, s: View, s': View)
    requires w.outside.Answer(s.asked) ==> Leads(w.FinalKill, w.Asked(s, 1), s')
    requires !w.outside.Answer(s.asked) ==> LeadsBy(w.Dies, w.Asked(s, 1), FailureResources, s')
    ensures Leads(w.FinalTerm, s, s')
  {
    LeadsTo(w.FinalKill, w.Asked(s, 1), s');
    LeadsByTo(w.Dies, w.Asked(s, 1), FailureResources, s');
    LeadsTo(w.FinalTerm, s, s');
  }

  lemma StopPostsLead(w: Ways, s: View, res: ServiceResult, s': View)
    requires if Starts(w.config, w.outside, ServiceCommand.StopPost, s.left)
             then s' == w.Runs(Note(s, res), ServiceCommand.StopPost, ServiceState.StopPost)
             else Leads(w.FinalTerm, w.Tries(Note(s, res), ServiceCommand.StopPost), s')
    ensures LeadsBy(w.StopPosts, s, res, s')
  {
    LeadsTo(w.FinalTerm, w.Tries(Note(s, res), ServiceCommand.StopPost), s');
    LeadsByTo(w.StopPosts, s, res, s');
  }

  lemma StopTermLeads(w: Ways, s: View, s': View)
    requires LeadsBy(w.StopPosts, w.Asked(s, 1), w.Signal(s), s')
    ensures Leads(w.StopTerm, s, s')
  {
    LeadsByTo(w.StopPosts, w.Asked(s, 1), w.Signal(s), s');
    LeadsTo(w.StopTerm, s, s');
  }

  lemma StopsLead(w: Ways, s: View, res: ServiceResult, s': View)
    requires if Starts(w.config, w.outside, ServiceCommand.Stop, s.left)
             then s' == w.Runs(Note(s, res), ServiceCommand.Stop, ServiceState.Stop)
             else Leads(w.StopTerm, w.Tries(Note(s, res), ServiceCommand.Stop), s')
    ensures LeadsBy(w.Stops, s, res, s')
  {
    LeadsTo(w.StopTerm, w.Tries(Note(s, res), ServiceCommand.Stop), s');
    LeadsByTo(w.Stops, s, res, s');
  }

  lemma RunsOnLeads(w: Ways, s: View, res: ServiceResult, s': View)
    requires if Note(s, res).result != Success then Leads(w.StopTerm, Note(s, res).(controlPid := None), s')
             else Leads(w.Settles, s.(controlPid := None), s')
    ensures LeadsBy(w.RunsOn, s, res, s')
  {
    LeadsTo(w.StopTerm, Note(s, res).(controlPid := None), s');
    LeadsTo(w.Settles, s.(controlPid := None), s');
    LeadsByTo(w.RunsOn, s, res, s');
  }

  lemma SettlesAt(w: Ways, s: View, s': View)
    requires s.result == Success && (w.outside.Answer(s.asked) || w.config.remainAfterExit)
    requires if !w.outside.Answer(s.asked)
             then s' == View(Exited, Success, None, None, [], Left(s.left.attempts, []), s.asked + 1, s.forbid)
             else if w.outside.Answer(s.asked + 1) then s' == w.Asked(s, 2).(state := StopSigterm)
             else s' == w.Asked(s, 2).(state := Running, left := Left(s.left.attempts, []))
    ensures Leads(w.Settles, s, s')
  {
    LeadsTo(w.Settles, s, s');
  }

  lemma SettlesStopping(w: Ways, s: View, s': View)
    requires !w.outside.Answer(s.asked) && !w.config.remainAfterExit && LeadsBy(w.Stops, w.Asked(s, 1), Success, s')
    ensures Leads(w.Settles, s, s')
  {
    LeadsByTo(w.Stops, w.Asked(s, 1), Success, s');
    LeadsTo(w.Settles, s, s');
  }

  lemma StartPostsLead(w: Ways, s: View, s': View)
    requires if Refilled(w.config, ServiceCommand.StartPost, s.left.queue) == []
             then LeadsBy(w.RunsOn, s.(controlPid := None, left := Left(s.left.attempts, [])), Success, s')
             else if Starts(w.config, w.outside, ServiceCommand.StartPost, s.left)
             then s' == w.Runs(s, ServiceCommand.StartPost, ServiceState.StartPost)
             else s' == w.Tries(s.(controlPid := None), ServiceCommand.StartPost)
    ensures Leads(w.StartPosts, s, s')
  {
    LeadsByTo(w.RunsOn, s.(controlPid := None, left := Left(s.left.attempts, [])), Success, s');
    LeadsTo(w.StartPosts, s, s');
  }

  lemma GoneStarting(w: Ways, s: View, res: ServiceResult, s': View)
    requires s.state == ServiceState.Start
    requires match w.config.kind
             case Oneshot => if res == Success then Leads(w.StartPosts, s, s') else Leads(w.StopTerm, s, s')
             case Notify => Leads(w.StopTerm, s, s')
             case _ => LeadsBy(w.RunsOn, s, res, s')
    ensures LeadsBy(w.MainIsGone, s, res, s')
  {
    LeadsTo(w.StartPosts, s, s');
    LeadsTo(w.StopTerm, s, s');
    LeadsByTo(w.RunsOn, s, res, s');
    LeadsByTo(w.MainIsGone, s, res, s');
  }

  lemma GoneRunning(w: Ways, s: View, res: ServiceResult, s': View)
    requires s.state == Running && LeadsBy(w.RunsOn, s, res, s')
    ensures LeadsBy(w.MainIsGone, s, res, s')
  {
    LeadsByTo(w.RunsOn, s, res, s');
    LeadsByTo(w.MainIsGone, s, res, s');
  }

  lemma GoneChanging(w: Ways, s: View, res: ServiceResult, s': View)
    requires (s.state == ServiceState.StartPost || s.state == ServiceState.Reload) && s.controlPid.Some?
    requires LeadsBy(w.Stops, s, res, s')
    ensures LeadsBy(w.MainIsGone, s, res, s')
  {
    LeadsByTo(w.Stops, s, res, s');
    LeadsByTo(w.MainIsGone, s, res, s');
  }

  lemma GoneStopping(w: Ways, s: View, res: ServiceResult, s': View)
    requires s.state != Running && s.state != ServiceState.Start
    requires s.state == ServiceState.StartPost || s.state == ServiceState.Reload ==> s.controlPid.None?
    requires if StopSignal(s.state) then LeadsBy(w.StopPosts, s, res, s')
             else if s.state == FinalSigterm || s.state == FinalSigkill then LeadsBy(w.Dies, s, res, s')
             else s' == s
    ensures LeadsBy(w.MainIsGone, s, res, s')
  {
    LeadsByTo(w.StopPosts, s, res, s');
    LeadsByTo(w.Dies, s, res, s');
    LeadsByTo(w.MainIsGone, s, res, s');
  }

  lemma LastMainEndsLeads(w: Ways, s: View, res: ServiceResult, asked: View, s': View)
    requires asked == w.Asked(s, 1).(mainCommand := [])
    requires if w.outside.Answer(s.asked) then s' == asked else LeadsBy(w.MainIsGone, asked, res, s')
    ensures LeadsBy(w.LastMainEnds, s, res, s')
  {
    LeadsByTo(w.MainIsGone, asked, res, s');
    LeadsByTo(w.LastMainEnds, s, res, s');
  }

  lemma MainEndsLeads(w: Ways, s: View, res: ServiceResult, s': View)
    requires var lost := Note(s.(mainPid := None), res);
             if s.mainCommand != [] && res == Success && w.config.kind == Oneshot then s' == w.NextMain(lost)
             else LeadsBy(w.LastMainEnds, lost, res, s')
    ensures LeadsBy(w.MainEnds, s, res, s')
  {
    LeadsByTo(w.LastMainEnds, Note(s.(mainPid := None), res), res, s');
    LeadsByTo(w.MainEnds, s, res, s');
  }

  lemma MainExitsLeads(w: Ways, s: View, res: ServiceResult, read: View, s': View)
    requires read == if w.config.pidFile then w.FileRead(s) else s
    requires if w.config.pidFile && w.outside.PidFileAt(s.asked).OtherProcess? then s' == read
             else LeadsBy(w.MainEnds, read, res, s')
    ensures LeadsBy(w.MainExits, s, res, s')
  {
    LeadsByTo(w.MainEnds, read, res, s');
    LeadsByTo(w.MainExits, s, res, s');
  }

  lemma ConditionsLead(w: Ways, s: View, s': View)
    requires var tried := w.Tries(s, ServiceCommand.Condition);
             if Refilled(w.config, ServiceCommand.Condition, s.left.queue) == [] then Leads(w.PreStarts, tried, s')
             else if w.outside.Spawned(|s.left.attempts|).None? then LeadsBy(w.Dies, tried, FailureResources, s')
             else s' == w.Runs(s, ServiceCommand.Condition, ServiceState.Condition).(mainPid := None, mainCommand := [])
    ensures Leads(w.Conditions, s, s')
  {
    var tried := w.Tries(s, ServiceCommand.Condition);
    LeadsTo(w.PreStarts, tried, s');
    LeadsByTo(w.Dies, tried, FailureResources, s');
    LeadsTo(w.Conditions, s, s');
  }

  lemma PreStartsLead(w: Ways, s: View, s': View)
    requires var tried := w.Tries(s.(controlPid := None), ServiceCommand.StartPre);
             if Refilled(w.config, ServiceCommand.StartPre, s.left.queue) == [] then Leads(w.StartsUp, tried, s')
             else if w.outside.Spawned(|s.left.attempts|).None? then LeadsBy(w.Dies, tried, FailureResources, s')
             else s' == w.Runs(s, ServiceCommand.StartPre, ServiceState.StartPre).(mainPid := None, mainCommand := [])
    ensures Leads(w.PreStarts, s, s')
  {
    var tried := w.Tries(s.(controlPid := None), ServiceCommand.StartPre);
    LeadsTo(w.StartsUp, tried, s');
    LeadsByTo(w.Dies, tried, FailureResources, s');
    LeadsTo(w.PreStarts, s, s');
  }

  lemma StartsUpLeads(w: Ways, s: View, cleared: View, s': View)
    requires var cmds := w.config.Cmds(ServiceCommand.Start);
             var none := s.(left := Left(s.left.attempts, []), controlPid := None, mainPid := None);
             if cmds == [] then cleared == none.(mainCommand := []) && Leads(w.StartsWithout, cleared, s')
             else
               && LeadsBy(w.StartsWith, cleared, cmds[0], s')
               && cleared == if w.config.kind == Forking
                             then none.(mainCommand := cmds, left := Left(s.left.attempts, cmds[1..]))
                             else none.(mainCommand := cmds[1..])
    ensures Leads(w.StartsUp, s, s')
  {
    var cmds := w.config.Cmds(ServiceCommand.Start);
    LeadsTo(w.StartsWithout, cleared, s');
    if cmds != [] {
      LeadsByTo(w.StartsWith, cleared, cmds[0], s');
    }
    LeadsTo(w.StartsUp, s, s');
  }

  lemma StartsWithoutLeads(w: Ways, s: View, s': View)
    requires if w.config.kind == Oneshot then Leads(w.StartPosts, s.(state := ServiceState.Start), s')
             else Leads(w.StopTerm, s, s')
    ensures Leads(w.StartsWithout, s, s')
  {
    LeadsTo(w.StartPosts, s.(state := ServiceState.Start), s');
    LeadsTo(w.StopTerm, s, s');
    LeadsTo(w.StartsWithout, s, s');
  }

  lemma StartsWithLeads(w: Ways, s: View, cmd: ExecCommand, s': View)
    requires var pid := w.outside.Spawned(|s.left.attempts|);
             var more := [Attempt(FirstOf(ServiceCommand.Start), cmd, pid)];
             var tried := s.(left := s.left.(attempts := s.left.attempts + more));
             if pid.None? then Leads(w.StopTerm, tried, s') else LeadsBy(w.StartsAs, tried, pid, s')
    ensures LeadsBy(w.StartsWith, s, cmd, s')
  {
    var pid := w.outside.Spawned(|s.left.attempts|);
    var tried := s.(left := s.left.(attempts := s.left.attempts + [Attempt(FirstOf(ServiceCommand.Start), cmd, pid)]));
    LeadsTo(w.StopTerm, tried, s');
    LeadsByTo(w.StartsAs, tried, pid, s');
    LeadsByTo(w.StartsWith, s, cmd, s');
  }

  lemma StartsAsLeads(w: Ways, s: View, pid: nat, s': View)
    requires match w.config.kind
             case Simple => Leads(w.StartPosts, s.(mainPid := Some(pid)), s')
             case Forking => s' == s.(state := ServiceState.Start, controlPid := Some(pid))
             case _ => s' == s.(state := ServiceState.Start, mainPid := Some(pid))
    ensures LeadsBy(w.StartsAs, s, Some(pid), s')
  {
    LeadsTo(w.StartPosts, s.(mainPid := Some(pid)), s');
    LeadsByTo(w.StartsAs, s, Some(pid), s');
  }

  lemma ReloadsLead(w: Ways, s: View, s': View)
    requires var cleared := s.(controlPid := None, left := Left(s.left.attempts, []));
             if Starts(w.config, w.outside, ServiceCommand.Reload, cleared.left)
             then s' == w.Runs(cleared, ServiceCommand.Reload, ServiceState.Reload)
             else LeadsBy(w.RunsOn, w.Tries(cleared, ServiceCommand.Reload), Success, s')
    ensures Leads(w.Reloads, s, s')
  {
    var cleared := s.(controlPid := None, left := Left(s.left.attempts, []));
    LeadsByTo(w.RunsOn, w.Tries(cleared, ServiceCommand.Reload), Success, s');
    LeadsTo(w.Reloads, s, s');
  }

  lemma ControlEndsLeads(w: Ways, s: View, res: ServiceResult, s': View)
    requires var ended := s.(controlPid := None);
             if s.left.queue != [] && res == Success then s' == w.NextControl(ended)
             else LeadsBy(w.ControlIsGone, ended.(left := Left(s.left.attempts, [])), res, s')
    ensures LeadsBy(w.ControlEnds, s, res, s')
  {
    LeadsByTo(w.ControlIsGone, s.(controlPid := None, left := Left(s.left.attempts, [])), res, s');
    LeadsByTo(w.ControlEnds, s, res, s');
  }

  lemma ControlGoneStopping(w: Ways, s: View, res: ServiceResult, s': View)
    requires !Starting(s.state) || s.state == StopWatchdog
    requires if s.state == ServiceState.Stop then Leads(w.StopTerm, s, s')
             else if StopSignal(s.state) then LeadsBy(w.StopPosts, s, res, s')
             else if s.state == ServiceState.StopPost then Leads(w.FinalTerm, s, s')
             else if s.state == FinalSigterm || s.state == FinalSigkill then LeadsBy(w.Dies, s, res, s')
             else s' == s
    ensures LeadsBy(w.ControlIsGone, s, res, s')
  {
    LeadsTo(w.StopTerm, s, s');
    LeadsByTo(w.StopPosts, s, res, s');
    LeadsTo(w.FinalTerm, s, s');
    LeadsByTo(w.Dies, s, res, s');
    LeadsByTo(w.ControlIsGone, s, res, s');
  }

  lemma ControlGonePreparing(w: Ways, s: View, res: ServiceResult, s': View)
    requires s.state == ServiceState.Condition || s.state == ServiceState.StartPre || s.state == ServiceState.Reload
    requires if s.state == ServiceState.Reload then LeadsBy(w.RunsOn, s, res, s')
             else if res != Success then Leads(w.StopTerm, s, s')
             else if s.state == ServiceState.Condition then Leads(w.PreStarts, s, s')
             else Leads(w.StartsUp, s, s')
    ensures LeadsBy(w.ControlIsGone, s, res, s')
  {
    LeadsByTo(w.RunsOn, s, res, s');
    LeadsTo(w.StopTerm, s, s');
    LeadsTo(w.PreStarts, s, s');
    LeadsTo(w.StartsUp, s, s');
    LeadsByTo(w.ControlIsGone, s, res, s');
  }

  lemma ControlGoneForking(w: Ways, s: View, res: ServiceResult, s': View)
    requires s.state == ServiceState.Start
    requires if w.config.kind != Forking then s' == s
             else if res == Success then Leads(w.Forks, s, s') else Leads(w.StopTerm, s, s')
    ensures LeadsBy(w.ControlIsGone, s, res, s')
  {
    LeadsTo(w.Forks, s, s');
    LeadsTo(w.StopTerm, s, s');
    LeadsByTo(w.ControlIsGone, s, res, s');
  }

  lemma ControlGonePosting(w: Ways, s: View, res: ServiceResult, mid: View, s': View)
    requires s.state == ServiceState.StartPost && Leads(w.PostStarted, mid, s')
    requires if res == Success then mid == s else Leads(w.StopTerm, s, mid)
    ensures LeadsBy(w.ControlIsGone, s, res, s')
  {
    LeadsTo(w.StopTerm, s, mid);
    LeadsTo(w.PostStarted, mid, s');
    LeadsByTo(w.ControlIsGone, s, res, s');
  }

  lemma ForksLeads(w: Ways, s: View, mid: View, s': View)
    requires mid == if w.config.pidFile then w.FileRead(s) else w.Guesses(s)
    requires if !w.config.pidFile then Leads(w.StartPosts, mid, s')
             else if w.outside.PidFileAt(s.asked).Unreadable? && w.config.Cmds(ServiceCommand.StartPost) == []
             then Leads(w.AwaitsFile, mid, s')
             else Leads(w.StartPostsTwice, mid, s')
    ensures Leads(w.Forks, s, s')
  {
    LeadsTo(w.StartPosts, mid, s');
    LeadsTo(w.AwaitsFile, mid, s');
    LeadsTo(w.StartPostsTwice, mid, s');
    LeadsTo(w.Forks, s, s');
  }

  lemma AwaitsFileLeads(w: Ways, s: View, asked: View, s': View)
    requires asked == w.Asked(s, if w.outside.Answer(s.asked) then 2 else 1)
    requires if w.outside.Answer(s.asked) && w.outside.Answer(s.asked + 1) then s' == asked
             else Leads(w.StopTerm, asked, s')
    ensures Leads(w.AwaitsFile, s, s')
  {
    LeadsTo(w.StopTerm, asked, s');
    LeadsTo(w.AwaitsFile, s, s');
  }

  lemma StartPostsTwiceLeads(w: Ways, s: View, once: View, s': View)
    requires Leads(w.StartPosts, s, once) && Leads(w.StartPosts, once, s')
    ensures Leads(w.StartPostsTwice, s, s')
  {
    LeadsTo(w.StartPosts, s, once);
    LeadsTo(w.StartPosts, once, s');
    LeadsTo(w.StartPostsTwice, s, s');
  }

  lemma PostStartedLeads(w: Ways, s: View, mid: View, s': View)
    requires mid == if w.config.pidFile then w.FileRead(s) else w.Guesses(s)
    requires if w.config.pidFile && w.outside.PidFileAt(s.asked).Unreadable? then Leads(w.PostAwaitsFile, mid, s')
             else LeadsBy(w.RunsOn, mid, Success, s')
    ensures Leads(w.PostStarted, s, s')
  {
    LeadsTo(w.PostAwaitsFile, mid, s');
    LeadsByTo(w.RunsOn, mid, Success, s');
    LeadsTo(w.PostStarted, s, s');
  }

  lemma PostAwaitsFileLeads(w: Ways, s: View, asked: View, s': View)
    requires asked == w.Asked(s, if w.outside.Answer(s.asked) then 2 else 1)
    requires if !w.outside.Answer(s.asked) then Leads(w.StopTerm, asked, s')
             else if !w.outside.Answer(s.asked + 1) then LeadsBy(w.Stops, asked, FailureProtocol, s')
             else s' == asked
    ensures Leads(w.PostAwaitsFile, s, s')
  {
    LeadsTo(w.StopTerm, asked, s');
    LeadsByTo(w.Stops, asked, FailureProtocol, s');
    LeadsTo(w.PostAwaitsFile, s, s');
  }

  /** The first start command of a service that is not simple is under way. */
  predicate UnderWay(w: Ways, s: View, s': View) {
    var cmds, pid := w.config.Cmds(ServiceCommand.Start), w.outside.Spawned(|s.left.attempts|);
    && s'.state == ServiceState.Start && s'.result == s.result
    && cmds != [] && s'.left.attempts == s.left.attempts + [Attempt(FirstOf(ServiceCommand.Start), cmds[0], pid)]
    && if w.config.kind == Forking then s'.mainPid.None? && s'.controlPid == pid && s'.left.queue == cmds[1..]
       else s'.mainPid == pid && s'.mainCommand == cmds[1..] && s'.controlPid.None? && s'.left.queue == []
  }

  /** It will be, when the n-th command is the first to be started. */
  predicate GetsUnderWay(w: Ways, n: nat) {
    w.config.kind != Simple && w.config.Cmds(ServiceCommand.Start) != [] && w.outside.Spawned(n).Some?
  }

  /** The first start-pre command is under way, and the others wait. */
  predicate PreStarting(w: Ways, s: View, s': View) {
    var cmds := w.config.Cmds(ServiceCommand.StartPre);
    && s'.state == ServiceState.StartPre && cmds != [] && s'.left.queue == cmds[1..]
    && s'.left.attempts == TriedFront(w.outside, s.left.attempts, ServiceCommand.StartPre, cmds)
  }

  /** A start has begun when its first command is under way: a start-pre command, if there are
      any, or the first start command of a service that is not simple. */
  lemma StartGetsOn(w: Ways, s: View, s': View)
    requires Leads(w.Conditions, s, s') && Refilled(w.config, ServiceCommand.Condition, s.left.queue) == []
    ensures w.config.Cmds(ServiceCommand.StartPre) != [] && w.outside.Spawned(|s.left.attempts|).Some? ==>
              PreStarting(w, s, s')
    ensures w.config.Cmds(ServiceCommand.StartPre) == [] && GetsUnderWay(w, |s.left.attempts|) ==> UnderWay(w, s, s')
  {
    LeadsTo(w.Conditions, s, s');
  }

  lemma StopPostsLeave(w: Ways, s: View, res: ServiceResult, s': View)
    requires LeadsBy(w.StopPosts, s, res, s')
    ensures s'.left == LeftByStopPost(w.config, w.outside, s.left) && (s'.left.queue != [] ==> Stopping(s'.state))
  {
    LeadsByTo(w.StopPosts, s, res, s');
  }

  lemma StopTermLeaves(w: Ways, s: View, s': View)
    requires Leads(w.StopTerm, s, s')
    ensures s'.left == LeftByStopPost(w.config, w.outside, s.left) && (s'.left.queue != [] ==> Stopping(s'.state))
  {
    LeadsTo(w.StopTerm, s, s');
    LeadsByTo(w.StopPosts, w.Asked(s, 1), w.Signal(s), s');
    StopPostsLeave(w, w.Asked(s, 1), w.Signal(s), s');
  }

  lemma StopsLeave(w: Ways, s: View, res: ServiceResult, s': View)
    requires LeadsBy(w.Stops, s, res, s')
    ensures s'.left == LeftByStop(w.config, w.outside, s.left) && (s'.left.queue != [] ==> Stopping(s'.state))
  {
    LeadsByTo(w.Stops, s, res, s');
    if !Starts(w.config, w.outside, ServiceCommand.Stop, s.left) {
      var t := w.Tries(Note(s, res), ServiceCommand.Stop);
      LeadsTo(w.StopTerm, t, s');
      StopTermLeaves(w, t, s');
    }
  }

  lemma RunsOnLeaves(w: Ways, s: View, res: ServiceResult, s': View)
    requires LeadsBy(w.RunsOn, s, res, s') && s.left.queue == []
    ensures s'.left == LeftByRunning(w.config, w.outside, s.asked, Note(s, res).result, s.left)
    ensures s'.left.queue != [] ==> Stopping(s'.state)
  {
    LeadsByTo(w.RunsOn, s, res, s');
    var t := Note(s, res).(controlPid := None);
    if t.result != Success {
      LeadsTo(w.StopTerm, t, s');
      StopTermLeaves(w, t, s');
    } else if !w.outside.Answer(s.asked) && !w.config.remainAfterExit {
      LeadsByTo(w.Stops, w.Asked(t, 1), Success, s');
      StopsLeave(w, w.Asked(t, 1), Success, s');
    }
  }

  /** Of the commands tried since the n-th attempt, those of one kind are configured for it. */
  predicate RunsConfigured(config: ServiceConfig, attempts: seq<Attempt>, command: ServiceCommand, n: nat) {
    forall i :: n <= i < |attempts| && attempts[i].purpose == FirstOf(command)
      ==> attempts[i].cmd in config.Cmds(command)
  }

  /** A stop that begins with the stop commands runs stop commands that are configured for it,
      unless there are none and commands were left over from before, and stop-post commands that
      are configured for it, unless there are none and the first of several stop commands cannot
      be started. One that begins with the stop-post commands runs a left-over command instead
      of those if there are none. */
  lemma LeftOversAreRun(config: ServiceConfig, outside: Outside, left: Left)
    ensures RunsConfigured(config, LeftByStop(config, outside, left).attempts, ServiceCommand.Stop, |left.attempts|)
            <==> ServiceCommand.Stop in config.execs || left.queue == []
    ensures RunsConfigured(config, LeftByStop(config, outside, left).attempts, ServiceCommand.StopPost, |left.attempts|)
            <==> HandsOnNothing(config, outside, left)
    ensures RunsConfigured(config, LeftByStopPost(config, outside, left).attempts, ServiceCommand.Stop, |left.attempts|)
    ensures RunsConfigured(
              config, LeftByStopPost(config, outside, left).attempts, ServiceCommand.StopPost, |left.attempts|)
            <==> ServiceCommand.StopPost in config.execs || left.queue == []
  {
    TriedIsConfigured(config, outside, ServiceCommand.Stop, left);
    TriedIsConfigured(config, outside, ServiceCommand.StopPost, left);
    OtherIsTried(config, outside, left, |left.attempts|);
    var tried := Tried(config, outside, ServiceCommand.Stop, left);
    OtherIsTried(config, outside, tried, |left.attempts|);
    HandedOn(config, outside, left);
  }

  /** No stop command is handed on to be run as a stop-post command. */
  predicate HandsOnNothing(config: ServiceConfig, outside: Outside, left: Left) {
    || ServiceCommand.StopPost in config.execs
    || |Refilled(config, ServiceCommand.Stop, left.queue)| <= 1
    || outside.Spawned(|left.attempts|).Some?
  }

  lemma HandedOn(config: ServiceConfig, outside: Outside, left: Left)
    ensures RunsConfigured(config, LeftByStop(config, outside, left).attempts, ServiceCommand.StopPost, |left.attempts|)
            <==> HandsOnNothing(config, outside, left)
  {
    var n, tried := |left.attempts|, Tried(config, outside, ServiceCommand.Stop, left);
    if !Starts(config, outside, ServiceCommand.Stop, left) {
      TriedIsConfigured(config, outside, ServiceCommand.StopPost, tried);
      var stopped := LeftByStop(config, outside, left).attempts;
      assert forall i :: 0 <= i < |tried.attempts| ==> stopped[i] == tried.attempts[i];
      assert forall i :: n <= i < |tried.attempts| ==> tried.attempts[i].purpose == FirstOf(ServiceCommand.Stop);
    }
  }

  function LeftAfterStop(config: ServiceConfig, outside: Outside, starting: bool, left: Left): Left {
    if starting then LeftByStopPost(config, outside, left) else LeftByStop(config, outside, left)
  }

  /** Of the commands tried since the n-th attempt, those that stop are configured for it. */
  predicate RunsItsOwn(config: ServiceConfig, attempts: seq<Attempt>, n: nat) {
    && RunsConfigured(config, attempts, ServiceCommand.Stop, n)
    && RunsConfigured(config, attempts, ServiceCommand.StopPost, n)
  }

  lemma StopRunsItsOwn(config: ServiceConfig, outside: Outside, starting: bool, left: Left)
    ensures RunsItsOwn(config, LeftAfterStop(config, outside, starting, left).attempts, |left.attempts|)
            <==> StopsByItself(config, outside, starting, left)
  {
    LeftOversAreRun(config, outside, left);
  }

  /** All that a stop runs is configured for it: what is to be known beforehand. */
  predicate StopsByItself(config: ServiceConfig, outside: Outside, starting: bool, left: Left) {
    if starting then ServiceCommand.StopPost in config.execs || left.queue == []
    else (ServiceCommand.Stop in config.execs || left.queue == []) && HandsOnNothing(config, outside, left)
  }

  lemma TriedIsConfigured(config: ServiceConfig, outside: Outside, command: ServiceCommand, left: Left)
    ensures RunsConfigured(config, Tried(config, outside, command, left).attempts, command, |left.attempts|)
            <==> command in config.execs || left.queue == []
  {
    var tried := Tried(config, outside, command, left).attempts;
    if Refilled(config, command, left.queue) != [] {
      assert tried[|left.attempts|].purpose == FirstOf(command);
    }
  }

  lemma OtherIsTried(config: ServiceConfig, outside: Outside, left: Left, n: nat)
    ensures RunsConfigured(config, LeftByStopPost(config, outside, left).attempts, ServiceCommand.Stop, n)
            <==> RunsConfigured(config, left.attempts, ServiceCommand.Stop, n)
  {
    var posted := LeftByStopPost(config, outside, left).attempts;
    assert forall i :: 0 <= i < |left.attempts| ==> posted[i] == left.attempts[i];
  }

  /** The service is stuck: the last thing tried, since the n-th attempt, was a start-post command
      or a further control command, and it could not be started. */
  predicate StuckSince(attempts: seq<Attempt>, n: nat) {
    |attempts| > n && StuckOn(attempts)
  }

  // ---------------------------------------------------------------- the end of a process, state by state

  /** On the way out, without the stop commands. */
  predicate SkipsStop(w: Ways, left: Left, s': View) {
    (s'.state == ServiceState.StopPost || Over(s'.state)) && s'.left == LeftByStopPost(w.config, w.outside, left)
  }

  /** On the way out, with the stop commands first. */
  predicate TakesStop(w: Ways, left: Left, s': View) {
    (Stopping(s'.state) || Over(s'.state)) && s'.left == LeftByStop(w.config, w.outside, left)
  }

  /** The main process of a service that was up has ended. In failure the service is failing, or
      is to be started again. In success, by what is answered to the n-th question, it is alive
      all the same, or has exited, or is being stopped. */
  predicate ComesDown(w: Ways, s: View, result: ServiceResult, n: nat, s': View) {
    if result != Success then
      SkipsStop(w, s.left, s') && s'.state != Dead && s'.result == result
    else if w.outside.Answer(n) then
      s'.state == (if w.outside.Answer(n + 1) then StopSigterm else Running) && s'.left.attempts == s.left.attempts
    else if w.config.remainAfterExit then s'.state == Exited && s'.left == Left(s.left.attempts, [])
    else TakesStop(w, s.left, s')
  }

  /** Nothing is left of the service when its main process ends. The questions so far are n. */
  predicate NothingLeft(w: Ways, s: View, res: ServiceResult, n: nat, s': View) {
    var result := if s.result == Success then res else s.result;
    match s.state
    case Running => ComesDown(w, s, result, n, s')
    case Start =>
      if w.config.kind == Simple || w.config.kind == Forking then ComesDown(w, s, result, n, s')
      else if w.config.kind == Notify || res != Success then SkipsStop(w, s.left, s')
      else if Refilled(w.config, ServiceCommand.StartPost, s.left.queue) == [] then
        ComesDown(w, s.(left := Left(s.left.attempts, [])), result, n, s')
      else
        && s'.left == Tried(w.config, w.outside, ServiceCommand.StartPost, s.left)
        && s'.state == if w.outside.Spawned(|s.left.attempts|).Some? then ServiceState.StartPost else ServiceState.Start
    case StartPost => if s.controlPid.Some? then TakesStop(w, s.left, s') else Unmoved(s, s')
    case Reload => if s.controlPid.Some? then TakesStop(w, s.left, s') else Unmoved(s, s')
    case StopWatchdog => SkipsStop(w, s.left, s')
    case StopSigterm => SkipsStop(w, s.left, s')
    case StopSigkill => SkipsStop(w, s.left, s')
    case FinalSigterm => Over(s'.state) && s'.left == Left(s.left.attempts, [])
    case FinalSigkill => Over(s'.state) && s'.left == Left(s.left.attempts, [])
    case _ => Unmoved(s, s')
  }

  /** Nothing has changed, except that there is no main process any more. */
  predicate Unmoved(s: View, s': View) {
    && s'.state == s.state && s'.left == s.left && s'.controlPid == s.controlPid && s'.forbid == s.forbid
    && s'.mainPid.None? && s'.mainCommand == []
  }

  /** The end of the main process. It may have been replaced before, the next command may be
      started, or something else of the service may still be there, which is the n-th question. */
  predicate MainHasEnded(w: Ways, s: View, res: ServiceResult, s': View) {
    var n := if w.config.pidFile then s.asked + 1 else s.asked;
    if w.config.pidFile && w.outside.PidFileAt(s.asked).OtherProcess? then
      s' == s.(mainPid := Some(w.outside.PidFileAt(s.asked).pid), asked := n)
    else if s.mainCommand != [] && res == Success && w.config.kind == Oneshot then
      && s'.state == s.state && s'.mainCommand == s.mainCommand[1..] && s'.mainPid == w.outside.Spawned(|s.left.attempts|)
      && s'.left.attempts == s.left.attempts + [Attempt(Purpose.NextMain, s.mainCommand[0], s'.mainPid)]
      && s'.left.queue == s.left.queue && s'.controlPid == s.controlPid
    else if w.outside.Answer(n) then Unmoved(s, s')
    else NothingLeft(w, s, res, n + 1, s')
  }

  lemma MainEndIs(w: Ways, s: View, res: ServiceResult, s': View)
    requires LeadsBy(w.MainExits, s, res, s')
    ensures MainHasEnded(w, s, res, s')
  {
    if w.config.pidFile && w.outside.PidFileAt(s.asked).OtherProcess? {
      LeadsByTo(w.MainExits, s, res, s');
    } else if s.mainCommand != [] && res == Success && w.config.kind == Oneshot {
      LeadsByTo(w.MainExits, s, res, s');
    } else {
      LastMainEndIs(w, s, res, s');
    }
  }

  lemma LastMainEndIs(w: Ways, s: View, res: ServiceResult, s': View)
    requires LeadsBy(w.MainExits, s, res, s') && !(w.config.pidFile && w.outside.PidFileAt(s.asked).OtherProcess?)
    requires !(s.mainCommand != [] && res == Success && w.config.kind == Oneshot)
    ensures var n := if w.config.pidFile then s.asked + 1 else s.asked;
            if w.outside.Answer(n) then Unmoved(s, s') else NothingLeft(w, s, res, n + 1, s')
  {
    var n := if w.config.pidFile then s.asked + 1 else s.asked;
    var lost := Note(s.(mainPid := None, mainCommand := [], asked := n + 1), res);
    GoneAfter(w, s, res, n, s');
    if !w.outside.Answer(n) {
      GoneIs(w, lost, res, s');
    }
  }

  lemma GoneAfter(w: Ways, s: View, res: ServiceResult, n: nat, s': View)
    requires LeadsBy(w.MainExits, s, res, s') && !(w.config.pidFile && w.outside.PidFileAt(s.asked).OtherProcess?)
    requires !(s.mainCommand != [] && res == Success && w.config.kind == Oneshot)
    requires n == if w.config.pidFile then s.asked + 1 else s.asked
    ensures var lost := Note(s.(mainPid := None, mainCommand := [], asked := n + 1), res);
            if w.outside.Answer(n) then s' == lost else LeadsBy(w.MainIsGone, lost, res, s')
  {
    var read := if w.config.pidFile then w.FileRead(s) else s;
    EndsAfterExit(w, s, res, read, s');
    LastAfterEnd(w, read, res, s');
    GoneAfterLast(w, Note(read.(mainPid := None), res), res, s');
    assert w.Asked(Note(read.(mainPid := None), res), 1).(mainCommand := [])
        == Note(s.(mainPid := None, mainCommand := [], asked := n + 1), res);
  }

  lemma EndsAfterExit(w: Ways, s: View, res: ServiceResult, read: View, s': View)
    requires LeadsBy(w.MainExits, s, res, s') && !(w.config.pidFile && w.outside.PidFileAt(s.asked).OtherProcess?)
    requires read == if w.config.pidFile then w.FileRead(s) else s
    ensures LeadsBy(w.MainEnds, read, res, s')
  {
    LeadsByTo(w.MainExits, s, res, s');
    LeadsByTo(w.MainEnds, read, res, s');
  }

  lemma LastAfterEnd(w: Ways, s: View, res: ServiceResult, s': View)
    requires LeadsBy(w.MainEnds, s, res, s') && !(s.mainCommand != [] && res == Success && w.config.kind == Oneshot)
    ensures LeadsBy(w.LastMainEnds, Note(s.(mainPid := None), res), res, s')
  {
    LeadsByTo(w.MainEnds, s, res, s');
    LeadsByTo(w.LastMainEnds, Note(s.(mainPid := None), res), res, s');
  }

  lemma GoneAfterLast(w: Ways, s: View, res: ServiceResult, s': View)
    requires LeadsBy(w.LastMainEnds, s, res, s')
    ensures var asked := w.Asked(s, 1).(mainCommand := []);
            if w.outside.Answer(s.asked) then s' == asked else LeadsBy(w.MainIsGone, asked, res, s')
  {
    LeadsByTo(w.LastMainEnds, s, res, s');
    LeadsByTo(w.MainIsGone, w.Asked(s, 1).(mainCommand := []), res, s');
  }

  lemma GoneIs(w: Ways, s: View, res: ServiceResult, s': View)
    requires s.mainPid.None? && s.mainCommand == [] && Note(s, res) == s && LeadsBy(w.MainIsGone, s, res, s')
    ensures NothingLeft(w, s, res, s.asked, s')
  {
    if s.state == ServiceState.Start {
      GoneStartingIs(w, s, res, s');
    } else if s.state == Running {
      GoneRunningIs(w, s, res, s');
    } else if s.state == ServiceState.StartPost || s.state == ServiceState.Reload {
      GoneChangingIs(w, s, res, s');
    } else {
      GoneStoppingIs(w, s, res, s');
    }
  }

  lemma GoneStartingIs(w: Ways, s: View, res: ServiceResult, s': View)
    requires s.state == ServiceState.Start && Note(s, res) == s && LeadsBy(w.MainIsGone, s, res, s')
    ensures NothingLeft(w, s, res, s.asked, s')
  {
    LeadsByTo(w.MainIsGone, s, res, s');
    match w.config.kind {
      case Oneshot =>
        if res != Success {
          StopPostsAre(w, w.Asked(s, 1), w.Signal(s));
        } else if Refilled(w.config, ServiceCommand.StartPost, s.left.queue) == [] {
          RunsOnIs(w, s.(controlPid := None, left := Left(s.left.attempts, [])), Success);
        }
      case Notify => StopPostsAre(w, w.Asked(s, 1), w.Signal(s));
      case _ => RunsOnIs(w, s, res);
    }
  }

  lemma GoneRunningIs(w: Ways, s: View, res: ServiceResult, s': View)
    requires s.state == Running && Note(s, res) == s && LeadsBy(w.MainIsGone, s, res, s')
    ensures NothingLeft(w, s, res, s.asked, s')
  {
    LeadsByTo(w.MainIsGone, s, res, s');
    RunsOnIs(w, s, res);
  }

  lemma GoneChangingIs(w: Ways, s: View, res: ServiceResult, s': View)
    requires s.state == ServiceState.StartPost || s.state == ServiceState.Reload
    requires s.mainPid.None? && s.mainCommand == [] && LeadsBy(w.MainIsGone, s, res, s')
    ensures NothingLeft(w, s, res, s.asked, s')
  {
    LeadsByTo(w.MainIsGone, s, res, s');
    StopsAre(w, s, res);
  }

  lemma GoneStoppingIs(w: Ways, s: View, res: ServiceResult, s': View)
    requires s.state != ServiceState.Start && s.state != Running
    requires s.state != ServiceState.StartPost && s.state != ServiceState.Reload
    requires s.mainPid.None? && s.mainCommand == [] && LeadsBy(w.MainIsGone, s, res, s')
    ensures NothingLeft(w, s, res, s.asked, s')
  {
    if StopSignal(s.state) {
      GoneSignalledIs(w, s, res, s');
    } else {
      LeadsByTo(w.MainIsGone, s, res, s');
    }
  }

  lemma GoneSignalledIs(w: Ways, s: View, res: ServiceResult, s': View)
    requires StopSignal(s.state) && LeadsBy(w.MainIsGone, s, res, s')
    ensures NothingLeft(w, s, res, s.asked, s')
  {
    LeadsByTo(w.MainIsGone, s, res, s');
    StopPostsAre(w, s, res);
  }

  /** The end of a control process. In success the next command of its kind is started, if there
      is one; only a reload, or the stop commands, take the result along. */
  predicate ControlHasEnded(w: Ways, s: View, res: ServiceResult, s': View) {
    if s.left.queue != [] && res == Success then
      var pid := w.outside.Spawned(|s.left.attempts|);
      s' == s.(controlPid := pid,
               left := Left(s.left.attempts + [Attempt(Purpose.NextControl, s.left.queue[0], pid)], s.left.queue[1..]))
    else ControlIsThrough(w, s.(controlPid := None, left := Left(s.left.attempts, [])), res, s')
  }

  predicate ControlIsThrough(w: Ways, s: View, res: ServiceResult, s': View) {
    match s.state
    case Condition => if res == Success then GetsOn(w, s, s') else FailsUnnoticed(w, s, s')
    case StartPre => if res == Success then GetsGoing(w, s, s') else FailsUnnoticed(w, s, s')
    case Start =>
      if w.config.kind != Forking then s' == s
      else res != Success ==> FailsUnnoticed(w, s, s')
    case StartPost =>
      res == Success && !w.config.pidFile ==>
        ComesDown(w, s, s.result, if s.mainPid.Some? then s.asked else s.asked + 1, s')
    case Reload => ComesDown(w, s, if s.result == Success then res else s.result, s.asked, s')
    case Stop => SkipsStop(w, s.left, s')
    case StopWatchdog => SkipsStop(w, s.left, s')
    case StopSigterm => SkipsStop(w, s.left, s')
    case StopSigkill => SkipsStop(w, s.left, s')
    case StopPost => Over(s'.state) && s'.left == Left(s.left.attempts, [])
    case FinalSigterm => Over(s'.state) && s'.left == Left(s.left.attempts, [])
    case FinalSigkill => Over(s'.state) && s'.left == Left(s.left.attempts, [])
    case _ => s' == s
  }

  predicate GetsOn(w: Ways, s: View, s': View) {
    && (w.config.Cmds(ServiceCommand.StartPre) != [] && w.outside.Spawned(|s.left.attempts|).Some?
        ==> PreStarting(w, s, s'))
    && (w.config.Cmds(ServiceCommand.StartPre) == [] ==> GetsGoing(w, s, s'))
  }

  predicate GetsGoing(w: Ways, s: View, s': View) {
    GetsUnderWay(w, |s.left.attempts|) ==> UnderWay(w, s, s')
  }

  /** A command that comes before the start has failed, and the service is on its way out, but
      how it failed is not kept. */
  predicate FailsUnnoticed(w: Ways, s: View, s': View) {
    SkipsStop(w, s.left, s') && (s'.result == s.result || (s.result == Success && s'.result == FailureResources))
  }

  lemma ControlEndIs(w: Ways, s: View, res: ServiceResult, s': View)
    requires LeadsBy(w.ControlEnds, s, res, s')
    ensures ControlHasEnded(w, s, res, s')
  {
    LeadsByTo(w.ControlEnds, s, res, s');
    if !(s.left.queue != [] && res == Success) {
      var ended := s.(controlPid := None, left := Left(s.left.attempts, []));
      LeadsByTo(w.ControlIsGone, ended, res, s');
      ThroughIs(w, ended, res, s');
    }
  }

  lemma ThroughIs(w: Ways, s: View, res: ServiceResult, s': View)
    requires s.left.queue == [] && LeadsBy(w.ControlIsGone, s, res, s')
    ensures ControlIsThrough(w, s, res, s')
  {
    if s.state == ServiceState.Condition || s.state == ServiceState.StartPre {
      PreparedIs(w, s, res, s');
    } else if s.state == ServiceState.Start || s.state == ServiceState.StartPost || s.state == ServiceState.Reload {
      StartedIs(w, s, res, s');
    } else {
      LeavingIs(w, s, res, s');
    }
  }

  lemma PreparedIs(w: Ways, s: View, res: ServiceResult, s': View)
    requires s.state == ServiceState.Condition || s.state == ServiceState.StartPre
    requires s.left.queue == [] && LeadsBy(w.ControlIsGone, s, res, s')
    ensures ControlIsThrough(w, s, res, s')
  {
    LeadsByTo(w.ControlIsGone, s, res, s');
    if res != Success {
      StopPostsAre(w, w.Asked(s, 1), w.Signal(s));
    }
  }

  lemma StartedIs(w: Ways, s: View, res: ServiceResult, s': View)
    requires s.state == ServiceState.Start || s.state == ServiceState.StartPost || s.state == ServiceState.Reload
    requires s.left.queue == [] && LeadsBy(w.ControlIsGone, s, res, s')
    ensures ControlIsThrough(w, s, res, s')
  {
    LeadsByTo(w.ControlIsGone, s, res, s');
    if s.state == ServiceState.Start {
      StopPostsAre(w, w.Asked(s, 1), w.Signal(s));
    } else {
      RunsOnIs(w, s, res);
      RunsOnIs(w, w.Guesses(s), Success);
    }
  }

  lemma LeavingIs(w: Ways, s: View, res: ServiceResult, s': View)
    requires s.state != ServiceState.Condition && s.state != ServiceState.StartPre && s.state != ServiceState.Start
    requires s.state != ServiceState.StartPost && s.state != ServiceState.Reload
    requires s.left.queue == [] && LeadsBy(w.ControlIsGone, s, res, s')
    ensures ControlIsThrough(w, s, res, s')
  {
    LeadsByTo(w.ControlIsGone, s, res, s');
    if s.state == ServiceState.Stop {
      StopPostsAre(w, w.Asked(s, 1), w.Signal(s));
    } else {
      StopPostsAre(w, s, res);
    }
  }

  lemma StopPostsAre(w: Ways, s: View, res: ServiceResult)
    ensures SkipsStop(w, s.left, w.StopPosts(s, res))
    ensures var was, now := Note(s, res).result, w.StopPosts(s, res).result;
            now == was || (was == Success && now == FailureResources)
    ensures Note(s, res).result != Success ==> w.StopPosts(s, res).state != Dead
  {
    FinalTermIs(w, w.Tries(Note(s, res), ServiceCommand.StopPost));
  }

  lemma FinalTermIs(w: Ways, s: View)
    ensures var now := w.FinalTerm(s);
            && Over(now.state) && now.left == Left(s.left.attempts, [])
            && (now.result == s.result || (s.result == Success && now.result == FailureResources))
            && (s.result != Success ==> now.state != Dead)
  {
  }

  lemma StopsAre(w: Ways, s: View, res: ServiceResult)
    ensures TakesStop(w, s.left, w.Stops(s, res))
  {
    var tried := w.Tries(Note(s, res), ServiceCommand.Stop);
    StopPostsAre(w, w.Asked(tried, 1), w.Signal(tried));
  }

  lemma RunsOnIs(w: Ways, s: View, res: ServiceResult)
    ensures ComesDown(w, s, Note(s, res).result, s.asked, w.RunsOn(s, res))
  {
    var alone := Note(s, res).(controlPid := None);
    StopPostsAre(w, w.Asked(alone, 1), w.Signal(alone));
    StopsAre(w, w.Asked(s.(controlPid := None), 1), Success);
  }
}
