/** The state machine of a service (coms/service/src/mng.rs). Processes are started and signalled,
    and questions asked, outside of the model: the answers are a parameter, and may be anything. */
module Service {
  import opened Wrappers
  import opened ServiceTypes
  import opened ServiceWays

  class ServiceMng {
    const config: ServiceConfig
    const outside: Outside
    /** What has been started so far, and how many questions have been asked. */
    var attempts: seq<Attempt>
    var asked: nat

    var state: ServiceState
    var result: ServiceResult
    var mainPid: Option<nat>
    var controlPid: Option<nat>
    var mainCommand: seq<ExecCommand>
    var controlCommand: seq<ExecCommand>
    var forbidRestart: bool
    var resetRestart: bool
    var timerArmed: bool

    ghost function Look(): View
      reads this
    {
      View(state, result, mainPid, controlPid, mainCommand, Left(attempts, controlCommand), asked, forbidRestart)
    }

    ghost function Mine(): Ways {
      Ways(config, outside)
    }

    /** What is left of the main commands is the end of ExecStart. */
    ghost predicate Valid()
      reads this
    {
      IsSuffix(mainCommand, config.Cmds(ServiceCommand.Start))
    }

    /** No process is tracked, and no command kept, in a state that has no use for it. */
    ghost predicate Tidy()
      reads this
    {
      && (!KeepsMain(state) ==> mainPid.None? && mainCommand == [])
      && (!KeepsControl(state) ==> controlPid.None? && controlCommand == [])
    }

    /** On the way out. Only a stop that is in force rules a restart out. */
    ghost predicate Ending(forbid: bool)
      reads this
    {
      && Tidy()
      && (Stopping(state) || Over(state)) && !(state == AutoRestart && forbid)
      && (Stopping(state) ==> forbidRestart == forbid)
    }

    /** Waiting for the end of a control process, or, with a pid file, for the file. */
    ghost predicate AwaitsNow()
      reads this
    {
      || AwaitsControl(state) || state == ServiceState.StartPost
      || (state == ServiceState.Start && config.kind == Forking)
    }

    ghost predicate FileAwaited()
      reads this
    {
      config.pidFile && (state == ServiceState.StartPost || (state == ServiceState.Start && config.kind == Forking))
    }

    /** Waiting for the end of a main process. */
    ghost predicate AwaitsMain()
      reads this
    {
      state == ServiceState.Start && config.kind == Oneshot
    }

    /** A control process is tracked exactly while it is awaited, unless it is a file that is. */
    ghost predicate ControlAttended()
      reads this
    {
      (controlPid.Some? ==> AwaitsNow()) && (AwaitsNow() ==> controlPid.Some? || FileAwaited())
    }

    /** What is awaited is tracked. */
    ghost predicate Attended()
      reads this
    {
      ControlAttended() && (AwaitsMain() ==> mainPid.Some?)
    }

    /** A process is awaited, and there is none. */
    ghost predicate Abandoned()
      reads this
    {
      controlPid.None? && (AwaitsNow() || (AwaitsMain() && mainPid.None?))
    }

    /** No exit of a child leads on from here, not even that of a main process. */
    ghost predicate Forsaken()
      reads this
    {
      Abandoned() && (state == ServiceState.Start ==> mainPid.None?)
    }

    ghost predicate ControlIsMissing()
      reads this
    {
      controlPid.None? && (AwaitsControl(state) || state == ServiceState.StartPost)
    }

    /** Without a pid file there is nothing in between. */
    lemma AbandonedOrAttended()
      ensures Attended() ==> !Abandoned() || FileAwaited()
      ensures ControlAttended() && !Abandoned() ==> Attended()
    {
    }

    /** The first start command has been taken from its queue. */
    ghost predicate FirstPopped(cmd: ExecCommand)
      reads this
      requires config.Cmds(ServiceCommand.Start) != []
    {
      var cmds := config.Cmds(ServiceCommand.Start);
      && cmd == cmds[0]
      && if config.kind == Forking then mainCommand == cmds && controlCommand == cmds[1..]
         else mainCommand == cmds[1..] && controlCommand == []
    }

    /** A service that has just been started, one command of each queue being under way. */
    ghost predicate Started()
      reads this
    {
      var cmds := config.Cmds(ServiceCommand.Start);
      cmds != [] && (state == ServiceState.Start || state == ServiceState.StartPost || state == Running) ==>
        if config.kind == Forking
        then state == ServiceState.Start && controlPid.Some? && controlCommand == cmds[1..] && mainCommand == cmds
        else mainPid.Some? && mainCommand == cmds[1..]
    }

    /** How a start is stuck: its main process runs, in whatever state the service was before, or
        a Oneshot is in Start without a process. */
    ghost predicate LeftRunning(before: ServiceState, n: nat)
      reads this
    {
      && controlPid.None?
      && if config.kind == Simple then state == before && mainPid == outside.Spawned(n) && mainPid.Some?
         else state == ServiceState.Start && mainPid.None? && mainCommand == []
    }

    /** The next start-post command cannot be started. */
    ghost predicate StartPostSticks()
      reads this
    {
      Refilled(config, ServiceCommand.StartPost, controlCommand) != [] && outside.Spawned(|attempts|).None?
    }

    /** The last control process ends in success, and what follows is stuck. A forking service with
        a pid file enters the start-post phase twice: the second time decides, on the commands
        that the first has left. */
    ghost predicate ControlSticks()
      reads this
    {
      match state
      case Condition => config.Cmds(ServiceCommand.StartPre) == [] && StartSticks(config, outside, |attempts|)
      case StartPre => StartSticks(config, outside, |attempts|)
      case Start => config.kind == Forking && ForkingSticks()
      case _ => false
    }

    ghost predicate ForkingSticks()
      reads this
    {
      if config.Cmds(ServiceCommand.StartPost) != [] then
        outside.Spawned(if config.pidFile then |attempts| + 1 else |attempts|).None?
      else if config.pidFile && !outside.PidFileAt(asked).Unreadable? then
        var left := LeftByRunning(config, outside, asked + 1, result, Left(attempts, []));
        Refilled(config, ServiceCommand.StartPost, left.queue) != [] && outside.Spawned(|left.attempts|).None?
      else false
    }

    /** A main process that was known has ended in success: the next one of a oneshot service
        cannot be started, or there is none, no process is left, and start-post is stuck. The n-th
        question is whether a process is left. */
    ghost predicate LostSticks(n: nat)
      reads this
    {
      && AwaitsMain()
      && if mainCommand != [] then outside.Spawned(|attempts|).None? else !outside.Answer(n) && StartPostSticks()
    }

    /** The last main process of a oneshot service has ended, and others are left in its control
        group: it is not asked again whether they still are. */
    ghost predicate LostDeserts(res: ServiceResult, n: nat)
      reads this
    {
      AwaitsMain() && (mainCommand == [] || res != Success) && outside.Answer(n)
    }

    /** It stays where it is, and nothing is tried. */
    ghost predicate LeftAlone(before: seq<Attempt>)
      reads this
    {
      state == ServiceState.Start && mainPid.None? && attempts == before
    }

    /** The source leaves open what the end of the main process means for a dead service, but
        only if no other command is run and no process is left. */
    ghost predicate LostHasAnswer(res: ServiceResult, n: nat)
      reads this
    {
      state == Dead ==> (config.kind == Oneshot && mainCommand != [] && res == Success) || outside.Answer(n)
    }

    /** The pid file names another main process before the end of this one is looked at. */
    ghost predicate MainReplaced()
      reads this
    {
      config.pidFile && outside.PidFileAt(asked).OtherProcess?
    }

    /** The number of the question whether a process is left. */
    ghost function GroupAsked(): nat
      reads this
    {
      if config.pidFile then asked + 1 else asked
    }

    /** The end of a process leaves the service stuck. */
    ghost predicate ExitSticks(status: WaitStatus)
      reads this
    {
      && SigchldResult(status) == Success
      && if mainPid == Some(status.pid) then !MainReplaced() && LostSticks(GroupAsked())
         else controlPid == Some(status.pid)
              && if controlCommand != [] then outside.Spawned(|attempts|).None? else ControlSticks()
    }

    /** The end of a main process leaves a oneshot service alone with what is left of its group. */
    ghost predicate ExitDeserts(status: WaitStatus)
      reads this
    {
      mainPid == Some(status.pid) && !MainReplaced() && LostDeserts(SigchldResult(status), GroupAsked())
    }

    /** Without start-post commands and without a pid file, nothing is ever stuck but a queue of
        further commands. Of those, a service has main ones only if it is a oneshot service, and
        none once it has been started, if one command is all that is configured. */
    lemma NothingSticks(status: WaitStatus, n: nat)
      requires config.Cmds(ServiceCommand.StartPost) == [] && !config.pidFile
      ensures !StartSticks(config, outside, n)
      ensures ExitSticks(status) ==> controlCommand != [] || (config.kind == Oneshot && mainCommand != [])
      ensures ExitSticks(status) && Valid() && Started() ==>
                controlCommand != [] || (config.kind == Oneshot && |config.Cmds(ServiceCommand.Start)| > 1)
    {
    }

    constructor (config: ServiceConfig, outside: Outside)
      ensures this.config == config && this.outside == outside && attempts == [] && asked == 0
      ensures Valid() && Tidy() && state == Dead && result == Success
      ensures mainPid.None? && controlPid.None? && controlCommand == [] && !forbidRestart && !timerArmed
    {
      this.config, this.outside := config, outside;
      attempts, asked := [], 0;
      state, result := Dead, Success;
      mainPid, controlPid := None, None;
      mainCommand, controlCommand := [], [];
      forbidRestart, resetRestart, timerArmed := false, false, false;
    }

    // -------------------------------------------------------------- the outside

    method Spawn(purpose: Purpose, cmd: ExecCommand) returns (pid: Option<nat>)
      modifies this`attempts
      ensures pid == outside.Spawned(|old(attempts)|) && attempts == old(attempts) + [Attempt(purpose, cmd, pid)]
    {
      pid := outside.Spawned(|attempts|);
      attempts := attempts + [Attempt(purpose, cmd, pid)];
    }

    method Ask() returns (answer: bool)
      modifies this`asked
      ensures answer == outside.Answer(old(asked)) && asked == old(asked) + 1
    {
      answer := outside.Answer(asked);
      asked := asked + 1;
    }

    // -------------------------------------------------------------- the command queues

    method MainCommandFill()
      requires Valid()
      modifies this`mainCommand
      ensures Valid()
      ensures mainCommand == config.Cmds(ServiceCommand.Start)
    {
      if ServiceCommand.Start in config.execs {
        mainCommand := config.execs[ServiceCommand.Start];
      }
    }

    method MainCommandPop() returns (cmd: Option<ExecCommand>)
      requires Valid()
      modifies this`mainCommand
      ensures Valid()
      ensures if old(mainCommand) == [] then cmd.None? && mainCommand == []
              else cmd == Some(old(mainCommand)[0]) && mainCommand == old(mainCommand)[1..]
    {
      if mainCommand == [] {
        return None;
      }
      cmd, mainCommand := Some(mainCommand[0]), mainCommand[1..];
    }

    /** Restoring from a length: fill, then pop as often as there are commands too many. */
    method MainCommandUpdate(len: nat)
      requires Valid()
      modifies this`mainCommand
      ensures Valid() && mainCommand == LastOf(config.Cmds(ServiceCommand.Start), len)
    {
      mainCommand := [];
      MainCommandFill();
      var all := mainCommand;
      var i := len;
      while i < |all|
        invariant Valid() && len <= i && (len <= |all| ==> i <= |all|) && (len > |all| ==> i == len)
        invariant i - len <= |all| && mainCommand == all[i - len..]
      {
        var _ := MainCommandPop();
        i := i + 1;
      }
    }

    /** What is not configured leaves the queue as it was. */
    method ControlCommandFill(command: ServiceCommand)
      modifies this`controlCommand
      ensures controlCommand == Refilled(config, command, old(controlCommand))
    {
      if command in config.execs {
        controlCommand := config.execs[command];
      }
    }

    method ControlCommandPop() returns (cmd: Option<ExecCommand>)
      modifies this`controlCommand
      ensures if old(controlCommand) == [] then cmd.None? && controlCommand == []
              else cmd == Some(old(controlCommand)[0]) && controlCommand == old(controlCommand)[1..]
    {
      if controlCommand == [] {
        return None;
      }
      cmd, controlCommand := Some(controlCommand[0]), controlCommand[1..];
    }

    /** Refill the control queue, and start its first command. */
    method TryFirst(command: ServiceCommand) returns (cmd: Option<ExecCommand>, pid: Option<nat>)
      modifies this`controlCommand, this`attempts
      ensures Look() == Mine().Tries(old(Look()), command)
      ensures var left := Left(old(attempts), old(controlCommand));
              && (cmd.Some? <==> Refilled(config, command, left.queue) != [])
              && (pid.Some? <==> Starts(config, outside, command, left))
      ensures cmd.Some? ==>
                && pid == outside.Spawned(|old(attempts)|) && |attempts| == |old(attempts)| + 1
                && (StuckOn(attempts) <==> command == ServiceCommand.StartPost && pid.None?)
      ensures cmd.None? ==> attempts == old(attempts)
    {
      ControlCommandFill(command);
      cmd := ControlCommandPop();
      pid := None;
      if cmd.Some? {
        pid := Spawn(FirstOf(command), cmd.value);
      }
    }

    /** The same, after a result; the first failure is kept. */
    method NoteAndTry(res: ServiceResult, command: ServiceCommand) returns (cmd: Option<ExecCommand>, pid: Option<nat>)
      modifies this`result, this`controlCommand, this`attempts
      ensures Look() == Mine().Tries(Note(old(Look()), res), command)
      ensures var left := Left(old(attempts), old(controlCommand));
              && (cmd.Some? <==> Refilled(config, command, left.queue) != [])
              && (pid.Some? <==> Starts(config, outside, command, left))
      ensures cmd.Some? ==>
                && pid == outside.Spawned(|old(attempts)|) && |attempts| == |old(attempts)| + 1
                && (StuckOn(attempts) <==> command == ServiceCommand.StartPost && pid.None?)
      ensures cmd.None? ==> attempts == old(attempts)
    {
      result := if result == Success then res else result;
      cmd, pid := TryFirst(command);
    }

    // -------------------------------------------------------------- changing the state

    method SetState(s: ServiceState)
      requires Valid()
      modifies this`state, this`mainPid, this`mainCommand, this`controlPid, this`controlCommand
      ensures Valid() && Tidy() && state == s
      ensures KeepsMain(s) ==> mainPid == old(mainPid) && mainCommand == old(mainCommand)
      ensures KeepsControl(s) ==> controlPid == old(controlPid) && controlCommand == old(controlCommand)
    {
      state := s;
      if !KeepsMain(s) {
        mainPid, mainCommand := None, [];
      }
      if !KeepsControl(s) {
        controlPid, controlCommand := None, [];
      }
    }

    /** A control process has been started, and its end is waited for. */
    method Await(s: ServiceState, pid: Option<nat>)
      requires Valid() && (AwaitsControl(s) || s == ServiceState.StartPost)
      modifies this`state, this`mainPid, this`mainCommand, this`controlPid, this`controlCommand
      ensures Valid() && Tidy() && state == s && controlPid == pid && controlCommand == old(controlCommand)
      ensures pid.Some? ==> Attended()
      ensures Stopping(s) ==> Ending(forbidRestart)
      ensures KeepsMain(s) ==> mainPid == old(mainPid) && mainCommand == old(mainCommand)
    {
      controlPid := pid;
      SetState(s);
    }

    method ShallRestart() returns (shall: bool)
      modifies this`asked
      ensures shall <==>
                && !forbidRestart && !(config.preventable && outside.Answer(old(asked)))
                && config.restart in RestartedBy(result)
      ensures asked == old(asked) + if !forbidRestart && config.preventable then 1 else 0
    {
      if forbidRestart {
        return false;
      }
      if config.preventable {
        var prevented := Ask();
        if prevented {
          return false;
        }
      }
      return RestartsOn(config.restart, result);
    }

    /** The end of the line, or of this attempt. */
    method EnterDead(res: ServiceResult, forceRestart: bool)
      requires Valid()
      modifies this
      ensures Valid() && Ending(old(forbidRestart)) && Over(state)
      ensures state == AutoRestart <==>
                && forceRestart && !outside.Answer(old(asked)) && !old(forbidRestart)
                && !(config.preventable && outside.Answer(old(asked) + 1)) && config.restart in RestartedBy(result)
      ensures attempts == old(attempts) && !forbidRestart
      ensures mainPid.None? && controlPid.None? && mainCommand == [] && controlCommand == []
      ensures result == if old(result) == Success then res else old(result)
      ensures forceRestart ==> LeadsBy(Mine().Dies, old(Look()), res, Look())
      ensures !forceRestart ==> Look() == Mine().Ends(Note(old(Look()), res), false, 1)
      ensures if state == AutoRestart then timerArmed && resetRestart == old(resetRestart)
              else resetRestart && timerArmed == old(timerArmed)
      decreases 0
    {
      var restart := LastResult(res, forceRestart);
      Bury(restart);
      if forceRestart {
        DiesLeads(Mine(), old(Look()), res, restart, Look());
      }
    }

    /** Note the result, and decide on a restart. */
    method LastResult(res: ServiceResult, forceRestart: bool) returns (restart: bool)
      modifies this`result, this`asked
      ensures result == if old(result) == Success then res else old(result)
      ensures restart <==>
                && forceRestart && !outside.Answer(old(asked)) && !forbidRestart
                && !(config.preventable && outside.Answer(old(asked) + 1)) && config.restart in RestartedBy(result)
      ensures asked == old(asked)
                       + if forceRestart && !outside.Answer(old(asked)) && !forbidRestart && config.preventable then 2 else 1
    {
      restart := forceRestart;
      var hasStopJob := Ask();
      if hasStopJob {
        restart := false;
      }
      result := if result == Success then res else result;
      if restart {
        restart := ShallRestart();
      }
    }

    method Bury(restart: bool)
      requires Valid()
      modifies this`state, this`mainPid, this`mainCommand, this`controlPid, this`controlCommand
      modifies this`timerArmed, this`resetRestart, this`forbidRestart
      ensures Valid() && Tidy() && mainPid.None? && controlPid.None? && mainCommand == [] && controlCommand == []
      ensures state == if restart then AutoRestart else if result == Success then Dead else ServiceState.Failed
      ensures if restart then timerArmed && resetRestart == old(resetRestart)
              else resetRestart && timerArmed == old(timerArmed)
      ensures !forbidRestart
    {
      SetState(if result == Success then Dead else ServiceState.Failed);
      if restart {
        timerArmed := true;
        SetState(AutoRestart);
      } else {
        resetRestart := true;
      }
      forbidRestart := false;
    }

    /** Signal the processes; whether that works or not, go on to what comes next. */
    method EnterSignal(s: ServiceState, res: ServiceResult)
      requires Valid() && (StopSignal(s) || FinalSignal(s))
      modifies this
      ensures Valid() && Ending(old(forbidRestart)) && Attended() && state != ServiceState.Stop
      ensures StuckOn(attempts) ==> attempts == old(attempts)
      ensures FinalSignal(s) ==> Over(state)
      ensures StopSignal(s) ==> Leads(Mine().StopTerm, old(Look()), Look())
      ensures s == FinalSigkill ==> Leads(Mine().FinalKill, old(Look()), Look())
      ensures FinalSignal(s) && s != FinalSigkill ==> Leads(Mine().FinalTerm, old(Look()), Look())
      ensures state != AutoRestart ==> timerArmed == old(timerArmed)
      decreases if StopSignal(s) then 4 else if s == FinalSigkill then 1 else 2
    {
      ghost var was := Look();
      var killed := Ask();
      assert Look() == Mine().Asked(was, 1);
      if StopSignal(s) {
        EnterStopPost(if killed then Success else FailureResources);
        StopTermLeads(Mine(), was, Look());
        return;
      }
      if killed && s != FinalSigkill {
        EnterSignal(FinalSigkill, Success);
        FinalTermLeads(Mine(), was, Look());
        return;
      }
      EnterDead(if killed then Success else FailureResources, true);
      if s == FinalSigkill {
        FinalKillLeads(Mine(), was, Look());
      } else {
        FinalTermLeads(Mine(), was, Look());
      }
    }

    method EnterStopPost(res: ServiceResult)
      requires Valid()
      modifies this
      ensures Valid() && Ending(old(forbidRestart)) && Attended() && state != ServiceState.Stop
      ensures StuckOn(attempts) ==> attempts == old(attempts)
      ensures LeadsBy(Mine().StopPosts, old(Look()), res, Look())
      ensures state != AutoRestart ==> timerArmed == old(timerArmed)
      decreases 3
    {
      var cmd, pid := NoteAndTry(res, ServiceCommand.StopPost);
      if pid.None? {
        EnterSignal(FinalSigterm, if cmd.None? then Success else FailureResources);
        StopPostsLead(Mine(), old(Look()), res, Look());
        return;
      }
      Await(ServiceState.StopPost, pid);
      StopPostsLead(Mine(), old(Look()), res, Look());
    }

    method EnterStop(res: ServiceResult)
      requires Valid()
      modifies this
      ensures Valid() && Ending(old(forbidRestart)) && Attended()
      ensures StuckOn(attempts) ==> attempts == old(attempts)
      ensures LeadsBy(Mine().Stops, old(Look()), res, Look())
      ensures state != AutoRestart ==> timerArmed == old(timerArmed)
      decreases 5, 0
    {
      var cmd, pid := NoteAndTry(res, ServiceCommand.Stop);
      if pid.None? {
        EnterSignal(StopSigterm, if cmd.None? then Success else FailureResources);
        StopsLead(Mine(), old(Look()), res, Look());
        return;
      }
      Await(ServiceState.Stop, pid);
      StopsLead(Mine(), old(Look()), res, Look());
    }

    /** A stop by hand is final: whatever the service was doing, it ends up stopped, or on the
        way there, and never in a restart. It does not disarm the restart timer, though, and the
        timer has no answer to any of the states it may now find. */
    method StopAction()
      requires Valid()
      modifies this
      ensures Valid() && Ending(true) && Attended()
      ensures timerArmed == old(timerArmed) && state != Running && state != AutoRestart
      ensures var was := old(Look()).(forbid := true);
              if Starting(old(state)) then Leads(Mine().StopTerm, was, Look())
              else LeadsBy(Mine().Stops, was, Success, Look())
      ensures Left(attempts, controlCommand)
              == LeftAfterStop(config, outside, Starting(old(state)), Left(old(attempts), old(controlCommand)))
      ensures RunsItsOwn(config, attempts, |old(attempts)|)
              <==> StopsByItself(config, outside, Starting(old(state)), Left(old(attempts), old(controlCommand)))
    {
      StopRunsItsOwn(config, outside, Starting(state), Left(attempts, controlCommand));
      forbidRestart := true;
      ghost var was := Look();
      if Starting(state) {
        EnterSignal(StopSigterm, Success);
        StopTermLeaves(Mine(), was, Look());
        return;
      }
      EnterStop(Success);
      StopsLeave(Mine(), was, Success, Look());
    }

    // -------------------------------------------------------------- starting

    method StartAction() returns (stuck: bool)
      requires Valid()
      modifies this
      ensures Valid() && (!stuck ==> Tidy() && Attended() && Started())
      ensures stuck <==>
                && Refilled(config, ServiceCommand.Condition, old(controlCommand)) == []
                && config.Cmds(ServiceCommand.StartPre) == [] && StartSticks(config, outside, |old(attempts)|)
      ensures stuck <==> StuckSince(attempts, |old(attempts)|)
      ensures stuck ==> LeftRunning(old(state), |old(attempts)|)
      ensures (Refilled(config, ServiceCommand.Condition, old(controlCommand)) == []
               && config.Cmds(ServiceCommand.StartPre) != [] && outside.Spawned(|old(attempts)|).Some?)
              ==> PreStarting(Mine(), old(Look()).(result := Success), Look())
      ensures (Refilled(config, ServiceCommand.Condition, old(controlCommand)) == []
               && config.Cmds(ServiceCommand.StartPre) == [] && GetsUnderWay(Mine(), |old(attempts)|))
              ==> UnderWay(Mine(), old(Look()).(result := Success), Look())
      ensures Leads(Mine().Conditions, old(Look()).(result := Success), Look())
    {
      resetRestart, result := false, Success;
      stuck := EnterCondition();
      if Refilled(config, ServiceCommand.Condition, old(controlCommand)) == [] {
        StartGetsOn(Mine(), old(Look()).(result := Success), Look());
      }
    }

    /** From a state without a main process, a start that is stuck leaves a Simple service untidy,
        and no other. */
    lemma StuckStart(before: ServiceState, n: nat)
      requires LeftRunning(before, n) && !KeepsMain(before)
      ensures Tidy() <==> config.kind != Simple
    {
    }

    method EnterCondition() returns (stuck: bool)
      requires Valid()
      modifies this
      ensures Valid() && (!stuck ==> Tidy() && Attended() && Started())
      ensures stuck <==>
                && Refilled(config, ServiceCommand.Condition, old(controlCommand)) == []
                && config.Cmds(ServiceCommand.StartPre) == [] && StartSticks(config, outside, |old(attempts)|)
      ensures stuck <==> StuckSince(attempts, |old(attempts)|)
      ensures stuck ==> LeftRunning(old(state), |old(attempts)|)
      ensures Leads(Mine().Conditions, old(Look()), Look())
      decreases 10
    {
      var cmd, pid := TryFirst(ServiceCommand.Condition);
      if cmd.None? {
        stuck := EnterPrestart();
        ConditionsLead(Mine(), old(Look()), Look());
        return;
      }
      AwaitPreparation(ServiceState.Condition, pid);
      ConditionsLead(Mine(), old(Look()), Look());
      return false;
    }

    /** Without a command that comes before the start there is no start. */
    method AwaitPreparation(s: ServiceState, pid: Option<nat>)
      requires Valid() && (s == ServiceState.Condition || s == ServiceState.StartPre)
      modifies this
      ensures Valid() && Tidy() && Attended() && Started() && attempts == old(attempts)
      ensures if pid.None? then LeadsBy(Mine().Dies, old(Look()), FailureResources, Look())
              else Look() == old(Look()).(state := s, controlPid := pid, mainPid := None, mainCommand := [])
    {
      if pid.None? {
        EnterDead(FailureResources, true);
        return;
      }
      Await(s, pid);
    }

    method EnterPrestart() returns (stuck: bool)
      requires Valid()
      modifies this
      ensures Valid() && (!stuck ==> Tidy() && Attended() && Started())
      ensures stuck <==>
                && Refilled(config, ServiceCommand.StartPre, old(controlCommand)) == []
                && StartSticks(config, outside, |old(attempts)|)
      ensures stuck <==> StuckSince(attempts, |old(attempts)|)
      ensures stuck ==> LeftRunning(old(state), |old(attempts)|)
      ensures Leads(Mine().PreStarts, old(Look()), Look())
      decreases 9
    {
      controlPid := None;
      var cmd, pid := TryFirst(ServiceCommand.StartPre);
      assert Look() == Mine().Tries(old(Look()).(controlPid := None), ServiceCommand.StartPre);
      if cmd.None? {
        stuck := EnterStart();
        PreStartsLead(Mine(), old(Look()), Look());
        return;
      }
      AwaitPreparation(ServiceState.StartPre, pid);
      PreStartsLead(Mine(), old(Look()), Look());
      return false;
    }

    /** The start commands of a forking service are run as control commands. */
    method PopStartCommand() returns (cmd: Option<ExecCommand>)
      requires Valid() && controlCommand == []
      modifies this`mainCommand, this`controlCommand
      ensures Valid()
      ensures if config.Cmds(ServiceCommand.Start) == [] then cmd.None? && mainCommand == [] && controlCommand == []
              else cmd.Some? && FirstPopped(cmd.value)
    {
      MainCommandFill();
      if config.kind == Forking {
        ControlCommandFill(ServiceCommand.Start);
        cmd := ControlCommandPop();
      } else {
        MainCommandFill();
        cmd := MainCommandPop();
      }
    }

    method EnterStart() returns (stuck: bool)
      requires Valid()
      modifies this
      ensures Valid() && (!stuck ==> Tidy() && Attended() && Started())
      ensures stuck <==> StartSticks(config, outside, |old(attempts)|)
      ensures stuck <==> StuckSince(attempts, |old(attempts)|)
      ensures stuck ==> LeftRunning(old(state), |old(attempts)|)
      ensures Leads(Mine().StartsUp, old(Look()), Look())
      decreases 8, 1
    {
      controlCommand, controlPid, mainPid := [], None, None;
      var cmd := PopStartCommand();
      ghost var cleared := Look();
      if cmd.None? {
        stuck := StartWithout();
        StartsUpLeads(Mine(), old(Look()), cleared, Look());
        return;
      }
      stuck := StartWith(cmd.value);
      StartsUpLeads(Mine(), old(Look()), cleared, Look());
    }

    /** Only a oneshot service can do without a start command. */
    method StartWithout() returns (stuck: bool)
      requires Valid() && mainPid.None? && mainCommand == [] && controlCommand == []
      requires config.Cmds(ServiceCommand.Start) == []
      modifies this
      ensures Valid() && (!stuck ==> Tidy() && Attended())
      ensures stuck <==>
                && config.kind == Oneshot && config.Cmds(ServiceCommand.StartPost) != []
                && outside.Spawned(|old(attempts)|).None?
      ensures stuck <==> StuckSince(attempts, |old(attempts)|)
      ensures stuck ==> LeftRunning(old(state), |old(attempts)|)
      ensures Leads(Mine().StartsWithout, old(Look()), Look())
      decreases 8, 0
    {
      if config.kind != Oneshot {
        EnterSignal(StopSigterm, FailureResources);
        StartsWithoutLeads(Mine(), old(Look()), Look());
        return false;
      }
      SetState(ServiceState.Start);
      stuck := EnterStartPost();
      StartsWithoutLeads(Mine(), old(Look()), Look());
    }

    method StartWith(cmd: ExecCommand) returns (stuck: bool)
      requires Valid() && mainPid.None? && controlPid.None?
      requires config.Cmds(ServiceCommand.Start) != [] && FirstPopped(cmd)
      modifies this
      ensures Valid() && (!stuck ==> Tidy() && Attended() && Started())
      ensures stuck <==>
                && config.kind == Simple && config.Cmds(ServiceCommand.StartPost) != []
                && outside.Spawned(|old(attempts)|).Some? && outside.Spawned(|old(attempts)| + 1).None?
      ensures stuck <==> StuckSince(attempts, |old(attempts)|)
      ensures stuck ==> LeftRunning(old(state), |old(attempts)|)
      ensures LeadsBy(Mine().StartsWith, old(Look()), cmd, Look())
      decreases 8, 0
    {
      var pid := Spawn(FirstOf(ServiceCommand.Start), cmd);
      assert Look() == old(Look()).(left := Left(old(attempts) + [Attempt(FirstOf(ServiceCommand.Start), cmd, pid)],
                                                 old(controlCommand)));
      if pid.None? {
        EnterSignal(StopSigterm, FailureResources);
        StartsWithLeads(Mine(), old(Look()), cmd, Look());
        return false;
      }
      stuck := StartedAs(pid.value);
      StartsWithLeads(Mine(), old(Look()), cmd, Look());
    }

    method StartedAs(pid: nat) returns (stuck: bool)
      requires Valid() && mainPid.None? && controlPid.None? && !StuckOn(attempts)
      requires config.Cmds(ServiceCommand.Start) != [] && FirstPopped(config.Cmds(ServiceCommand.Start)[0])
      modifies this
      ensures Valid() && (!stuck ==> Tidy() && Attended() && Started())
      ensures stuck <==>
                && config.kind == Simple && config.Cmds(ServiceCommand.StartPost) != []
                && outside.Spawned(|old(attempts)|).None?
      ensures stuck <==> StuckOn(attempts)
      ensures stuck ==> |attempts| > |old(attempts)|
      ensures stuck ==> controlPid.None? && state == old(state) && mainPid == Some(pid)
      ensures LeadsBy(Mine().StartsAs, old(Look()), Some(pid), Look())
      decreases 7, 2
    {
      if config.kind == Simple {
        mainPid := Some(pid);
        stuck := EnterStartPost();
        StartsAsLeads(Mine(), old(Look()), pid, Look());
        return;
      }
      AwaitStart(pid);
      return false;
    }

    /** The process whose end, or whose notice, makes a service of another kind than simple a
        started one. */
    method AwaitStart(pid: nat)
      requires Valid() && mainPid.None? && controlPid.None? && config.kind != Simple
      requires config.Cmds(ServiceCommand.Start) != [] && FirstPopped(config.Cmds(ServiceCommand.Start)[0])
      modifies this`state, this`mainPid, this`mainCommand, this`controlPid, this`controlCommand
      ensures Valid() && Tidy() && Attended() && Started()
      ensures LeadsBy(Mine().StartsAs, old(Look()), Some(pid), Look())
    {
      if config.kind == Forking {
        controlPid := Some(pid);
      } else {
        mainPid := Some(pid);
      }
      SetState(ServiceState.Start);
      StartsAsLeads(Mine(), old(Look()), pid, Look());
    }

    /** When its command cannot be started, the service is left as it is: a Simple one may then
        be in any state with its main process running, and be stuck there. */
    method EnterStartPost() returns (stuck: bool)
      requires Valid()
      modifies this
      ensures Valid()
      ensures if stuck then state == old(state) && mainPid == old(mainPid) && mainCommand == old(mainCommand) && controlPid.None?
              else Tidy() && Attended() && state != ServiceState.Start
      ensures state == ServiceState.StartPost || state == Running ==> mainPid == old(mainPid) && mainCommand == old(mainCommand)
      ensures stuck && (KeepsMain(state) || (mainPid.None? && mainCommand == [])) && KeepsControl(state) ==> Tidy()
      ensures (stuck <==> old(StartPostSticks())) && (stuck <==> StuckSince(attempts, |old(attempts)|))
      ensures StuckOn(attempts) ==> stuck || attempts == old(attempts)
      ensures Leads(Mine().StartPosts, old(Look()), Look())
      decreases 7, 1
    {
      stuck := StartPostPhase();
    }

    /** The same, with what is left in the control queue. */
    method StartPostPhase() returns (stuck: bool)
      requires Valid()
      modifies this
      ensures Valid()
      ensures if stuck then state == old(state) && mainPid == old(mainPid) && mainCommand == old(mainCommand) && controlPid.None?
              else Tidy() && Attended() && state != ServiceState.Start
      ensures state == ServiceState.StartPost || state == Running ==> mainPid == old(mainPid) && mainCommand == old(mainCommand)
      ensures stuck && (KeepsMain(state) || (mainPid.None? && mainCommand == [])) && KeepsControl(state) ==> Tidy()
      ensures (stuck <==> old(StartPostSticks())) && (stuck <==> StuckSince(attempts, |old(attempts)|))
      ensures StuckOn(attempts) ==> stuck || attempts == old(attempts)
      ensures var queue := Refilled(config, ServiceCommand.StartPost, old(controlCommand));
              Left(attempts, controlCommand)
              == if queue == [] then LeftByRunning(config, outside, old(asked), old(result), Left(old(attempts), []))
                 else Left(TriedFront(outside, old(attempts), ServiceCommand.StartPost, queue), queue[1..])
      ensures if Refilled(config, ServiceCommand.StartPost, old(controlCommand)) == []
              then controlCommand != [] ==> Stopping(state)
              else stuck || state == ServiceState.StartPost
      ensures Leads(Mine().StartPosts, old(Look()), Look())
      decreases 7, 0
    {
      controlPid := None;
      var cmd, pid := TryFirst(ServiceCommand.StartPost);
      if cmd.None? {
        ghost var was := Look();
        EnterRunning(Success);
        RunsOnLeaves(Mine(), was, Success, Look());
        StartPostsLead(Mine(), old(Look()), Look());
        return false;
      }
      stuck := AwaitStartPost(pid);
      StartPostsLead(Mine(), old(Look()), Look());
    }

    method AwaitStartPost(pid: Option<nat>) returns (stuck: bool)
      requires Valid() && controlPid.None?
      modifies this`state, this`mainPid, this`mainCommand, this`controlPid, this`controlCommand
      ensures Valid() && (stuck <==> pid.None?) && controlPid == pid
      ensures mainPid == old(mainPid) && mainCommand == old(mainCommand) && controlCommand == old(controlCommand)
      ensures if stuck then state == old(state) else state == ServiceState.StartPost && Tidy() && Attended()
    {
      if pid.None? {
        return true;
      }
      Await(ServiceState.StartPost, pid);
      return false;
    }

    method EnterRunning(sr: ServiceResult)
      requires Valid()
      modifies this
      ensures Valid() && Tidy() && Attended() && state != ServiceState.Start && state != ServiceState.StartPost
      ensures state == Running ==> mainPid == old(mainPid) && mainCommand == old(mainCommand)
      ensures StuckOn(attempts) ==> attempts == old(attempts)
      ensures LeadsBy(Mine().RunsOn, old(Look()), sr, Look())
      decreases 6
    {
      controlPid := None;
      result := if result == Success then sr else result;
      assert Look() == Note(old(Look()), sr).(controlPid := None);
      if result != Success {
        EnterSignal(StopSigterm, sr);
        RunsOnLeads(Mine(), old(Look()), sr, Look());
        return;
      }
      SettleDown(sr);
      RunsOnLeads(Mine(), old(Look()), sr, Look());
    }

    method SettleDown(sr: ServiceResult)
      requires Valid() && result == Success && sr == Success && controlPid.None?
      modifies this
      ensures Valid() && Tidy() && Attended() && state != ServiceState.Start && state != ServiceState.StartPost
      ensures state == Running ==> mainPid == old(mainPid) && mainCommand == old(mainCommand)
      ensures StuckOn(attempts) ==> attempts == old(attempts)
      ensures Leads(Mine().Settles, old(Look()), Look())
      decreases 5, 1
    {
      var alive := Ask();
      assert Look() == Mine().Asked(old(Look()), 1);
      if !alive && !config.remainAfterExit {
        EnterStop(sr);
        SettlesStopping(Mine(), old(Look()), Look());
        return;
      }
      StayUp(old(Look()), alive);
    }

    /** The service is alive, or counts as active all the same. */
    method StayUp(ghost was: View, alive: bool)
      requires Valid() && result == Success && controlPid.None? && (alive || config.remainAfterExit)
      requires Look() == Mine().Asked(was, 1) && alive == outside.Answer(was.asked)
      modifies this`asked, this`state, this`mainPid, this`mainCommand, this`controlPid, this`controlCommand
      ensures Valid() && Tidy() && Attended() && (state == Running || state == StopSigterm || state == Exited)
      ensures state == Running ==> mainPid == was.mainPid && mainCommand == was.mainCommand
      ensures Leads(Mine().Settles, was, Look())
    {
      if !alive {
        SetState(Exited);
        SettlesAt(Mine(), was, Look());
        return;
      }
      var stopping := Ask();
      SetState(if stopping then StopSigterm else Running);
      SettlesAt(Mine(), was, Look());
    }

    method ReloadAction()
      requires Valid()
      modifies this
      ensures Valid() && Tidy() && Attended()
      ensures Leads(Mine().Reloads, old(Look()), Look())
    {
      controlCommand, controlPid := [], None;
      var cmd, pid := TryFirst(ServiceCommand.Reload);
      if cmd.None? {
        EnterRunning(Success);
        ReloadsLead(Mine(), old(Look()), Look());
        return;
      }
      if pid.None? {
        EnterRunning(Success);
        ReloadsLead(Mine(), old(Look()), Look());
        return;
      }
      Await(ServiceState.Reload, pid);
      ReloadsLead(Mine(), old(Look()), Look());
    }

    // -------------------------------------------------------------- a child has ended

    /** The pid file may name another main process. */
    method LoadPidFile() returns (loaded: Option<bool>)
      modifies this`mainPid, this`asked
      ensures !config.pidFile ==> loaded.None? && mainPid == old(mainPid)
      ensures asked == old(asked) + if config.pidFile then 1 else 0
      ensures Look() == if config.pidFile then Mine().FileRead(old(Look())) else old(Look())
      ensures config.pidFile ==>
                match outside.PidFileAt(old(asked))
                case Unreadable(unwatched) => loaded.None? && mainPid == if unwatched then None else old(mainPid)
                case SameProcess => loaded == Some(false) && mainPid == old(mainPid)
                case OtherProcess(pid) => loaded == Some(true) && mainPid == Some(pid)
    {
      if !config.pidFile {
        return None;
      }
      var answer := outside.PidFileAt(asked);
      asked := asked + 1;
      match answer {
        case Unreadable(unwatched) =>
          if unwatched {
            mainPid := None;
          }
          return None;
        case SameProcess =>
          return Some(false);
        case OtherProcess(pid) =>
          mainPid := Some(pid);
          return Some(true);
      }
    }

    /** The source has an answer to the end of a process, unless it is the main process of a dead
        service, of which nothing is left and nothing else is run, or the last control process of
        a running one. */
    ghost predicate HasAnswer(status: WaitStatus)
      reads this
    {
      if mainPid == Some(status.pid) then MainReplaced() || LostHasAnswer(SigchldResult(status), GroupAsked())
      else controlPid == Some(status.pid) && state == Running ==>
             controlCommand != [] && SigchldResult(status) == Success
    }

    /** A tidy service always has one. */
    lemma TidyHasAnswer(status: WaitStatus)
      requires Tidy()
      ensures HasAnswer(status)
    {
    }

    /** No child exit brings a stopped service back, and a tidy one stays tidy. A service that
        waits for a process goes on waiting for one, or leads on, unless it is stuck or deserted:
        then it waits for a process that there is not, and no further exit leads on, except for
        that of the main process of a forking service. */
    method SigchldEvent(status: WaitStatus) returns (stuck: bool)
      requires Valid() && HasAnswer(status)
      modifies this
      ensures Valid()
      ensures old(Ending(true)) ==> Ending(true)
      ensures old(Attended()) ==> if stuck || old(ExitDeserts(status)) then Abandoned() else Attended()
      ensures old(ExitDeserts(status)) ==> LeftAlone(old(attempts))
      ensures old(Forsaken()) ==> Forsaken() && state == old(state)
      ensures stuck <==> old(ExitSticks(status))
      ensures stuck <==>
                StuckSince(attempts, |old(attempts)|) && (old(mainPid) == Some(status.pid) ==> state == ServiceState.Start)
      ensures old(Tidy()) ==> Tidy() || stuck
      ensures old(mainPid) == Some(status.pid) ==>
                && LeadsBy(Mine().MainExits, old(Look()), SigchldResult(status), Look())
                && MainHasEnded(Mine(), old(Look()), SigchldResult(status), Look())
      ensures old(mainPid) != Some(status.pid) && old(controlPid) == Some(status.pid) ==>
                && LeadsBy(Mine().ControlEnds, old(Look()), SigchldResult(status), Look())
                && ControlHasEnded(Mine(), old(Look()), SigchldResult(status), Look())
      ensures old(mainPid) != Some(status.pid) && old(controlPid) != Some(status.pid) ==> Look() == old(Look())
    {
      stuck := false;
      if mainPid == Some(status.pid) {
        stuck := MainExited(SigchldResult(status));
        MainEndIs(Mine(), old(Look()), SigchldResult(status), Look());
        return;
      }
      if controlPid == Some(status.pid) {
        stuck := ControlExited(SigchldResult(status));
        ControlEndIs(Mine(), old(Look()), SigchldResult(status), Look());
      }
    }

    method MainExited(res: ServiceResult) returns (stuck: bool)
      requires Valid() && mainPid.Some? && (MainReplaced() || LostHasAnswer(res, GroupAsked()))
      modifies this
      ensures Valid()
      ensures old(Ending(true)) ==> Ending(true)
      ensures old(Attended()) ==>
                if stuck || old(!MainReplaced() && LostDeserts(res, GroupAsked())) then Abandoned() else Attended()
      ensures old(!MainReplaced() && LostDeserts(res, GroupAsked())) ==> LeftAlone(old(attempts))
      ensures old(ControlIsMissing()) ==> ControlIsMissing() && state == old(state)
      ensures stuck <==> res == Success && old(!MainReplaced() && LostSticks(GroupAsked()))
      ensures stuck <==> StuckSince(attempts, |old(attempts)|) && state == ServiceState.Start
      ensures old(Tidy()) ==> Tidy() || stuck
      ensures LeadsBy(Mine().MainExits, old(Look()), res, Look())
    {
      stuck := false;
      var loaded := LoadPidFile();
      ghost var read := Look();
      if loaded == Some(true) {
        MainExitsLeads(Mine(), old(Look()), res, read, Look());
        return;
      }
      stuck := MainLost(res);
      MainExitsLeads(Mine(), old(Look()), res, read, Look());
    }

    method ForgetMain(res: ServiceResult)
      modifies this`mainPid, this`result
      ensures mainPid.None? && result == if old(result) == Success then res else old(result)
    {
      mainPid := None;
      result := if result == Success then res else result;
    }

    method MainLost(res: ServiceResult) returns (stuck: bool)
      requires Valid() && LostHasAnswer(res, asked)
      modifies this
      ensures Valid()
      ensures old(Ending(true)) ==> Ending(true)
      ensures old(ControlAttended()) ==> if stuck || old(LostDeserts(res, asked)) then Abandoned() else Attended()
      ensures old(LostDeserts(res, asked)) ==> LeftAlone(old(attempts))
      ensures old(ControlIsMissing()) ==> ControlIsMissing() && state == old(state)
      ensures stuck <==> res == Success && old(LostSticks(asked))
      ensures stuck <==> StuckSince(attempts, |old(attempts)|) && state == ServiceState.Start
      ensures old(Tidy()) ==> Tidy() || stuck
      ensures LeadsBy(Mine().MainEnds, old(Look()), res, Look())
    {
      ForgetMain(res);
      assert Look() == Note(old(Look()).(mainPid := None), res);
      stuck := false;
      if mainCommand != [] && res == Success && config.kind == Oneshot {
        stuck := RunNextMain();
        MainEndsLeads(Mine(), old(Look()), res, Look());
        return;
      }
      stuck := LastMainLost(res);
      MainEndsLeads(Mine(), old(Look()), res, Look());
    }

    method LastMainLost(res: ServiceResult) returns (stuck: bool)
      requires Valid() && (state == Dead ==> outside.Answer(asked)) && mainPid.None?
      modifies this
      ensures Valid()
      ensures old(Ending(true)) ==> Ending(true)
      ensures old(ControlAttended()) ==>
                if stuck || (outside.Answer(old(asked)) && old(AwaitsMain())) then Abandoned() else Attended()
      ensures outside.Answer(old(asked)) && old(AwaitsMain()) ==> LeftAlone(old(attempts))
      ensures old(ControlIsMissing()) ==> ControlIsMissing() && state == old(state)
      ensures stuck <==> res == Success && !outside.Answer(old(asked)) && old(AwaitsMain() && StartPostSticks())
      ensures (stuck <==> StuckSince(attempts, |old(attempts)|)) && (stuck ==> state == ServiceState.Start)
      ensures old(Tidy()) ==> Tidy() || stuck
      ensures LeadsBy(Mine().LastMainEnds, old(Look()), res, Look())
    {
      mainCommand := [];
      var good := Ask();
      ghost var asked := Look();
      if good {
        LastMainEndsLeads(Mine(), old(Look()), res, asked, Look());
        return false;
      }
      stuck := AfterMain(res);
      LastMainEndsLeads(Mine(), old(Look()), res, asked, Look());
    }

    /** Whatever state the service is in: a oneshot service that is being stopped may be. */
    method RunNextMain() returns (stuck: bool)
      requires Valid() && mainCommand != [] && mainPid.None?
      modifies this`mainPid, this`mainCommand, this`attempts
      ensures Valid() && mainCommand == old(mainCommand)[1..] && mainPid == outside.Spawned(|old(attempts)|)
      ensures attempts == old(attempts) + [Attempt(NextMain, old(mainCommand)[0], mainPid)]
      ensures Look() == Mine().NextMain(old(Look()))
      ensures stuck <==> mainPid.None? && state == ServiceState.Start
    {
      var cmd := MainCommandPop();
      mainPid := Spawn(NextMain, cmd.value);
      return mainPid.None? && state == ServiceState.Start;
    }

    method AfterMain(res: ServiceResult) returns (stuck: bool)
      requires Valid() && state != Dead && mainPid.None? && mainCommand == []
      modifies this
      ensures Valid()
      ensures old(Ending(true)) ==> Ending(true)
      ensures old(ControlAttended()) ==> if stuck then Abandoned() else Attended()
      ensures old(ControlIsMissing()) ==> ControlIsMissing() && state == old(state)
      ensures stuck <==> res == Success && old(AwaitsMain() && StartPostSticks())
      ensures (stuck <==> StuckSince(attempts, |old(attempts)|)) && (stuck ==> state == ServiceState.Start)
      ensures old(Tidy()) ==> Tidy() || stuck
      ensures LeadsBy(Mine().MainIsGone, old(Look()), res, Look())
    {
      if state == ServiceState.Start {
        stuck := AfterStartMain(res);
        return;
      }
      AfterOtherMain(res);
      return false;
    }

    method AfterStartMain(res: ServiceResult) returns (stuck: bool)
      requires Valid() && state == ServiceState.Start && mainPid.None? && mainCommand == []
      modifies this
      ensures Valid()
      ensures old(ControlAttended()) ==> if stuck then Abandoned() else Attended()
      ensures stuck <==> res == Success && old(AwaitsMain() && StartPostSticks())
      ensures (stuck <==> StuckSince(attempts, |old(attempts)|)) && (stuck ==> state == ServiceState.Start)
      ensures Tidy()
      ensures LeadsBy(Mine().MainIsGone, old(Look()), res, Look())
    {
      if config.kind == Oneshot && res == Success {
        stuck := EnterStartPost();
        GoneStarting(Mine(), old(Look()), res, Look());
        return;
      }
      if config.kind == Oneshot || config.kind == Notify {
        EnterSignal(StopSigterm, if res != Success then res else FailureProtocol);
        GoneStarting(Mine(), old(Look()), res, Look());
        return false;
      }
      EnterRunning(res);
      GoneStarting(Mine(), old(Look()), res, Look());
      return false;
    }

    method AfterOtherMain(res: ServiceResult)
      requires Valid() && state != Dead && state != ServiceState.Start && mainPid.None? && mainCommand == []
      modifies this
      ensures Valid()
      ensures old(Ending(true)) ==> Ending(true)
      ensures old(ControlAttended()) ==> Attended()
      ensures old(ControlIsMissing()) ==> ControlIsMissing() && state == old(state)
      ensures !StuckSince(attempts, |old(attempts)|)
      ensures old(Tidy()) ==> Tidy()
      ensures LeadsBy(Mine().MainIsGone, old(Look()), res, Look())
    {
      if state == Running {
        EnterRunning(res);
        GoneRunning(Mine(), old(Look()), res, Look());
        return;
      }
      AfterLaterMain(res);
      if !LeavesBySignal(old(state)) && !old(Changing()) {
        SameView(old(Look()), Look());
      }
    }

    /** The service is on its way out then, or nothing has changed. */
    method AfterLaterMain(res: ServiceResult)
      requires Valid() && state != Running && state != ServiceState.Start && mainPid.None? && mainCommand == []
      modifies this
      ensures Valid()
      ensures if LeavesBySignal(old(state)) || old(Changing()) then Ending(old(forbidRestart)) && Attended()
              else Look() == old(Look())
      ensures StuckOn(attempts) ==> attempts == old(attempts)
      ensures LeadsBy(Mine().MainIsGone, old(Look()), res, Look())
    {
      if (state == ServiceState.StartPost || state == ServiceState.Reload) && controlPid.Some? {
        EnterStop(res);
        GoneChanging(Mine(), old(Look()), res, Look());
        return;
      }
      AfterStopMain(res);
    }

    /** A control process is at work on a service that is up. */
    ghost predicate Changing()
      reads this
    {
      (state == ServiceState.StartPost || state == ServiceState.Reload) && controlPid.Some?
    }

    method AfterStopMain(res: ServiceResult)
      requires Valid() && state != Running && state != ServiceState.Start
      requires state == ServiceState.StartPost || state == ServiceState.Reload ==> controlPid.None?
      modifies this
      ensures Valid()
      ensures if LeavesBySignal(old(state))
              then Ending(old(forbidRestart)) && Attended() else Look() == old(Look())
      ensures StuckOn(attempts) ==> attempts == old(attempts)
      ensures LeadsBy(Mine().MainIsGone, old(Look()), res, Look())
    {
      AfterSignal(res);
      GoneStopping(Mine(), old(Look()), res, Look());
    }

    /** What follows a signal is the same for a main and for a control process. */
    method AfterSignal(res: ServiceResult)
      requires Valid()
      modifies this
      ensures Valid()
      ensures if StopSignal(old(state)) then LeadsBy(Mine().StopPosts, old(Look()), res, Look())
              else if LeavesBySignal(old(state)) then LeadsBy(Mine().Dies, old(Look()), res, Look())
              else Look() == old(Look())
      ensures LeavesBySignal(old(state)) ==> Ending(old(forbidRestart)) && Attended()
      ensures StuckOn(attempts) ==> attempts == old(attempts)
    {
      if StopSignal(state) {
        EnterStopPost(res);
        return;
      }
      if state == FinalSigterm || state == FinalSigkill {
        EnterDead(res, true);
      }
    }

    method ControlExited(res: ServiceResult) returns (stuck: bool)
      requires Valid() && controlPid.Some? && (state == Running ==> controlCommand != [] && res == Success)
      modifies this
      ensures Valid()
      ensures old(Ending(true)) ==> Ending(true)
      ensures old(Attended()) ==> if stuck then Abandoned() else Attended()
      ensures stuck <==>
                && res == Success
                && if old(controlCommand) != [] then outside.Spawned(|old(attempts)|).None? else old(ControlSticks())
      ensures stuck <==> StuckSince(attempts, |old(attempts)|)
      ensures old(Tidy()) ==> Tidy() || stuck
      ensures LeadsBy(Mine().ControlEnds, old(Look()), res, Look())
    {
      if controlCommand != [] && res == Success {
        stuck := ControlGoesOn();
        ControlEndsLeads(Mine(), old(Look()), res, Look());
        return;
      }
      stuck := LastControlExited(res);
      ControlEndsLeads(Mine(), old(Look()), res, Look());
    }

    method ControlGoesOn() returns (stuck: bool)
      requires Valid() && controlPid.Some? && controlCommand != []
      modifies this`controlPid, this`controlCommand, this`attempts
      ensures Valid() && Look() == Mine().NextControl(old(Look()).(controlPid := None))
      ensures old(Ending(true)) ==> Ending(true)
      ensures old(Attended()) ==> if stuck then Abandoned() else Attended()
      ensures (stuck <==> outside.Spawned(|old(attempts)|).None?) && (stuck <==> StuckSince(attempts, |old(attempts)|))
      ensures old(Tidy()) ==> Tidy()
    {
      controlPid := None;
      stuck := RunNextControl();
    }

    method LastControlExited(res: ServiceResult) returns (stuck: bool)
      requires Valid() && state != Running
      modifies this
      ensures Valid()
      ensures old(Ending(true)) ==> Ending(true)
      ensures if stuck then Abandoned() else old(AwaitsMain()) || Attended()
      ensures (stuck <==> res == Success && old(ControlSticks())) && (stuck <==> StuckSince(attempts, |old(attempts)|))
      ensures old(Tidy()) ==> Tidy() || stuck
      ensures LeadsBy(Mine().ControlIsGone, old(Look()).(controlPid := None, left := Left(old(attempts), [])), res, Look())
    {
      controlPid := None;
      controlCommand := [];
      assert Look() == old(Look()).(controlPid := None, left := Left(old(attempts), []));
      stuck := AfterControl(res);
    }

    method RunNextControl() returns (stuck: bool)
      requires controlCommand != [] && controlPid.None?
      modifies this`controlPid, this`controlCommand, this`attempts
      ensures controlCommand == old(controlCommand)[1..] && controlPid == outside.Spawned(|old(attempts)|)
      ensures attempts == old(attempts) + [Attempt(NextControl, old(controlCommand)[0], controlPid)]
      ensures Look() == Mine().NextControl(old(Look()))
      ensures stuck <==> controlPid.None?
    {
      var cmd := ControlCommandPop();
      controlPid := Spawn(NextControl, cmd.value);
      return controlPid.None?;
    }

    method AfterControl(res: ServiceResult) returns (stuck: bool)
      requires Valid() && state != Running && controlPid.None? && controlCommand == []
      modifies this
      ensures Valid()
      ensures old(Ending(true)) ==> Ending(true)
      ensures if stuck then Abandoned() else old(AwaitsMain()) || Attended()
      ensures (stuck <==> res == Success && old(ControlSticks())) && (stuck <==> StuckSince(attempts, |old(attempts)|))
      ensures old(Tidy()) ==> Tidy() || stuck
      ensures LeadsBy(Mine().ControlIsGone, old(Look()), res, Look())
    {
      if Starting(state) && state != StopWatchdog {
        stuck := AfterStartControl(res);
        return;
      }
      AfterStopControl(res);
      return false;
    }

    /** The states on the way out. */
    method AfterStopControl(res: ServiceResult)
      requires Valid() && (!Starting(state) || state == StopWatchdog) && controlPid.None? && controlCommand == []
      modifies this
      ensures Valid()
      ensures if LeavesBySignal(old(state)) || Stopping(old(state)) then Ending(old(forbidRestart)) && Attended()
              else Look() == old(Look())
      ensures StuckOn(attempts) ==> attempts == old(attempts)
      ensures LeadsBy(Mine().ControlIsGone, old(Look()), res, Look())
    {
      if state == ServiceState.Stop {
        EnterSignal(StopSigterm, res);
        ControlGoneStopping(Mine(), old(Look()), res, Look());
        return;
      }
      if state == ServiceState.StopPost {
        EnterSignal(FinalSigterm, res);
        ControlGoneStopping(Mine(), old(Look()), res, Look());
        return;
      }
      AfterSignal(res);
      ControlGoneStopping(Mine(), old(Look()), res, Look());
    }

    /** The states that lead up to a running service. */
    method AfterStartControl(res: ServiceResult) returns (stuck: bool)
      requires Valid() && Starting(state) && state != StopWatchdog && controlPid.None? && controlCommand == []
      modifies this
      ensures Valid()
      ensures if stuck then Abandoned() else old(AwaitsMain()) || Attended()
      ensures (stuck <==> res == Success && old(ControlSticks())) && (stuck <==> StuckSince(attempts, |old(attempts)|))
      ensures old(Tidy()) ==> Tidy() || stuck
      ensures LeadsBy(Mine().ControlIsGone, old(Look()), res, Look())
    {
      stuck := false;
      match state {
        case Condition =>
          if res == Success {
            stuck := EnterPrestart();
            ControlGonePreparing(Mine(), old(Look()), res, Look());
            return;
          }
          EnterSignal(StopSigterm, res);
          ControlGonePreparing(Mine(), old(Look()), res, Look());
          return;
        case StartPre =>
          if res == Success {
            stuck := EnterStart();
            ControlGonePreparing(Mine(), old(Look()), res, Look());
            return;
          }
          EnterSignal(StopSigterm, res);
          ControlGonePreparing(Mine(), old(Look()), res, Look());
          return;
        case Start =>
          stuck := ForkingStarted(res);
          return;
        case StartPost =>
          StartPostDone(res);
          return;
        case Reload =>
          EnterRunning(res);
          ControlGonePreparing(Mine(), old(Look()), res, Look());
          return;
      }
    }

    /** The process that forks a service has ended. With a pid file that could be read, the
        start-post commands are entered twice. */
    method ForkingStarted(res: ServiceResult) returns (stuck: bool)
      requires Valid() && state == ServiceState.Start && controlPid.None? && controlCommand == []
      modifies this
      ensures Valid()
      ensures if stuck then Abandoned() else old(AwaitsMain()) || Attended()
      ensures stuck <==> res == Success && config.kind == Forking && old(ForkingSticks())
      ensures stuck <==> StuckSince(attempts, |old(attempts)|)
      ensures old(Tidy()) ==> Tidy() || stuck
      ensures LeadsBy(Mine().ControlIsGone, old(Look()), res, Look())
    {
      stuck := false;
      if config.kind != Forking {
        ControlGoneForking(Mine(), old(Look()), res, Look());
        return;
      }
      if res != Success {
        EnterSignal(StopSigterm, res);
        ControlGoneForking(Mine(), old(Look()), res, Look());
        return;
      }
      stuck := Forked();
      ControlGoneForking(Mine(), old(Look()), res, Look());
    }

    method Forked() returns (stuck: bool)
      requires Valid() && state == ServiceState.Start && config.kind == Forking && controlPid.None? && controlCommand == []
      modifies this
      ensures Valid() && (if stuck then Abandoned() else Attended())
      ensures (stuck <==> old(ForkingSticks())) && (stuck <==> StuckSince(attempts, |old(attempts)|))
      ensures old(Tidy()) ==> Tidy() || stuck
      ensures Leads(Mine().Forks, old(Look()), Look())
    {
      if config.pidFile {
        var loaded := LoadPidFile();
        ghost var read := Look();
        if loaded.None? && config.Cmds(ServiceCommand.StartPost) == [] {
          AwaitPidFile();
          ForksLeads(Mine(), old(Look()), read, Look());
          return false;
        }
        stuck := StartPostTwice();
        ForksLeads(Mine(), old(Look()), read, Look());
        return;
      }
      GuessMainPid();
      ghost var guessed := Look();
      stuck := EnterStartPost();
      ForksLeads(Mine(), old(Look()), guessed, Look());
    }

    /** Without the pid file the service goes on waiting for it, as long as that makes sense. */
    method AwaitPidFile()
      requires Valid() && state == ServiceState.Start && config.kind == Forking && config.pidFile && controlPid.None?
      modifies this
      ensures Valid() && Attended() && !StuckSince(attempts, |old(attempts)|) && (old(Tidy()) ==> Tidy())
      ensures Leads(Mine().AwaitsFile, old(Look()), Look())
    {
      var lost := PidFileIsLost();
      ghost var asked := Look();
      if lost {
        EnterSignal(StopSigterm, FailureProtocol);
      }
      AwaitsFileLeads(Mine(), old(Look()), asked, Look());
    }

    method StartPostTwice() returns (stuck: bool)
      requires Valid() && state == ServiceState.Start && config.kind == Forking && controlCommand == []
      modifies this
      ensures Valid() && (if stuck then Abandoned() else Tidy() && Attended())
      ensures stuck <==>
                if config.Cmds(ServiceCommand.StartPost) != [] then outside.Spawned(|old(attempts)| + 1).None?
                else
                  var left := LeftByRunning(config, outside, old(asked), old(result), Left(old(attempts), []));
                  Refilled(config, ServiceCommand.StartPost, left.queue) != [] && outside.Spawned(|left.attempts|).None?
      ensures stuck <==> StuckSince(attempts, |old(attempts)|)
      ensures Leads(Mine().StartPostsTwice, old(Look()), Look())
    {
      var _ := StartPostPhase();
      ghost var once := Look();
      stuck := StartPostPhase();
      StartPostsTwiceLeads(Mine(), old(Look()), once, Look());
    }

    /** The pid file cannot be watched, or no process is left to write it. */
    method PidFileIsLost() returns (lost: bool)
      modifies this`asked
      ensures lost <==> !outside.Answer(old(asked)) || !outside.Answer(old(asked) + 1)
      ensures asked == old(asked) + if outside.Answer(old(asked)) then 2 else 1
    {
      var watched := Ask();
      if !watched {
        return true;
      }
      var good := Ask();
      return !good;
    }

    method GuessMainPid()
      modifies this`mainPid, this`asked
      ensures Look() == Mine().Guesses(old(Look()))
      ensures mainPid == if old(mainPid).Some? then old(mainPid) else outside.Guess(old(asked))
    {
      if mainPid.None? {
        mainPid := outside.Guess(asked);
        asked := asked + 1;
      }
    }

    /** A failure has the stop-post phase entered, but it does not end there: what follows is
        the same as after success. */
    method StartPostDone(res: ServiceResult)
      requires Valid() && state == ServiceState.StartPost && controlPid.None?
      modifies this
      ensures Valid() && (old(Tidy()) ==> Tidy()) && Attended() && !StuckSince(attempts, |old(attempts)|)
      ensures LeadsBy(Mine().ControlIsGone, old(Look()), res, Look())
    {
      if res != Success {
        EnterSignal(StopSigterm, res);
      }
      ghost var signalled := Look();
      PostStart();
      ControlGonePosting(Mine(), old(Look()), res, signalled, Look());
    }

    method PostStart()
      requires Valid() && (state == ServiceState.StartPost || (Tidy() && Attended() && state != ServiceState.Start))
      modifies this
      ensures Valid() && (old(Tidy()) ==> Tidy()) && Attended()
      ensures StuckOn(attempts) ==> attempts == old(attempts)
      ensures Leads(Mine().PostStarted, old(Look()), Look())
    {
      if config.pidFile {
        var loaded := LoadPidFile();
        ghost var read := Look();
        if loaded.None? {
          PostAwaitPidFile();
          PostStartedLeads(Mine(), old(Look()), read, Look());
          return;
        }
        EnterRunning(Success);
        PostStartedLeads(Mine(), old(Look()), read, Look());
        return;
      }
      GuessMainPid();
      ghost var guessed := Look();
      EnterRunning(Success);
      PostStartedLeads(Mine(), old(Look()), guessed, Look());
    }

    method PostAwaitPidFile()
      requires Valid() && config.pidFile
      modifies this
      ensures Valid() && (old(Tidy()) ==> Tidy()) && (old(Attended()) ==> Attended())
      ensures StuckOn(attempts) ==> attempts == old(attempts)
      ensures Leads(Mine().PostAwaitsFile, old(Look()), Look())
    {
      var watched := Ask();
      if !watched {
        ghost var asked := Look();
        EnterSignal(StopSigterm, FailureProtocol);
        PostAwaitsFileLeads(Mine(), old(Look()), asked, Look());
        return;
      }
      var good := Ask();
      ghost var asked := Look();
      if !good {
        EnterStop(FailureProtocol);
      }
      PostAwaitsFileLeads(Mine(), old(Look()), asked, Look());
    }

    // -------------------------------------------------------------- the restart timer

    method TimerEvent()
      requires Valid() && timerArmed && (state == Running || state == AutoRestart)
      modifies this
      ensures Valid() && (old(Tidy()) ==> Tidy()) && (old(Tidy() || Attended()) ==> Attended())
      ensures state != AutoRestart || old(state) == AutoRestart ==> !timerArmed
      ensures old(state) == Running ==> LeadsBy(Mine().Stops, old(Look()), FailureTimeout, Look())
      ensures old(state) == AutoRestart ==> Restarting(old(Look()), old(resetRestart))
    {
      timerArmed := false;
      if state == Running {
        EnterStop(FailureTimeout);
        return;
      }
      EnterRestart();
    }

    /** A stop job leaves the service alone; else it waits for its restart job, or is dead for good
        if there can be none. */
    ghost predicate Restarting(was: View, reset: bool)
      reads this
    {
      if outside.Answer(was.asked) then Look() == Mine().Asked(was, 1) && resetRestart == reset
      else if outside.Answer(was.asked + 1) then Look() == Mine().Asked(was, 2) && !resetRestart
      else Look() == Mine().Ends(Note(Mine().Asked(was, 2), FailureResources), false, 1) && resetRestart
    }

    method EnterRestart()
      requires Valid() && !timerArmed && state == AutoRestart
      modifies this
      ensures Valid() && !timerArmed && (old(Tidy()) ==> Tidy()) && (old(Tidy() || Attended()) ==> Attended())
      ensures Restarting(old(Look()), old(resetRestart))
    {
      var hasStopJob := Ask();
      if hasStopJob {
        return;
      }
      var restarted := Ask();
      if !restarted {
        EnterDead(FailureResources, false);
        return;
      }
      resetRestart := false;
    }

    // -------------------------------------------------------------- rows

    /** What is kept of a service. The type of its control commands is never recorded. */
    method DbInsert() returns (row: ServiceRow)
      requires Valid()
      ensures row == ServiceRow(state, result, mainPid, controlPid, |mainCommand|, None, |controlCommand|,
                                forbidRestart, resetRestart)
      ensures LastOf(config.Cmds(ServiceCommand.Start), row.mainLen) == mainCommand
      ensures MayBeRestored(row) <==> controlCommand == []
    {
      row := ServiceRow(
        state, result, mainPid, controlPid, |mainCommand|, None, |controlCommand|, forbidRestart, resetRestart);
    }

    /** Restoring a service: the main commands come back from their number alone, the control
        commands only if there were none. */
    method DbMap(row: ServiceRow)
      requires Valid() && MayBeRestored(row)
      modifies this`state, this`result, this`mainPid, this`controlPid, this`mainCommand, this`controlCommand
      modifies this`forbidRestart, this`resetRestart
      ensures Valid() && state == row.state && result == row.result
      ensures mainPid == row.mainPid && controlPid == row.controlPid
      ensures mainCommand == LastOf(config.Cmds(ServiceCommand.Start), row.mainLen)
      ensures row.controlType.None? ==> controlCommand == old(controlCommand)
      ensures row.controlType.Some? ==> controlCommand == LastOf(config.Cmds(row.controlType.value), row.controlLen)
      ensures forbidRestart == row.forbidRestart && resetRestart == row.resetRestart
    {
      state, result := row.state, row.result;
      mainPid, controlPid := row.mainPid, row.controlPid;
      MainCommandUpdate(row.mainLen);
      ControlCommandUpdate(row.controlType, row.controlLen);
      forbidRestart, resetRestart := row.forbidRestart, row.resetRestart;
    }

    method ControlCommandUpdate(command: Option<ServiceCommand>, len: nat)
      requires command.None? ==> len == 0
      modifies this`controlCommand
      ensures command.None? ==> controlCommand == old(controlCommand)
      ensures command.Some? ==> controlCommand == LastOf(config.Cmds(command.value), len)
    {
      if command.None? {
        return;
      }
      controlCommand := [];
      ControlCommandFill(command.value);
      var all := controlCommand;
      var i := len;
      while i < |all|
        invariant len <= i && (len <= |all| ==> i <= |all|) && (len > |all| ==> i == len)
        invariant i - len <= |all| && controlCommand == all[i - len..]
      {
        var _ := ControlCommandPop();
        i := i + 1;
      }
    }
  }

  datatype ServiceRow = ServiceRow(
    state: ServiceState, result: ServiceResult, mainPid: Option<nat>, controlPid: Option<nat>, mainLen: nat,
    controlType: Option<ServiceCommand>, controlLen: nat, forbidRestart: bool, resetRestart: bool)

  /** `control_command_update` asserts that control commands of no known type do not exist. */
  predicate MayBeRestored(row: ServiceRow) {
    row.controlType.None? ==> row.controlLen == 0
  }

  // ---------------------------------------------------------------- runs that go wrong

  /** The answers of a system in which only the commands before the n-th can be started. */
  function StartsOnly(n: nat): Outside {
    Outside(
      (i: nat) => if i < n then Some(i + 1) else None, (i: nat) => false, (i: nat) => SameProcess, (i: nat) => None)
  }

  /** A Simple service, dead and tidy, whose start-post command cannot be started: it is still
      dead, its main process runs, and the end of that process meets an open case. */
  method DeadButRunning() returns (mng: ServiceMng, status: WaitStatus)
    ensures mng.config.kind == Simple && mng.Valid() && StuckSince(mng.attempts, 0)
    ensures mng.state == Dead && mng.mainPid.Some? && !mng.Tidy() && !mng.HasAnswer(status)
  {
    var config := ServiceConfig(
      Simple, map[ServiceCommand.Start := ["serve"], ServiceCommand.StartPost := ["announce"]],
      No, false, false, false);
    mng := new ServiceMng(config, StartsOnly(1));
    assert mng.config.Cmds(ServiceCommand.StartPost) == ["announce"];
    var stuck := mng.StartAction();
    assert stuck;
    status := ExitedWith(mng.mainPid.value, 0);
  }

  /** A service that is stopped while its first start-pre command runs goes on to run the second,
      which was left over, in place of the stop-post command that it does not have. */
  method StopRunsStartPre() returns (mng: ServiceMng)
    ensures mng.config.Cmds(ServiceCommand.StopPost) == []
    ensures mng.config.Cmds(ServiceCommand.StartPre) == ["first", "second"]
    ensures mng.attempts == [
              Attempt(FirstOf(ServiceCommand.StartPre), "first", Some(1)),
              Attempt(FirstOf(ServiceCommand.StopPost), "second", Some(2))]
  {
    var config := ServiceConfig(
      Simple, map[ServiceCommand.StartPre := ["first", "second"], ServiceCommand.Start := ["serve"]],
      No, false, false, false);
    mng := new ServiceMng(config, StartsOnly(2));
    var _ := mng.StartAction();
    mng.StopAction();
  }

  /** A oneshot service whose second command cannot be started, once the first has ended in
      success: it waits for the end of a main process, and there is none. */
  method SecondCommandFails() returns (mng: ServiceMng)
    ensures mng.config.Cmds(ServiceCommand.StartPost) == [] && !mng.config.pidFile
    ensures mng.state == ServiceState.Start && mng.mainPid.None? && mng.Abandoned() && StuckSince(mng.attempts, 1)
  {
    var config := ServiceConfig(
      Oneshot, map[ServiceCommand.Start := ["first", "second"]], No, false, false, false);
    mng := new ServiceMng(config, StartsOnly(1));
    var _ := mng.StartAction();
    var stuck := mng.SigchldEvent(ExitedWith(1, 0));
    assert stuck;
  }

  /** A oneshot service that leaves a process behind in its control group, and is left alone. */
  method GroupIsLeft() returns (mng: ServiceMng)
    ensures mng.config.Cmds(ServiceCommand.StartPost) == [] && |mng.config.Cmds(ServiceCommand.Start)| == 1
    ensures mng.Abandoned() && mng.mainPid.None? && mng.state == ServiceState.Start
  {
    var config := ServiceConfig(Oneshot, map[ServiceCommand.Start := ["only"]], No, false, false, false);
    mng := new ServiceMng(config, StartsOnly(1).(answers := (i: nat) => true));
    var _ := mng.StartAction();
    var stuck := mng.SigchldEvent(ExitedWith(1, 0));
    assert !stuck;
  }

  const FORKS := ServiceConfig(
    ServiceType.Forking, map[ServiceCommand.Start := ["fork"], ServiceCommand.Stop := ["halt", "force"]],
    No, false, false, true)

  /** That service while its first process forks the others. */
  method Forking() returns (mng: ServiceMng)
    ensures fresh(mng) && mng.config == FORKS && mng.outside == StartsOnly(2)
    ensures mng.Valid() && mng.Attended() && mng.state == ServiceState.Start && mng.result == Success
    ensures mng.mainPid.None? && mng.controlPid == Some(1) && mng.controlCommand == [] && |mng.attempts| == 1
  {
    mng := new ServiceMng(FORKS, StartsOnly(2));
    var _ := mng.StartAction();
  }

  /** A forking service with a pid file and without start-post commands, which has ended by the
      time the file is read: of its two stop commands the second is tried as a start-post
      command, and cannot be started. */
  method StuckWithoutStartPost() returns (mng: ServiceMng)
    ensures mng.config.Cmds(ServiceCommand.StartPost) == [] && mng.Abandoned() && StuckSince(mng.attempts, 1)
  {
    mng := Forking();
    var stuck := mng.SigchldEvent(ExitedWith(1, 0));
    assert stuck;
  }

  const TWO_STOPS := ServiceConfig(
    Simple, map[ServiceCommand.Start := ["serve"], ServiceCommand.Stop := ["halt", "force"]], No, false, false, false)

  /** The answers of a system in which only the first command cannot be started. */
  function StartsButFirst(): Outside {
    StartsOnly(0).(pids := (i: nat) => if i == 0 then None else Some(i + 1))
  }

  lemma SecondIsHandedOn()
    ensures TWO_STOPS.Cmds(ServiceCommand.Stop) == ["halt", "force"]
    ensures LeftByStop(TWO_STOPS, StartsButFirst(), Left([], [])).attempts == [
              Attempt(FirstOf(ServiceCommand.Stop), "halt", None),
              Attempt(FirstOf(ServiceCommand.StopPost), "force", Some(2))]
  {
    var tried := Tried(TWO_STOPS, StartsButFirst(), ServiceCommand.Stop, Left([], []));
    assert tried == Left([Attempt(FirstOf(ServiceCommand.Stop), "halt", None)], ["force"]);
  }

  /** A service, restored as running, is stopped: the first of its two stop commands cannot be
      started, and the second is run as the stop-post command that it does not have. Nothing was
      left over before. */
  method StopPostRunsStop() returns (mng: ServiceMng)
    ensures mng.config.Cmds(ServiceCommand.StopPost) == []
    ensures mng.config.Cmds(ServiceCommand.Stop) == ["halt", "force"]
    ensures mng.attempts == [
              Attempt(FirstOf(ServiceCommand.Stop), "halt", None),
              Attempt(FirstOf(ServiceCommand.StopPost), "force", Some(2))]
  {
    mng := new ServiceMng(TWO_STOPS, StartsButFirst());
    mng.DbMap(ServiceRow(Running, Success, Some(7), None, 0, None, 0, false, false));
    SecondIsHandedOn();
    mng.StopAction();
  }

  const PREPARES := ServiceConfig(
    Simple, map[ServiceCommand.StartPre := ["prepare"], ServiceCommand.Start := ["serve"]], OnFailure, false, false, false)

  /** The answers of a system in which signals can be sent three times, and nothing is left then. */
  function KillsAll(): Outside {
    StartsOnly(9).(answers := (i: nat) => i < 3)
  }

  /** The view of that service while its start-pre command runs. */
  function Preparing(): View {
    View(ServiceState.StartPre, Success, None, Some(1), [],
         Left([Attempt(FirstOf(ServiceCommand.StartPre), "prepare", Some(1))], []), 0, false)
  }

  lemma PreparationBegins(s': View)
    requires Leads(Ways(PREPARES, KillsAll()).Conditions, View(Dead, Success, None, None, [], Left([], []), 0, false), s')
    ensures s' == Preparing()
  {
    LeadsTo(Ways(PREPARES, KillsAll()).Conditions, View(Dead, Success, None, None, [], Left([], []), 0, false), s');
  }

  lemma FailedPreparation(s': View)
    requires LeadsBy(Ways(PREPARES, KillsAll()).ControlEnds, Preparing(), FailureExitCode, s')
    ensures s'.state == Dead && s'.result == Success && s'.left == Preparing().left
  {
    var w, alone := Ways(PREPARES, KillsAll()), Preparing().(controlPid := None);
    LeadsByTo(w.ControlEnds, Preparing(), FailureExitCode, s');
    assert s' == w.StopTerm(alone);
    assert w.StopTerm(alone) == w.StopPosts(w.Asked(alone, 1), Success);
    assert w.StopPosts(w.Asked(alone, 1), Success) == w.FinalTerm(w.Asked(alone, 1));
    assert w.FinalTerm(w.Asked(alone, 1)) == w.FinalKill(w.Asked(alone, 2));
  }

  /** A service that is to be restarted on failure, and whose start-pre command fails: it is not
      restarted, and it has not failed either, but is dead as after success. */
  method FailedStartPre() returns (mng: ServiceMng)
    ensures mng.config.restart == OnFailure && mng.state == Dead && mng.result == Success
    ensures mng.attempts == [Attempt(FirstOf(ServiceCommand.StartPre), "prepare", Some(1))]
  {
    mng := new ServiceMng(PREPARES, KillsAll());
    var _ := mng.StartAction();
    PreparationBegins(mng.Look());
    var _ := mng.SigchldEvent(ExitedWith(1, 1));
    FailedPreparation(mng.Look());
  }
}
