# The job engine of sysMaster, its crash recovery, and its service state machine

sysMaster turns requests such as "start this unit" into *jobs*. A request is expanded over the
dependencies between units into a staging table, checked against the jobs that are already
there, and committed. Ready jobs are dispatched unit by unit in the order that `Before` and
`After` ask for; when a unit changes its state its job ends, and a failure takes along the jobs
that depend on it. Every job mirrors itself into two persistent tables, from which the whole job
table is rebuilt after a crash. A service, the most common kind of unit, answers a job with a
state machine of its own.

This project models that engine in Dafny and proves what its layers promise each other.

| modules | source | what is in them |
|---|---|---|
| `JobTypes`, `JobStore`, `JobRentry` | core/bin/job/entry.rs, core/bin/job/rentry.rs | jobs, their life, and the rows they write |
| `UnitSpec`, `UnitInvariant`, `JobUnits`, `Mirror` | core/bin/job/junit.rs | the jobs of one unit: as values, the invariant of every run, updated in place, and as rows |
| `TableSpec`, `Ordering`, `UnitTable`, `TableIds`, `CommitIds`, `JobTables`, `JobAllocs` | core/bin/job/table.rs, core/bin/job/alloc.rs | all units: the ready index, the order of dispatch, the id index, commits |
| `Graphs`, `Transaction`, `Fallback` | core/bin/job/transaction.rs | expansion, verification, failure fallback |
| `Managers`, `Progress` | core/bin/job/manager.rs | requests, the dispatch loop and why it ends, notices |
| `Waking`, `Runs`, `Rounds`, `Pitfalls` | core/bin/job/table.rs, core/bin/job/manager.rs | who sleeps, and whether rightly so; what the manager does as a sequence of events of the table; runs in which the engine falls short |
| `ReliStore`, `Recovery`, `Reruns` | core/lib/rel/base.rs, core/lib/rel/history.rs, core/lib/rel/api.rs, core/bin/job/manager.rs | the write-back tables, commits and crashes, recovery, and the triggers that are run again at its end |
| `ServiceTypes`, `ServiceWays`, `Service` | coms/service/src/mng.rs | the service state machine: where each phase leads, as functions, and the machine itself |

Where the source updates something in place, a class does so here, and each of its methods is
proved against a function on values (`UnitSpec`, `TableSpec`, `ServiceWays`); the laws are proved about those
functions. Everything outside the engine is left open: what an action on a unit reports may be
anything, and may depend on everything that happened before (`Managers.World`), and the answers
that a service gets from the system are a parameter (`ServiceTypes.Outside`), of which nothing is
assumed.

## Where the source does less than it seems to promise

Each of these is a statement about the code as it is, with the exact condition under which what
one expects holds.

* Removing a suspended Stop or Restart while it is about to interrupt a running job leaves the
  interrupt flag behind, and the next decision about readiness panics: `UnitInvariant.RemoveStep`,
  with the run `UnitInvariant.StaleInterrupt`. The one caller that could do so is
  `JobManager::remove` (core/bin/job/manager.rs:190-195 and 503-526), which nothing calls yet;
  fallback never does: `Fallback.FallingIsSafe`.
* A Nop requested together with a Stop is never queued (core/bin/job/junit.rs:654-657), and after
  the Stop it waits until something else touches the unit: `UnitInvariant.WaitingJobsAreReady`,
  `UnitInvariant.NopIsStranded`, `UnitInvariant.StrandedNopStays`.
* A unit that was held back is woken when a job of a neighbour is over, but not by everything that
  sets it free: not when a Restart goes on from stopping to starting (core/bin/job/table.rs:188-191),
  not when a commit makes its job, or the one it waits for, ignore the order
  (core/bin/job/junit.rs:311-314), not when the trigger it waits for is pushed out by a job that
  ignores the order, and not when it loses the job that had to wait and has another one that has not.
  `Waking.ForgottenExactly` has the exact condition for every event, and each has its run:
  `Pitfalls.LostWakeUp`, `Pitfalls.LostByCommit`, `Pitfalls.LostByInterrupt` and
  `Pitfalls.LostByRemoval`. `Waking.NobodyIsForgotten` with `Waking.AllIsDone` say what holds without
  such events: all work gets done. Every round of the manager is a sequence of such events
  (`Rounds.RunLeads`), and on a table without Restarts, Nops, jobs that ignore the order and jobs of a
  recovery a run has none that forgets: `Rounds.CalmRunForgetsNobody`, `Rounds.CalmRunDoesAll`.
* A notice about a unit whose trigger is a resumed Verify has no answer and panics
  (core/bin/job/entry.rs:501): `Pitfalls.SecondNotice`, `Pitfalls.VerifyHasNoAnswer`. The dispatch
  loop is therefore proved for worlds in which that does not happen (`Managers.Answerable`).
* A unit that asks to be tried again while a change of it is announced is woken at once, and if it
  never gives up the loop never ends (core/bin/job/manager.rs:435-476): `Pitfalls.NaggingGoesOn`. That
  it gives up some time is all that `Managers.JobManager.Run` asks for (`Managers.Tame`).
* At the end of a recovery the engine asserts, for each trigger that it kept, that something is
  triggered (core/bin/job/manager.rs:153-158). It is, exactly if the unit is ready when its turn
  comes: `Managers.JobManager.Run`. It stays ready if no change of it is announced before
  (`Rounds.RunLeavesRearmed`, `Reruns.MakeConsistent`); if one is, the assertion may fail:
  `Pitfalls.TurnIsLost`.
* Ids are never given back, so the allocator ends only while fewer than 2^32 have been used
  (core/bin/job/alloc.rs:113-124): `JobAllocs.JobAlloc.AllocId`.
* If the start-post command of a simple service cannot be started, the service keeps its old
  state, Dead for instance, while its main process runs
  (coms/service/src/mng.rs:361-367), and the end of that process meets a `todo!`:
  `Service.ServiceMng.StartAction` has the exact condition, `Service.DeadButRunning` a run.
* A service can be left waiting for a process that there is not, and then no exit of a child leads on
  any more, unless it is a forking service that knows its main process: when the next command of a queue, or the start-post command that comes next, cannot be
  started (coms/service/src/mng.rs:361-367, 665-692), or when a oneshot service leaves processes behind
  in its control group, which nobody looks at again (coms/service/src/mng.rs:1102-1103).
  `Service.ServiceMng.SigchldEvent` has the exact condition for both, and proves that there is no third
  way; `Service.SecondCommandFails` and `Service.GroupIsLeft` are runs, and
  `Service.ServiceMng.NothingSticks` is about configurations in which the first cannot happen.
* The result that a signal is sent with is only logged (coms/service/src/mng.rs:544-591), so a service
  whose condition or start-pre command fails ends up Dead as after success, and is not restarted on
  failure: `ServiceWays.ControlEndIs`, with the run `Service.FailedStartPre`.
* `always` is documented to restart whatever the reason (docs/man/service.md:16), but does not after
  a condition that was not met (coms/service/src/mng.rs:971): `Service.ServiceMng.ShallRestart`.
* A forking service with a pid file enters the start-post phase twice
  (coms/service/src/mng.rs:1225-1230), so even without start-post commands a left-over stop command
  may be run, or be stuck, in their place: `Service.ServiceMng.StartPostTwice`, with the run
  `Service.StuckWithoutStartPost`.
* A stop during the wait for an automatic restart leaves the timer armed, and every state it may
  find then is a `todo!` (coms/service/src/mng.rs:1893-1922): `Service.ServiceMng.StopAction`.
* The type of the control commands is never recorded (coms/service/src/mng.rs:142), so a service
  that had control commands left at a crash cannot be restored: `Service.ServiceMng.DbInsert`.
* A control queue that is not configured keeps what was in it (coms/service/src/mng.rs:730-734), so
  a stop may run left-over commands, and without stop-post commands it runs the second stop command
  in their place when the first cannot be started: `Service.ServiceMng.StopAction` and
  `ServiceWays.LeftOversAreRun` have the exact conditions, `Service.StopRunsStartPre` and
  `Service.StopPostRunsStop` are runs.

## Model

| member | source | states |
|---|---|---|
| `UnitInvariant.RunsAreSafe` | core/bin/job/junit.rs:228-443 | In every run of a unit, from the empty unit through any sequence of commits of new jobs, safe removals, pauses, resumptions, dispatches and endings of any outcome, no assertion on the way fires (a job that is added is basic, new and not the trigger; conflicts, queue bounds, readiness, stages) and the unit invariant holds at every point. |
| `UnitInvariant.StepKeepsInv` | core/bin/job/junit.rs:228-443 | One event that its caller may cause passes every assertion, that of a new job not being the trigger included, and keeps the invariant: the suspended kinds are free of conflict and merged, the queue holds them in canonical order, interrupting means exactly that a Stop or Restart is in front of a trigger, and readiness is what would be decided now. |
| `UnitInvariant.MergeSettles` | core/bin/job/junit.rs:614-658 | Merging the redundant kinds of any conflict-free set leaves at most one of Restart, Start and Reload, never empties a set that was not empty, and fits the bounds that the queue asserts. |
| `UnitInvariant.CanonTail` | core/bin/job/junit.rs:584-607 | Taking the front of the canonical queue leaves the canonical queue of the rest, or strands a Nop that waited beside a Stop; no second Stop or Restart comes up behind the first. |
| `UnitInvariant.CanonMembers` | core/bin/job/junit.rs:633-658 | The queue holds every suspended kind, and beside a Stop only the Stop. |
| `UnitInvariant.CommitStep` | core/bin/job/junit.rs:296-354 | Committing a conflict-free stage onto a unit at rest (flush or union, then reshuffle) ends at rest, and meets every assertion if none of the jobs is the trigger. |
| `UnitInvariant.RemoveStep` | core/bin/job/junit.rs:252-271 | Removing suspended jobs keeps the invariant if and only if it does not empty the queue in front of a trigger about to be interrupted; otherwise the stale flag makes the unit panic, unless it is paused. |
| `UnitInvariant.StaleInterrupt` | core/bin/job/manager.rs:503-526 | A run that gets there: a Start is run, a Stop is committed that is about to interrupt it, and taking that Stop back is neither safe nor free of a failing assertion. |
| `TableIds.ApartNotTrigger` | core/bin/job/table.rs:412-428 | Where the ids of a stage are all new, none of its jobs is the trigger of any unit, which is what the assertion in the insertion asks. |
| `UnitInvariant.RemovalMergesNothing` | core/bin/job/table.rs:851-877 | The reshuffle after a removal merges no job, so its result may be dropped: exactly the named kinds go. |
| `UnitInvariant.RunStep` | core/bin/job/junit.rs:561-607 | A ready unit can be run with any outcome without firing an assertion; afterwards it has a trigger, is not ready, and is at rest. |
| `UnitInvariant.WaitingJobsAreReady` | core/bin/job/junit.rs:726-773 | A unit at rest with jobs but no trigger is ready exactly when it is not left with a lone Nop that no queue holds. |
| `UnitInvariant.StrandedNopStays` | core/bin/job/junit.rs:654-657 | Committing another Nop does not queue a stranded one. |
| `UnitInvariant.NopIsStranded` | core/bin/job/junit.rs:654-657 | A concrete run, a Stop and a Nop requested together and the Stop run and ended, strands the Nop. |
| `JobUnits.JobUnit.MergeSuspended` | core/bin/job/junit.rs:296-324 | Flush on conflict, then union with the stage: the new suspended jobs, the flags, the rows written, and the added, flushed and updated jobs. |
| `JobUnits.JobUnit.RemoveSuspended` | core/bin/job/junit.rs:252-271 | One suspended job is taken out and finished, with its row. |
| `JobUnits.JobUnit.ReshuffleAll` | core/bin/job/junit.rs:326-354 | Merge, order, mark the interrupt, and finish what was merged away, within the bounds asserted for the queue. |
| `JobUnits.JobUnit.OrderSuspends` | core/bin/job/junit.rs:614-658 | The loops over the kinds leave the canonical queue of the unmerged kinds and return exactly the merged ones. |
| `JobUnits.JobUnit.DoNextTrigger` | core/bin/job/junit.rs:561-607 | The front of the queue, or the trigger again, is taken; an interrupted trigger is handed back with its flags cleared. |
| `JobUnits.JobUnit.DoTrigger` | core/bin/job/junit.rs:68-98 | Old trigger finished first, attributes of a replaced job of the same kind taken over, new trigger run; a request to try again pauses and re-arms it. |
| `JobUnits.JobUnit.FinishTriggered` | core/bin/job/junit.rs:418-443 | Ending the trigger removes it and its flags, or starts the second phase of a Restart. |
| `JobUnits.JobUnit.IsReplaceableWith` | core/bin/job/junit.rs:517-530 | Counting the kinds answers exactly: replaceable unless the kinds conflict and one of ours is irreversible. |
| `JobUnits.JobUnit.IsConflictWith` | core/bin/job/junit.rs:507-515 | Counting the kinds answers exactly whether a Stop meets any kind but a Nop. |
| `JobUnits.JobUnit.IsNextTriggerOrderWith` | core/bin/job/junit.rs:532-559 | The scan over the other unit answers exactly whether none of its jobs is ordered before our next one. |
| `JobRentry.JobRe.Run` | core/bin/job/entry.rs:341-375 | A waiting job moves its row from the suspends to the trigger table; a job run again writes nothing. |
| `JobRentry.JobRe.Finish` | core/bin/job/entry.rs:377-409 | A successful Stop phase of a Restart goes on and keeps its row; any other end removes the row of the table the job is in. |
| `Mirror.StepMirrors` | core/bin/job/entry.rs:320-409 | Every event of a unit at rest leaves both tables an exact mirror of that unit, kinds and attributes, and no row of another unit is touched. |
| `Mirror.TriggerRows` | core/bin/job/junit.rs:68-98 | All in all a dispatch moves one row and replaces the interrupted trigger's, because the old job is finished before the new one runs. |
| `Mirror.RunBeforeFinishLosesTrigger` | core/bin/job/junit.rs:76-98 | Run before finish would lose the row of the new trigger. |
| `ReliStore.ReDb.Insert` | core/lib/rel/base.rs:97-111 | The reader sees the inserted row, and the log stays consistent: cache is the database without the deletions, overridden by the insertions, and the two logs are disjoint. |
| `ReliStore.ReDb.Remove` | core/lib/rel/base.rs:114-127 | The same for a removal. |
| `ReliStore.ReDb.Cache2Db` | core/lib/rel/base.rs:167-179 | Writing insertions and then deletions makes the database equal to the cache and empties the log. |
| `ReliStore.ReDb.Db2Cache` | core/lib/rel/base.rs:182-198 | Reading back forgets the log and restores exactly the database rows. |
| `ReliStore.ReDb.DoClear` | core/lib/rel/base.rs:84-89 | Clearing empties the cache, both logs and the database together. |
| `ReliStore.ExportOrder` | core/lib/rel/base.rs:167-179 | Because the logs are disjoint, insertions first and deletions second has the effect of replaying the log. |
| `ReliStore.ExportOrderMatters` | core/lib/rel/base.rs:97-127 | With a key in both logs it would not: the row would be lost. |
| `ReliStore.ReliHistory.Commit` | core/lib/rel/history.rs:70-81 | All registered tables, of either type, become durable together, or after a crash between any two of them none does. |
| `ReliStore.ReliHistory.Import` | core/lib/rel/history.rs:83-90 | After a restart every table, of either type, holds exactly what was last committed. |
| `Ordering.HeldBack` | core/bin/job/entry.rs:640-653 | What holds a job back, exactly: a successor that is still to stop holds back every job, a predecessor with any job holds back all but those that stop. |
| `Ordering.SomeUnitMayRun` | core/bin/job/table.rs:787-809 | Deadlock freedom: if Before is acyclic and After its inverse, then whenever all units with jobs could go on, nothing holds one of them back. |
| `UnitTable.JobUnitTable.ReadysFill` | core/bin/job/table.rs:942-948 | The batch holds the ready units in ascending order. |
| `UnitTable.JobUnitTable.ReadyPop` | core/bin/job/table.rs:667-686 | Popping without a unit returns the greatest ready unit whatever was inserted, removed or popped before; popping a unit returns it if and only if it is ready. |
| `UnitTable.JobUnitTable.ReadySync` | core/bin/job/table.rs:897-929 | A unit is in the index, in one half of it only, exactly as its flags say. |
| `UnitTable.JobUnitTable.TryTriggerUnit` | core/bin/job/table.rs:325-373 | The popped unit is run if nothing holds it back and paused otherwise; index, rows and units agree afterwards, and neither assertion on readiness fires. |
| `UnitTable.JobUnitTable.IsRunnable` | core/bin/job/table.rs:787-809 | The two loops answer exactly whether no neighbour holds the next job back. |
| `UnitTable.JobUnitTable.FinishTriggerOf` | core/bin/job/table.rs:830-849 | Ending a trigger keeps the table at rest and drops the unit if it has no jobs left. |
| `UnitTable.JobUnitTable.RemoveSuspendsOf` | core/bin/job/table.rs:851-877 | Removing suspended jobs of a unit keeps the table at rest. |
| `UnitTable.JobUnitTable.ResumeUnit` | core/bin/job/table.rs:879-895 | Resuming touches only a paused unit. |
| `TableSpec.ResumedIsReady` | core/bin/job/table.rs:879-895 | Resuming makes a unit ready exactly when anything in it could go on. |
| `UnitTable.JobUnitTable.MergeFrom` | core/bin/job/table.rs:556-579 | Merging a stage unit by unit: every unit and every reported job, exactly. |
| `UnitTable.JobUnitTable.ReshuffleUnits` | core/bin/job/table.rs:581-600 | Every dirty unit is brought to rest, empty ones are dropped, and exactly the redundant jobs are reported. |
| `UnitTable.JobUnitTable.TryGcEmptyUnit` | core/bin/job/table.rs:950-958 | Only a unit without jobs is dropped, and it is in no index. |
| `TableIds.IdsShrink` | core/bin/job/table.rs:137-194 | When a unit lets go of some jobs, removing exactly their ids keeps the id index equal to the jobs of all units. |
| `TableIds.TryLetsGo` | core/bin/job/table.rs:164-177 | A dispatch lets go of exactly the replaced trigger. |
| `TableIds.StageOneMore` | core/bin/job/table.rs:430-447 | Recording a job with a new id keeps stage and id index in agreement. |
| `CommitIds.MergeIds` | core/bin/job/table.rs:412-428 | The ids after a merge are exactly those of the merged jobs. |
| `CommitIds.ReshuffleIds` | core/bin/job/table.rs:228-238 | The ids after a reshuffle are exactly those of the jobs that are left. |
| `JobTables.JobTable.RecordSuspend` | core/bin/job/table.rs:82-97 | A job is added exactly when none of its unit and kind is there, with a new id and the attributes of the mode. |
| `JobTables.JobTable.RemoveSuspends` | core/bin/job/table.rs:137-161 | Removal keeps both indexes in agreement, returns exactly the removed jobs, and wakes the neighbours if there were any. |
| `JobTables.JobTable.FinishTrigger` | core/bin/job/table.rs:179-194 | The same for the end of a trigger; a Restart that goes on to its second phase wakes nobody. |
| `JobTables.JobTable.TryTrigger` | core/bin/job/table.rs:164-177 | A dispatch keeps both indexes in agreement; the replaced trigger leaves the id index. |
| `JobTables.JobTable.Commit` | core/bin/job/table.rs:99-135 | A commit fails exactly when an id is in use, and then changes nothing; otherwise every unit is merged and reshuffled, the reported jobs are exact, and the new ids are the old ones with the added and without the deleted jobs. |
| `JobTables.JobTable.IsTrigger` | core/bin/job/table.rs:281-289 | A job id is told to be a trigger exactly when some unit has that trigger. |
| `TableSpec.CommitsAll` | core/bin/job/table.rs:99-135 | Merging and then reshuffling all units amounts to committing each of them, and none of them ends up empty. |
| `JobAllocs.JobAlloc.AllocId` | core/bin/job/alloc.rs:113-124 | The id is the next free one going round, was never handed out before, and is found in at most one step more than there are used ids, if fewer than 2^32 are. |
| `Graphs.ClosedHolds` | core/bin/job/transaction.rs:24-55 | A set closed under a relation holds everything reached from its members. |
| `Transaction.JobTransExpand` | core/bin/job/transaction.rs:24-55 | On any dependency graph, cycles included, expansion ends, cannot fail, and records exactly what is reached from the job that the request amounts to: a basic request is itself, TryReload and TryRestart of an active unit are Reload and Restart and of any other a Nop, ReloadOrStart is Reload or Start. A Start or Restart leads to Start, Verify and Stop along the five pull-in dependencies, a Stop to Stop along PropagateStop, a Reload and a Restart to Reload and Restart where the other unit is active and to a Nop where it is not. Each job has the attributes of the mode and an id of its own. |
| `Transaction.Expand` | core/bin/job/transaction.rs:24-55 | What one call adds is reached from its request, is fully expanded, and costs one id each. |
| `Transaction.ReachedIsLeast` | core/bin/job/transaction.rs:224-242 | What is reached is the least set that holds the request and is closed under the dependencies; with an Ignore mode it is the request alone. |
| `Transaction.ReachedIsClosed` | core/bin/job/transaction.rs:118-222 | What is reached is closed under the dependencies. |
| `Transaction.StagedForAReason` | core/bin/job/transaction.rs:118-222 | Nothing that a staged job makes necessary is missing from the stage, and every staged job but the request itself is made necessary by another that is staged. |
| `Transaction.UniverseClosed` | core/bin/job/transaction.rs:118-222 | No expansion leads outside the finitely many units and basic kinds that dependencies name, which is why it ends. |
| `Transaction.JobTransVerify` | core/bin/job/transaction.rs:71-79 | A stage is refused exactly when it conflicts with itself, or with the live jobs in Fail mode or where one of them is irreversible. |
| `Fallback.JobTransFallback` | core/bin/job/transaction.rs:81-91 | Failure fallback ends and removes the Start and Verify jobs of exactly the units that the failure spreads to, through units it hits: along PropagateStopFailure first if a Stop has failed, along PropagateStartFailure if a Start or Verify has, and to none after any other job. Each removed job is reported once, with the result, and no direct follower is left with a Start or Verify. |
| `Fallback.FallbackBody` | core/bin/job/transaction.rs:329-349 | Each step of the recursion strips at least one unit, and leaves no follower of a stripped unit with a job to strip. |
| `Fallback.FallingIsSafe` | core/bin/job/transaction.rs:386-400 | Removing Start and Verify jobs never empties a queue in front of an interrupted trigger. |
| `Managers.JobManager.Exec` | core/bin/job/manager.rs:393-423 | A failed request leaves units, rows and ids as they were, and fails exactly for a bad input or a refused stage; a successful one commits the whole expansion and accounts for every job that comes or goes, and of units with an irreversible job, or in Fail mode, no waiting job goes but by merging. |
| `Managers.NothingIrreversibleFlushed` | core/bin/job/transaction.rs:312-327 | After an accepted request every waiting job of a unit that has an irreversible one, and in Fail mode every waiting job at all, is still there, but for those that the reshuffle merges into others of the unit. |
| `Managers.JobManager.DoTryFinish` | core/bin/job/manager.rs:563-605 | What a notice does, over the tables before and after. A paused trigger is resumed and nothing else changes. A Start ends in success when the unit is active or inactive, a Stop when it is inactive or failed, a Reload when it is inactive, or active without a reload failure: the job is gone, its neighbours are awake and no other unit loses a job, or a Restart goes on with its Start phase. A Start fails when the unit has failed, a Stop in every state but those two and deactivating, a Reload when the unit or the reload has failed: the job is gone, and after a Start or Stop no unit that it spreads its failure to has a Start or Verify left, while nothing else goes; a job that stood in for a lost one is followed by a Stop of its unit instead. In any other state nothing changes. |
| `Managers.JobManager.DoRemoveTrigger` | core/bin/job/manager.rs:607-647 | A job that ended in success concerns nobody else; it is reported deleted exactly when it has no phase left. |
| `Managers.JobManager.DoRemoveRelation` | core/bin/job/manager.rs:649-678 | The failure of a job takes along exactly the units it spreads to; that of a job that stood in for a lost one stops its unit instead, by a transaction of its own. |
| `Managers.JobManager.RunRound` | core/bin/job/manager.rs:435-476 | A round is exactly this: the greatest ready unit (or the one asked for) is run, or paused if something holds it back; then comes the notice, then the result of the job if it is still there. It leaves fewer jobs that stand in for lost ones, or as many and less work, or as much work and one ready unit less. |
| `Managers.JobManager.Run` | core/bin/job/manager.rs:435-476 | Whatever the units report, and even if jobs fail that a recovery put there, each of which brings in a transaction, dispatching ends as long as no unit asks for ever to be tried again while a change is announced: it goes through rounds, each exactly as told, leaves no unit ready (or not the one asked for), and has tried something if and only if there was something to try; without jobs of a recovery it adds no job. |
| `Managers.JobManager.TriggerUnit` | core/bin/job/manager.rs:153-158 | The assertion that something was triggered holds for a unit that is ready. |
| `Managers.JobManager.Dispatch` | core/bin/job/manager.rs:261-272 | The assertion after dispatching holds: nothing is ready. |
| `Managers.JobManager.FinishRound` | core/bin/job/manager.rs:452-467 | After a job has been run, the notice goes first, and its result is used exactly if the job is still there; the ids in use, and those that later transactions may take, do not become more. |
| `Managers.StopOnward` | core/bin/job/manager.rs:649-678 | When a job that stood in for a lost one fails, the transaction in its place leaves one such job less, and no trigger, pause or other job of the kind is new. |
| `Managers.CommitsMilder` | core/bin/job/manager.rs:393-423 | A commit of new jobs leaves every trigger as it is, pauses nobody, and every waiting job is an old one or has a new id. |
| `Transaction.UniverseWidth` | core/bin/job/transaction.rs:24-55 | No transaction takes more than six ids for each unit that some dependency names, and six for its own. |
| `Progress.RunIsLighter` | core/bin/job/junit.rs:561-607 | Running the next job of a unit takes away some of its remaining work, unless the job asks to be tried again. |
| `Progress.StillTrigger` | core/bin/job/manager.rs:461-466 | A triggered job whose id is still known when its result is handled is still the trigger of its unit, even if a transaction has come in between. |
| `Waking.ForgottenExactly` | core/bin/job/table.rs:375-391 | A unit that sleeps rightly, held back by another, sleeps in vain after an event of the table if and only if: a job that ignores the order pushes out the trigger that alone held it back; or what alone held it back is the first phase of a Restart that goes on to the second; or a job of its own is removed and the one that is next then is free; or a commit flushes no neighbour of it and leaves nobody who holds its next job back. |
| `Waking.SleepersStep` | core/bin/job/table.rs:375-391 | Over one event, all paused units keep being held back (or have a trigger to run again) if and only if the event forgets nobody. |
| `Waking.NobodyIsForgotten` | core/bin/job/table.rs:375-391 | In every run of the table from one in which nobody is paused, be it new or rebuilt, over any sequence of tries, endings, removals, commits and notices, nobody sleeps in vain as long as no event forgets anybody. |
| `Waking.AllIsDone` | core/bin/job/table.rs:787-809 | Then, on an acyclic order, once no unit is ready and no job under way, no job is left at all but stranded Nops: no unit sleeps for good. |
| `Waking.PlainCommitForgetsNobody` | core/bin/job/junit.rs:296-324 | A commit without a job for a unit, and without jobs that ignore the order, never forgets it. |
| `Waking.RunFace` | core/bin/job/junit.rs:584-607 | Running a job lets go of others exactly by interrupting a trigger for a job that ignores the order. |
| `Waking.CommitFaceIs` | core/bin/job/junit.rs:296-354 | What a unit holds back after a commit is told by its jobs and those of the stage before: the kinds that are not merged away, and that neither side makes ignore the order. |
| `Waking.RunnableIsFree` | core/bin/job/table.rs:787-809 | A unit may run exactly if no unit of the table holds its next job back. |
| `Rounds.RequestIsOneEvent` | core/bin/job/manager.rs:393-423 | An accepted request is one commit of the job table. |
| `Rounds.FinishLeads` | core/bin/job/manager.rs:563-605 | A notice is a sequence of events of the table: a waking, or the end of one job and the removals or the commit that follow from a failure. |
| `Rounds.RoundLeads` | core/bin/job/manager.rs:435-476 | A round is a sequence of events of the table, and which: a try of the unit, ends only of its job and of that of the unit that a notice is about, removals only of Start and Verify jobs, commits only for jobs of a recovery. |
| `Rounds.RunLeads` | core/bin/job/manager.rs:435-476 | A whole run is a sequence of events of the table, so that what the events keep a run keeps. |
| `Rounds.CalmRunForgetsNobody` | core/bin/job/manager.rs:435-476 | On an acyclic order, a run over a table without Restarts, Nops, jobs that ignore the order and jobs of a recovery forgets nobody, whatever the units report and however jobs fail: those who sleep afterwards are held back. |
| `Rounds.CalmRunDoesAll` | core/bin/job/manager.rs:261-272 | When such a run is over and no job is under way any more, there is no job left. |
| `Rounds.StaysRearmed` | core/bin/job/junit.rs:726-773 | A trigger that is to be run again, and is not paused, stays so over every event but its own try or end, commits that interrupt it included; and none comes up where there was none. |
| `Rounds.RunLeavesRearmed` | core/bin/job/manager.rs:435-476 | Running one unit to the end leaves the triggers of another as due as they were, if no change of that other one is announced. |
| `Pitfalls.LostWakeUp` | core/bin/job/table.rs:188-191 | A run of two ordered units, a Restart among them, after which no unit is ready although one could run: the step that forgets it is the one to the second phase. |
| `Pitfalls.AwakeAtFirst` | core/bin/job/table.rs:188-191 | That run starts from a table at rest. |
| `Pitfalls.LostByCommit` | core/bin/job/junit.rs:311-314 | A run without any Restart: a unit waits for another, its job is requested once more without regard to the order, and it sleeps on although nothing holds it back. |
| `Pitfalls.LostByInterrupt` | core/bin/job/junit.rs:584-607 | A run in which a Stop that ignores the order pushes out the Start that another unit waits for, and nobody wakes that other unit. |
| `Pitfalls.LostByRemoval` | core/bin/job/table.rs:137-161 | A run in which a paused unit loses its Start to a failure, and sleeps on with a Nop that nothing holds back. |
| `Pitfalls.NaggingGoesOn` | core/bin/job/manager.rs:435-476 | A round of a unit that asks to be tried again while a change of it is announced leaves the table as it was, and the unit ready: the loop does not end unless it gives up. |
| `Pitfalls.TurnIsLost` | core/bin/job/manager.rs:153-158 | Two kept triggers, and a change of the second announced while the first is run: when its turn comes the second is not ready, and the assertion fails. |
| `Pitfalls.SecondNotice` | core/bin/job/manager.rs:572-588 | After a notice has resumed a unit, a second one before the next dispatch has an answer if and only if the job is neither a Verify nor a Nop. |
| `Pitfalls.VerifyHasNoAnswer` | core/bin/job/entry.rs:492-503 | A Verify of a unit that is being activated gets there. |
| `Recovery.MergeRowTwice` | core/bin/job/manager.rs:344-357 | Merging a trigger's row again changes nothing. |
| `Recovery.RentryTriggerMerge` | core/bin/job/manager.rs:344-357 | The row becomes the merged one, or a default Restart if there was none. |
| `Recovery.DbCompensate` | core/bin/job/manager.rs:80-90 | All trigger rows are merged, then that of the last unit with force. |
| `Recovery.CompensatedTwice` | core/bin/job/manager.rs:344-357 | Crashing during recovery and compensating again gives the same rows. |
| `Recovery.DbMap` | core/bin/job/manager.rs:359-383 | From the rows left behind by any table at rest, the rebuilt table mirrors the rows, is at rest, has merged nothing, has nobody paused, and has every trigger due to run again, a Restart from its Stop phase. |
| `Recovery.Recover` | core/lib/rel/api.rs:145-163 | From the durable rows alone a new process reads back, compensates, commits and rebuilds: the job table is at rest and mirrored by its rows, which are durable, and every trigger is due to run again from its first phase. For every unit of the old table the same kinds wait with the same attributes; a trigger Stop, Verify or Nop is back with its own kind, and concerns its followers as before; a Start, Reload or Restart is back as a Restart whose failure does not; all ignore the order and are irreversible, no attribute is lost, and only the last unit gains force, and a Restart if it had no trigger. |
| `Recovery.Reboot` | core/lib/rel/api.rs:145-163 | Commit, crash (perhaps before all tables have been exported), recovery, in one: what is rebuilt is the job table as it was at the crash, or the one of the last commit, and never a mixture. |
| `Recovery.RestoredTwice` | core/bin/job/manager.rs:344-357 | Restoring a restored table gives the same jobs with the same attributes, waiting and under way. |
| `Recovery.RecoverTwice` | core/lib/rel/api.rs:145-163 | A crash during recovery, once the compensated rows are committed, and recovery again: the same table is rebuilt from what the first one left. |
| `Reruns.DoCompensateOthers` | core/bin/job/manager.rs:96-104 | Every trigger that there is a row of, but that of the last unit, is run again once, and none of the assertions fires, if changes are announced only of the unit that is run. |
| `Reruns.MakeConsistent` | core/bin/job/manager.rs:89-104 | On a rebuilt table the last unit goes first, and then every other trigger that was kept: each is ready when its turn comes. |
| `JobTables.JobTable.RentryMapTrigger` | core/bin/job/table.rs:63-68 | A running job is put back from its row, to be run again. |
| `JobTables.JobTable.RentryMapSuspend` | core/bin/job/table.rs:56-61 | A waiting job is put back from its row. |
| `Service.ServiceMng.StopAction` | coms/service/src/mng.rs:210-228 | From any state a stop by hand ends in Stop, StopPost, Dead or Failed, with no process tracked and no command kept in the last two, and has tried exactly the commands that the stop phase it begins with comes to. These are configured for what they are run for if and only if, from a starting phase, stop-post commands are configured or nothing was left in the queue, and otherwise some stop commands are or nothing was left, and moreover stop-post commands are, or there is at most one stop command, or the first can be started. The restart timer is not disarmed and has no answer to any of these states. |
| `Service.ServiceMng.SigchldEvent` | coms/service/src/mng.rs:1068-1281 | By the state before, the kind of the service and the answers of the system: the end of the main process of a running service leads to StopPost, Failed or AutoRestart in failure, and in success to Running, StopSigterm, Exited or a stop; and so on for every other state, with what has been tried and what is left in the queue. No exit of a child leads out of a stop by hand into a restart. The service is stuck if and only if the process ended in success and the next command, of the control queue or of a oneshot service that is starting, or the start-post command that comes next, cannot be started. A service that waits only for processes that are tracked goes on to do so unless it is stuck, or a oneshot service whose last process has ended leaves others in its control group: in both cases it waits for a process that there is not, and no later exit leads on, unless that of the main process of a forking service. Otherwise a tidy service stays tidy. |
| `ServiceWays.MainEndIs` | coms/service/src/mng.rs:1096-1149 | What the end of the main process means, state by state, when its pid file does not name another, no further command of a oneshot service is started, and nothing else of the service is left: up to Running, in failure the stop commands are passed over, in success they are not; the stop signals lead to the stop-post phase and the final signals to the end; every other state is kept. |
| `ServiceWays.ControlEndIs` | coms/service/src/mng.rs:1151-1280 | The same for the end of a control process: the next command of its queue is started, or the state leads on, Stop and the stop signals to the stop-post phase, StopPost and the final signals to the end, Reload to what a running service comes to. A condition, start-pre or forking process that fails passes over the stop commands, and its result is not kept. |
| `Service.FailedStartPre` | coms/service/src/mng.rs:1161-1174 | A run: the start-pre command of a service fails that is to be restarted on failure; the service ends up Dead, as after success, and is not restarted. |
| `Service.ServiceMng.ControlExited` | coms/service/src/mng.rs:1151-1280 | The end of a control process starts the next command, if there is one and it ended in success, or leads on, as the functions of the phases say. It is stuck exactly if that next command cannot be started, or what comes after the last one is stuck. |
| `Service.ServiceMng.StartPostTwice` | coms/service/src/mng.rs:1186-1230 | A forking service with a pid file enters the start-post phase twice: it is stuck exactly if the second command tried cannot be started, or, without start-post commands, if a command that the first pass has left over cannot be. |
| `Service.StuckWithoutStartPost` | coms/service/src/mng.rs:1186-1230 | A run: without start-post commands, the second stop command is tried in their place, cannot be started, and the service is stuck. |
| `Service.ServiceMng.MainExited` | coms/service/src/mng.rs:1096-1149 | The end of a main process is stuck exactly for a oneshot service that is starting, in success, unless its pid file names another process, when the next main command cannot be started, or there is none, no process is left, and the start-post command cannot be. |
| `Service.ServiceMng.RunNextMain` | coms/service/src/mng.rs:677-692 | The next main command is run whatever state the service is in. |
| `Service.SecondCommandFails` | coms/service/src/mng.rs:677-692 | A run: of a oneshot service the second of two commands cannot be started, and it waits in Start with no process. |
| `Service.GroupIsLeft` | coms/service/src/mng.rs:1102-1103 | A run: the one command of a oneshot service leaves a process behind in the control group, and the service waits in Start with no process. |
| `Service.ServiceMng.EnterDead` | coms/service/src/mng.rs:458-496 | Dead with success, Failed without, and AutoRestart if and only if a restart is asked for, no stop job is there, nothing forbids it and the policy wants it; processes and queues are gone in all three, and nothing is started. |
| `Service.ServiceMng.EnterSignal` | coms/service/src/mng.rs:544-591 | Signalling ends in StopPost, Dead, Failed or, if not forbidden, AutoRestart, whether or not the signal could be sent; the state, the result and what has been tried are exactly what the stop-post phase, or the end, comes to. |
| `Service.ServiceMng.EnterStopPost` | coms/service/src/mng.rs:432-456 | The same for the stop-post commands: StopPost is entered exactly if there is a first command and it can be started. |
| `Service.ServiceMng.EnterStop` | coms/service/src/mng.rs:396-424 | The same for the stop commands; when the first cannot be started the others are left to the stop-post phase. |
| `ServiceWays.LeftOversAreRun` | coms/service/src/mng.rs:730-734 | Of the commands that a stop tries, by the phase it begins with: the stop commands are configured as such if and only if some are, or nothing was left in the queue; the stop-post commands behind them if and only if some are, or there is at most one stop command, or the first can be started; and in a stop that begins with these, if and only if some are or nothing was left. |
| `Service.StopPostRunsStop` | coms/service/src/mng.rs:432-456 | A run: of two stop commands the first cannot be started, and the second is run as a stop-post command; nothing was left before. |
| `Service.StopRunsStartPre` | coms/service/src/mng.rs:730-734 | A service that is stopped while its first start-pre command runs goes on to run the second, in place of the stop-post command that it does not have. |
| `Service.ServiceMng.EnterStartPost` | coms/service/src/mng.rs:350-373 | Stuck if and only if there is a start-post command and it cannot be started: then the service stays as it is, with its main process, whatever state that is. |
| `Service.ServiceMng.StartAction` | coms/service/src/mng.rs:184-192 | A start is stuck if and only if nothing comes before the main command and either, for a simple service, that one can be started and the start-post command behind it cannot, or, for a oneshot service without a main command, the start-post command cannot; otherwise the service is tidy, and a service of another kind whose first command can be started is in Start, with the process tracked that it waits for and the queues one command further. |
| `Service.ServiceMng.StuckStart` | coms/service/src/mng.rs:361-367 | Where a start is stuck, from a state without a main process, a simple service is left untidy and no other is. |
| `Service.ServiceMng.NothingSticks` | coms/service/src/mng.rs:361-367 | Without start-post commands and without a pid file no start is stuck, and no exit of a child but one that leaves further control commands, or further main commands of a oneshot service; of the latter, a service that has been started has none if only one is configured. |
| `Service.DeadButRunning` | coms/service/src/mng.rs:361-367 | A run: a simple service, dead and tidy, is started, its start-post command cannot be, and it is dead still while its main process runs, the end of which meets an open case. |
| `Service.ServiceMng.TidyHasAnswer` | coms/service/src/mng.rs:1096-1149 | No exit of a child of a tidy service meets a case that the source leaves open, which is the last process of a dead service, or the last control process of a running one. |
| `Service.ServiceMng.LoadPidFile` | coms/service/src/mng.rs:753-783 | The pid file names another main process, or the same one, or cannot be read; without one, nothing is asked. |
| `Service.ServiceMng.ReloadAction` | coms/service/src/mng.rs:498-517 | A reload leaves the service tidy and attended; without a reload command that can be started it is what a running service comes to. |
| `Service.ServiceMng.TimerEvent` | coms/service/src/mng.rs:1893-1922 | The restart timer stops a running service with a timeout, and one that waits for its restart is left to the restart job, or dies if there can be none; it is tidy afterwards in both cases. |
| `Service.ServiceMng.EnterRunning` | coms/service/src/mng.rs:375-394 | However it goes on, processes are tracked only in states that have a use for them; the state, the result, what is tried and what is left are told by the answers of the system. |
| `Service.ServiceMng.SetState` | coms/service/src/mng.rs:593-655 | Leaving the states that keep a process or its commands drops them. |
| `Service.ServiceMng.ShallRestart` | coms/service/src/mng.rs:935-973 | A forbidden restart never happens, nor one that the exit status prevents; otherwise it happens exactly for the policies that go with the result, as a table by results. |
| `Service.ServiceMng.MainCommandUpdate` | coms/service/src/mng.rs:721-728 | From the stored length alone the loop restores the last commands of ExecStart. |
| `Service.ServiceMng.DbInsert` | coms/service/src/mng.rs:103-120 | The stored length restores the main queue exactly; the row can be restored if and only if no control command is left, since their type is never recorded. |
| `Service.ServiceMng.DbMap` | coms/service/src/mng.rs:71-101 | Everything stored comes back. |

## Left out

* Isolate and Flush commits and `job_trans_affect`: flushing a suspended Stop or Restart can leave the stale interrupt flag described above, and `is_unit_empty` (core/bin/job/table.rs:745-747) means the opposite of its name, so that the intended claims do not hold there.
* `JobTable::remove_unit`: it neither finishes jobs nor clears the vector of ready units.
- JobTables.JobTable.Commit: does not model the isolation of the units outside of a stage, as said above.
- Managers.JobManager.Exec: covers the modes Isolate and Trigger only where the input is refused, and not Flush, because they go through `job_trans_affect` or isolate units.
- UnitTable.JobUnitTable.TryTriggerUnit: holds the units as values, where the source shares one object between the two indexes; what is proved of `JobUnits.JobUnit` in place is what these values go through.
- JobUnits.JobUnit.OrderSuspends: the queue holds kinds instead of the jobs themselves, which the suspended jobs are looked up by.
- JobTables.JobTable.RemoveSuspends: for reasons other than success, as all callers in the source do; a suspended Restart removed with success would keep its row.
- Managers.JobManager.DoTryFinish: leaves out the call-backs to units that trigger others (`TriggeredBy`), simulated notices, and requests on success or failure; they come back to the engine from outside.
- Managers.JobManager.DoRemoveTrigger: leaves out the request on failure that may follow a removal inside a run (core/bin/job/manager.rs:694-712); with such requests the loop ends only if they do, which two units that name each other need not.
- Managers.JobManager.DoRemoveRelation: leaves out the requests on failure of the units that are taken along, for the same reason.
- Managers.JobManager.Run: for worlds in which no notice is without an answer and nobody nags for ever, and while there are ids left for the transactions that failing jobs of a recovery bring in; the number of rounds is not wrapped at the width of a machine word.
- Recovery.DbMap: the tables are read while the engine ignores what jobs would write; here nothing is written because nothing is merged. That the units of the rows exist is the business of the unit database.
- Recovery.Recover: a Restart begins with its first phase again; its phase is not stored. The jobs are run again by `Reruns.MakeConsistent`.
- Reruns.MakeConsistent: the stations other than the job manager, and the commit at its end, are not part of it.
- Recovery.Reboot: tables of two types are told apart, those keyed by unit and those keyed by unit and kind; a table of a third type would be a third part of the history. That the rows that the job table writes are those of the two tables is asked of the caller; `JobUnits` proves it of one unit in place.
- Waking.NobodyIsForgotten: for the operations of the job table (dispatch, end, removal, commit, notice); the ordering dependencies do not change in between.
- ReliStore.ReliHistory.Commit: a crash between two tables; that a transaction of the database is atomic is taken from the database.
- Service.ServiceMng.StopAction: an owner is attached to the service, and what the owner does with the state changes it is told is not followed.
- Service.ServiceMng.SigchldEvent: a notify service that has lost its main process may still hear from others of its group, and a running service is running while its group is populated; neither is called deserted. The watcher that waits for a pid file is an answer from outside; that it may itself enter the running state is left out.
- Service.ServiceMng.DbMap: whether a main process was ever known, the notify state, restart counts and exit status are not part of the model.
* Service types Idle and Exec, which the source does not implement.
* `JobStat`, which counts what the reports of a transaction already account for, and subtracts before it adds within one batch.
* Job timeouts, logging, and the storage engine, directories, processes, signals, control groups, timers, sockets, plugins and configuration files.
* Mount and socket units, notify messages and watchdogs, which would be simpler copies of the service machine.
