/** Where the engine does less than one would hope, with runs that show it and the exact
    condition under which it does what is expected. */
module Pitfalls {
  import opened Wrappers
  import opened JobTypes
  import opened JobStore
  import opened UnitSpec
  import opened UnitInvariant
  import opened TableSpec
  import opened Ordering
  import opened UnitTable
  import opened TableIds
  import opened JobTables
  import opened Fallback
  import opened Managers
  import opened Waking

  // ---------------------------------------------------------------- a lost wake-up

  /** Unit 0 is before unit 1. */
  const TWO_UNITS := UnitDb(map[(0, Before) := [1], (1, After) := [0]], {})

  function Waiting(id: nat, u: UnitId, kind: JobKind): Job {
    WaitJob(NewJob(id, JobConf(u, kind)))
  }

  /** A unit with one job that is about to be run. */
  function Fresh(id: nat, u: UnitId, kind: JobKind): UnitState {
    UnitState(u, map[kind := Waiting(id, u, kind)], None, true, [kind], false, false, false, false, true, true)
  }

  function Paused(s: UnitState): UnitState {
    s.(pause := true, ready := false, upReady := false)
  }

  /** The Restart of a unit, in the phase `runKind`. */
  function Restarting(id: nat, u: UnitId, runKind: JobKind, again: bool): UnitState {
    UnitState(u, map[], Some(Waiting(id, u, Restart).(stage := Running, runKind := runKind)), true, [],
              false, again, false, false, again, again)
  }

  lemma RestartSteps(id: nat, u: UnitId)
    ensures TryUnit(Fresh(id, u, Restart), true, Ok) == Restarting(id, u, Stop, false)
    ensures Rest(FinishTrigger(Restarting(id, u, Stop, false), Done)) == Restarting(id, u, Start, true)
    ensures TryUnit(Restarting(id, u, Start, true), false, Ok) == Paused(Restarting(id, u, Start, true))
  {
  }

  lemma PauseSteps(id: nat, u: UnitId)
    ensures TryUnit(Fresh(id, u, Start), false, Ok) == Paused(Fresh(id, u, Start))
  {
  }

  /** The run of two units that falls asleep: a Start is requested on the first and a Restart on
      the second. The second stops first, the first has to wait for that; once the second has
      stopped, nobody wakes the first, and the second waits for it. */
  function Asleep(step: nat): Units
    requires step < 5
  {
    match step
    case 0 => map[0 := Fresh(1, 0, Start), 1 := Fresh(2, 1, Restart)]
    case 1 => map[0 := Fresh(1, 0, Start), 1 := Restarting(2, 1, Stop, false)]
    case 2 => map[0 := Paused(Fresh(1, 0, Start)), 1 := Restarting(2, 1, Stop, false)]
    case 3 => map[0 := Paused(Fresh(1, 0, Start)), 1 := Restarting(2, 1, Start, true)]
    case _ => map[0 := Paused(Fresh(1, 0, Start)), 1 := Paused(Restarting(2, 1, Start, true))]
  }

  /** What the two units are to each other. */
  lemma Orderings(id: nat, other: nat)
    ensures OrderedWith(Waiting(id, 1, Restart), Fresh(other, 0, Start), After)
    ensures !OrderedWith(Waiting(id, 0, Start), Restarting(other, 1, Stop, false), Before)
    ensures OrderedWith(Waiting(id, 0, Start), Paused(Restarting(other, 1, Start, true)), Before)
    ensures !OrderedWith(Restarting(id, 1, Start, true).trigger.value, Paused(Fresh(other, 0, Start)), After)
  {
    assert Start in Fresh(other, 0, Start).suspends;
  }

  lemma RunnablePair(units: Units, u: UnitId, v: UnitId, atom: Atom)
    requires u in units && v in units && HasNext(units[u])
    requires (u == 0 && v == 1 && atom == Before) || (u == 1 && v == 0 && atom == After)
    ensures Runnable(TWO_UNITS, units, u) <==> OrderedWith(NextTrigger(units[u]), units[v], atom)
  {
  }

  lemma Nexts(id: nat, u: UnitId, kind: JobKind)
    ensures HasNext(Fresh(id, u, kind)) && NextTrigger(Fresh(id, u, kind)) == Waiting(id, u, kind)
    ensures HasNext(Paused(Fresh(id, u, kind))) && NextTrigger(Paused(Fresh(id, u, kind))) == Waiting(id, u, kind)
    ensures var s := Restarting(id, u, Start, true); HasNext(s) && NextTrigger(s) == s.trigger.value
  {
  }

  lemma SecondMayStop()
    ensures HasNext(Asleep(0)[1]) && Runnable(TWO_UNITS, Asleep(0), 1)
  {
  }

  lemma FirstMayNotStart()
    ensures HasNext(Asleep(1)[0]) && !Runnable(TWO_UNITS, Asleep(1), 0)
  {
    Nexts(1, 0, Start);
    Orderings(1, 2);
    RunnablePair(Asleep(1), 0, 1, Before);
  }

  lemma SecondMayNotStart()
    ensures HasNext(Asleep(3)[1]) && !Runnable(TWO_UNITS, Asleep(3), 1)
  {
    Nexts(2, 1, Restart);
    Orderings(2, 1);
    RunnablePair(Asleep(3), 1, 0, After);
  }

  lemma FirstMayStart()
    ensures HasNext(Asleep(4)[0]) && Runnable(TWO_UNITS, Asleep(4), 0)
  {
  }

  /** No unit is ready any more, although nothing holds the first one back. */
  lemma LostWakeUp(rows: JobDb) returns (rows1: JobDb)
    ensures Tried(TWO_UNITS, Asleep(0), rows, 1, true, Ok, Asleep(1), rows1)
    ensures Tried(TWO_UNITS, Asleep(1), rows1, 0, false, Ok, Asleep(2), rows1)
    ensures EndedTo(TWO_UNITS, Asleep(2), 1, Done, Asleep(3))
    ensures Tried(TWO_UNITS, Asleep(3), rows1, 1, false, Ok, Asleep(4), rows1)
    ensures ReadySet(Asleep(4)) == {} && InVain(TWO_UNITS, Asleep(4), 0)
    ensures Forgets(TWO_UNITS, Asleep(2), Ends(1, Done), 0)
  {
    SecondMayStop();
    FirstMayNotStart();
    SecondMayNotStart();
    FirstMayStart();
    rows1 := FirstRun(rows);
    ThenAsleep(rows1);
    FlipForgets();
  }

  lemma FlipForgets()
    ensures Forgets(TWO_UNITS, Asleep(2), Ends(1, Done), 0)
  {
    Nexts(1, 0, Start);
  }

  /** The run starts from a table at rest. */
  lemma AwakeAtFirst()
    ensures UnitsOk(Asleep(0))
  {
    FreshIsOk(1, 0, Start);
    FreshIsOk(2, 1, Restart);
  }

  lemma FirstRun(rows: JobDb) returns (rows1: JobDb)
    requires HasNext(Asleep(0)[1]) && Runnable(TWO_UNITS, Asleep(0), 1)
    ensures Tried(TWO_UNITS, Asleep(0), rows, 1, true, Ok, Asleep(1), rows1)
  {
    RestartSteps(2, 1);
    rows1 := TryDb(rows, Fresh(2, 1, Restart), true);
    assert Asleep(1) == Asleep(0)[1 := Restarting(2, 1, Stop, false)];
  }

  lemma ThenAsleep(rows: JobDb)
    requires HasNext(Asleep(1)[0]) && !Runnable(TWO_UNITS, Asleep(1), 0)
    requires HasNext(Asleep(3)[1]) && !Runnable(TWO_UNITS, Asleep(3), 1)
    ensures Tried(TWO_UNITS, Asleep(1), rows, 0, false, Ok, Asleep(2), rows)
    ensures EndedTo(TWO_UNITS, Asleep(2), 1, Done, Asleep(3))
    ensures Tried(TWO_UNITS, Asleep(3), rows, 1, false, Ok, Asleep(4), rows)
    ensures ReadySet(Asleep(4)) == {}
  {
    FirstPauses(rows);
    FlipWakesNobody();
    SecondPauses(rows);
    NobodyReady();
  }

  lemma NobodyReady()
    ensures ReadySet(Asleep(4)) == {}
  {
  }

  lemma FirstPauses(rows: JobDb)
    requires HasNext(Asleep(1)[0]) && !Runnable(TWO_UNITS, Asleep(1), 0)
    ensures Tried(TWO_UNITS, Asleep(1), rows, 0, false, Ok, Asleep(2), rows)
  {
    PauseSteps(1, 0);
    assert Asleep(2) == Asleep(1)[0 := Paused(Fresh(1, 0, Start))];
  }

  lemma SecondPauses(rows: JobDb)
    requires HasNext(Asleep(3)[1]) && !Runnable(TWO_UNITS, Asleep(3), 1)
    ensures Tried(TWO_UNITS, Asleep(3), rows, 1, false, Ok, Asleep(4), rows)
  {
    SecondStepsBack();
    assert Asleep(4) == Asleep(3)[1 := Asleep(4)[1]];
  }

  lemma SecondStepsBack()
    ensures var s := Asleep(3)[1];
            && s.ready && Triable(s) && TryUnit(s, false, Ok) == Asleep(4)[1] && forall rows :: TryDb(rows, s, false) == rows
  {
    RestartSteps(2, 1);
  }

  lemma FlipWakesNobody()
    ensures EndedTo(TWO_UNITS, Asleep(2), 1, Done, Asleep(3))
  {
  }

  lemma FreshIsOk(id: nat, u: UnitId, kind: JobKind)
    requires IsBasicOp(kind)
    ensures UnitInv(Fresh(id, u, kind))
  {
  }

  // ---------------------------------------------------------------- set free by a commit

  /** A unit whose job is under way. */
  function Underway(id: nat, u: UnitId, kind: JobKind): UnitState {
    UnitState(u, map[], Some(RunJob(Waiting(id, u, kind))), true, [], false, false, false, false, false, false)
  }

  function Ignoring(job: Job): Job {
    InitAttr(job, IgnoreDependencies)
  }

  /** The stage of a request for a Start that ignores the order. */
  function IgnoringStage(id: nat, u: UnitId): Units {
    map[u := NewUnit(u).(suspends := map[Start := Ignoring(NewJob(id, JobConf(u, Start)))])]
  }

  /** Unit 0 is starting, and unit 1 waits for it; then the Start of unit 1 is requested once
      more, this time without regard to the order. */
  function Overslept(step: nat): Units
    requires step < 3
  {
    var s := Fresh(2, 1, Start);
    match step
    case 0 => map[0 := Underway(1, 0, Start), 1 := s]
    case 1 => map[0 := Underway(1, 0, Start), 1 := Paused(s)]
    case _ => map[0 := Underway(1, 0, Start), 1 := Paused(s).(suspends := map[Start := Ignoring(Waiting(2, 1, Start))])]
  }

  lemma StartAfterStart(id: nat, other: nat)
    ensures !OrderedWith(Waiting(id, 1, Start), Underway(other, 0, Start), After)
  {
  }

  lemma MustWait()
    ensures HasNext(Overslept(0)[1]) && !Runnable(TWO_UNITS, Overslept(0), 1)
  {
    Nexts(2, 1, Start);
    StartAfterStart(2, 1);
    RunnablePair(Overslept(0), 1, 0, After);
  }

  lemma MayGo()
    ensures ReadySet(Overslept(2)) == {} && InVain(TWO_UNITS, Overslept(2), 1)
  {
  }

  lemma StartingIsOk()
    ensures UnitsOk(Overslept(0))
  {
    FreshIsOk(2, 1, Start);
    UnderwayIsOk(1, 0, Start);
  }

  lemma RequestedAgain(id: nat)
    ensures CommitUnit(Overslept(1)[1], Theirs(IgnoringStage(id, 1), 1), false) == Overslept(2)[1]
    ensures CommitUnit(Overslept(1)[0], map[], false) == Overslept(1)[0]
  {
    UnderwayIsOk(1, 0, Start);
    NothingToCommit(Overslept(1)[0], false);
    var theirs := Theirs(IgnoringStage(id, 1), 1);
    var s := Overslept(1)[1];
    assert Kept(s, theirs) == s.suspends;
    assert MergedSuspends(s.suspends, theirs) == map[Start := Ignoring(Waiting(2, 1, Start))];
  }

  lemma UnderwayIsOk(id: nat, u: UnitId, kind: JobKind)
    requires IsBasicOp(kind)
    ensures UnitInv(Underway(id, u, kind))
  {
    assert Canon({}) == [];
  }

  /** The job is free to run now, but merging its attributes does not wake the unit. */
  lemma LostByCommit(id: nat, rows: JobDb)
    ensures UnitsOk(Overslept(0))
    ensures Tried(TWO_UNITS, Overslept(0), rows, 1, false, Ok, Overslept(1), rows)
    ensures CommittedTo(TWO_UNITS, Overslept(1), IgnoringStage(id, 1), Overslept(2), Overslept(2))
    ensures ReadySet(Overslept(2)) == {} && InVain(TWO_UNITS, Overslept(2), 1)
  {
    StartingIsOk();
    MustWait();
    SecondWaits(rows);
    Recommitted(id);
    MayGo();
  }

  lemma SecondWaits(rows: JobDb)
    requires HasNext(Overslept(0)[1]) && !Runnable(TWO_UNITS, Overslept(0), 1)
    ensures Tried(TWO_UNITS, Overslept(0), rows, 1, false, Ok, Overslept(1), rows)
  {
    PauseSteps(2, 1);
    assert Overslept(1) == Overslept(0)[1 := Paused(Fresh(2, 1, Start))];
  }

  lemma Recommitted(id: nat)
    ensures CommittedTo(TWO_UNITS, Overslept(1), IgnoringStage(id, 1), Overslept(2), Overslept(2))
  {
    RequestedAgain(id);
    NobodyFlushed(id);
    StageIsOk(id, 1);
    assert AllNeighbours(TWO_UNITS, {}) == {};
  }

  lemma StageIsOk(id: nat, u: UnitId)
    ensures StageTable(IgnoringStage(id, u))
  {
    var theirs := map[Start := Ignoring(NewJob(id, JobConf(u, Start)))];
    assert theirs.Keys == {Start} && StageOk(u, theirs);
    assert IgnoringStage(id, u)[u].suspends == theirs;
  }

  lemma NobodyFlushed(id: nat)
    ensures FlushedOf(Overslept(1), IgnoringStage(id, 1)) == {}
  {
    assert !ConflictsAt(Overslept(1), IgnoringStage(id, 1), 1);
  }

  // ---------------------------------------------------------------- set free by an interrupt

  /** Unit 0 has started as far as it goes, and unit 1 waits for it; then a Stop of unit 0 is
      requested without regard to the order, and pushes the Start out. */
  function PushedOut(step: nat): Units
    requires step < 3
  {
    var s, start := Paused(Fresh(2, 1, Start)), Underway(1, 0, Start);
    var stop := Ignoring(Waiting(3, 0, Stop));
    match step
    case 0 => map[0 := start, 1 := s]
    case 1 => map[0 := start.(suspends := map[Stop := stop], sq := [Stop], interrupt := true, ready := true,
                              upReady := true),
                  1 := s]
    case _ => map[0 := start.(trigger := Some(RunJob(stop))), 1 := s]
  }

  function IgnoringStop(): map<JobKind, Job> {
    map[Stop := Ignoring(NewJob(3, JobConf(0, Stop)))]
  }

  function StopStage(): Units {
    map[0 := NewUnit(0).(suspends := IgnoringStop())]
  }

  lemma StopIsCommitted()
    ensures CommitUnit(PushedOut(0)[0], IgnoringStop(), false) == PushedOut(1)[0]
  {
    var s, theirs := PushedOut(0)[0], IgnoringStop();
    assert Stop in theirs.Keys && Stop !in Kept(s, theirs).Keys;
    var m := MergeSuspends(s, theirs);
    assert m.suspends == map[Stop := Ignoring(Waiting(3, 0, Stop))] && m.dirty && !m.order;
    assert m.suspends.Keys == {Stop} && Unmerged({Stop}, false) == {Stop} && Canon({Stop}) == [Stop];
    var o := OrderQueue(m, false);
    assert o.suspends == m.suspends;
  }

  lemma StopStageIsOk()
    ensures StageTable(StopStage()) && FlushedOf(PushedOut(0), StopStage()) == {}
  {
    assert IgnoringStop().Keys == {Stop} && StageOk(0, IgnoringStop());
    assert !ConflictsAt(PushedOut(0), StopStage(), 0);
  }

  lemma StopIsRequested()
    ensures CommittedTo(TWO_UNITS, PushedOut(0), StopStage(), PushedOut(1), PushedOut(1))
  {
    StopIsCommitted();
    StopStageIsOk();
    FreshIsOk(2, 1, Start);
    PausedIsOk(Fresh(2, 1, Start));
    NothingToCommit(PushedOut(0)[1], false);
    assert AllNeighbours(TWO_UNITS, {}) == {};
  }

  lemma PausedIsOk(s: UnitState)
    requires UnitInv(s)
    ensures UnitInv(Paused(s))
  {
  }

  lemma StopIsRun()
    ensures TriedTo(TWO_UNITS, PushedOut(1), 0, true, Ok, PushedOut(2))
  {
    var s := PushedOut(1)[0];
    assert HasNext(s) && NextTrigger(s).attr.ignoreOrder;
    assert s.suspends - {Stop} == map[];
    assert TryUnit(s, true, Ok) == PushedOut(2)[0];
    assert PushedOut(2) == PushedOut(1)[0 := PushedOut(2)[0]];
  }

  lemma NobodyIsWoken()
    ensures ReadySet(PushedOut(2)) == {} && InVain(TWO_UNITS, PushedOut(2), 1)
  {
  }

  /** The trigger that alone held the second unit back is gone, and nobody wakes it. */
  lemma LostByInterrupt(rows: JobDb) returns (rows1: JobDb)
    ensures UnitsOk(Overslept(0)) && Tried(TWO_UNITS, Overslept(0), rows, 1, false, Ok, PushedOut(0), rows1)
    ensures CommittedTo(TWO_UNITS, PushedOut(0), StopStage(), PushedOut(1), PushedOut(1))
    ensures TriedTo(TWO_UNITS, PushedOut(1), 0, true, Ok, PushedOut(2))
    ensures Forgets(TWO_UNITS, PushedOut(1), Tries(0, true, Ok), 1)
    ensures ReadySet(PushedOut(2)) == {} && InVain(TWO_UNITS, PushedOut(2), 1)
  {
    rows1 := rows;
    StartingIsOk();
    MustWait();
    SecondWaits(rows);
    StopIsRequested();
    StopIsRun();
    NobodyIsWoken();
    InterruptForgets();
  }

  lemma InterruptForgets()
    ensures Forgets(TWO_UNITS, PushedOut(1), Tries(0, true, Ok), 1)
  {
    Nexts(2, 1, Start);
    assert !WaitsBehind(PushedOut(1)[0]);
  }

  // ---------------------------------------------------------------- set free by a removal

  /** Unit 1 has a Start and a Nop waiting for unit 0, and loses the Start when a third unit fails
      that it depends on. */
  function Bereft(step: nat): Units
    requires step < 3
  {
    var s := Fresh(2, 1, Start).(
      suspends := map[Start := Waiting(2, 1, Start), Nop := Waiting(3, 1, Nop)], sq := [Start, Nop]);
    match step
    case 0 => map[0 := Underway(1, 0, Start), 1 := s]
    case 1 => map[0 := Underway(1, 0, Start), 1 := Paused(s)]
    case _ => map[0 := Underway(1, 0, Start), 1 := Paused(s).(suspends := map[Nop := Waiting(3, 1, Nop)], sq := [Nop])]
  }

  lemma BereftIsOk()
    ensures UnitsOk(Bereft(0))
  {
    UnderwayIsOk(1, 0, Start);
    assert Bereft(0)[1].suspends.Keys == {Start, Nop} && Canon({Start, Nop}) == [Start, Nop];
  }

  lemma StartIsHeld()
    ensures TriedTo(TWO_UNITS, Bereft(0), 1, false, Ok, Bereft(1))
  {
    StartMustWait();
    StartPauses();
    assert Bereft(1) == Bereft(0)[1 := Bereft(1)[1]];
  }

  lemma StartMustWait()
    ensures HasNext(Bereft(0)[1]) && NextTrigger(Bereft(0)[1]) == Waiting(2, 1, Start)
    ensures !Runnable(TWO_UNITS, Bereft(0), 1)
  {
    StartAfterStart(2, 1);
    RunnablePair(Bereft(0), 1, 0, After);
  }

  lemma StartPauses()
    ensures Triable(Bereft(0)[1]) && TryUnit(Bereft(0)[1], false, Ok) == Bereft(1)[1]
  {
  }

  lemma StartIsStripped()
    ensures RemovedTo(TWO_UNITS, Bereft(1), 1, FALLEN_KINDS, Dependency, Bereft(2))
  {
    OnlyNopIsLeft();
    NopTable();
    NobodyAwaits();
  }

  lemma NopTable()
    requires RemoveUnit(Bereft(1)[1], FALLEN_KINDS, false) == Bereft(2)[1]
    ensures RemovedUnits(TWO_UNITS, Bereft(1), 1, FALLEN_KINDS) == Bereft(2)
  {
    assert Nop in Bereft(2)[1].suspends && !IsEmpty(Bereft(2)[1]);
    assert Bereft(2) == Bereft(1)[1 := Bereft(2)[1]];
  }

  lemma NobodyAwaits()
    ensures Resumed(Bereft(2), WokenByRemoval(TWO_UNITS, Bereft(1), 1, FALLEN_KINDS, Dependency), Bereft(2))
  {
    assert 1 !in Neighbours(TWO_UNITS, 1);
  }

  lemma OnlyNopIsLeft()
    ensures RemoveUnit(Bereft(1)[1], FALLEN_KINDS, false) == Bereft(2)[1] && !Bereft(1)[1].interrupt
  {
    var s := Bereft(1)[1];
    var r := RemoveKinds(s, FALLEN_KINDS);
    assert r.suspends == map[Nop := Waiting(3, 1, Nop)];
    assert r.suspends.Keys == {Nop} && Unmerged({Nop}, false) == {Nop} && Canon({Nop}) == [Nop];
    assert OrderQueue(r, false).suspends == r.suspends;
  }

  lemma NopIsFree()
    ensures ReadySet(Bereft(2)) == {} && InVain(TWO_UNITS, Bereft(2), 1)
    ensures Forgets(TWO_UNITS, Bereft(1), Removes(1, FALLEN_KINDS, Dependency), 1)
  {
    OnlyNopIsLeft();
  }

  /** What is left could run now, but a removal wakes only the neighbours of the unit, and not the
      unit. */
  lemma LostByRemoval()
    ensures UnitsOk(Bereft(0)) && TriedTo(TWO_UNITS, Bereft(0), 1, false, Ok, Bereft(1))
    ensures RemovedTo(TWO_UNITS, Bereft(1), 1, FALLEN_KINDS, Dependency, Bereft(2))
    ensures Forgets(TWO_UNITS, Bereft(1), Removes(1, FALLEN_KINDS, Dependency), 1)
    ensures ReadySet(Bereft(2)) == {} && InVain(TWO_UNITS, Bereft(2), 1)
  {
    BereftIsOk();
    StartIsHeld();
    StartIsStripped();
    NopIsFree();
  }

  // ---------------------------------------------------------------- a loop without end

  const NO_DEPS := UnitDb(map[], {})

  /** A unit that asks to be tried again, and announces a change all the same. */
  const NAGS := Action(Again, Some(Notice(0, UnitActivating, false)))

  /** A unit whose trigger is to be run again. */
  function Nagging(id: nat): Units {
    map[0 := Underway(id, 0, Start).(retrigger := true, ready := true, upReady := true)]
  }

  /** A round of a unit that nags leaves everything as it was: if the unit never gives up, the
      loop never ends. */
  lemma NaggingGoesOn(id: nat, unit: Option<UnitId>)
    requires unit.None? || unit == Some(0)
    ensures UnitsOk(Nagging(id)) && !NoneLeft(unit, Nagging(id)) && NagsFor(NAGS)
    ensures exists noticed :: RoundOn(NO_DEPS, unit, Nagging(id), 0, NAGS, noticed, Nagging(id))
  {
    var units := Nagging(id);
    NaggingIsOk(id);
    var tried := units[0 := TryUnit(units[0], true, Again)];
    NaggedOnce(id, tried);
    assert IsGreatest(0, ReadySet(units));
    assert RoundOn(NO_DEPS, unit, units, 0, NAGS, units, units);
  }

  lemma NaggingIsOk(id: nat)
    ensures UnitsOk(Nagging(id)) && ReadySet(Nagging(id)) == {0}
    ensures HasNext(Nagging(id)[0]) && Triable(Nagging(id)[0]) && Runnable(NO_DEPS, Nagging(id), 0)
  {
    assert Canon({}) == [];
  }

  lemma NaggedOnce(id: nat, tried: Units)
    requires Triable(Nagging(id)[0]) && tried == Nagging(id)[0 := TryUnit(Nagging(id)[0], true, Again)]
    ensures Noticed(NO_DEPS, tried, NAGS.notice, Nagging(id))
  {
    var n := NAGS.notice.value;
    assert Resumed(tried, {0}, Nagging(id));
    PausedFinished(NO_DEPS, tried, n, Nagging(id));
  }

  // ---------------------------------------------------------------- a turn that is lost

  /** Two units whose Stops were under way at a crash. */
  function BothStopping(): Units {
    map[0 := Underway(1, 0, Stop).(retrigger := true, ready := true, upReady := true),
        1 := Underway(2, 1, Stop).(retrigger := true, ready := true, upReady := true)]
  }

  /** While the first is run again, it is announced that the second is down. */
  const ANNOUNCES := Action(Ok, Some(Notice(1, UnitInActive, false)))

  function OneStopping(): Units {
    map[0 := Underway(1, 0, Stop)]
  }

  /** When the turn of the second comes, it is not ready, and the engine asserts that it is. */
  lemma TurnIsLost()
    ensures UnitsOk(BothStopping()) && AllRearmed(BothStopping()) && ReadySet(BothStopping()) == {0, 1}
    ensures exists noticed :: RoundOn(NO_DEPS, Some(0), BothStopping(), 0, ANNOUNCES, noticed, OneStopping())
    ensures NoneLeft(Some(0), OneStopping()) && NoneLeft(Some(1), OneStopping())
  {
    BothAreOk();
    SecondIsAnnounced();
  }

  lemma BothAreOk()
    ensures UnitsOk(BothStopping()) && AllRearmed(BothStopping()) && ReadySet(BothStopping()) == {0, 1}
  {
    assert Canon({}) == [];
  }

  lemma FirstMayRun()
    ensures var s := BothStopping()[0]; HasNext(s) && Triable(s) && Runnable(NO_DEPS, BothStopping(), 0)
  {
  }

  lemma SecondIsAnnounced()
    requires UnitsOk(BothStopping()) && ReadySet(BothStopping()) == {0, 1}
    ensures RoundOn(NO_DEPS, Some(0), BothStopping(), 0, ANNOUNCES, OneStopping(), OneStopping())
  {
    FirstMayRun();
    var tried := BothStopping()[0 := TryUnit(BothStopping()[0], true, Ok)];
    SecondIsEnded(tried);
    assert 0 in ReadySet(BothStopping());
  }

  lemma SecondIsEnded(tried: Units)
    requires Triable(BothStopping()[0]) && tried == BothStopping()[0 := TryUnit(BothStopping()[0], true, Ok)]
    ensures Noticed(NO_DEPS, tried, ANNOUNCES.notice, OneStopping())
  {
    var n := ANNOUNCES.notice.value;
    assert TryUnit(BothStopping()[0], true, Ok) == Underway(1, 0, Stop);
    assert Suggested(tried, n) == Some(Done);
    assert IsEmpty(Rest(FinishTrigger(tried[1], Done)));
    assert tried - {1} == OneStopping();
    assert EndedTo(NO_DEPS, tried, 1, Done, OneStopping());
    assert FinishedAs(NO_DEPS, tried, n, OneStopping(), {}, OneStopping());
  }

  // ---------------------------------------------------------------- a notice without an answer

  /** The first notice about a paused unit resumes it, whatever its job. A second one that comes
      in before the unit is dispatched again has an answer for all jobs but a Verify and a Nop. */
  lemma SecondNotice(units: Units, n: Notice, now: Units)
    requires UnitsOk(units) && n.unit in units && units[n.unit].trigger.Some? && units[n.unit].pause
    requires Resumed(units, {n.unit}, now)
    ensures MayFinish(units, n) && Suggested(units, n).None?
    ensures MayFinish(now, n) <==> units[n.unit].trigger.value.kind !in {Verify, Nop}
  {
    ResumeStep(units[n.unit]);
    assert RunKindOk(units[n.unit].trigger.value);
  }

  /** A Verify of a unit that is still being activated gets there. */
  lemma VerifyHasNoAnswer(id: nat, u: UnitId, n: Notice, now: Units)
    requires n.unit == u && Resumed(map[u := TryUnit(Fresh(id, u, Verify), true, Again)], {u}, now)
    ensures UnitInv(TryUnit(Fresh(id, u, Verify), true, Again)) && !MayFinish(now, n)
  {
  }
}
