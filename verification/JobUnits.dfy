/** `JobUnitData` of core/bin/job/junit.rs: the jobs of one unit, updated in place. Each method
    is proved against the value-level operation of `UnitSpec`, and its assertions are proved
    from what `UnitInvariant` shows every caller to guarantee. */
module JobUnits {
  import opened Wrappers
  import opened JobTypes
  import opened JobStore
  import opened UnitSpec
  import opened UnitInvariant
  import opened Mirror
  import opened JobRentry

  const JOBUNIT_SQ_MUTOP_MAX_NUM := 1
  const JOBUNIT_SQ_MAX_NUM := 3

  /** The jobs of a unit are told apart by their kinds, so a list of them is a map. */
  ghost function Finished(m: map<JobKind, Job>, result: JobResult): map<JobKind, Job> {
    map k | k in m :: FinishJob(m[k], result)
  }

  class JobUnit {
    const unit: UnitId
    const re: JobRe

    var suspends: map<JobKind, Job>
    var trigger: Option<Job>

    var order: bool
    var sq: seq<JobKind>
    var interrupt: bool
    var retrigger: bool
    var dirty: bool
    var pause: bool
    var ready: bool
    var upReady: bool

    function State(): UnitState
      reads this
    {
      UnitState(unit, suspends, trigger, order, sq, interrupt, retrigger, dirty, pause, ready, upReady)
    }

    constructor (unit: UnitId, re: JobRe)
      ensures this.unit == unit && this.re == re && State() == NewUnit(unit)
    {
      this.unit, this.re := unit, re;
      suspends, trigger := map[], None;
      order, sq := true, [];
      interrupt, retrigger, dirty, pause, ready, upReady := false, false, false, false, false, false;
    }

    // -------------------------------------------------------------- readiness

    method NaturalReadyNow() returns (next: Option<bool>)
      requires State().order && (State().trigger.Some? <==> State().sq == []) ==> !interrupt
      ensures next == NaturalReady(State())
    {
      if !order {
        return None;
      }
      if trigger.Some? && sq != [] {
        return if interrupt then Some(true) else if retrigger then Some(false) else None;
      } else if trigger.Some? {
        assert !interrupt;
        return if retrigger then Some(false) else None;
      } else if sq != [] {
        assert !interrupt;
        return Some(true);
      }
      return None;
    }

    method CalcReadyNow() returns (next: Option<bool>)
      requires ReadyAsserts(State())
      ensures next == CalcReady(State())
    {
      if pause {
        return None;
      }
      next := NaturalReadyNow();
    }

    method UpdateReadyFlag()
      requires ReadyAsserts(State())
      modifies this`ready
      ensures State() == UpdateReady(old(State()))
    {
      var next := CalcReadyNow();
      ready := next.Some?;
    }

    // -------------------------------------------------------------- suspends

    method InsertSuspended(job: Job, operate: bool)
      requires re.Valid() && IsBasicOp(job.kind) && job.kind !in suspends
      requires trigger.Some? ==> trigger.value.id != job.id
      requires operate ==> job.stage == Init
      modifies this`suspends, this`order, this`dirty, this`ready, re.suspends
      ensures re.Valid()
      ensures State() == InsertSuspend(old(State()), if operate then WaitJob(job) else job)
      ensures re.View() == if operate then WaitDb(old(re.View()), job) else old(re.View())
    {
      suspends := suspends[job.kind := job];
      order := false;
      dirty := true;
      UpdateReadyFlag();
      if !operate {
        return;
      }
      var waiting := re.Wait(job);
      suspends := suspends[job.kind := waiting];
    }

    method RemoveSuspended(kind: JobKind, result: JobResult) returns (deleted: Option<Job>)
      requires re.Valid() && (kind in suspends ==> IsLive(suspends[kind]))
      modifies this`suspends, this`order, this`dirty, this`ready, re.trigger, re.suspends
      ensures re.Valid() && State() == RemoveSuspend(old(State()), kind)
      ensures deleted == if kind in old(suspends) then Some(FinishJob(old(suspends)[kind], result)) else None
      ensures re.View() == if kind in old(suspends) then FinishDb(old(re.View()), old(suspends)[kind], result)
                           else old(re.View())
    {
      deleted := if kind in suspends then Some(suspends[kind]) else None;
      suspends := suspends - {kind};
      order := false;
      dirty := true;
      UpdateReadyFlag();
      if deleted.Some? {
        var ended, _ := re.Finish(deleted.value, result);
        deleted := Some(ended);
      }
    }

    method FlushSuspended() returns (deleted: map<JobKind, Job>)
      requires re.Valid() && SuspendsOk(unit, suspends)
      modifies this`suspends, this`order, this`dirty, this`ready, re.trigger, re.suspends
      ensures re.Valid() && State() == FlushSuspends(old(State()))
      ensures deleted == Finished(old(suspends), Cancelled)
      ensures re.View() == old(re.View()).SuspDrop(unit, old(suspends.Keys))
    {
      var jobs := suspends;
      suspends := map[];
      order := false;
      dirty := true;
      UpdateReadyFlag();
      deleted := FinishAll(jobs, Cancelled);
    }

    /** Finish waiting jobs that have been taken out of the unit. */
    method FinishAll(jobs: map<JobKind, Job>, result: JobResult) returns (ended: map<JobKind, Job>)
      requires re.Valid() && result != Done
      requires forall k :: k in jobs ==> jobs[k].kind == k && jobs[k].unit == unit && jobs[k].stage == Wait
      modifies re.trigger, re.suspends
      ensures re.Valid() && ended == Finished(jobs, result)
      ensures re.View() == old(re.View()).SuspDrop(unit, jobs.Keys)
    {
      var rest := jobs.Keys;
      ended := map[];
      ghost var db := re.View();
      DropNone(db, unit);
      while rest != {}
        invariant re.Valid() && forall k :: k in jobs <==> (k in rest) != (k in ended)
        invariant forall k :: k in ended ==> ended[k] == FinishJob(jobs[k], result)
        invariant re.View() == db.SuspDrop(unit, ended.Keys)
      {
        var k :| k in rest;
        var job, _ := re.Finish(jobs[k], result);
        DropOneMore(db, unit, ended, jobs[k], result, job);
        rest, ended := rest - {k}, ended[k := job];
      }
    }

    /** Flush on conflict, then union. */
    method MergeSuspended(other: JobUnit)
        returns (adds: seq<JobKind>, dels: map<JobKind, Job>, updates: seq<JobKind>)
      requires re.Valid() && other != this && other.unit == unit
      requires SuspendsOk(unit, suspends) && StageOk(unit, other.suspends)
      requires NotTrigger(trigger, other.suspends)
      modifies this`suspends, this`order, this`dirty, this`ready, re.trigger, re.suspends
      ensures re.Valid() && State() == MergeSuspends(old(State()), other.suspends)
      ensures re.View() == MergeDb(old(re.View()), old(State()), other.suspends)
      ensures dels == if IsConflict(old(suspends).Keys + other.suspends.Keys) then Finished(old(suspends), Cancelled) else map[]
      ensures forall k :: k in adds <==> k in other.suspends && k !in Kept(old(State()), other.suspends)
      ensures forall k :: k in updates <==> k in other.suspends && k in Kept(old(State()), other.suspends)
    {
      dels := FlushOnConflict(other);
      ghost var base, attrs := State(), map[];
      adds, updates, attrs := UnionSuspended(other.suspends);
      MergeIsDone(old(State()), base, State(), other.suspends, attrs, adds, updates);
    }

    method FlushOnConflict(other: JobUnit) returns (dels: map<JobKind, Job>)
      requires re.Valid() && other != this && SuspendsOk(unit, suspends)
      modifies this`suspends, this`order, this`dirty, this`ready, re.trigger, re.suspends
      ensures re.Valid()
      ensures State() == if IsConflict(old(suspends).Keys + other.suspends.Keys) then FlushSuspends(old(State()))
                         else old(State())
      ensures re.View() == MergeBase(old(re.View()), old(State()), other.suspends)
      ensures dels == if IsConflict(old(suspends).Keys + other.suspends.Keys) then Finished(old(suspends), Cancelled)
                      else map[]
    {
      dels := map[];
      var conflict := IsConflictWith(other);
      if conflict {
        dels := FlushSuspended();
      }
    }

    /** Those of `theirs` that are in `attrs` have been added or merged, and written. */
    ghost predicate Uniting(
        s: UnitState, db: JobDb, theirs: map<JobKind, Job>, attrs: map<JobKind, JobAttr>,
        adds: seq<JobKind>, updates: seq<JobKind>)
      reads this, re.trigger, re.suspends
    {
      && re.Valid() && re.View() == db.SuspPut(unit, attrs)
      && Merging(s.suspends, theirs, attrs, suspends, adds, updates)
      && (if adds == [] then order == s.order && dirty == s.dirty && ready == s.ready else !order && dirty && !ready)
    }

    /** Merge the attributes of the kinds that are there, add the others. */
    method UnionSuspended(theirs: map<JobKind, Job>)
        returns (adds: seq<JobKind>, updates: seq<JobKind>, ghost attrs: map<JobKind, JobAttr>)
      requires re.Valid() && SuspendsOk(unit, suspends) && StageOk(unit, theirs)
      requires NotTrigger(trigger, theirs)
      modifies this`suspends, this`order, this`dirty, this`ready, re.suspends
      ensures Uniting(old(State()), old(re.View()), theirs, attrs, adds, updates)
      ensures forall k :: k in theirs <==> k in attrs
    {
      var rest := theirs.Keys;
      adds, updates, attrs := [], [], map[];
      PutNone(re.View(), unit);
      while rest != {}
        invariant forall k :: k in theirs <==> (k in rest) != (k in attrs)
        invariant Uniting(old(State()), old(re.View()), theirs, attrs, adds, updates)
      {
        var k :| k in rest;
        adds, updates, attrs := UnionStep(old(State()), old(re.View()), theirs, attrs, adds, updates, k);
        rest := rest - {k};
      }
    }

    method UnionStep(
        ghost s: UnitState, ghost db: JobDb, theirs: map<JobKind, Job>, ghost attrs: map<JobKind, JobAttr>,
        adds: seq<JobKind>, updates: seq<JobKind>, k: JobKind)
        returns (adds': seq<JobKind>, updates': seq<JobKind>, ghost attrs': map<JobKind, JobAttr>)
      requires k in theirs && k !in attrs && Uniting(s, db, theirs, attrs, adds, updates)
      requires s.unit == unit && SuspendsOk(s.unit, s.suspends) && StageOk(unit, theirs)
      requires trigger.Some? ==> theirs[k].id != trigger.value.id
      modifies this`suspends, this`order, this`dirty, this`ready, re.suspends
      ensures Uniting(s, db, theirs, attrs', adds', updates')
      ensures forall x :: x in attrs' <==> x in attrs || x == k
    {
      assert k in s.suspends ==> SuspendOk(unit, k, s.suspends[k]);
      ghost var before := suspends;
      var job, added := UnionOne(theirs[k]);
      MergingStep(s.suspends, theirs, attrs, before, adds, updates, k, job);
      PutOneMore(db, unit, attrs, k, job.attr);
      adds' := if added then adds + [k] else adds;
      updates' := if added then updates else updates + [k];
      attrs' := attrs[k := job.attr];
    }

    method UnionOne(theirs: Job) returns (job: Job, added: bool)
      requires re.Valid() && IsBasicOp(theirs.kind) && theirs.unit == unit && theirs.stage == Init
      requires theirs.kind in suspends ==>
                 var ours := suspends[theirs.kind];
                 ours.stage == Wait && ours.kind == theirs.kind && ours.unit == unit
      requires trigger.Some? ==> theirs.id != trigger.value.id
      modifies this`suspends, this`order, this`dirty, this`ready, re.suspends
      ensures re.Valid() && added == (theirs.kind !in old(suspends))
      ensures job == if added then WaitJob(theirs) else MergeAttr(old(suspends)[theirs.kind], theirs)
      ensures suspends == old(suspends)[theirs.kind := job]
      ensures if added then !order && dirty && !ready
              else order == old(order) && dirty == old(dirty) && ready == old(ready)
      ensures re.View() == old(re.View()).(
                suspends := old(re.View()).suspends.Insert(SuspKey(unit, theirs.kind), job.attr))
    {
      added := theirs.kind !in suspends;
      if added {
        InsertSuspended(theirs, true);
      } else {
        var merged := re.MergeAttribute(suspends[theirs.kind], theirs);
        suspends := suspends[theirs.kind := merged];
      }
      job := suspends[theirs.kind];
    }

    // -------------------------------------------------------------- ordering

    /** Merge the redundant jobs away, order the others, and see whether the first of them
        interrupts the trigger. */
    method ReshuffleAll(active: bool) returns (merged: map<JobKind, Job>)
      requires re.Valid() && SuspendsOk(unit, suspends) && ReshuffleSafe(State(), active)
      modifies this`suspends, this`sq, this`order, this`interrupt, this`ready, re.trigger, re.suspends
      ensures re.Valid() && State() == Reshuffle(old(State()), active)
      ensures re.View() == ReshuffleDb(old(re.View()), old(State()), active)
      ensures merged == if old(order) then map[]
                        else Finished(old(suspends) - Unmerged(old(suspends.Keys), active), Merged)
    {
      var jobs := OrderSuspends(active);
      JobsMergeTriggerPrepare();
      UpdateReadyFlag();
      DropNone(re.View(), unit);
      merged := FinishAll(jobs, Merged);
    }

    method OrderSuspends(active: bool) returns (removed: map<JobKind, Job>)
      requires !order ==> QueueFits(Unmerged(suspends.Keys, active))
      modifies this`suspends, this`sq, this`order
      ensures State() == OrderQueue(old(State()), active)
      ensures removed == if old(order) then map[] else old(suspends) - Unmerged(old(suspends.Keys), active)
      ensures removed.Keys == if old(order) then {} else old(suspends.Keys) - Unmerged(old(suspends.Keys), active)
    {
      removed := map[];
      if !order {
        ghost var was := suspends;
        removed := JobsMergeSuspend(active);
        MergedAre(was, active);
        SqOrder();
        order := true;
      }
    }

    method JobsMergeSuspend(active: bool) returns (removed: map<JobKind, Job>)
      requires !order
      modifies this`suspends
      ensures suspends == map k | k in Unmerged(old(suspends.Keys), active) :: old(suspends)[k]
      ensures removed == map k | k in old(suspends) && IsMerged(old(suspends.Keys), active, k) :: old(suspends)[k]
    {
      removed := map[];
      if Stop !in suspends {
        var restart, start, reload := Restart in suspends, Start in suspends, Reload in suspends;
        if restart {
          removed := JobsSuspendsRemove(Start, removed);
          removed := JobsSuspendsRemove(Reload, removed);
        } else if start && reload {
          removed := JobsSuspendsRemove(if active then Start else Reload, removed);
        }
      }
    }

    method JobsSuspendsRemove(kind: JobKind, removed: map<JobKind, Job>) returns (removed': map<JobKind, Job>)
      modifies this`suspends
      ensures suspends == old(suspends) - {kind}
      ensures removed' == if kind in old(suspends) then removed[kind := old(suspends)[kind]] else removed
    {
      removed' := if kind in suspends then removed[kind := suspends[kind]] else removed;
      suspends := suspends - {kind};
    }

    method SqOrder()
      requires QueueFits(suspends.Keys)
      modifies this`sq
      ensures sq == Canon(suspends.Keys)
    {
      sq := [];
      if Stop !in suspends {
        SqOrderPushBack(Restart);
        SqOrderPushBack(Start);
        SqOrderPushBack(Reload);
        assert sq == MutOps(suspends.Keys);
        assert |sq| <= JOBUNIT_SQ_MUTOP_MAX_NUM;
        SqOrderPushBack(Verify);
        SqOrderPushBack(Nop);
        assert sq == Canon(suspends.Keys);
        assert |sq| <= JOBUNIT_SQ_MAX_NUM;
      } else {
        SqOrderPushBack(Stop);
      }
    }

    method SqOrderPushBack(kind: JobKind)
      modifies this`sq
      ensures sq == old(sq) + Opt(suspends.Keys, kind)
    {
      if kind in suspends {
        sq := sq + [kind];
      }
    }

    method JobsMergeTriggerPrepare()
      requires order
      modifies this`interrupt
      ensures State() == MarkInterrupt(old(State()))
    {
      if trigger.Some? && sq != [] {
        interrupt := sq[0] == Stop || sq[0] == Restart;
      }
    }

    method PauseIt()
      requires order
      modifies this`dirty, this`pause, this`ready
      ensures State() == Pause(old(State()))
    {
      dirty := true;
      pause := true;
      UpdateReadyFlag();
    }

    method ResumeIt()
      requires order && ReadyAsserts(State().(pause := false))
      modifies this`dirty, this`pause, this`ready
      ensures State() == Resume(old(State()))
    {
      dirty := true;
      pause := false;
      UpdateReadyFlag();
    }

    // -------------------------------------------------------------- the trigger

    method RetriggerTrigger()
      requires trigger.Some? && order && ReadyAsserts(State().(retrigger := true))
      modifies this`retrigger, this`dirty, this`ready
      ensures State() == Retrigger(old(State()))
    {
      retrigger := true;
      dirty := true;
      UpdateReadyFlag();
    }

    method InsertTriggered(job: Job)
      requires trigger.None? && suspends == map[] && sq == [] && IsBasicOp(job.kind) && order && !interrupt
      modifies this`trigger, this`retrigger, this`dirty, this`ready
      ensures State() == InsertTrigger(old(State()), job)
    {
      trigger := Some(job);
      RetriggerTrigger();
      dirty := true;
      UpdateReadyFlag();
    }

    method FinishTriggered(result: JobResult) returns (deleted: Option<Job>)
      requires re.Valid() && FinishSafe(State(), result)
      modifies this`trigger, this`interrupt, this`retrigger, this`dirty, this`ready, re.trigger, re.suspends
      ensures re.Valid() && State() == FinishTrigger(old(State()), result)
      ensures re.View() == FinishDb(old(re.View()), old(trigger).value, result)
      ensures deleted == if IsRetry(old(trigger).value, result) then None
                         else Some(FinishJob(old(trigger).value, result))
    {
      var job, retry := re.Finish(trigger.value, result);
      deleted := EndTrigger(job, retry);
    }

    /** The trigger goes on with `job`, or goes. */
    method EndTrigger(job: Job, retry: bool) returns (deleted: Option<Job>)
      requires trigger.Some? && order && (retry ==> ReadyAsserts(State().(retrigger := true)))
      modifies this`trigger, this`interrupt, this`retrigger, this`dirty, this`ready
      ensures State() == if retry then Retrigger(old(State()).(trigger := Some(job)))
                         else UpdateReady(old(State()).(trigger := None, interrupt := false, retrigger := false, dirty := true))
      ensures deleted == if retry then None else Some(job)
    {
      if retry {
        trigger := Some(job);
        RetriggerTrigger();
        RefreshReady();
        return None;
      }
      var _ := TakeTrigger();
      RefreshReady();
      return Some(job);
    }

    method RefreshReady()
      requires ReadyAsserts(State())
      modifies this`dirty, this`ready
      ensures State() == UpdateReady(old(State()).(dirty := true))
    {
      dirty := true;
      UpdateReadyFlag();
    }

    method TakeTrigger() returns (taken: Option<Job>)
      modifies this`trigger, this`interrupt, this`retrigger
      ensures State() == old(State()).(trigger := None, interrupt := false, retrigger := false)
      ensures taken == old(trigger)
    {
      interrupt := false;
      retrigger := false;
      taken, trigger := trigger, None;
    }

    /** Take the next trigger, and with it the one that it interrupts. */
    method DoNextTrigger() returns (next: Job, replaced: Option<Job>)
      requires RunSafe(State()) && ReadyAsserts(NextState(State()))
      modifies this`suspends, this`trigger, this`sq, this`interrupt, this`retrigger, this`dirty, this`ready
      ensures State() == NextState(old(State()))
      ensures trigger == Some(next) && replaced == Replaced(old(State()))
    {
      if !interrupt && trigger.Some? {
        assert retrigger;
        next, replaced := trigger.value, None;
        retrigger := false;
      } else {
        assert sq != [];
        replaced := None;
        if interrupt {
          replaced := TakeTrigger();
        }
        next := suspends[sq[0]];
        trigger := Some(next);
        sq := sq[1..];
        suspends := suspends - {next.kind};
      }
      dirty := true;
      UpdateReadyFlag();
    }

    /** Finish the replaced trigger first, then run the new one. `outcome` is what the action
        on the unit reports. */
    method DoTrigger(outcome: Outcome) returns (info: Job, tend: Option<JobResult>, replaced: Option<Job>)
      requires re.Valid() && RunSafe(State()) && ReadyAsserts(NextState(State()))
      requires CalcReady(State()).value ==> IsBasicOp(State().sq[0])
      requires !CalcReady(State()).value ==> IsBasicOp(trigger.value.kind)
      modifies this, re.trigger, re.suspends
      ensures re.Valid() && State() == TriggerState(old(State()), outcome)
      ensures re.View() == TriggerDb(old(re.View()), NextState(old(State())).trigger.value, Replaced(old(State())))
      ensures info == NextState(old(State())).trigger.value && replaced == Replaced(old(State()))
      ensures tend == if outcome.Ended? then Some(outcome.result) else None
    {
      info, replaced := DoNextTrigger();
      var job := RunReplacing(info, replaced);
      trigger := Some(job);
      tend := if outcome.Ended? then Some(outcome.result) else None;
      if !outcome.Again? {
        return;
      }
      PauseIt();
      RetriggerTrigger();
    }

    /** The job that is pushed out is finished before the next one is run. */
    method RunReplacing(next: Job, replaced: Option<Job>) returns (job: Job)
      requires re.Valid() && IsLive(next) && IsBasicOp(next.kind) && (replaced.Some? ==> IsLive(replaced.value))
      requires replaced.Some? && replaced.value.kind == next.kind ==> next.stage == JobStage.Wait
      modifies re.trigger, re.suspends
      ensures re.Valid() && job == Triggered(next, replaced) && re.View() == TriggerDb(old(re.View()), next, replaced)
    {
      if replaced.None? {
        job := re.Run(next);
        return;
      }
      job := next;
      if replaced.value.kind == next.kind {
        job := re.MergeAttribute(next, replaced.value);
      }
      var _, _ := re.Finish(replaced.value, Merged);
      job := re.Run(job);
    }

    // -------------------------------------------------------------- queries

    /** Can the jobs of `other` take the place of ours? */
    method IsReplaceableWith(other: JobUnit) returns (may: bool)
      requires !IsConflict(suspends.Keys) && !IsConflict(other.suspends.Keys)
      ensures may <==> !IsConflict(suspends.Keys + other.suspends.Keys) || !IsIrreversible(State())
    {
      var stops := KindLen(Stop);
      var others := |suspends| - stops - KindLen(Nop);
      var oStops := other.KindLen(Stop);
      var oOthers := |other.suspends| - oStops - other.KindLen(Nop);
      CountOthers(suspends);
      CountOthers(other.suspends);
      assert HasOthers(suspends.Keys + other.suspends.Keys)
             <==> HasOthers(suspends.Keys) || HasOthers(other.suspends.Keys);
      if (others > 0 && oStops > 0) || (stops > 0 && oOthers > 0) {
        var irreversible := IsSuspendsIrreversible();
        may := !irreversible;
      } else {
        may := true;
      }
    }

    method IsSuspendsIrreversible() returns (irreversible: bool)
      ensures irreversible <==> IsIrreversible(State())
    {
      var rest := suspends.Keys;
      while rest != {}
        invariant rest <= suspends.Keys
        invariant forall k :: k in suspends && k !in rest ==> !suspends[k].attr.irreversible
      {
        var k :| k in rest;
        if suspends[k].attr.irreversible {
          return true;
        }
        rest := rest - {k};
      }
      return false;
    }

    /** May our next trigger run, as far as the jobs of `other` are concerned? */
    method IsNextTriggerOrderWith(other: JobUnit, atom: Atom) returns (ordered: bool)
      requires atom == Before || atom == After
      requires ready && other.order && ReadyAsserts(State())
      requires CalcReady(State()).Some? && (CalcReady(State()).value ==> sq[0] in suspends)
      ensures ordered <==> OrderedWith(NextTrigger(State()), other.State(), atom)
    {
      var front := CalcReadyNow();
      var job := if front.value then suspends[sq[0]] else trigger.value;
      if job.attr.ignoreOrder || job.kind == Nop {
        return true;
      }
      var rest := other.suspends.Keys;
      while rest != {}
        invariant rest <= other.suspends.Keys
        invariant forall k :: k in other.suspends && k !in rest ==> IsOrderWith(job, other.suspends[k], atom) <= 0
      {
        var k :| k in rest;
        if IsOrderWith(job, other.suspends[k], atom) > 0 {
          return false;
        }
        rest := rest - {k};
      }
      if other.trigger.Some? && IsOrderWith(job, other.trigger.value, atom) > 0 {
        return false;
      }
      return true;
    }

    /** Does a Stop on one side meet anything but a Nop on the other? */
    method IsConflictWith(other: JobUnit) returns (conflict: bool)
      ensures conflict <==> IsConflict(suspends.Keys + other.suspends.Keys)
    {
      var stops := KindLen(Stop);
      var others := |suspends| - stops - KindLen(Nop);
      var oStops := other.KindLen(Stop);
      var oOthers := |other.suspends| - oStops - other.KindLen(Nop);
      CountOthers(suspends);
      CountOthers(other.suspends);
      assert HasOthers(suspends.Keys + other.suspends.Keys)
             <==> HasOthers(suspends.Keys) || HasOthers(other.suspends.Keys);
      conflict := stops + oStops > 0 && others + oOthers > 0;
    }

    function KindLen(kind: JobKind): nat
      reads this`suspends
    {
      if kind in suspends then 1 else 0
    }
  }

  lemma CountOthers(suspends: map<JobKind, Job>)
    ensures |suspends| - (if Stop in suspends then 1 else 0) - (if Nop in suspends then 1 else 0) >= 0
    ensures |suspends| - (if Stop in suspends then 1 else 0) - (if Nop in suspends then 1 else 0) > 0
            <==> HasOthers(suspends.Keys)
  {
    var stops := if Stop in suspends then {Stop} else {};
    var nops := if Nop in suspends then {Nop} else {};
    var others := suspends.Keys - stops - nops;
    assert suspends.Keys == stops + nops + others;
    assert |suspends.Keys| == |stops| + |nops| + |others|;
    OthersOnly(others);
    assert HasOthers(others) <==> HasOthers(suspends.Keys);
  }

  lemma OthersOnly(kinds: set<JobKind>)
    requires Stop !in kinds && Nop !in kinds
    ensures |kinds| > 0 <==> HasOthers(kinds)
  {
    if kinds != {} {
      var k :| k in kinds;
      assert k.Start? || k.Reload? || k.Restart? || k.Verify? || k.TryReload? || k.TryRestart? || k.ReloadOrStart?;
    }
  }

  /** Those of `theirs` that are in `attrs` have been merged into `ours`. */
  ghost predicate Merging(
      ours: map<JobKind, Job>, theirs: map<JobKind, Job>, attrs: map<JobKind, JobAttr>,
      now: map<JobKind, Job>, adds: seq<JobKind>, updates: seq<JobKind>)
  {
    && (forall k :: k in now <==> k in ours || k in attrs)
    && (forall k :: k in ours && k !in attrs ==> now[k] == ours[k])
    && (forall k :: k in attrs ==>
          && k in theirs && attrs[k] == now[k].attr
          && now[k] == if k in ours then MergeAttr(ours[k], theirs[k]) else WaitJob(theirs[k]))
    && (forall k :: k in adds <==> k in attrs && k !in ours)
    && (forall k :: k in updates <==> k in attrs && k in ours)
  }

  lemma MergingStep(
      ours: map<JobKind, Job>, theirs: map<JobKind, Job>, attrs: map<JobKind, JobAttr>,
      now: map<JobKind, Job>, adds: seq<JobKind>, updates: seq<JobKind>, k: JobKind, job: Job)
    requires k in theirs && k !in attrs && Merging(ours, theirs, attrs, now, adds, updates)
    requires job == if k in ours then MergeAttr(ours[k], theirs[k]) else WaitJob(theirs[k])
    ensures Merging(ours, theirs, attrs[k := job.attr], now[k := job],
                    if k in ours then adds else adds + [k], if k in ours then updates + [k] else updates)
  {
  }

  lemma MergingDone(
      ours: map<JobKind, Job>, theirs: map<JobKind, Job>, attrs: map<JobKind, JobAttr>,
      now: map<JobKind, Job>, adds: seq<JobKind>, updates: seq<JobKind>)
    requires Merging(ours, theirs, attrs, now, adds, updates)
    requires forall k :: k in theirs <==> k in attrs
    ensures now == MergedSuspends(ours, theirs)
    ensures attrs == AttrsOf(now, theirs.Keys)
    ensures adds == [] <==> theirs.Keys <= ours.Keys
  {
    if adds != [] {
      assert adds[0] in adds;
    }
  }

  lemma MergeIsDone(
      s: UnitState, base: UnitState, now: UnitState, theirs: map<JobKind, Job>, attrs: map<JobKind, JobAttr>,
      adds: seq<JobKind>, updates: seq<JobKind>)
    requires base == if IsConflict(s.suspends.Keys + theirs.Keys) then FlushSuspends(s) else s
    requires Merging(base.suspends, theirs, attrs, now.suspends, adds, updates)
    requires forall k :: k in theirs <==> k in attrs
    requires now == base.(suspends := now.suspends, order := now.order, dirty := now.dirty, ready := now.ready)
    requires if adds == [] then now.order == base.order && now.dirty == base.dirty && now.ready == base.ready
             else !now.order && now.dirty && !now.ready
    ensures now == MergeSuspends(s, theirs) && base.suspends == Kept(s, theirs)
    ensures attrs == AttrsOf(MergedSuspends(Kept(s, theirs), theirs), theirs.Keys)
  {
    MergingDone(base.suspends, theirs, attrs, now.suspends, adds, updates);
    UnionIsMerge(s, base, now, theirs, adds);
  }

  lemma UnionIsMerge(s: UnitState, base: UnitState, now: UnitState, theirs: map<JobKind, Job>, adds: seq<JobKind>)
    requires base == if IsConflict(s.suspends.Keys + theirs.Keys) then FlushSuspends(s) else s
    requires adds == [] <==> theirs.Keys <= base.suspends.Keys
    requires now.suspends == MergedSuspends(base.suspends, theirs)
    requires now == base.(suspends := now.suspends, order := now.order, dirty := now.dirty, ready := now.ready)
    requires if adds == [] then now.order == base.order && now.dirty == base.dirty && now.ready == base.ready
             else !now.order && now.dirty && !now.ready
    ensures now == MergeSuspends(s, theirs)
  {
  }

  lemma MergedAre(suspends: map<JobKind, Job>, active: bool)
    ensures (map k | k in suspends && IsMerged(suspends.Keys, active, k) :: suspends[k])
            == suspends - Unmerged(suspends.Keys, active)
  {
  }

  lemma PutNone(db: JobDb, unit: UnitId)
    ensures db.SuspPut(unit, map[]) == db
  {
  }

  lemma PutOneMore(db: JobDb, unit: UnitId, attrs: map<JobKind, JobAttr>, k: JobKind, attr: JobAttr)
    ensures db.SuspPut(unit, attrs[k := attr])
            == db.SuspPut(unit, attrs).(suspends := db.SuspPut(unit, attrs).suspends.Insert(SuspKey(unit, k), attr))
  {
    assert KeyRows(unit, attrs[k := attr]) == KeyRows(unit, attrs)[SuspKey(unit, k) := attr];
    PlusUpdate(db.suspends.rows, KeyRows(unit, attrs), SuspKey(unit, k), attr);
  }

  lemma PlusUpdate<K, V>(m: map<K, V>, n: map<K, V>, k: K, v: V)
    ensures m + n[k := v] == (m + n)[k := v]
  {
  }

  lemma DropNone(db: JobDb, unit: UnitId)
    ensures db.SuspDrop(unit, {}) == db
  {
  }

  lemma DropOneMore(db: JobDb, unit: UnitId, done: map<JobKind, Job>, job: Job, result: JobResult, ended: Job)
    requires job.unit == unit && job.stage == Wait && result != Done
    ensures FinishDb(db.SuspDrop(unit, done.Keys), job, result) == db.SuspDrop(unit, done[job.kind := ended].Keys)
  {
  }
}
