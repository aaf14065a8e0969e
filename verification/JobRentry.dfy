/** The two persistent tables of the job engine (core/bin/job/rentry.rs), and the transitions
    of a job that write them (core/bin/job/entry.rs). */
module JobRentry {
  import opened JobTypes
  import opened JobStore
  import opened ReliStore

  class JobRe {
    const trigger: ReDb<UnitId, TrigData>
    const suspends: ReDb<SuspKey, JobAttr>

    ghost predicate Valid()
      reads trigger, suspends
    {
      trigger.Valid() && suspends.Valid()
    }

    /** What a reader sees. */
    function View(): JobDb
      reads trigger, suspends
    {
      JobDb(Rows(trigger.ignore, trigger.cache), Rows(suspends.ignore, suspends.cache))
    }

    constructor (trigger: ReDb<UnitId, TrigData>, suspends: ReDb<SuspKey, JobAttr>)
      ensures this.trigger == trigger && this.suspends == suspends
    {
      this.trigger := trigger;
      this.suspends := suspends;
    }

    method TriggerInsert(unit: UnitId, kind: JobKind, attr: JobAttr)
      requires Valid() && IsBasicOp(kind)
      modifies trigger`cache, trigger`add, trigger`del
      ensures Valid() && View() == old(View()).(trigger := old(View()).trigger.Insert(unit, TrigData(kind, attr)))
    {
      trigger.Insert(unit, TrigData(kind, attr));
    }

    method TriggerRemove(unit: UnitId)
      requires Valid()
      modifies trigger
      ensures Valid() && View() == old(View()).(trigger := old(View()).trigger.Remove(unit))
    {
      trigger.Remove(unit);
    }

    method SuspendsInsert(unit: UnitId, kind: JobKind, attr: JobAttr)
      requires Valid() && IsBasicOp(kind)
      modifies suspends
      ensures Valid() && View() == old(View()).(suspends := old(View()).suspends.Insert(SuspKey(unit, kind), attr))
    {
      suspends.Insert(SuspKey(unit, kind), attr);
    }

    method SuspendsRemove(unit: UnitId, kind: JobKind)
      requires Valid()
      modifies suspends
      ensures Valid() && View() == old(View()).(suspends := old(View()).suspends.Remove(SuspKey(unit, kind)))
    {
      suspends.Remove(SuspKey(unit, kind));
    }

    // -------------------------------------------------------------- `Job`

    method Wait(job: Job) returns (job': Job)
      requires Valid() && job.stage == Init && IsBasicOp(job.kind)
      modifies suspends
      ensures job' == WaitJob(job)
      ensures Valid() && View() == WaitDb(old(View()), job)
    {
      job' := job.(stage := JobStage.Wait);
      SuspendsInsert(job'.unit, job'.kind, job'.attr);
    }

    method MergeAttribute(job: Job, other: Job) returns (job': Job)
      requires Valid() && job.stage == JobStage.Wait && job.kind == other.kind && IsBasicOp(job.kind)
      modifies suspends
      ensures job' == MergeAttr(job, other)
      ensures Valid() && View() == MergeAttrDb(old(View()), job, other)
    {
      job' := job.(attr := job.attr.Or(other.attr));
      SuspendsInsert(job'.unit, job'.kind, job'.attr);
    }

    /** `Job::run` up to the action on the unit. */
    method Run(job: Job) returns (job': Job)
      requires Valid() && IsLive(job) && IsBasicOp(job.kind)
      modifies trigger, suspends
      ensures job' == RunJob(job)
      ensures Valid() && View() == RunDb(old(View()), job)
    {
      job' := job.(stage := Running);
      if job.stage == JobStage.Wait {
        SuspendsRemove(job.unit, job.kind);
        TriggerInsert(job.unit, job.kind, job.attr);
      }
    }

    method Finish(job: Job, result: JobResult) returns (job': Job, retry: bool)
      requires Valid() && IsLive(job)
      modifies trigger, suspends
      ensures job' == FinishJob(job, result) && retry == IsRetry(job, result)
      ensures Valid() && View() == FinishDb(old(View()), job, result)
    {
      retry := false;
      job' := job;
      if result == Done {
        var last := job.runKind;
        job' := job.(runKind := RkindMap(job.kind, last));
        retry := job'.runKind != last;
      }
      if retry {
        job' := job'.(stage := Running);
      } else {
        job' := job'.(stage := End(result));
        if job.stage == JobStage.Wait {
          SuspendsRemove(job.unit, job.kind);
        } else {
          TriggerRemove(job.unit);
        }
      }
    }
  }

  // ---------------------------------------------------------------- registration

  const TRIGGER_DB := "jtrigger"
  const SUSPENDS_DB := "jsuspends"

  /** The tables keyed by unit, and those keyed by unit and kind. */
  type JobHistory = ReliHistory<UnitId, TrigData, SuspKey, JobAttr>

  /** Both tables of the job engine are known to the history. */
  ghost predicate KnownTo(re: JobRe, history: JobHistory)
    reads history.some, history.others
  {
    && TRIGGER_DB in history.some.dbs && history.some.dbs[TRIGGER_DB] == re.trigger
    && SUSPENDS_DB in history.others.dbs && history.others.dbs[SUSPENDS_DB] == re.suspends
  }

  /** What the database holds for the job engine. */
  function DurableDb(
      triggers: map<string, map<UnitId, TrigData>>, suspends: map<string, map<SuspKey, JobAttr>>): JobDb
  {
    JobDb(Rows(false, if TRIGGER_DB in triggers then triggers[TRIGGER_DB] else map[]),
          Rows(false, if SUSPENDS_DB in suspends then suspends[SUSPENDS_DB] else map[]))
  }

  /** A new process: a table is created empty, and registered. */
  method OpenTable<K(==), V(==)>(durable: map<string, map<K, V>>, name: string)
      returns (tables: ReliTables<K, V>, db: ReDb<K, V>)
    ensures fresh(tables) && fresh(db) && tables.Registered() && tables.repr == {db}
    ensures tables.dbs == map[name := db] && !db.ignore
    ensures tables.durable == if name in durable then durable else durable[name := map[]]
  {
    db := new ReDb(name);
    tables := new ReliTables(durable);
    tables.Register(db);
  }

  /** `JobRe::new`, and everything read back. */
  method OpenJobRe(triggers: map<string, map<UnitId, TrigData>>, suspends: map<string, map<SuspKey, JobAttr>>)
      returns (history: JobHistory, re: JobRe)
    ensures fresh(history) && fresh(history.some) && fresh(history.others)
    ensures fresh(re) && fresh(re.trigger) && fresh(re.suspends)
    ensures history.some.repr == {re.trigger} && history.others.repr == {re.suspends}
    ensures history.Valid() && KnownTo(re, history) && re.Valid()
    ensures re.View() == DurableDb(triggers, suspends)
  {
    var some, trigger := OpenTable(triggers, TRIGGER_DB);
    var others, susp := OpenTable(suspends, SUSPENDS_DB);
    re := new JobRe(trigger, susp);
    history := new ReliHistory(some, others);
    history.Import();
  }
}
