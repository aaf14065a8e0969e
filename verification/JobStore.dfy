/** The rows a job keeps in the two persistent tables of core/bin/job/rentry.rs, and what
    each transition of a job (core/bin/job/entry.rs) does to the job and to those rows. */
module JobStore {
  import opened JobTypes

  /** What a reader of a `ReDb` sees: `ignore` switches recording off. */
  datatype Rows<K, V> = Rows(ignore: bool, rows: map<K, V>) {
    function Insert(k: K, v: V): Rows<K, V> {
      if ignore then this else Rows(ignore, rows[k := v])
    }

    function Remove(k: K): Rows<K, V> {
      if ignore then this else Rows(ignore, rows - {k})
    }

    function InsertAll(m: map<K, V>): Rows<K, V> {
      if ignore then this else Rows(ignore, rows + m)
    }

    function RemoveAll(ks: set<K>): Rows<K, V> {
      if ignore then this else Rows(ignore, rows - ks)
    }
  }

  datatype TrigData = TrigData(kind: JobKind, attr: JobAttr)

  datatype SuspKey = SuspKey(unit: UnitId, kind: JobKind)

  datatype JobDb = JobDb(trigger: Rows<UnitId, TrigData>, suspends: Rows<SuspKey, JobAttr>) {
    predicate Recording() {
      !trigger.ignore && !suspends.ignore
    }

    function SuspInsert(job: Job): JobDb {
      this.(suspends := suspends.Insert(SuspKey(job.unit, job.kind), job.attr))
    }

    function SuspRemove(job: Job): JobDb {
      this.(suspends := suspends.Remove(SuspKey(job.unit, job.kind)))
    }

    function TrigInsert(job: Job): JobDb {
      this.(trigger := trigger.Insert(job.unit, TrigData(job.kind, job.attr)))
    }

    function TrigRemove(job: Job): JobDb {
      this.(trigger := trigger.Remove(job.unit))
    }

    /** Drop the rows of some suspended kinds of one unit. */
    function SuspDrop(unit: UnitId, kinds: set<JobKind>): JobDb {
      this.(suspends := suspends.RemoveAll(set k | k in kinds :: SuspKey(unit, k)))
    }

    /** Write the rows of some suspended jobs of one unit. */
    function SuspPut(unit: UnitId, attrs: map<JobKind, JobAttr>): JobDb {
      this.(suspends := suspends.InsertAll(KeyRows(unit, attrs)))
    }
  }

  function KeyRows(unit: UnitId, attrs: map<JobKind, JobAttr>): (r: map<SuspKey, JobAttr>)
    ensures forall k :: k in r <==> k.unit == unit && k.kind in attrs
    ensures forall k :: k in r ==> r[k] == attrs[k.kind]
  {
    map k | k in (set x | x in attrs.Keys :: SuspKey(unit, x)) :: attrs[k.kind]
  }

  function WaitJob(job: Job): Job {
    job.(stage := Wait)
  }

  function WaitDb(db: JobDb, job: Job): JobDb {
    db.SuspInsert(WaitJob(job))
  }

  function MergeAttr(job: Job, other: Job): Job {
    job.(attr := job.attr.Or(other.attr))
  }

  function MergeAttrDb(db: JobDb, job: Job, other: Job): JobDb {
    db.SuspInsert(MergeAttr(job, other))
  }

  function RunJob(job: Job): Job {
    job.(stage := Running)
  }

  function RunDb(db: JobDb, job: Job): JobDb {
    if job.stage == Wait then db.SuspRemove(job).TrigInsert(job) else db
  }

  function FinishJob(job: Job, result: JobResult): Job {
    if IsRetry(job, result)
    then job.(runKind := RkindMap(job.kind, job.runKind), stage := Running)
    else job.(stage := End(result))
  }

  function FinishDb(db: JobDb, job: Job, result: JobResult): JobDb {
    if IsRetry(job, result) then db
    else if job.stage == Wait then db.SuspRemove(job)
    else db.TrigRemove(job)
  }

  /** A job that may still be run or finished. */
  predicate IsLive(job: Job) {
    job.stage == Wait || job.stage == Running
  }
}
