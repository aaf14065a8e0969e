/** After a crash (core/bin/job/manager.rs, core/lib/rel/api.rs): the rows are compensated for
    what may have been under way, and the whole job table is rebuilt from them. */
module Recovery {
  import opened Wrappers
  import opened JobTypes
  import opened JobStore
  import opened UnitSpec
  import opened UnitInvariant
  import opened Mirror
  import opened TableSpec
  import opened TableIds
  import opened CommitIds
  import opened JobTables
  import opened JobAllocs
  import opened JobRentry

  // ---------------------------------------------------------------- compensation

  /** `job_merge_trigger_iskeep` */
  predicate IsKept(kind: JobKind)
    requires IsBasicOp(kind)
  {
    kind == Stop || kind == Verify || kind == Nop
  }

  /** What a trigger's row becomes: what may have been half started is to be restarted, in any
      order and for good, and its failure no longer concerns its followers. */
  function MergeRow(row: Option<TrigData>, force: bool): TrigData
    requires row.Some? ==> IsBasicOp(row.value.kind)
  {
    var was := if row.Some? then row.value else TrigData(Restart, JobAttr(true, true, force, true));
    TrigData(if IsKept(was.kind) then was.kind else Restart,
             JobAttr(true, true, force, !IsKept(was.kind)).Or(was.attr))
  }

  function RowOf(rows: map<UnitId, TrigData>, u: UnitId): Option<TrigData> {
    if u in rows then Some(rows[u]) else None
  }

  predicate BasicRows(rows: map<UnitId, TrigData>) {
    forall u :: u in rows ==> IsBasicOp(rows[u].kind)
  }

  /** The row of a unit after compensation: all triggers first, then the last unit's. */
  function CompensatedRow(row: Option<TrigData>, isLast: bool): Option<TrigData>
    requires row.Some? ==> IsBasicOp(row.value.kind)
  {
    var first := if row.Some? then Some(MergeRow(row, false)) else None;
    if isLast then Some(MergeRow(first, true)) else first
  }

  ghost predicate Compensated(rows: map<UnitId, TrigData>, last: Option<UnitId>, now: map<UnitId, TrigData>)
    requires BasicRows(rows)
  {
    forall u: UnitId :: RowOf(now, u) == CompensatedRow(RowOf(rows, u), last == Some(u))
  }

  /** Merging a row again changes nothing, and neither does merging it without force after it
      has been merged with force. */
  lemma MergeRowTwice(row: Option<TrigData>, force: bool, again: bool)
    requires row.Some? ==> IsBasicOp(row.value.kind)
    ensures IsBasicOp(MergeRow(row, force).kind)
    ensures (again ==> force) ==> MergeRow(Some(MergeRow(row, force)), again) == MergeRow(row, force)
  {
  }

  /** A crash during recovery does no harm: compensating again gives the same rows. */
  lemma CompensatedTwice(
      rows: map<UnitId, TrigData>, last: Option<UnitId>, now: map<UnitId, TrigData>, again: map<UnitId, TrigData>)
    requires BasicRows(rows) && Compensated(rows, last, now)
    ensures BasicRows(now)
    ensures Compensated(now, last, again) ==> again == now
  {
    forall u | u in now
      ensures IsBasicOp(now[u].kind)
    {
      assert RowOf(now, u) == CompensatedRow(RowOf(rows, u), last == Some(u));
    }
    if Compensated(now, last, again) {
      forall u: UnitId
        ensures RowOf(again, u) == RowOf(now, u)
      {
        assert RowOf(now, u) == CompensatedRow(RowOf(rows, u), last == Some(u));
        assert RowOf(again, u) == CompensatedRow(RowOf(now, u), last == Some(u));
      }
      SameRows(now, again);
    }
  }

  lemma SameRows(a: map<UnitId, TrigData>, b: map<UnitId, TrigData>)
    requires forall u: UnitId :: RowOf(b, u) == RowOf(a, u)
    ensures a == b
  {
    forall u: UnitId
      ensures u in a <==> u in b
      ensures u in a ==> a[u] == b[u]
    {
      assert RowOf(b, u) == RowOf(a, u);
    }
  }

  /** `rentry_trigger_merge` */
  method RentryTriggerMerge(re: JobRe, u: UnitId, force: bool)
    requires re.Valid() && BasicRows(re.trigger.cache)
    modifies re.trigger`cache, re.trigger`add, re.trigger`del
    ensures re.Valid() && re.View().suspends == old(re.View()).suspends
    ensures re.View().trigger == old(re.View()).trigger.Insert(u, MergeRow(RowOf(old(re.trigger.cache), u), force))
  {
    var row := re.trigger.Get(u);
    var merged := MergeRow(row, force);
    re.TriggerInsert(u, merged.kind, merged.attr);
  }

  method DbCompensate(re: JobRe, last: Option<UnitId>)
    requires re.Valid() && !re.trigger.ignore && BasicRows(re.trigger.cache)
    modifies re.trigger`cache, re.trigger`add, re.trigger`del
    ensures re.Valid() && re.View().suspends == old(re.View()).suspends && !re.trigger.ignore
    ensures Compensated(old(re.trigger.cache), last, re.trigger.cache)
  {
    CompensateAll(re);
    if last.None? {
      return;
    }
    LastCompensated(old(re.trigger.cache), re.trigger.cache, last.value);
    MergeInto(re, last.value, true);
  }

  method MergeInto(re: JobRe, u: UnitId, force: bool)
    requires re.Valid() && !re.trigger.ignore && BasicRows(re.trigger.cache)
    modifies re.trigger`cache, re.trigger`add, re.trigger`del
    ensures re.Valid() && re.View().suspends == old(re.View()).suspends
    ensures re.trigger.cache == old(re.trigger.cache)[u := MergeRow(RowOf(old(re.trigger.cache), u), force)]
  {
    RentryTriggerMerge(re, u, force);
    assert re.trigger.cache == re.View().trigger.rows;
  }

  method CompensateAll(re: JobRe)
    requires re.Valid() && !re.trigger.ignore && BasicRows(re.trigger.cache)
    modifies re.trigger`cache, re.trigger`add, re.trigger`del
    ensures re.Valid() && re.View().suspends == old(re.View()).suspends
    ensures Compensated(old(re.trigger.cache), None, re.trigger.cache) && BasicRows(re.trigger.cache)
  {
    var rest := re.trigger.cache.Keys;
    ghost var rows := re.trigger.cache;
    while rest != {}
      invariant re.Valid() && re.View().suspends == old(re.View()).suspends
      invariant rest <= rows.Keys && BasicRows(re.trigger.cache)
      invariant forall u: UnitId :: RowOf(re.trigger.cache, u) ==
                  if u in rest then RowOf(rows, u) else CompensatedRow(RowOf(rows, u), false)
      decreases rest
    {
      var u :| u in rest;
      assert RowOf(re.trigger.cache, u) == RowOf(rows, u);
      MergeInto(re, u, false);
      rest := rest - {u};
    }
  }

  lemma LastCompensated(rows: map<UnitId, TrigData>, mid: map<UnitId, TrigData>, last: UnitId)
    requires BasicRows(rows) && Compensated(rows, None, mid) && BasicRows(mid)
    ensures Compensated(rows, Some(last), mid[last := MergeRow(RowOf(mid, last), true)])
  {
    var now := mid[last := MergeRow(RowOf(mid, last), true)];
    forall u: UnitId
      ensures RowOf(now, u) == CompensatedRow(RowOf(rows, u), u == last)
    {
      assert RowOf(mid, u) == CompensatedRow(RowOf(rows, u), false);
    }
  }

  // ---------------------------------------------------------------- rebuilding the units

  /** A unit that holds what its rows say, and has not been put in order yet. */
  predicate Raw(s: UnitState) {
    && SuspendsOk(s.unit, s.suspends) && TriggerOk(s.unit, s.trigger) && !IsEmpty(s)
    && s.dirty && !s.pause && !s.interrupt && !s.upReady && (s.retrigger <==> s.trigger.Some?)
    && (if s.suspends == map[] then s.order && s.sq == [] else !s.order)
    && AtFirst(s)
  }

  /** A Restart begins with its Stop phase, wherever it was at the crash. */
  predicate AtFirst(s: UnitState) {
    s.trigger.Some? ==>
      s.trigger.value.runKind == if s.trigger.value.kind == Restart then Stop else s.trigger.value.kind
  }

  ghost predicate AllAtFirst(units: Units) {
    forall u :: u in units ==> AtFirst(units[u])
  }

  /** The rows of `part` have been read back. */
  ghost predicate Mapped(units: Units, part: JobDb) {
    && part.Recording() && Mirrored(units, part)
    && forall u :: u in units ==> units[u].unit == u && Raw(units[u])
  }

  const NO_ROWS := JobDb(Rows(false, map[]), Rows(false, map[]))

  lemma NothingMapped()
    ensures Mapped(map[], NO_ROWS)
  {
  }

  lemma MapTrigger(units: Units, part: JobDb, conf: JobConf, id: nat, attr: JobAttr)
    requires Mapped(units, part) && conf.unit !in units && IsBasicOp(conf.kind)
    ensures var job := MappedJob(id, conf, Running, attr);
            Mapped(units[conf.unit := InsertTrigger(NewUnit(conf.unit), job)], part.TrigInsert(job))
  {
    var job := MappedJob(id, conf, Running, attr);
    assert MirrorUnit(Get(units, conf.unit), part);
    MirrorAt(units, part, conf.unit, InsertTrigger(NewUnit(conf.unit), job), part.TrigInsert(job));
  }

  lemma MapSuspend(units: Units, part: JobDb, conf: JobConf, id: nat, attr: JobAttr)
    requires Mapped(units, part) && IsBasicOp(conf.kind)
    ensures var job := MappedJob(id, conf, Wait, attr);
            Mapped(units[conf.unit := InsertSuspend(Get(units, conf.unit), job)], part.SuspInsert(job))
  {
    var job := MappedJob(id, conf, Wait, attr);
    var was := Get(units, conf.unit);
    assert MirrorUnit(was, part);
    RawGrows(was, job, conf.unit in units);
    MirrorAt(units, part, conf.unit, InsertSuspend(was, job), part.SuspInsert(job));
  }

  lemma RawGrows(was: UnitState, job: Job, known: bool)
    requires if known then Raw(was) else was == NewUnit(was.unit)
    requires job.unit == was.unit && SuspendOk(was.unit, job.kind, job)
    ensures Raw(InsertSuspend(was, job))
  {
    assert job.kind in InsertSuspend(was, job).suspends;
  }

  predicate RearmedAs(s: UnitState, s': UnitState) {
    !s'.pause && (s.trigger.Some? ==> Rearmed(s')) && AtFirst(s')
  }

  lemma RawRests(s: UnitState, active: bool)
    requires Raw(s) && Settled(s.suspends.Keys)
    ensures MayReshuffle(s, active) && MergesOf(s, active) == {}
    ensures RearmedAs(s, ReshuffleEntry(s, active))
  {
    SettledStaysSettled(s.suspends.Keys, s.suspends.Keys, active);
    assert forall k :: k in s.suspends ==> SuspendOk(s.unit, k, s.suspends[k]);
    if s.suspends == map[] {
      assert s.suspends.Keys == {} && Canon({}) == [];
      OrderedRests(s);
    } else {
      ReshuffleRests(s, active);
      OrderSettles(s, active);
    }
  }

  /** A table that can be filled: ids are unique, and known to the allocator. */
  ghost predicate Filling(jobs: JobTable, ja: JobAlloc)
    reads jobs, jobs.tUnit, ja
  {
    && jobs.tUnit.Indexed() && IdsOk(jobs.tUnit.tData, jobs.tId)
    && ja.Valid() && forall id :: id in jobs.tId ==> id in ja.ids
  }

  method MapTriggers(jobs: JobTable, ja: JobAlloc, rows: map<UnitId, TrigData>) returns (ghost part: JobDb)
    requires Filling(jobs, ja) && jobs.tUnit.tData == map[] && BasicRows(rows) && |ja.ids| + |rows| <= ID_NUM
    modifies jobs, jobs.tUnit`tData, jobs.tUnit`sync, ja
    ensures Filling(jobs, ja) && Mapped(jobs.tUnit.tData, part)
    ensures part == NO_ROWS.(trigger := Rows(false, rows)) && |ja.ids| == |old(ja.ids)| + |rows|
  {
    var rest := rows.Keys;
    part := NO_ROWS;
    NothingMapped();
    while rest != {}
      invariant Filling(jobs, ja) && Mapped(jobs.tUnit.tData, part) && rest <= rows.Keys
      invariant part.suspends.rows == map[] && part.trigger.rows == rows - rest
      invariant |ja.ids| + |rest| == |old(ja.ids)| + |rows|
      decreases rest
    {
      var u :| u in rest;
      var conf := JobConf(u, rows[u].kind);
      assert MirrorUnit(Get(jobs.tUnit.tData, u), part);
      MappedHas(jobs.tUnit.tData, part, u);
      MoreTriggers(rows, rest, u);
      ghost var units := jobs.tUnit.tData;
      jobs.RentryMapTrigger(ja, conf, rows[u].attr);
      MapTrigger(units, part, conf, ja.lastId, rows[u].attr);
      part := part.TrigInsert(MappedJob(ja.lastId, conf, Running, rows[u].attr));
      rest := rest - {u};
    }
    assert rows - {} == rows;
  }

  lemma MoreTriggers(rows: map<UnitId, TrigData>, rest: set<UnitId>, u: UnitId)
    requires u in rest && rest <= rows.Keys
    ensures (rows - rest)[u := rows[u]] == rows - (rest - {u}) && |rest - {u}| == |rest| - 1
  {
  }

  /** A unit is there only for rows that have been read. */
  lemma MappedHas(units: Units, part: JobDb, u: UnitId)
    requires Mapped(units, part) && part.suspends.rows == map[] && u !in part.trigger.rows
    ensures u !in units
  {
    assert MirrorUnit(Get(units, u), part);
    assert Get(units, u).suspends.Keys == {};
  }

  method MapSuspends(jobs: JobTable, ja: JobAlloc, trigger: map<UnitId, TrigData>, rows: map<SuspKey, JobAttr>)
    requires Filling(jobs, ja) && Mapped(jobs.tUnit.tData, NO_ROWS.(trigger := Rows(false, trigger)))
    requires |ja.ids| + |rows| <= ID_NUM && forall k :: k in rows ==> IsBasicOp(k.kind)
    modifies jobs, jobs.tUnit`tData, jobs.tUnit`sync, ja
    ensures Filling(jobs, ja) && Mapped(jobs.tUnit.tData, JobDb(Rows(false, trigger), Rows(false, rows)))
  {
    var rest := rows.Keys;
    ghost var part := NO_ROWS.(trigger := Rows(false, trigger));
    while rest != {}
      invariant Filling(jobs, ja) && Mapped(jobs.tUnit.tData, part) && rest <= rows.Keys
      invariant part == JobDb(Rows(false, trigger), Rows(false, rows - rest))
      invariant |ja.ids| + |rest| == |old(ja.ids)| + |rows|
      decreases rest
    {
      var k :| k in rest;
      var conf := JobConf(k.unit, k.kind);
      assert MirrorUnit(Get(jobs.tUnit.tData, k.unit), part);
      assert SuspKey(k.unit, k.kind) !in part.suspends.rows;
      MoreSuspends(rows, rest, k);
      ghost var units := jobs.tUnit.tData;
      jobs.RentryMapSuspend(ja, conf, rows[k]);
      MapSuspend(units, part, conf, ja.lastId, rows[k]);
      part := part.SuspInsert(MappedJob(ja.lastId, conf, Wait, rows[k]));
      rest := rest - {k};
    }
    assert rows - {} == rows;
  }

  lemma MoreSuspends(rows: map<SuspKey, JobAttr>, rest: set<SuspKey>, k: SuspKey)
    requires k in rest && rest <= rows.Keys
    ensures (rows - rest)[k := rows[k]] == rows - (rest - {k}) && |rest - {k}| == |rest| - 1
    ensures SuspKey(k.unit, k.kind) == k
  {
  }

  /** The rows are those of a table at rest, except for compensated triggers. */
  ghost predicate LeftBehind(was: Units, rows: JobDb) {
    && UnitsOk(was) && BasicRows(rows.trigger.rows)
    && forall u :: SuspMirror(u, Get(was, u).suspends, rows.suspends.rows)
  }

  lemma SameKinds(was: Units, rows: JobDb, units: Units, u: UnitId)
    requires LeftBehind(was, rows) && Mirrored(units, rows) && Keyed(units)
    ensures Get(units, u).suspends.Keys == Get(was, u).suspends.Keys && Settled(Get(units, u).suspends.Keys)
  {
  }

  /** `db_map`: the job table is rebuilt from the rows. Afterwards it mirrors the rows, which
      have not changed; no job has been merged; and every trigger is to be run again. */
  method DbMap(jobs: JobTable, ja: JobAlloc, active: set<UnitId>, ghost was: Units) returns (merged: set<Job>)
    requires Filling(jobs, ja) && jobs.tUnit.tData == map[] && jobs.tUnit.re.Recording()
    requires LeftBehind(was, jobs.tUnit.re)
    requires |ja.ids| + |jobs.tUnit.re.trigger.rows| + |jobs.tUnit.re.suspends.rows| <= ID_NUM
    modifies jobs, jobs.tUnit, ja
    ensures jobs.Live() && merged == {} && ja.Valid() && forall id :: id in jobs.tId ==> id in ja.ids
    ensures Mirrored(jobs.tUnit.tData, old(jobs.tUnit.re)) && jobs.tUnit.re == old(jobs.tUnit.re)
    ensures AllRearmed(jobs.tUnit.tData) && AllAtFirst(jobs.tUnit.tData)
  {
    var rows := jobs.tUnit.re;
    ghost var _ := MapTriggers(jobs, ja, rows.trigger.rows);
    LeftBehindBasic(was, rows);
    MapSuspends(jobs, ja, rows.trigger.rows, rows.suspends.rows);
    ghost var units := jobs.tUnit.tData;
    MappedRests(was, rows, units, active);
    merged := jobs.Reshuffle(active);
    ReshuffledMirrors(rows, units, active, merged, jobs.tUnit.tData);
    MirrorsAgree(jobs.tUnit.tData, rows, jobs.tUnit.re);
  }

  /** A table at rest determines its rows. */
  lemma MirrorsAgree(units: Units, db: JobDb, db': JobDb)
    requires Keyed(units) && Mirrored(units, db) && Mirrored(units, db') && db.Recording() && db'.Recording()
    ensures db' == db
  {
    forall u: UnitId
      ensures u in db.trigger.rows <==> u in db'.trigger.rows
      ensures u in db.trigger.rows ==> db.trigger.rows[u] == db'.trigger.rows[u]
    {
      assert MirrorUnit(Get(units, u), db) && MirrorUnit(Get(units, u), db');
    }
    forall k: SuspKey
      ensures k in db.suspends.rows <==> k in db'.suspends.rows
      ensures k in db.suspends.rows ==> db.suspends.rows[k] == db'.suspends.rows[k]
    {
      assert MirrorUnit(Get(units, k.unit), db) && MirrorUnit(Get(units, k.unit), db') && SuspKey(k.unit, k.kind) == k;
    }
    assert db'.trigger.rows == db.trigger.rows && db'.suspends.rows == db.suspends.rows;
  }

  lemma LeftBehindBasic(was: Units, rows: JobDb)
    requires LeftBehind(was, rows)
    ensures forall k :: k in rows.suspends.rows ==> IsBasicOp(k.kind)
  {
    forall k | k in rows.suspends.rows
      ensures IsBasicOp(k.kind)
    {
      assert SuspMirror(k.unit, Get(was, k.unit).suspends, rows.suspends.rows) && SuspKey(k.unit, k.kind) == k;
      GetInv(was, k.unit);
    }
  }

  lemma MappedRests(was: Units, rows: JobDb, units: Units, active: set<UnitId>)
    requires LeftBehind(was, rows) && Mapped(units, rows)
    ensures forall u :: u in units ==>
              MayReshuffle(units[u], u in active) && units[u].unit == u && MergesOf(units[u], u in active) == {}
    ensures forall u :: u in units ==> RearmedAs(units[u], ReshuffleEntry(units[u], u in active))
  {
    forall u | u in units
      ensures MayReshuffle(units[u], u in active) && MergesOf(units[u], u in active) == {}
      ensures RearmedAs(units[u], ReshuffleEntry(units[u], u in active))
    {
      SameKinds(was, rows, units, u);
      RawRests(units[u], u in active);
    }
  }

  lemma ReshuffledMirrors(rows: JobDb, units: Units, active: set<UnitId>, merged: set<Job>, now: Units)
    requires Mapped(units, rows) && ReshuffledUpTo(units, active, units.Keys, now)
    requires ReshuffleReport(units, active, units.Keys, merged)
    requires forall u :: u in units ==> MergesOf(units[u], u in active) == {}
    requires forall u :: u in units ==> RearmedAs(units[u], ReshuffleEntry(units[u], u in active))
    ensures merged == {} && Mirrored(now, rows)
    ensures AllRearmed(now) && AllAtFirst(now)
  {
    SomethingMerged(units, active, merged);
    forall u
      ensures MirrorUnit(Get(now, u), rows) && (u in now ==> RearmedAs(now[u], now[u]))
    {
      assert MirrorUnit(Get(units, u), rows);
      if u in units {
        NothingMerged(units[u], u in active);
        SameJobsMirror(units[u], ReshuffleEntry(units[u], u in active), rows);
      }
    }
  }

  lemma NothingMerged(s: UnitState, active: bool)
    requires MergesOf(s, active) == {}
    ensures var e := ReshuffleEntry(s, active);
            e.unit == s.unit && e.suspends == s.suspends && e.trigger == s.trigger
  {
    ReshuffleShape(s, active);
    MergesOfIs(s, active);
  }

  lemma MergesOfIs(s: UnitState, active: bool)
    ensures MergesOf(s, active) == {} ==>
              forall k :: k in s.suspends ==> !(s.dirty && !s.order && IsMerged(s.suspends.Keys, active, k))
  {
    if k :| k in s.suspends && s.dirty && !s.order && IsMerged(s.suspends.Keys, active, k) {
      assert FinishJob(s.suspends[k], Merged) in MergesOf(s, active);
    }
  }

  lemma SomethingMerged(units: Units, active: set<UnitId>, merged: set<Job>)
    requires ReshuffleReport(units, active, units.Keys, merged)
    ensures merged != {} ==> exists u :: u in units && MergesOf(units[u], u in active) != {}
  {
  }

  // ---------------------------------------------------------------- the round trip

  function RowFor(trigger: Option<Job>): Option<TrigData> {
    match trigger
    case None => None
    case Some(j) => Some(TrigData(j.kind, j.attr))
  }

  /** What comes back of a trigger. One that changes nothing by half, a Stop, a Verify or a Nop,
      is itself again; one that may have been half done is a Restart, whose failure does not
      concern its followers. Where the engine was last there is a Restart in any case. */
  predicate CameBack(was: Option<Job>, isLast: bool, now: Option<Job>) {
    && (now.Some? <==> was.Some? || isLast)
    && (was.None? && isLast ==> now.value.kind == Restart && now.value.attr == JobAttr(true, true, true, true))
    && (was.Some? ==> SameKindBack(was.value, now.value) && AttrBack(was.value.attr, isLast, now.value.attr))
  }

  predicate SameKindBack(was: Job, now: Job) {
    && (was.kind in {Stop, Verify, Nop} ==> now.kind == was.kind && now.attr.noRelevancy == was.attr.noRelevancy)
    && (was.kind in {Start, Reload, Restart} ==> now.kind == Restart && now.attr.noRelevancy)
  }

  /** No attribute is lost; only what was last handled gets force. */
  predicate AttrBack(was: JobAttr, isLast: bool, now: JobAttr) {
    now.ignoreOrder && now.irreversible && now.force == (was.force || isLast)
  }

  /** What survives of a unit: the same waiting jobs with the same attributes, and what comes
      back of the trigger that was under way. */
  predicate Restored(s: UnitState, isLast: bool, s': UnitState) {
    && s'.suspends.Keys == s.suspends.Keys
    && (forall k :: k in s.suspends ==> s'.suspends[k].attr == s.suspends[k].attr)
    && CameBack(s.trigger, isLast, s'.trigger)
  }

  lemma RowCameBack(was: Option<Job>, isLast: bool, now: Option<Job>)
    requires (was.Some? ==> IsBasicOp(was.value.kind)) && RowFor(now) == CompensatedRow(RowFor(was), isLast)
    ensures CameBack(was, isLast, now)
  {
  }

  ghost predicate AllRestored(units: Units, last: Option<UnitId>, now: Units) {
    forall u: UnitId :: Restored(Get(units, u), last == Some(u), Get(now, u))
  }

  lemma RestoredFromRows(units: Units, db: JobDb, last: Option<UnitId>, rows: JobDb, now: Units)
    requires UnitsOk(units) && Mirrored(units, db) && BasicRows(db.trigger.rows)
    requires rows.suspends == db.suspends && Compensated(db.trigger.rows, last, rows.trigger.rows)
    requires Keyed(now) && Mirrored(now, rows)
    ensures AllRestored(units, last, now)
  {
    forall u: UnitId
      ensures Restored(Get(units, u), last == Some(u), Get(now, u))
    {
      assert MirrorUnit(Get(units, u), db) && MirrorUnit(Get(now, u), rows);
      assert RowFor(Get(units, u).trigger) == RowOf(db.trigger.rows, u);
      assert RowFor(Get(now, u).trigger) == RowOf(rows.trigger.rows, u);
      assert RowOf(rows.trigger.rows, u) == CompensatedRow(RowOf(db.trigger.rows, u), last == Some(u));
      GetInv(units, u);
      RowCameBack(Get(units, u).trigger, last == Some(u), Get(now, u).trigger);
      SameRowsSameJobs(u, Get(units, u), Get(now, u), db.suspends.rows);
    }
  }

  lemma SameRowsSameJobs(u: UnitId, s: UnitState, s': UnitState, rows: map<SuspKey, JobAttr>)
    requires SuspMirror(u, s.suspends, rows) && SuspMirror(u, s'.suspends, rows)
    ensures s'.suspends.Keys == s.suspends.Keys
    ensures forall k :: k in s.suspends ==> s'.suspends[k].attr == s.suspends[k].attr
  {
  }

  /** The rows say of each trigger what a table at rest does. */
  lemma MirroredBasic(units: Units, db: JobDb)
    requires UnitsOk(units) && Mirrored(units, db)
    ensures BasicRows(db.trigger.rows)
  {
    forall u | u in db.trigger.rows
      ensures IsBasicOp(db.trigger.rows[u].kind)
    {
      assert MirrorUnit(Get(units, u), db);
      GetInv(units, u);
    }
  }

  lemma CompensatedLeaves(units: Units, db: JobDb, last: Option<UnitId>, rows: JobDb)
    requires UnitsOk(units) && Mirrored(units, db) && BasicRows(db.trigger.rows)
    requires rows.suspends == db.suspends && Compensated(db.trigger.rows, last, rows.trigger.rows)
    ensures LeftBehind(units, rows)
    ensures |rows.trigger.rows| <= |db.trigger.rows| + 1
  {
    forall u
      ensures SuspMirror(u, Get(units, u).suspends, rows.suspends.rows)
    {
      assert MirrorUnit(Get(units, u), db);
    }
    CompensatedIsBasic(db.trigger.rows, last, rows.trigger.rows);
    FewMoreRows(db.trigger.rows, last, rows.trigger.rows);
  }

  lemma CompensatedIsBasic(rows: map<UnitId, TrigData>, last: Option<UnitId>, now: map<UnitId, TrigData>)
    requires BasicRows(rows) && Compensated(rows, last, now)
    ensures BasicRows(now)
  {
    forall u | u in now
      ensures IsBasicOp(now[u].kind)
    {
      assert RowOf(now, u) == CompensatedRow(RowOf(rows, u), last == Some(u));
    }
  }

  lemma FewMoreRows(rows: map<UnitId, TrigData>, last: Option<UnitId>, now: map<UnitId, TrigData>)
    requires BasicRows(rows) && Compensated(rows, last, now)
    ensures |now| <= |rows| + 1
  {
    var more := if last.Some? then {last.value} else {};
    forall u | u in now
      ensures u in rows.Keys + more
    {
      assert RowOf(now, u) == CompensatedRow(RowOf(rows, u), last == Some(u));
    }
    assert now.Keys <= rows.Keys + more;
    SubsetSize(now.Keys, rows.Keys + more);
    assert |rows.Keys + more| <= |rows.Keys| + |more|;
    assert |now| == |now.Keys| && |rows| == |rows.Keys|;
  }

  /** The unit that was being handled last has a trigger, whether it had one before or not. */
  lemma LastIsThere(units: Units, rows: JobDb, was: map<UnitId, TrigData>, last: Option<UnitId>)
    requires BasicRows(was) && Compensated(was, last, rows.trigger.rows) && Keyed(units) && Mirrored(units, rows)
    ensures last.Some? ==> HasTrigger(units, last.value)
  {
    if last.Some? {
      assert RowOf(rows.trigger.rows, last.value) == CompensatedRow(RowOf(was, last.value), true);
      assert MirrorUnit(Get(units, last.value), rows);
    }
  }

  /** The database holds the rows of these units. */
  ghost predicate Keeps(history: JobHistory, units: Units)
    reads history.some, history.others
  {
    UnitsOk(units) && Mirrored(units, DurableDb(history.some.durable, history.others.durable))
  }

  predicate RoomFor(db: JobDb) {
    |db.trigger.rows| + 1 + |db.suspends.rows| <= ID_NUM
  }

  /** The last unit may have got a row that it did not have. */
  predicate AtMostOneMore(db: JobDb, now: JobDb) {
    now.suspends == db.suspends && |now.trigger.rows| <= |db.trigger.rows| + 1
  }

  /** `recover`: a new process reads the rows back, compensates and commits them, and rebuilds
      the job table. All that it has of the old one is what was durable. */
  method Recover(
      triggers: map<string, map<UnitId, TrigData>>, suspends: map<string, map<SuspKey, JobAttr>>,
      last: Option<UnitId>, active: set<UnitId>, ghost was: Units)
      returns (history: JobHistory, re: JobRe, jobs: JobTable, ja: JobAlloc)
    requires UnitsOk(was) && Mirrored(was, DurableDb(triggers, suspends)) && RoomFor(DurableDb(triggers, suspends))
    ensures fresh(history) && fresh(re) && fresh(jobs) && fresh(jobs.tUnit) && fresh(ja)
    ensures history.Valid() && KnownTo(re, history) && re.Valid()
    ensures jobs.Live() && jobs.tUnit.re == re.View() && Keeps(history, jobs.tUnit.tData)
    ensures AtMostOneMore(DurableDb(triggers, suspends), DurableDb(history.some.durable, history.others.durable))
    ensures ja.Valid() && forall id :: id in jobs.tId ==> id in ja.ids
    ensures AllRestored(was, last, jobs.tUnit.tData) && AllAtFirst(jobs.tUnit.tData)
    ensures AllRearmed(jobs.tUnit.tData) && (last.Some? ==> HasTrigger(jobs.tUnit.tData, last.value))
  {
    MirroredBasic(was, DurableDb(triggers, suspends));
    history, re := ReadBack(triggers, suspends, last);
    FewMoreRows(DurableDb(triggers, suspends).trigger.rows, last, re.View().trigger.rows);
    jobs, ja := Rebuild(DurableDb(triggers, suspends), re.View(), last, active, was);
  }

  method Rebuild(ghost db: JobDb, rows: JobDb, last: Option<UnitId>, active: set<UnitId>, ghost was: Units)
      returns (jobs: JobTable, ja: JobAlloc)
    requires UnitsOk(was) && Mirrored(was, db) && BasicRows(db.trigger.rows) && RoomFor(db) && rows.Recording()
    requires rows.suspends == db.suspends && Compensated(db.trigger.rows, last, rows.trigger.rows)
    ensures fresh(jobs) && fresh(jobs.tUnit) && fresh(ja)
    ensures jobs.Live() && jobs.tUnit.re == rows && ja.Valid() && forall id :: id in jobs.tId ==> id in ja.ids
    ensures AllRestored(was, last, jobs.tUnit.tData) && AllAtFirst(jobs.tUnit.tData)
    ensures AllRearmed(jobs.tUnit.tData) && (last.Some? ==> HasTrigger(jobs.tUnit.tData, last.value))
  {
    CompensatedLeaves(was, db, last, rows);
    jobs := new JobTable(rows);
    ja := new JobAlloc();
    var _ := DbMap(jobs, ja, active, was);
    RestoredFromRows(was, db, last, rows, jobs.tUnit.tData);
    LastIsThere(jobs.tUnit.tData, rows, db.trigger.rows, last);
  }

  /** `import` and `db_compensate`, with the commit at its end. */
  method ReadBack(
      triggers: map<string, map<UnitId, TrigData>>, suspends: map<string, map<SuspKey, JobAttr>>, last: Option<UnitId>)
      returns (history: JobHistory, re: JobRe)
    requires BasicRows(DurableDb(triggers, suspends).trigger.rows)
    ensures fresh(history) && fresh(history.some) && fresh(history.others)
    ensures fresh(re) && fresh(re.trigger) && fresh(re.suspends)
    ensures history.Valid() && KnownTo(re, history) && re.Valid()
    ensures re.View().Recording() && re.View() == DurableDb(history.some.durable, history.others.durable)
    ensures re.View().suspends == DurableDb(triggers, suspends).suspends
    ensures Compensated(DurableDb(triggers, suspends).trigger.rows, last, re.View().trigger.rows)
  {
    history, re := OpenJobRe(triggers, suspends);
    CompensateAndCommit(history, re, last);
  }

  method CompensateAndCommit(history: JobHistory, re: JobRe, last: Option<UnitId>)
    requires history.Valid() && KnownTo(re, history) && re.Valid() && re.View().Recording()
    requires history.some.repr == {re.trigger} && history.others.repr == {re.suspends}
    requires BasicRows(re.View().trigger.rows)
    modifies re.trigger, re.suspends, history.some`durable, history.others`durable
    ensures history.Valid() && re.Valid()
    ensures re.View().Recording() && re.View() == DurableDb(history.some.durable, history.others.durable)
    ensures re.View().suspends == old(re.View()).suspends
    ensures Compensated(old(re.View()).trigger.rows, last, re.View().trigger.rows)
  {
    DbCompensate(re, last);
    var _ := CommitRows(history, re, None);
  }

  /** A commit makes the rows durable, or changes nothing. */
  method CommitRows(history: JobHistory, re: JobRe, crash: Option<nat>) returns (committed: bool)
    requires history.Valid() && KnownTo(re, history) && re.View().Recording()
    modifies history.some`durable, history.others`durable
    modifies history.some.repr`add, history.some.repr`del, history.some.repr`base
    modifies history.others.repr`add, history.others.repr`del, history.others.repr`base
    ensures re.View() == old(re.View())
    ensures committed ==> history.Valid() && DurableDb(history.some.durable, history.others.durable) == old(re.View())
    ensures !committed ==>
              history.some.durable == old(history.some.durable) && history.others.durable == old(history.others.durable)
    ensures crash.None? ==> committed
  {
    committed := history.Commit(crash);
  }

  /** The engine commits its rows, and the process dies, perhaps before all tables have been
      exported. What the next process rebuilds is the job table as it is now, or else the one of
      the last commit, and never a mixture of the two. */
  method Reboot(
      history: JobHistory, re: JobRe, jobs: JobTable, ghost saved: Units, crash: Option<nat>, last: Option<UnitId>,
      active: set<UnitId>)
      returns (committed: bool, history': JobHistory, re': JobRe, jobs': JobTable, ja: JobAlloc)
    requires history.Valid() && KnownTo(re, history) && jobs.Live() && jobs.tUnit.re == re.View()
    requires Keeps(history, saved)
    requires RoomFor(DurableDb(history.some.durable, history.others.durable)) && RoomFor(re.View())
    modifies history.some`durable, history.others`durable
    modifies history.some.repr`add, history.some.repr`del, history.some.repr`base
    modifies history.others.repr`add, history.others.repr`del, history.others.repr`base
    ensures crash.None? ==> committed
    ensures history'.Valid() && KnownTo(re', history') && jobs'.Live() && jobs'.tUnit.re == re'.View()
    ensures Keeps(history', jobs'.tUnit.tData)
    ensures ja.Valid() && forall id :: id in jobs'.tId ==> id in ja.ids
    ensures AllRestored(if committed then old(jobs.tUnit.tData) else saved, last, jobs'.tUnit.tData)
    ensures AllAtFirst(jobs'.tUnit.tData)
    ensures AllRearmed(jobs'.tUnit.tData) && (last.Some? ==> HasTrigger(jobs'.tUnit.tData, last.value))
  {
    ghost var units := jobs.tUnit.tData;
    committed := Save(history, re, units, saved, crash);
    ghost var was := if committed then units else saved;
    history', re', jobs', ja := Recover(history.some.durable, history.others.durable, last, active, was);
  }

  /** What is durable after a commit that may not have come to its end. */
  method Save(history: JobHistory, re: JobRe, ghost units: Units, ghost saved: Units, crash: Option<nat>)
      returns (committed: bool)
    requires history.Valid() && KnownTo(re, history) && re.View().Recording()
    requires UnitsOk(units) && Mirrored(units, re.View()) && RoomFor(re.View())
    requires Keeps(history, saved) && RoomFor(DurableDb(history.some.durable, history.others.durable))
    modifies history.some`durable, history.others`durable
    modifies history.some.repr`add, history.some.repr`del, history.some.repr`base
    modifies history.others.repr`add, history.others.repr`del, history.others.repr`base
    ensures Keeps(history, if committed then units else saved)
    ensures RoomFor(DurableDb(history.some.durable, history.others.durable))
    ensures crash.None? ==> committed
  {
    committed := CommitRows(history, re, crash);
  }

  // ---------------------------------------------------------------- a crash during recovery

  /** The same jobs with the same attributes, waiting or under way. */
  predicate SameUnit(s: UnitState, s': UnitState) {
    && s'.suspends.Keys == s.suspends.Keys
    && (forall k :: k in s.suspends ==> s'.suspends[k].attr == s.suspends[k].attr)
    && RowFor(s'.trigger) == RowFor(s.trigger)
  }

  ghost predicate SameTable(units: Units, now: Units) {
    forall u: UnitId :: SameUnit(Get(units, u), Get(now, u))
  }

  /** What has been restored once is not changed by restoring it again. */
  lemma RestoredTwice(units: Units, last: Option<UnitId>, once: Units, twice: Units)
    requires UnitsOk(units) && UnitsOk(once) && AllRestored(units, last, once) && AllRestored(once, last, twice)
    ensures SameTable(once, twice) && AllRestored(units, last, twice)
  {
    forall u: UnitId
      ensures SameUnit(Get(once, u), Get(twice, u)) && Restored(Get(units, u), last == Some(u), Get(twice, u))
    {
      assert Restored(Get(units, u), last == Some(u), Get(once, u));
      assert Restored(Get(once, u), last == Some(u), Get(twice, u));
      UnitTwice(Get(units, u), last == Some(u), Get(once, u), Get(twice, u));
    }
  }

  lemma UnitTwice(s: UnitState, isLast: bool, once: UnitState, twice: UnitState)
    requires s.trigger.Some? ==> IsBasicOp(s.trigger.value.kind)
    requires Restored(s, isLast, once) && Restored(once, isLast, twice)
    ensures SameUnit(once, twice) && Restored(s, isLast, twice)
  {
  }

  method RecoverAgain(
      triggers: map<string, map<UnitId, TrigData>>, suspends: map<string, map<SuspKey, JobAttr>>,
      last: Option<UnitId>, active: set<UnitId>, ghost was: Units) returns (jobs: JobTable)
    requires UnitsOk(was) && Mirrored(was, DurableDb(triggers, suspends)) && RoomFor(DurableDb(triggers, suspends))
    ensures fresh(jobs) && fresh(jobs.tUnit)
    ensures jobs.Live() && AllRestored(was, last, jobs.tUnit.tData) && AllRearmed(jobs.tUnit.tData)
  {
    var history, re, ja;
    history, re, jobs, ja := Recover(triggers, suspends, last, active, was);
  }

  /** The process dies once more, after the compensated rows were committed and before anything
      else was: the next one rebuilds the same table, and it is what is left of the old one. */
  method RecoverTwice(
      triggers: map<string, map<UnitId, TrigData>>, suspends: map<string, map<SuspKey, JobAttr>>,
      last: Option<UnitId>, active: set<UnitId>, active': set<UnitId>, ghost was: Units)
      returns (once: JobTable, jobs: JobTable)
    requires UnitsOk(was) && Mirrored(was, DurableDb(triggers, suspends))
    requires |DurableDb(triggers, suspends).trigger.rows| + 2 + |DurableDb(triggers, suspends).suspends.rows| <= ID_NUM
    ensures once.Live() && jobs.Live() && AllRestored(was, last, jobs.tUnit.tData)
    ensures SameTable(once.tUnit.tData, jobs.tUnit.tData)
    ensures AllRearmed(jobs.tUnit.tData)
  {
    var history, re, ja;
    history, re, once, ja := Recover(triggers, suspends, last, active, was);
    ghost var first := once.tUnit.tData;
    jobs := RecoverAgain(history.some.durable, history.others.durable, last, active', first);
    RestoredTwice(was, last, first, jobs.tUnit.tData);
  }
}
