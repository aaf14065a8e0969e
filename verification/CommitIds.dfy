/** Committing a stage keeps the index of jobs by id exact, and the reported jobs account for
    every id that comes or goes (`JobTable::commit`, core/bin/job/table.rs). */
module CommitIds {
  import opened JobTypes
  import opened JobStore
  import opened UnitSpec
  import opened TableSpec
  import opened TableIds

  function IdsOf(jobs: set<Job>): set<nat> {
    set j | j in jobs :: j.id
  }

  function ConfOf(job: Job): JobConf {
    JobConf(job.unit, job.kind)
  }

  /** The new index is the old one with the added jobs and without the deleted ones. */
  ghost predicate Accounted(ids: map<nat, JobConf>, adds: set<Job>, dels: set<Job>, ids': map<nat, JobConf>) {
    && (forall id :: id in ids' <==> (id in ids || id in IdsOf(adds)) && id !in IdsOf(dels))
    && (forall id :: id in ids' && id !in IdsOf(adds) ==> ids'[id] == ids[id])
    && (forall j :: j in adds && j.id in ids' ==> ids'[j.id] == ConfOf(j))
  }

  lemma AccountedInTwo(
      ids: map<nat, JobConf>, adds: set<Job>, flushed: set<Job>, mid: map<nat, JobConf>, merged: set<Job>, now: map<nat, JobConf>)
    requires Accounted(ids, adds, flushed, mid) && Accounted(mid, {}, merged, now)
    ensures Accounted(ids, adds, flushed + merged, now)
  {
  }

  // ---------------------------------------------------------------- merging a stage

  /** The id of a job that makes room for a stage. */
  ghost predicate FlushesId(units: Units, stage: Units, ids: map<nat, JobConf>, id: nat) {
    id in ids &&
    var c := ids[id];
    && c.unit in stage && IsConflict(Get(units, c.unit).suspends.Keys + Theirs(stage, c.unit).Keys)
    && c.kind in Get(units, c.unit).suspends && Get(units, c.unit).suspends[c.kind].id == id
  }

  /** The id of a job of a stage that does not just update one of the table. */
  ghost predicate AddsId(units: Units, stage: Units, sids: map<nat, JobConf>, id: nat) {
    id in sids && sids[id].kind !in Kept(Get(units, sids[id].unit), Theirs(stage, sids[id].unit))
  }

  lemma FlushedIds(units: Units, stage: Units, ids: map<nat, JobConf>, adds: set<Job>, updates: set<Job>, dels: set<Job>, id: nat)
    requires UnitsOk(units) && IdsOk(units, ids) && MergeReport(units, stage, stage.Keys, adds, updates, dels)
    ensures id in IdsOf(dels) <==> FlushesId(units, stage, ids, id)
  {
    if id in IdsOf(dels) {
      var j :| j in dels && j.id == id;
      assert FlushedAt(Get(units, j.unit), Theirs(stage, j.unit), j);
      assert j.unit in units && IdsAt(units[j.unit], ids);
      assert SuspendOk(j.unit, j.kind, units[j.unit].suspends[j.kind]);
    }
    if FlushesId(units, stage, ids, id) {
      var c := ids[id];
      assert c.unit in units && SuspendOk(c.unit, c.kind, units[c.unit].suspends[c.kind]);
      var j := units[c.unit].suspends[c.kind].(stage := End(Cancelled));
      assert FlushedAt(Get(units, c.unit), Theirs(stage, c.unit), j);
    }
  }

  lemma AddedIds(units: Units, stage: Units, sids: map<nat, JobConf>, adds: set<Job>, updates: set<Job>, dels: set<Job>, id: nat)
    requires StageTable(stage) && IdsOk(stage, sids) && MergeReport(units, stage, stage.Keys, adds, updates, dels)
    ensures id in IdsOf(adds) <==> AddsId(units, stage, sids, id)
    ensures forall j :: j in adds && j.id == id ==> ConfOf(j) == sids[id]
  {
    forall j | j in adds && j.id == id
      ensures AddsId(units, stage, sids, id) && ConfOf(j) == sids[id]
    {
      assert AddedAt(Get(units, j.unit), Theirs(stage, j.unit), j);
      assert IdsAt(stage[j.unit], sids);
    }
    if AddsId(units, stage, sids, id) {
      var c := sids[id];
      var j := stage[c.unit].suspends[c.kind].(stage := Wait);
      assert AddedAt(Get(units, c.unit), Theirs(stage, c.unit), j);
    }
  }

  /** The index after a merge, put pointwise. */
  ghost predicate MergedIds(units: Units, stage: Units, ids: map<nat, JobConf>, sids: map<nat, JobConf>, now: map<nat, JobConf>) {
    && (forall id :: id in now <==> (id in ids && !FlushesId(units, stage, ids, id)) || AddsId(units, stage, sids, id))
    && (forall id :: id in now ==> now[id] == if id in ids then ids[id] else sids[id])
  }

  lemma MergeAccounts(
      units: Units, stage: Units, ids: map<nat, JobConf>, sids: map<nat, JobConf>,
      adds: set<Job>, updates: set<Job>, dels: set<Job>, now: map<nat, JobConf>)
    requires UnitsOk(units) && IdsOk(units, ids) && StageTable(stage) && IdsOk(stage, sids) && ids.Keys !! sids.Keys
    requires MergeReport(units, stage, stage.Keys, adds, updates, dels) && Accounted(ids, adds, dels, now)
    ensures MergedIds(units, stage, ids, sids, now)
  {
    forall id
      ensures id in IdsOf(dels) <==> FlushesId(units, stage, ids, id)
      ensures id in IdsOf(adds) <==> AddsId(units, stage, sids, id)
      ensures id in now && id in IdsOf(adds) ==> now[id] == sids[id]
    {
      FlushedIds(units, stage, ids, adds, updates, dels, id);
      AddedIds(units, stage, sids, adds, updates, dels, id);
      if id in now && id in IdsOf(adds) {
        var j :| j in adds && j.id == id;
      }
    }
  }

  /** What `merge_suspends` makes of the index: the added jobs come from the stage's index. */
  lemma MergeAccountsFor(
      units: Units, stage: Units, ids: map<nat, JobConf>, sids: map<nat, JobConf>,
      adds: set<Job>, updates: set<Job>, dels: set<Job>)
    requires StageTable(stage) && IdsOk(stage, sids) && MergeReport(units, stage, stage.Keys, adds, updates, dels)
    ensures Accounted(ids, adds, dels, (ids + map id | id in IdsOf(adds) && id in sids :: sids[id]) - IdsOf(dels))
  {
    forall id | id in IdsOf(adds)
      ensures id in sids && forall j :: j in adds && j.id == id ==> sids[id] == ConfOf(j)
    {
      AddedIds(units, stage, sids, adds, updates, dels, id);
    }
    AccountsFor(ids, sids, adds, dels);
  }

  lemma AccountsFor(ids: map<nat, JobConf>, sids: map<nat, JobConf>, adds: set<Job>, dels: set<Job>)
    requires forall id :: id in IdsOf(adds) ==> id in sids
    requires forall j :: j in adds ==> j.id in IdsOf(adds) && sids[j.id] == ConfOf(j)
    ensures Accounted(ids, adds, dels, (ids + map id | id in IdsOf(adds) && id in sids :: sids[id]) - IdsOf(dels))
  {
  }

  lemma MergeIdsAt(s: UnitState, theirs: map<JobKind, Job>, kept: map<JobKind, Job>, m: UnitState,
                   ids: map<nat, JobConf>, sids: map<nat, JobConf>, ids': map<nat, JobConf>)
    requires IdsAt(s, ids) && ids.Keys !! sids.Keys
    requires forall k :: k in theirs ==> theirs[k].id in sids && sids[theirs[k].id] == JobConf(s.unit, k)
    requires kept == s.suspends || kept == map[]
    requires forall k :: k in kept ==> kept[k].id in ids' && ids'[kept[k].id] == ids[kept[k].id]
    requires forall k :: k in theirs && k !in kept ==> theirs[k].id in ids' && ids'[theirs[k].id] == sids[theirs[k].id]
    requires s.trigger.Some? ==> s.trigger.value.id in ids' && ids'[s.trigger.value.id] == ids[s.trigger.value.id]
    requires m.unit == s.unit && m.trigger == s.trigger && m.suspends == MergedSuspends(kept, theirs)
    ensures IdsAt(m, ids')
  {
  }

  /** What a merge leaves of a unit: `Kept` jobs and those of the stage. */
  lemma MergeShape(s: UnitState, theirs: map<JobKind, Job>)
    ensures var m := MergeSuspends(s, theirs);
            m.unit == s.unit && m.trigger == s.trigger && m.suspends == MergedSuspends(Kept(s, theirs), theirs)
    ensures Kept(s, theirs) == if IsConflict(s.suspends.Keys + theirs.Keys) then map[] else s.suspends
  {
  }

  lemma MergeIdsOf(
      units: Units, stage: Units, ids: map<nat, JobConf>, sids: map<nat, JobConf>, ids': map<nat, JobConf>, u: UnitId)
    requires UnitsOk(units) && IdsOk(units, ids) && IdsOk(stage, sids) && ids.Keys !! sids.Keys
    requires u in stage && stage[u].unit == u && MergedIds(units, stage, ids, sids, ids')
    ensures IdsAt(MergeSuspends(Get(units, u), Theirs(stage, u)), ids')
  {
    var s, theirs, kept := Get(units, u), stage[u].suspends, Kept(Get(units, u), Theirs(stage, u));
    MergeShape(s, theirs);
    assert u in units ==> IdsAt(units[u], ids);
    assert IdsAt(stage[u], sids);
    forall k | k in theirs && k !in kept
      ensures theirs[k].id in ids' && ids'[theirs[k].id] == sids[theirs[k].id]
    {
      assert AddsId(units, stage, sids, theirs[k].id);
    }
    forall k | k in kept
      ensures kept[k].id in ids' && ids'[kept[k].id] == ids[kept[k].id]
    {
      assert !FlushesId(units, stage, ids, kept[k].id);
    }
    if s.trigger.Some? {
      assert !FlushesId(units, stage, ids, s.trigger.value.id);
    }
    MergeIdsAt(s, theirs, kept, MergeSuspends(s, theirs), ids, sids, ids');
  }

  lemma OtherIdsOf(
      units: Units, stage: Units, ids: map<nat, JobConf>, sids: map<nat, JobConf>, ids': map<nat, JobConf>, u: UnitId)
    requires IdsOk(units, ids) && UnitsOk(units) && u in units && u !in stage && MergedIds(units, stage, ids, sids, ids')
    ensures IdsAt(units[u], ids')
  {
    var s := units[u];
    assert IdsAt(s, ids);
    forall k | k in s.suspends
      ensures s.suspends[k].id in ids' && ids'[s.suspends[k].id] == ids[s.suspends[k].id]
    {
      assert !FlushesId(units, stage, ids, s.suspends[k].id);
    }
    if s.trigger.Some? {
      assert !FlushesId(units, stage, ids, s.trigger.value.id);
    }
  }

  lemma MergeIdsOwned(
      units: Units, stage: Units, ids: map<nat, JobConf>, sids: map<nat, JobConf>, ids': map<nat, JobConf>, id: nat)
    requires IdsOk(units, ids) && IdsOk(stage, sids) && StageTable(stage) && id in ids' && ids.Keys !! sids.Keys
    requires MergedIds(units, stage, ids, sids, ids') && ids'[id].unit in stage
    ensures OwnsAt(MergeSuspends(Get(units, ids'[id].unit), Theirs(stage, ids'[id].unit)), id, ids'[id].kind)
  {
    var c := ids'[id];
    var s, theirs, kept := Get(units, c.unit), stage[c.unit].suspends, Kept(Get(units, c.unit), Theirs(stage, c.unit));
    MergeShape(s, theirs);
    if id in ids {
      assert !AddsId(units, stage, sids, id);
      assert OwnsAt(units[c.unit], id, c.kind);
      assert !FlushesId(units, stage, ids, id);
    } else {
      assert AddsId(units, stage, sids, id);
      assert OwnsAt(stage[c.unit], id, c.kind);
    }
  }

  lemma OtherIdsOwned(
      units: Units, stage: Units, ids: map<nat, JobConf>, sids: map<nat, JobConf>, ids': map<nat, JobConf>, id: nat)
    requires IdsOk(units, ids) && IdsOk(stage, sids) && id in ids'
    requires MergedIds(units, stage, ids, sids, ids') && ids'[id].unit !in stage
    ensures ids'[id].unit in units && OwnsAt(units[ids'[id].unit], id, ids'[id].kind)
  {
  }

  lemma MergeIdsOne(
      units: Units, stage: Units, ids: map<nat, JobConf>, sids: map<nat, JobConf>, now: Units, ids': map<nat, JobConf>, u: UnitId)
    requires UnitsOk(units) && IdsOk(units, ids) && StageTable(stage) && IdsOk(stage, sids) && ids.Keys !! sids.Keys
    requires MergedUpTo(units, stage, stage.Keys, now) && MergedIds(units, stage, ids, sids, ids') && u in now
    ensures IdsAt(now[u], ids')
  {
    if u in stage {
      MergeIdsOf(units, stage, ids, sids, ids', u);
    } else {
      OtherIdsOf(units, stage, ids, sids, ids', u);
    }
  }

  lemma MergeIdsOwner(
      units: Units, stage: Units, ids: map<nat, JobConf>, sids: map<nat, JobConf>, now: Units, ids': map<nat, JobConf>, id: nat)
    requires IdsOk(units, ids) && StageTable(stage) && IdsOk(stage, sids) && ids.Keys !! sids.Keys
    requires MergedUpTo(units, stage, stage.Keys, now) && MergedIds(units, stage, ids, sids, ids') && id in ids'
    ensures ids'[id].unit in now && OwnsAt(now[ids'[id].unit], id, ids'[id].kind)
  {
    if ids'[id].unit in stage {
      MergeIdsOwned(units, stage, ids, sids, ids', id);
    } else {
      OtherIdsOwned(units, stage, ids, sids, ids', id);
    }
  }

  lemma MergeIds(
      units: Units, stage: Units, ids: map<nat, JobConf>, sids: map<nat, JobConf>, now: Units, ids': map<nat, JobConf>)
    requires UnitsOk(units) && IdsOk(units, ids) && StageTable(stage) && IdsOk(stage, sids) && ids.Keys !! sids.Keys
    requires MergedUpTo(units, stage, stage.Keys, now) && MergedIds(units, stage, ids, sids, ids')
    ensures IdsOk(now, ids')
  {
    forall u | u in now
      ensures IdsAt(now[u], ids')
    {
      MergeIdsOne(units, stage, ids, sids, now, ids', u);
    }
    forall id | id in ids'
      ensures ids'[id].unit in now && OwnsAt(now[ids'[id].unit], id, ids'[id].kind)
    {
      MergeIdsOwner(units, stage, ids, sids, now, ids', id);
    }
  }

  // ---------------------------------------------------------------- reshuffling

  /** The id of a job that a reshuffle merges away. */
  ghost predicate MergesId(units: Units, active: set<UnitId>, ids: map<nat, JobConf>, id: nat) {
    id in ids &&
    var c := ids[id];
    && c.unit in units && units[c.unit].dirty && !units[c.unit].order
    && c.kind in units[c.unit].suspends && units[c.unit].suspends[c.kind].id == id
    && IsMerged(units[c.unit].suspends.Keys, c.unit in active, c.kind)
  }

  lemma MergedAwayIds(units: Units, active: set<UnitId>, ids: map<nat, JobConf>, merged: set<Job>, id: nat)
    requires IdsOk(units, ids) && ReshuffleReport(units, active, units.Keys, merged)
    requires forall u :: u in units ==> KnownJobs(units[u], u)
    ensures id in IdsOf(merged) <==> MergesId(units, active, ids, id)
  {
    if id in IdsOf(merged) {
      var j :| j in merged && j.id == id;
      assert MergedAt(units[j.unit], j.unit in active, j);
      assert IdsAt(units[j.unit], ids);
    }
    if MergesId(units, active, ids, id) {
      var c := ids[id];
      var j := units[c.unit].suspends[c.kind].(stage := End(Merged));
      assert MergedAt(units[c.unit], c.unit in active, j);
    }
  }

  /** The index that a merge makes is exact, and accounts for what it reports. */
  lemma MergeIsAccounted(
      units: Units, stage: Units, ids: map<nat, JobConf>, sids: map<nat, JobConf>,
      adds: set<Job>, updates: set<Job>, dels: set<Job>, now: Units, ids': map<nat, JobConf>)
    requires UnitsOk(units) && IdsOk(units, ids) && StageTable(stage) && IdsOk(stage, sids) && ids.Keys !! sids.Keys
    requires MergedUpTo(units, stage, stage.Keys, now) && MergeReport(units, stage, stage.Keys, adds, updates, dels)
    requires ids' == (ids + map id | id in IdsOf(adds) && id in sids :: sids[id]) - IdsOf(dels)
    ensures IdsOk(now, ids') && Accounted(ids, adds, dels, ids')
  {
    MergeAccountsFor(units, stage, ids, sids, adds, updates, dels);
    MergeAccounts(units, stage, ids, sids, adds, updates, dels, ids');
    MergeIds(units, stage, ids, sids, now, ids');
  }

  lemma ReshuffleShape(s: UnitState, active: bool)
    ensures var e := ReshuffleEntry(s, active);
            && e.unit == s.unit && e.trigger == s.trigger
            && (forall k :: k in e.suspends <==>
                  k in s.suspends && !(s.dirty && !s.order && IsMerged(s.suspends.Keys, active, k)))
            && (forall k :: k in e.suspends ==> e.suspends[k] == s.suspends[k])
  {
    if s.dirty {
      OrderShape(s, active);
      FlagsOnly(OrderQueue(s, active));
    }
  }

  lemma OrderShape(s: UnitState, active: bool)
    ensures var o := OrderQueue(s, active);
            && o.unit == s.unit && o.trigger == s.trigger
            && (forall k :: k in o.suspends <==> k in s.suspends && !(!s.order && IsMerged(s.suspends.Keys, active, k)))
            && (forall k :: k in o.suspends ==> o.suspends[k] == s.suspends[k])
  {
  }

  lemma FlagsOnly(s: UnitState)
    ensures var r := Rest(UpdateReady(MarkInterrupt(s)));
            r.unit == s.unit && r.trigger == s.trigger && r.suspends == s.suspends
  {
  }

  lemma ReshuffleIds(
      units: Units, active: set<UnitId>, ids: map<nat, JobConf>, merged: set<Job>, now: Units, ids': map<nat, JobConf>)
    requires IdsOk(units, ids) && ReshuffleReport(units, active, units.Keys, merged)
    requires forall u :: u in units ==> KnownJobs(units[u], u)
    requires ReshuffledUpTo(units, active, units.Keys, now) && Accounted(ids, {}, merged, ids')
    ensures IdsOk(now, ids')
  {
    forall id
      ensures id in IdsOf(merged) <==> MergesId(units, active, ids, id)
    {
      MergedAwayIds(units, active, ids, merged, id);
    }
    forall u | u in now
      ensures IdsAt(now[u], ids')
    {
      ReshuffleShape(units[u], u in active);
      ReshuffleIdsAt(units, active, ids, ids', u, now[u]);
    }
    forall id | id in ids'
      ensures ids'[id].unit in now && OwnsAt(now[ids'[id].unit], id, ids'[id].kind)
    {
      var u := ids[id].unit;
      assert OwnsAt(units[u], id, ids[id].kind);
      ReshuffleShape(units[u], u in active);
      assert !MergesId(units, active, ids, id);
      assert OwnsAt(ReshuffleEntry(units[u], u in active), id, ids[id].kind);
    }
  }

  lemma ReshuffleIdsAt(
      units: Units, active: set<UnitId>, ids: map<nat, JobConf>, ids': map<nat, JobConf>, u: UnitId, e: UnitState)
    requires IdsOk(units, ids) && u in units && units[u].unit == u
    requires forall id :: id in ids' <==> id in ids && !MergesId(units, active, ids, id)
    requires forall id :: id in ids' ==> ids'[id] == ids[id]
    requires e.unit == u && e.trigger == units[u].trigger
    requires forall k :: k in e.suspends ==>
               && k in units[u].suspends && e.suspends[k] == units[u].suspends[k]
               && !(units[u].dirty && !units[u].order && IsMerged(units[u].suspends.Keys, u in active, k))
    ensures IdsAt(e, ids')
  {
  }
}
