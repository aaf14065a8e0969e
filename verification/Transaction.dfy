/** Building a transaction (core/bin/job/transaction.rs): a request is expanded over the
    dependencies into a stage, and the stage is verified against the live jobs. */
module Transaction {
  import opened JobTypes
  import opened UnitSpec
  import opened TableSpec
  import opened TableIds
  import opened JobTables
  import opened JobAllocs
  import opened Graphs

  // ---------------------------------------------------------------- what pulls in what

  /** `JobConf::map` */
  function MapConf(db: UnitDb, conf: JobConf): JobConf {
    JobConf(conf.unit, MergeUnit(conf.kind, db.IsActive(conf.unit)))
  }

  /** The job that a request amounts to: the active state of the unit decides a compound one. */
  ghost predicate ComesTo(db: UnitDb, config: JobConf, root: JobConf) {
    && root.unit == config.unit
    && (IsBasicOp(config.kind) ==> root.kind == config.kind)
    && (config.kind == TryReload ==> root.kind == if config.unit in db.active then Reload else Nop)
    && (config.kind == TryRestart ==> root.kind == if config.unit in db.active then Restart else Nop)
    && (config.kind == ReloadOrStart ==> root.kind == if config.unit in db.active then Reload else Start)
  }

  ghost predicate StartPulls(db: UnitDb, from: JobConf, to: JobConf) {
    || (to.kind == Start && to.unit in db.DepGetsAtom(from.unit, PullInStart))
    || (to.kind == Start && to.unit in db.DepGetsAtom(from.unit, PullInStartIgnored))
    || (to.kind == Verify && to.unit in db.DepGetsAtom(from.unit, PullInVerify))
    || (to.kind == Stop && to.unit in db.DepGetsAtom(from.unit, PullInStop))
    || (to.kind == Stop && to.unit in db.DepGetsAtom(from.unit, PullInStopIgnored))
  }

  /** A job on one unit makes a job on another necessary. A reload or restart that spreads
      leaves a unit alone that is not active: all it brings in there is a Nop. */
  ghost predicate Pulls(db: UnitDb, from: JobConf, to: JobConf) {
    match from.kind
    case Start => StartPulls(db, from, to)
    case Stop => to.kind == Stop && to.unit in db.DepGetsAtom(from.unit, PropagateStop)
    case Reload =>
      to.unit in db.DepGetsAtom(from.unit, PropagatesReloadTo) && to.kind == (if to.unit in db.active then Reload else Nop)
    case Restart =>
      || StartPulls(db, from, to)
      || (to.unit in db.DepGetsAtom(from.unit, PropagateRestart)
          && to.kind == (if to.unit in db.active then Restart else Nop))
    case _ => false
  }

  predicate IgnoresAll(mode: JobMode) {
    mode == IgnoreDependencies || mode == IgnoreRequirements
  }

  ghost function Edges(db: UnitDb, mode: JobMode): (JobConf, JobConf) -> bool {
    (from, to) => mode != IgnoreDependencies && mode != IgnoreRequirements && Pulls(db, from, to)
  }

  /** The stage holds what the request comes to, and exactly what that makes necessary. */
  ghost predicate Expanded(db: UnitDb, config: JobConf, mode: JobMode, staged: Units) {
    exists root :: ComesTo(db, config, root) && ReachedFrom(Edges(db, mode), root, staged)
  }

  ghost predicate ReachedFrom(edge: (JobConf, JobConf) -> bool, root: JobConf, staged: Units) {
    forall c :: InStage(staged, c) <==> Reaches(edge, root, c)
  }

  /** Everything a request can come to: the units that some dependency leads to, with the
      kinds that can be suspended. */
  ghost function Universe(db: UnitDb, units: set<UnitId>): set<JobConf> {
    set u, k | u in units + Targets(db) && k in {Start, Stop, Reload, Restart, Verify, Nop} :: JobConf(u, k)
  }

  ghost function Targets(db: UnitDb): set<UnitId> {
    set d, u | d in db.deps && u in db.deps[d] :: u
  }

  /** No transaction takes more ids than this. */
  ghost function Width(db: UnitDb): nat {
    6 * (|Targets(db)| + 1)
  }

  ghost function AllConfs(units: set<UnitId>): set<JobConf> {
    set u, k | u in units && k in {Start, Stop, Reload, Restart, Verify, Nop} :: JobConf(u, k)
  }

  lemma {:induction false} ConfsNumber(units: set<UnitId>)
    ensures |AllConfs(units)| <= 6 * |units|
    decreases units
  {
    if units != {} {
      var u :| u in units;
      ConfsNumber(units - {u});
      var own := {JobConf(u, Start), JobConf(u, Stop), JobConf(u, Reload), JobConf(u, Restart), JobConf(u, Verify),
                  JobConf(u, Nop)};
      assert AllConfs(units) == AllConfs(units - {u}) + own;
    }
  }

  lemma UniverseWidth(db: UnitDb, u: UnitId)
    ensures |Universe(db, {u})| <= Width(db)
  {
    ConfsNumber({u} + Targets(db));
    assert Universe(db, {u}) == AllConfs({u} + Targets(db));
  }

  lemma UniverseClosed(db: UnitDb, mode: JobMode, units: set<UnitId>)
    ensures Closed(Edges(db, mode), Universe(db, units))
  {
  }

  // ---------------------------------------------------------------- how far an expansion has come

  ghost function Missing(all: set<JobConf>, units: Units): set<JobConf> {
    set c | c in all && !InStage(units, c)
  }

  /** What has been added since `before` was reached from `from`, and has been expanded. */
  ghost predicate Explored(edge: (JobConf, JobConf) -> bool, all: set<JobConf>, from: JobConf, before: Units, now: Units) {
    && (forall c :: InStage(before, c) ==> InStage(now, c))
    && (forall c :: InStage(now, c) && !InStage(before, c) ==> c in all && Reaches(edge, from, c))
    && (forall c, d :: InStage(now, c) && !InStage(before, c) && edge(c, d) ==> InStage(now, d))
  }

  lemma ExploredTwice(edge: (JobConf, JobConf) -> bool, all: set<JobConf>, from: JobConf, before: Units, mid: Units, now: Units)
    requires Explored(edge, all, from, before, mid) && Explored(edge, all, from, mid, now)
    ensures Explored(edge, all, from, before, now)
    ensures Missing(all, now) <= Missing(all, mid) <= Missing(all, before)
  {
  }

  lemma ExploredFrom(edge: (JobConf, JobConf) -> bool, all: set<JobConf>, from: JobConf, next: JobConf, before: Units, now: Units)
    requires edge(from, next) && Explored(edge, all, next, before, now)
    ensures Explored(edge, all, from, before, now)
  {
    forall c | InStage(now, c) && !InStage(before, c)
      ensures Reaches(edge, from, c)
    {
      ReachesFurther(edge, from, next, c);
    }
  }

  lemma MissingOneLess(all: set<JobConf>, before: Units, now: Units, conf: JobConf)
    requires conf in all && !InStage(before, conf)
    requires forall c :: InStage(now, c) <==> InStage(before, c) || c == conf
    ensures Missing(all, now) < Missing(all, before) && |Missing(all, now)| == |Missing(all, before)| - 1
  {
    assert Missing(all, now) == Missing(all, before) - {conf};
  }

  lemma SameExplored(edge: (JobConf, JobConf) -> bool, all: set<JobConf>, from: JobConf, before: Units, now: Units)
    requires forall c :: InStage(now, c) <==> InStage(before, c)
    ensures Missing(all, now) == Missing(all, before) && Explored(edge, all, from, before, now)
  {
  }

  // ---------------------------------------------------------------- expansion

  /** A stage in the middle of an expansion, with ids left for everything that may still come. */
  ghost predicate Expanding(stage: JobTable, ja: JobAlloc, db: UnitDb, mode: JobMode, all: set<JobConf>)
    reads stage, stage.tUnit, ja
  {
    && stage.Staging(ja, mode) && Closed(Edges(db, mode), all) && (forall c :: c in all ==> IsBasicOp(c.kind))
    && |ja.ids| + |Missing(all, stage.tUnit.tData)| <= ID_NUM
  }

  /** Every id that has been taken belongs to a job that was recorded. */
  ghost predicate Allotted(all: set<JobConf>, before: Units, now: Units, ids0: set<nat>, ids: set<nat>,
                           tId0: set<nat>, tId: set<nat>)
  {
    && Missing(all, now) <= Missing(all, before)
    && ids0 <= ids && |ids| + |Missing(all, now)| == |ids0| + |Missing(all, before)|
    && forall id :: id in tId ==> id in tId0 || id !in ids0
  }

  lemma AllottedTwice(
      all: set<JobConf>, before: Units, mid: Units, now: Units, ids0: set<nat>, ids1: set<nat>, ids: set<nat>,
      tId0: set<nat>, tId1: set<nat>, tId: set<nat>)
    requires Allotted(all, before, mid, ids0, ids1, tId0, tId1) && Allotted(all, mid, now, ids1, ids, tId1, tId)
    ensures Allotted(all, before, now, ids0, ids, tId0, tId)
  {
  }

  /** The dependencies of kind `atom` are edges for this job. */
  ghost predicate Leads(db: UnitDb, mode: JobMode, conf: JobConf, atom: Atom, kind: JobKind) {
    forall v :: v in db.DepGetsAtom(conf.unit, atom) ==> Edges(db, mode)(conf, MapConf(db, JobConf(v, kind)))
  }

  ghost predicate PulledIn(db: UnitDb, units: Units, others: seq<UnitId>, kind: JobKind) {
    forall v :: v in others ==> InStage(units, MapConf(db, JobConf(v, kind)))
  }

  lemma PulledInOneMore(db: UnitDb, before: Units, now: Units, others: seq<UnitId>, i: nat, kind: JobKind)
    requires i < |others| && PulledIn(db, before, others[..i], kind)
    requires forall c :: InStage(before, c) ==> InStage(now, c)
    requires InStage(now, MapConf(db, JobConf(others[i], kind)))
    ensures PulledIn(db, now, others[..i + 1], kind)
  {
  }

  lemma StartLeads(db: UnitDb, mode: JobMode, conf: JobConf)
    requires !IgnoresAll(mode) && (conf.kind == Start || conf.kind == Restart)
    ensures Leads(db, mode, conf, PullInStart, Start) && Leads(db, mode, conf, PullInStartIgnored, Start)
    ensures Leads(db, mode, conf, PullInVerify, Verify)
    ensures Leads(db, mode, conf, PullInStop, Stop) && Leads(db, mode, conf, PullInStopIgnored, Stop)
  {
  }

  ghost predicate StartPulledIn(db: UnitDb, units: Units, u: UnitId) {
    && PulledIn(db, units, db.DepGetsAtom(u, PullInStart), Start)
    && PulledIn(db, units, db.DepGetsAtom(u, PullInStartIgnored), Start)
    && PulledIn(db, units, db.DepGetsAtom(u, PullInVerify), Verify)
    && PulledIn(db, units, db.DepGetsAtom(u, PullInStop), Stop)
    && PulledIn(db, units, db.DepGetsAtom(u, PullInStopIgnored), Stop)
  }

  lemma KindLeads(db: UnitDb, mode: JobMode, conf: JobConf)
    requires !IgnoresAll(mode)
    ensures conf.kind == Stop ==> Leads(db, mode, conf, PropagateStop, Stop)
    ensures conf.kind == Reload ==> Leads(db, mode, conf, PropagatesReloadTo, TryReload)
    ensures conf.kind == Restart ==> Leads(db, mode, conf, PropagateRestart, TryRestart)
  {
  }

  /** Everything that a job needs, dependency by dependency. */
  ghost predicate KindPulledIn(db: UnitDb, units: Units, conf: JobConf) {
    match conf.kind
    case Start => StartPulledIn(db, units, conf.unit)
    case Stop => PulledIn(db, units, db.DepGetsAtom(conf.unit, PropagateStop), Stop)
    case Reload => PulledIn(db, units, db.DepGetsAtom(conf.unit, PropagatesReloadTo), TryReload)
    case Restart =>
      StartPulledIn(db, units, conf.unit) && PulledIn(db, units, db.DepGetsAtom(conf.unit, PropagateRestart), TryRestart)
    case _ => true
  }

  lemma AllPulledIn(db: UnitDb, mode: JobMode, conf: JobConf, units: Units)
    requires KindPulledIn(db, units, conf)
    ensures forall to :: Edges(db, mode)(conf, to) ==> InStage(units, to)
  {
  }

  /** A new job whose dependencies have all been followed. */
  lemma NewlyExplored(db: UnitDb, mode: JobMode, all: set<JobConf>, conf: JobConf, before: Units, mid: Units, now: Units)
    requires conf in all && forall c :: InStage(mid, c) <==> InStage(before, c) || c == conf
    requires Explored(Edges(db, mode), all, conf, mid, now)
    requires forall to :: Edges(db, mode)(conf, to) ==> InStage(now, to)
    ensures Explored(Edges(db, mode), all, conf, before, now)
  {
    ReachesItself(Edges(db, mode), conf);
  }

  lemma RecordedAlone(db: UnitDb, mode: JobMode, all: set<JobConf>, conf: JobConf, before: Units, now: Units)
    requires conf in all && (conf.kind == Nop || IgnoresAll(mode))
    requires forall c :: InStage(now, c) <==> InStage(before, c) || c == conf
    ensures Explored(Edges(db, mode), all, conf, before, now)
  {
    SameExplored(Edges(db, mode), all, conf, now, now);
    NewlyExplored(db, mode, all, conf, before, now, now);
  }

  /** Record a job, and if it is new everything that it needs. No step of it can fail. */
  method Expand(stage: JobTable, ja: JobAlloc, db: UnitDb, config: JobConf, mode: JobMode, ghost all: set<JobConf>)
    requires Expanding(stage, ja, db, mode, all) && MapConf(db, config) in all
    modifies stage, stage.tUnit`tData, stage.tUnit`sync, ja
    ensures Expanding(stage, ja, db, mode, all)
    ensures Allotted(all, old(stage.tUnit.tData), stage.tUnit.tData, old(ja.ids), ja.ids, old(stage.tId.Keys), stage.tId.Keys)
    ensures InStage(stage.tUnit.tData, MapConf(db, config))
    ensures Explored(Edges(db, mode), all, MapConf(db, config), old(stage.tUnit.tData), stage.tUnit.tData)
    decreases Missing(all, stage.tUnit.tData), 0
  {
    var conf := MapConf(db, config);
    ghost var before := stage.tUnit.tData;
    var added := Record(stage, ja, db, conf, mode, all);
    ghost var mid, ids, tId := stage.tUnit.tData, ja.ids, stage.tId.Keys;
    if !added {
      return;
    }
    if conf.kind == Nop || IgnoresAll(mode) {
      RecordedAlone(db, mode, all, conf, before, mid);
      return;
    }
    ExpandKind(stage, ja, db, conf, mode, all);
    AllottedTwice(all, before, mid, stage.tUnit.tData, old(ja.ids), ids, ja.ids, old(stage.tId.Keys), tId, stage.tId.Keys);
    NewlyExplored(db, mode, all, conf, before, mid, stage.tUnit.tData);
  }

  method Record(stage: JobTable, ja: JobAlloc, db: UnitDb, conf: JobConf, mode: JobMode, ghost all: set<JobConf>)
      returns (added: bool)
    requires Expanding(stage, ja, db, mode, all) && conf in all
    modifies stage, stage.tUnit`tData, stage.tUnit`sync, ja
    ensures Expanding(stage, ja, db, mode, all)
    ensures Allotted(all, old(stage.tUnit.tData), stage.tUnit.tData, old(ja.ids), ja.ids, old(stage.tId.Keys), stage.tId.Keys)
    ensures added ==> Missing(all, stage.tUnit.tData) < Missing(all, old(stage.tUnit.tData))
    ensures forall c :: InStage(stage.tUnit.tData, c) <==> InStage(old(stage.tUnit.tData), c) || c == conf
    ensures !added ==> Explored(Edges(db, mode), all, conf, old(stage.tUnit.tData), stage.tUnit.tData)
  {
    ghost var before := stage.tUnit.tData;
    if !InStage(before, conf) {
      assert conf in Missing(all, before);
    }
    added := stage.RecordSuspend(ja, conf, mode);
    if !added {
      SameExplored(Edges(db, mode), all, conf, before, stage.tUnit.tData);
      return;
    }
    MissingOneLess(all, before, stage.tUnit.tData, conf);
  }

  method ExpandKind(stage: JobTable, ja: JobAlloc, db: UnitDb, conf: JobConf, mode: JobMode, ghost all: set<JobConf>)
    requires Expanding(stage, ja, db, mode, all) && conf in all && !IgnoresAll(mode)
    modifies stage, stage.tUnit`tData, stage.tUnit`sync, ja
    ensures Expanding(stage, ja, db, mode, all)
    ensures Allotted(all, old(stage.tUnit.tData), stage.tUnit.tData, old(ja.ids), ja.ids, old(stage.tId.Keys), stage.tId.Keys)
    ensures forall to :: Edges(db, mode)(conf, to) ==> InStage(stage.tUnit.tData, to)
    ensures Explored(Edges(db, mode), all, conf, old(stage.tUnit.tData), stage.tUnit.tData)
    decreases Missing(all, stage.tUnit.tData), 4
  {
    match conf.kind {
      case Start =>
        ExpandStart(stage, ja, db, conf, mode, all);
        AllPulledIn(db, mode, conf, stage.tUnit.tData);
      case Stop =>
        KindLeads(db, mode, conf);
        ExpandAtom(stage, ja, db, conf, PropagateStop, Stop, mode, all);
        AllPulledIn(db, mode, conf, stage.tUnit.tData);
      case Reload =>
        KindLeads(db, mode, conf);
        ExpandAtom(stage, ja, db, conf, PropagatesReloadTo, TryReload, mode, all);
        AllPulledIn(db, mode, conf, stage.tUnit.tData);
      case Restart =>
        ExpandRestart(stage, ja, db, conf, mode, all);
        AllPulledIn(db, mode, conf, stage.tUnit.tData);
      case _ =>
        AllPulledIn(db, mode, conf, stage.tUnit.tData);
    }
  }

  method ExpandRestart(stage: JobTable, ja: JobAlloc, db: UnitDb, conf: JobConf, mode: JobMode, ghost all: set<JobConf>)
    requires Expanding(stage, ja, db, mode, all) && conf in all && !IgnoresAll(mode) && conf.kind == Restart
    modifies stage, stage.tUnit`tData, stage.tUnit`sync, ja
    ensures Expanding(stage, ja, db, mode, all)
    ensures Allotted(all, old(stage.tUnit.tData), stage.tUnit.tData, old(ja.ids), ja.ids, old(stage.tId.Keys), stage.tId.Keys)
    ensures KindPulledIn(db, stage.tUnit.tData, conf)
    ensures Explored(Edges(db, mode), all, conf, old(stage.tUnit.tData), stage.tUnit.tData)
    decreases Missing(all, stage.tUnit.tData), 3
  {
    ghost var before := stage.tUnit.tData;
    ExpandStart(stage, ja, db, conf, mode, all);
    ghost var mid := stage.tUnit.tData;
    KindLeads(db, mode, conf);
    ExpandAtom(stage, ja, db, conf, PropagateRestart, TryRestart, mode, all);
    ExploredTwice(Edges(db, mode), all, conf, before, mid, stage.tUnit.tData);
  }

  method ExpandStart(stage: JobTable, ja: JobAlloc, db: UnitDb, conf: JobConf, mode: JobMode, ghost all: set<JobConf>)
    requires Expanding(stage, ja, db, mode, all) && conf in all
    requires !IgnoresAll(mode) && (conf.kind == Start || conf.kind == Restart)
    modifies stage, stage.tUnit`tData, stage.tUnit`sync, ja
    ensures Expanding(stage, ja, db, mode, all)
    ensures Allotted(all, old(stage.tUnit.tData), stage.tUnit.tData, old(ja.ids), ja.ids, old(stage.tId.Keys), stage.tId.Keys)
    ensures StartPulledIn(db, stage.tUnit.tData, conf.unit)
    ensures Explored(Edges(db, mode), all, conf, old(stage.tUnit.tData), stage.tUnit.tData)
    decreases Missing(all, stage.tUnit.tData), 2
  {
    StartLeads(db, mode, conf);
    ghost var before, ids, tId := stage.tUnit.tData, ja.ids, stage.tId.Keys;
    ExpandPulls(stage, ja, db, conf, mode, all);
    ExpandMore(stage, ja, db, conf, PullInStop, Stop, mode, all, before, ids, tId);
    ExpandMore(stage, ja, db, conf, PullInStopIgnored, Stop, mode, all, before, ids, tId);
  }

  method ExpandPulls(stage: JobTable, ja: JobAlloc, db: UnitDb, conf: JobConf, mode: JobMode, ghost all: set<JobConf>)
    requires Expanding(stage, ja, db, mode, all) && conf in all
    requires Leads(db, mode, conf, PullInStart, Start) && Leads(db, mode, conf, PullInStartIgnored, Start)
    requires Leads(db, mode, conf, PullInVerify, Verify)
    modifies stage, stage.tUnit`tData, stage.tUnit`sync, ja
    ensures Expanding(stage, ja, db, mode, all)
    ensures Allotted(all, old(stage.tUnit.tData), stage.tUnit.tData, old(ja.ids), ja.ids, old(stage.tId.Keys), stage.tId.Keys)
    ensures PulledIn(db, stage.tUnit.tData, db.DepGetsAtom(conf.unit, PullInStart), Start)
    ensures PulledIn(db, stage.tUnit.tData, db.DepGetsAtom(conf.unit, PullInStartIgnored), Start)
    ensures PulledIn(db, stage.tUnit.tData, db.DepGetsAtom(conf.unit, PullInVerify), Verify)
    ensures Explored(Edges(db, mode), all, conf, old(stage.tUnit.tData), stage.tUnit.tData)
    decreases Missing(all, stage.tUnit.tData), 1, 2
  {
    ghost var before, ids, tId := stage.tUnit.tData, ja.ids, stage.tId.Keys;
    ExpandAtom(stage, ja, db, conf, PullInStart, Start, mode, all);
    ExpandMore(stage, ja, db, conf, PullInStartIgnored, Start, mode, all, before, ids, tId);
    ExpandMore(stage, ja, db, conf, PullInVerify, Verify, mode, all, before, ids, tId);
  }

  /** One more kind of dependency; what has been explored since `before` stays so. */
  method ExpandMore(
      stage: JobTable, ja: JobAlloc, db: UnitDb, conf: JobConf, atom: Atom, kind: JobKind, mode: JobMode,
      ghost all: set<JobConf>, ghost before: Units, ghost ids: set<nat>, ghost tId: set<nat>)
    requires Expanding(stage, ja, db, mode, all) && conf in all && Leads(db, mode, conf, atom, kind)
    requires Explored(Edges(db, mode), all, conf, before, stage.tUnit.tData)
    requires Allotted(all, before, stage.tUnit.tData, ids, ja.ids, tId, stage.tId.Keys)
    modifies stage, stage.tUnit`tData, stage.tUnit`sync, ja
    ensures Expanding(stage, ja, db, mode, all)
    ensures Allotted(all, before, stage.tUnit.tData, ids, ja.ids, tId, stage.tId.Keys)
    ensures PulledIn(db, stage.tUnit.tData, db.DepGetsAtom(conf.unit, atom), kind)
    ensures Explored(Edges(db, mode), all, conf, before, stage.tUnit.tData)
    ensures forall c :: InStage(old(stage.tUnit.tData), c) ==> InStage(stage.tUnit.tData, c)
    decreases Missing(all, stage.tUnit.tData), 1, 1
  {
    ghost var mid := stage.tUnit.tData;
    ExpandAtom(stage, ja, db, conf, atom, kind, mode, all);
    ExploredTwice(Edges(db, mode), all, conf, before, mid, stage.tUnit.tData);
  }

  /** Expand a job of kind `kind` on every unit that `atom` leads to. */
  method ExpandAtom(
      stage: JobTable, ja: JobAlloc, db: UnitDb, conf: JobConf, atom: Atom, kind: JobKind, mode: JobMode,
      ghost all: set<JobConf>)
    requires Expanding(stage, ja, db, mode, all) && conf in all && Leads(db, mode, conf, atom, kind)
    modifies stage, stage.tUnit`tData, stage.tUnit`sync, ja
    ensures Expanding(stage, ja, db, mode, all)
    ensures Allotted(all, old(stage.tUnit.tData), stage.tUnit.tData, old(ja.ids), ja.ids, old(stage.tId.Keys), stage.tId.Keys)
    ensures PulledIn(db, stage.tUnit.tData, db.DepGetsAtom(conf.unit, atom), kind)
    ensures Explored(Edges(db, mode), all, conf, old(stage.tUnit.tData), stage.tUnit.tData)
    decreases Missing(all, stage.tUnit.tData), 1, 0
  {
    var others := db.DepGetsAtom(conf.unit, atom);
    ghost var edge, before := Edges(db, mode), stage.tUnit.tData;
    var i := 0;
    while i < |others|
      invariant i <= |others| && Expanding(stage, ja, db, mode, all)
      invariant Allotted(all, before, stage.tUnit.tData, old(ja.ids), ja.ids, old(stage.tId.Keys), stage.tId.Keys)
      invariant PulledIn(db, stage.tUnit.tData, others[..i], kind)
      invariant Explored(edge, all, conf, before, stage.tUnit.tData)
    {
      var next := JobConf(others[i], kind);
      assert edge(conf, MapConf(db, next));
      ghost var mid := stage.tUnit.tData;
      Expand(stage, ja, db, next, mode, all);
      ExploredFrom(edge, all, conf, MapConf(db, next), mid, stage.tUnit.tData);
      ExploredTwice(edge, all, conf, before, mid, stage.tUnit.tData);
      PulledInOneMore(db, mid, stage.tUnit.tData, others, i, kind);
      i := i + 1;
    }
    assert others[..i] == others;
  }

  /** Expansion is exact reachability: from an empty stage it records the request, mapped to
      what the unit can do, and exactly the jobs that it leads to. */
  method JobTransExpand(stage: JobTable, ja: JobAlloc, db: UnitDb, config: JobConf, mode: JobMode)
    requires stage.Staging(ja, mode) && stage.tUnit.tData == map[]
    requires |ja.ids| + |Universe(db, {config.unit})| <= ID_NUM
    modifies stage, stage.tUnit`tData, stage.tUnit`sync, ja
    ensures stage.Staging(ja, mode)
    ensures Expanded(db, config, mode, stage.tUnit.tData)
    ensures old(ja.ids) <= ja.ids && forall id :: id in stage.tId ==> id in old(stage.tId) || id !in old(ja.ids)
    ensures |ja.ids| <= |old(ja.ids)| + |Universe(db, {config.unit})|
  {
    ghost var edge, all, root := Edges(db, mode), Universe(db, {config.unit}), MapConf(db, config);
    UniverseClosed(db, mode, {config.unit});
    assert Missing(all, map[]) == all;
    Expand(stage, ja, db, config, mode, all);
    StageHoldsAll(edge, all, root, stage.tUnit.tData);
    MappedComesTo(db, config);
  }

  lemma MappedComesTo(db: UnitDb, config: JobConf)
    ensures ComesTo(db, config, MapConf(db, config))
  {
  }

  lemma StageHoldsAll(edge: (JobConf, JobConf) -> bool, all: set<JobConf>, root: JobConf, now: Units)
    requires Explored(edge, all, root, map[], now) && InStage(now, root)
    ensures ReachedFrom(edge, root, now)
  {
    forall c | Reaches(edge, root, c)
      ensures InStage(now, c)
    {
      StageHolds(edge, all, root, now, c);
    }
    ReachesItself(edge, root);
  }

  lemma StageHolds(edge: (JobConf, JobConf) -> bool, all: set<JobConf>, root: JobConf, now: Units, c: JobConf)
    requires Explored(edge, all, root, map[], now) && InStage(now, root) && Reaches(edge, root, c)
    ensures InStage(now, c)
  {
    var recorded := set d | d in all && InStage(now, d);
    var walk :| IsWalk(edge, walk) && walk[0] == root && walk[|walk| - 1] == c;
    ClosedHolds(edge, recorded, walk);
  }

  /** What is reached from a request is the least set that holds it and is closed under the
      dependencies; and with an Ignore mode it is the request alone. */
  lemma ReachedIsLeast(db: UnitDb, mode: JobMode, root: JobConf, c: JobConf)
    requires Reaches(Edges(db, mode), root, c)
    ensures forall nodes :: root in nodes && Closed(Edges(db, mode), nodes) ==> c in nodes
    ensures IgnoresAll(mode) ==> c == root
  {
    var edge := Edges(db, mode);
    var walk :| IsWalk(edge, walk) && walk[0] == root && walk[|walk| - 1] == c;
    forall nodes | root in nodes && Closed(edge, nodes)
      ensures c in nodes
    {
      ClosedHolds(edge, nodes, walk);
    }
    if IgnoresAll(mode) {
      assert Closed(edge, {root});
    }
  }

  lemma ReachedIsClosed(db: UnitDb, mode: JobMode, root: JobConf, c: JobConf, d: JobConf)
    requires Reaches(Edges(db, mode), root, c) && Edges(db, mode)(c, d)
    ensures Reaches(Edges(db, mode), root, d)
  {
    var walk :| IsWalk(Edges(db, mode), walk) && walk[0] == root && walk[|walk| - 1] == c;
    assert IsWalk(Edges(db, mode), walk + [d]);
  }

  /** Nothing that a staged job needs is missing, and no job is staged without a reason. */
  lemma StagedForAReason(db: UnitDb, config: JobConf, mode: JobMode, staged: Units)
    requires Expanded(db, config, mode, staged)
    ensures forall c, d :: InStage(staged, c) && Edges(db, mode)(c, d) ==> InStage(staged, d)
    ensures forall d :: InStage(staged, d) ==>
              ComesTo(db, config, d) || exists c :: InStage(staged, c) && Edges(db, mode)(c, d)
  {
    var edge := Edges(db, mode);
    var root :| ComesTo(db, config, root) && ReachedFrom(edge, root, staged);
    forall c, d | InStage(staged, c) && edge(c, d)
      ensures InStage(staged, d)
    {
      ReachedIsClosed(db, mode, root, c, d);
    }
    forall d | InStage(staged, d) && d != root
      ensures exists c :: InStage(staged, c) && edge(c, d)
    {
      var c := LastStep(edge, root, d);
      assert InStage(staged, c) && edge(c, d);
    }
  }

  /** The last step of a walk to another node. */
  lemma LastStep(edge: (JobConf, JobConf) -> bool, from: JobConf, to: JobConf) returns (c: JobConf)
    requires Reaches(edge, from, to) && from != to
    ensures Reaches(edge, from, c) && edge(c, to)
  {
    var walk :| IsWalk(edge, walk) && walk[0] == from && walk[|walk| - 1] == to;
    var before := walk[..|walk| - 1];
    c := before[|before| - 1];
    assert edge(walk[|walk| - 2], walk[|walk| - 1]);
    assert IsWalk(edge, before);
  }

  // ---------------------------------------------------------------- verification

  /** A stage that conflicts with itself is refused, and so is one that conflicts with the live
      jobs, unless the mode allows it to replace them and none of them is irreversible. */
  ghost predicate Refused(stage: Units, units: Units, mode: JobMode) {
    || (exists u :: u in stage && IsConflict(stage[u].suspends.Keys))
    || (Conflicts(units, stage)
        && (mode == Fail || exists u :: ConflictsAt(units, stage, u) && IsIrreversible(units[u])))
  }

  method JobTransVerify(stage: JobTable, jobs: JobTable, mode: JobMode) returns (r: Result<()>)
    requires jobs.Live()
    ensures r.Failure? <==> Refused(stage.tUnit.tData, jobs.tUnit.tData, mode)
    ensures r.Failure? ==> r.error == Conflict
  {
    var conflict := stage.IsSuspendsConflict();
    if conflict {
      return Failure(Conflict);
    }
    conflict := jobs.IsSuspendsConflictWith(stage);
    if !conflict {
      return Success(());
    }
    if mode != Fail {
      var may := jobs.IsSuspendsReplaceWith(stage);
      if may {
        return Success(());
      }
    }
    return Failure(Conflict);
  }
}
