/** Why the ordering of jobs (core/bin/job/table.rs `is_uv_runnable`, core/bin/job/junit.rs
    `is_next_trigger_order_with`, core/bin/job/entry.rs `job_order_compare`) cannot lock up. */
module Ordering {
  import opened JobTypes
  import opened UnitSpec
  import opened TableSpec

  // ---------------------------------------------------------------- what holds a unit back

  /** Every unit reads the neighbours it is ordered with in the table. */
  predicate Runnable(db: UnitDb, units: Units, u: UnitId)
    requires u in units && HasNext(units[u])
  {
    && RunnableBy(db, units, u, After)
    && RunnableBy(db, units, u, Before)
  }

  predicate RunnableBy(db: UnitDb, units: Units, u: UnitId, atom: Atom)
    requires u in units && HasNext(units[u]) && (atom == Before || atom == After)
  {
    forall v :: v in db.DepGetsAtom(u, atom) && v in units ==> OrderedWith(NextTrigger(units[u]), units[v], atom)
  }

  /** Ready if pausing is left aside. */
  predicate HasNext(s: UnitState) {
    NaturalReady(s).Some? && (NaturalReady(s).value ==> s.sq[0] in s.suspends)
  }

  /** Who may run does not depend on what the index knows. */
  lemma RunnableSame(db: UnitDb, units: Units, u: UnitId)
    requires u in units && HasNext(units[u])
    ensures HasNext(units[u].(upReady := false))
    ensures Runnable(db, units[u := units[u].(upReady := false)], u) <==> Runnable(db, units, u)
  {
  }

  predicate Binding(job: Job) {
    !job.attr.ignoreOrder && job.kind != Nop && job.runKind != Nop
  }

  /** A job of `s` that is about to stop the unit, and takes part in the ordering. */
  ghost predicate Stopping(s: UnitState) {
    || (exists k :: k in s.suspends && Binding(s.suspends[k]) && s.suspends[k].runKind == Stop)
    || (s.trigger.Some? && Binding(s.trigger.value) && s.trigger.value.runKind == Stop)
  }

  ghost predicate Working(s: UnitState) {
    || (exists k :: k in s.suspends && Binding(s.suspends[k]))
    || (s.trigger.Some? && Binding(s.trigger.value))
  }

  /** What holds a job back, exactly: a successor that is still stopping holds back every job,
      and a predecessor with any job holds back all but those that stop. */
  lemma HeldBack(job: Job, other: UnitState, atom: Atom)
    requires atom == Before || atom == After
    requires UnitInv(other) && RunKindOk(job)
    ensures OrderedWith(job, other, atom) <==>
            !Binding(job)
            || (if atom == Before then !Stopping(other) else job.runKind == Stop || !Working(other))
  {
    forall k | k in other.suspends
      ensures IsOrderWith(job, other.suspends[k], atom) > 0 <==>
              Binding(job) && Binding(other.suspends[k])
              && (if atom == Before then other.suspends[k].runKind == Stop else job.runKind != Stop)
    {
      assert SuspendOk(other.unit, k, other.suspends[k]);
    }
  }

  // ---------------------------------------------------------------- the order of units

  ghost predicate IsPath(db: UnitDb, path: seq<UnitId>) {
    |path| >= 2 && forall i :: 0 <= i < |path| - 1 ==> path[i + 1] in db.DepGetsAtom(path[i], Before)
  }

  /** No unit is before itself, however indirectly. */
  ghost predicate Acyclic(db: UnitDb) {
    forall path :: IsPath(db, path) ==> path[0] != path[|path| - 1]
  }

  /** `UnitDepData::insert` enters every ordering in both directions. */
  ghost predicate AfterIsInverse(db: UnitDb) {
    forall u, v :: v in db.DepGetsAtom(u, After) <==> u in db.DepGetsAtom(v, Before)
  }

  ghost predicate HasNeighbour(db: UnitDb, s: set<UnitId>, u: UnitId, atom: Atom) {
    exists v :: v in s && v in db.DepGetsAtom(u, atom)
  }

  ghost predicate AllHaveNeighbours(db: UnitDb, s: set<UnitId>, atom: Atom) {
    forall u {:trigger HasNeighbour(db, s, u, atom)} :: u in s ==> HasNeighbour(db, s, u, atom)
  }

  /** A walk that stays inside `s` and never gets stuck. */
  lemma {:induction false} WalkInside(db: UnitDb, s: set<UnitId>, n: nat) returns (path: seq<UnitId>)
    requires s != {} && AllHaveNeighbours(db, s, Before)
    ensures |path| == n + 1
    ensures forall i :: 0 <= i <= n ==> path[i] in s
    ensures forall i :: 0 <= i < n ==> path[i + 1] in db.DepGetsAtom(path[i], Before)
  {
    if n == 0 {
      var u :| u in s;
      path := [u];
    } else {
      var shorter := WalkInside(db, s, n - 1);
      assert HasNeighbour(db, s, shorter[n - 1], Before);
      var v :| v in s && v in db.DepGetsAtom(shorter[n - 1], Before);
      path := shorter + [v];
    }
  }

  /** A walk longer than its set of units meets a unit twice. */
  lemma {:induction false} Pigeonhole(path: seq<UnitId>, s: set<UnitId>) returns (i: nat, j: nat)
    requires |path| > |s| && forall k :: 0 <= k < |path| ==> path[k] in s
    ensures i < j < |path| && path[i] == path[j]
  {
    var last := |path| - 1;
    if k :| 0 <= k < last && path[k] == path[last] {
      i, j := k, last;
    } else {
      i, j := Pigeonhole(path[..last], s - {path[last]});
    }
  }

  /** Among finitely many units one has none of the others behind it. */
  lemma LastUnit(db: UnitDb, s: set<UnitId>) returns (u: UnitId)
    requires Acyclic(db) && s != {}
    ensures u in s && forall v :: v in s ==> v !in db.DepGetsAtom(u, Before)
  {
    if AllHaveNeighbours(db, s, Before) {
      var path := WalkInside(db, s, |s|);
      var i, j := Pigeonhole(path, s);
      var loop := path[i..j + 1];
      assert IsPath(db, loop);
      assert false;
    }
    u :| u in s && !HasNeighbour(db, s, u, Before);
  }

  // ---------------------------------------------------------------- the theorem

  /** The job that is next stops the unit whenever any job of the unit does. */
  lemma NextStops(s: UnitState)
    requires UnitInv(s) && HasNext(s) && Stopping(s)
    ensures NextTrigger(s).runKind == Stop && RunKindOk(NextTrigger(s))
  {
  }

  lemma CanonFrontOf(s: UnitState)
    requires UnitInv(s) && HasNext(s)
    ensures (exists k :: k in s.suspends && s.suspends[k].runKind == Stop) ==>
              NaturalReady(s).value && s.suspends[s.sq[0]].runKind == Stop
    ensures !NaturalReady(s).value ==> s.trigger.Some? && RunKindOk(s.trigger.value)
    ensures NaturalReady(s).value ==> SuspendOk(s.unit, s.sq[0], s.suspends[s.sq[0]])
    ensures NaturalReady(s).value && s.trigger.Some? ==> s.suspends[s.sq[0]].runKind == Stop
  {
  }

  /** Deadlock freedom: whenever all units with jobs could go on, at least one may. */
  lemma SomeUnitMayRun(db: UnitDb, units: Units) returns (u: UnitId)
    requires Acyclic(db) && AfterIsInverse(db)
    requires UnitsOk(units) && units != map[]
    requires forall v :: v in units ==> HasNext(units[v])
    ensures u in units && Runnable(db, units, u)
  {
    var stopping := set v | v in units && Stopping(units[v]);
    if stopping != {} {
      // the last of those that stop waits for nobody
      u := LastUnit(db, stopping);
      NextStops(units[u]);
      forall v, atom | (atom == Before || atom == After) && v in db.DepGetsAtom(u, atom) && v in units
        ensures OrderedWith(NextTrigger(units[u]), units[v], atom)
      {
        HeldBack(NextTrigger(units[u]), units[v], atom);
      }
    } else {
      // nobody stops: the first of all units waits for nobody
      u := FirstUnit(db, units.Keys);
      CanonFrontOf(units[u]);
      forall v, atom | (atom == Before || atom == After) && v in db.DepGetsAtom(u, atom) && v in units
        ensures OrderedWith(NextTrigger(units[u]), units[v], atom)
      {
        HeldBack(NextTrigger(units[u]), units[v], atom);
        assert v !in stopping;
      }
    }
  }

  /** Among finitely many units one has none of the others in front of it. */
  lemma FirstUnit(db: UnitDb, s: set<UnitId>) returns (u: UnitId)
    requires Acyclic(db) && AfterIsInverse(db) && s != {}
    ensures u in s && forall v :: v in s ==> v !in db.DepGetsAtom(u, After)
  {
    if AllHaveNeighbours(db, s, After) {
      var path := WalkBack(db, s, |s|);
      var i, j := Pigeonhole(path, s);
      var loop := path[i..j + 1];
      assert IsPath(db, loop);
      assert false;
    }
    u :| u in s && !HasNeighbour(db, s, u, After);
  }

  lemma {:induction false} WalkBack(db: UnitDb, s: set<UnitId>, n: nat) returns (path: seq<UnitId>)
    requires AfterIsInverse(db) && s != {} && AllHaveNeighbours(db, s, After)
    ensures |path| == n + 1
    ensures forall i :: 0 <= i <= n ==> path[i] in s
    ensures forall i :: 0 <= i < n ==> path[i + 1] in db.DepGetsAtom(path[i], Before)
  {
    if n == 0 {
      var u :| u in s;
      path := [u];
    } else {
      var shorter := WalkBack(db, s, n - 1);
      assert HasNeighbour(db, s, shorter[0], After);
      var v :| v in s && v in db.DepGetsAtom(shorter[0], After);
      path := [v] + shorter;
    }
  }
}
