/** The write-back cache of core/lib/rel/base.rs over the transactional database of
    core/lib/rel/history.rs. */
module ReliStore {
  import opened Wrappers

  // ---------------------------------------------------------------- the log of one table

  /** Replaying the log of a table: the deletions and the insertions since the last export. */
  function Replay<K, V>(rows: map<K, V>, add: map<K, V>, del: set<K>): map<K, V> {
    (rows - del) + add
  }

  /** Writing the log out in the order of `cache_2_db`, insertions first, has the same effect
      as long as no key is both inserted and deleted. */
  lemma ExportOrder<K, V>(rows: map<K, V>, add: map<K, V>, del: set<K>)
    requires add.Keys !! del
    ensures (rows + add) - del == Replay(rows, add, del)
  {
  }

  /** Without disjointness it has not: a key that is in both logs is lost. */
  lemma ExportOrderMatters<K, V>(rows: map<K, V>, add: map<K, V>, del: set<K>, k: K)
    requires k in add && k in del
    ensures (rows + add) - del != Replay(rows, add, del)
  {
  }

  /** A write transaction: nothing in it is durable before it is committed. */
  class RwTxn<K(==), V(==)> {
    var work: map<string, map<K, V>>

    constructor (durable: map<string, map<K, V>>)
      ensures work == durable
    {
      work := durable;
    }

    method Put(name: string, k: K, v: V)
      requires name in work
      modifies this
      ensures work == old(work)[name := old(work)[name][k := v]]
    {
      work := work[name := work[name][k := v]];
    }

    method Delete(name: string, k: K)
      requires name in work
      modifies this
      ensures work == old(work)[name := old(work)[name] - {k}]
    {
      work := work[name := work[name] - {k}];
    }
  }

  class ReDb<K(==), V(==)> {
    const name: string
    var ignore: bool
    var cache: map<K, V>
    var add: map<K, V>
    var del: set<K>
    /** What the database holds for this table since the last export or import. */
    ghost var base: map<K, V>

    ghost predicate Valid()
      reads this
    {
      add.Keys !! del && cache == Replay(base, add, del)
    }

    constructor (name: string)
      ensures Valid() && this.name == name && !ignore
      ensures cache == map[] && base == map[] && add == map[] && del == {}
    {
      this.name := name;
      ignore, cache, add, del := false, map[], map[], {};
      base := map[];
    }

    method SetIgnore(value: bool)
      modifies this`ignore
      ensures ignore == value
    {
      ignore := value;
    }

    method Insert(k: K, v: V)
      requires Valid()
      modifies this`cache, this`add, this`del
      ensures Valid()
      ensures cache == if ignore then old(cache) else old(cache)[k := v]
    {
      if ignore {
        return;
      }
      del := del - {k};
      add := add[k := v];
      cache := cache[k := v];
    }

    method Remove(k: K)
      requires Valid()
      modifies this`cache, this`add, this`del
      ensures Valid()
      ensures cache == if ignore then old(cache) else old(cache) - {k}
    {
      if ignore {
        return;
      }
      add := add - {k};
      del := del + {k};
      cache := cache - {k};
    }

    method Get(k: K) returns (v: Option<V>)
      ensures v == if k in cache then Some(cache[k]) else None
    {
      v := if k in cache then Some(cache[k]) else None;
    }

    /** `cache_2_db`: put the insertions, delete the deletions, forget both. */
    method Cache2Db(txn: RwTxn<K, V>)
      requires Valid() && name in txn.work && txn.work[name] == base
      modifies this`add, this`del, this`base, txn
      ensures Valid() && base == cache && add == map[] && del == {}
      ensures txn.work == old(txn.work)[name := cache]
    {
      PutAll(txn);
      DeleteAll(txn);
      ExportOrder(base, add, del);
      add, del := map[], {};
      base := cache;
    }

    method PutAll(txn: RwTxn<K, V>)
      requires name in txn.work
      modifies txn
      ensures txn.work == old(txn.work)[name := old(txn.work)[name] + add]
    {
      var puts := add.Keys;
      ghost var rows := txn.work[name];
      assert rows + (add - puts) == rows;
      while puts != {}
        invariant puts <= add.Keys
        invariant txn.work == old(txn.work)[name := rows + (add - puts)]
      {
        var k :| k in puts;
        assert (rows + (add - puts))[k := add[k]] == rows + (add - (puts - {k}));
        puts := puts - {k};
        txn.Put(name, k, add[k]);
      }
      assert add - {} == add;
    }

    method DeleteAll(txn: RwTxn<K, V>)
      requires name in txn.work
      modifies txn
      ensures txn.work == old(txn.work)[name := old(txn.work)[name] - del]
    {
      var dels := del;
      ghost var rows := txn.work[name];
      assert rows - (del - dels) == rows;
      while dels != {}
        invariant dels <= del
        invariant txn.work == old(txn.work)[name := rows - (del - dels)]
      {
        var k :| k in dels;
        assert (rows - (del - dels)) - {k} == rows - (del - (dels - {k}));
        dels := dels - {k};
        txn.Delete(name, k);
      }
      assert del - {} == del;
    }

    /** `db_2_cache`: forget the log, then read every row back. */
    method Db2Cache(rows: map<K, V>)
      modifies this`cache, this`add, this`del, this`base
      ensures Valid() && cache == rows && base == rows && add == map[] && del == {}
    {
      add, del, cache := map[], {}, map[];
      var keys := rows.Keys;
      while keys != {}
        invariant keys <= rows.Keys && cache == rows - keys
        invariant add == map[] && del == {}
        modifies this`cache
      {
        var k :| k in keys;
        keys := keys - {k};
        cache := cache[k := rows[k]];
      }
      base := rows;
    }

    method DoClear(txn: RwTxn<K, V>)
      requires name in txn.work
      modifies this`cache, this`add, this`del, this`base, txn
      ensures Valid() && cache == map[] && base == map[]
      ensures txn.work == old(txn.work)[name := map[]]
    {
      txn.work := txn.work[name := map[]];
      cache, add, del := map[], map[], {};
      base := map[];
    }
  }

  // ---------------------------------------------------------------- the tables of one type

  /** One table less is to be exported before the process dies. */
  function OneLess(crash: Option<nat>): Option<nat> {
    match crash
    case None => None
    case Some(n) => Some(if n == 0 then 0 else n - 1)
  }

  /** The registered tables that have keys and rows of one type, and what the database holds
      for them. */
  class ReliTables<K(==), V(==)> {
    var dbs: map<string, ReDb<K, V>>
    var durable: map<string, map<K, V>>
    ghost var repr: set<ReDb<K, V>>

    ghost predicate Registered()
      reads this
    {
      forall n :: n in dbs ==> dbs[n].name == n && n in durable && dbs[n] in repr
    }

    ghost predicate Valid()
      reads this, repr
    {
      Registered() && forall n :: n in dbs ==> dbs[n].Valid() && dbs[n].base == durable[n]
    }

    /** The database holds what the tables do, and what it held of others. */
    ghost predicate Saved(before: map<string, map<K, V>>)
      reads this, repr
    {
      && Valid() && durable.Keys == before.Keys
      && forall n :: n in durable ==> durable[n] == if n in dbs then dbs[n].cache else before[n]
    }

    constructor (durable: map<string, map<K, V>>)
      ensures Valid() && dbs == map[] && this.durable == durable && repr == {}
    {
      this.durable := durable;
      dbs, repr := map[], {};
    }

    /** `create_database` and `db_register`; a new process starts with an empty cache. */
    method Register(db: ReDb<K, V>)
      requires Registered()
      modifies this
      ensures Registered() && dbs == old(dbs)[db.name := db] && repr == old(repr) + {db}
      ensures durable == if db.name in old(durable) then old(durable) else old(durable)[db.name := map[]]
    {
      if db.name !in durable {
        durable := durable[db.name := map[]];
      }
      dbs, repr := dbs[db.name := db], repr + {db};
    }

    /** What was exported into a transaction becomes durable. */
    method Keep(txn: RwTxn<K, V>, ghost caches: map<string, map<K, V>>)
      requires Exporting(txn, caches, {})
      modifies this`durable
      ensures Saved(old(durable))
    {
      durable := txn.work;
    }

    /** Part of the tables has been exported, the `rest` has not. */
    ghost predicate Exporting(txn: RwTxn<K, V>, caches: map<string, map<K, V>>, rest: set<string>)
      reads this, repr, txn
    {
      && Registered() && rest <= dbs.Keys && caches.Keys == dbs.Keys
      && (forall n :: n in dbs ==>
            dbs[n].Valid() && dbs[n].cache == caches[n] && dbs[n].base == if n in rest then durable[n] else caches[n])
      && txn.work.Keys == durable.Keys
      && (forall n :: n in durable ==> txn.work[n] == if n in dbs && n !in rest then caches[n] else durable[n])
    }

    /** The process may die before the `crash`-th table, of those that are still to be exported. */
    method ExportAll(txn: RwTxn<K, V>, ghost caches: map<string, map<K, V>>, crash: Option<nat>)
      returns (left: Option<nat>, finished: bool)
      requires Valid() && txn.work == durable
      requires caches.Keys == dbs.Keys && forall n :: n in dbs ==> dbs[n].cache == caches[n]
      modifies repr`add, repr`del, repr`base, txn
      ensures finished ==> Exporting(txn, caches, {})
      ensures crash.None? ==> finished && left.None?
    {
      left := crash;
      var rest := dbs.Keys;
      while rest != {}
        invariant Exporting(txn, caches, rest) && (crash.None? ==> left.None?)
        decreases rest
      {
        if left == Some(0) {
          return left, false;
        }
        var n :| n in rest;
        ExportOne(dbs[n], txn, caches, rest);
        rest := rest - {n};
        left := OneLess(left);
      }
      return left, true;
    }

    method ExportOne(db: ReDb<K, V>, txn: RwTxn<K, V>, ghost caches: map<string, map<K, V>>, ghost rest: set<string>)
      requires Exporting(txn, caches, rest) && db.name in rest && dbs[db.name] == db
      modifies db`add, db`del, db`base, txn
      ensures Exporting(txn, caches, rest - {db.name})
    {
      assert forall m :: m in dbs && m != db.name ==> dbs[m] != db;
      db.Cache2Db(txn);
    }

    /** Read every table back, whatever the caches held. */
    method Import()
      requires Registered()
      modifies repr`cache, repr`add, repr`del, repr`base
      ensures Valid()
      ensures forall n :: n in dbs ==> dbs[n].cache == durable[n]
    {
      var rest := dbs.Keys;
      while rest != {}
        invariant rest <= dbs.Keys && Registered()
        invariant forall n :: n in dbs.Keys - rest ==>
                    dbs[n].Valid() && dbs[n].base == durable[n] && dbs[n].cache == durable[n]
        decreases rest
      {
        var n :| n in rest;
        rest := rest - {n};
        dbs[n].Db2Cache(durable[n]);
      }
    }
  }

  // ---------------------------------------------------------------- all tables together

  /** All tables share one database environment, and are exported in one transaction. Tables of
      two types are told apart here. A crash loses everything but what is durable. */
  class ReliHistory<K(==), V(==), L(==), W(==)> {
    const some: ReliTables<K, V>
    const others: ReliTables<L, W>

    /** No table is registered twice, as of one type and as of the other. */
    ghost predicate Apart()
      reads some, others
    {
      && (some as object) != (others as object)
      && forall a, b :: a in some.repr && b in others.repr ==> (a as object) != (b as object)
    }

    ghost predicate Valid()
      reads some, others, some.repr, others.repr
    {
      Apart() && some.Valid() && others.Valid()
    }

    constructor (some: ReliTables<K, V>, others: ReliTables<L, W>)
      ensures this.some == some && this.others == others
    {
      this.some, this.others := some, others;
    }

    /** Export every table into one transaction, then commit it. With `crash` the process dies
        after that many tables: then nothing is durable that was not durable before. */
    method Commit(crash: Option<nat>) returns (committed: bool)
      requires Valid()
      modifies some`durable, others`durable
      modifies some.repr`add, some.repr`del, some.repr`base, others.repr`add, others.repr`del, others.repr`base
      ensures committed ==> Valid() && some.Saved(old(some.durable)) && others.Saved(old(others.durable))
      ensures !committed ==> some.durable == old(some.durable) && others.durable == old(others.durable)
      ensures crash.None? ==> committed
    {
      var txn := new RwTxn(some.durable);
      var otherTxn := new RwTxn(others.durable);
      committed := CommitAs(txn, otherTxn, crash);
    }

    method CommitAs(txn: RwTxn<K, V>, otherTxn: RwTxn<L, W>, crash: Option<nat>) returns (committed: bool)
      requires Valid() && txn.work == some.durable && otherTxn.work == others.durable
      requires (txn as object) != (otherTxn as object)
      modifies some`durable, others`durable, txn, otherTxn
      modifies some.repr`add, some.repr`del, some.repr`base, others.repr`add, others.repr`del, others.repr`base
      ensures committed ==> Valid() && some.Saved(old(some.durable)) && others.Saved(old(others.durable))
      ensures !committed ==> some.durable == old(some.durable) && others.durable == old(others.durable)
      ensures crash.None? ==> committed
    {
      ghost var caches := map n | n in some.dbs :: some.dbs[n].cache;
      ghost var otherCaches := map n | n in others.dbs :: others.dbs[n].cache;
      committed := ExportBoth(txn, caches, otherTxn, otherCaches, crash);
      if !committed {
        return;
      }
      KeepBoth(txn, caches, otherTxn, otherCaches);
    }

    /** The one commit. */
    method KeepBoth(
        txn: RwTxn<K, V>, ghost caches: map<string, map<K, V>>,
        otherTxn: RwTxn<L, W>, ghost otherCaches: map<string, map<L, W>>)
      requires Apart() && some.Exporting(txn, caches, {}) && others.Exporting(otherTxn, otherCaches, {})
      modifies some`durable, others`durable
      ensures Valid() && some.Saved(old(some.durable)) && others.Saved(old(others.durable))
    {
      some.Keep(txn, caches);
      others.Keep(otherTxn, otherCaches);
    }

    method ExportBoth(
        txn: RwTxn<K, V>, ghost caches: map<string, map<K, V>>,
        otherTxn: RwTxn<L, W>, ghost otherCaches: map<string, map<L, W>>, crash: Option<nat>)
      returns (finished: bool)
      requires Valid() && txn.work == some.durable && otherTxn.work == others.durable
      requires (txn as object) != (otherTxn as object)
      requires caches.Keys == some.dbs.Keys && forall n :: n in some.dbs ==> some.dbs[n].cache == caches[n]
      requires otherCaches.Keys == others.dbs.Keys
      requires forall n :: n in others.dbs ==> others.dbs[n].cache == otherCaches[n]
      modifies txn, otherTxn
      modifies some.repr`add, some.repr`del, some.repr`base, others.repr`add, others.repr`del, others.repr`base
      ensures finished ==> some.Exporting(txn, caches, {}) && others.Exporting(otherTxn, otherCaches, {})
      ensures crash.None? ==> finished
    {
      var left;
      left, finished := some.ExportAll(txn, caches, crash);
      if !finished {
        return;
      }
      finished := ExportOthers(txn, caches, otherTxn, otherCaches, left);
    }

    /** The tables of the one type have been exported, those of the other are still to be. */
    method ExportOthers(
        txn: RwTxn<K, V>, ghost caches: map<string, map<K, V>>,
        otherTxn: RwTxn<L, W>, ghost otherCaches: map<string, map<L, W>>, crash: Option<nat>)
      returns (finished: bool)
      requires Apart() && some.Exporting(txn, caches, {}) && others.Valid() && otherTxn.work == others.durable
      requires (txn as object) != (otherTxn as object)
      requires otherCaches.Keys == others.dbs.Keys
      requires forall n :: n in others.dbs ==> others.dbs[n].cache == otherCaches[n]
      modifies otherTxn, others.repr`add, others.repr`del, others.repr`base
      ensures finished ==> some.Exporting(txn, caches, {}) && others.Exporting(otherTxn, otherCaches, {})
      ensures crash.None? ==> finished
    {
      var left;
      left, finished := others.ExportAll(otherTxn, otherCaches, crash);
      finished := finished && left != Some(0);
    }

    /** Read every table back, whatever the caches held. */
    method Import()
      requires Apart() && some.Registered() && others.Registered()
      modifies some.repr`cache, some.repr`add, some.repr`del, some.repr`base
      modifies others.repr`cache, others.repr`add, others.repr`del, others.repr`base
      ensures Valid()
      ensures forall n :: n in some.dbs ==> some.dbs[n].cache == some.durable[n]
      ensures forall n :: n in others.dbs ==> others.dbs[n].cache == others.durable[n]
    {
      some.Import();
      others.Import();
    }
  }
}
