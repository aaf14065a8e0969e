/** Job ids (core/bin/job/alloc.rs): 32-bit, handed out in order, wrapping around, and never
    handed out twice before `clear`. */
module JobAllocs {
  const ID_NUM: nat := 0x1_0000_0000

  ghost predicate AreIds(ids: set<nat>) {
    forall id :: id in ids ==> id < ID_NUM
  }

  function NextId(id: nat): nat
    requires id < ID_NUM
  {
    if id == ID_NUM - 1 then 0 else id + 1
  }

  /** How many steps lead from `id` to `target`, wrapping around; at least one. */
  function Distance(id: nat, target: nat): (d: nat)
    requires id < ID_NUM && target < ID_NUM
    ensures 1 <= d <= ID_NUM
  {
    if target > id then target - id else ID_NUM - id + target
  }

  /** Some id is free as long as not all of them are used. */
  lemma {:induction false} FreeBelow(ids: set<nat>, n: nat) returns (free: nat)
    requires |ids| < n && forall id :: id in ids ==> id < n
    ensures free < n && free !in ids
  {
    if n - 1 !in ids {
      free := n - 1;
    } else {
      free := FreeBelow(ids - {n - 1}, n - 1);
    }
  }

  /** The `d` ids that come next, when all of them are used, are `d` used ids. */
  lemma {:induction false} UsedAhead(ids: set<nat>, start: nat, d: nat)
    requires start < ID_NUM && d < ID_NUM
    requires forall other: nat :: other < ID_NUM && Distance(start, other) <= d ==> other in ids
    ensures d <= |ids|
  {
    if d > 0 {
      var id := if start + d < ID_NUM then start + d else start + d - ID_NUM;
      assert Distance(start, id) == d;
      UsedAhead(ids - {id}, start, d - 1);
    }
  }

  class JobAlloc {
    var ids: set<nat>
    var lastId: nat

    ghost predicate Valid()
      reads this
    {
      AreIds(ids) && lastId < ID_NUM
    }

    constructor ()
      ensures Valid() && ids == {} && lastId == 0
    {
      ids, lastId := {}, 0;
    }

    method Clear()
      modifies this
      ensures Valid() && ids == {} && lastId == 0
    {
      ids, lastId := {}, 0;
    }

    /** The next id that is not used; with all 2^32 used it would search forever. The loop gets
        closer, going round, to a free id, and passes only used ones on the way. */
    method AllocId() returns (id: nat)
      requires Valid() && |ids| < ID_NUM
      modifies this
      ensures Valid() && id < ID_NUM && id !in old(ids) && ids == old(ids) + {id} && lastId == id
      ensures forall other: nat :: other < ID_NUM && Distance(old(lastId), other) < Distance(old(lastId), id) ==>
                other in old(ids)
      ensures Distance(old(lastId), id) <= |old(ids)| + 1
    {
      ghost var free := FreeBelow(ids, ID_NUM);
      ghost var start := lastId;
      ghost var steps := 0;
      while true
        invariant Valid() && ids == old(ids)
        invariant steps == (if lastId >= start then lastId - start else ID_NUM - start + lastId) < Distance(start, free)
        invariant forall other: nat :: other < ID_NUM && Distance(start, other) <= steps ==> other in ids
        decreases Distance(start, free) - steps
      {
        id := NextId(lastId);
        lastId := id;
        steps := steps + 1;
        assert steps == Distance(start, id);
        if id in ids {
          continue;
        }
        UsedAhead(ids, start, steps - 1);
        ids := ids + {id};
        return;
      }
    }
  }
}
