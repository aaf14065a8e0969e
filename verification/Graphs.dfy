/** Reachability over a relation, and that it is the least set closed under the relation. */
module Graphs {

  ghost predicate IsWalk<T(!new)>(edge: (T, T) -> bool, walk: seq<T>) {
    walk != [] && forall i :: 0 <= i < |walk| - 1 ==> edge(walk[i], walk[i + 1])
  }

  ghost predicate Reaches<T(!new)>(edge: (T, T) -> bool, from: T, to: T) {
    exists walk :: IsWalk(edge, walk) && walk[0] == from && walk[|walk| - 1] == to
  }

  ghost predicate Closed<T(!new)>(edge: (T, T) -> bool, nodes: set<T>) {
    forall a, b :: a in nodes && edge(a, b) ==> b in nodes
  }

  lemma ReachesItself<T(!new)>(edge: (T, T) -> bool, a: T)
    ensures Reaches(edge, a, a)
  {
    assert IsWalk(edge, [a]);
  }

  lemma ReachesFurther<T(!new)>(edge: (T, T) -> bool, a: T, b: T, c: T)
    requires edge(a, b) && Reaches(edge, b, c)
    ensures Reaches(edge, a, c)
  {
    var walk :| IsWalk(edge, walk) && walk[0] == b && walk[|walk| - 1] == c;
    assert IsWalk(edge, [a] + walk);
  }

  /** A closed set holds everything that its members reach. */
  lemma {:induction false} ClosedHolds<T(!new)>(edge: (T, T) -> bool, nodes: set<T>, walk: seq<T>)
    requires Closed(edge, nodes) && IsWalk(edge, walk) && walk[0] in nodes
    ensures walk[|walk| - 1] in nodes
  {
    if |walk| > 1 {
      assert edge(walk[0], walk[1]);
      assert IsWalk(edge, walk[1..]);
      ClosedHolds(edge, nodes, walk[1..]);
    }
  }
}
