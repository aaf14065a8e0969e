/** Sequences of states in which each leads on to the next, whatever leads on means. */
module Runs {
  /** Nothing but a name for the steps that are to be looked at. */
  predicate Nth(i: int) {
    true
  }

  ghost predicate Linked<S>(step: (int, S, S) -> bool, trace: seq<S>) {
    forall i: int {:trigger Nth(i)} :: Nth(i) && 0 <= i < |trace| - 1 ==> step(i, trace[i], trace[i + 1])
  }

  lemma LinkedAt<S>(step: (int, S, S) -> bool, trace: seq<S>, i: nat)
    requires Linked(step, trace) && i + 1 < |trace|
    ensures step(i, trace[i], trace[i + 1])
  {
    assert Nth(i);
  }

  lemma LinkedOn<S>(step: (int, S, S) -> bool, trace: seq<S>, now: S)
    requires |trace| > 0 && Linked(step, trace) && step(|trace| - 1, trace[|trace| - 1], now)
    ensures Linked(step, trace + [now])
  {
    var longer := trace + [now];
    forall i: int | Nth(i) && 0 <= i < |longer| - 1
      ensures step(i, longer[i], longer[i + 1])
    {
      assert i < |trace| - 1 ==> step(i, trace[i], trace[i + 1]);
    }
  }

  /** The same with a name for each step. */
  ghost predicate Led<S, E>(step: (S, E, S) -> bool, trace: seq<S>, events: seq<E>) {
    && |trace| == |events| + 1
    && forall i: int {:trigger Nth(i)} :: Nth(i) && 0 <= i < |events| ==> step(trace[i], events[i], trace[i + 1])
  }

  lemma LedAt<S, E>(step: (S, E, S) -> bool, trace: seq<S>, events: seq<E>, i: nat)
    requires Led(step, trace, events) && i < |events|
    ensures step(trace[i], events[i], trace[i + 1])
  {
    assert Nth(i);
  }

  lemma LedOnce<S, E>(step: (S, E, S) -> bool, s: S, e: E, s': S)
    requires step(s, e, s')
    ensures Led(step, [s, s'], [e])
  {
  }

  lemma LedOn<S, E>(step: (S, E, S) -> bool, trace: seq<S>, events: seq<E>, more: seq<S>, others: seq<E>)
    requires Led(step, trace, events) && Led(step, more, others) && trace[|events|] == more[0]
    ensures Led(step, trace[..|events|] + more, events + others)
  {
    var longer, all := trace[..|events|] + more, events + others;
    forall i: int | Nth(i) && 0 <= i < |all|
      ensures step(longer[i], all[i], longer[i + 1])
    {
      if i < |events| {
        LedAt(step, trace, events, i);
      } else {
        LedAt(step, more, others, i - |events|);
      }
    }
  }

  /** Some steps lead from one state to the other. */
  ghost predicate Reach<S(!new), E(!new)>(step: (S, E, S) -> bool, s: S, s': S) {
    exists trace: seq<S>, events: seq<E> :: Led(step, trace, events) && trace[0] == s && trace[|events|] == s'
  }

  lemma ReachItself<S(!new), E(!new)>(step: (S, E, S) -> bool, s: S)
    ensures Reach(step, s, s)
  {
    var none: seq<E> := [];
    assert Led(step, [s], none);
  }

  lemma ReachNext<S(!new), E(!new)>(step: (S, E, S) -> bool, s: S, e: E, s': S)
    requires step(s, e, s')
    ensures Reach(step, s, s')
  {
    LedOnce(step, s, e, s');
    assert [s, s'][|[e]|] == s';
  }

  lemma ReachOn<S(!new), E(!new)>(step: (S, E, S) -> bool, s: S, mid: S, s': S)
    requires Reach(step, s, mid) && Reach(step, mid, s')
    ensures Reach(step, s, s')
  {
    var trace, events :| Led(step, trace, events) && trace[0] == s && trace[|events|] == mid;
    var more, others :| Led(step, more, others) && more[0] == mid && more[|others|] == s';
    LedOn(step, trace, events, more, others);
    assert (trace[..|events|] + more)[|events + others|] == s';
  }

  lemma ReachBy<S(!new), E(!new)>(step: (S, E, S) -> bool, s: S, s': S) returns (trace: seq<S>, events: seq<E>)
    requires Reach(step, s, s')
    ensures Led(step, trace, events) && trace[0] == s && trace[|events|] == s'
  {
    trace, events :| Led(step, trace, events) && trace[0] == s && trace[|events|] == s';
  }

  /** What each step keeps, all of them keep. */
  lemma {:induction false} UpTo(good: nat -> bool, n: nat)
    requires good(0) && forall i: nat :: i < n && good(i) ==> good(i + 1)
    ensures good(n)
  {
    if n > 0 {
      UpTo(good, n - 1);
    }
  }
}
