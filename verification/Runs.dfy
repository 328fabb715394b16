/** Runs of a state machine given by its step relation, and induction over them. */
module Runs {

  /** `states[i]` is the state before event i. */
  ghost predicate Path<S, E>(next: (S, E, S) -> bool, states: seq<S>, events: seq<E>) {
    && |states| == |events| + 1
    && forall i: nat {:trigger events[i]} :: i < |events| ==> next(states[i], events[i], states[i + 1])
  }

  /** `inv` speaks of a state and of the number of steps taken to reach it. */
  ghost predicate Inductive<S(!new), E(!new)>(next: (S, E, S) -> bool, inv: (nat, S) -> bool) {
    forall i: nat, s, e, t {:trigger inv(i, s), next(s, e, t)} :: inv(i, s) && next(s, e, t) ==> inv(i + 1, t)
  }

  lemma {:induction false} Kept<S(!new), E(!new)>(
    next: (S, E, S) -> bool, inv: (nat, S) -> bool, states: seq<S>, events: seq<E>, i: nat, m: nat)
    requires Path(next, states, events) && i <= m < |states|
    requires Inductive(next, inv) && inv(i, states[i])
    ensures inv(m, states[m])
  {
    if i < m {
      Kept(next, inv, states, events, i, m - 1);
      assert next(states[m - 1], events[m - 1], states[m]);
    }
  }

  /** The total weight of steps j .. m-1. */
  ghost function Total<S, E>(weight: (S, E) -> nat, states: seq<S>, events: seq<E>, j: nat, m: nat): nat
    requires j <= m <= |events| && |states| == |events| + 1
    decreases m
  {
    if m == j then 0 else Total(weight, states, events, j, m - 1) + weight(states[m - 1], events[m - 1])
  }

  /** `value` grows at each step by the weight of the step. */
  ghost predicate Measures<S(!new), E(!new)>(next: (S, E, S) -> bool, value: S -> int, weight: (S, E) -> nat) {
    forall s, e, t {:trigger next(s, e, t)} :: next(s, e, t) ==> value(t) == value(s) + weight(s, e)
  }

  lemma {:induction false} Measured<S(!new), E(!new)>(
    next: (S, E, S) -> bool, value: S -> int, weight: (S, E) -> nat,
    states: seq<S>, events: seq<E>, j: nat, m: nat)
    requires Path(next, states, events) && j <= m < |states| && Measures(next, value, weight)
    ensures value(states[m]) == value(states[j]) + Total(weight, states, events, j, m)
  {
    if j < m {
      Measured(next, value, weight, states, events, j, m - 1);
      assert next(states[m - 1], events[m - 1], states[m]);
    }
  }
}
