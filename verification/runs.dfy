/** Runs of a state machine.

    A protocol is given by a relation `next` between states: one atomic section
    of one goroutine, or one event of the environment. A run is any finite
    sequence of states in which each is followed by a next one, so "for every
    run" means "for every interleaving".
 */
module Runs {

  ghost predicate IsRun<S(!new)>(next: (S, S) -> bool, run: seq<S>)
  {
    && |run| > 0
    && forall i | 0 < i < |run| :: next(run[i - 1], run[i])
  }

  ghost function Last<S>(run: seq<S>): S
    requires |run| > 0
  {
    run[|run| - 1]
  }

  /** A run that no schedule can continue. */
  ghost predicate Complete<S(!new)>(next: (S, S) -> bool, run: seq<S>)
    requires |run| > 0
  {
    var s := Last(run);
    forall t :: !next(s, t)
  }

  /** A run goes on with any step from its last state. */
  lemma Extend<S(!new)>(next: (S, S) -> bool, run: seq<S>, s: S)
    requires IsRun(next, run) && next(Last(run), s)
    ensures IsRun(next, run + [s]) && Last(run + [s]) == s && (run + [s])[0] == run[0]
  {
  }

  lemma Prepend<S(!new)>(next: (S, S) -> bool, s: S, run: seq<S>)
    requires IsRun(next, run) && next(s, run[0])
    ensures IsRun(next, [s] + run) && Last([s] + run) == Last(run)
  {
    forall i | 0 < i < |[s] + run|
      ensures next(([s] + run)[i - 1], ([s] + run)[i])
    {
      if i > 1 {
        assert next(run[i - 2], run[i - 1]);
      }
    }
  }

  /** A property of the first state that every step keeps holds throughout. */
  lemma {:induction false} Always<S(!new)>(next: (S, S) -> bool, inv: S -> bool, run: seq<S>)
    requires IsRun(next, run) && inv(run[0])
    requires forall s, t | inv(s) && next(s, t) :: inv(t)
    ensures forall i | 0 <= i < |run| :: inv(run[i])
  {
    var n := |run| - 1;
    if n > 0 {
      assert IsRun(next, run[..n]);
      Always(next, inv, run[..n]);
      assert run[..n][n - 1] == run[n - 1];
      assert next(run[n - 1], run[n]);
      forall i | 0 <= i < |run|
        ensures inv(run[i])
      {
        if i < n {
          assert run[..n][i] == run[i];
        }
      }
    }
  }

  /** If every step lowers a measure, the measure bounds the length of a run:
      no schedule goes on for ever. */
  lemma {:induction false} Bounded<S(!new)>(next: (S, S) -> bool, inv: S -> bool, measure: S -> nat, run: seq<S>)
    requires IsRun(next, run) && inv(run[0])
    requires forall s, t | inv(s) && next(s, t) :: inv(t) && measure(t) < measure(s)
    ensures |run| - 1 + measure(Last(run)) <= measure(run[0])
  {
    var n := |run| - 1;
    if n > 0 {
      assert IsRun(next, run[..n]);
      Bounded(next, inv, measure, run[..n]);
      Always(next, inv, run);
      assert run[..n][n - 1] == run[n - 1] && run[..n][0] == run[0];
      assert inv(run[n - 1]) && next(run[n - 1], run[n]);
    }
  }

  /** A run together with the actions taken in it. */
  ghost predicate IsTrace<S(!new), A(!new)>(step: (S, A, S) -> bool, run: seq<S>, acts: seq<A>)
  {
    && |run| == |acts| + 1
    && forall i | 0 <= i < |acts| :: step(run[i], acts[i], run[i + 1])
  }

  lemma TraceExtend<S(!new), A(!new)>(step: (S, A, S) -> bool, run: seq<S>, acts: seq<A>, a: A, s: S)
    requires IsTrace(step, run, acts) && step(Last(run), a, s)
    ensures IsTrace(step, run + [s], acts + [a])
    ensures Last(run + [s]) == s && (run + [s])[0] == run[0]
  {
  }

  /** A trace without its last action is a trace. */
  lemma Shorter<S(!new), A(!new)>(step: (S, A, S) -> bool, run: seq<S>, acts: seq<A>)
    requires IsTrace(step, run, acts) && acts != []
    ensures IsTrace(step, run[..|acts|], acts[..|acts| - 1])
    ensures step(run[|acts| - 1], acts[|acts| - 1], run[|acts|])
    ensures run[..|acts|][0] == run[0] && Last(run[..|acts|]) == run[|acts| - 1]
  {
    var n := |acts| - 1;
    forall i | 0 <= i < n
      ensures step(run[..n + 1][i], acts[..n][i], run[..n + 1][i + 1])
    {
      assert step(run[i], acts[i], run[i + 1]);
    }
  }
}
