/** A step function applied round after round, keeping each round's output. */
module Rounds {

  /** n rounds of a step from s: the final state and each round's output in order. */
  function Run<S, M>(step: S -> (S, M), s: S, n: nat): (r: (S, seq<M>))
    ensures |r.1| == n
  {
    if n == 0 then (s, [])
    else
      var prev := Run(step, s, n - 1);
      var next := step(prev.0);
      (next.0, prev.1 + [next.1])
  }

  /** The first m outputs of n rounds are the outputs of m rounds: later rounds do not rewrite earlier ones. */
  lemma {:induction false} RunPrefix<S, M>(step: S -> (S, M), s: S, n: nat, m: nat)
    requires m <= n
    ensures Run(step, s, n).1[..m] == Run(step, s, m).1
  {
    if m < n {
      RunPrefix(step, s, n - 1, m);
      var prev := Run(step, s, n - 1).1;
      assert Run(step, s, n).1[..n - 1] == prev;
      assert Run(step, s, n).1[..m] == prev[..m];
    }
  }
}
