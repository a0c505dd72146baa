/** The exploration-parameter schedule shared by every agent: after each
    update a non-zero parameter is lowered by the anneal rate and floored
    at zero. */
module Annealing {

  /** `max(0, x)`. */
  function Floored(x: real): (r: real)
    ensures r >= 0.0 && r >= x
    ensures r == x || r == 0.0
  {
    if x > 0.0 then x else 0.0
  }

  /** One annealing step: a zero parameter stays zero, any other becomes
      `max(0, param - rate)`. */
  function Anneal(param: real, rate: real): (p: real)
    ensures p >= 0.0
    ensures param >= 0.0 && rate >= 0.0 ==> p <= param
    ensures param == 0.0 ==> p == 0.0
  {
    if param != 0.0 then Floored(param - rate) else param
  }

  /** The parameter after `n` annealing steps from `param`. */
  function AnnealSteps(param: real, rate: real, n: nat): real
  {
    if n == 0 then param else Anneal(AnnealSteps(param, rate, n - 1), rate)
  }

  /** If `n - 1` steps give `max(0, x)`, then `n` steps give
      `max(0, x - rate)`. */
  lemma AnnealStepFloored(param: real, rate: real, n: nat, x: real)
    requires n > 0 && rate >= 0.0
    requires AnnealSteps(param, rate, n - 1) == Floored(x)
    ensures AnnealSteps(param, rate, n) == Floored(x - rate)
  {
    if x > 0.0 {
      assert Floored(x) == x;
    }
  }

  /** From a non-negative start and a non-negative rate, `n` steps give
      `max(0, param - n * rate)`. */
  lemma {:induction false} AnnealStepsClosedForm(param: real, rate: real, n: nat)
    requires param >= 0.0 && rate >= 0.0
    ensures AnnealSteps(param, rate, n) == Floored(param - (n as real) * rate)
  {
    if n > 0 {
      var m := (n - 1) as real;
      var before := param - m * rate;
      assert before - rate == param - (n as real) * rate by {
        assert n as real == m + 1.0;
        assert (m + 1.0) * rate == m * rate + rate;
      }
      AnnealStepsClosedForm(param, rate, n - 1);
      AnnealStepFloored(param, rate, n, before);
    }
  }

  /** With a positive rate the parameter is exactly zero after `n` steps
      precisely when `n * rate` has reached the initial value, i.e. from
      `ceil(param / rate)` steps on; before that it is still positive. */
  lemma AnnealReachesZero(param: real, rate: real, n: nat)
    requires param >= 0.0 && rate > 0.0
    ensures AnnealSteps(param, rate, n) == 0.0 <==> (n as real) * rate >= param
    ensures (n as real) * rate < param ==> AnnealSteps(param, rate, n) == param - (n as real) * rate
  {
    AnnealStepsClosedForm(param, rate, n);
  }
}
