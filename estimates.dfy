/** Per-arm reward statistics: the total of the rewards an arm has received
    and their mean, with the one-step facts the value-update rules rely on. */
module Estimates {

  /** Total of a sequence of rewards (0 for no rewards). */
  function Sum(s: seq<real>): real
  {
    if s == [] then 0.0 else s[0] + Sum(s[1..])
  }

  /** Mean of a sequence of rewards; an arm that was never pulled has mean 0,
      which is the value estimate every agent starts with. */
  function Mean(s: seq<real>): real
  {
    if s == [] then 0.0 else Sum(s) / (|s| as real)
  }

  /** The total of two reward sequences laid end to end is the sum of their
      totals; with `t == [r]` this is the cumulative-reward update. */
  lemma {:induction false} SumAppend(s: seq<real>, t: seq<real>)
    ensures Sum(s + t) == Sum(s) + Sum(t)
  {
    if s == [] {
      assert s + t == t;
    } else {
      assert (s + t)[1..] == s[1..] + t;
      SumAppend(s[1..], t);
    }
  }

  /** Rewards that are all positive have a positive total. */
  lemma {:induction false} SumPositive(s: seq<real>)
    requires |s| > 0
    requires forall i :: 0 <= i < |s| ==> s[i] > 0.0
    ensures Sum(s) > 0.0
  {
    if |s| > 1 {
      SumPositive(s[1..]);
    }
  }

  /** The incremental rule `Q <- Q + 1/(k+1) * (r - Q)` turns the mean of k
      rewards into the mean of those k rewards followed by r. */
  lemma MeanStep(s: seq<real>, r: real)
    ensures Mean(s + [r]) == Mean(s) + (1.0 / ((|s| + 1) as real)) * (r - Mean(s))
  {
    SumAppend(s, [r]);
    assert Sum([r]) == r;
    if s != [] {
      var n := |s| as real;
      var m := Mean(s);
      assert Sum(s) == m * n;
      assert Mean(s + [r]) == (m * n + r) / (n + 1.0);
      calc {
        m + (1.0 / (n + 1.0)) * (r - m);
        (m * (n + 1.0) + (r - m)) / (n + 1.0);
        (m * n + r) / (n + 1.0);
      }
    }
  }
}
