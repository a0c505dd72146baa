/** The bandit agents: a base agent holding the per-arm pull counts `k`
    and value estimates `Q` with the running-mean update, and the
    epsilon-greedy, Exp3 and follow-the-perturbed-leader policies built
    on it. Each policy holds its base agent (the part the source inherits)
    and adds its own per-arm state. Random draws are parameters. */
module Agents {
  import opened Estimates
  import opened Annealing
  import opened Selection

  /** Shared per-arm bookkeeping and the default value update. */
  class Agent {
    /** Number of arms. */
    const N: nat
    /** Exploration parameter, annealed by the default update. */
    var param: real
    /** The parameter as given at construction. */
    const paramInit: real
    /** Amount subtracted from `param` by each default update. */
    const anneal: real
    /** Times each arm has been updated. */
    const k: array<int>
    /** Value estimate of each arm. */
    const Q: array<real>

    /** The rewards each arm has received, in order. */
    ghost var Rewards: seq<seq<real>>
    /** Number of default updates applied so far. */
    ghost var Updates: nat

    /** Counts match the reward history, and `param` is `paramInit`
        annealed once per default update. */
    ghost predicate Valid()
      reads this, k, Q
    {
      && N >= 1
      && k.Length == N && Q.Length == N && |Rewards| == N
      && (forall a :: 0 <= a < N ==> k[a] == |Rewards[a]|)
      && param == AnnealSteps(paramInit, anneal, Updates)
    }

    /** Every estimate is the mean of the arm's rewards. */
    ghost predicate Averages()
      requires Valid()
      reads this, k, Q
    {
      forall a :: 0 <= a < N ==> Q[a] == Mean(Rewards[a])
    }

    /** Every estimate is the total of the arm's rewards. */
    ghost predicate Totals()
      requires Valid()
      reads this, k, Q
    {
      forall a :: 0 <= a < N ==> Q[a] == Sum(Rewards[a])
    }

    constructor (N: nat, param: real, anneal: real := 0.0)
      requires N >= 1
      ensures Valid() && Averages() && Totals()
      ensures fresh(k) && fresh(Q)
      ensures this.N == N && this.param == param && paramInit == param && this.anneal == anneal
      ensures Updates == 0 && forall a :: 0 <= a < N ==> Rewards[a] == []
      ensures forall a :: 0 <= a < N ==> k[a] == 0 && Q[a] == 0.0
    {
      this.N := N;
      this.param := param;
      paramInit := param;
      this.anneal := anneal;
      k := new int[N](_ => 0);
      Q := new real[N](_ => 0.0);
      Rewards := seq(N, _ => []);
      Updates := 0;
    }

    /** The default update: count the pull, move the estimate towards the
        reward by `1/k`, and anneal a non-zero parameter. */
    method UpdateQ(action: int, reward: real)
      requires Valid()
      requires 0 <= action < N
      modifies this, k, Q
      ensures Valid()
      ensures Rewards == old(Rewards)[action := old(Rewards[action]) + [reward]]
      ensures Updates == old(Updates) + 1
      ensures k[action] == old(k[action]) + 1
      ensures Q[action] == old(Q[action]) + (1.0 / (k[action] as real)) * (reward - old(Q[action]))
      ensures forall a :: 0 <= a < N && a != action ==> k[a] == old(k[a]) && Q[a] == old(Q[a])
      ensures param == Anneal(old(param), anneal) && param >= 0.0
      ensures old(Averages()) ==> Averages()
    {
      k[action] := k[action] + 1;
      Q[action] := Q[action] + (1.0 / (k[action] as real)) * (reward - Q[action]);
      if param != 0.0 {
        param := Floored(param - anneal);
      }
      MeanStep(Rewards[action], reward);
      Rewards := Rewards[action := Rewards[action] + [reward]];
      Updates := Updates + 1;
    }
  }

  /** Explores a random arm with probability `param`, otherwise exploits
      a random arm among those with the greatest estimate. */
  class EpsilonGreedyAgent {
    const base: Agent

    ghost predicate Valid()
      reads this, base, base.k, base.Q
    {
      base.Valid() && base.Averages()
    }

    constructor (N: nat, epsilon: real, anneal: real := 0.0)
      requires N >= 1
      ensures Valid() && fresh(base) && fresh(base.k) && fresh(base.Q)
      ensures base.N == N && base.param == epsilon && base.anneal == anneal
      ensures base.paramInit == epsilon && base.Updates == 0
      ensures forall a :: 0 <= a < N ==> base.Rewards[a] == [] && base.k[a] == 0 && base.Q[a] == 0.0
    {
      base := new Agent(N, epsilon, anneal);
    }

    /** The chosen arm, given the uniform draw `rand`, the arm `exploreArm`
        a uniform integer draw would give, the index `tieDraw` into the
        tied best arms that a uniform choice would give, and whether
        exploration is forced (by default it is not). */
    function GetAction(rand: real, exploreArm: int, tieDraw: nat, forceExplore: bool := false): (a: int)
      reads this, base, base.k, base.Q
      requires Valid()
      requires 0 <= exploreArm < base.N
      requires tieDraw < |MaxPositions(base.Q[..])|
      ensures 0 <= a < base.N
      ensures rand < base.param || forceExplore ==> a == exploreArm
      ensures !(rand < base.param || forceExplore) ==>
        a in MaxPositions(base.Q[..]) && forall j :: 0 <= j < base.N ==> base.Q[j] <= base.Q[a]
    {
      if rand < base.param || forceExplore then
        exploreArm
      else
        var ties := MaxPositions(base.Q[..]);
        MaxPositionsAreMaximisers(base.Q[..], ties[tieDraw]);
        ties[tieDraw]
    }
  }

  /** Draws arms from exponentially weighted probabilities mixed with the
      uniform distribution. `exp` is the exponential function, of which
      only positivity is used. */
  class Exp3Agent {
    const base: Agent
    /** Weight of each arm. */
    const ws: array<real>
    /** Probability of each arm, recomputed by `GetAction`. */
    const ps: array<real>
    const exp: real -> real

    ghost predicate Valid()
      reads this, base, base.k, base.Q, ws, ps
    {
      && base.Valid() && base.Averages()
      && ws.Length == base.N && ps.Length == base.N
      && ws != ps && ws != base.Q && ps != base.Q
      && 0.0 <= base.param <= 1.0 && base.anneal >= 0.0
      && (forall a :: 0 <= a < base.N ==> ws[a] > 0.0)
      && (forall a :: 0 <= a < base.N ==> ps[a] > 0.0)
      && (forall x :: exp(x) > 0.0)
    }

    constructor (N: nat, gamma: real, anneal: real, exp: real -> real)
      requires N >= 1
      requires 0.0 <= gamma <= 1.0 && anneal >= 0.0
      requires forall x :: exp(x) > 0.0
      ensures Valid() && fresh(base) && fresh(base.k) && fresh(base.Q) && fresh(ws) && fresh(ps)
      ensures base.N == N && base.param == gamma && base.anneal == anneal && this.exp == exp
      ensures base.paramInit == gamma && base.Updates == 0
      ensures forall a :: 0 <= a < N ==> base.Rewards[a] == [] && base.k[a] == 0 && base.Q[a] == 0.0
      ensures forall a :: 0 <= a < N ==> ws[a] == 1.0 && ps[a] == 1.0
    {
      ws := new real[N](_ => 1.0);
      ps := new real[N](_ => 1.0);
      this.exp := exp;
      base := new Agent(N, gamma, anneal);
    }

    /** Recomputes the probabilities from the weights and draws an arm by
        the uniform draw `u`. The new probabilities sum to one and give
        every arm at least `param / N`; the arm drawn is the one whose
        cumulative-probability interval contains `u`. */
    method GetAction(u: real) returns (a: int)
      requires Valid()
      requires 0.0 <= u < 1.0
      modifies ps
      ensures Valid()
      ensures Sum(ws[..]) > 0.0
      ensures ps[..] == Probabilities(ws[..], base.param)
      ensures Sum(ps[..]) == 1.0
      ensures forall i :: 0 <= i < base.N ==> ps[i] >= base.param / (base.N as real)
      ensures 0 <= a < base.N && ps[a] > 0.0
      ensures Sum(ps[..a]) <= u < Sum(ps[..a + 1])
    {
      var weights := ws[..];
      var gamma := base.param;
      ProbabilitiesBounds(weights, gamma);
      ProbabilitiesSumToOne(weights, gamma);
      var total := Sum(weights);
      forall i | 0 <= i < ps.Length {
        ps[i] := Probability(ws[i], total, gamma, ps.Length);
      }
      assert ws[..] == weights;
      var probs := Probabilities(weights, gamma);
      assert ps[..] == probs by {
        forall i | 0 <= i < ps.Length
          ensures ps[..][i] == probs[i]
        {
        }
      }
      assert forall i :: 0 <= i < base.N ==> ps[i] == probs[i];
      a := Sample(probs, u);
      SampleInInterval(probs, u);
    }

    /** The default update, then the chosen arm's weight is multiplied by
        `exp(param * reward / (ps[action] * N))` with the annealed `param`. */
    method UpdateQ(action: int, reward: real)
      requires Valid()
      requires 0 <= action < base.N
      modifies base, base.k, base.Q, ws
      ensures Valid()
      ensures base.Rewards == old(base.Rewards)[action := old(base.Rewards[action]) + [reward]]
      ensures base.Updates == old(base.Updates) + 1
      ensures base.k[action] == old(base.k[action]) + 1
      ensures base.Q[action] == old(base.Q[action]) + (1.0 / (base.k[action] as real)) * (reward - old(base.Q[action]))
      ensures forall a :: 0 <= a < base.N && a != action ==> base.k[a] == old(base.k[a]) && base.Q[a] == old(base.Q[a])
      ensures base.param == Anneal(old(base.param), base.anneal)
      ensures ws[action] == old(ws[action]) * exp(Exponent(base.param, reward, ps[action], base.N))
      ensures forall a :: 0 <= a < base.N && a != action ==> ws[a] == old(ws[a])
      ensures ps[..] == old(ps[..])
    {
      base.UpdateQ(action, reward);
      ws[action] := ws[action] * exp(Exponent(base.param, reward, ps[action], ps.Length));
    }
  }

  /** Follows the arm whose cumulative reward plus random noise is greatest. */
  class FPLAgent {
    const base: Agent
    /** The noise of the last selection. */
    const z: array<real>

    ghost predicate Valid()
      reads this, base, base.k, base.Q, z
    {
      base.Valid() && base.Totals() && z.Length == base.N && z != base.Q
    }

    constructor (N: nat, lam: real, anneal: real)
      requires N >= 1
      ensures Valid() && fresh(base) && fresh(base.k) && fresh(base.Q) && fresh(z)
      ensures base.N == N && base.param == lam && base.anneal == anneal
      ensures base.paramInit == lam && base.Updates == 0
      ensures forall a :: 0 <= a < N ==> base.Rewards[a] == [] && base.k[a] == 0 && base.Q[a] == 0.0
      ensures forall a :: 0 <= a < N ==> z[a] == 0.0
    {
      z := new real[N](_ => 0.0);
      base := new Agent(N, lam, anneal);
    }

    /** Records the exponential noise `noise` drawn for each arm and returns
        the first arm maximising estimate plus noise. */
    method GetAction(noise: seq<real>) returns (a: int)
      requires Valid()
      requires |noise| == base.N
      modifies z
      ensures Valid()
      ensures z[..] == noise
      ensures 0 <= a < base.N
      ensures forall j :: 0 <= j < base.N ==> base.Q[j] + z[j] <= base.Q[a] + z[a]
      ensures forall j :: 0 <= j < a ==> base.Q[j] + z[j] < base.Q[a] + z[a]
    {
      forall i | 0 <= i < z.Length {
        z[i] := noise[i];
      }
      var scores := Perturbed(base.Q[..], z[..]);
      assert forall j :: 0 <= j < base.N ==> scores[j] == base.Q[j] + z[j];
      a := Argmax(scores);
    }

    /** Counts the pull and adds the reward to the estimate; no annealing. */
    method UpdateQ(action: int, reward: real)
      requires Valid()
      requires 0 <= action < base.N
      modifies base, base.k, base.Q
      ensures Valid()
      ensures base.Rewards == old(base.Rewards)[action := old(base.Rewards[action]) + [reward]]
      ensures base.k[action] == old(base.k[action]) + 1
      ensures base.Q[action] == old(base.Q[action]) + reward
      ensures forall a :: 0 <= a < base.N && a != action ==>
        base.k[a] == old(base.k[a]) && base.Q[a] == old(base.Q[a])
      ensures base.param == old(base.param) && base.Updates == old(base.Updates)
    {
      base.k[action] := base.k[action] + 1;
      base.Q[action] := base.Q[action] + reward;
      SumAppend(base.Rewards[action], [reward]);
      base.Rewards := base.Rewards[action := base.Rewards[action] + [reward]];
    }
  }
}
