# Multi-armed bandit agents

A Dafny model of the agents of `compare-the-bandit`: stateful policies for
the stochastic multi-armed bandit problem. Each agent keeps, for each of its
`N` arms, a pull count `k` and a value estimate `Q`, plus an exploration
parameter `param` that is annealed after each update. Three policies are
modelled:

- **epsilon-greedy**: explores a random arm when a uniform draw falls below
  `param` (or when exploration is forced). Otherwise it exploits a random arm
  among those whose estimate equals the greatest estimate.
- **Exp3**: mixes exponentially weighted probabilities with the uniform
  distribution and draws an arm from them. After the default update it
  multiplies the chosen arm's weight by an importance-weighted exponential.
- **follow the perturbed leader (FPL)**: picks the first arm maximising
  `Q + z` for a fresh noise vector `z`. Its update accumulates raw reward
  totals instead of running means.

Files:

- `estimates.dfy` (module `Estimates`): reward totals and means, and the
  fact that the incremental rule keeps a running mean.
- `annealing.dfy` (module `Annealing`): the floored annealing step and its
  closed form after `n` steps.
- `selection.dfy` (module `Selection`): the greatest estimate and the arms
  reaching it, first-index argmax, the Exp3 probability vector and the
  categorical draw.
- `agents.dfy` (module `Agents`): the classes `Agent`, `EpsilonGreedyAgent`,
  `Exp3Agent` and `FPLAgent`, with array fields that the methods update in place.

Design of the model:

- Python inheritance is modelled by composition. Each policy object holds
  its `base: Agent`, and "calling the parent" is a call on `base`.
  `EpsilonGreedyAgent` does not override `update_Q`, so its callers use
  `base.UpdateQ`.
- The base agent keeps two ghost fields: each arm's reward history
  (`Rewards`) and the number of default updates (`Updates`). Its invariant
  `Valid()` says that `k[a]` is the length of arm `a`'s history, and that
  `param` is `paramInit` annealed `Updates` times. `paramInit`, `anneal`
  and `N` are `const`, so they cannot change after construction.
- `Averages()` says each `Q[a]` is the mean of arm `a`'s rewards. It is part
  of the epsilon-greedy and Exp3 invariants.
- `Totals()` says each `Q[a]` is the sum of arm `a`'s rewards. It is part of
  the FPL invariant.
- Random draws are parameters:
  - the uniform draw `rand` and the explore arm that `randint(N)` gives;
  - the index into the tie list that `choice` gives;
  - the uniform draw `u` from which the Exp3 arm is drawn by inverse
    transform sampling;
  - the FPL noise vector.
- The exponential function is a constructor parameter of `Exp3Agent`. The
  model uses only the fact that it is positive.
- Numbers are mathematical reals.

Two facts about the code that the model keeps:

- The code anneals whenever `param != 0`, without testing the anneal rate.
  So a negative `param` with rate 0 becomes 0 after one update.
- The code validates no construction parameter. The model requires only
  what its arithmetic needs; see "Left out".

## Model

| member | source | states |
|---|---|---|
| `Estimates.MeanStep` | agents.py:24-28 | the rule `Q + 1/(k+1) * (r - Q)` applied to the mean of k rewards gives the mean of those rewards followed by r |
| `Estimates.SumAppend` | agents.py:93-95 | the total of rewards laid end to end is the sum of the totals, so adding a reward to a total keeps it the total of the history |
| `Estimates.SumPositive` | agents.py:60-66 | positive weights have a positive total, so the normalisation `ws / sum(ws)` is defined |
| `Annealing.Floored` | agents.py:30 | `max(0, x)` is non-negative, at least x, and is either x or 0 |
| `Annealing.Anneal` | agents.py:29-30 | one annealing step never yields a negative parameter, keeps a zero parameter at zero, and never raises a non-negative parameter when the rate is non-negative |
| `Annealing.AnnealStepsClosedForm` | agents.py:29-30 | from a non-negative start and rate, n steps give exactly `max(0, param - n * rate)` |
| `Annealing.AnnealReachesZero` | agents.py:18-30 | from a non-negative start and a positive rate, the parameter is 0 after n steps iff `n * rate >= param_init`; before that it is `param_init - n * rate` |
| `Selection.Max` | agents.py:49 | `Q.max()` is an element of Q and no element exceeds it |
| `Selection.Positions` | agents.py:49 | `flatnonzero(s == m)` lists exactly the indices holding m, each in range, in strictly increasing order |
| `Selection.MaxPositions` | agents.py:49 | the list of tied best arms is never empty |
| `Selection.MaxPositionsAreMaximisers` | agents.py:49 | an index is in the tie list iff it is in range and its estimate is at least every other estimate |
| `Selection.Argmax` | agents.py:91 | `np.argmax` returns an in-range index whose value no element exceeds, and every earlier index holds a strictly smaller value |
| `Selection.ArgmaxIsFirstMaxPosition` | agents.py:48-49 | `np.argmax` is the first element of the tie list |
| `Selection.Perturbed` | agents.py:91 | `Q + z` has one entry per arm |
| `Selection.Probabilities` | agents.py:66 | the Exp3 probability vector has one entry per weight |
| `Selection.ProbabilitiesSumToOne` | agents.py:66 | the probabilities sum to 1 for any gamma, whenever the weights' total is non-zero |
| `Selection.ProbabilitiesBounds` | agents.py:66 | for gamma in [0, 1] and positive weights, every probability is at least `gamma / N` and positive |
| `Selection.Sample` | agents.py:68 | the drawn arm is one of the N arms |
| `Selection.SampleInInterval` | agents.py:68 | for a draw in [0, total), the drawn arm's cumulative-probability interval contains the draw, and the arm has positive probability |
| `Agents.Agent.constructor` | agents.py:17-22 | `param` and `param_init` are the given parameter; every count is 0; every estimate is 0, which is both the mean and the total of no rewards |
| `Agents.Agent.UpdateQ` | agents.py:26-30 | `k[action]` rises by 1 and `Q[action]` moves by `1/k` towards the reward; other arms are unchanged; `param` takes one annealing step and is never negative; Q stays the running mean of each arm's rewards |
| `Agents.EpsilonGreedyAgent.constructor` | agents.py:39-40 | builds the base agent with the given epsilon and anneal rate (default 0): `param` and `param_init` are epsilon, no update has happened, and every arm has no rewards, count 0 and estimate 0, so the running-mean invariant holds |
| `Agents.EpsilonGreedyAgent.GetAction` | agents.py:42-50 | the result is an arm in [0, N); when exploring (draw below `param`, or `forceExplore`, which defaults to false) it is the random arm; when exploiting it is in the tie list and its estimate equals `max(Q)` |
| `Agents.Exp3Agent.constructor` | agents.py:59-62 | every weight and every initial probability is 1.0; the base agent holds gamma as `param` and `param_init` and the anneal rate, no update has happened, and every arm has no rewards, count 0 and estimate 0 |
| `Agents.Exp3Agent.GetAction` | agents.py:64-68 | `ps` becomes the Exp3 probability vector of the current weights, sums to 1, gives every arm at least `param / N`, and the drawn arm's cumulative interval contains the draw |
| `Agents.Exp3Agent.UpdateQ` | agents.py:70-73 | the default update runs first (the count, the running mean, one annealing step and one more update); then only the chosen arm's weight changes, multiplied by `exp(param * reward / (ps[action] * N))` with the already-annealed param; all weights stay positive and `ps` is unchanged |
| `Agents.FPLAgent.constructor` | agents.py:82-84 | the noise vector starts at zeros; the base agent holds lambda as `param` and `param_init` and the anneal rate, no update has happened, and every arm has no rewards, count 0 and estimate 0, so the reward-total invariant holds |
| `Agents.FPLAgent.GetAction` | agents.py:86-91 | z becomes the supplied noise vector; the result is the smallest arm maximising `Q[a] + z[a]` |
| `Agents.FPLAgent.UpdateQ` | agents.py:93-95 | `k[action]` rises by 1 and `Q[action]` rises by the reward; other arms and `param` are unchanged; Q stays the total of each arm's rewards |

## Left out

- Other bandit policies: `agents.py` defines only these three policies, so no other policy is modelled.
- Random number generation (`np.random.random`, `randint`, `choice`, `exponential`): draws are parameters. Their distributions are not modelled, so neither are statistical properties such as tie-break frequencies.
- `choice` with probabilities is modelled as inverse transform sampling on the raw cumulative sums. numpy's renormalisation of the cumulative sums is a no-op in exact arithmetic.
- Floating-point behaviour: rounding, overflow of Exp3 weights, and infinities or NaNs from division by zero. Numbers are exact reals.
- The value of `np.exp`: only its positivity is used.
- The `bandit` object: only its arm count `N` is used. The `bandit` passed to each `get_action` is taken to be the one the agent was built with, so its `N` is the agent's `N`. With a different `bandit.N` the source could explore an arm outside `Q`, or build a `ps` that does not sum to 1, which `np.random.choice` rejects.
- Agents.Agent.UpdateQ: requires `0 <= action < N`. The model does not cover numpy's wrap-around for negative indices or the `IndexError` for other out-of-range actions.
- Agents.Agent.constructor: requires `N >= 1`, the positive arm count the environment supplies. With `N = 0` the source's constructors succeed and build empty arrays, but every later call raises.
- Agents.Exp3Agent.constructor: requires `0 <= gamma <= 1` and a non-negative anneal rate, which the source does not check. These keep every probability positive, so the division in the weight update is defined.
- Agents.FPLAgent.GetAction: the noise vector is an input, so the failures of drawing it when `lambda <= 0` are not modelled: `1. / param` raises `ZeroDivisionError` when lambda is 0, and numpy's exponential raises `ValueError` for the negative scale a negative lambda gives.
- Rebinding of `self.ps` and `self.z` to new numpy arrays is modelled as writes into the existing arrays. No other object holds them, so the difference cannot be observed.
- numpy dtypes (`np.int`, `np.float`) and `super()` dispatch.
