/** The per-arm selection rules the agents use: the greatest value estimate
    and the arms that reach it, the first arm that maximises a score, the
    Exp3 probability vector, and drawing an arm from a probability vector. */
module Selection {
  import opened Estimates

  /** The greatest element of a non-empty vector (`Q.max()`). */
  function Max(s: seq<real>): (m: real)
    requires |s| > 0
    ensures m in s
    ensures forall i :: 0 <= i < |s| ==> s[i] <= m
  {
    if |s| == 1 then s[0]
    else
      var rest := Max(s[1..]);
      assert forall i :: 1 <= i < |s| ==> s[i] == s[1..][i - 1];
      if s[0] >= rest then s[0] else rest
  }

  /** The indices at which `s` holds `m`, in increasing order
      (`np.flatnonzero(s == m)`). */
  function Positions(s: seq<real>, m: real): (r: seq<nat>)
    ensures forall j :: 0 <= j < |r| ==> r[j] < |s| && s[r[j]] == m
    ensures forall i :: 0 <= i < |s| && s[i] == m ==> i in r
    ensures forall j1, j2 :: 0 <= j1 < j2 < |r| ==> r[j1] < r[j2]
  {
    if s == [] then []
    else
      var init := s[..|s| - 1];
      var found := Positions(init, m);
      assert forall i :: 0 <= i < |init| ==> s[i] == init[i];
      found + (if s[|s| - 1] == m then [|s| - 1] else [])
  }

  /** The arms whose value estimate equals the greatest one, in increasing
      order: the candidates of the epsilon-greedy exploit step. */
  function MaxPositions(s: seq<real>): (r: seq<nat>)
    requires |s| > 0
    ensures |r| > 0
  {
    var m := Max(s);
    var i :| 0 <= i < |s| && s[i] == m;
    assert i in Positions(s, m);
    Positions(s, m)
  }

  /** An index is among `MaxPositions(s)` exactly when it maximises `s`. */
  lemma MaxPositionsAreMaximisers(s: seq<real>, i: int)
    requires |s| > 0
    ensures i in MaxPositions(s) <==> 0 <= i < |s| && forall j :: 0 <= j < |s| ==> s[j] <= s[i]
  {
    var m := Max(s);
    if 0 <= i < |s| && forall j :: 0 <= j < |s| ==> s[j] <= s[i] {
      var w :| 0 <= w < |s| && s[w] == m;
      assert s[i] == m;
    }
  }

  /** The first index of a greatest element (`np.argmax`). */
  function Argmax(s: seq<real>): (i: nat)
    requires |s| > 0
    ensures i < |s|
    ensures forall j :: 0 <= j < |s| ==> s[j] <= s[i]
    ensures forall j :: 0 <= j < i ==> s[j] < s[i]
  {
    if |s| == 1 then 0
    else
      var init := s[..|s| - 1];
      var best := Argmax(init);
      assert forall j :: 0 <= j < |init| ==> s[j] == init[j];
      if s[|s| - 1] > s[best] then |s| - 1 else best
  }

  /** `np.argmax` picks the first of the tied maximisers. */
  lemma ArgmaxIsFirstMaxPosition(s: seq<real>)
    requires |s| > 0
    ensures Argmax(s) == MaxPositions(s)[0]
  {
    var a := Argmax(s);
    var r := MaxPositions(s);
    MaxPositionsAreMaximisers(s, a);
    MaxPositionsAreMaximisers(s, r[0]);
    var j :| 0 <= j < |r| && r[j] == a;
    assert r[0] <= a;
  }

  /** The per-arm sum of value estimates and noise (`Q + z`). */
  function Perturbed(q: seq<real>, z: seq<real>): (v: seq<real>)
    requires |q| == |z|
    ensures |v| == |q|
  {
    seq(|q|, i requires 0 <= i < |q| => q[i] + z[i])
  }

  function Scale(x: real, c: real, d: real): real
  {
    c * x + d
  }

  /** `c * s + d`, elementwise. */
  function Affine(s: seq<real>, c: real, d: real): (t: seq<real>)
    ensures |t| == |s|
  {
    seq(|s|, i requires 0 <= i < |s| => Scale(s[i], c, d))
  }

  lemma {:induction false} SumAffine(s: seq<real>, c: real, d: real)
    ensures Sum(Affine(s, c, d)) == c * Sum(s) + d * (|s| as real)
  {
    if s != [] {
      var t := Affine(s, c, d);
      assert t[1..] == Affine(s[1..], c, d);
      SumAffine(s[1..], c, d);
      assert c * Sum(s) == c * s[0] + c * Sum(s[1..]);
    }
  }

  /** The Exp3 probability of one arm of `n`: its share `w / total` of the
      total weight mixed with the uniform distribution,
      `(1 - gamma) * w / total + gamma / n`. */
  function Probability(w: real, total: real, gamma: real, n: nat): real
    requires total != 0.0 && n > 0
  {
    (1.0 - gamma) * (w / total) + gamma / (n as real)
  }

  /** The Exp3 probability vector over all arms. */
  function Probabilities(ws: seq<real>, gamma: real): (ps: seq<real>)
    requires Sum(ws) != 0.0
    ensures |ps| == |ws|
  {
    var total := Sum(ws);
    seq(|ws|, a requires 0 <= a < |ws| => Probability(ws[a], total, gamma, |ws|))
  }

  lemma ProbabilityIsScaled(w: real, total: real, gamma: real, n: nat)
    requires total != 0.0 && n > 0
    ensures Probability(w, total, gamma, n) == Scale(w, (1.0 - gamma) / total, gamma / (n as real))
  {
    var f := 1.0 - gamma;
    var inv := 1.0 / total;
    assert w / total == w * inv;
    assert f / total == f * inv;
    assert f * (w / total) == (f / total) * w;
  }

  /** Each Exp3 probability is an affine image of the arm's weight. */
  lemma ProbabilitiesAreAffine(ws: seq<real>, gamma: real)
    requires Sum(ws) != 0.0
    ensures Probabilities(ws, gamma) == Affine(ws, (1.0 - gamma) / Sum(ws), gamma / (|ws| as real))
  {
    var total := Sum(ws);
    var c := (1.0 - gamma) / total;
    var d := gamma / (|ws| as real);
    var ps := Probabilities(ws, gamma);
    var t := Affine(ws, c, d);
    forall a | 0 <= a < |ws|
      ensures ps[a] == t[a]
    {
      assert ps[a] == Probability(ws[a], total, gamma, |ws|);
      assert t[a] == Scale(ws[a], c, d);
      ProbabilityIsScaled(ws[a], total, gamma, |ws|);
    }
    assert |ps| == |t|;
  }

  /** The Exp3 probabilities sum to one, for any mixing weight and any
      weights whose total is not zero. */
  lemma ProbabilitiesSumToOne(ws: seq<real>, gamma: real)
    requires Sum(ws) != 0.0
    ensures Sum(Probabilities(ws, gamma)) == 1.0
  {
    var total := Sum(ws);
    assert ws != [];
    var n := |ws| as real;
    var c := (1.0 - gamma) / total;
    var d := gamma / n;
    ProbabilitiesAreAffine(ws, gamma);
    SumAffine(ws, c, d);
    assert c * total == 1.0 - gamma;
    assert d * n == gamma;
  }

  /** With a mixing weight in [0, 1] and positive weights, every arm gets
      at least `gamma / N` and a positive probability. */
  lemma ProbabilitiesBounds(ws: seq<real>, gamma: real)
    requires |ws| > 0
    requires 0.0 <= gamma <= 1.0
    requires forall a :: 0 <= a < |ws| ==> ws[a] > 0.0
    ensures Sum(ws) > 0.0
    ensures forall a :: 0 <= a < |ws| ==>
      Probabilities(ws, gamma)[a] >= gamma / (|ws| as real) && Probabilities(ws, gamma)[a] > 0.0
  {
    SumPositive(ws);
    var total := Sum(ws);
    var n := |ws| as real;
    forall a | 0 <= a < |ws|
      ensures Probabilities(ws, gamma)[a] >= gamma / n && Probabilities(ws, gamma)[a] > 0.0
    {
      assert Probabilities(ws, gamma)[a] == Probability(ws[a], total, gamma, |ws|);
      var share := ws[a] / total;
      assert share > 0.0;
      assert (1.0 - gamma) * share >= 0.0;
      assert gamma / n >= 0.0;
      if gamma < 1.0 {
        assert (1.0 - gamma) * share > 0.0;
      } else {
        assert gamma / n > 0.0;
      }
    }
  }

  /** The exponent of the Exp3 weight update for an arm drawn with
      probability `p` among `n`: the importance-weighted reward
      `reward / (p * n)` scaled by `gamma`. */
  function Exponent(gamma: real, reward: real, p: real, n: nat): real
    requires p != 0.0 && n > 0
  {
    (gamma * reward) / (p * (n as real))
  }

  /** The arm drawn from probability vector `ps` by a uniform draw `u`
      (inverse transform sampling): the first arm whose cumulative
      probability exceeds `u`, the last arm if none does. */
  function Sample(ps: seq<real>, u: real): (a: nat)
    requires |ps| > 0
    ensures a < |ps|
    decreases |ps|
  {
    if |ps| == 1 || u < ps[0] then 0 else 1 + Sample(ps[1..], u - ps[0])
  }

  /** For a draw in [0, total), the drawn arm is the one whose cumulative
      interval contains the draw, so it has positive probability. */
  lemma {:induction false} SampleInInterval(ps: seq<real>, u: real)
    requires |ps| > 0
    requires 0.0 <= u < Sum(ps)
    ensures Sum(ps[..Sample(ps, u)]) <= u < Sum(ps[..Sample(ps, u) + 1])
    ensures ps[Sample(ps, u)] > 0.0
  {
    var a := Sample(ps, u);
    if u < ps[0] {
      assert ps[..1] == [ps[0]];
      assert Sum(ps[..0]) == 0.0;
    } else {
      assert |ps| > 1;
      var rest := ps[1..];
      SampleInInterval(rest, u - ps[0]);
      var b := Sample(rest, u - ps[0]);
      assert a == b + 1;
      assert ps[..b + 1] == [ps[0]] + rest[..b];
      assert ps[..b + 2] == [ps[0]] + rest[..b + 1];
      assert ps[..b + 1][1..] == rest[..b];
      assert ps[..b + 2][1..] == rest[..b + 1];
    }
    assert ps[..a + 1] == ps[..a] + [ps[a]];
    SumAppend(ps[..a], [ps[a]]);
  }
}
