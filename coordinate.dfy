/**
 * One coordinate update of Rotosolve and one sweep of such updates, as
 * functions of the parameter vector. The optimizer's loops in `Optimizer`
 * are proved to compute exactly these values.
 */
module Coordinate {
  import opened Wrappers
  import opened Angles

  /**
   * The capabilities the optimizer calls but does not define: the user's cost
   * function in its scalar mode, the same cost function called on a stack of
   * vectors (its flattened answer, or `None` when the call raises), and the
   * two-argument arctangent.
   */
  datatype Env = Env(
    cost: seq<real> -> real,
    batched: seq<seq<real>> -> Option<seq<real>>,
    atan2: (real, real) -> real)

  /** The three costs E0, Ep, Em sampled at base, plus and minus. */
  datatype Samples = Samples(base: real, plus: real, minus: real)

  /** The vector `p` with coordinate `i` moved by `s`; `p` itself is a value and stays as it was. */
  function Shifted(p: seq<real>, i: nat, s: real): seq<real>
    requires i < |p|
  {
    p[i := p[i] + s]
  }

  /** The 3-row batch `vstack([base, plus, minus])`. */
  function Probes(p: seq<real>, i: nat): seq<seq<real>>
    requires i < |p|
  {
    [p, Shifted(p, i, HalfPi), Shifted(p, i, -HalfPi)]
  }

  /**
   * The probes differ from `p` at coordinate `i` only, by a quarter turn up
   * and down, and the base probe is `p` itself.
   */
  lemma ProbesShape(p: seq<real>, i: nat)
    requires i < |p|
    ensures var b := Probes(p, i);
      && |b| == 3 && b[0] == p
      && |b[1]| == |p| && |b[2]| == |p|
      && b[1][i] == p[i] + HalfPi && b[2][i] == p[i] - HalfPi
      && forall j :: 0 <= j < |p| && j != i ==> b[1][j] == p[j] && b[2][j] == p[j]
  {
  }

  /** A batched answer is taken only if the call returned and has exactly three entries. */
  predicate BatchUsable(vals: Option<seq<real>>)
  {
    vals.Some? && |vals.value| == 3
  }

  /** The fallback: three scalar calls, on base, plus and minus. */
  function ScalarSamples(env: Env, p: seq<real>, i: nat): Samples
    requires i < |p|
  {
    Samples(env.cost(p), env.cost(Shifted(p, i, HalfPi)), env.cost(Shifted(p, i, -HalfPi)))
  }

  /**
   * A cost function whose batched mode, whenever it answers with one value
   * per row, answers what the scalar mode gives for each row.
   */
  ghost predicate WellBehaved(env: Env)
  {
    forall rows: seq<seq<real>> ::
      env.batched(rows).Some? && |env.batched(rows).value| == |rows| ==>
        forall k :: 0 <= k < |rows| ==> env.batched(rows).value[k] == env.cost(rows[k])
  }

  /** The costs at the three probes of coordinate `i`: batched when usable, scalar otherwise. */
  function ProbeCosts(env: Env, p: seq<real>, i: nat): Samples
    requires i < |p|
  {
    var vals := env.batched(Probes(p, i));
    if BatchUsable(vals) then Samples(vals.value[0], vals.value[1], vals.value[2])
    else ScalarSamples(env, p, i)
  }

  /**
   * The batched answer is used exactly when it is usable, entry by entry in
   * the order base, plus, minus; otherwise the three scalar calls give the
   * costs. For a well-behaved cost function both paths give the same costs.
   */
  lemma ProbeCostsContract(env: Env, p: seq<real>, i: nat)
    requires i < |p|
    ensures var c := ProbeCosts(env, p, i);
      && (BatchUsable(env.batched(Probes(p, i))) ==>
            [c.base, c.plus, c.minus] == env.batched(Probes(p, i)).value)
      && (!BatchUsable(env.batched(Probes(p, i))) ==> c == ScalarSamples(env, p, i))
      && (WellBehaved(env) ==> c == ScalarSamples(env, p, i))
  {
    var vals := env.batched(Probes(p, i));
    if BatchUsable(vals) && WellBehaved(env) {
      assert vals.value[0] == env.cost(Probes(p, i)[0]);
    }
  }

  /** The analytic minimiser along coordinate `i`, wrapped to [-pi, pi). */
  function ThetaOpt(env: Env, p: seq<real>, i: nat): (t: real)
    requires i < |p|
    ensures -Pi <= t < Pi
  {
    var c := ProbeCosts(env, p, i);
    Wrap(-HalfPi - env.atan2(2.0 * c.base - c.plus - c.minus, c.plus - c.minus))
  }

  /** The vector after the update of coordinate `i`: only that coordinate changes. */
  function Update(env: Env, p: seq<real>, i: nat): (q: seq<real>)
    requires i < |p|
    ensures |q| == |p|
    ensures -Pi <= q[i] < Pi
  {
    p[i := ThetaOpt(env, p, i)]
  }

  /**
   * The update writes the wrapped minimiser into coordinate `i` and leaves
   * the length and every other coordinate as they were.
   */
  lemma UpdateFrame(env: Env, p: seq<real>, i: nat)
    requires i < |p|
    ensures var q := Update(env, p, i);
      && |q| == |p| && q[i] == ThetaOpt(env, p, i)
      && forall j :: 0 <= j < |p| && j != i ==> q[j] == p[j]
  {
  }

  /** The angular change `|wrap(theta_opt - theta_i)|` of the update of coordinate `i`. */
  function Delta(env: Env, p: seq<real>, i: nat): (d: real)
    requires i < |p|
    ensures 0.0 <= d <= Pi
  {
    var t := ThetaOpt(env, p, i);
    AngularDistanceBounds(t, p[i]);
    Abs(Wrap(t - p[i]))
  }

  /**
   * When the old value of coordinate `i` is already canonical, its update
   * reports no change exactly when it leaves the vector as it was.
   */
  lemma DeltaZeroIffUnchanged(env: Env, p: seq<real>, i: nat)
    requires i < |p| && -Pi <= p[i] < Pi
    ensures Delta(env, p, i) == 0.0 <==> Update(env, p, i) == p
  {
    AngularDistanceZero(ThetaOpt(env, p, i), p[i]);
    assert Update(env, p, i) == p ==> Update(env, p, i)[i] == p[i];
  }

  predicate InBounds(order: seq<nat>, n: nat)
  {
    forall k :: 0 <= k < |order| ==> order[k] < n
  }

  /**
   * The vector after updating the coordinates of `order`, one after the
   * other, each update seeing the ones before it.
   */
  function SweepOut(env: Env, p: seq<real>, order: seq<nat>): (s: Swept)
    requires InBounds(order, |p|)
    ensures |s.params| == |p| && 0.0 <= s.maxDelta <= Pi
    decreases |order|
  {
    if order == [] then Swept(p, 0.0)
    else
      var prev := SweepOut(env, p, order[..|order| - 1]);
      var i := order[|order| - 1];
      Swept(Update(env, prev.params, i), Max(prev.maxDelta, Delta(env, prev.params, i)))
  }

  datatype Swept = Swept(params: seq<real>, maxDelta: real)

  function SweepResult(env: Env, p: seq<real>, order: seq<nat>): (q: seq<real>)
    requires InBounds(order, |p|)
    ensures |q| == |p|
  {
    SweepOut(env, p, order).params
  }

  /** A sweep leaves every coordinate outside its order as it was. */
  lemma {:induction false} SweepFrame(env: Env, p: seq<real>, order: seq<nat>, j: nat)
    requires InBounds(order, |p|) && j < |p| && j !in order
    ensures SweepResult(env, p, order)[j] == p[j]
    decreases |order|
  {
    if order != [] {
      var n := |order| - 1;
      SweepFrame(env, p, order[..n], j);
    }
  }

  /** Every coordinate a sweep visits ends in [-pi, pi). */
  lemma {:induction false} SweepWrapsVisited(env: Env, p: seq<real>, order: seq<nat>, j: nat)
    requires InBounds(order, |p|) && j in order
    ensures j < |p| && -Pi <= SweepResult(env, p, order)[j] < Pi
    decreases |order|
  {
    var n := |order| - 1;
    if order[n] != j {
      var k :| 0 <= k < |order| && order[k] == j;
      assert order[..n][k] == j;
      SweepWrapsVisited(env, p, order[..n], j);
    }
  }

  /** The change made by the `k`-th update of the sweep along `order`. */
  function StepDelta(env: Env, p: seq<real>, order: seq<nat>, k: nat): real
    requires InBounds(order, |p|) && k < |order|
  {
    Delta(env, SweepResult(env, p, order[..k]), order[k])
  }

  lemma StepDeltaOfPrefix(env: Env, p: seq<real>, order: seq<nat>, n: nat)
    requires InBounds(order, |p|) && n <= |order|
    ensures forall k :: 0 <= k < n ==> StepDelta(env, p, order[..n], k) == StepDelta(env, p, order, k)
  {
    forall k | 0 <= k < n ensures StepDelta(env, p, order[..n], k) == StepDelta(env, p, order, k) {
      assert order[..n][..k] == order[..k];
    }
  }

  /** The sweep's `max_delta`: it starts at 0 and takes in every step's change. */
  function MaxDelta(env: Env, p: seq<real>, order: seq<nat>): (m: real)
    requires InBounds(order, |p|)
    ensures 0.0 <= m <= Pi
  {
    SweepOut(env, p, order).maxDelta
  }

  /** No step of a sweep changes its coordinate by more than the sweep's `max_delta`. */
  lemma {:induction false} MaxDeltaBoundsSteps(env: Env, p: seq<real>, order: seq<nat>)
    requires InBounds(order, |p|)
    ensures forall k :: 0 <= k < |order| ==> StepDelta(env, p, order, k) <= MaxDelta(env, p, order)
    decreases |order|
  {
    if order != [] {
      var n := |order| - 1;
      MaxDeltaBoundsSteps(env, p, order[..n]);
      StepDeltaOfPrefix(env, p, order, n);
    }
  }

  /** `max_delta` is 0 for an empty sweep, otherwise the change of one of its steps. */
  lemma {:induction false} MaxDeltaAttained(env: Env, p: seq<real>, order: seq<nat>)
    requires InBounds(order, |p|)
    ensures order == [] ==> MaxDelta(env, p, order) == 0.0
    ensures order != [] ==> exists k :: 0 <= k < |order| && MaxDelta(env, p, order) == StepDelta(env, p, order, k)
    decreases |order|
  {
    if order != [] {
      var n := |order| - 1;
      var m := MaxDelta(env, p, order);
      if n > 0 && m == MaxDelta(env, p, order[..n]) {
        MaxDeltaAttained(env, p, order[..n]);
        var k :| 0 <= k < n && m == StepDelta(env, p, order[..n], k);
        StepDeltaOfPrefix(env, p, order, n);
        assert m == StepDelta(env, p, order, k);
      } else {
        var step := StepDelta(env, p, order, n);
        assert m == Max(MaxDelta(env, p, order[..n]), step);
        if n == 0 {
          assert order[..n] == [];
          assert MaxDelta(env, p, order[..n]) == 0.0;
          assert step >= 0.0;
        }
        assert m == step;
      }
    }
  }

  /** `0, 1, ..., n - 1`: the list the source shuffles. */
  function Range(n: nat): (s: seq<nat>)
    ensures |s| == n && forall k :: 0 <= k < n ==> s[k] == k
  {
    seq(n, k requires 0 <= k < n => k as nat)
  }

  /** `order` is a reordering of `0, 1, ..., n - 1`. */
  predicate IsPermutation(order: seq<nat>, n: nat)
  {
    multiset(order) == multiset(Range(n))
  }

  /** `0, 1, ..., n - 1` holds each index below `n` once and nothing else. */
  lemma {:induction false} RangeCount(n: nat, j: nat)
    ensures multiset(Range(n))[j] == if j < n then 1 else 0
  {
    if n > 0 {
      assert Range(n) == Range(n - 1) + [n - 1];
      RangeCount(n - 1, j);
    }
  }

  /** A permutation of the indices visits every index below `n` exactly once, and no other. */
  lemma PermutationVisitsEachOnce(order: seq<nat>, n: nat)
    requires IsPermutation(order, n)
    ensures |order| == n && InBounds(order, n)
    ensures forall j :: 0 <= j < n ==> multiset(order)[j] == 1 && j in order
  {
    assert |order| == |multiset(order)| == |multiset(Range(n))| == n;
    forall k | 0 <= k < |order| ensures order[k] < n {
      RangeCount(n, order[k]);
      assert order[k] in multiset(order);
    }
    forall j: nat | j < n ensures multiset(order)[j] == 1 && j in order {
      RangeCount(n, j);
      assert j in multiset(order);
    }
  }

  lemma PermutationInBounds(order: seq<nat>, n: nat)
    requires IsPermutation(order, n)
    ensures InBounds(order, n)
  {
    PermutationVisitsEachOnce(order, n);
  }

  /** Sweeping along `a + b` is sweeping along `a`, then along `b` from there. */
  lemma {:induction false} SweepSplit(env: Env, p: seq<real>, a: seq<nat>, b: seq<nat>)
    requires InBounds(a + b, |p|)
    ensures InBounds(a, |p|) && InBounds(b, |p|)
    ensures SweepResult(env, p, a + b) == SweepResult(env, SweepResult(env, p, a), b)
    decreases |b|
  {
    assert forall k :: 0 <= k < |a| ==> a[k] == (a + b)[k];
    assert forall k :: 0 <= k < |b| ==> b[k] == (a + b)[|a| + k];
    if b == [] {
      assert a + b == a;
    } else {
      var n := |b| - 1;
      assert (a + b)[..|a + b| - 1] == a + b[..n];
      SweepSplit(env, p, a, b[..n]);
    }
  }

  /** The second coordinate of a sweep already sees the first one's new value. */
  lemma SweepSequential(env: Env, p: seq<real>, i: nat, rest: seq<nat>)
    requires i < |p| && InBounds(rest, |p|)
    ensures SweepResult(env, p, [i] + rest) == SweepResult(env, Update(env, p, i), rest)
  {
    assert InBounds([i] + rest, |p|);
    SweepSplit(env, p, [i], rest);
    assert [i][..0] == [];
    assert SweepOut(env, p, [i]).params == Update(env, SweepOut(env, p, []).params, i);
  }

  /**
   * In a sweep along a permutation, each coordinate ends with the value its
   * own update committed: no later step of the sweep touches it again.
   */
  lemma SweepVisitValue(env: Env, p: seq<real>, order: seq<nat>, k: nat)
    requires IsPermutation(order, |p|) && k < |order|
    ensures InBounds(order, |p|) && order[k] < |p|
    ensures SweepResult(env, p, order)[order[k]] == ThetaOpt(env, SweepResult(env, p, order[..k]), order[k])
  {
    PermutationVisitsEachOnce(order, |p|);
    var j := order[k];
    var done, rest := order[..k + 1], order[k + 1..];
    assert order == done + rest;
    assert multiset(order) == multiset(done) + multiset(rest);
    assert j in multiset(done) by { assert done[k] == j; }
    assert multiset(order)[j] == 1;
    assert multiset(rest)[j] == 0;
    assert j !in rest;
    SweepSplit(env, p, done, rest);
    SweepFrame(env, SweepResult(env, p, done), rest, j);
    assert done[..k] == order[..k];
  }

  /** After a sweep along a permutation, every coordinate is in [-pi, pi). */
  lemma SweepWrapsAll(env: Env, p: seq<real>, order: seq<nat>)
    requires IsPermutation(order, |p|)
    ensures InBounds(order, |p|)
    ensures forall j :: 0 <= j < |p| ==> -Pi <= SweepResult(env, p, order)[j] < Pi
  {
    PermutationVisitsEachOnce(order, |p|);
    forall j | 0 <= j < |p| ensures -Pi <= SweepResult(env, p, order)[j] < Pi {
      SweepWrapsVisited(env, p, order, j);
    }
  }

  /** The same cost function with its batched mode always raising. */
  function ScalarOnly(env: Env): (e: Env)
    ensures e.cost == env.cost && e.atan2 == env.atan2
    ensures forall rows :: e.batched(rows) == None
  {
    env.(batched := (rows: seq<seq<real>>) => None)
  }

  /** With a well-behaved cost function, the batched path and the scalar fallback update alike. */
  lemma StepBatchedMatchesScalar(env: Env, p: seq<real>, i: nat)
    requires WellBehaved(env) && i < |p|
    ensures ThetaOpt(env, p, i) == ThetaOpt(ScalarOnly(env), p, i)
    ensures Update(env, p, i) == Update(ScalarOnly(env), p, i)
    ensures Delta(env, p, i) == Delta(ScalarOnly(env), p, i)
  {
    ProbeCostsContract(env, p, i);
    ProbeCostsContract(ScalarOnly(env), p, i);
  }

  /**
   * With a well-behaved cost function, the batched path and the scalar
   * fallback give the same sweep and the same `max_delta`.
   */
  lemma {:induction false} SweepBatchedMatchesScalar(env: Env, p: seq<real>, order: seq<nat>)
    requires WellBehaved(env) && InBounds(order, |p|)
    ensures SweepResult(env, p, order) == SweepResult(ScalarOnly(env), p, order)
    ensures MaxDelta(env, p, order) == MaxDelta(ScalarOnly(env), p, order)
    decreases |order|
  {
    if order != [] {
      var n := |order| - 1;
      SweepBatchedMatchesScalar(env, p, order[..n]);
      StepBatchedMatchesScalar(env, SweepResult(env, p, order[..n]), order[n]);
    }
  }
}
