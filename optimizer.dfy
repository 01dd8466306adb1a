/**
 * The Rotosolve optimizer: the object with its configuration and cost
 * history, the in-place sweep, and the bounded outer loop with its
 * convergence test. The functions here say what a whole run computes.
 */
module Optimizer {
  import opened Wrappers
  import opened Angles
  import opened Coordinate

  /** Every sweep's visiting order is a permutation of the `n` indices. */
  predicate AllPermutations(orders: seq<seq<nat>>, n: nat)
  {
    forall s :: 0 <= s < |orders| ==> IsPermutation(orders[s], n)
  }

  /** Every index of every sweep's order is below `n`: the weaker fact the sweeps themselves need. */
  predicate AllInBounds(orders: seq<seq<nat>>, n: nat)
  {
    forall s :: 0 <= s < |orders| ==> InBounds(orders[s], n)
  }

  lemma AllPermutationsInBounds(orders: seq<seq<nat>>, n: nat)
    requires AllPermutations(orders, n)
    ensures AllInBounds(orders, n)
  {
    forall s | 0 <= s < |orders| {
      PermutationInBounds(orders[s], n);
    }
  }

  /** How many sweeps `range(maxiter)` allows. */
  function Budget(maxiter: int): (b: nat)
    ensures maxiter <= 0 ==> b == 0
    ensures maxiter >= 0 ==> b == maxiter
  {
    if maxiter < 0 then 0 else maxiter
  }

  /** The parameter vector after `k` sweeps, the `s`-th along `orders[s]`, ignoring the early exit. */
  function StateAfter(env: Env, init: seq<real>, orders: seq<seq<nat>>, k: nat): (p: seq<real>)
    requires AllInBounds(orders, |init|) && k <= |orders|
    ensures |p| == |init|
  {
    if k == 0 then init else SweepResult(env, StateAfter(env, init, orders, k - 1), orders[k - 1])
  }

  /** After one sweep or more every coordinate is in [-pi, pi); the length never changes. */
  lemma StateAfterWrapped(env: Env, init: seq<real>, orders: seq<seq<nat>>, k: nat)
    requires AllPermutations(orders, |init|) && 1 <= k <= |orders|
    ensures AllInBounds(orders, |init|)
    ensures forall j :: 0 <= j < |init| ==> -Pi <= StateAfter(env, init, orders, k)[j] < Pi
  {
    AllPermutationsInBounds(orders, |init|);
    SweepWrapsAll(env, StateAfter(env, init, orders, k - 1), orders[k - 1]);
  }

  /** The costs the first `k` sweeps append: one per sweep, at the vector that sweep left. */
  function CostsAfter(env: Env, init: seq<real>, orders: seq<seq<nat>>, k: nat): (h: seq<real>)
    requires AllInBounds(orders, |init|) && k <= |orders|
    ensures |h| == k
  {
    if k == 0 then [] else CostsAfter(env, init, orders, k - 1) + [env.cost(StateAfter(env, init, orders, k))]
  }

  /** Entry `s` of the appended costs is the full cost after sweep `s + 1`. */
  lemma {:induction false} CostsAfterEntry(env: Env, init: seq<real>, orders: seq<seq<nat>>, k: nat, s: nat)
    requires AllInBounds(orders, |init|) && s < k <= |orders|
    ensures CostsAfter(env, init, orders, k)[s] == env.cost(StateAfter(env, init, orders, s + 1))
  {
    if s < k - 1 {
      CostsAfterEntry(env, init, orders, k - 1, s);
    }
  }

  lemma CostsAfterEntries(env: Env, init: seq<real>, orders: seq<seq<nat>>, k: nat)
    requires AllInBounds(orders, |init|) && k <= |orders|
    ensures forall s :: 0 <= s < k ==> CostsAfter(env, init, orders, k)[s] == env.cost(StateAfter(env, init, orders, s + 1))
  {
    forall s | 0 <= s < k ensures CostsAfter(env, init, orders, k)[s] == env.cost(StateAfter(env, init, orders, s + 1)) {
      CostsAfterEntry(env, init, orders, k, s);
    }
  }

  /** Sweep number `k` (counting from 1) ends the run: its `max_delta` is below `tol`. */
  predicate Converged(env: Env, init: seq<real>, orders: seq<seq<nat>>, tol: real, k: nat)
    requires AllInBounds(orders, |init|) && 1 <= k <= |orders|
  {
    MaxDelta(env, StateAfter(env, init, orders, k - 1), orders[k - 1]) < tol
  }

  /**
   * How many sweeps a run performs when `k` are done and none of them
   * converged: it stops right after the first converged sweep, or when the
   * budget is spent.
   */
  function SweepsRunFrom(env: Env, init: seq<real>, orders: seq<seq<nat>>, tol: real, budget: nat, k: nat): (n: nat)
    requires AllInBounds(orders, |init|) && k <= budget <= |orders|
    ensures k <= n <= budget
    decreases budget - k
  {
    if k == budget then k
    else if Converged(env, init, orders, tol, k + 1) then k + 1
    else SweepsRunFrom(env, init, orders, tol, budget, k + 1)
  }

  /** The number of sweeps a whole run performs. */
  function SweepsRun(env: Env, init: seq<real>, orders: seq<seq<nat>>, tol: real, budget: nat): (n: nat)
    requires AllInBounds(orders, |init|) && budget <= |orders|
    ensures n <= budget
  {
    SweepsRunFrom(env, init, orders, tol, budget, 0)
  }

  /** Every sweep after `k` and before the last one that runs did not converge. */
  lemma {:induction false} SweepsRunFromPassed(env: Env, init: seq<real>, orders: seq<seq<nat>>, tol: real, budget: nat, k: nat, j: nat)
    requires AllInBounds(orders, |init|) && k <= budget <= |orders|
    requires k < j < SweepsRunFrom(env, init, orders, tol, budget, k)
    ensures !Converged(env, init, orders, tol, j)
    decreases j - k
  {
    assert !Converged(env, init, orders, tol, k + 1);
    if j > k + 1 {
      SweepsRunFromPassed(env, init, orders, tol, budget, k + 1, j);
    }
  }

  /** A run that stops before its budget stops on a converged sweep. */
  lemma {:induction false} SweepsRunFromEnds(env: Env, init: seq<real>, orders: seq<seq<nat>>, tol: real, budget: nat, k: nat)
    requires AllInBounds(orders, |init|) && k <= budget <= |orders|
    requires SweepsRunFrom(env, init, orders, tol, budget, k) < budget
    ensures var n := SweepsRunFrom(env, init, orders, tol, budget, k); k < n && Converged(env, init, orders, tol, n)
    decreases budget - k
  {
    if !Converged(env, init, orders, tol, k + 1) {
      SweepsRunFromEnds(env, init, orders, tol, budget, k + 1);
    }
  }

  /**
   * A whole run performs no sweep when the budget is 0 and at least one
   * otherwise; every sweep before its last one has a `max_delta` of at least
   * `tol`; and a run that stops before its budget stops on a converged sweep.
   */
  lemma SweepsRunStops(env: Env, init: seq<real>, orders: seq<seq<nat>>, tol: real, budget: nat)
    requires AllInBounds(orders, |init|) && budget <= |orders|
    ensures var n := SweepsRun(env, init, orders, tol, budget);
      && (budget >= 1 ==> n >= 1)
      && (forall j :: 1 <= j < n ==> !Converged(env, init, orders, tol, j))
      && (n < budget ==> 1 <= n && Converged(env, init, orders, tol, n))
  {
    var n := SweepsRun(env, init, orders, tol, budget);
    forall j | 1 <= j < n ensures !Converged(env, init, orders, tol, j) {
      SweepsRunFromPassed(env, init, orders, tol, budget, 0, j);
    }
    if n < budget {
      SweepsRunFromEnds(env, init, orders, tol, budget, 0);
    }
  }

  /** The stopping rule admits one sweep count only: any count that obeys it is `SweepsRun`. */
  lemma SweepsRunUnique(env: Env, init: seq<real>, orders: seq<seq<nat>>, tol: real, budget: nat, m: nat)
    requires AllInBounds(orders, |init|) && budget <= |orders| && m <= budget
    requires budget >= 1 ==> m >= 1
    requires forall j :: 1 <= j < m ==> !Converged(env, init, orders, tol, j)
    requires m < budget ==> 1 <= m && Converged(env, init, orders, tol, m)
    ensures SweepsRun(env, init, orders, tol, budget) == m
  {
    SweepsRunStops(env, init, orders, tol, budget);
  }

  /** Where a run ends: the final parameter vector and the costs it appended, in order. */
  datatype Trace = Trace(params: seq<real>, costs: seq<real>)

  /** `t` with the costs `done` recorded before it. */
  function After(done: seq<real>, t: Trace): Trace
  {
    Trace(t.params, done + t.costs)
  }

  /** Recording `[c]` and then `done` in front is recording `done + [c]`. */
  lemma AfterAfter(done: seq<real>, c: real, t: Trace)
    ensures After(done, After([c], t)) == After(done + [c], t)
  {
    assert done + ([c] + t.costs) == done + [c] + t.costs;
  }

  /**
   * The rest of a run that has done `it` of at most `budget` sweeps and is at
   * `p`: the loop of `optimize` read as a recursion. Sweep along `orders[it]`,
   * record the cost at the new vector, and stop if that sweep's `max_delta`
   * is below `tol`; otherwise go on until the budget is spent. The last
   * recorded cost is the cost of the final vector.
   */
  function RunFrom(env: Env, p: seq<real>, orders: seq<seq<nat>>, tol: real, budget: nat, it: nat): (t: Trace)
    requires AllInBounds(orders, |p|) && it <= budget <= |orders|
    decreases budget - it, 1
  {
    if it == budget then Trace(p, []) else Iteration(env, p, orders, tol, budget, it)
  }

  /** One pass of the loop body, with the budget not yet spent. */
  function Iteration(env: Env, p: seq<real>, orders: seq<seq<nat>>, tol: real, budget: nat, it: nat): (t: Trace)
    requires AllInBounds(orders, |p|) && it < budget <= |orders|
    decreases budget - it, 0
  {
    var s := SweepOut(env, p, orders[it]);
    var c := env.cost(s.params);
    if s.maxDelta < tol then Trace(s.params, [c])
    else After([c], RunFrom(env, s.params, orders, tol, budget, it + 1))
  }

  /**
   * One pass of the loop, seen from the loop: with `q`, `m` and `c` the
   * sweep's vector, its `max_delta` and the cost, what is left of the run
   * after the costs `done` either ends here or goes on from `q`.
   */
  lemma RunFromStep(env: Env, p: seq<real>, orders: seq<seq<nat>>, tol: real, budget: nat, it: nat,
                    q: seq<real>, m: real, c: real, done: seq<real>)
    requires AllInBounds(orders, |p|) && it < budget <= |orders|
    requires Swept(q, m) == SweepOut(env, p, orders[it]) && c == env.cost(q)
    ensures m < tol ==> After(done, RunFrom(env, p, orders, tol, budget, it)) == Trace(q, done + [c])
    ensures m >= tol ==> After(done, RunFrom(env, p, orders, tol, budget, it)) == After(done + [c], RunFrom(env, q, orders, tol, budget, it + 1))
  {
    if m >= tol {
      AfterAfter(done, c, RunFrom(env, q, orders, tol, budget, it + 1));
    }
  }

  /** The value of `cost` after the loop: the last recorded cost, or `None` when nothing was recorded. */
  function LastCost(costs: seq<real>): Option<real>
  {
    if costs == [] then None else Some(costs[|costs| - 1])
  }

  /** A whole run of at most `budget` sweeps from `init`. */
  function Run(env: Env, init: seq<real>, orders: seq<seq<nat>>, tol: real, budget: nat): Trace
    requires AllPermutations(orders, |init|) && budget <= |orders|
  {
    AllPermutationsInBounds(orders, |init|);
    RunFrom(env, init, orders, tol, budget, 0)
  }

  /**
   * Sweep `k + 1` of the reference run, as `RunFrom` performs it from the
   * state after `k` sweeps: it ends the run exactly when it converged.
   */
  lemma RunFromReferenceStep(env: Env, init: seq<real>, orders: seq<seq<nat>>, tol: real, budget: nat, k: nat)
    requires AllInBounds(orders, |init|) && k < budget <= |orders|
    ensures var p, q := StateAfter(env, init, orders, k), StateAfter(env, init, orders, k + 1);
      && (Converged(env, init, orders, tol, k + 1) ==>
            RunFrom(env, p, orders, tol, budget, k) == Trace(q, [env.cost(q)]))
      && (!Converged(env, init, orders, tol, k + 1) ==>
            RunFrom(env, p, orders, tol, budget, k) == After([env.cost(q)], RunFrom(env, q, orders, tol, budget, k + 1)))
  {
  }

  /** The reference run's tail from `k`, as `RunFromMatchesSweeps` states it. */
  ghost predicate TailMatches(env: Env, init: seq<real>, orders: seq<seq<nat>>, tol: real, budget: nat, k: nat)
    requires AllInBounds(orders, |init|) && k <= budget <= |orders|
  {
    var n := SweepsRunFrom(env, init, orders, tol, budget, k);
    RunFrom(env, StateAfter(env, init, orders, k), orders, tol, budget, k)
      == Trace(StateAfter(env, init, orders, n), CostsAfter(env, init, orders, n)[k..])
  }

  /** With the budget spent, both runs have nothing left to do. */
  lemma TailMatchesAtEnd(env: Env, init: seq<real>, orders: seq<seq<nat>>, tol: real, budget: nat)
    requires AllInBounds(orders, |init|) && budget <= |orders|
    ensures TailMatches(env, init, orders, tol, budget, budget)
  {
    assert CostsAfter(env, init, orders, budget)[budget..] == [];
  }

  /** A converged sweep `k + 1` ends both runs, with its one cost. */
  lemma TailMatchesAtStop(env: Env, init: seq<real>, orders: seq<seq<nat>>, tol: real, budget: nat, k: nat)
    requires AllInBounds(orders, |init|) && k < budget <= |orders|
    requires Converged(env, init, orders, tol, k + 1)
    ensures TailMatches(env, init, orders, tol, budget, k)
  {
    var q := StateAfter(env, init, orders, k + 1);
    RunFromReferenceStep(env, init, orders, tol, budget, k);
    assert SweepsRunFrom(env, init, orders, tol, budget, k) == k + 1;
    var h := CostsAfter(env, init, orders, k + 1);
    assert h == CostsAfter(env, init, orders, k) + [env.cost(q)];
    assert h[k..] == [env.cost(q)];
  }

  /** A sweep `k + 1` that did not converge adds its cost in front of the tail from `k + 1`. */
  lemma TailMatchesStep(env: Env, init: seq<real>, orders: seq<seq<nat>>, tol: real, budget: nat, k: nat)
    requires AllInBounds(orders, |init|) && k < budget <= |orders|
    requires !Converged(env, init, orders, tol, k + 1)
    requires TailMatches(env, init, orders, tol, budget, k + 1)
    ensures TailMatches(env, init, orders, tol, budget, k)
  {
    var n := SweepsRunFrom(env, init, orders, tol, budget, k);
    var q := StateAfter(env, init, orders, k + 1);
    var h := CostsAfter(env, init, orders, n);
    RunFromReferenceStep(env, init, orders, tol, budget, k);
    assert n == SweepsRunFrom(env, init, orders, tol, budget, k + 1);
    CostsAfterEntry(env, init, orders, n, k);
    assert h[k..] == [env.cost(q)] + h[k + 1..];
  }

  /**
   * The rest of a run from the state after `k` sweeps is the tail of the
   * reference run: the state after all the sweeps that run, and the costs of
   * sweeps `k + 1` onwards.
   */
  lemma {:induction false} RunFromMatchesSweeps(env: Env, init: seq<real>, orders: seq<seq<nat>>, tol: real, budget: nat, k: nat)
    requires AllInBounds(orders, |init|) && k <= budget <= |orders|
    ensures TailMatches(env, init, orders, tol, budget, k)
    decreases budget - k
  {
    if k == budget {
      TailMatchesAtEnd(env, init, orders, tol, budget);
    } else if Converged(env, init, orders, tol, k + 1) {
      TailMatchesAtStop(env, init, orders, tol, budget, k);
    } else {
      RunFromMatchesSweeps(env, init, orders, tol, budget, k + 1);
      TailMatchesStep(env, init, orders, tol, budget, k);
    }
  }

  /**
   * A whole run is the reference run: `SweepsRun` sweeps are performed, the
   * final vector is the state after them and the recorded costs are the
   * costs after each of them.
   */
  lemma RunMatchesSweeps(env: Env, init: seq<real>, orders: seq<seq<nat>>, tol: real, budget: nat)
    requires AllPermutations(orders, |init|) && budget <= |orders|
    ensures AllInBounds(orders, |init|)
    ensures var n := SweepsRun(env, init, orders, tol, budget);
      Run(env, init, orders, tol, budget) == Trace(StateAfter(env, init, orders, n), CostsAfter(env, init, orders, n))
  {
    AllPermutationsInBounds(orders, |init|);
    RunFromMatchesSweeps(env, init, orders, tol, budget, 0);
    var n := SweepsRun(env, init, orders, tol, budget);
    assert CostsAfter(env, init, orders, n)[0..] == CostsAfter(env, init, orders, n);
  }

  /**
   * What `optimize` promises about its outcome: the vector keeps its length;
   * one cost is recorded per sweep, at most `budget` of them; with no budget
   * nothing happens, otherwise at least one sweep runs, every coordinate ends
   * in [-pi, pi) and the last recorded cost is the cost of the final vector.
   */
  lemma RunOutcome(env: Env, init: seq<real>, orders: seq<seq<nat>>, tol: real, budget: nat)
    requires AllPermutations(orders, |init|) && budget <= |orders|
    ensures var t := Run(env, init, orders, tol, budget);
      && |t.params| == |init|
      && |t.costs| <= budget
      && (budget == 0 ==> t == Trace(init, []))
      && (budget >= 1 ==>
            && 1 <= |t.costs|
            && t.costs[|t.costs| - 1] == env.cost(t.params)
            && forall j :: 0 <= j < |t.params| ==> -Pi <= t.params[j] < Pi)
  {
    AllPermutationsInBounds(orders, |init|);
    var n := SweepsRun(env, init, orders, tol, budget);
    RunMatchesSweeps(env, init, orders, tol, budget);
    if budget >= 1 {
      SweepsRunStops(env, init, orders, tol, budget);
      CostsAfterEntry(env, init, orders, n, n - 1);
      StateAfterWrapped(env, init, orders, n);
    }
  }

  /**
   * What `optimize` returns next to the history it leaves: no cost exactly
   * when the budget is 0; otherwise the cost is the entry last appended to
   * the history and the cost of the returned vector.
   */
  lemma ReturnedCost(env: Env, init: seq<real>, orders: seq<seq<nat>>, tol: real, budget: nat, before: seq<real>)
    requires AllPermutations(orders, |init|) && budget <= |orders|
    ensures var t := Run(env, init, orders, tol, budget);
      var history, cost := before + t.costs, LastCost(t.costs);
      && (cost == None <==> budget == 0)
      && (cost.Some? ==> cost.value == history[|history| - 1] == env.cost(t.params))
      && |before| <= |history| <= |before| + budget
      && history[..|before|] == before
  {
    RunOutcome(env, init, orders, tol, budget);
    var t := Run(env, init, orders, tol, budget);
    assert (before + t.costs)[..|before|] == before;
  }

  /**
   * A run stops early exactly at a converged sweep: every sweep before the
   * last one had a `max_delta` of at least `tol`, and a run that ends before
   * its budget ends on a sweep whose `max_delta` is below `tol`.
   */
  lemma RunStopsAtConvergence(env: Env, init: seq<real>, orders: seq<seq<nat>>, tol: real, budget: nat)
    requires AllPermutations(orders, |init|) && budget <= |orders|
    ensures AllInBounds(orders, |init|)
    ensures var k := |Run(env, init, orders, tol, budget).costs|;
      && k <= budget
      && (forall j :: 1 <= j < k ==> !Converged(env, init, orders, tol, j))
      && (k < budget ==> 1 <= k && Converged(env, init, orders, tol, k))
  {
    AllPermutationsInBounds(orders, |init|);
    RunMatchesSweeps(env, init, orders, tol, budget);
    SweepsRunStops(env, init, orders, tol, budget);
  }

  /**
   * With a well-behaved cost function, a run that takes the batched answers
   * and one that always falls back to scalar calls end alike.
   */
  lemma {:induction false} RunFromBatchedMatchesScalar(env: Env, p: seq<real>, orders: seq<seq<nat>>, tol: real, budget: nat, it: nat)
    requires WellBehaved(env) && AllInBounds(orders, |p|) && it <= budget <= |orders|
    ensures RunFrom(env, p, orders, tol, budget, it) == RunFrom(ScalarOnly(env), p, orders, tol, budget, it)
    decreases budget - it
  {
    if it < budget {
      SweepBatchedMatchesScalar(env, p, orders[it]);
      var q := SweepResult(env, p, orders[it]);
      RunFromBatchedMatchesScalar(env, q, orders, tol, budget, it + 1);
    }
  }

  /** With a well-behaved cost function, the batched path does not change the outcome of `optimize`. */
  lemma RunBatchedMatchesScalar(env: Env, init: seq<real>, orders: seq<seq<nat>>, tol: real, budget: nat)
    requires WellBehaved(env) && AllPermutations(orders, |init|) && budget <= |orders|
    ensures Run(env, init, orders, tol, budget) == Run(ScalarOnly(env), init, orders, tol, budget)
  {
    AllPermutationsInBounds(orders, |init|);
    RunFromBatchedMatchesScalar(env, init, orders, tol, budget, 0);
  }

  /**
   * One sweep of `optimize`, in place: the coordinates are updated in the
   * given order, each from three probe costs, and the largest angular change
   * is returned.
   */
  method Sweep(params: array<real>, order: seq<nat>, env: Env) returns (maxDelta: real)
    requires InBounds(order, params.Length)
    modifies params
    ensures Swept(params[..], maxDelta) == SweepOut(env, old(params[..]), order)
  {
    ghost var start := params[..];
    maxDelta := 0.0;
    var k := 0;
    while k < |order|
      invariant 0 <= k <= |order|
      invariant params[..] == SweepResult(env, start, order[..k])
      invariant maxDelta == MaxDelta(env, start, order[..k])
    {
      var i := order[k];
      var thetaI := params[i];
      var base := params[..];
      var plus := Shifted(base, i, HalfPi);
      var minus := Shifted(base, i, -HalfPi);
      var e0, ep, em;
      var vals := env.batched([base, plus, minus]);
      if vals.Some? && |vals.value| == 3 {
        e0, ep, em := vals.value[0], vals.value[1], vals.value[2];
      } else {
        e0, ep, em := env.cost(base), env.cost(plus), env.cost(minus);
      }
      var a := env.atan2(2.0 * e0 - ep - em, ep - em);
      var thetaOpt := Wrap(-HalfPi - a);
      var delta := Abs(Wrap(thetaOpt - thetaI));
      maxDelta := Max(maxDelta, delta);
      assert [base, plus, minus] == Probes(base, i);
      assert thetaOpt == ThetaOpt(env, base, i);
      assert delta == Delta(env, base, i);
      params[i] := thetaOpt;
      assert order[..k + 1][..k] == order[..k];
      assert params[..] == Update(env, base, i);
      k := k + 1;
    }
    assert order[..k] == order;
  }

  /** `np.array(initial_params, dtype=float)`: a fresh copy of the initial vector. */
  method NewVector(init: seq<real>) returns (a: array<real>)
    ensures fresh(a) && a[..] == init
  {
    a := new real[|init|](j requires 0 <= j < |init| => init[j]);
    assert a[..] == init;
  }

  /**
   * One pass of the `optimize` loop body: a sweep along `orders[it]` and the
   * cost at the new vector. Against the run still to go, the sweep either
   * ends it or leaves the rest of the run from the new vector.
   */
  method Iterate(params: array<real>, env: Env, orders: seq<seq<nat>>, tol: real, budget: nat, it: nat, ghost done: seq<real>, ghost total: Trace)
    returns (maxDelta: real, c: real)
    requires AllInBounds(orders, params.Length) && it < budget <= |orders|
    requires total == After(done, RunFrom(env, params[..], orders, tol, budget, it))
    modifies params
    ensures Swept(params[..], maxDelta) == SweepOut(env, old(params[..]), orders[it]) && c == env.cost(params[..])
    ensures maxDelta < tol ==> total == Trace(params[..], done + [c])
    ensures maxDelta >= tol ==> total == After(done + [c], RunFrom(env, params[..], orders, tol, budget, it + 1))
  {
    ghost var cur := params[..];
    maxDelta := Sweep(params, orders[it], env);
    c := env.cost(params[..]);
    RunFromStep(env, cur, orders, tol, budget, it, params[..], maxDelta, c, done);
  }

  class Rotosolve {
    var maxiter: int
    var tol: real
    /** One cost per completed sweep, over all calls of `Optimize`; never cleared. */
    var history: seq<real>
    /** Stored, never read. */
    var repeats: int

    constructor (maxiter: int := 50, tol: real := 0.00000001, repeats: int := 1)
      ensures this.maxiter == maxiter && this.tol == tol && this.repeats == repeats
      ensures history == []
    {
      this.maxiter := maxiter;
      this.tol := tol;
      this.history := [];
      this.repeats := repeats;
    }

    /**
     * Runs at most `maxiter` sweeps from `initParams`, the `s`-th along
     * `orders[s]`, and stops after the first sweep whose `max_delta` is below
     * `tol`; `history` gains the sweeps' costs in order. Returns the final
     * vector and the last cost; the cost is `None` when no sweep ran, where
     * the source fails because `cost` was never assigned. Each pass of the
     * loop appends its sweep's cost to `history` as soon as it is computed.
     */
    method Optimize(initParams: seq<real>, env: Env, orders: seq<seq<nat>>) returns (params: array<real>, cost: Option<real>)
      requires AllPermutations(orders, |initParams|) && Budget(maxiter) <= |orders|
      modifies this`history
      ensures fresh(params)
      ensures var t := Run(env, initParams, orders, tol, Budget(maxiter));
        && params[..] == t.params
        && history == old(history) + t.costs
        && cost == LastCost(t.costs)
    {
      AllPermutationsInBounds(orders, |initParams|);
      params := NewVector(initParams);
      var budget := Budget(maxiter);
      ghost var total := RunFrom(env, params[..], orders, tol, budget, 0);
      ghost var costs: seq<real> := [];
      cost := None;
      var it := 0;
      assert total == After(costs, total);
      while it < budget
        invariant 0 <= it <= budget
        invariant cost == LastCost(costs)
        invariant history == old(history) + costs
        invariant total == After(costs, RunFrom(env, params[..], orders, tol, budget, it))
      {
        var maxDelta, c := Iterate(params, env, orders, tol, budget, it, costs, total);
        history := history + [c];
        costs, cost := costs + [c], Some(c);
        it := it + 1;
        if maxDelta < tol {
          break;
        }
      }
      assert total == Trace(params[..], costs);
    }
  }
}
