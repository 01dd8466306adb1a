# Rotosolve coordinate optimizer in Dafny

This project models the Rotosolve optimizer of `Rotosolve/optimizer.py` and
proves properties of it. Rotosolve minimises a cost that is sinusoidal in each
angle of a parameter vector. It works in sweeps. Each sweep visits every
coordinate once, in a shuffled order. At each coordinate it samples the cost
at three points: the current vector, and the vector with that coordinate
moved a quarter turn up and a quarter turn down. From the three samples it
jumps the coordinate to the analytic minimiser
`wrap(-pi/2 - atan2(2 E0 - Ep - Em, Ep - Em))`. A sweep's `max_delta` is the
largest wrapped change of any coordinate. After each sweep the cost of the
whole vector is appended to the object's history. The loop stops after
`maxiter` sweeps, or after the first sweep whose `max_delta` is below `tol`.

Modules and files:

- `wrappers.dfy` (`Wrappers`): the `Option` type.
- `angles.dfy` (`Angles`): pi, `Wrap` (the source's `_wrap_angle`, with
  Python's floored `%`) and its laws.
- `coordinate.dfy` (`Coordinate`): the cost function's interface (`Env`), the
  probes, the batched call with its scalar fallback, one coordinate update,
  and a whole sweep as functions of the vector (`SweepOut`, `SweepResult`,
  `MaxDelta`).
- `optimizer.dfy` (`Optimizer`): a run as a recursion (`RunFrom`, `Run`); a
  reference description of the same run (`StateAfter`, `CostsAfter`,
  `SweepsRun`) proved equal to it; and the imperative code. The imperative
  code is the class `Rotosolve` with its fields, the in-place sweep over an
  `array<real>` (`Sweep`), and the outer loop in `Rotosolve.Optimize`. Each
  method is proved to compute the functions.

Modelling decisions:

- The wrapped range is the half-open interval [-pi, pi). That is what
  `(x + pi) % (2 pi) - pi` yields, since Python's `%` with a positive modulus
  is floored.
- `np.pi` is the real number 3.141592653589793. All arithmetic is exact real
  arithmetic.
- The user's cost function is a parameter (`Env`) with three parts:
  - `cost`: its scalar mode;
  - `batched`: its batched mode, giving `None` when the call raises;
  - `atan2`: the two-argument arctangent.
- `random.shuffle` becomes an input. `orders[s]` is the visiting order of
  sweep `s`, and every order is required to be a permutation of the indices.
- `range(maxiter)` allows `Budget(maxiter)` sweeps. That is 0 for a
  non-positive `maxiter`.
- The returned cost is an `Option`. With no sweep, the source's final
  `return params, cost` fails because `cost` is unbound. The model returns
  `None` there.

## Model

| member | source | states |
|---|---|---|
| Angles.Wrap | Rotosolve/optimizer.py:12-13 | the wrapped angle lies in [-pi, pi) |
| Angles.WrapShift | Rotosolve/optimizer.py:12-13 | wrapping changes an angle by a whole number of turns only |
| Angles.WrapUnique | Rotosolve/optimizer.py:12-13 | the wrapped angle is the one value in [-pi, pi) equal to the input up to whole turns |
| Angles.WrapInRange | Rotosolve/optimizer.py:12-13 | an angle already in [-pi, pi) is left unchanged |
| Angles.WrapIdempotent | Rotosolve/optimizer.py:12-13 | wrapping twice is wrapping once |
| Angles.WrapPeriodic | Rotosolve/optimizer.py:12-13 | adding whole turns to the input does not change the result |
| Angles.AngularDistanceBounds | Rotosolve/optimizer.py:46 | the absolute wrapped difference of two angles lies in [0, pi] |
| Angles.AngularDistanceZero | Rotosolve/optimizer.py:46 | for two angles in [-pi, pi), the absolute wrapped difference is zero if and only if they are equal |
| Coordinate.ProbesShape | Rotosolve/optimizer.py:25-29 | the batch has three rows: the vector itself, then coordinate i moved up and down by pi/2, with every other coordinate unchanged |
| Coordinate.ProbeCostsContract | Rotosolve/optimizer.py:29-40 | a batched answer is used, in the order E0, Ep, Em, exactly when the call returned exactly 3 values; otherwise the three costs are the scalar calls on base, plus and minus; for a cost function whose two modes agree, both paths give the scalar costs |
| Coordinate.ThetaOpt | Rotosolve/optimizer.py:42-44 | the new angle lies in [-pi, pi) |
| Coordinate.Update | Rotosolve/optimizer.py:48 | the update keeps the vector's length and puts a value in [-pi, pi) at coordinate i |
| Coordinate.UpdateFrame | Rotosolve/optimizer.py:42-48 | the update writes the analytic minimiser at coordinate i and leaves every other coordinate as it was |
| Coordinate.Delta | Rotosolve/optimizer.py:46 | the change at one coordinate lies in [0, pi] |
| Coordinate.DeltaZeroIffUnchanged | Rotosolve/optimizer.py:46-48 | for a coordinate already in [-pi, pi), the change is zero if and only if the update leaves the vector unchanged |
| Coordinate.SweepOut | Rotosolve/optimizer.py:19-48 | a sweep keeps the vector's length, and its max_delta lies in [0, pi] |
| Coordinate.SweepResult | Rotosolve/optimizer.py:22-48 | the vector after a sweep has the length of the vector before it |
| Coordinate.SweepFrame | Rotosolve/optimizer.py:22-48 | a coordinate the order never visits keeps its value through the sweep |
| Coordinate.SweepWrapsVisited | Rotosolve/optimizer.py:22-48 | every visited coordinate is in range and ends in [-pi, pi) |
| Coordinate.MaxDelta | Rotosolve/optimizer.py:19 | a sweep's max_delta lies in [0, pi] |
| Coordinate.MaxDeltaBoundsSteps | Rotosolve/optimizer.py:19-47 | max_delta is at least the change made at every step of the sweep |
| Coordinate.MaxDeltaAttained | Rotosolve/optimizer.py:19-47 | max_delta is 0 for an empty order and otherwise equals the change made at some step: it is the maximum |
| Coordinate.RangeCount | Rotosolve/optimizer.py:20 | `list(range(D))` holds every index below D exactly once and nothing else |
| Coordinate.PermutationVisitsEachOnce | Rotosolve/optimizer.py:20-22 | a shuffled order has D entries, all below D, and holds each index exactly once |
| Coordinate.SweepSplit | Rotosolve/optimizer.py:22-48 | sweeping along a + b is sweeping along a, then along b from the result |
| Coordinate.SweepSequential | Rotosolve/optimizer.py:22-48 | a sweep starting at index i updates coordinate i first, then sweeps the rest from the updated vector |
| Coordinate.SweepVisitValue | Rotosolve/optimizer.py:22-48 | along a permutation, the final value of the k-th visited coordinate is the minimiser computed from the vector after the first k steps |
| Coordinate.SweepWrapsAll | Rotosolve/optimizer.py:20-48 | after a sweep along a permutation, every coordinate lies in [-pi, pi) |
| Coordinate.ScalarOnly | Rotosolve/optimizer.py:37-40 | the same cost function, but its batched call always raises |
| Coordinate.StepBatchedMatchesScalar | Rotosolve/optimizer.py:29-47 | for a cost function whose batched answers match its scalar answers, one update is the same whether or not the batched call is used |
| Coordinate.SweepBatchedMatchesScalar | Rotosolve/optimizer.py:22-48 | for such a cost function, the same holds for a whole sweep and its max_delta |
| Optimizer.Budget | Rotosolve/optimizer.py:18 | `range(maxiter)` allows `maxiter` sweeps when maxiter is non-negative, and none otherwise |
| Optimizer.StateAfter | Rotosolve/optimizer.py:18-48 | the vector after k sweeps keeps its length |
| Optimizer.StateAfterWrapped | Rotosolve/optimizer.py:18-48 | after one sweep or more, every coordinate lies in [-pi, pi) |
| Optimizer.CostsAfter | Rotosolve/optimizer.py:50-51 | k sweeps record k costs |
| Optimizer.CostsAfterEntries | Rotosolve/optimizer.py:50-51 | the s-th recorded cost is the cost of the whole vector after sweep s + 1 |
| Optimizer.SweepsRunFrom | Rotosolve/optimizer.py:18-56 | a run that has done k sweeps performs between k and budget sweeps in all |
| Optimizer.SweepsRun | Rotosolve/optimizer.py:18-56 | a run performs at most budget sweeps |
| Optimizer.SweepsRunFromPassed | Rotosolve/optimizer.py:55-56 | no sweep before the last one has a max_delta below tol |
| Optimizer.SweepsRunFromEnds | Rotosolve/optimizer.py:55-56 | a run that stops before its budget stops on a sweep whose max_delta is below tol |
| Optimizer.SweepsRunStops | Rotosolve/optimizer.py:18-56 | a positive budget runs at least one sweep; no sweep before the last has max_delta below tol; an early stop happens at a sweep with max_delta below tol |
| Optimizer.SweepsRunUnique | Rotosolve/optimizer.py:18-56 | any sweep count that satisfies that stopping rule is the count the run performs |
| Optimizer.RunFromStep | Rotosolve/optimizer.py:18-56 | one loop pass either ends the run with the new vector and its cost, or records the cost and continues from the new vector |
| Optimizer.RunFromMatchesSweeps | Rotosolve/optimizer.py:18-56 | from the state after k sweeps, the rest of the run reaches the reference final state and records the reference costs of sweeps k + 1 onwards |
| Optimizer.RunMatchesSweeps | Rotosolve/optimizer.py:15-58 | a whole run ends at the state after SweepsRun sweeps, and records exactly the costs after each of those sweeps |
| Optimizer.RunOutcome | Rotosolve/optimizer.py:15-58 | the vector keeps its length; at most budget costs are recorded; with no budget the vector is returned unchanged and nothing is recorded; otherwise at least one cost is recorded, the last being the cost of the final vector, and every coordinate lies in [-pi, pi) |
| Optimizer.ReturnedCost | Rotosolve/optimizer.py:50-58 | no cost is returned exactly when the budget is 0; otherwise the returned cost is the last history entry and the cost of the returned vector; the history keeps its old entries as a prefix and grows by at most budget |
| Optimizer.RunStopsAtConvergence | Rotosolve/optimizer.py:55-56 | the number of recorded costs obeys the stopping rule: no sweep before the last converged, and a run ending before its budget ends on a converged sweep |
| Optimizer.RunFromBatchedMatchesScalar | Rotosolve/optimizer.py:29-40 | for a cost function whose two modes agree, the rest of a run is the same as with the scalar fallback only |
| Optimizer.RunBatchedMatchesScalar | Rotosolve/optimizer.py:29-40 | for a cost function whose two modes agree, the batched path does not change the outcome of a run |
| Optimizer.Sweep | Rotosolve/optimizer.py:19-48 | the in-place sweep leaves the array at the sweep's result vector and returns its max_delta |
| Optimizer.NewVector | Rotosolve/optimizer.py:16 | a fresh array holding the initial vector |
| Optimizer.Iterate | Rotosolve/optimizer.py:19-56 | one loop pass on the array: the array becomes the sweep of its old contents along this pass's order, the returned max_delta is that sweep's, and the cost is the full cost of the new vector; a max_delta below tol ends the run here with the cost appended; otherwise the run continues from the new array contents |
| Optimizer.Rotosolve.constructor | Rotosolve/optimizer.py:5-9 | the configuration fields take the given values, which default to 50, 1e-8 and 1, and the history starts empty |
| Optimizer.Rotosolve.Optimize | Rotosolve/optimizer.py:15-58 | returns a fresh array holding the run's final vector and the run's last cost (none when maxiter <= 0); the history gains the run's costs, in order |

## Left out

- The progress message at lines 52-53 is output only and is not modelled.
- Floating point is not modelled. The model uses exact real arithmetic, with
  pi as the decimal value of `np.pi`. NaN, infinities and rounding are outside
  the model.
- numpy is not modelled. `np.array`, `copy`, `vstack`, `asarray(...).ravel()`
  and `float(...)` become operations on sequences. The initial parameters are
  taken as a flat vector of reals; a multi-dimensional array is not modelled.
- Exceptions are modelled in one place only. A batched call that raises is
  `None`. A batched answer of the wrong length takes the fallback, as in the
  source. A scalar call is a total function, so an exception from the scalar
  fallback or from the per-sweep cost call is not modelled.
- The cost function's side effects are not modelled. It is taken to be a pure
  function of its argument. The methods make the source's calls in the
  source's order, but nothing is proved about the number of calls.
- `random.shuffle` is not modelled. The visiting orders are an input, one per
  sweep. There must be at least `Budget(maxiter)` of them, and each must be a
  permutation of the indices.
- `np.arctan2` is the `atan2` parameter. Nothing is proved about its values.
  So the model does not prove that an update reaches the true minimiser of a
  sinusoidal cost, that the cost decreases, or that the loop converges.
- `repeats` is stored by the constructor and never read, as in the source.
