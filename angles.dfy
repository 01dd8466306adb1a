/**
 * Angles in radians and their reduction to one canonical turn.
 * `Wrap` is the optimizer's `_wrap_angle`: `(x + pi) % (2 pi) - pi`, where
 * Python's `%` with a positive modulus yields `a - b * floor(a / b)`.
 */
module Angles {

  /** Pi as the decimal that `np.pi` prints as, read as an exact real. */
  const Pi: real := 3.141592653589793
  const HalfPi: real := Pi / 2.0
  const TwoPi: real := 2.0 * Pi

  /** `k` full turns, in radians. */
  function Turns(k: int): real
  {
    TwoPi * k as real
  }

  function Abs(x: real): real
  {
    if x < 0.0 then -x else x
  }

  /** Python's `max(a, b)`: the first argument unless the second is larger. */
  function Max(a: real, b: real): real
  {
    if b > a then b else a
  }

  /** Reduces `x` to the half-open turn [-pi, pi). */
  function Wrap(x: real): (r: real)
    ensures -Pi <= r < Pi
  {
    var y := x + Pi;
    y - TwoPi * (y / TwoPi).Floor as real - Pi
  }

  /** `Wrap` moves its argument by whole turns only. */
  lemma WrapShift(x: real)
    ensures exists k: int :: Wrap(x) == x + Turns(k)
  {
    var q := ((x + Pi) / TwoPi).Floor;
    assert Wrap(x) == x + Turns(-q);
  }

  /** Two angles in [-pi, pi) that differ by whole turns are equal. */
  lemma SameTurnClass(a: real, b: real, k: int)
    requires -Pi <= a < Pi && -Pi <= b < Pi
    requires a == b + Turns(k)
    ensures k == 0 && a == b
  {
  }

  /** `Wrap(x)` is the only angle in [-pi, pi) that is `x` up to whole turns. */
  lemma WrapUnique(x: real, y: real, k: int)
    requires -Pi <= y < Pi
    requires y == x + Turns(k)
    ensures Wrap(x) == y
  {
    WrapShift(x);
    var m :| Wrap(x) == x + Turns(m);
    assert Wrap(x) == y + Turns(m - k);
    SameTurnClass(Wrap(x), y, m - k);
  }

  /** An angle already in [-pi, pi) is left alone. */
  lemma WrapInRange(x: real)
    requires -Pi <= x < Pi
    ensures Wrap(x) == x
  {
    WrapUnique(x, x, 0);
  }

  lemma WrapIdempotent(x: real)
    ensures Wrap(Wrap(x)) == Wrap(x)
  {
    WrapInRange(Wrap(x));
  }

  /** Whole turns added to the input do not change the wrapped angle. */
  lemma WrapPeriodic(x: real, k: int)
    ensures Wrap(x + Turns(k)) == Wrap(x)
  {
    WrapShift(x);
    var m :| Wrap(x) == x + Turns(m);
    WrapUnique(x + Turns(k), Wrap(x), m - k);
  }

  /** The wrapped difference of two angles lies in [0, pi] ... */
  lemma AngularDistanceBounds(a: real, b: real)
    ensures 0.0 <= Abs(Wrap(a - b)) <= Pi
  {
  }

  /** ... and, for two canonical angles, it is zero exactly when they are equal. */
  lemma AngularDistanceZero(a: real, b: real)
    requires -Pi <= a < Pi && -Pi <= b < Pi
    ensures Abs(Wrap(a - b)) == 0.0 <==> a == b
  {
    if a == b {
      WrapInRange(0.0);
    } else {
      WrapShift(a - b);
    }
  }
}
