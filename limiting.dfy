/** The two-sided limiter `clamp` of `pid.py` and the slew rule of `PID.__call__`.

    A bound pair is `(lower, upper)`, either side possibly absent. As written,
    `clamp` answers with the violated bound, and with nothing at all (`None`)
    when no bound is violated: the value itself is never passed through.
 */
module Limiting {

  datatype Option<+T> = None | Some(value: T)

  /** A `(lower, upper)` pair; a `None` side is unbounded. */
  datatype Bounds = Bounds(lower: Option<real>, upper: Option<real>)

  /** The default `(None, None)` of `output_limits` and `windup_limits`. */
  const Unbounded: Bounds := Bounds(None, None)

  predicate AboveUpper(value: real, limits: Bounds) {
    limits.upper.Some? && value > limits.upper.value
  }

  predicate BelowLower(value: real, limits: Bounds) {
    limits.lower.Some? && value < limits.lower.value
  }

  /** `value` violates neither bound. */
  predicate Within(value: real, limits: Bounds) {
    !AboveUpper(value, limits) && !BelowLower(value, limits)
  }

  /** The pair is not inverted (an absent side never inverts it). */
  predicate Ordered(limits: Bounds) {
    limits.lower.Some? && limits.upper.Some? ==> limits.lower.value <= limits.upper.value
  }

  /** `clamp(value, limits)` as written: the upper test runs first, and the
      fall-through is a bare `return`, i.e. `None`. */
  function Clamp(value: real, limits: Bounds): (r: Option<real>)
    ensures r.Some? <==> !Within(value, limits)
    ensures AboveUpper(value, limits) ==> r == limits.upper
    ensures !AboveUpper(value, limits) && BelowLower(value, limits) ==> r == limits.lower
    ensures r != Some(value)
    ensures r.Some? && Ordered(limits) ==> Within(r.value, limits)
  {
    if limits.upper.Some? && value > limits.upper.value then limits.upper
    else if limits.lower.Some? && value < limits.lower.value then limits.lower
    else None
  }

  /** With both bounds absent no bound can be violated, so the answer is always `None`. */
  lemma ClampUnboundedIsNone(value: real)
    ensures Clamp(value, Unbounded) == None
  {
  }

  /** On an inverted pair a value above the upper bound and below the lower
      one gets the upper bound. */
  lemma ClampInvertedUpperWins(value: real, lower: real, upper: real)
    requires upper < value < lower
    ensures Clamp(value, Bounds(Some(lower), Some(upper))) == Some(upper)
  {
  }

  /** The slew rule of `__call__`: an output more than `maxDiff` away from
      `prevOutput` is moved to the nearer edge of that band. */
  function Slew(output: real, prevOutput: real, maxDiff: real): (r: real)
    ensures maxDiff >= 0.0 ==> prevOutput - maxDiff <= r <= prevOutput + maxDiff
    ensures prevOutput - maxDiff <= output <= prevOutput + maxDiff ==> r == output
    ensures output - prevOutput > maxDiff ==> r == prevOutput + maxDiff
    ensures maxDiff >= 0.0 && output - prevOutput < -maxDiff ==> r == prevOutput - maxDiff
  {
    if output - prevOutput > maxDiff then prevOutput + maxDiff
    else if output - prevOutput < -maxDiff then prevOutput - maxDiff
    else output
  }
}
