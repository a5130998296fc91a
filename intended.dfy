/** The controller `pid.py` evidently means to be: `clamp` passes an in-range
    value through, and a call returns its limited output and remembers it as
    `prev_output`. These definitions stand beside the literal ones of
    `Limiting` and `Controller`, which keep modelling the code as written.
 */
module Intended {
  import opened Limiting
  import opened Controller

  /** `clamp` with the pass-through its last line leaves out. */
  function Limit(value: real, limits: Bounds): (r: real)
    ensures Within(value, limits) ==> r == value
    ensures Ordered(limits) ==> Within(r, limits)
    ensures AboveUpper(value, limits) ==> r == limits.upper.value
    ensures !AboveUpper(value, limits) && BelowLower(value, limits) ==> r == limits.lower.value
    ensures r == value || Some(r) == limits.upper || Some(r) == limits.lower
  {
    if limits.upper.Some? && value > limits.upper.value then limits.upper.value
    else if limits.lower.Some? && value < limits.lower.value then limits.lower.value
    else value
  }

  /** The literal `clamp` agrees with `Limit` wherever it answers, and answers
      nothing exactly where `Limit` passes the value through. */
  lemma LimitAgreesWithClamp(value: real, limits: Bounds)
    ensures Clamp(value, limits).Some? ==> Limit(value, limits) == Clamp(value, limits).value
    ensures Clamp(value, limits).None? <==> Limit(value, limits) == value
  {
  }

  /** A concrete in-range value: the literal `clamp` drops it, `Limit` keeps it. */
  lemma ClampDropsInRangeValue()
    ensures Clamp(0.5, Bounds(Some(0.0), Some(1.0))) == None
    ensures Limit(0.5, Bounds(Some(0.0), Some(1.0))) == 0.5
  {
  }

  /** For a non-negative `maxDiff` the slew rule is `Limit` to the band around `prevOutput`. */
  lemma SlewIsLimitToBand(output: real, prevOutput: real, maxDiff: real)
    requires maxDiff >= 0.0
    ensures Slew(output, prevOutput, maxDiff)
         == Limit(output, Bounds(Some(prevOutput - maxDiff), Some(prevOutput + maxDiff)))
  {
  }

  /** One corrected call. Its return value is the new `prevOutput`: the
      slew-limited output is both returned and remembered. */
  function IntendedStep(s: State, error: real): (t: State)
    requires s.integral.Some? && s.step != 0.0
    ensures SameConfig(s, t)
    ensures t.integral == Some(Limit(Accumulated(s, error), s.windupLimits))
    ensures t.prevError == error
    ensures t.proportionalTerm == s.P * error
    ensures t.integralTerm == s.I * t.integral.value
    ensures t.derivativeTerm == DerivativeTerm(s.D, error, s.prevError, s.step)
    ensures Ordered(s.windupLimits) ==> Within(t.integral.value, s.windupLimits)
    ensures s.maxDiff.Some? && s.maxDiff.value >= 0.0 ==>
      s.prevOutput - s.maxDiff.value <= t.prevOutput <= s.prevOutput + s.maxDiff.value
    ensures s.maxDiff.None? ==> t.prevOutput == Limit(TermSum(t), s.outputLimits)
    ensures s.maxDiff.Some?
         && -s.maxDiff.value <= Limit(TermSum(t), s.outputLimits) - s.prevOutput <= s.maxDiff.value
         ==> t.prevOutput == Limit(TermSum(t), s.outputLimits)
    ensures s.maxDiff.None? && Ordered(s.outputLimits) ==> Within(t.prevOutput, s.outputLimits)
  {
    var integral := Limit(Accumulated(s, error), s.windupLimits);
    var t := s.(proportionalTerm := s.P * error,
                integral := Some(integral),
                integralTerm := s.I * integral,
                derivativeTerm := DerivativeTerm(s.D, error, s.prevError, s.step),
                prevError := error);
    var limited := Limit(TermSum(t), s.outputLimits);
    t.(prevOutput := if s.maxDiff.Some? then Slew(limited, s.prevOutput, s.maxDiff.value) else limited)
  }

  /** Slew limiting in a corrected call: a limited output more than `maxDiff`
      above (below) the previous output is returned as `prevOutput + maxDiff`
      (`prevOutput - maxDiff`); one inside the band is returned unchanged. */
  lemma IntendedSlew(s: State, error: real)
    requires s.integral.Some? && s.step != 0.0
    requires s.maxDiff.Some? && s.maxDiff.value >= 0.0
    ensures var t := IntendedStep(s, error);
      var raw := Limit(TermSum(t), s.outputLimits);
      && (raw - s.prevOutput > s.maxDiff.value ==> t.prevOutput == s.prevOutput + s.maxDiff.value)
      && (raw - s.prevOutput < -s.maxDiff.value ==> t.prevOutput == s.prevOutput - s.maxDiff.value)
      && (-s.maxDiff.value <= raw - s.prevOutput <= s.maxDiff.value ==> t.prevOutput == raw)
  {
  }

  /** `n` corrected calls with the same error. */
  function Repeat(s: State, error: real, n: nat): (t: State)
    requires s.integral.Some? && s.step != 0.0
    ensures SameConfig(s, t) && t.integral.Some?
    decreases n
  {
    if n == 0 then s else Repeat(IntendedStep(s, error), error, n - 1)
  }

  /** With `I = D = 0` and no slew limit the output is `P * error`, limited to the output limits. */
  lemma ProportionalOnly(s: State, error: real)
    requires s.integral.Some? && s.step != 0.0
    requires s.I == 0.0 && s.D == 0.0 && s.maxDiff.None?
    ensures IntendedStep(s, error).prevOutput == Limit(s.P * error, s.outputLimits)
  {
    var t := IntendedStep(s, error);
    assert t.integralTerm == 0.0;
    assert t.derivativeTerm == 0.0 by {
      assert s.D * (error - s.prevError) == 0.0;
    }
  }

  /** Both bounds absent: `Limit` is the identity. */
  lemma LimitUnbounded(value: real)
    ensures Limit(value, Unbounded) == value
  {
  }

  /** Without windup limits one call adds `error * step` to the integral. */
  lemma UnboundedIntegralAdds(s: State, error: real)
    requires s.integral.Some? && s.step != 0.0
    requires s.windupLimits == Unbounded
    ensures IntendedStep(s, error).integral == Some(s.integral.value + Increment(error, s.step))
  {
    LimitUnbounded(Accumulated(s, error));
  }

  /** The integral after `n` corrected calls that each add `delta` before limiting. */
  function IntegralTrace(integral: real, delta: real, windup: Bounds, n: nat): (r: real)
    ensures n > 0 && Ordered(windup) ==> Within(r, windup)
    decreases n
  {
    if n == 0 then integral else IntegralTrace(Limit(integral + delta, windup), delta, windup, n - 1)
  }

  /** The integral of `n` corrected calls is the trace with `delta = error * step`. */
  lemma {:induction false} RepeatIntegral(s: State, error: real, n: nat)
    requires s.integral.Some? && s.step != 0.0
    ensures Repeat(s, error, n).integral
         == Some(IntegralTrace(s.integral.value, Increment(error, s.step), s.windupLimits, n))
    decreases n
  {
    if n > 0 {
      RepeatIntegral(IntendedStep(s, error), error, n - 1);
    }
  }

  lemma PeelOne(n: nat, x: real)
    requires n > 0
    ensures (n as real) * x == x + ((n - 1) as real) * x
  {
  }

  /** Without windup limits the integral grows linearly: `n` calls add `n * delta`
      (with `RepeatIntegral`, `n * error * step` for `n` corrected calls). */
  lemma {:induction false} TraceLinear(integral: real, delta: real, windup: Bounds, n: nat)
    requires windup == Unbounded
    ensures IntegralTrace(integral, delta, windup, n) - integral == (n as real) * delta
    decreases n
  {
    if n > 0 {
      LimitUnbounded(integral + delta);
      TraceLinear(integral + delta, delta, windup, n - 1);
      PeelOne(n, delta);
    }
  }

  /** While the unlimited trace stays inside the windup limits, the limited
      trace follows it step by step; with `TraceLinear` the integral then
      grows by `delta` per call until a bound is reached. */
  lemma {:induction false} TraceFollowsUnlimited(integral: real, delta: real, windup: Bounds, n: nat)
    requires forall k :: 0 < k <= n ==> Within(IntegralTrace(integral, delta, Unbounded, k), windup)
    ensures IntegralTrace(integral, delta, windup, n) == IntegralTrace(integral, delta, Unbounded, n)
    decreases n
  {
    if n > 0 {
      var next := integral + delta;
      LimitUnbounded(next);
      assert IntegralTrace(integral, delta, Unbounded, 1) == next;
      forall k | 0 < k <= n - 1
        ensures Within(IntegralTrace(next, delta, Unbounded, k), windup)
      {
        assert IntegralTrace(integral, delta, Unbounded, k + 1) == IntegralTrace(next, delta, Unbounded, k);
      }
      TraceFollowsUnlimited(next, delta, windup, n - 1);
    }
  }

  /** An integral pinned at the upper windup bound stays there while
      `error * step` does not turn negative. */
  lemma {:induction false} IntegralStaysPinned(s: State, error: real, n: nat)
    requires s.integral.Some? && s.step != 0.0
    requires Ordered(s.windupLimits) && s.windupLimits.upper == s.integral
    requires error * s.step >= 0.0
    ensures Repeat(s, error, n).integral == s.integral
    decreases n
  {
    if n > 0 {
      var s1 := IntendedStep(s, error);
      assert s1.integral == s.integral;
      IntegralStaysPinned(s1, error, n - 1);
    }
  }

  /** Anti-windup release: from the upper windup bound, a negative error with
      a positive step lowers the integral on the very next call (unless the
      lower bound coincides with the upper one). */
  lemma WindupRelease(s: State, error: real)
    requires s.integral.Some? && s.step > 0.0 && error < 0.0
    requires s.windupLimits.upper == s.integral
    requires s.windupLimits.lower.None? || s.windupLimits.lower.value < s.integral.value
    ensures IntendedStep(s, error).integral.value < s.integral.value
  {
    assert Increment(error, s.step) < 0.0;
  }

  /** The derivative term of a call is taken against the error of the call before it. */
  lemma DerivativeOfConsecutiveCalls(s: State, e1: real, e2: real)
    requires s.integral.Some? && s.step != 0.0
    ensures IntendedStep(IntendedStep(s, e1), e2).derivativeTerm == DerivativeTerm(s.D, e2, e1, s.step)
  {
  }

  /** `P = 1`, `I = D = 0`, `step = 1`, output limits `(-10, 10)`: a call with
      error `3` returns `3`, and then a call with error `20` returns `10`. */
  lemma ClampedScenario(s: State)
    requires s == Initial(1.0, 0.0, 0.0, 1.0, Bounds(Some(-10.0), Some(10.0)), None, Unbounded)
    ensures IntendedStep(s, 3.0).prevOutput == 3.0
    ensures IntendedStep(IntendedStep(s, 3.0), 20.0).prevOutput == 10.0
  {
    ProportionalOnly(s, 3.0);
    ProportionalOnly(IntendedStep(s, 3.0), 20.0);
  }
}
