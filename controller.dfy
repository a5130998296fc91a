/** The `PID` class of `pid.py`, read literally.

    `State` is a snapshot of every field of a controller; `Step` is one call
    of `__call__` on a snapshot and `Run` a sequence of calls, clears and
    gain changes. The class `PID` updates its fields in place and each of its
    methods is proved to have exactly the effect of the corresponding function.
 */
module Controller {
  import opened Limiting

  /** Every field of a `PID` object. `integral` is optional because `clamp`
      may store `None` in it. */
  datatype State = State(
    P: real, I: real, D: real,
    step: real,
    outputLimits: Bounds,
    maxDiff: Option<real>,
    windupLimits: Bounds,
    integral: Option<real>,
    prevError: real,
    proportionalTerm: real,
    derivativeTerm: real,
    integralTerm: real,
    prevOutput: real)

  /** Where a call raises. */
  datatype Fault =
    | IntegralIsNone      // `None + error * step`
    | IntegralTermOfNone  // `I * None`
    | ZeroStep            // division by a zero `step`
    | SlewOfNone          // `None - prev_output`

  /** What a call does: return a value or raise. */
  datatype Outcome = Returned(output: real) | Failed(fault: Fault)

  /** The configuration: gains, step and limits. */
  predicate SameConfig(s: State, t: State) {
    && s.P == t.P && s.I == t.I && s.D == t.D
    && s.step == t.step
    && s.outputLimits == t.outputLimits
    && s.maxDiff == t.maxDiff
    && s.windupLimits == t.windupLimits
  }

  /** The state `__init__` builds: zero memory, zero terms, zero previous output. */
  function Initial(P: real, I: real, D: real, step: real,
                   outputLimits: Bounds, maxDiff: Option<real>, windupLimits: Bounds): State
  {
    State(P, I, D, step, outputLimits, maxDiff, windupLimits,
          Some(0.0), 0.0, 0.0, 0.0, 0.0, 0.0)
  }

  /** The state `clear` leaves. */
  function Cleared(s: State): State {
    s.(integral := Some(0.0), prevError := 0.0)
  }

  /** What line 66 adds to the integral: `error * step`. */
  function Increment(error: real, step: real): real {
    error * step
  }

  /** The integral after line 66 adds `error * step` to it. */
  function Accumulated(s: State, error: real): real
    requires s.integral.Some?
  {
    s.integral.value + Increment(error, s.step)
  }

  /** The sum of the three terms that line 76 hands to the output clamp. */
  function TermSum(s: State): real {
    s.proportionalTerm + s.integralTerm + s.derivativeTerm
  }

  /** The backward-difference derivative term of line 71. */
  function DerivativeTerm(D: real, error: real, prevError: real, step: real): real
    requires step != 0.0
  {
    D * (error - prevError) / step
  }

  /** One call `pid(error)`: the state after it and what it returns or raises.
      A raise leaves every field written before it in place. The limited
      output is discarded: the call returns `prev_output`, which it never writes. */
  function Step(s: State, error: real): (r: (State, Outcome))
    ensures SameConfig(s, r.0) && r.0.prevOutput == s.prevOutput
    ensures r.1.Returned? ==> r.1.output == s.prevOutput
  {
    var s1 := s.(proportionalTerm := s.P * error);
    if s1.integral.None? then (s1, Failed(IntegralIsNone))
    else
      var s2 := s1.(integral := Clamp(Accumulated(s1, error), s1.windupLimits));
      if s2.integral.None? then (s2, Failed(IntegralTermOfNone))
      else
        var s3 := s2.(integralTerm := s2.I * s2.integral.value);
        if s3.step == 0.0 then (s3, Failed(ZeroStep))
        else
          var s4 := s3.(derivativeTerm := DerivativeTerm(s3.D, error, s3.prevError, s3.step), prevError := error);
          var output := Clamp(TermSum(s4), s4.outputLimits);
          if s4.maxDiff.Some? && output.None? then (s4, Failed(SlewOfNone))
          else (s4, Returned(s4.prevOutput))
  }

  /** The operations a caller can apply to a controller. */
  datatype Op = OpCall(error: real) | OpClear | OpSetP(p: real) | OpSetI(i: real) | OpSetD(d: real)

  /** One operation: the new state and, for a call, its outcome. */
  function Apply(s: State, op: Op): (State, seq<Outcome>) {
    match op
    case OpCall(e) => var (t, o) := Step(s, e); (t, [o])
    case OpClear => (Cleared(s), [])
    case OpSetP(p) => (s.(P := p), [])
    case OpSetI(i) => (s.(I := i), [])
    case OpSetD(d) => (s.(D := d), [])
  }

  /** A sequence of operations: the final state and the outcomes of the calls, in order. */
  function Run(s: State, ops: seq<Op>): (State, seq<Outcome>)
    decreases |ops|
  {
    if ops == [] then (s, [])
    else
      var (s1, first) := Apply(s, ops[0]);
      var (t, rest) := Run(s1, ops[1..]);
      (t, first + rest)
  }

  // ---------------------------------------------------------------------
  // One call, stage by stage

  /** Line 66 raises when `integral` is `None`; only the proportional term has been written. */
  lemma CallOnNoneIntegral(s: State, error: real)
    requires s.integral.None?
    ensures Step(s, error).0 == s.(proportionalTerm := s.P * error)
    ensures Step(s, error).1 == Failed(IntegralIsNone)
  {
  }

  /** An accumulated integral that violates no windup bound becomes `None`
      (line 67) and line 68 raises; from then on every call raises at line 66
      until `clear` is applied. */
  lemma {:induction false} PassThroughIntegralFails(s: State, error: real, later: seq<Op>)
    requires s.integral.Some? && Within(Accumulated(s, error), s.windupLimits)
    requires forall op <- later :: !op.OpClear?
    ensures Step(s, error).1 == Failed(IntegralTermOfNone)
    ensures Step(s, error).0 == s.(proportionalTerm := s.P * error, integral := None)
    ensures forall o <- Run(Step(s, error).0, later).1 :: o == Failed(IntegralIsNone)
  {
    NoneIntegralFailsUntilClear(Step(s, error).0, later);
  }

  /** A call that gets past line 68 pins the integral at the violated windup
      bound and sets the integral term from it; with a zero step it then
      raises at line 71, otherwise it sets the derivative term and `prev_error`. */
  lemma CallPastIntegral(s: State, error: real)
    requires s.integral.Some? && !Within(Accumulated(s, error), s.windupLimits)
    ensures var t := Step(s, error).0;
      && t.proportionalTerm == s.P * error
      && t.integral == Clamp(Accumulated(s, error), s.windupLimits)
      && (t.integral == s.windupLimits.upper || t.integral == s.windupLimits.lower)
      && t.integralTerm == s.I * t.integral.value
    ensures s.step == 0.0 ==>
      Step(s, error).1 == Failed(ZeroStep)
      && Step(s, error).0.derivativeTerm == s.derivativeTerm
      && Step(s, error).0.prevError == s.prevError
    ensures s.step != 0.0 ==>
      Step(s, error).0.derivativeTerm == DerivativeTerm(s.D, error, s.prevError, s.step)
      && Step(s, error).0.prevError == error
  {
  }

  /** Lines 75-89 for a call that got past line 71: with `max_diff` set, an
      output clamp that answers `None` makes line 82 raise; otherwise the call
      returns `prev_output`, whatever the terms and limits. */
  lemma CallOutputStage(s: State, error: real)
    requires s.integral.Some? && !Within(Accumulated(s, error), s.windupLimits)
    requires s.step != 0.0
    ensures var (t, o) := Step(s, error);
      && (o == Failed(SlewOfNone) <==> s.maxDiff.Some? && Within(TermSum(t), s.outputLimits))
      && (o != Failed(SlewOfNone) ==> o == Returned(s.prevOutput))
  {
  }

  /** After `clear`, a call that reaches line 71 differentiates against a previous error of `0`. */
  lemma CallAfterClear(s: State, error: real)
    requires !Within(Increment(error, s.step), s.windupLimits) && s.step != 0.0
    ensures Step(Cleared(s), error).0.derivativeTerm == DerivativeTerm(s.D, error, 0.0, s.step)
  {
    assert Accumulated(Cleared(s), error) == Increment(error, s.step);
  }

  /** A concrete call that returns: the output clamp limits the sum to `10`,
      yet the call returns the stale `prev_output`, `0`. */
  lemma StaleOutputReturned(s: State)
    requires s == Initial(1.0, 0.0, 0.0, 1.0, Bounds(Some(-10.0), Some(10.0)), None, Bounds(None, Some(0.0)))
    ensures Clamp(TermSum(Step(s, 20.0).0), s.outputLimits) == Some(10.0)
    ensures Step(s, 20.0).1 == Returned(0.0)
  {
    CallPastIntegral(s, 20.0);
    CallOutputStage(s, 20.0);
  }

  // ---------------------------------------------------------------------
  // Sequences of operations

  /** No operation writes `prev_output`, and every call that returns, returns it. */
  lemma {:induction false} OutputsNeverChange(s: State, ops: seq<Op>)
    ensures Run(s, ops).0.prevOutput == s.prevOutput
    ensures forall o <- Run(s, ops).1 :: o.Returned? ==> o.output == s.prevOutput
    decreases |ops|
  {
    if ops != [] {
      var (s1, first) := Apply(s, ops[0]);
      OutputsNeverChange(s1, ops[1..]);
    }
  }

  /** A freshly constructed controller returns `0` from every call that returns. */
  lemma FreshControllerReturnsZero(P: real, I: real, D: real, step: real,
                                   outputLimits: Bounds, maxDiff: Option<real>, windupLimits: Bounds,
                                   ops: seq<Op>)
    ensures forall o <- Run(Initial(P, I, D, step, outputLimits, maxDiff, windupLimits), ops).1 ::
      o.Returned? ==> o.output == 0.0
  {
    OutputsNeverChange(Initial(P, I, D, step, outputLimits, maxDiff, windupLimits), ops);
  }

  /** Once `integral` is `None`, every call raises at line 66 and `integral`
      stays `None` as long as `clear` is not applied. */
  lemma {:induction false} NoneIntegralFailsUntilClear(s: State, ops: seq<Op>)
    requires s.integral.None?
    requires forall op <- ops :: !op.OpClear?
    ensures Run(s, ops).0.integral.None?
    ensures forall o <- Run(s, ops).1 :: o == Failed(IntegralIsNone)
    decreases |ops|
  {
    if ops != [] {
      assert ops[0] in ops;
      var (s1, first) := Apply(s, ops[0]);
      NoneIntegralFailsUntilClear(s1, ops[1..]);
    }
  }

  /** With unbounded windup limits (the default) no call ever returns: each
      raises at line 68 (the integral became `None`) or at line 66 (it was `None`). */
  lemma {:induction false} UnboundedWindupNeverReturns(s: State, ops: seq<Op>)
    requires s.windupLimits == Unbounded
    ensures forall o <- Run(s, ops).1 :: o == Failed(IntegralTermOfNone) || o == Failed(IntegralIsNone)
    decreases |ops|
  {
    if ops != [] {
      var (s1, first) := Apply(s, ops[0]);
      UnboundedWindupNeverReturns(s1, ops[1..]);
    }
  }

  // ---------------------------------------------------------------------
  // The object

  /** A `PID` object: the fields `pid.py` keeps, updated in place. */
  class PID {
    var P: real
    var I: real
    var D: real
    var step: real
    var outputLimits: Bounds
    var maxDiff: Option<real>
    var windupLimits: Bounds
    var integral: Option<real>
    var prevError: real
    var proportionalTerm: real
    var derivativeTerm: real
    var integralTerm: real
    var prevOutput: real

    /** The current values of all fields. */
    function Model(): State
      reads this
    {
      State(P, I, D, step, outputLimits, maxDiff, windupLimits,
            integral, prevError, proportionalTerm, derivativeTerm, integralTerm, prevOutput)
    }

    constructor (P: real, I: real, D: real, step: real,
                 outputLimits: Bounds := Unbounded, maxDiff: Option<real> := None,
                 windupLimits: Bounds := Unbounded)
      ensures Model() == Initial(P, I, D, step, outputLimits, maxDiff, windupLimits)
      ensures integral == Some(0.0) && prevError == 0.0 && prevOutput == 0.0
    {
      this.P := P;
      this.D := D;
      this.I := I;
      this.step := step;
      this.outputLimits := outputLimits;
      this.maxDiff := maxDiff;
      this.windupLimits := windupLimits;
      integral := Some(0.0);
      prevError := 0.0;
      proportionalTerm := 0.0;
      derivativeTerm := 0.0;
      integralTerm := 0.0;
      prevOutput := 0.0;
    }

    method Clear()
      modifies this
      ensures integral == Some(0.0) && prevError == 0.0
      ensures Model() == Cleared(old(Model()))
    {
      integral := Some(0.0);
      prevError := 0.0;
    }

    method SetP(P: real)
      modifies this
      ensures Model() == old(Model()).(P := P)
    {
      this.P := P;
    }

    method SetD(D: real)
      modifies this
      ensures Model() == old(Model()).(D := D)
    {
      this.D := D;
    }

    method SetI(I: real)
      modifies this
      ensures Model() == old(Model()).(I := I)
    {
      this.I := I;
    }

    /** The three terms as last written; changes nothing. */
    method GetCurrentTerms() returns (p: real, i: real, d: real)
      ensures p == proportionalTerm && i == integralTerm && d == derivativeTerm
    {
      return proportionalTerm, integralTerm, derivativeTerm;
    }

    /** `pid(error)`: the fields written before a raise stay written. */
    method Call(error: real) returns (r: Outcome)
      modifies this
      ensures Model() == Step(old(Model()), error).0
      ensures r == Step(old(Model()), error).1
      ensures r.Returned? ==> r.output == prevOutput == old(prevOutput)
    {
      ghost var s := Model();
      proportionalTerm := P * error;
      assert Model() == s.(proportionalTerm := s.P * error);

      if integral.None? {
        return Failed(IntegralIsNone);
      }
      integral := Clamp(integral.value + Increment(error, step), windupLimits);
      if integral.None? {
        return Failed(IntegralTermOfNone);
      }
      integralTerm := I * integral.value;

      if step == 0.0 {
        return Failed(ZeroStep);
      }
      derivativeTerm := DerivativeTerm(D, error, prevError, step);
      prevError := error;
      ghost var s4 := Model();
      assert Step(s, error).0 == s4;

      var output := Clamp(proportionalTerm + integralTerm + derivativeTerm, outputLimits);
      assert output == Clamp(TermSum(s4), s4.outputLimits);

      if maxDiff.Some? {
        if output.None? {
          return Failed(SlewOfNone);
        }
        output := Some(Slew(output.value, prevOutput, maxDiff.value));
      }

      output := Some(prevOutput);
      return Returned(output.value);
    }
  }
}
