# PID controller model

This project models `pid.py`, a discrete-time PID controller. It models the
limiter `clamp(value, limits)` and the class `PID`. The class holds its gains
`P`, `I` and `D`, a sampling interval `step`, and optional `output_limits`,
`windup_limits` and `max_diff`. It also holds the memory `integral`,
`prev_error` and `prev_output`, and three diagnostic term fields. One call
`pid(error)` does these things in order:

- computes a proportional term;
- accumulates the integral and clamps it to the windup limits (anti-windup);
- takes a backward-difference derivative;
- clamps the sum of the terms to the output limits;
- limits how far the output may move from the previous output (slew limiting).

The model is literal. Real numbers stand in for Python floats.

- `Limiting` (`limiting.dfy`) defines the bound pairs, `Clamp` as written and
  the slew rule `Slew`.
- `Controller` (`controller.dfy`) defines the following:
  - `State`, a snapshot of every field of a controller.
  - `Step`, one call on a snapshot, which either returns a value or raises a
    `Fault` at a named line.
  - `Run`, a sequence of calls, clears and gain changes.
  - The class `PID`, whose methods update its fields in place. Each method is
    proved to have exactly the effect of `Step`, `Cleared` or a field update
    on the snapshot.
- `Intended` (`intended.dfy`) puts the evidently intended behaviour beside the
  literal definitions, without replacing them:
  - `Limit`, a `clamp` that passes an in-range value through;
  - `IntendedStep`, a call that returns and remembers its limited output.

The code differs from a plain reading of its purpose in two places, and the
model follows the code in both:

- `clamp` ends in a bare `return`. It therefore answers `None` for every value
  that violates no bound, so `Clamp` returns `Option<real>`. With the default
  unbounded windup limits, every call then raises.
- The call overwrites its computed output with `prev_output`, and nothing ever
  assigns `prev_output` after construction. Every call that returns therefore
  returns `0`.

The code raises in three more ways than a zero `step`:

- `None + error * step` at line 66;
- `I * None` at line 68;
- `None - prev_output` at line 82, reached when `max_diff` is set.

`Fault` names all four, and the model raises each one where the code does.

## Model

| member | source | states |
|---|---|---|
| Limiting.Clamp | pid.py:1-7 | the upper bound is tested first and answers when exceeded; otherwise the lower bound answers when undercut; there is an answer exactly when some bound is violated; it is never `value` itself; on an ordered pair the answer lies within the bounds |
| Limiting.ClampUnboundedIsNone | pid.py:7 | with both bounds absent every value gets `None` |
| Limiting.ClampInvertedUpperWins | pid.py:3-6 | on an inverted pair, a value above the upper bound and below the lower one gets the upper bound |
| Limiting.Slew | pid.py:81-85 | with `max_diff >= 0` the result lies in `[prev_output - max_diff, prev_output + max_diff]`; a value inside the band is unchanged; one above (below) the band goes to its upper (lower) edge |
| Controller.Step | pid.py:61-89 | a call never changes the configuration or `prev_output`, and a call that returns, returns `prev_output` |
| Controller.CallOnNoneIntegral | pid.py:63-66 | with `integral` `None` the call raises at line 66 after writing only the proportional term |
| Controller.PassThroughIntegralFails | pid.py:66-68 | an accumulated integral inside the windup limits becomes `None` and line 68 raises; only `proportional_term` and `integral` change; every later call raises at line 66 until `clear` |
| Controller.CallPastIntegral | pid.py:63-72 | past line 68 the proportional term is `P * error`, the integral is the violated windup bound and the integral term is `I` times it; a zero step raises at line 71 and leaves the derivative term and `prev_error` alone; otherwise the derivative term is taken against the old `prev_error`, which becomes `error` |
| Controller.CallOutputStage | pid.py:74-89 | past line 71 the call raises at line 82 exactly when `max_diff` is set and the output clamp answers `None`; otherwise it returns `prev_output` |
| Controller.CallAfterClear | pid.py:71 | after `clear` the derivative term is taken against a previous error of `0` |
| Controller.StaleOutputReturned | pid.py:75-89 | the concrete call of the findings: the output clamp yields `10` and the call returns `0` |
| Controller.OutputsNeverChange | pid.py:87-89 | no sequence of calls, clears and gain changes writes `prev_output`, and every call that returns, returns it |
| Controller.FreshControllerReturnsZero | pid.py:35-43 | from a freshly constructed controller every call that returns yields `0` |
| Controller.NoneIntegralFailsUntilClear | pid.py:66 | once `integral` is `None`, it stays `None` and every call raises at line 66 while no `clear` is applied |
| Controller.UnboundedWindupNeverReturns | pid.py:66-68 | with unbounded windup limits no call ever returns: each raises at line 68 or line 66 |
| Controller.PID.constructor | pid.py:13-43 | the fields hold the configuration, `integral`, `prev_error` and `prev_output` are `0`, and so are the terms |
| Controller.PID.Clear | pid.py:45-47 | `integral` and `prev_error` become `0`; nothing else changes |
| Controller.PID.SetP | pid.py:49-50 | only `P` changes |
| Controller.PID.SetD | pid.py:52-53 | only `D` changes |
| Controller.PID.SetI | pid.py:55-56 | only `I` changes |
| Controller.PID.GetCurrentTerms | pid.py:58-59 | returns the proportional, integral and derivative terms, and changes nothing |
| Controller.PID.Call | pid.py:61-89 | the fields after the call and its outcome are those of `Step`, including the fields written before a raise; a returned value is the unchanged `prev_output` |
| Intended.Limit | pid.py:1-7 | an in-range value passes through; the upper bound wins when exceeded; otherwise a value below the lower bound gets the lower bound; the result is the value or a bound, and lies within an ordered pair |
| Intended.LimitAgreesWithClamp | pid.py:1-7 | wherever `clamp` answers, `Limit` gives the same bound; `clamp` answers `None` exactly where `Limit` passes the value through |
| Intended.ClampDropsInRangeValue | pid.py:7 | `clamp(0.5, (0, 1))` is `None` while `Limit` gives `0.5` |
| Intended.SlewIsLimitToBand | pid.py:81-85 | for `max_diff >= 0` the slew rule is `Limit` to the band around `prev_output` |
| Intended.LimitUnbounded | pid.py:1-7 | with both bounds absent `Limit` is the identity |
| Intended.IntendedStep | pid.py:61-89 | the corrected call keeps the configuration; sets the proportional term to `P * error`, the integral to the accumulated value limited to the windup limits, the integral term to `I` times that integral, and the derivative term against the old previous error; remembers `error`; keeps the output within `max_diff` of the previous one and returns the limited output unchanged when it is inside that band; without `max_diff` returns the output limited to the output limits |
| Intended.IntendedSlew | pid.py:81-85 | in a corrected call, a limited output more than `max_diff` above (below) the previous one is returned as `prev_output + max_diff` (`- max_diff`); inside the band it is returned unchanged |
| Intended.Repeat | pid.py:61-89 | `n` corrected calls keep the configuration and a numeric integral |
| Intended.ProportionalOnly | pid.py:63 | with `I = D = 0` and no `max_diff` a corrected call returns `P * error` limited to the output limits |
| Intended.UnboundedIntegralAdds | pid.py:66-67 | without windup limits one corrected call adds `error * step` to the integral |
| Intended.IntegralTrace | pid.py:66-67 | after at least one step the traced integral lies within ordered windup limits |
| Intended.RepeatIntegral | pid.py:66-67 | the integral after `n` corrected calls is the trace that adds `error * step` and limits, `n` times |
| Intended.TraceLinear | pid.py:66 | without windup limits the trace grows linearly: `n` steps add `n * delta` |
| Intended.TraceFollowsUnlimited | pid.py:66-67 | while the unlimited integral stays inside the windup limits, the limited integral equals it, so (with `TraceLinear`) it grows by `error * step` per call until it reaches a bound |
| Intended.IntegralStaysPinned | pid.py:66-67 | an integral at the upper windup bound stays there while `error * step` is not negative |
| Intended.WindupRelease | pid.py:66-67 | from the upper windup bound a negative error with a positive step lowers the integral on the very next call |
| Intended.DerivativeOfConsecutiveCalls | pid.py:71-72 | the second of two corrected calls takes its derivative against the error of the first |
| Intended.ClampedScenario | pid.py:75-89 | `P = 1`, `I = D = 0`, `step = 1`, output limits `(-10, 10)`: corrected calls with errors `3` and `20` return `3` and then `10` |

## Left out

- Floating point is modelled as real arithmetic. The model has no rounding, NaN or infinities, and does not distinguish Python `int` from `float`.
- Python's exception types (`TypeError`, `ZeroDivisionError`) are not modelled. They become one `Fault` per raising line, and a raise is an outcome rather than a propagating exception.
- Python would accept a `limits` value that is not a pair, a non-numeric gain, and similar dynamically typed inputs. The model admits only numbers and optional numeric bounds.
- The caller's periodic scheduling and any display of the term fields are not part of this code.
- Concurrency is not modelled. The object is used sequentially.
- Intended.IntendedStep: requires a numeric integral and a non-zero `step`. The corrected call is only defined where the literal one gets past its arithmetic; a zero step still raises at line 71.
- Intended.RepeatIntegral: with Intended.TraceLinear it gives the linear growth `n * error * step` of the integral over `n` corrected calls. The two halves are stated as separate lemmas, not as one lemma about `Repeat`.

## Findings

| source | as written | input that shows it | evidently intended | confidence | as-written member | corrected member |
|---|---|---|---|---|---|---|
| pid.py:7 | a bare `return` answers `None` for a value that violates no bound, and line 67 stores it in `integral` | `clamp(0.5, (0, 1))` gives `None`; with the default windup limits every call then raises at line 68 | return `value` unchanged | not executed | Intended.ClampDropsInRangeValue | Intended.Limit |
| pid.py:87 | `output = self.prev_output` discards the computed output, and `prev_output` is never assigned | `P = 1`, `I = D = 0`, `step = 1`, output limits `(-10, 10)`, windup limits `(None, 0)`, `error = 20`: the output clamp gives `10`, the call returns `0` | store the limited output as `prev_output` and return it | not executed | Controller.StaleOutputReturned | Intended.IntendedStep |
