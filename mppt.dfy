/**
 * The Perturb-and-Observe maximum power point tracker of mppt/src/MPPT.h.
 *
 * The tracker owns a duty cycle, a signed perturbation step and the power it
 * measured last. Each tracking call samples current and voltage, decides the
 * direction of the next step, applies it, clamps the duty cycle to [0, 1],
 * writes it to the PWM and duty outputs and stores the measured power.
 * The two sensors are parameters of each operation; the two outputs are
 * modelled by the value last written to them.
 */
module Mppt {

  /** Magnitude of every perturbation step (PERTURB_CONST). */
  const PerturbConst: real := 0.01

  function Abs(x: real): real {
    if x < 0.0 then -x else x
  }

  /** The state the tracker keeps between calls, with the value last written
      to its outputs (the duty output and the PWM output always get the same
      value). */
  datatype TrackerState = TrackerState(
    dutyCycle: real,
    perturbation: real,
    previousPower: real,
    output: real)

  /** The step magnitude the constructor establishes and every operation keeps. */
  predicate StepInvariant(t: TrackerState) {
    Abs(t.perturbation) == PerturbConst
  }

  /** One call of PerturbObserve with readings i and v; target 0 means
      "no target": plain maximum power point tracking. */
  function AfterPerturbObserve(t: TrackerState, i: real, v: real, target: real): (r: TrackerState)
    // without a target: reverse the direction exactly when power dropped
    ensures target == 0.0 && i * v < t.previousPower ==> r.perturbation == -t.perturbation
    ensures target == 0.0 && i * v >= t.previousPower ==> r.perturbation == t.perturbation
    // with a target: a nominal step whose sign moves power toward the target
    ensures target != 0.0 ==> Abs(r.perturbation) == PerturbConst
    ensures target != 0.0 ==> (r.perturbation < 0.0 <==> i * v > target)
    // the step is applied and the duty cycle is constrained to [0, 1]
    ensures 0.0 <= r.dutyCycle <= 1.0
    ensures 0.0 <= t.dutyCycle + r.perturbation <= 1.0 ==> r.dutyCycle == t.dutyCycle + r.perturbation
    ensures t.dutyCycle + r.perturbation < 0.0 ==> r.dutyCycle == 0.0
    ensures t.dutyCycle + r.perturbation > 1.0 ==> r.dutyCycle == 1.0
    ensures r.output == r.dutyCycle
    ensures r.previousPower == i * v
    ensures StepInvariant(t) ==> StepInvariant(r)
  {
    var p := i * v;
    var step :=
      if target == 0.0 then
        (if p < t.previousPower then -t.perturbation else t.perturbation)
      else if p > target then -Abs(PerturbConst)
      else Abs(PerturbConst);
    var duty := t.dutyCycle + step;
    var clamped := if duty < 0.0 then 0.0 else if duty > 1.0 then 1.0 else duty;
    TrackerState(clamped, step, p, clamped)
  }

  /** One call of pause: the search position is kept, the outputs are zeroed. */
  function AfterPause(t: TrackerState, i: real, v: real): (r: TrackerState)
    ensures r.dutyCycle == t.dutyCycle && r.perturbation == t.perturbation
    ensures r.output == 0.0
    ensures r.previousPower == i * v
    ensures StepInvariant(t) ==> StepInvariant(r)
  {
    t.(output := 0.0, previousPower := i * v)
  }

  /** One call of reset: the search restarts from duty cycle 0. */
  function AfterReset(t: TrackerState, i: real, v: real): (r: TrackerState)
    ensures r.dutyCycle == 0.0 && r.output == 0.0
    ensures r.perturbation == t.perturbation
    ensures r.previousPower == i * v
    ensures StepInvariant(t) ==> StepInvariant(r)
  {
    TrackerState(0.0, t.perturbation, i * v, 0.0)
  }

  /** With the same readings, resetting twice is resetting once. */
  lemma ResetIdempotent(t: TrackerState, i: real, v: real)
    ensures AfterReset(AfterReset(t, i, v), i, v) == AfterReset(t, i, v)
  {
  }

  /** Pausing and then tracking without a target continues the search from
      the duty cycle held before the pause. */
  lemma PauseResumesFromSamePoint(t: TrackerState, i0: real, v0: real, i: real, v: real)
    requires 0.0 <= t.dutyCycle <= 1.0
    requires StepInvariant(t)
    ensures var r := AfterPerturbObserve(AfterPause(t, i0, v0), i, v, 0.0);
      Abs(r.dutyCycle - t.dutyCycle) <= PerturbConst
  {
  }

  /** The tracker object. DutyCycle and PreviousPower are never initialised by
      the source's constructor, so their initial values are parameters, as is
      the power-on value of the two outputs. */
  class Tracker {
    var dutyCycle: real
    var perturbation: real
    var previousPower: real
    var dutyOutput: real   // last value written to the duty output
    var pwmOutput: real    // last value written to the PWM output

    ghost predicate Valid()
      reads this
    {
      Abs(perturbation) == PerturbConst && dutyOutput == pwmOutput
    }

    ghost function State(): TrackerState
      reads this
    {
      TrackerState(dutyCycle, perturbation, previousPower, dutyOutput)
    }

    constructor (initialDuty: real, initialPower: real, initialOutput: real)
      ensures Valid()
      ensures perturbation == PerturbConst
      ensures dutyCycle == initialDuty && previousPower == initialPower
      ensures dutyOutput == initialOutput && pwmOutput == initialOutput
    {
      dutyCycle := initialDuty;
      previousPower := initialPower;
      dutyOutput := initialOutput;
      pwmOutput := initialOutput;
      perturbation := PerturbConst;
    }

    /** The power measured by the last operation. */
    method ReadP() returns (p: real)
      ensures p == previousPower
    {
      p := previousPower;
    }

    method PerturbObserve(i: real, v: real, target: real := 0.0)
      requires Valid()
      modifies this
      ensures Valid()
      ensures State() == AfterPerturbObserve(old(State()), i, v, target)
      ensures 0.0 <= dutyCycle <= 1.0
      ensures dutyOutput == dutyCycle && pwmOutput == dutyCycle
      ensures previousPower == i * v
    {
      var p := i * v;
      if target == 0.0 {
        if p < previousPower {
          perturbation := -perturbation;
        }
      } else {
        perturbation := PerturbConst;
        if p > target {
          perturbation := -Abs(perturbation);
        } else {
          perturbation := Abs(perturbation);
        }
      }
      dutyCycle := dutyCycle + perturbation;
      if dutyCycle < 0.0 {
        dutyCycle := 0.0;
      } else if dutyCycle > 1.0 {
        dutyCycle := 1.0;
      }
      dutyOutput := dutyCycle;
      pwmOutput := dutyCycle;
      previousPower := p;
    }

    method Pause(i: real, v: real)
      requires Valid()
      modifies this
      ensures Valid()
      ensures State() == AfterPause(old(State()), i, v)
      ensures dutyCycle == old(dutyCycle) && perturbation == old(perturbation)
      ensures dutyOutput == 0.0 && pwmOutput == 0.0
      ensures previousPower == i * v
    {
      dutyOutput := 0.0;
      pwmOutput := 0.0;
      var p := i * v;
      previousPower := p;
    }

    method Reset(i: real, v: real)
      requires Valid()
      modifies this
      ensures Valid()
      ensures State() == AfterReset(old(State()), i, v)
      ensures dutyCycle == 0.0 && perturbation == old(perturbation)
      ensures dutyOutput == 0.0 && pwmOutput == 0.0
      ensures previousPower == i * v
    {
      dutyCycle := 0.0;
      dutyOutput := dutyCycle;
      pwmOutput := dutyCycle;
      var p := i * v;
      previousPower := p;
    }
  }
}
