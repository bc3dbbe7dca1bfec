/**
 * The control cycle of mppt/src/main.cpp (the body of its endless loop):
 * feed the tracker's last power to the charge controller, run the
 * controller, and call the tracker operation its control code selects.
 *
 * The pure side describes one cycle (CycleStep) and any finite run of cycles
 * (Simulate); the lemmas state what holds over every such run.
 */
module Router {
  import Mppt
  import Charge

  /** Everything the loop touches: the tracker, the controller and the
      loop's own variables Control and Target. */
  datatype Plant = Plant(
    tracker: Mppt.TrackerState,
    controller: Charge.ControllerState,
    control: int,
    target: real)

  /** The tracker readings (current, voltage) of one cycle. */
  datatype Reading = Reading(current: real, voltage: real)

  /** The power a reading gives, I*V. */
  function Power(rd: Reading): real {
    rd.current * rd.voltage
  }

  /** The tracker operation selected by a control code. Code 0 tracks without
      a target, 1 pauses, 2 tracks the load power; any other code leaves the
      tracker alone, and reset is never selected. */
  function Dispatch(control: int, t: Mppt.TrackerState, i: real, v: real, pload: real): (r: Mppt.TrackerState)
    ensures control == 0 ==> r == Mppt.AfterPerturbObserve(t, i, v, 0.0)
    ensures control == 1 ==> r == Mppt.AfterPause(t, i, v)
    ensures control == 2 ==> r == Mppt.AfterPerturbObserve(t, i, v, pload)
    ensures control != 0 && control != 1 && control != 2 ==> r == t
    ensures control == 1 ==> r.dutyCycle == t.dutyCycle
    ensures control == 0 || control == 2 ==> 0.0 <= r.dutyCycle <= 1.0
  {
    if control == 0 then Mppt.AfterPerturbObserve(t, i, v, 0.0)
    else if control == 1 then Mppt.AfterPause(t, i, v)
    else if control == 2 then Mppt.AfterPerturbObserve(t, i, v, pload)
    else t
  }

  /** One pass through the loop body with tracker readings i and v. */
  function CycleStep(s: Plant, i: real, v: real): (r: Plant)
    // the controller sees the power the tracker stored in the previous cycle
    ensures r.controller.ppv == s.tracker.previousPower
    ensures r.controller == Charge.AfterRun(s.controller.(ppv := s.tracker.previousPower))
    ensures r.control == r.controller.control
    ensures r.control == 0 || r.control == 1 || r.control == 2
    ensures r.control == 0 ==> r.tracker == Mppt.AfterPerturbObserve(s.tracker, i, v, 0.0)
    ensures r.control == 1 ==> r.tracker == Mppt.AfterPause(s.tracker, i, v)
    // the target is the load power computed by the same cycle's run
    ensures r.control == 2 ==> r.target == r.controller.pload == s.controller.iload * s.controller.vbat
    ensures r.control == 2 ==> r.tracker == Mppt.AfterPerturbObserve(s.tracker, i, v, r.target)
    ensures r.control != 2 ==> r.target == s.target
    ensures r.control == 1 ==> r.tracker.dutyCycle == s.tracker.dutyCycle
    ensures r.control != 1 ==> 0.0 <= r.tracker.dutyCycle <= 1.0
    // whatever the code, the tracker stores this cycle's power
    ensures r.tracker.previousPower == i * v
  {
    var c := Charge.AfterRun(s.controller.(ppv := s.tracker.previousPower));
    var target := if c.control == 2 then c.pload else s.target;
    Plant(Dispatch(c.control, s.tracker, i, v, c.pload), c, c.control, target)
  }

  /** The plant after one cycle per reading, in order. */
  function Simulate(s: Plant, readings: seq<Reading>): Plant
    decreases |readings|
  {
    if readings == [] then s
    else Simulate(CycleStep(s, readings[0].current, readings[0].voltage), readings[1..])
  }

  /** When the load draws current, a cycle with code 2 really tracks a target:
      the load power is positive, so it is never taken for "no target", and
      the new step points from the measured power toward it. */
  lemma TrackLoadHasGenuineTarget(s: Plant, i: real, v: real)
    requires s.controller.iload > 0.0
    ensures var r := CycleStep(s, i, v);
      r.control == 2 ==>
        && r.target > 0.0
        && Mppt.Abs(r.tracker.perturbation) == Mppt.PerturbConst
        && (r.tracker.perturbation < 0.0 <==> i * v > r.target)
  {
  }

  /** The step magnitude PerturbConst survives any run of cycles. */
  lemma {:induction false} SimulateKeepsStepMagnitude(s: Plant, readings: seq<Reading>)
    requires Mppt.StepInvariant(s.tracker)
    ensures Mppt.StepInvariant(Simulate(s, readings).tracker)
    decreases |readings|
  {
    if readings != [] {
      var next := CycleStep(s, readings[0].current, readings[0].voltage);
      SimulateKeepsStepMagnitude(next, readings[1..]);
    }
  }

  /** A duty cycle in [0, 1] stays in [0, 1] over any run of cycles. */
  lemma {:induction false} SimulateKeepsDutyInRange(s: Plant, readings: seq<Reading>)
    requires 0.0 <= s.tracker.dutyCycle <= 1.0
    ensures 0.0 <= Simulate(s, readings).tracker.dutyCycle <= 1.0
    decreases |readings|
  {
    if readings != [] {
      var next := CycleStep(s, readings[0].current, readings[0].voltage);
      SimulateKeepsDutyInRange(next, readings[1..]);
    }
  }

  /** From any initial duty cycle (even one outside [0, 1]), after any run the
      duty cycle is in [0, 1] or is still the initial one: only pausing
      cycles leave it untouched, and the first tracking cycle brings it into
      range for good. */
  lemma {:induction false} SimulateDutyInRangeOrUntouched(s: Plant, readings: seq<Reading>)
    ensures var d := Simulate(s, readings).tracker.dutyCycle;
      (0.0 <= d <= 1.0) || d == s.tracker.dutyCycle
    decreases |readings|
  {
    if readings != [] {
      var next := CycleStep(s, readings[0].current, readings[0].voltage);
      if next.tracker.dutyCycle == s.tracker.dutyCycle {
        SimulateDutyInRangeOrUntouched(next, readings[1..]);
      } else {
        SimulateKeepsDutyInRange(next, readings[1..]);
      }
    }
  }

  /** The load current the constructor set is never changed by any run. */
  lemma {:induction false} SimulateKeepsLoadCurrent(s: Plant, readings: seq<Reading>)
    ensures Simulate(s, readings).controller.iload == s.controller.iload
    decreases |readings|
  {
    if readings != [] {
      var next := CycleStep(s, readings[0].current, readings[0].voltage);
      SimulateKeepsLoadCurrent(next, readings[1..]);
    }
  }

  /** After a nonempty run the tracker's stored power is that of the last
      cycle's readings, which is what the next cycle feeds to the controller. */
  lemma {:induction false} SimulateStoresLastPower(s: Plant, readings: seq<Reading>)
    requires readings != []
    ensures Simulate(s, readings).tracker.previousPower == Power(readings[|readings| - 1])
    decreases |readings|
  {
    var next := CycleStep(s, readings[0].current, readings[0].voltage);
    var rest := readings[1..];
    if rest == [] {
      assert next.tracker.previousPower == Power(readings[0]);
    } else {
      SimulateStoresLastPower(next, rest);
      assert rest[|rest| - 1] == readings[|readings| - 1];
    }
  }

  /** The main loop's objects and variables. The globals Control and Target
      have static storage, so they start at zero. */
  class PowerRouter {
    const tracker: Mppt.Tracker
    const controller: Charge.ChargeController
    var control: int
    var target: real

    ghost function State(): Plant
      reads this, tracker, controller
    {
      Plant(tracker.State(), controller.State(), control, target)
    }

    constructor (tracker: Mppt.Tracker, controller: Charge.ChargeController)
      ensures this.tracker == tracker && this.controller == controller
      ensures control == 0 && target == 0.0
    {
      this.tracker := tracker;
      this.controller := controller;
      control := 0;
      target := 0.0;
    }

    /** One iteration of the main loop; i and v are what the tracker's
        sensors read during this iteration. */
    method Cycle(i: real, v: real)
      requires tracker.Valid()
      modifies this, tracker, controller
      ensures tracker.Valid()
      ensures State() == CycleStep(old(State()), i, v)
      ensures controller.ppv == old(tracker.previousPower)
      ensures control == controller.control
      ensures control == 1 ==> tracker.dutyCycle == old(tracker.dutyCycle)
      ensures control == 0 || control == 2 ==> 0.0 <= tracker.dutyCycle <= 1.0
      ensures control == 2 ==> target == controller.pload
    {
      var p := tracker.ReadP();
      controller.ppv := p;
      controller.Run();
      control := controller.ReadControl();
      if control == 0 {
        tracker.PerturbObserve(i, v);
      } else if control == 1 {
        tracker.Pause(i, v);
      } else if control == 2 {
        target := controller.ReadPload();
        tracker.PerturbObserve(i, v, target);
      }
    }
  }
}
