# Solar/battery/load power router: tracker, charge controller and control cycle

This project models the decision core of a power router that connects a
solar (PV) array, a battery and a load. It has three parts:

- **The Perturb-and-Observe tracker** (`Mppt`, modelling `MPPT` in `mppt/src/MPPT.h`).
  Each call samples current and voltage and computes `P = I*V`.
  Without a target, it reverses the step direction when power dropped.
  With a target, it takes a nominal step of `PERTURB_CONST` toward the target.
  It then applies the step to the duty cycle, clamps the duty cycle to [0, 1], writes it to the outputs and stores `P`.
  `pause` zeroes the outputs but keeps the duty cycle.
  `reset` restarts the search from duty cycle 0.
- **The charge controller** (`Charge`, modelling `ChargeController` in `mppt/src/ChargeController.h`).
  It derives the state of charge (`Vbat/12*100`) and the load power (`Iload*Vbat`).
  A fixed-priority rule chain then picks a control code: 0 = track the maximum power point, 1 = pause, 2 = track the load power.
  The same chain sets the PV and battery switches.
  Finally the controller integrates a simulated battery voltage.
- **The control cycle** (`Router`, modelling the body of the main loop in `mppt/src/main.cpp`).
  It feeds the tracker's stored power to the controller and runs the controller.
  Then it calls the tracker operation that the control code selects.

Each source class is a Dafny `class` whose methods update its fields in place.
Each class method is proved against a pure function of the old state: `AfterPerturbObserve`, `AfterPause`, `AfterReset`, `AfterRun` or `CycleStep`.
The properties are proved about those functions.
`Simulate` runs any finite sequence of cycles, and lemmas state what holds over every such run.

Modelling choices:

- All arithmetic is over `real`.
- Sensor reads are parameters of the operations.
- Switch writes and output writes are fields that hold the last value written.
- The source's constructors leave some fields uninitialised: `DutyCycle`, `PreviousPower`, `Control`, `Pload` and `Ppv`. They are constructor parameters in the model, so every proved property holds for any initial value.
- The power-on values of the switches and outputs are also constructor parameters.
- `Control` and `Target` in `main.cpp` are globals with static storage, so they start at zero.
- The program's one tracker `MPPT1` and one controller `CC` are also globals with static storage. So when the program runs, `DutyCycle`, `PreviousPower`, `Control`, `Pload` and `Ppv` all start at 0. The I/O library also powers both switches up open. This start state is one instance of the constructor parameters.

## Model

| member | source | states |
|---|---|---|
| `Mppt.AfterPerturbObserve` | mppt/src/MPPT.h:58-96 | Target 0: the step is negated iff `P < PreviousPower`, otherwise unchanged. Nonzero target: the step has magnitude `PERTURB_CONST`, and it is negative iff `P > Target`. The new duty cycle is in [0,1]. It equals old duty + step when that sum is in [0,1], otherwise 0 or 1. The outputs get the duty cycle. The stored power is `I*V`. The step magnitude invariant is kept. |
| `Mppt.AfterPause` | mppt/src/MPPT.h:98-109 | Duty cycle and step are unchanged. The outputs are 0. The stored power is `I*V`. The step magnitude invariant is kept. |
| `Mppt.AfterReset` | mppt/src/MPPT.h:111-120 | Duty cycle and outputs are 0. The step is unchanged. The stored power is `I*V`. The step magnitude invariant is kept. |
| `Mppt.ResetIdempotent` | mppt/src/MPPT.h:111-120 | With the same readings, two resets give the same state as one. |
| `Mppt.PauseResumesFromSamePoint` | mppt/src/MPPT.h:98-109 | Tracking after a pause moves the duty cycle by at most `PERTURB_CONST` from where it was before the pause. |
| `Mppt.Tracker.constructor` | mppt/src/MPPT.h:36-44 | The step starts at `+PERTURB_CONST`. Duty cycle, stored power and outputs start at arbitrary given values. |
| `Mppt.Tracker.ReadP` | mppt/src/MPPT.h:54-56 | Returns the power stored by the last operation. |
| `Mppt.Tracker.PerturbObserve` | mppt/src/MPPT.h:58-96 | The new state is `AfterPerturbObserve` of the old state. The duty cycle is in [0,1] and both outputs equal it. `readP` now returns `I*V`. The target defaults to 0. |
| `Mppt.Tracker.Pause` | mppt/src/MPPT.h:98-109 | The new state is `AfterPause` of the old state: duty cycle and step are kept, both outputs are 0, and `readP` returns `I*V`. |
| `Mppt.Tracker.Reset` | mppt/src/MPPT.h:111-120 | The new state is `AfterReset` of the old state: duty cycle and both outputs are 0, the step is kept, and `readP` returns `I*V`. |
| `Charge.FirstRunTracksMaxPower` | mppt/src/ChargeController.h:52-85 | For any controller state whose battery voltage is the constructor's 11.1 V, the state of charge is below `SoCMax` and `run` selects code 0. If the PV switch is open on entry, the recovery rule closes both switches. |
| `Charge.Decide` | mppt/src/ChargeController.h:74-110 | The chain is total: the code is 0, 1 or 2. Code 1 iff `SoC >= SoCDanger`, and then both switches are open. Code 2 iff `SoCMax <= SoC < SoCDanger` and `Ppv >= Pload`, and then both switches are closed. The PV switch is open iff the code is 1. With code 0, the battery switch is closed iff `Ppv >= Pload` or the controller is recovering (PV open on entry and `SoC < SoCMax`). Recovery closes both switches. |
| `Charge.NextVbat` | mppt/src/ChargeController.h:123-129 | Both branches give `Vbat + (Ppv-Pload)*0.1`, so the result does not depend on the switches. The voltage rises when `Ppv >= Pload` and falls when `Ppv <= Pload`. |
| `Charge.AfterRun` | mppt/src/ChargeController.h:63-131 | `Pload = Iload*Vbat` and `SoC` are computed from the battery voltage before this call's update. Code and switches are those of `Decide`, which reads the PV switch's state on entry. The chain's guarantees hold. `Vbat` follows `NextVbat`. `Iload` and `Ppv` are unchanged. |
| `Charge.ChargeController.constructor` | mppt/src/ChargeController.h:45-53 | `Iload` is 0.01 and `Vbat` is 11.1. Everything the source leaves uninitialised takes an arbitrary given value. |
| `Charge.ChargeController.ReadControl` | mppt/src/ChargeController.h:55-57 | Returns the control code. |
| `Charge.ChargeController.ReadPload` | mppt/src/ChargeController.h:59-61 | Returns the load power computed by the last run. |
| `Charge.ChargeController.Run` | mppt/src/ChargeController.h:63-131 | The new state is `AfterRun` of the old state. The code is 0, 1 or 2. Code 1 iff `SoC` of the old `Vbat` is at least `SoCDanger`. The PV switch is open iff the code is 1. `Iload` and `Ppv` are unchanged. |
| `Router.Dispatch` | mppt/src/main.cpp:48-64 | Code 0: `PerturbObserve` with target 0. Code 1: `pause`, so the duty cycle is unchanged. Code 2: `PerturbObserve(Pload)`. Any other code leaves the tracker untouched. After codes 0 and 2 the duty cycle is in [0,1]. |
| `Router.CycleStep` | mppt/src/main.cpp:45-64 | The controller's `Ppv` is the tracker's previously stored power. The code is the one the same cycle's run produced, and it is 0, 1 or 2. Code 2 passes as target the `Iload*Vbat` of this cycle. Code 1 keeps the duty cycle; any other code leaves it in [0,1]. Afterwards the tracker holds this cycle's `I*V`. |
| `Router.TrackLoadHasGenuineTarget` | mppt/src/main.cpp:59-61 | With a positive load current, code 2 always gives a positive target, so the target is never mistaken for "no target". The new step has magnitude `PERTURB_CONST` and is negative iff `P > Target`. |
| `Router.SimulateKeepsStepMagnitude` | mppt/src/main.cpp:42-64 | `abs(Perturbation) == PERTURB_CONST` holds after any finite run of cycles. |
| `Router.SimulateKeepsDutyInRange` | mppt/src/main.cpp:42-64 | A duty cycle in [0,1] stays in [0,1] over any run. |
| `Router.SimulateDutyInRangeOrUntouched` | mppt/src/main.cpp:42-64 | From any initial duty cycle, after any run the duty cycle is in [0,1] or is still the initial value. |
| `Router.SimulateKeepsLoadCurrent` | mppt/src/ChargeController.h:51 | `Iload` is set only by the constructor and no run changes it. |
| `Router.SimulateStoresLastPower` | mppt/src/main.cpp:45-47 | After a nonempty run, the tracker's stored power, which the next cycle feeds to the controller, is `I*V` of the last readings. |
| `Router.PowerRouter.constructor` | mppt/src/main.cpp:15-17 | `Control` and `Target` start at 0. |
| `Router.PowerRouter.Cycle` | mppt/src/main.cpp:45-64 | The new tracker, controller, code and target are those of `CycleStep`. `Ppv` is the old stored power. Code 1 keeps the duty cycle. Codes 0 and 2 leave it in [0,1]. Code 2 stores `Pload` as the target. |

## Left out

- Serial telemetry: every `printf` and the console clear are left out. They are output only and change no state.
- Hardware construction and timing are left out: pin allocation, creation of the sensor, PWM, analog-output and switch objects, the PWM period, the LED, `wait_ms(10)` and the endless loop itself. `Simulate` stands in for any finite prefix of the loop.
- Floating-point rounding and NaN are left out: all quantities are `real`. With `float`, a NaN `Ppv` (the tracker's `PreviousPower`) makes the four rules that compare `Ppv` with `Pload` false. The danger rule and the recovery rule do not read `Ppv`, so they still fire. So when `SoC < SoCDanger` and the recovery rule does not apply, no rule fires and `Control` and both switches keep their previous values. In the program as built this cannot start at power-up, because the tracker `MPPT1` has static storage and its `PreviousPower` starts at 0. The model's totality result therefore holds for real numbers only.
- `Mppt.AfterPerturbObserve` reads `abs(Perturbation)` as the real absolute value. The source calls plain `abs` on a `float`, and depending on which overloads the headers bring into scope this may resolve to the integer `abs`, which would turn 0.01 into 0. The model follows the evident intent: a step of magnitude `PERTURB_CONST`.
- The commented-out adaptive step size in `MPPT.h` is left out because it is not compiled.
- The unused globals `Ibat` and `Pbat` are left out.
- The scratch globals `I`, `V`, `P`, `SoC` and `Vload` are locals of the operations that write them. Nothing else reads them except telemetry.
- `readI` and `readV` are left out: they only read a sensor, and in the model the readings are parameters.
- Modes beyond 0 to 2 (overcurrent-capped charging and reset on overcurrent) and battery-current thresholds are not modelled, because the controller shown has no such modes. `reset` is modelled but never called by the loop.
