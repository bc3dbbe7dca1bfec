/**
 * The charge controller of mppt/src/ChargeController.h.
 *
 * Every cycle it derives the battery's state of charge and the load power
 * from the battery voltage, picks a control code for the tracker
 * (0 = track the maximum power point, 1 = pause, 2 = track the load power)
 * with a fixed-priority rule chain, sets the PV and battery switches, and
 * integrates a simulated battery voltage.
 */
module Charge {

  /** Battery voltage at 100 % state of charge (VbMax). */
  const VbMax: real := 12.0
  /** Highest state of charge allowed while charging (SoCMax). */
  const SoCMax: real := 95.0
  /** State of charge at which all power is cut off (SoCDanger). */
  const SoCDanger: real := 97.0
  /** Gain of the simulated battery-voltage integrator (ChargingConst). */
  const ChargingConst: real := 0.1
  /** Load current fixed by the constructor, in amperes. */
  const InitialLoadCurrent: real := 0.01
  /** Battery voltage set by the constructor, in volts. */
  const InitialBatteryVoltage: real := 11.1

  /** A switch's state; the source writes 0 for open and 1 for closed. */
  datatype Switch = Open | Closed

  /** Percentage state of charge derived from the battery voltage. */
  function StateOfCharge(vbat: real): real {
    vbat / VbMax * 100.0
  }

  /** What the rule chain decides: the control code and both switches. */
  datatype Decision = Decision(control: int, pv: Switch, bat: Switch)

  /** The rule chain of run, given the state of charge, the PV and load
      powers and the PV switch's state on entry. */
  function Decide(soc: real, ppv: real, pload: real, pvOnEntry: Switch): (d: Decision)
    // the chain is total: some rule always fires
    ensures d.control == 0 || d.control == 1 || d.control == 2
    ensures d.control == 1 <==> soc >= SoCDanger
    ensures d.control == 1 ==> d.pv == Open && d.bat == Open
    ensures d.control == 2 <==> SoCMax <= soc < SoCDanger && ppv >= pload
    ensures d.control == 2 ==> d.pv == Closed && d.bat == Closed
    // the PV switch is opened only in the danger state
    ensures d.pv == Open <==> d.control == 1
    // while tracking, the battery charges iff PV covers the load, or on recovery
    ensures d.control == 0 ==> (d.bat == Closed <==> ppv >= pload || (pvOnEntry == Open && soc < SoCMax))
    ensures soc < SoCMax && pvOnEntry == Open ==> d == Decision(0, Closed, Closed)
  {
    if soc >= SoCDanger then Decision(1, Open, Open)
    else if soc < SoCMax && pvOnEntry == Open then Decision(0, Closed, Closed)
    else if soc >= SoCMax && ppv >= pload then Decision(2, Closed, Closed)
    else if soc >= SoCMax && ppv < pload then Decision(0, Closed, Open)
    else if soc < SoCMax && ppv >= pload then Decision(0, Closed, Closed)
    else Decision(0, Closed, Open)
  }

  /** The simulated battery voltage after one cycle. The source writes one
      formula for "charging enabled" and another otherwise; both give the
      same value. */
  function NextVbat(vbat: real, ppv: real, pload: real, pv: Switch, bat: Switch): (r: real)
    ensures r == vbat + (ppv - pload) * ChargingConst
    ensures ppv >= pload ==> r >= vbat
    ensures ppv <= pload ==> r <= vbat
  {
    if pv == Closed && bat == Closed then vbat + (ppv - pload) * ChargingConst
    else vbat - (pload - ppv) * ChargingConst
  }

  /** The controller's fields. */
  datatype ControllerState = ControllerState(
    control: int,
    pload: real,
    vbat: real,
    iload: real,
    ppv: real,
    pvSwitch: Switch,
    batSwitch: Switch)

  /** One call of run. */
  function AfterRun(c: ControllerState): (r: ControllerState)
    ensures r.pload == c.iload * c.vbat
    ensures r.control == 0 || r.control == 1 || r.control == 2
    ensures r.control == 1 <==> StateOfCharge(c.vbat) >= SoCDanger
    ensures r.control == 2 <==> SoCMax <= StateOfCharge(c.vbat) < SoCDanger && c.ppv >= r.pload
    ensures r.pvSwitch == Open <==> r.control == 1
    ensures Decision(r.control, r.pvSwitch, r.batSwitch) == Decide(StateOfCharge(c.vbat), c.ppv, r.pload, c.pvSwitch)
    ensures r.vbat == c.vbat + (c.ppv - r.pload) * ChargingConst
    ensures r.iload == c.iload && r.ppv == c.ppv
  {
    var soc := StateOfCharge(c.vbat);
    var pload := c.iload * c.vbat;
    var d := Decide(soc, c.ppv, pload, c.pvSwitch);
    ControllerState(d.control, pload, NextVbat(c.vbat, c.ppv, pload, d.pv, d.bat),
                    c.iload, c.ppv, d.pv, d.bat)
  }

  /** The first run after construction: the battery voltage the constructor
      sets lies below the charging ceiling, so the controller tracks the
      maximum power point, and if the PV switch starts open it recovers by
      closing both switches. */
  lemma FirstRunTracksMaxPower(c: ControllerState)
    requires c.vbat == InitialBatteryVoltage
    ensures StateOfCharge(c.vbat) < SoCMax
    ensures AfterRun(c).control == 0
    ensures c.pvSwitch == Open ==> AfterRun(c).pvSwitch == Closed && AfterRun(c).batSwitch == Closed
  {
  }

  /** The controller object. Control, Pload and Ppv are not initialised by
      the source's constructor, and the switches' power-on states belong to
      the I/O library, so all five are parameters. */
  class ChargeController {
    var control: int
    var pload: real
    var vbat: real
    var iload: real
    var ppv: real          // public: written by the main loop
    var pvSwitch: Switch   // last value written to the PV switch
    var batSwitch: Switch  // last value written to the battery switch

    ghost function State(): ControllerState
      reads this
    {
      ControllerState(control, pload, vbat, iload, ppv, pvSwitch, batSwitch)
    }

    constructor (initialControl: int, initialPload: real, initialPpv: real,
                 initialPv: Switch, initialBat: Switch)
      ensures iload == InitialLoadCurrent && vbat == InitialBatteryVoltage
      ensures control == initialControl && pload == initialPload && ppv == initialPpv
      ensures pvSwitch == initialPv && batSwitch == initialBat
    {
      control := initialControl;
      pload := initialPload;
      ppv := initialPpv;
      pvSwitch := initialPv;
      batSwitch := initialBat;
      iload := InitialLoadCurrent;
      vbat := InitialBatteryVoltage;
    }

    method ReadControl() returns (c: int)
      ensures c == control
    {
      c := control;
    }

    method ReadPload() returns (p: real)
      ensures p == pload
    {
      p := pload;
    }

    method Run()
      modifies this
      ensures State() == AfterRun(old(State()))
      ensures pload == iload * old(vbat)
      ensures control == 0 || control == 1 || control == 2
      ensures control == 1 <==> StateOfCharge(old(vbat)) >= SoCDanger
      ensures control == 1 ==> pvSwitch == Open && batSwitch == Open
      ensures pvSwitch == Open <==> control == 1
      ensures vbat == old(vbat) + (ppv - pload) * ChargingConst
      ensures iload == old(iload) && ppv == old(ppv)
    {
      ghost var entry := State();
      var soc := vbat / VbMax * 100.0;
      var vload := vbat;
      pload := iload * vload;
      assert soc == StateOfCharge(entry.vbat) && pload == entry.iload * entry.vbat;

      if soc >= SoCDanger {
        control := 1;
        pvSwitch := Open;
        batSwitch := Open;
      } else if soc < SoCMax && pvSwitch == Open {
        control := 0;
        pvSwitch := Closed;
        batSwitch := Closed;
      } else if soc >= SoCMax && ppv >= pload {
        control := 2;
        pvSwitch := Closed;
        batSwitch := Closed;
      } else if soc >= SoCMax && ppv < pload {
        control := 0;
        pvSwitch := Closed;
        batSwitch := Open;
      } else if soc < SoCMax && ppv >= pload {
        control := 0;
        pvSwitch := Closed;
        batSwitch := Closed;
      } else if soc < SoCMax && ppv < pload {
        control := 0;
        pvSwitch := Closed;
        batSwitch := Open;
      }
      assert Decision(control, pvSwitch, batSwitch) == Decide(soc, ppv, pload, entry.pvSwitch);

      if pvSwitch == Closed && batSwitch == Closed {
        vbat := vbat + (ppv - pload) * ChargingConst;
      } else {
        vbat := vbat - (pload - ppv) * ChargingConst;
      }
      assert vbat == NextVbat(entry.vbat, ppv, pload, pvSwitch, batSwitch);
      assert State() == AfterRun(entry) by {
        var d := Decide(StateOfCharge(entry.vbat), entry.ppv, entry.iload * entry.vbat, entry.pvSwitch);
        assert d == Decision(control, pvSwitch, batSwitch);
        assert AfterRun(entry) == ControllerState(d.control, pload, NextVbat(entry.vbat, entry.ppv, pload, d.pv, d.bat),
                                                  entry.iload, entry.ppv, d.pv, d.bat);
      }
    }
  }
}
