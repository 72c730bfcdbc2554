/** `DbusShellyEMService` (dbus-shelly-pro-3em-pvinverter.py:37-345): the
    service object whose D-Bus value table and `_lastUpdate` stamp are
    updated in place, once at start-up and then by every timer tick. */
module Service {
  import opened Wrappers
  import opened ServicePaths
  import opened Cycle
  import opened CycleProperties

  /** The value each path is registered with. */
  function InitialValue(p: OutPath): Option<real> {
    match p
    case Connected => Some(1.0)
    case UpdateIndex => Some(0.0)
    case StatusCode => Some(8.0)
    case AcPower => Some(0.0)
    case _ => None
  }

  class PvInverterService {
    /** The published values, by D-Bus path. */
    var paths: Table
    /** `_lastUpdate`: the clock reading of the last completed cycle. */
    var lastUpdate: real
    /** The `[PVINVERTER]` section, read once at start-up. */
    const settings: Settings

    /** Every path the cycle writes is registered and `/UpdateIndex` holds
        a whole number in 0..255. */
    ghost predicate Valid()
      reads this
    {
      Registered(paths) && IndexInRange(paths)
    }

    /** The registration in `__init__` (lines 63-96) of the paths the cycle
        writes, with the initial values `main` passes (lines 406-428);
        `_lastUpdate` starts at 0. */
    constructor (settings: Settings)
      ensures Valid()
      ensures this.settings == settings && lastUpdate == 0.0
      ensures forall p :: paths[Name(p)] == InitialValue(p)
    {
      NamesDistinct();
      var t := map p | p in AllPaths :: Name(p) := InitialValue(p);
      forall p ensures Name(p) in t && t[Name(p)] == InitialValue(p) {
        AllPathsListed(p);
      }
      this.settings := settings;
      paths := t;
      lastUpdate := 0.0;
    }

    /** `_getShellyData` / `_getShellyEnergyData` (lines 184-222): one
        request; `/Connected` is set to 1 once the status check passes and
        to 0 when `requests` raises. */
    method GetMeterData(f: Fetch) returns (result: Fetched)
      modifies this
      ensures paths == FetchTable(old(paths), f) && result == FetchResult(f)
      ensures lastUpdate == old(lastUpdate)
    {
      match f
      case BadStatus =>
        result := Raised;
      case RequestFailed =>
        paths := Set(paths, Connected, Some(0.0));
        result := NoData;
      case Reply(body) =>
        paths := Set(paths, Connected, Some(1.0));
        if |body| == 0 {
          result := Raised;
        } else {
          result := Got(body);
        }
    }

    /** `_update` (lines 233-345): one timer tick. */
    method Update(status: Fetch, energy: Fetch, now: real) returns (outcome: Outcome)
      requires Valid()
      modifies this
      ensures Valid()
      ensures (paths, outcome) == Run(old(paths), settings, status, energy)
      ensures lastUpdate == if outcome == Completed then now else old(lastUpdate)
    {
      ghost var t := paths;
      UpdateIndexAdvances(t, settings, status, energy);
      RunKeepsRegistered(t, settings, status, energy);
      var meter := GetMeterData(status);
      if meter.Raised? {
        return Aborted;
      }
      var readings := GetMeterData(energy);
      if readings.Raised? {
        return Aborted;
      }
      if meter.NoData? || readings.NoData? {
        return NoNewData;
      }
      var valid := Validate(settings);
      if valid.None? {
        return Aborted;
      }
      SetAt(t, Connected, Some(1.0), UpdateIndex);
      SetKeepsRegistered(t, Connected, Some(1.0));
      SetAt(Set(t, Connected, Some(1.0)), Connected, Some(1.0), UpdateIndex);
      SetKeepsRegistered(Set(t, Connected, Some(1.0)), Connected, Some(1.0));
      outcome := PublishAll(valid.value, meter.data, readings.data);
      lastUpdate := now;
    }

    /** Lines 264-339: the loop over L1, L2, L3, then `/UpdateIndex` and
        `/Mode`. */
    method PublishAll(plan: Plan, meter: Json, energy: Json) returns (outcome: Outcome)
      requires Registered(paths) && IndexInRange(paths)
      modifies this
      ensures (paths, outcome) == Publish(old(paths), plan, meter, energy)
      ensures outcome == Completed
      ensures lastUpdate == old(lastUpdate)
    {
      ghost var t := paths;
      for i := 0 to |Phases|
        invariant paths == PhasesStep(t, plan, meter, energy, Phases[..i])
        invariant lastUpdate == old(lastUpdate)
      {
        assert Phases[..i + 1][..i] == Phases[..i];
        PublishPhase(Phases[i], plan, meter, energy);
      }
      assert Phases[..|Phases|] == Phases;
      PhasesAt(t, plan, meter, energy, UpdateIndex);
      var index := paths[Name(UpdateIndex)].value + 1.0;
      if index > 255.0 {
        index := 0.0;
      }
      paths := Set(paths, UpdateIndex, Some(index));
      paths := Set(paths, Mode, Some(0.0));
      outcome := Completed;
    }

    /** One pass of the loop (lines 268-328): the destination phase gets the
        source phase's readings, any other phase is blanked. */
    method PublishPhase(ph: Phase, plan: Plan, meter: Json, energy: Json)
      modifies this
      ensures paths == PhaseStep(old(paths), plan, meter, energy, ph)
      ensures lastUpdate == old(lastUpdate)
    {
      paths := Set(paths, StatusCode, Some(7.0));
      if ph == plan.destination {
        PublishDestination(plan, meter, energy);
      } else {
        BlankPhase(ph);
      }
    }

    /** Lines 273-319: the source phase's readings on the destination phase. */
    method PublishDestination(plan: Plan, meter: Json, energy: Json)
      modifies this
      ensures paths == DestinationStep(old(paths), plan, meter, energy)
      ensures lastUpdate == old(lastUpdate)
    {
      var reading := ReadSource(meter, plan.source);
      if reading.None? {
        return;  // the source's `continue`
      }
      PublishReading(plan, reading.value);
      var ph := plan.destination;
      var keys := EnergyKeys(plan.source, plan.energyType);
      PublishEnergy(PhaseValue(ph, EnergyForward), AcEnergyForward, Field(energy, keys.0));
      PublishEnergy(PhaseValue(ph, EnergyReverse), AcEnergyReverse, Field(energy, keys.1));
    }

    /** Lines 280-288: voltage, current and power of the destination phase
        and the total power, power and current negated when asked to. */
    method PublishReading(plan: Plan, r: Reading)
      modifies this
      ensures paths == WriteReading(old(paths), plan, r)
      ensures lastUpdate == old(lastUpdate)
    {
      var ph := plan.destination;
      var power, current := r.power, r.current;
      if plan.invert {
        power, current := -power, -current;
      }
      paths := Set(paths, PhaseValue(ph, Voltage), Some(r.voltage));
      paths := Set(paths, PhaseValue(ph, Current), Some(current));
      paths := Set(paths, PhaseValue(ph, Power), Some(power));
      paths := Set(paths, AcPower, Some(power));
    }

    /** Lines 307-319, for one direction: the counter in kWh on the phase
        and on the total, or 0 on the phase when the counter is missing. */
    method PublishEnergy(slot: OutPath, total: OutPath, value: Option<real>)
      modifies this
      ensures paths == EnergySlot(old(paths), slot, total, value)
      ensures lastUpdate == old(lastUpdate)
    {
      if value.Some? {
        paths := Set(paths, slot, Some(Kwh(value.value)));
        paths := Set(paths, total, Some(Kwh(value.value)));
      } else {
        paths := Set(paths, slot, Some(0.0));
      }
    }

    /** Lines 323-328: a phase other than the destination is blanked. */
    method BlankPhase(ph: Phase)
      modifies this
      ensures paths == NullPhase(old(paths), ph)
      ensures lastUpdate == old(lastUpdate)
    {
      paths := Set(paths, PhaseValue(ph, Voltage), None);
      paths := Set(paths, PhaseValue(ph, Current), None);
      paths := Set(paths, PhaseValue(ph, Power), None);
      paths := Set(paths, PhaseValue(ph, EnergyForward), None);
      paths := Set(paths, PhaseValue(ph, EnergyReverse), None);
    }
  }
}
