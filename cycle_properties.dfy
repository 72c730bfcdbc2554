/** What a cycle publishes, stated path by path, and the properties the
    service's design promises, proved of `Cycle.Run`. */
module CycleProperties {
  import opened Wrappers
  import opened Text
  import opened ServicePaths
  import opened Cycle

  /** The value a path holds once the destination phase has been handled,
      given the value `before` it held until then. */
  function Live(before: Option<real>, plan: Plan, meter: Json, energy: Json, p: OutPath): Option<real> {
    match ReadSource(meter, plan.source)
    case None => before
    case Some(r) =>
      var (fk, rk) := EnergyKeys(plan.source, plan.energyType);
      var fwd, rev := Field(energy, fk), Field(energy, rk);
      match p
      case AcPower => Some(Signed(plan, r.power))
      case AcEnergyForward => if fwd.Some? then Some(Kwh(fwd.value)) else before
      case AcEnergyReverse => if rev.Some? then Some(Kwh(rev.value)) else before
      case PhaseValue(ph, q) =>
        if ph != plan.destination then before
        else (match q
          case Voltage => Some(r.voltage)
          case Current => Some(Signed(plan, r.current))
          case Power => Some(Signed(plan, r.power))
          case EnergyForward => Some(if fwd.Some? then Kwh(fwd.value) else 0.0)
          case EnergyReverse => Some(if rev.Some? then Kwh(rev.value) else 0.0))
      case _ => before
  }

  /** The value each path holds after a completed cycle that started from
      table `t`: the reference definition the write sequence is checked
      against. */
  function Published(t: Table, plan: Plan, meter: Json, energy: Json, p: OutPath): Option<real>
    requires Registered(t) && t[Name(UpdateIndex)].Some?
  {
    match p
    case Connected => Some(1.0)
    case StatusCode => Some(7.0)
    case UpdateIndex => Some(NextIndex(t[Name(UpdateIndex)].value))
    case Mode => Some(0.0)
    case PhaseValue(ph, _) =>
      if ph != plan.destination then None else Live(t[Name(p)], plan, meter, energy, p)
    case _ => Live(t[Name(p)], plan, meter, energy, p)
  }

  lemma EnergySlotAt(t: Table, slot: OutPath, total: OutPath, value: Option<real>, p: OutPath)
    requires Registered(t) && slot != total
    ensures Registered(EnergySlot(t, slot, total, value))
    ensures EnergySlot(t, slot, total, value)[Name(p)] ==
      if p == slot then Some(if value.Some? then Kwh(value.value) else 0.0)
      else if p == total && value.Some? then Some(Kwh(value.value))
      else t[Name(p)]
  {
    var v := Some(if value.Some? then Kwh(value.value) else 0.0);
    SetAt(t, slot, v, p);
    SetKeepsRegistered(t, slot, v);
    if value.Some? {
      SetAt(Set(t, slot, v), total, v, p);
      SetKeepsRegistered(Set(t, slot, v), total, v);
    }
  }

  lemma WriteReadingAt(t: Table, plan: Plan, r: Reading, p: OutPath)
    requires Registered(t)
    ensures Registered(WriteReading(t, plan, r))
    ensures WriteReading(t, plan, r)[Name(p)] ==
      if p == AcPower || p == PhaseValue(plan.destination, Power) then Some(Signed(plan, r.power))
      else if p == PhaseValue(plan.destination, Voltage) then Some(r.voltage)
      else if p == PhaseValue(plan.destination, Current) then Some(Signed(plan, r.current))
      else t[Name(p)]
  {
    var d := plan.destination;
    var power := Signed(plan, r.power);
    var t1 := Set(t, PhaseValue(d, Voltage), Some(r.voltage));
    var t2 := Set(t1, PhaseValue(d, Current), Some(Signed(plan, r.current)));
    var t3 := Set(t2, PhaseValue(d, Power), Some(power));
    SetAt(t, PhaseValue(d, Voltage), Some(r.voltage), p);
    SetAt(t1, PhaseValue(d, Current), Some(Signed(plan, r.current)), p);
    SetAt(t2, PhaseValue(d, Power), Some(power), p);
    SetAt(t3, AcPower, Some(power), p);
    SetKeepsRegistered(t, PhaseValue(d, Voltage), Some(r.voltage));
    SetKeepsRegistered(t1, PhaseValue(d, Current), Some(Signed(plan, r.current)));
    SetKeepsRegistered(t2, PhaseValue(d, Power), Some(power));
    SetKeepsRegistered(t3, AcPower, Some(power));
  }

  lemma DestinationStepAt(t: Table, plan: Plan, meter: Json, energy: Json, p: OutPath)
    requires Registered(t)
    ensures Registered(DestinationStep(t, plan, meter, energy))
    ensures DestinationStep(t, plan, meter, energy)[Name(p)] == Live(t[Name(p)], plan, meter, energy, p)
  {
    if ReadSource(meter, plan.source).Some? {
      var r := ReadSource(meter, plan.source).value;
      var d := plan.destination;
      var keys := EnergyKeys(plan.source, plan.energyType);
      var fwd, rev := Field(energy, keys.0), Field(energy, keys.1);
      var t4 := WriteReading(t, plan, r);
      var t5 := EnergySlot(t4, PhaseValue(d, EnergyForward), AcEnergyForward, fwd);
      assert DestinationStep(t, plan, meter, energy)
          == EnergySlot(t5, PhaseValue(d, EnergyReverse), AcEnergyReverse, rev);
      WriteReadingAt(t, plan, r, p);
      EnergySlotAt(t4, PhaseValue(d, EnergyForward), AcEnergyForward, fwd, p);
      EnergySlotAt(t5, PhaseValue(d, EnergyReverse), AcEnergyReverse, rev, p);
      if p.PhaseValue? {
        assert Live(t[Name(p)], plan, meter, energy, p) ==
          if p.phase != d then t[Name(p)]
          else (match p.quantity
            case Voltage => Some(r.voltage)
            case Current => Some(Signed(plan, r.current))
            case Power => Some(Signed(plan, r.power))
            case EnergyForward => Some(if fwd.Some? then Kwh(fwd.value) else 0.0)
            case EnergyReverse => Some(if rev.Some? then Kwh(rev.value) else 0.0));
      }
    }
  }

  lemma NullPhaseAt(t: Table, ph: Phase, p: OutPath)
    requires Registered(t)
    ensures Registered(NullPhase(t, ph))
    ensures NullPhase(t, ph)[Name(p)] == if p.PhaseValue? && p.phase == ph then None else t[Name(p)]
  {
    var t1 := Set(t, PhaseValue(ph, Voltage), None);
    var t2 := Set(t1, PhaseValue(ph, Current), None);
    var t3 := Set(t2, PhaseValue(ph, Power), None);
    var t4 := Set(t3, PhaseValue(ph, EnergyForward), None);
    SetAt(t, PhaseValue(ph, Voltage), None, p);
    SetAt(t1, PhaseValue(ph, Current), None, p);
    SetAt(t2, PhaseValue(ph, Power), None, p);
    SetAt(t3, PhaseValue(ph, EnergyForward), None, p);
    SetAt(t4, PhaseValue(ph, EnergyReverse), None, p);
  }

  lemma PhaseStepAt(t: Table, plan: Plan, meter: Json, energy: Json, ph: Phase, p: OutPath)
    requires Registered(t)
    ensures Registered(PhaseStep(t, plan, meter, energy, ph))
    ensures PhaseStep(t, plan, meter, energy, ph)[Name(p)] ==
      if p == StatusCode then Some(7.0)
      else if ph == plan.destination then Live(t[Name(p)], plan, meter, energy, p)
      else if p.PhaseValue? && p.phase == ph then None
      else t[Name(p)]
  {
    var t1 := Set(t, StatusCode, Some(7.0));
    SetAt(t, StatusCode, Some(7.0), p);
    if ph == plan.destination {
      DestinationStepAt(t1, plan, meter, energy, p);
      DestinationStepAt(t1, plan, meter, energy, StatusCode);
    } else {
      NullPhaseAt(t1, ph, p);
    }
  }

  lemma PhasesUnfold(t: Table, plan: Plan, meter: Json, energy: Json)
    ensures PhasesStep(t, plan, meter, energy, Phases) ==
      PhaseStep(PhaseStep(PhaseStep(t, plan, meter, energy, L1), plan, meter, energy, L2), plan, meter, energy, L3)
  {
    assert Phases[..2] == [L1, L2];
    assert Phases[..2][..1] == [L1];
    assert [L1][..0] == [];
    var t1 := PhasesStep(t, plan, meter, energy, [L1]);
    assert t1 == PhaseStep(t, plan, meter, energy, L1);
    var t2 := PhasesStep(t, plan, meter, energy, [L1, L2]);
    assert t2 == PhaseStep(t1, plan, meter, energy, L2);
  }

  /** The loop over L1, L2, L3, path by path. */
  lemma PhasesAt(t: Table, plan: Plan, meter: Json, energy: Json, p: OutPath)
    requires Registered(t)
    ensures Registered(PhasesStep(t, plan, meter, energy, Phases))
    ensures PhasesStep(t, plan, meter, energy, Phases)[Name(p)] ==
      if p == StatusCode then Some(7.0)
      else if p.PhaseValue? && p.phase != plan.destination then None
      else Live(t[Name(p)], plan, meter, energy, p)
  {
    PhasesUnfold(t, plan, meter, energy);
    var t1 := PhaseStep(t, plan, meter, energy, L1);
    var t2 := PhaseStep(t1, plan, meter, energy, L2);
    PhaseStepAt(t, plan, meter, energy, L1, p);
    PhaseStepAt(t1, plan, meter, energy, L2, p);
    PhaseStepAt(t2, plan, meter, energy, L3, p);
  }

  /** A cycle whose two fetches return data and whose settings pass the
      checks completes, and leaves every path holding its `Published` value. */
  lemma RunPublishes(t: Table, s: Settings, status: Fetch, energy: Fetch,
                     plan: Plan, meter: Json, readings: Json)
    requires Registered(t) && t[Name(UpdateIndex)].Some?
    requires FetchResult(status) == Got(meter) && FetchResult(energy) == Got(readings)
    requires Validate(s) == Some(plan)
    ensures Run(t, s, status, energy).1 == Completed
    ensures Registered(Run(t, s, status, energy).0)
    ensures forall p :: Run(t, s, status, energy).0[Name(p)] == Published(t, plan, meter, readings, p)
  {
    var t1 := FetchTable(t, status);
    var t2 := FetchTable(t1, energy);
    assert t2 == Set(Set(t, Connected, Some(1.0)), Connected, Some(1.0));
    var t3 := PhasesStep(t2, plan, meter, readings, Phases);
    PhasesAt(t2, plan, meter, readings, UpdateIndex);
    SetAt(t, Connected, Some(1.0), UpdateIndex);
    SetAt(Set(t, Connected, Some(1.0)), Connected, Some(1.0), UpdateIndex);
    var next := Some(NextIndex(t3[Name(UpdateIndex)].value));
    forall p ensures Run(t, s, status, energy).0[Name(p)] == Published(t, plan, meter, readings, p) {
      PhasesAt(t2, plan, meter, readings, p);
      SetAt(t, Connected, Some(1.0), p);
      SetAt(Set(t, Connected, Some(1.0)), Connected, Some(1.0), p);
      SetAt(t3, UpdateIndex, next, p);
      SetAt(Set(t3, UpdateIndex, next), Mode, Some(0.0), p);
    }
    SetKeepsRegistered(t3, UpdateIndex, next);
    SetKeepsRegistered(Set(t3, UpdateIndex, next), Mode, Some(0.0));
  }

  /** `RunPublishes` for one path. */
  lemma RunAt(t: Table, s: Settings, status: Fetch, energy: Fetch,
              plan: Plan, meter: Json, readings: Json, p: OutPath)
    requires Registered(t) && t[Name(UpdateIndex)].Some?
    requires FetchResult(status) == Got(meter) && FetchResult(energy) == Got(readings)
    requires Validate(s) == Some(plan)
    ensures Registered(Run(t, s, status, energy).0)
    ensures Run(t, s, status, energy).0[Name(p)] == Published(t, plan, meter, readings, p)
  {
    RunPublishes(t, s, status, energy, plan, meter, readings);
  }

  /** A cycle completes exactly when both fetches return data and the
      settings pass the checks; any other cycle changes no path but
      `/Connected`. */
  lemma WhenCycleCompletes(t: Table, s: Settings, status: Fetch, energy: Fetch)
    requires Registered(t) && t[Name(UpdateIndex)].Some?
    ensures Run(t, s, status, energy).1 == Completed <==>
      FetchResult(status).Got? && FetchResult(energy).Got? && Validate(s).Some?
    ensures Run(t, s, status, energy).1 != Completed ==>
      forall k :: k in t && k != Name(Connected) ==>
        k in Run(t, s, status, energy).0 && Run(t, s, status, energy).0[k] == t[k]
  {
    if FetchResult(status).Got? && FetchResult(energy).Got? && Validate(s).Some? {
      RunPublishes(t, s, status, energy, Validate(s).value,
                   FetchResult(status).data, FetchResult(energy).data);
    }
  }

  /** No cycle unregisters a path. */
  lemma RunKeepsRegistered(t: Table, s: Settings, status: Fetch, energy: Fetch)
    requires Registered(t) && t[Name(UpdateIndex)].Some?
    ensures Registered(Run(t, s, status, energy).0)
  {
    WhenCycleCompletes(t, s, status, energy);
    if Run(t, s, status, energy).1 == Completed {
      RunPublishes(t, s, status, energy, Validate(s).value,
                   FetchResult(status).data, FetchResult(energy).data);
    } else {
      ConnectedAfterCycle(t, s, status, energy);
      forall p ensures Name(p) in Run(t, s, status, energy).0 {
        assert Name(p) in t;
      }
    }
  }

  /** `/Connected` after a cycle: an error status on either request raises
      before that request writes `/Connected`, so the value the earlier
      writes left stays; otherwise the energy request, when it gets that
      far, has the last word. */
  lemma ConnectedAfterCycle(t: Table, s: Settings, status: Fetch, energy: Fetch)
    requires Registered(t) && t[Name(UpdateIndex)].Some?
    ensures Name(Connected) in Run(t, s, status, energy).0
    ensures status.BadStatus? ==> Run(t, s, status, energy) == (t, Aborted)
    ensures status.Reply? && |status.body| == 0 ==>
      Run(t, s, status, energy) == (Set(t, Connected, Some(1.0)), Aborted)
    ensures !FetchResult(status).Raised? && energy.Reply? ==>
      Run(t, s, status, energy).0[Name(Connected)] == Some(1.0)
    ensures !FetchResult(status).Raised? && energy.RequestFailed? ==>
      Run(t, s, status, energy).0[Name(Connected)] == Some(0.0)
    ensures !FetchResult(status).Raised? && energy.BadStatus? ==>
      Run(t, s, status, energy) == (FetchTable(t, status), Aborted)
  {
    if FetchResult(status).Got? && FetchResult(energy).Got? && Validate(s).Some? {
      RunAt(t, s, status, energy, Validate(s).value,
            FetchResult(status).data, FetchResult(energy).data, Connected);
    }
  }

  /** Lines 333-335 on the whole numbers 0..255: add one modulo 256. */
  lemma NextIndexWraps(k: int)
    requires 0 <= k <= 255
    ensures NextIndex(k as real) == ((k + 1) % 256) as real
  {
  }

  /** A completed cycle advances `/UpdateIndex` by one, 255 to 0; any other
      cycle leaves it; either way it stays a whole number in 0..255. */
  lemma UpdateIndexAdvances(t: Table, s: Settings, status: Fetch, energy: Fetch)
    requires Registered(t) && IndexInRange(t)
    ensures IndexInRange(Run(t, s, status, energy).0)
    ensures Run(t, s, status, energy).1 == Completed ==>
      Run(t, s, status, energy).0[Name(UpdateIndex)] == Some(NextIndex(t[Name(UpdateIndex)].value))
    ensures Run(t, s, status, energy).1 != Completed ==>
      Run(t, s, status, energy).0[Name(UpdateIndex)] == t[Name(UpdateIndex)]
  {
    WhenCycleCompletes(t, s, status, energy);
    if Run(t, s, status, energy).1 == Completed {
      RunPublishes(t, s, status, energy, Validate(s).value,
                   FetchResult(status).data, FetchResult(energy).data);
      var k := t[Name(UpdateIndex)].value.Floor;
      NextIndexWraps(k);
    } else {
      SetAt(t, Connected, Some(1.0), UpdateIndex);
      SetAt(t, Connected, Some(0.0), UpdateIndex);
    }
  }

  /** `/UpdateIndex` after `n` completed cycles. */
  function AdvanceIndex(v: real, n: nat): real {
    if n == 0 then v else NextIndex(AdvanceIndex(v, n - 1))
  }

  lemma ModSucc(x: int)
    ensures (x % 256 + 1) % 256 == (x + 1) % 256
  {
    var q, r := x / 256, x % 256;
    assert x == 256 * q + r;
    if r < 255 {
      assert x + 1 == 256 * q + (r + 1);
    } else {
      assert x + 1 == 256 * (q + 1);
    }
  }

  /** Over `n` completed cycles the index counts up modulo 256. */
  lemma {:induction false} IndexAfterCycles(k: int, n: nat)
    requires 0 <= k <= 255
    ensures AdvanceIndex(k as real, n) == ((k + n) % 256) as real
  {
    if n > 0 {
      IndexAfterCycles(k, n - 1);
      var m := (k + n - 1) % 256;
      NextIndexWraps(m);
      ModSucc(k + n - 1);
    }
  }

  /** On a completed cycle the two phases other than the destination are
      blanked in all five quantities, and the status reads Running (7). */
  lemma OtherPhasesBlanked(t: Table, s: Settings, status: Fetch, energy: Fetch,
                           plan: Plan, meter: Json, readings: Json)
    requires Registered(t) && t[Name(UpdateIndex)].Some?
    requires FetchResult(status) == Got(meter) && FetchResult(energy) == Got(readings)
    requires Validate(s) == Some(plan)
    ensures Registered(Run(t, s, status, energy).0)
    ensures forall ph, q :: ph != plan.destination ==>
      Run(t, s, status, energy).0[Name(PhaseValue(ph, q))] == None
    ensures Run(t, s, status, energy).0[Name(StatusCode)] == Some(7.0)
    ensures Run(t, s, status, energy).0[Name(Mode)] == Some(0.0)
  {
    RunPublishes(t, s, status, energy, plan, meter, readings);
  }

  // The lemmas below are stated of `Published`, which `RunPublishes` shows
  // to be what a completed cycle leaves in every path.

  /** When the source phase lacks power, voltage or current, the cycle still
      completes (`WhenCycleCompletes`), but the destination phase and the
      aggregate power and energy keep their previous values. */
  lemma MissingReadingKeepsDestination(t: Table, plan: Plan, meter: Json, readings: Json)
    requires Registered(t) && t[Name(UpdateIndex)].Some?
    requires ReadSource(meter, plan.source).None?
    ensures forall q :: Published(t, plan, meter, readings, PhaseValue(plan.destination, q))
                     == t[Name(PhaseValue(plan.destination, q))]
    ensures forall p :: p in {AcPower, AcEnergyForward, AcEnergyReverse} ==>
      Published(t, plan, meter, readings, p) == t[Name(p)]
  {
  }

  /** The meter reports no phase called "off". */
  lemma OffHasNoReading(meter: Json)
    requires "off_act_power" !in meter
    ensures ReadSource(meter, Off).None?
  {
    assert KeyPrefix(Off) + "_act_power" == "off_act_power" by {
      assert KeyPrefix(Off) == "off";
    }
  }

  /** Source phase OFF is not treated specially: the meter has no
      `off_act_power` key, so the reading is missing and the destination
      keeps its previous values, while the other phases are still blanked. */
  lemma SourceOffKeepsDestination(t: Table, s: Settings, plan: Plan, meter: Json, readings: Json)
    requires Registered(t) && t[Name(UpdateIndex)].Some?
    requires Validate(s) == Some(plan) && s.phase == Some("OFF")
    requires "off_act_power" !in meter
    ensures forall q :: Published(t, plan, meter, readings, PhaseValue(plan.destination, q))
                     == t[Name(PhaseValue(plan.destination, q))]
    ensures Published(t, plan, meter, readings, AcPower) == t[Name(AcPower)]
    ensures forall ph, q :: ph != plan.destination ==>
      Published(t, plan, meter, readings, PhaseValue(ph, q)) == None
  {
    assert plan.source == Off;
    OffHasNoReading(meter);
    MissingReadingKeepsDestination(t, plan, meter, readings);
  }

  /** With a full reading, the destination gets the voltage as read, power
      and current negated when InvertPowerSign is '1', and `/Ac/Power`
      equals the destination power. */
  lemma DestinationReading(t: Table, plan: Plan, meter: Json, readings: Json, r: Reading)
    requires Registered(t) && t[Name(UpdateIndex)].Some?
    requires ReadSource(meter, plan.source) == Some(r)
    ensures Published(t, plan, meter, readings, PhaseValue(plan.destination, Voltage)) == Some(r.voltage)
    ensures Published(t, plan, meter, readings, PhaseValue(plan.destination, Power))
         == Some(if plan.invert then -r.power else r.power)
    ensures Published(t, plan, meter, readings, PhaseValue(plan.destination, Current))
         == Some(if plan.invert then -r.current else r.current)
    ensures Published(t, plan, meter, readings, AcPower)
         == Published(t, plan, meter, readings, PhaseValue(plan.destination, Power))
  {
  }

  /** Exactly one phase carries a live reading after a completed cycle with
      a full reading: the destination. */
  lemma ExactlyOneLivePhase(t: Table, plan: Plan, meter: Json, readings: Json)
    requires Registered(t) && t[Name(UpdateIndex)].Some?
    requires ReadSource(meter, plan.source).Some?
    ensures forall ph, q :: Published(t, plan, meter, readings, PhaseValue(ph, q)).Some?
                        <==> ph == plan.destination
  {
  }

  /** Energy: EnergyType 'return' swaps the two meter counters; present
      counters are published in kWh on the destination phase and on the
      aggregate path; a missing counter puts 0 on the phase and leaves the
      aggregate path alone. */
  lemma EnergyDirectionAndScale(t: Table, plan: Plan, meter: Json, readings: Json)
    requires Registered(t) && t[Name(UpdateIndex)].Some?
    requires ReadSource(meter, plan.source).Some?
    ensures var pre := KeyPrefix(plan.source);
      var consumed := Field(readings, pre + "_total_act_energy");
      var returned := Field(readings, pre + "_total_act_ret_energy");
      var fwd := if plan.energyType == Return then returned else consumed;
      var rev := if plan.energyType == Return then consumed else returned;
      && Published(t, plan, meter, readings, PhaseValue(plan.destination, EnergyForward))
         == Some(if fwd.Some? then fwd.value / 1000.0 else 0.0)
      && Published(t, plan, meter, readings, PhaseValue(plan.destination, EnergyReverse))
         == Some(if rev.Some? then rev.value / 1000.0 else 0.0)
      && Published(t, plan, meter, readings, AcEnergyForward)
         == (if fwd.Some? then Some(fwd.value / 1000.0) else t[Name(AcEnergyForward)])
      && Published(t, plan, meter, readings, AcEnergyReverse)
         == (if rev.Some? then Some(rev.value / 1000.0) else t[Name(AcEnergyReverse)])
  {
    var pre := KeyPrefix(plan.source);
    var keys := EnergyKeys(plan.source, plan.energyType);
    assert keys.0 == if plan.energyType == Return then pre + "_total_act_ret_energy" else pre + "_total_act_energy";
    assert keys.1 == if plan.energyType == Return then pre + "_total_act_energy" else pre + "_total_act_ret_energy";
    var d := plan.destination;
    var ps := [PhaseValue(d, EnergyForward), PhaseValue(d, EnergyReverse), AcEnergyForward, AcEnergyReverse];
    forall i | 0 <= i < |ps|
      ensures Published(t, plan, meter, readings, ps[i]) == Live(t[Name(ps[i])], plan, meter, readings, ps[i])
    {
    }
  }
}
