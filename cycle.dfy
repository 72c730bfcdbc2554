/** One run of `DbusShellyEMService._update`
    (dbus-shelly-pro-3em-pvinverter.py:233-345) as a function of the table
    before the cycle, the `[PVINVERTER]` settings and the outcomes of the two
    HTTP fetches. The writes are made in the order the source makes them;
    `CycleProperties` states what they amount to. */
module Cycle {
  import opened Wrappers
  import opened Text
  import opened ServicePaths

  /** What one `requests.get` of the meter produced. */
  datatype Fetch =
    | Reply(body: Json)  // a success status and a JSON object (possibly empty)
    | RequestFailed      // a `requests` exception: transport error, timeout, unparsable body (requests >= 2.27)
    | BadStatus          // an error status: `if not meter_r` raises the builtin ConnectionError

  /** What `_getShellyData` / `_getShellyEnergyData` hand back to the cycle. */
  datatype Fetched = Got(data: Json) | NoData | Raised

  /** The value a fetch leaves in `/Connected`: set to 1 once the status
      check passes, to 0 in the `RequestException` handler; untouched when
      the error-status check raises first. */
  function FetchTable(t: Table, f: Fetch): Table {
    match f
    case Reply(_) => Set(t, Connected, Some(1.0))
    case RequestFailed => Set(t, Connected, Some(0.0))
    case BadStatus => t
  }

  /** An empty JSON object raises `ValueError`, which is not a
      `RequestException` and so escapes to the cycle's own handler. */
  function FetchResult(f: Fetch): (r: Fetched)
    ensures r.Got? ==> f.Reply? && r.data == f.body && |r.data| > 0
    ensures r.NoData? <==> f.RequestFailed?
    ensures f.Reply? && |f.body| > 0 ==> r == Got(f.body)
    ensures r.Raised? <==> f.BadStatus? || (f.Reply? && |f.body| == 0)
  {
    match f
    case Reply(body) => if |body| == 0 then Raised else Got(body)
    case RequestFailed => NoData
    case BadStatus => Raised
  }

  /** The meter phase the readings are taken from (`Phase`). */
  datatype Source = A | B | C | Off

  /** Which meter counter is published as forward energy (`EnergyType`). */
  datatype EnergyType = Direct | Return

  /** The `[PVINVERTER]` keys the cycle reads; `None` when a key is absent. */
  datatype Settings = Settings(
    phase: Option<string>,
    phaseDestination: Option<string>,
    invertPowerSign: Option<string>,
    energyType: Option<string>)

  /** The settings once they have passed the cycle's checks. */
  datatype Plan = Plan(source: Source, destination: Phase, invert: bool, energyType: EnergyType)

  function SourceName(src: Source): string {
    match src
    case A => "A"
    case B => "B"
    case C => "C"
    case Off => "OFF"
  }

  /** `Phase` must be one of A, B, C, OFF; a missing key raises `KeyError`. */
  function ParseSource(s: Option<string>): (r: Option<Source>)
    ensures r.Some? <==> s.Some? && s.value in {"A", "B", "C", "OFF"}
    ensures r.Some? ==> SourceName(r.value) == s.value
  {
    if s == Some("A") then Some(A)
    else if s == Some("B") then Some(B)
    else if s == Some("C") then Some(C)
    else if s == Some("OFF") then Some(Off)
    else None
  }

  /** `PhaseDestination` must be one of L1, L2, L3. */
  function ParseDestination(s: Option<string>): (r: Option<Phase>)
    ensures r.Some? <==> s.Some? && s.value in {"L1", "L2", "L3"}
    ensures r.Some? ==> PhaseName(r.value) == s.value
  {
    if s == Some("L1") then Some(L1)
    else if s == Some("L2") then Some(L2)
    else if s == Some("L3") then Some(L3)
    else None
  }

  /** `InvertPowerSign` must be '0' or '1'. */
  function ParseInvert(s: Option<string>): (r: Option<bool>)
    ensures r.Some? <==> s == Some("0") || s == Some("1")
    ensures r == Some(true) <==> s == Some("1")
  {
    if s == Some("1") then Some(true)
    else if s == Some("0") then Some(false)
    else None
  }

  /** `EnergyType`, default 'direct', lower-cased; anything but 'direct' or
      'return' is logged and read as 'direct'. */
  function ParseEnergyType(s: Option<string>): (r: EnergyType)
    ensures r == Return <==> s.Some? && Lower(s.value) == "return"
  {
    if Lower(s.GetOr("direct")) == "return" then Return else Direct
  }

  /** The checks at the head of the cycle; any failure raises `ValueError`
      (or `KeyError`) and ends the cycle. */
  function Validate(s: Settings): (r: Option<Plan>)
    ensures r.Some? <==>
      ParseSource(s.phase).Some? && ParseDestination(s.phaseDestination).Some?
      && ParseInvert(s.invertPowerSign).Some?
    ensures r.Some? ==>
      && SourceName(r.value.source) == s.phase.value
      && PhaseName(r.value.destination) == s.phaseDestination.value
      && (r.value.invert <==> s.invertPowerSign == Some("1"))
      && r.value.energyType == ParseEnergyType(s.energyType)
  {
    match (ParseSource(s.phase), ParseDestination(s.phaseDestination), ParseInvert(s.invertPowerSign))
    case (Some(src), Some(dst), Some(inv)) => Some(Plan(src, dst, inv, ParseEnergyType(s.energyType)))
    case _ => None
  }

  /** The prefix of the meter's JSON keys: `source_phase.lower()`. */
  function KeyPrefix(src: Source): string {
    Lower(SourceName(src))
  }

  /** The three live readings of the source phase. */
  datatype Reading = Reading(power: real, voltage: real, current: real)

  /** `<p>_act_power`, `<p>_voltage`, `<p>_current`; no reading unless all
      three are present and not null. */
  function ReadSource(meter: Json, src: Source): (r: Option<Reading>)
    ensures r.Some? <==>
      && Field(meter, KeyPrefix(src) + "_act_power").Some?
      && Field(meter, KeyPrefix(src) + "_voltage").Some?
      && Field(meter, KeyPrefix(src) + "_current").Some?
    ensures r.Some? ==> r.value == Reading(
      Field(meter, KeyPrefix(src) + "_act_power").value,
      Field(meter, KeyPrefix(src) + "_voltage").value,
      Field(meter, KeyPrefix(src) + "_current").value)
  {
    var pre := KeyPrefix(src);
    var power := Field(meter, pre + "_act_power");
    var voltage := Field(meter, pre + "_voltage");
    var current := Field(meter, pre + "_current");
    if power.None? || voltage.None? || current.None? then None
    else Some(Reading(power.value, voltage.value, current.value))
  }

  /** The energy keys read as forward and as reverse energy. */
  function EnergyKeys(src: Source, et: EnergyType): (string, string) {
    var pre := KeyPrefix(src);
    if et == Direct then (pre + "_total_act_energy", pre + "_total_act_ret_energy")
    else (pre + "_total_act_ret_energy", pre + "_total_act_energy")
  }

  /** Power and current after the optional sign inversion. */
  function Signed(plan: Plan, x: real): real {
    if plan.invert then -x else x
  }

  /** Wh to kWh. */
  function Kwh(wh: real): real {
    wh / 1000.0
  }

  /** One energy direction: the per-phase slot gets the value in kWh, or 0
      when the key is missing, and the aggregate path is written only when
      the value is present. */
  function EnergySlot(t: Table, slot: OutPath, total: OutPath, value: Option<real>): Table {
    if value.Some? then Set(Set(t, slot, Some(Kwh(value.value))), total, Some(Kwh(value.value)))
    else Set(t, slot, Some(0.0))
  }

  /** Voltage, current and power of the destination phase, and the total
      power (lines 280-288). */
  function WriteReading(t: Table, plan: Plan, r: Reading): Table {
    var d := plan.destination;
    var power := Signed(plan, r.power);
    var t1 := Set(t, PhaseValue(d, Voltage), Some(r.voltage));
    var t2 := Set(t1, PhaseValue(d, Current), Some(Signed(plan, r.current)));
    var t3 := Set(t2, PhaseValue(d, Power), Some(power));
    Set(t3, AcPower, Some(power))
  }

  /** The destination phase's branch of the loop body (lines 273-319). */
  function DestinationStep(t: Table, plan: Plan, meter: Json, energy: Json): Table {
    match ReadSource(meter, plan.source)
    case None => t
    case Some(r) =>
      var d := plan.destination;
      var t4 := WriteReading(t, plan, r);
      var (fk, rk) := EnergyKeys(plan.source, plan.energyType);
      var t5 := EnergySlot(t4, PhaseValue(d, EnergyForward), AcEnergyForward, Field(energy, fk));
      EnergySlot(t5, PhaseValue(d, EnergyReverse), AcEnergyReverse, Field(energy, rk))
  }

  /** Any other phase is blanked (lines 323-328). */
  function NullPhase(t: Table, ph: Phase): Table {
    var t1 := Set(t, PhaseValue(ph, Voltage), None);
    var t2 := Set(t1, PhaseValue(ph, Current), None);
    var t3 := Set(t2, PhaseValue(ph, Power), None);
    var t4 := Set(t3, PhaseValue(ph, EnergyForward), None);
    Set(t4, PhaseValue(ph, EnergyReverse), None)
  }

  /** One pass of the loop over L1, L2, L3 (lines 267-328). */
  function PhaseStep(t: Table, plan: Plan, meter: Json, energy: Json, ph: Phase): Table {
    var t1 := Set(t, StatusCode, Some(7.0));
    if ph == plan.destination then DestinationStep(t1, plan, meter, energy)
    else NullPhase(t1, ph)
  }

  /** The loop run over a prefix of the phases. */
  function PhasesStep(t: Table, plan: Plan, meter: Json, energy: Json, phases: seq<Phase>): Table
    decreases |phases|
  {
    if phases == [] then t
    else PhaseStep(PhasesStep(t, plan, meter, energy, phases[..|phases| - 1]),
                   plan, meter, energy, phases[|phases| - 1])
  }

  /** Lines 333-335: add one, and restart at 0 past 255. */
  function NextIndex(v: real): real {
    if v + 1.0 > 255.0 then 0.0 else v + 1.0
  }

  /** `/UpdateIndex` holds a whole number from 0 to 255. */
  ghost predicate IndexInRange(t: Table) {
    && Name(UpdateIndex) in t
    && t[Name(UpdateIndex)].Some?
    && 0.0 <= t[Name(UpdateIndex)].value <= 255.0
    && t[Name(UpdateIndex)].value.Floor as real == t[Name(UpdateIndex)].value
  }

  /** How a cycle ended: it published, it found a fetch without data, or an
      exception ended it and was logged at line 342. */
  datatype Outcome = Completed | NoNewData | Aborted

  /** The part of the cycle after the checks (lines 264-339): the loop over
      the phases, then the index and `/Mode`. */
  function Publish(t: Table, plan: Plan, meter: Json, energy: Json): (Table, Outcome) {
    var t3 := PhasesStep(t, plan, meter, energy, Phases);
    var index := if Name(UpdateIndex) in t3 then t3[Name(UpdateIndex)] else None;
    if index.None? then (t3, Aborted)  // `None + 1`, or an unregistered path, raises
    else (Set(Set(t3, UpdateIndex, Some(NextIndex(index.value))), Mode, Some(0.0)), Completed)
  }

  /** `_update`: the new table and how the cycle ended. */
  function Run(t: Table, s: Settings, status: Fetch, energy: Fetch): (Table, Outcome) {
    var t1 := FetchTable(t, status);
    if FetchResult(status).Raised? then (t1, Aborted)
    else
      var t2 := FetchTable(t1, energy);
      if FetchResult(energy).Raised? then (t2, Aborted)
      else if FetchResult(status).NoData? || FetchResult(energy).NoData? then (t2, NoNewData)
      else match Validate(s)
        case None => (t2, Aborted)
        case Some(plan) => Publish(t2, plan, FetchResult(status).data, FetchResult(energy).data)
  }
}
