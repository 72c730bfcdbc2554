/** The service's D-Bus value table: named paths such as `/Ac/L1/Power`,
    each holding a number or no value (Python `None`). Only the paths that
    one update cycle writes are named here. */
module ServicePaths {
  import opened Wrappers

  /** A destination phase on the D-Bus record. */
  datatype Phase = L1 | L2 | L3

  /** The five per-phase quantities the service publishes. */
  datatype Quantity = Voltage | Current | Power | EnergyForward | EnergyReverse

  /** The paths an update cycle writes. */
  datatype OutPath =
    | Connected
    | StatusCode
    | UpdateIndex
    | Mode
    | AcPower
    | AcEnergyForward
    | AcEnergyReverse
    | PhaseValue(phase: Phase, quantity: Quantity)

  /** The order in which the cycle visits the phases. */
  const Phases: seq<Phase> := [L1, L2, L3]

  /** Every path the cycle writes, in the order the constructor registers them. */
  const AllPaths: seq<OutPath> :=
    [Connected, UpdateIndex, StatusCode, Mode, AcEnergyForward, AcEnergyReverse, AcPower]
    + [PhaseValue(L1, Voltage), PhaseValue(L2, Voltage), PhaseValue(L3, Voltage),
       PhaseValue(L1, Current), PhaseValue(L2, Current), PhaseValue(L3, Current),
       PhaseValue(L1, Power), PhaseValue(L2, Power), PhaseValue(L3, Power),
       PhaseValue(L1, EnergyForward), PhaseValue(L2, EnergyForward), PhaseValue(L3, EnergyForward),
       PhaseValue(L1, EnergyReverse), PhaseValue(L2, EnergyReverse), PhaseValue(L3, EnergyReverse)]

  lemma AllPathsListed(p: OutPath)
    ensures p in AllPaths
  {
    match p
    case PhaseValue(ph, q) =>
      var column := match ph case L1 => 0 case L2 => 1 case L3 => 2;
      var row := match q
        case Voltage => 0 case Current => 1 case Power => 2
        case EnergyForward => 3 case EnergyReverse => 4;
      assert AllPaths[7 + 3 * row + column] == p;
    case _ =>
      assert p in AllPaths[..7];
  }

  function PhaseName(ph: Phase): string {
    match ph
    case L1 => "L1"
    case L2 => "L2"
    case L3 => "L3"
  }

  function QuantityName(q: Quantity): string {
    match q
    case Voltage => "Voltage"
    case Current => "Current"
    case Power => "Power"
    case EnergyForward => "Energy/Forward"
    case EnergyReverse => "Energy/Reverse"
  }

  /** The D-Bus path string of each path. */
  function Name(p: OutPath): string {
    match p
    case Connected => "/Connected"
    case StatusCode => "/StatusCode"
    case UpdateIndex => "/UpdateIndex"
    case Mode => "/Mode"
    case AcPower => "/Ac/Power"
    case AcEnergyForward => "/Ac/Energy/Forward"
    case AcEnergyReverse => "/Ac/Energy/Reverse"
    case PhaseValue(ph, q) => "/Ac/" + PhaseName(ph) + "/" + QuantityName(q)
  }

  /** Different paths have different names, so writing one path never
      disturbs another. */
  lemma NameInjective(p: OutPath, q: OutPath)
    requires Name(p) == Name(q)
    ensures p == q
  {
    var a, b := Name(p), Name(q);
    assert |a| == |b|;
    assert a[1] == b[1];
    if |a| > 5 {
      assert a[4] == b[4] && a[5] == b[5];
    }
    if |a| > 7 {
      assert a[7] == b[7];
    }
    if |a| == 18 {
      assert a[11] == b[11];
    }
    if |a| == 21 {
      assert a[14] == b[14];
    }
  }

  lemma NamesDistinct()
    ensures forall p, q {:trigger Name(p), Name(q)} :: Name(p) == Name(q) ==> p == q
  {
    forall p, q | Name(p) == Name(q) ensures p == q {
      NameInjective(p, q);
    }
  }

  /** The table of published values. */
  type Table = map<string, Option<real>>

  /** Every path the cycle writes is registered. */
  ghost predicate Registered(t: Table) {
    forall p :: Name(p) in t
  }

  /** `self._dbusservice[path] = v`. */
  function Set(t: Table, p: OutPath, v: Option<real>): Table {
    t[Name(p) := v]
  }

  /** Writing one path leaves every other path as it was. */
  lemma SetAt(t: Table, p: OutPath, v: Option<real>, q: OutPath)
    requires Name(q) in t || q == p
    ensures Name(q) in Set(t, p, v)
    ensures Set(t, p, v)[Name(q)] == if q == p then v else t[Name(q)]
  {
    if q != p && Name(q) == Name(p) {
      NameInjective(q, p);
    }
  }

  lemma SetKeepsRegistered(t: Table, p: OutPath, v: Option<real>)
    requires Registered(t)
    ensures Registered(Set(t, p, v))
  {
  }

  /** A JSON object as the meter returns it: a number, or JSON null, per key. */
  type Json = map<string, Option<real>>

  /** Python's `d.get(key)`: None when the key is absent or holds null. */
  function Field(d: Json, key: string): (v: Option<real>)
    ensures v.Some? ==> key in d && d[key] == v
    ensures key in d ==> v == d[key]
  {
    if key in d then d[key] else None
  }
}
