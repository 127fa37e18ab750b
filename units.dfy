/** The unit converter: four tables of factors to a base unit per quantity,
    linear conversion through their merge, the temperature formulas, and the
    component state that picks units and converts the entered value. */
module UnitConversionEngine {
  import opened Numbers
  import opened Text
  import opened NumberParsing

  // ---------------------------------------------------------------------------
  // Units, factor tables and unit lists

  /** The units the buttons offer, one constructor per label: "mm" "cm" "m" "km"
      "in" "ft" "yd" "mi"; "ml" "cl" "l" "cm³" "m³" "tsp" "tbsp" "cup" "pt"
      "fl-oz" "qt" "gal"; "mg" "g" "kg" "t" "oz" "lb"; "mm2" "cm2" "m2" "km2" "a"
      "ha" "in2" "ft2" "yd2" "Acre"; "°C" "°F" "K". */
  datatype Unit =
    | Mm | Cm | M | Km | In | Ft | Yd | Mi
    | Ml | Cl | L | Cm3 | M3 | Tsp | Tbsp | Cup | Pt | FlOz | Qt | Gal
    | Mg | G | Kg | T | Oz | Lb
    | Mm2 | Cm2 | M2 | Km2 | A | Ha | In2 | Ft2 | Yd2 | Acre
    | Celsius | Fahrenheit | Kelvin

  /** The four factor tables as lookups; a unit a table lacks reads as `None`, as
      a missing key of an object reads as `undefined`. Centimetres per unit. */
  function LengthFactor(u: Unit): Option<real> {
    match u
    case Mm => Some(0.1) case Cm => Some(1.0) case M => Some(100.0) case Km => Some(100000.0)
    case In => Some(2.54) case Ft => Some(30.48) case Yd => Some(91.44) case Mi => Some(160934.4)
    case _ => None
  }

  /** Millilitres per unit. */
  function VolumeFactor(u: Unit): Option<real> {
    match u
    case Ml => Some(1.0) case Cl => Some(10.0) case L => Some(1000.0) case Cm3 => Some(1.0)
    case M3 => Some(1000000.0) case Tsp => Some(4.929) case Tbsp => Some(14.787)
    case Cup => Some(240.0) case Pt => Some(473.176) case FlOz => Some(29.5735)
    case Qt => Some(946.353) case Gal => Some(3785.41)
    case _ => None
  }

  /** Grams per unit. */
  function WeightFactor(u: Unit): Option<real> {
    match u
    case Mg => Some(0.001) case G => Some(1.0) case Kg => Some(1000.0) case T => Some(1000000.0)
    case Oz => Some(28.3495) case Lb => Some(453.592)
    case _ => None
  }

  /** Square centimetres per unit. */
  function AreaFactor(u: Unit): Option<real> {
    match u
    case Mm2 => Some(0.01) case Cm2 => Some(1.0) case M2 => Some(10000.0)
    case Km2 => Some(10000000000.0) case A => Some(1000000.0) case Ha => Some(100000000.0)
    case In2 => Some(6.4516) case Ft2 => Some(929.0304) case Yd2 => Some(8361.27)
    case Acre => Some(40468564.224)
    case _ => None
  }

  /** Reading `a` over `b`, as `{ ...b, ...a }` does: the later table wins. */
  function Over(a: Option<real>, b: Option<real>): Option<real> {
    if a.Some? then a else b
  }

  /** The merged lookup `{ ...length, ...volume, ...weight, ...area }`. */
  function AllFactor(u: Unit): (f: Option<real>)
    ensures f.Some? <==>
      LengthFactor(u).Some? || VolumeFactor(u).Some? || WeightFactor(u).Some? || AreaFactor(u).Some?
  {
    Over(AreaFactor(u), Over(WeightFactor(u), Over(VolumeFactor(u), LengthFactor(u))))
  }

  /** The unit buttons, section by section, in their order on screen. */
  const LengthUnits: seq<Unit> := [Mm, Cm, M, Km, In, Ft, Yd, Mi]
  const VolumeUnits: seq<Unit> := [Ml, L, Cm3, M3, Tsp, Tbsp, Cup, Pt, FlOz, Gal, Qt, Cl]
  const WeightUnits: seq<Unit> := [Mg, G, Kg, T, Oz, Lb]
  const AreaUnits: seq<Unit> := [Mm2, Cm2, M2, Km2, A, Ha, In2, Ft2, Yd2, Acre]
  const TemperUnits: seq<Unit> := [Celsius, Fahrenheit, Kelvin]

  /** The label of a unit: its key in the factor tables and the text of its button. */
  function Label(u: Unit): string {
    match u
    case Mm => "mm" case Cm => "cm" case M => "m" case Km => "km"
    case In => "in" case Ft => "ft" case Yd => "yd" case Mi => "mi"
    case Ml => "ml" case Cl => "cl" case L => "l" case Cm3 => "cm\U{B3}" case M3 => "m\U{B3}"
    case Tsp => "tsp" case Tbsp => "tbsp" case Cup => "cup" case Pt => "pt"
    case FlOz => "fl-oz" case Qt => "qt" case Gal => "gal"
    case Mg => "mg" case G => "g" case Kg => "kg" case T => "t" case Oz => "oz" case Lb => "lb"
    case Mm2 => "mm2" case Cm2 => "cm2" case M2 => "m2" case Km2 => "km2" case A => "a"
    case Ha => "ha" case In2 => "in2" case Ft2 => "ft2" case Yd2 => "yd2" case Acre => "Acre"
    case Celsius => "\U{B0}C" case Fahrenheit => "\U{B0}F" case Kelvin => "K"
  }

  /** Labels tell the units apart, so the keys of the merged table are the units
      themselves. */
  lemma LabelsDistinct(a: Unit, b: Unit)
    ensures Label(a) == Label(b) ==> a == b
  {
    LabelRead(a);
    LabelRead(b);
  }

  /** The unit whose label s is, compared character by character. */
  function UnitOfLabel(s: string): Option<Unit> {
    if |s| == 2 && s[0] == 'm' && s[1] == 'm' then Some(Mm)
    else if |s| == 2 && s[0] == 'c' && s[1] == 'm' then Some(Cm)
    else if |s| == 1 && s[0] == 'm' then Some(M)
    else if |s| == 2 && s[0] == 'k' && s[1] == 'm' then Some(Km)
    else if |s| == 2 && s[0] == 'i' && s[1] == 'n' then Some(In)
    else if |s| == 2 && s[0] == 'f' && s[1] == 't' then Some(Ft)
    else if |s| == 2 && s[0] == 'y' && s[1] == 'd' then Some(Yd)
    else if |s| == 2 && s[0] == 'm' && s[1] == 'i' then Some(Mi)
    else if |s| == 2 && s[0] == 'm' && s[1] == 'l' then Some(Ml)
    else if |s| == 2 && s[0] == 'c' && s[1] == 'l' then Some(Cl)
    else if |s| == 1 && s[0] == 'l' then Some(L)
    else if |s| == 3 && s[0] == 'c' && s[1] == 'm' && s[2] == '\U{B3}' then Some(Cm3)
    else if |s| == 2 && s[0] == 'm' && s[1] == '\U{B3}' then Some(M3)
    else if |s| == 3 && s[0] == 't' && s[1] == 's' && s[2] == 'p' then Some(Tsp)
    else if |s| == 4 && s[0] == 't' && s[1] == 'b' && s[2] == 's' && s[3] == 'p' then Some(Tbsp)
    else if |s| == 3 && s[0] == 'c' && s[1] == 'u' && s[2] == 'p' then Some(Cup)
    else if |s| == 2 && s[0] == 'p' && s[1] == 't' then Some(Pt)
    else if |s| == 5 && s[0] == 'f' && s[1] == 'l' && s[2] == '-' && s[3] == 'o' && s[4] == 'z' then Some(FlOz)
    else if |s| == 2 && s[0] == 'q' && s[1] == 't' then Some(Qt)
    else if |s| == 3 && s[0] == 'g' && s[1] == 'a' && s[2] == 'l' then Some(Gal)
    else if |s| == 2 && s[0] == 'm' && s[1] == 'g' then Some(Mg)
    else if |s| == 1 && s[0] == 'g' then Some(G)
    else if |s| == 2 && s[0] == 'k' && s[1] == 'g' then Some(Kg)
    else if |s| == 1 && s[0] == 't' then Some(T)
    else if |s| == 2 && s[0] == 'o' && s[1] == 'z' then Some(Oz)
    else if |s| == 2 && s[0] == 'l' && s[1] == 'b' then Some(Lb)
    else if |s| == 3 && s[0] == 'm' && s[1] == 'm' && s[2] == '2' then Some(Mm2)
    else if |s| == 3 && s[0] == 'c' && s[1] == 'm' && s[2] == '2' then Some(Cm2)
    else if |s| == 2 && s[0] == 'm' && s[1] == '2' then Some(M2)
    else if |s| == 3 && s[0] == 'k' && s[1] == 'm' && s[2] == '2' then Some(Km2)
    else if |s| == 1 && s[0] == 'a' then Some(A)
    else if |s| == 2 && s[0] == 'h' && s[1] == 'a' then Some(Ha)
    else if |s| == 3 && s[0] == 'i' && s[1] == 'n' && s[2] == '2' then Some(In2)
    else if |s| == 3 && s[0] == 'f' && s[1] == 't' && s[2] == '2' then Some(Ft2)
    else if |s| == 3 && s[0] == 'y' && s[1] == 'd' && s[2] == '2' then Some(Yd2)
    else if |s| == 4 && s[0] == 'A' && s[1] == 'c' && s[2] == 'r' && s[3] == 'e' then Some(Acre)
    else if |s| == 2 && s[0] == '\U{B0}' && s[1] == 'C' then Some(Celsius)
    else if |s| == 2 && s[0] == '\U{B0}' && s[1] == 'F' then Some(Fahrenheit)
    else if |s| == 1 && s[0] == 'K' then Some(Kelvin)
    else None
  }

  /** Every label is read back as its own unit. */
  lemma LabelRead(u: Unit)
    ensures UnitOfLabel(Label(u)) == Some(u)
  {
  }

  /** No unit is in two tables, so the merge loses no entry: every table's factor
      survives the merge unchanged. */
  lemma MergeKeepsFactors(u: Unit)
    ensures LengthFactor(u).Some? ==> AllFactor(u) == LengthFactor(u)
    ensures VolumeFactor(u).Some? ==> AllFactor(u) == VolumeFactor(u)
    ensures WeightFactor(u).Some? ==> AllFactor(u) == WeightFactor(u)
    ensures AreaFactor(u).Some? ==> AllFactor(u) == AreaFactor(u)
  {
  }

  /** Each section's buttons are exactly the units of its table. */
  lemma LengthUnitsMatch(u: Unit)
    ensures u in LengthUnits <==> LengthFactor(u).Some?
  {
  }

  lemma VolumeUnitsMatch(u: Unit)
    ensures u in VolumeUnits <==> VolumeFactor(u).Some?
  {
  }

  lemma WeightUnitsMatch(u: Unit)
    ensures u in WeightUnits <==> WeightFactor(u).Some?
  {
  }

  lemma AreaUnitsMatch(u: Unit)
    ensures u in AreaUnits <==> AreaFactor(u).Some?
  {
  }

  /** A unit is in the merged table exactly when it is not a temperature scale. */
  lemma EveryUnitConverts(u: Unit)
    ensures AllFactor(u).Some? <==> u !in TemperUnits
  {
  }

  /** Every factor is positive, so dividing by one is always defined. */
  lemma FactorsPositive(u: Unit)
    ensures AllFactor(u).Some? ==> AllFactor(u).value > 0.0
  {
  }

  // ---------------------------------------------------------------------------
  // Linear conversion

  /** `convert(value, from, to)`: to the base unit and back out. A unit missing
      from the merged table makes the factor `undefined` and the result NaN. Units
      of different quantities are not told apart. */
  function ConvertLinear(value: real, from: Unit, to: Unit): (r: Num)
    ensures r.Fin? <==> AllFactor(from).Some? && AllFactor(to).Some?
  {
    if AllFactor(from).Some? && AllFactor(to).Some? then
      FactorsPositive(to);
      Fin(Rescale(value, AllFactor(from).value, AllFactor(to).value))
    else NaN
  }

  /** A value in a unit of factor f, expressed in a unit of factor g. */
  function Rescale(x: real, f: real, g: real): real
    requires g > 0.0
  {
    x * f / g
  }

  lemma ScaleCancel(x: real, f: real)
    requires f > 0.0
    ensures Rescale(x, f, f) == x
  {
  }

  lemma ScaleChain(x: real, a: real, b: real, c: real)
    requires a > 0.0 && b > 0.0 && c > 0.0
    ensures Rescale(Rescale(x, a, b), b, c) == Rescale(x, a, c)
  {
    var y := x * a;
    assert y / b * b == y;
  }

  lemma ConvertIdentity(v: real, u: Unit)
    requires AllFactor(u).Some?
    ensures ConvertLinear(v, u, u) == Fin(v)
  {
    FactorsPositive(u);
    ScaleCancel(v, AllFactor(u).value);
  }

  /** Converting a → b and then b → c is converting a → c. */
  lemma ConvertCompose(v: real, a: Unit, b: Unit, c: Unit)
    requires AllFactor(a).Some? && AllFactor(b).Some? && AllFactor(c).Some?
    ensures ConvertLinear(ConvertLinear(v, a, b).v, b, c) == ConvertLinear(v, a, c)
  {
    FactorsPositive(a);
    FactorsPositive(b);
    FactorsPositive(c);
    ScaleChain(v, AllFactor(a).value, AllFactor(b).value, AllFactor(c).value);
  }

  /** Converting there and back gives the value back. */
  lemma ConvertRoundTrip(v: real, a: Unit, b: Unit)
    requires AllFactor(a).Some? && AllFactor(b).Some?
    ensures ConvertLinear(ConvertLinear(v, a, b).v, b, a) == Fin(v)
  {
    ConvertCompose(v, a, b, a);
    ConvertIdentity(v, a);
  }

  lemma HundredCentimetres()
    ensures ConvertLinear(100.0, Cm, M) == Fin(1.0)
  {
  }

  /** Nothing stops a conversion between quantities: centimetres to grams. */
  lemma AcrossQuantities(v: real)
    ensures ConvertLinear(v, Cm, G) == Fin(v)
  {
  }

  // ---------------------------------------------------------------------------
  // Temperature

  /** The value in °C, for the three known scales. */
  function ToCelsius(value: real, from: Unit): (c: Option<real>)
    ensures c.Some? <==> from in TemperUnits
  {
    if from == Celsius then Some(value)
    else if from == Fahrenheit then Some((value - 32.0) * 5.0 / 9.0)
    else if from == Kelvin then Some(value - 273.15)
    else None
  }

  /** A value in °C on one of the three known scales. */
  function FromCelsius(c: real, to: Unit): (t: Option<real>)
    ensures t.Some? <==> to in TemperUnits
  {
    if to == Celsius then Some(c)
    else if to == Fahrenheit then Some(c * 9.0 / 5.0 + 32.0)
    else if to == Kelvin then Some(c + 273.15)
    else None
  }

  /** `convertTemperature(value, from, to)`: the value itself for equal units,
      otherwise through °C; NaN when either unit is not a temperature scale. */
  function ConvertTemperature(value: real, from: Unit, to: Unit): (r: Num)
    ensures r.Fin? <==> from == to || (from in TemperUnits && to in TemperUnits)
    ensures from == to ==> r == Fin(value)
  {
    if from == to then Fin(value)
    else
      match ToCelsius(value, from)
      case None => NaN
      case Some(c) =>
        match FromCelsius(c, to)
        case None => NaN
        case Some(t) => Fin(t)
  }

  lemma CelsiusRoundTrip(v: real, u: Unit)
    requires u in TemperUnits
    ensures FromCelsius(v, u).Some? && ToCelsius(FromCelsius(v, u).value, u) == Some(v)
    ensures ToCelsius(v, u).Some? && FromCelsius(ToCelsius(v, u).value, u) == Some(v)
  {
  }

  /** For two scales, converting is going to °C and out again, also when they are
      the same scale. */
  lemma ThroughCelsius(v: real, a: Unit, b: Unit)
    requires a in TemperUnits && b in TemperUnits
    ensures ConvertTemperature(v, a, b) == Fin(FromCelsius(ToCelsius(v, a).value, b).value)
  {
    CelsiusRoundTrip(v, a);
  }

  /** Converting a → b and then b → c is converting a → c. */
  lemma TemperatureCompose(v: real, a: Unit, b: Unit, c: Unit)
    requires a in TemperUnits && b in TemperUnits && c in TemperUnits
    ensures ConvertTemperature(ConvertTemperature(v, a, b).v, b, c) == ConvertTemperature(v, a, c)
  {
    ThroughCelsius(v, a, b);
    var w := ConvertTemperature(v, a, b).v;
    ThroughCelsius(w, b, c);
    ThroughCelsius(v, a, c);
    CelsiusRoundTrip(ToCelsius(v, a).value, b);
  }

  /** Converting there and back gives the value back. */
  lemma TemperatureRoundTrip(v: real, a: Unit, b: Unit)
    requires a in TemperUnits && b in TemperUnits
    ensures ConvertTemperature(ConvertTemperature(v, a, b).v, b, a) == Fin(v)
  {
    TemperatureCompose(v, a, b, a);
  }

  /** The fixed points named for the formulas. */
  lemma TemperatureFacts(v: real)
    ensures ConvertTemperature(0.0, Celsius, Fahrenheit) == Fin(32.0)
    ensures ConvertTemperature(212.0, Fahrenheit, Celsius) == Fin(100.0)
    ensures ConvertTemperature(v, Celsius, Kelvin) == Fin(v + 273.15)
    ensures ConvertTemperature(v, Celsius, Celsius) == Fin(v)
  {
  }

  /** The two ways a conversion goes: the temperature formulas when both units
      are temperature scales, the factor tables otherwise. */
  function Converted(value: real, from: Unit, to: Unit): Num {
    if from in TemperUnits && to in TemperUnits then ConvertTemperature(value, from, to)
    else ConvertLinear(value, from, to)
  }

  /** The conversion gives a number exactly when both units are temperature scales
      or neither is. */
  lemma ConvertedFinite(v: real, from: Unit, to: Unit)
    ensures Converted(v, from, to).Fin? <==> (from in TemperUnits <==> to in TemperUnits)
  {
    if from in TemperUnits && to in TemperUnits {
      assert Converted(v, from, to) == ConvertTemperature(v, from, to);
    } else {
      assert Converted(v, from, to) == ConvertLinear(v, from, to);
      EveryUnitConverts(from);
      EveryUnitConverts(to);
    }
  }

  // ---------------------------------------------------------------------------
  // The component

  /** Which of the two value fields last had the focus. */
  datatype Side = From | To

  /** The five state fields; a unit field that is still '' is `None`. */
  datatype UnitState = UnitState(activeInput: Side, fromValue: string, toValue: string,
                                 fromUnit: Option<Unit>, toUnit: Option<Unit>)

  const InitialUnits := UnitState(From, "", "", None, None)

  /** `fromValue.replace(',', '.')`: the first comma, and only that one, becomes a
      point. */
  function ReplaceFirstComma(s: string): (r: string)
    ensures |r| == |s|
    ensures forall i :: 0 <= i < |s| && s[i] == ',' && ',' !in s[..i] ==> r[i] == '.'
    ensures forall i :: 0 <= i < |s| && !(s[i] == ',' && ',' !in s[..i]) ==> r[i] == s[i]
  {
    if s == [] then []
    else if s[0] == ',' then
      var r := "." + s[1..];
      assert forall i :: 0 < i < |s| ==> ',' in s[..i] by {
        forall i | 0 < i < |s| ensures ',' in s[..i] { assert s[..i][0] == ','; }
      }
      r
    else
      var t := ReplaceFirstComma(s[1..]);
      var r := [s[0]] + t;
      assert forall i :: 0 < i < |s| ==> (',' in s[..i] <==> ',' in s[1..][..i - 1]) by {
        forall i | 0 < i < |s| ensures ',' in s[..i] <==> ',' in s[1..][..i - 1] {
          assert s[..i] == [s[0]] + s[1..][..i - 1];
        }
      }
      r
  }

  /** `Number.prototype.toString` is a parameter; NaN is written "NaN". */
  function NumText(n: Num, render: real -> string): string {
    if n.NaN? then "NaN" else render(n.v)
  }

  /** The guard of `handleConvert`: a value and both units are present. */
  predicate ConvertReady(s: UnitState) {
    s.fromValue != "" && s.fromUnit.Some? && s.toUnit.Some?
  }

  /** The entered value as `handleConvert` reads it. */
  function EnteredValue(s: UnitState): Num {
    NumberOf(ReplaceFirstComma(s.fromValue))
  }

  /** `handleConvert`: without a value, a unit, or a value that reads as a number
      nothing happens; otherwise only the result field changes, to the text of the
      converted value. */
  function ConvertStep(s: UnitState, render: real -> string): (r: UnitState)
    ensures r.activeInput == s.activeInput && r.fromValue == s.fromValue
    ensures r.fromUnit == s.fromUnit && r.toUnit == s.toUnit
    ensures !ConvertReady(s) || EnteredValue(s).NaN? ==> r == s
    ensures ConvertReady(s) && EnteredValue(s).Fin? ==>
      r.toValue == NumText(Converted(EnteredValue(s).v, s.fromUnit.value, s.toUnit.value), render)
  {
    if !ConvertReady(s) then s
    else
      var val := EnteredValue(s);
      if val.NaN? then s
      else s.(toValue := NumText(Converted(val.v, s.fromUnit.value, s.toUnit.value), render))
  }

  /** `handleUnitClick(unit)`: the unit goes to the side that last had the focus. */
  function UnitClickStep(s: UnitState, unit: Unit): (r: UnitState)
    ensures s.activeInput == From ==> r == s.(fromUnit := Some(unit))
    ensures s.activeInput == To ==> r == s.(toUnit := Some(unit))
  {
    if s.activeInput == From then s.(fromUnit := Some(unit)) else s.(toUnit := Some(unit))
  }

  /** `handleReverse`: units and values change sides together. */
  function ReverseStep(s: UnitState): (r: UnitState)
    ensures r.fromUnit == s.toUnit && r.toUnit == s.fromUnit
    ensures r.fromValue == s.toValue && r.toValue == s.fromValue
    ensures r.activeInput == s.activeInput
  {
    UnitState(s.activeInput, s.toValue, s.fromValue, s.toUnit, s.fromUnit)
  }

  /** `handleCancel`: the four text fields are emptied; the focus side stays. */
  function CancelStep(s: UnitState): (r: UnitState)
    ensures r.fromValue == "" && r.toValue == "" && r.fromUnit.None? && r.toUnit.None?
    ensures r.activeInput == s.activeInput
  {
    UnitState(s.activeInput, "", "", None, None)
  }

  lemma ReverseInvolution(s: UnitState)
    ensures ReverseStep(ReverseStep(s)) == s
  {
  }

  lemma CancelIdempotent(s: UnitState)
    ensures CancelStep(CancelStep(s)) == CancelStep(s)
  {
  }

  /** An entered "1,5" is read as 1.5: 1,5 m is 150 cm. */
  lemma CommaValue(render: real -> string)
    ensures ConvertStep(UnitState(From, "1,5", "", Some(M), Some(Cm)), render).toValue == render(150.0)
  {
    var s := UnitState(From, "1,5", "", Some(M), Some(Cm));
    CommaReplaced();
    OneAndAHalf();
    assert EnteredValue(s) == Fin(1.5);
    MetresToCentimetres(1.5);
  }

  lemma MetresToCentimetres(v: real)
    ensures Converted(v, M, Cm) == Fin(v * 100.0)
  {
    assert M !in TemperUnits;
    assert AllFactor(M) == Some(100.0) && AllFactor(Cm) == Some(1.0);
    assert ConvertLinear(v, M, Cm) == Fin(v * 100.0 / 1.0);
  }

  lemma CommaReplaced()
    ensures ReplaceFirstComma("1,5") == "1.5"
  {
    var t := ReplaceFirstComma("1,5");
    assert t[0] == '1' && t[1] == '.' && t[2] == '5';
  }

  lemma OneAndAHalf()
    ensures NumberOf("1.5") == Fin(1.5)
  {
    assert "1.5" == "1" + "." + "5";
    ScanDecimal("1", "5");
    assert "1"[..0] == [] && "5"[..0] == [];
    assert DecimalValue("1", "5") == 1.5;
    NumberOfUnsigned("1.5", Literal(1.5, 3));
  }

  class UnitConverter {
    var activeInput: Side
    var fromValue: string
    var toValue: string
    var fromUnit: Option<Unit>
    var toUnit: Option<Unit>

    function State(): UnitState
      reads this
    {
      UnitState(activeInput, fromValue, toValue, fromUnit, toUnit)
    }

    constructor ()
      ensures State() == InitialUnits
    {
      activeInput := From;
      fromValue := "";
      toValue := "";
      fromUnit := None;
      toUnit := None;
    }

    /** `onFocus` of either value field. */
    method Focus(side: Side)
      modifies this
      ensures State() == old(State()).(activeInput := side)
    {
      activeInput := side;
    }

    /** `onChange` of the value field. */
    method EditFromValue(text: string)
      modifies this
      ensures State() == old(State()).(fromValue := text)
    {
      fromValue := text;
    }

    method HandleUnitClick(unit: Unit)
      modifies this
      ensures State() == UnitClickStep(old(State()), unit)
    {
      if activeInput == From {
        fromUnit := Some(unit);
      } else {
        toUnit := Some(unit);
      }
    }

    method HandleConvert(render: real -> string)
      modifies this
      ensures State() == ConvertStep(old(State()), render)
    {
      if fromValue == "" || fromUnit.None? || toUnit.None? {
        return;
      }
      var val := NumberOf(ReplaceFirstComma(fromValue));
      if val.NaN? {
        return;
      }
      var converted: Num;
      var from, to := fromUnit.value, toUnit.value;
      if from in TemperUnits && to in TemperUnits {
        converted := ConvertTemperature(val.v, from, to);
      } else {
        converted := ConvertLinear(val.v, from, to);
      }
      toValue := NumText(converted, render);
    }

    /** All four writes read the values from before the event. */
    method HandleReverse()
      modifies this
      ensures State() == ReverseStep(old(State()))
    {
      var fv, tv, fu, tu := fromValue, toValue, fromUnit, toUnit;
      fromUnit := tu;
      toUnit := fu;
      fromValue := tv;
      toValue := fv;
    }

    method HandleCancel()
      modifies this
      ensures State() == CancelStep(old(State()))
    {
      fromValue := "";
      toValue := "";
      fromUnit := None;
      toUnit := None;
    }
  }
}
