/** The numeric side of the page's display: the height and weight tiles in
    the selected unit system, and the marker on the BMI scale. */
module Display {
  import opened Numbers
  import opened Measurement

  /** A height tile: centimetres, or whole feet and whole inches. */
  datatype HeightDisplay = Centimetres(cm: real) | FeetInches(feet: int, inches: int)

  /** A weight tile. */
  datatype WeightDisplay = Kilograms(kg: real) | Pounds(lb: real)

  /** `formatHeight`. A non-finite or non-positive height shows the sentinel
      (`None`). Otherwise centimetres convert back to the metres exactly, and
      the feet are the whole feet of the height, the inches are the remaining
      inches rounded half up (0 <= inches <= 12), and together they lie within
      half an inch of the height. An inch count that rounds up to 12 is not
      carried into the feet. */
  function FormatHeight(unit: Unit, heightM: Num): (d: Option<HeightDisplay>)
    ensures d.None? <==> !IsPositive(heightM)
    ensures d.Some? && unit == Metric ==>
      d.value.Centimetres? && d.value.cm / CmPerM == heightM.value
    ensures d.Some? && unit == Imperial ==>
      && d.value.FeetInches?
      && d.value.feet >= 0
      && 0 <= d.value.inches <= 12
      && d.value.feet as real * InchesPerFoot <= heightM.value / InchToM
      && heightM.value / InchToM < d.value.feet as real * InchesPerFoot + InchesPerFoot
      && heightM.value / InchToM - 0.5
         < d.value.feet as real * InchesPerFoot + d.value.inches as real
         <= heightM.value / InchToM + 0.5
  {
    if heightM.NonFinite? || heightM.value <= 0.0 then None
    else
      match unit
      case Metric => Some(Centimetres(heightM.value * CmPerM))
      case Imperial =>
        var totalIn := heightM.value / InchToM;
        var feet := Floor(totalIn / InchesPerFoot);
        var inches := Round(totalIn - feet as real * InchesPerFoot);
        Some(FeetInches(feet, inches))
  }

  /** `formatWeight`. A non-finite or non-positive weight shows the sentinel.
      Kilograms pass through; pounds convert back to the kilograms exactly. */
  function FormatWeight(unit: Unit, weightKg: Num): (d: Option<WeightDisplay>)
    ensures d.None? <==> !IsPositive(weightKg)
    ensures d.Some? && unit == Metric ==> d.value == Kilograms(weightKg.value)
    ensures d.Some? && unit == Imperial ==>
      d.value.Pounds? && d.value.lb > 0.0 && d.value.lb / KgToLb == weightKg.value
  {
    if weightKg.NonFinite? || weightKg.value <= 0.0 then None
    else
      match unit
      case Metric => Some(Kilograms(weightKg.value))
      case Imperial => Some(Pounds(weightKg.value * KgToLb))
  }

  /** Ends of the drawn BMI scale. */
  const ScaleMin: real := 12.0
  const ScaleMax: real := 40.0

  /** Position of the scale marker, as a percentage of the scale's width:
      always on the scale, proportional inside it, pinned at its ends. */
  function MarkerPosition(bmi: real): (p: real)
    ensures 0.0 <= p <= 100.0
    ensures ScaleMin <= bmi <= ScaleMax ==> p * (ScaleMax - ScaleMin) == (bmi - ScaleMin) * 100.0
    ensures bmi <= ScaleMin ==> p == 0.0
    ensures bmi >= ScaleMax ==> p == 100.0
  {
    Min(100.0, Max(0.0, ((bmi - ScaleMin) / (ScaleMax - ScaleMin)) * 100.0))
  }

  /** The marker is placed only for a finite BMI; otherwise it is moved off
      the scale (`None`). */
  function Marker(bmi: Num): (p: Option<real>)
    ensures p.Some? <==> bmi.Finite?
    ensures p.Some? ==> 0.0 <= p.value <= 100.0
    ensures bmi.Finite? ==> p == Some(MarkerPosition(bmi.value))
  {
    match bmi
    case Finite(x) => Some(MarkerPosition(x))
    case NonFinite => None
  }

  /** A higher BMI never moves the marker to the left. */
  lemma MarkerMonotone(a: real, b: real)
    requires a <= b
    ensures MarkerPosition(a) <= MarkerPosition(b)
  {
  }

  /** Metric tiles show exactly the centimetres and kilograms that were entered. */
  lemma MetricTilesRoundTrip(f: Fields)
    requires ValidInputs(Metric, f)
    ensures var c := Calculate(Metric, f);
      FormatHeight(Metric, Finite(c.heightM)) == Some(Centimetres(f.cm.value))
      && FormatWeight(Metric, Finite(c.weightKg)) == Some(Kilograms(f.kg.value))
  {
  }

  /** The imperial weight tile shows the pounds entered, less at most one part
      in 10^8 (the two conversion factors are not exact inverses). */
  lemma ImperialWeightRoundTrip(f: Fields)
    requires ValidInputs(Imperial, f)
    ensures var d := FormatWeight(Imperial, Finite(Calculate(Imperial, f).weightKg));
      d.Some? && d.value.Pounds?
      && f.lb.value - f.lb.value / 100000000.0 < d.value.lb < f.lb.value
  {
  }

  /** An imperial height entered as whole feet and fewer than 12 whole inches
      is shown back exactly as entered. */
  lemma WholeFeetInchesRoundTrip(f: Fields, feet: nat, inches: nat)
    requires ValidInputs(Imperial, f)
    requires f.ft == Finite(feet as real) && f.inch == Finite(inches as real) && inches < 12
    ensures FormatHeight(Imperial, Finite(Calculate(Imperial, f).heightM)) == Some(FeetInches(feet, inches))
  {
    var totalIn := Calculate(Imperial, f).heightM / InchToM;
    assert totalIn == feet as real * InchesPerFoot + inches as real;
    assert Floor(totalIn / InchesPerFoot) == feet;
    assert Round(totalIn - feet as real * InchesPerFoot) == inches;
  }

  /** Without a carry into the feet, a height of 71.6 inches shows as 5 ft 12 in. */
  lemma TwelveInchesShown()
    ensures FormatHeight(Imperial, Finite(71.6 * InchToM)) == Some(FeetInches(5, 12))
  {
  }
}
