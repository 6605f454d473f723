/** One evaluation of the form, as the page runs it on every edit, unit
    switch and submit: check the inputs, then compute everything the result
    panel shows. */
module Evaluate {
  import opened Numbers
  import opened Measurement
  import opened Classification
  import opened WeightRange
  import opened Display

  /** Everything the result panel shows for valid inputs. */
  datatype Report = Report(
    bmi: real,
    category: Category,
    marker: Option<real>,
    height: Option<HeightDisplay>,
    weight: Option<WeightDisplay>,
    range: Option<Range>)

  /** The values the form starts with and returns to on reset. */
  const DefaultFields: Fields :=
    Fields(Finite(70.0), Finite(175.0), Finite(154.0), Finite(5.0), Finite(9.0))

  /** `update`. Invalid inputs blank the whole panel (`None`); otherwise the
      panel shows the computed BMI and its category, the marker at that BMI's
      place on the scale, both tiles for the canonical height and weight, and
      the healthy range for that height. */
  function EvaluateForm(unit: Unit, f: Fields): (r: Option<Report>)
    ensures r.Some? <==> ValidInputs(unit, f)
    ensures r.Some? ==>
      && r.value.bmi > 0.0
      && r.value.category != Unclassified
      && InBand(r.value.category, r.value.bmi)
      && r.value.marker.Some? && 0.0 <= r.value.marker.value <= 100.0
      && r.value.height.Some? && r.value.weight.Some? && r.value.range.Some?
    ensures r.Some? ==>
      var c := Calculate(unit, f);
      && r.value.bmi == c.bmi
      && r.value.category == Categorize(Finite(c.bmi))
      && r.value.marker == Some(MarkerPosition(c.bmi))
      && r.value.height == FormatHeight(unit, Finite(c.heightM))
      && r.value.weight == FormatWeight(unit, Finite(c.weightKg))
      && r.value.range == Some(HealthyRange(c.heightM))
  {
    if !ValidInputs(unit, f) then None
    else
      var c := Calculate(unit, f);
      var category := Categorize(Finite(c.bmi));
      CategorizeIsBand(c.bmi, category);
      var range := if c.heightM > 0.0 then Some(HealthyRange(c.heightM)) else None;
      Some(Report(c.bmi, category, Marker(Finite(c.bmi)),
                  FormatHeight(unit, Finite(c.heightM)), FormatWeight(unit, Finite(c.weightKg)),
                  range))
  }

  /** The healthy range shown is that of the entered height, and is ordered. */
  lemma RangeOfEnteredHeight(unit: Unit, f: Fields)
    requires ValidInputs(unit, f)
    ensures var r := EvaluateForm(unit, f).value.range.value;
      r == HealthyRange(Calculate(unit, f).heightM) && 0.0 < r.minKg < r.maxKg
  {
    RangeOrdered(Calculate(unit, f).heightM);
  }

  /** 70 kg at 175 cm: BMI 70 / 1.75^2 (about 22.86), Normal, healthy range
      56.65625 to 76.25625 kg. */
  lemma MetricDefaults()
    ensures var r := EvaluateForm(Metric, DefaultFields).value;
      && r.bmi == 70.0 / 3.0625 && 22.85 < r.bmi < 22.86
      && r.category == Normal
      && r.range == Some(HealthyRange(1.75))
      && r.range.value.minKg == 56.65625 && r.range.value.maxKg == 76.25625
      && r.height == Some(Centimetres(175.0)) && r.weight == Some(Kilograms(70.0))
  {
  }

  /** 154 lb at 5 ft 9 in: BMI 703 * 154 / 69^2 (about 22.74), Normal, and the
      tiles show 5 ft 9 in and just under 154 lb. */
  lemma ImperialDefaults()
    ensures var r := EvaluateForm(Imperial, DefaultFields).value;
      && r.bmi == 703.0 * 154.0 / 4761.0 && 22.73 < r.bmi < 22.74
      && r.category == Normal
      && r.height == Some(FeetInches(5, 9))
      && r.weight.value.Pounds? && 153.99 < r.weight.value.lb < 154.0
  {
  }

  /** 50 kg at 200 cm: BMI 12.5, Underweight; the marker sits at 25/14 percent
      of the scale (about 1.79), not at its left end. */
  lemma UnderweightExample()
    ensures var r := EvaluateForm(Metric, DefaultFields.(kg := Finite(50.0), cm := Finite(200.0))).value;
      && r.bmi == 12.5
      && r.category == Underweight
      && r.marker == Some(25.0 / 14.0) && 1.78 < r.marker.value < 1.79
  {
  }

  /** The uncarried 12 inches is reachable from the form: 5 ft 11.6 in is
      shown as 5 ft 12 in. */
  lemma TwelveInchesFromForm()
    ensures EvaluateForm(Imperial, DefaultFields.(inch := Finite(11.6))).value.height
      == Some(FeetInches(5, 12))
  {
    TwelveInchesShown();
  }

  /** Rejected inputs blank the panel; a height in inches alone is accepted. */
  lemma InvalidInputsBlank()
    ensures EvaluateForm(Metric, DefaultFields.(kg := Finite(0.0))).None?
    ensures EvaluateForm(Metric, DefaultFields.(kg := Finite(-5.0))).None?
    ensures EvaluateForm(Metric, DefaultFields.(cm := Finite(0.0))).None?
    ensures EvaluateForm(Imperial, DefaultFields.(ft := Finite(0.0), inch := Finite(0.0))).None?
    ensures EvaluateForm(Imperial, DefaultFields.(ft := NonFinite, inch := Finite(69.0))).Some?
  {
  }
}
