/** Reading the form in the selected unit system, checking it, and converting
    it to canonical kilograms and metres together with the BMI. */
module Measurement {
  import opened Numbers

  /** The unit toggle of the form. */
  datatype Unit = Metric | Imperial

  /** The five input fields of the form as parsed; the unit decides which are read. */
  datatype Fields = Fields(kg: Num, cm: Num, lb: Num, ft: Num, inch: Num)

  /** Canonical measurement and BMI, as `calculate` returns them. */
  datatype Calculation = Calculation(bmi: real, heightM: real, weightKg: real)

  const CmPerM: real := 100.0
  const InchesPerFoot: real := 12.0
  /** Metres in one inch. */
  const InchToM: real := 0.0254
  /** Kilograms in one pound. */
  const LbToKg: real := 0.45359237
  /** Pounds in one kilogram, the factor used for display. */
  const KgToLb: real := 2.20462262
  /** Factor of the pound-and-inch BMI formula. */
  const ImperialBmiFactor: real := 703.0

  /** Total inches of an imperial height; a missing or non-finite part counts as 0. */
  function TotalInches(ft: Num, inch: Num): (t: real)
    ensures (t - OrZero(inch)) / InchesPerFoot == OrZero(ft)
    ensures ft.NonFinite? && inch.NonFinite? ==> t == 0.0
    ensures OrZero(ft) >= 0.0 && OrZero(inch) >= 0.0 ==> t >= OrZero(inch)
  {
    OrZero(ft) * InchesPerFoot + OrZero(inch)
  }

  /** `validInputs`: the weight must be finite and positive; a metric height
      must be finite and positive, an imperial one must have a positive total. */
  predicate ValidInputs(unit: Unit, f: Fields)
  {
    match unit
    case Metric => IsPositive(f.kg) && IsPositive(f.cm)
    case Imperial => IsPositive(f.lb) && TotalInches(f.ft, f.inch) > 0.0
  }

  /** BMI from canonical values: kilograms over metres squared. */
  function Quetelet(weightKg: real, heightM: real): (bmi: real)
    requires heightM > 0.0
    ensures bmi * (heightM * heightM) == weightKg
    ensures weightKg > 0.0 ==> bmi > 0.0
  {
    weightKg / (heightM * heightM)
  }

  /** `calculate`. Its only caller runs it after `validInputs` has held. The
      canonical values convert back to the fields read exactly, and every
      value is positive. */
  function Calculate(unit: Unit, f: Fields): (c: Calculation)
    requires ValidInputs(unit, f)
    ensures c.bmi > 0.0 && c.heightM > 0.0 && c.weightKg > 0.0
    ensures unit == Metric ==> c.weightKg == f.kg.value && c.heightM * CmPerM == f.cm.value
    ensures unit == Imperial ==>
      c.weightKg / LbToKg == f.lb.value && c.heightM / InchToM == TotalInches(f.ft, f.inch)
  {
    match unit
    case Metric =>
      var weightKg := f.kg.value;
      var heightM := f.cm.value / CmPerM;
      Calculation(Quetelet(weightKg, heightM), heightM, weightKg)
    case Imperial =>
      var weightLb := f.lb.value;
      var totalInches := TotalInches(f.ft, f.inch);
      var bmi := (ImperialBmiFactor * weightLb) / (totalInches * totalInches);
      Calculation(bmi, totalInches * InchToM, weightLb * LbToKg)
  }

  /** The display factor from kilograms to pounds and the conversion factor
      from pounds to kilograms are inverse to within one part in 10^8. */
  lemma ConversionFactorsNearInverse()
    ensures 1.0 - 1.0 / 100000000.0 < KgToLb * LbToKg < 1.0
  {
  }

  /** How far the pound-and-inch formula's factor 703 falls short of the exact
      one, LbToKg / InchToM^2 (about 703.0696). */
  const ImperialRatio: real := LbToKg / (ImperialBmiFactor * (InchToM * InchToM))

  lemma ImperialRatioBounds()
    ensures 1.00009 < ImperialRatio < 1.0001
  {
  }

  /** For metric input the BMI is exactly the canonical kilograms-over-metres-squared. */
  lemma MetricBmiIsQuetelet(f: Fields)
    requires ValidInputs(Metric, f)
    ensures Calculate(Metric, f).bmi == Quetelet(Calculate(Metric, f).weightKg, Calculate(Metric, f).heightM)
  {
  }

  /** For imperial input the BMI comes straight from pounds and inches, and the
      canonical formula gives it times ImperialRatio: they agree to 1e-4 of the
      BMI, and never closer than 9e-5 of it. */
  lemma ImperialBmiNearQuetelet(f: Fields)
    requires ValidInputs(Imperial, f)
    ensures var c := Calculate(Imperial, f);
      Quetelet(c.weightKg, c.heightM) == c.bmi * ImperialRatio
      && c.bmi + c.bmi * 0.00009 < Quetelet(c.weightKg, c.heightM) < c.bmi + c.bmi * 0.0001
  {
  }

  /** A missing (non-finite) foot or inch part counts exactly like a 0. */
  lemma MissingPartCountsAsZero(f: Fields)
    requires f.ft.NonFinite? || f.inch.NonFinite?
    ensures var g := Fields(f.kg, f.cm, f.lb,
                            if f.ft.NonFinite? then Finite(0.0) else f.ft,
                            if f.inch.NonFinite? then Finite(0.0) else f.inch);
      ValidInputs(Imperial, f) == ValidInputs(Imperial, g)
      && (ValidInputs(Imperial, f) ==> Calculate(Imperial, f) == Calculate(Imperial, g))
  {
  }

  /** Only the fields of the selected unit are read. */
  lemma OtherUnitFieldsIgnored(unit: Unit, f: Fields, g: Fields)
    requires unit == Metric ==> f.kg == g.kg && f.cm == g.cm
    requires unit == Imperial ==> f.lb == g.lb && f.ft == g.ft && f.inch == g.inch
    ensures ValidInputs(unit, f) == ValidInputs(unit, g)
    ensures ValidInputs(unit, f) ==> Calculate(unit, f) == Calculate(unit, g)
  {
  }

  /** Inputs the form rejects, and an imperial height given in inches alone. */
  lemma ValidityExamples(f: Fields)
    ensures !ValidInputs(Metric, f.(kg := Finite(0.0)))
    ensures !ValidInputs(Metric, f.(kg := Finite(-5.0)))
    ensures !ValidInputs(Metric, f.(cm := Finite(0.0)))
    ensures !ValidInputs(Metric, f.(kg := NonFinite))
    ensures !ValidInputs(Imperial, f.(ft := Finite(0.0), inch := Finite(0.0)))
    ensures !ValidInputs(Imperial, f.(ft := NonFinite, inch := NonFinite))
    ensures ValidInputs(Imperial, f.(lb := Finite(154.0), ft := NonFinite, inch := Finite(69.0)))
  {
  }
}
