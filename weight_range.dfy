/** The healthy-weight range for a height: the weights whose BMI lies
    between 18.5 and 24.9, in kilograms and in pounds. */
module WeightRange {
  import opened Numbers
  import opened Measurement
  import opened Classification

  const HealthyMinBmi: real := 18.5
  const HealthyMaxBmi: real := 24.9
  datatype Range = Range(minKg: real, maxKg: real, minLb: real, maxLb: real)

  /** `healthyRange`. The pound bounds are the kilogram bounds converted, so
      dividing them by the factor gives the kilogram bounds back. */
  function HealthyRange(heightM: real): (r: Range)
    ensures r.minLb / KgToLb == r.minKg && r.maxLb / KgToLb == r.maxKg
  {
    var minKg := HealthyMinBmi * heightM * heightM;
    var maxKg := HealthyMaxBmi * heightM * heightM;
    Range(minKg, maxKg, minKg * KgToLb, maxKg * KgToLb)
  }

  /** `(k * s) / s == k` for a positive divisor. */
  lemma DivCancel(k: real, s: real)
    requires s > 0.0
    ensures (k * s) / s == k
  {
  }

  /** For a positive height the bounds are positive and ordered, in both units. */
  lemma RangeOrdered(heightM: real)
    requires heightM > 0.0
    ensures var r := HealthyRange(heightM);
      0.0 < r.minKg < r.maxKg && 0.0 < r.minLb < r.maxLb
  {
    var r := HealthyRange(heightM);
    calc {
      r.minKg;
    ==
      HealthyMinBmi * heightM * heightM;
    >
      0.0;
    }
    calc {
      r.maxKg;
    ==
      HealthyMaxBmi * heightM * heightM;
    >
      HealthyMinBmi * heightM * heightM;
    ==
      r.minKg;
    }
  }

  /** The bounds are exactly the weights whose BMI at this height is 18.5 and
      24.9, and the ladder calls both of those BMIs Normal. */
  lemma BoundsAreNormalBmi(heightM: real)
    requires heightM > 0.0
    ensures Quetelet(HealthyRange(heightM).minKg, heightM) == HealthyMinBmi
    ensures Quetelet(HealthyRange(heightM).maxKg, heightM) == HealthyMaxBmi
    ensures Categorize(Finite(Quetelet(HealthyRange(heightM).minKg, heightM))) == Normal
    ensures Categorize(Finite(Quetelet(HealthyRange(heightM).maxKg, heightM))) == Normal
  {
    var s := heightM * heightM;
    assert s > 0.0 by {
      calc { s; == heightM * heightM; > 0.0; }
    }
    assert HealthyRange(heightM).minKg == HealthyMinBmi * s;
    calc {
      Quetelet(HealthyRange(heightM).minKg, heightM);
    ==
      (HealthyMinBmi * s) / s;
    == { DivCancel(HealthyMinBmi, s); }
      HealthyMinBmi;
    }
    assert HealthyRange(heightM).maxKg == HealthyMaxBmi * s;
    calc {
      Quetelet(HealthyRange(heightM).maxKg, heightM);
    ==
      (HealthyMaxBmi * s) / s;
    == { DivCancel(HealthyMaxBmi, s); }
      HealthyMaxBmi;
    }
  }

  /** A taller person has a strictly higher range, in both units. */
  lemma RangeIncreasing(h1: real, h2: real)
    requires 0.0 < h1 < h2
    ensures HealthyRange(h1).minKg < HealthyRange(h2).minKg
    ensures HealthyRange(h1).maxKg < HealthyRange(h2).maxKg
    ensures HealthyRange(h1).minLb < HealthyRange(h2).minLb
    ensures HealthyRange(h1).maxLb < HealthyRange(h2).maxLb
  {
  }

  /** The pound bounds converted back with the pound-to-kilogram factor give
      the kilogram bounds to within one part in 10^8, from below. */
  lemma PoundsConvertBack(heightM: real)
    requires heightM > 0.0
    ensures var r := HealthyRange(heightM);
      r.minKg - r.minKg / 100000000.0 < r.minLb * LbToKg < r.minKg
      && r.maxKg - r.maxKg / 100000000.0 < r.maxLb * LbToKg < r.maxKg
  {
    RangeOrdered(heightM);
    var r := HealthyRange(heightM);
    assert r.minLb * LbToKg == r.minKg * (KgToLb * LbToKg);
    assert r.maxLb * LbToKg == r.maxKg * (KgToLb * LbToKg);
  }
}
