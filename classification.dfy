/** The category ladder applied to a BMI. */
module Classification {
  import opened Numbers

  /** `Unclassified` is the placeholder shown for a non-finite BMI. */
  datatype Category = Unclassified | Underweight | Normal | Overweight | Obese

  const NormalFrom: real := 18.5
  const OverweightFrom: real := 25.0
  const ObeseFrom: real := 30.0

  /** `categorize`: a first-match ladder of strict upper thresholds. */
  function Categorize(bmi: Num): (c: Category)
    ensures c == Unclassified <==> bmi.NonFinite?
  {
    match bmi
    case NonFinite => Unclassified
    case Finite(x) =>
      if x < NormalFrom then Underweight
      else if x < OverweightFrom then Normal
      else if x < ObeseFrom then Overweight
      else Obese
  }

  /** The BMI interval each category covers: closed below, open above. */
  predicate InBand(c: Category, x: real)
  {
    match c
    case Unclassified => false
    case Underweight => x < NormalFrom
    case Normal => NormalFrom <= x < OverweightFrom
    case Overweight => OverweightFrom <= x < ObeseFrom
    case Obese => ObeseFrom <= x
  }

  /** Position of a category along the BMI axis. */
  function Rank(c: Category): int
  {
    match c
    case Unclassified => -1
    case Underweight => 0
    case Normal => 1
    case Overweight => 2
    case Obese => 3
  }

  /** The ladder puts a finite BMI into exactly the category whose band holds it. */
  lemma CategorizeIsBand(x: real, c: Category)
    ensures Categorize(Finite(x)) == c <==> InBand(c, x)
  {
  }

  /** Every threshold belongs to the category above it. */
  lemma Boundaries()
    ensures Categorize(Finite(18.4999)) == Underweight
    ensures Categorize(Finite(18.5)) == Normal
    ensures Categorize(Finite(24.9999)) == Normal
    ensures Categorize(Finite(25.0)) == Overweight
    ensures Categorize(Finite(29.9999)) == Overweight
    ensures Categorize(Finite(30.0)) == Obese
  {
  }

  /** A larger finite BMI never gets a lower category. */
  lemma CategorizeMonotone(a: real, b: real)
    requires a <= b
    ensures 0 <= Rank(Categorize(Finite(a))) <= Rank(Categorize(Finite(b)))
  {
  }
}
