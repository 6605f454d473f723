/** The numbers the page's script works with.

    `parseFloat` on a form field, and the arithmetic on what it returns, give
    either a finite value or one of NaN / +Infinity / -Infinity. The script
    only ever asks `isFinite` of such a value, so the model keeps exactly that
    distinction and reasons about the finite ones over the reals. */
module Numbers {

  /** A parsed field value or an intermediate result. */
  datatype Num = Finite(value: real) | NonFinite

  /** The conventional optional value; `None` stands for the script's "--" sentinel. */
  datatype Option<+T> = None | Some(value: T)

  /** `isFinite(x) ? x : 0`, used for the optional parts of an imperial height. */
  function OrZero(n: Num): real
  {
    match n
    case Finite(x) => x
    case NonFinite => 0.0
  }

  /** `isFinite(x) && x > 0`, the script's test of a usable measurement. */
  predicate IsPositive(n: Num)
  {
    n.Finite? && n.value > 0.0
  }

  /** `Math.floor`. */
  function Floor(x: real): (r: int)
    ensures r as real <= x < r as real + 1.0
  {
    x.Floor
  }

  /** `Math.round`: the nearest integer, a half rounded upwards. */
  function Round(x: real): (r: int)
    ensures x - 0.5 < r as real <= x + 0.5
  {
    Floor(x + 0.5)
  }

  /** `Math.min` and `Math.max` on finite values. */
  function Min(a: real, b: real): (r: real)
    ensures r <= a && r <= b && (r == a || r == b)
  {
    if a < b then a else b
  }

  function Max(a: real, b: real): (r: real)
    ensures a <= r && b <= r && (r == a || r == b)
  {
    if a < b then b else a
  }
}
