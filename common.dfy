/** Helpers shared by the food and mold models: the few p5.js numeric
    functions the sketch calls, an optional argument, a point, and the
    JavaScript number that may be NaN. */
module Common {

  /** An argument that a JavaScript caller may leave `undefined`. */
  datatype Option<T> = None | Some(value: T)

  /** A point on the canvas. */
  datatype Pos = Pos(x: real, y: real)

  /** A JavaScript number as the sensor sums produce it: a real value or NaN.
      Infinities do not arise in the modelled code (see `FoodSource.NutritionAt`). */
  datatype Reading = Num(v: real) | NaN {

    /** JavaScript `+`: NaN absorbs everything. */
    function Plus(other: Reading): (r: Reading)
      ensures r.Num? <==> Num? && other.Num?
      ensures r.Num? ==> r.v == v + other.v
    {
      if Num? && other.Num? then Num(v + other.v) else NaN
    }
  }

  /** JavaScript `a > b`: false as soon as one side is NaN. */
  predicate Greater(a: Reading, b: Reading)
  {
    a.Num? && b.Num? && a.v > b.v
  }

  /** `a * a`, kept behind a name so that the solver treats squares as
      atoms in linear reasoning. */
  function Sq(a: real): real
  {
    a * a
  }

  function Min(a: real, b: real): (r: real)
    ensures r <= a && r <= b && (r == a || r == b)
  {
    if a <= b then a else b
  }

  function Max(a: real, b: real): (r: real)
    ensures r >= a && r >= b && (r == a || r == b)
  {
    if a >= b then a else b
  }

  /** p5's `constrain(n, low, high)`, which is `max(min(n, high), low)`. */
  function Constrain(n: real, low: real, high: real): (r: real)
    ensures low <= high ==> low <= r <= high
    ensures low <= n <= high ==> r == n
    ensures n < low ==> r == low
    ensures low <= high < n ==> r == high
  {
    Max(Min(n, high), low)
  }

  /** p5's `map(n, start1, stop1, start2, stop2)`: the linear rescaling that
      sends `start1` to `start2` and `stop1` to `stop2`. The JavaScript
      divides by `stop1 - start1`; callers handle the zero-width case. */
  function MapRange(n: real, start1: real, stop1: real, start2: real, stop2: real): (r: real)
    requires start1 != stop1
    ensures n == start1 ==> r == start2
    ensures n == stop1 ==> r == stop2
  {
    DivSelf(stop1 - start1);
    (n - start1) / (stop1 - start1) * (stop2 - start2) + start2
  }

  lemma DivSelf(a: real)
    requires a != 0.0
    ensures a / a == 1.0
  {
  }

  /** Dividing by a positive number keeps the order. */
  lemma DivLeq(a: real, b: real, h: real)
    requires h > 0.0 && a <= b
    ensures a / h <= b / h
  {
    assert b / h - a / h == (b - a) / h;
  }
}
