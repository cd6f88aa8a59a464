/**
 * The velocity vector and the random helpers of the struct version. Every
 * draw of the random generator is a parameter: `coin` stands for
 * rand.Intn(2), `draw` for rand.Intn(max - min) or rand.Float64().
 */
module Helpers {

  /** A velocity, in pixels per frame. */
  datatype Vector2D = Vector2D(X: real, Y: real)

  const Zero := Vector2D(0.0, 0.0)

  /**
   * randomChoice: a when both are equal, otherwise a on coin 0 and b on any
   * other coin. Both versions have one (on float64 and on int).
   */
  function RandomChoice<T(==)>(a: T, b: T, coin: int): (r: T)
    ensures r == a || r == b
    ensures a == b ==> r == a
    ensures a != b ==> (r == a <==> coin == 0)
  {
    if a == b then a
    else if coin == 0 then a
    else b
  }

  /** randInt: min + rand.Intn(max - min); rand.Intn panics unless max > min. */
  function RandInt(min: int, max: int, draw: int): (r: int)
    requires max > min
    ensures 0 <= draw < max - min ==> min <= r < max
    ensures r - min == draw
  {
    min + draw
  }

  /** randFloat: min + rand.Float64() * (max - min). */
  function RandFloat(min: real, max: real, draw: real): (r: real)
    ensures min < max && 0.0 <= draw < 1.0 ==> min <= r < max
  {
    if min < max && 0.0 <= draw < 1.0 then
      ScaledBelow(draw, min, max);
      min + draw * (max - min)
    else
      min + draw * (max - min)
  }

  /** For 0 <= t < 1 and lo < hi, t * (hi - lo) lies in [0, hi - lo). */
  lemma ScaledBelow(t: real, lo: real, hi: real)
    requires 0.0 <= t < 1.0 && lo < hi
    ensures 0.0 <= t * (hi - lo) < hi - lo
  {
    var w := hi - lo;
    ProductBelow(t, w, t * w);
  }

  /** The product p = t * w of a factor in [0, 1) and a positive w lies in [0, w). */
  lemma ProductBelow(t: real, w: real, p: real)
    requires 0.0 <= t < 1.0 && w > 0.0 && p == t * w
    ensures 0.0 <= p < w
  {
    PositiveProduct(1.0 - t, w);
    assert w - p == (1.0 - t) * w;
  }

  lemma PositiveProduct(a: real, b: real)
    requires a >= 0.0 && b > 0.0
    ensures a * b >= 0.0
    ensures a > 0.0 ==> a * b > 0.0
  {
  }
}
