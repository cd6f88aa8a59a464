/**
 * What the game receives from the engine and from the Go math library,
 * passed into the model as values: the edge events of the two arrow keys,
 * the tangent of an angle given in degrees (math.Tan of angle * Pi / 180),
 * the square root (math.Sqrt) and the rectangle overlap test of the rect
 * library.
 */
module Platform {
  import opened Rect

  /** inpututil.IsKeyJustPressed / IsKeyJustReleased for ArrowUp and ArrowDown in one frame. */
  datatype KeyEdges = KeyEdges(upPressed: bool, upReleased: bool, downPressed: bool, downReleased: bool)

  const NoKeys := KeyEdges(false, false, false, false)

  /** The external functions one frame may call. */
  datatype Env = Env(tanDeg: real -> real, sqrt: real -> real, overlaps: (Rectangle, Rectangle) -> bool)

  /** The square root returns the non-negative root of every non-negative argument. */
  ghost predicate ExactSqrt(sqrt: real -> real) {
    forall q :: q >= 0.0 ==> sqrt(q) >= 0.0 && sqrt(q) * sqrt(q) == q
  }

  /**
   * The one thing the model assumes about Overlaps: two rectangles that
   * overlap also overlap horizontally.
   */
  ghost predicate OverlapNeedsContact(overlaps: (Rectangle, Rectangle) -> bool) {
    forall a, b :: overlaps(a, b) ==> a.Left() < b.Right() && b.Left() < a.Right()
  }
}
