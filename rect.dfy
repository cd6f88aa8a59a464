/**
 * The integer rectangle of the rect library that both variants of the game
 * import. The library itself is not part of this model; this module states
 * the conventional reading of its accessors that the game relies on:
 * Top = Y, Bottom = Y + Height, Left = X, Right = X + Width, an edge setter
 * shifts the rectangle and keeps its size, and Center places the centre
 * (rounding the half size down). The overlap test is left abstract
 * (see module Platform).
 */
module Rect {

  datatype Rectangle = Rectangle(X: int, Y: int, Width: int, Height: int) {

    function Top(): int { Y }
    function Bottom(): int { Y + Height }
    function Left(): int { X }
    function Right(): int { X + Width }
    function CenterX(): int { X + Width / 2 }
    function CenterY(): int { Y + Height / 2 }

    predicate SameSize(other: Rectangle) {
      Width == other.Width && Height == other.Height
    }

    /** Top(t): moves the rectangle vertically so that its top edge is at t. */
    function WithTop(t: int): (r: Rectangle)
      ensures r.Top() == t && r.X == X && r.SameSize(this)
    {
      this.(Y := t)
    }

    /** Bottom(b): moves the rectangle vertically so that its bottom edge is at b. */
    function WithBottom(b: int): (r: Rectangle)
      ensures r.Bottom() == b && r.X == X && r.SameSize(this)
    {
      this.(Y := b - Height)
    }

    /** Left(l): moves the rectangle horizontally so that its left edge is at l. */
    function WithLeft(l: int): (r: Rectangle)
      ensures r.Left() == l && r.Y == Y && r.SameSize(this)
    {
      this.(X := l)
    }

    /** Right(x): moves the rectangle horizontally so that its right edge is at x. */
    function WithRight(x: int): (r: Rectangle)
      ensures r.Right() == x && r.Y == Y && r.SameSize(this)
    {
      this.(X := x - Width)
    }

    /** TopLeft(x, y): puts the top-left corner at (x, y). */
    function WithTopLeft(x: int, y: int): (r: Rectangle)
      ensures r.Left() == x && r.Top() == y && r.SameSize(this)
    {
      this.(X := x, Y := y)
    }

    /** Center(cx, cy): puts the centre at (cx, cy). */
    function Centered(cx: int, cy: int): (r: Rectangle)
      ensures r.CenterX() == cx && r.CenterY() == cy && r.SameSize(this)
    {
      this.(X := cx - Width / 2, Y := cy - Height / 2)
    }

    /** X += dx, Y += dy. */
    function Shifted(dx: int, dy: int): (r: Rectangle)
      ensures r.Left() - Left() == dx && r.Top() - Top() == dy && r.SameSize(this)
    {
      this.(X := X + dx, Y := Y + dy)
    }

    /**
     * The vertical screen guard every paddle runs: if the top is above lo it
     * is set to lo, then if the bottom is below hi it is set to hi.
     */
    function ClampedY(lo: int, hi: int): (r: Rectangle)
      ensures r.X == X && r.SameSize(this)
      ensures Height <= hi - lo ==> lo <= r.Top() && r.Bottom() <= hi
      ensures lo <= Top() && Bottom() <= hi ==> r == this
      ensures Height <= hi - lo ==> r.Top() == Top() || r.Top() == lo || r.Bottom() == hi
    {
      var r := if Top() < lo then WithTop(lo) else this;
      if r.Bottom() > hi then r.WithBottom(hi) else r
    }
  }

  /** Clamping a rectangle that fits between the bounds a second time changes nothing. */
  lemma ClampIdempotent(r: Rectangle, lo: int, hi: int)
    requires r.Height <= hi - lo
    ensures r.ClampedY(lo, hi).ClampedY(lo, hi) == r.ClampedY(lo, hi)
  {
    var c := r.ClampedY(lo, hi);
    assert lo <= c.Top() && c.Bottom() <= hi;
  }
}
