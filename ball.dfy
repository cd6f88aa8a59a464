/**
 * The ball of the struct version: a 20x20 rectangle moved by a real-valued
 * velocity, with its wall reflection, its randomised serve, its
 * acceleration after a paddle hit and its speed normalisation. The value
 * functions say what each operation computes; class Ball performs them in
 * place and is proved against them.
 */
module Balls {
  import opened Rect
  import opened Floats
  import opened Helpers
  import opened Settings

  const MaxBallSpeed: real := 15.0
  /** The slow-serve factor of setInitialVelocity. */
  const Reducer: real := 0.25

  datatype BallState = BallState(position: Rectangle, velocity: Vector2D)

  /** newBall: a 20x20 ball in the middle of the screen, at rest. */
  const InitialBall := BallState(Rectangle(HalfGameScreenWidth - 20 / 2, HalfGameScreenHeight - 20 / 2, 20, 20), Zero)

  /**
   * The four draws one setInitialVelocity consumes: rand.Float64() for
   * randFloat(-2, -1), for randFloat(1, 2), rand.Intn(2) for randomChoice
   * and rand.Float64() for randFloat(-2, 2).
   */
  datatype ServeDraws = ServeDraws(negX: real, posX: real, coin: int, dirY: real)

  /** The ranges the Go generator draws from. */
  predicate DrawsInRange(d: ServeDraws) {
    0.0 <= d.negX < 1.0 && 0.0 <= d.posX < 1.0 && 0.0 <= d.dirY < 1.0 && 0 <= d.coin < 2
  }

  function SquaredSpeed(v: Vector2D): real {
    v.X * v.X + v.Y * v.Y
  }

  /** The ball is above the top or below the bottom of the screen. */
  predicate OffScreenY(p: Rectangle) {
    p.Top() < 0 || p.Bottom() > ScreenHeight
  }

  /** Ball.Update: the position moves by the rounded velocity; nothing else changes. */
  function Moved(b: BallState): (r: BallState)
    ensures r.velocity == b.velocity && r.position.SameSize(b.position)
    ensures -0.5 <= (r.position.Left() - b.position.Left()) as real - b.velocity.X <= 0.5
    ensures -0.5 <= (r.position.Top() - b.position.Top()) as real - b.velocity.Y <= 0.5
    ensures IsWhole(b.velocity.X) && IsWhole(b.velocity.Y) ==>
              (r.position.Left() - b.position.Left()) as real == b.velocity.X &&
              (r.position.Top() - b.position.Top()) as real == b.velocity.Y
  {
    RoundWhole(b.velocity.X);
    RoundWhole(b.velocity.Y);
    BallState(b.position.Shifted(Round(b.velocity.X), Round(b.velocity.Y)), b.velocity)
  }

  /**
   * handleBallWallCollision. soundPlayed says whether playing the "wall"
   * sound succeeded; on failure the method returns before touching the ball.
   */
  function WallBounced(b: BallState, soundPlayed: bool): (r: BallState)
    ensures !OffScreenY(b.position) || !soundPlayed ==> r == b
    ensures OffScreenY(b.position) && soundPlayed ==>
              r.velocity == Vector2D(b.velocity.X, -b.velocity.Y) &&
              r.position.X == b.position.X && r.position.SameSize(b.position)
    ensures OffScreenY(b.position) && soundPlayed && b.position.Height <= ScreenHeight ==>
              0 <= r.position.Top() && r.position.Bottom() <= ScreenHeight
  {
    if OffScreenY(b.position) && soundPlayed then
      var p := if b.position.Bottom() >= ScreenHeight then b.position.WithBottom(ScreenHeight)
               else b.position.WithTop(0);
      BallState(p, Vector2D(b.velocity.X, -b.velocity.Y))
    else
      b
  }

  /**
   * setInitialVelocity: a horizontal direction in [-2, -1) or [1, 2), a
   * vertical one in [-2, 2), both scaled by 15 * 0.25.
   */
  function InitialVelocity(d: ServeDraws): (v: Vector2D)
    ensures DrawsInRange(d) ==> (-7.5 <= v.X < -3.75 || 3.75 <= v.X < 7.5) && -7.5 <= v.Y < 7.5
    ensures DrawsInRange(d) ==> v.X != 0.0
  {
    var directionX := RandomChoice(RandFloat(-2.0, -1.0, d.negX), RandFloat(1.0, 2.0, d.posX), d.coin);
    var directionY := RandFloat(-2.0, 2.0, d.dirY);
    Vector2D(MaxBallSpeed * Reducer * directionX, MaxBallSpeed * Reducer * directionY)
  }

  /** The sign accelerate uses: -1 for a negative component, +1 otherwise (zero counts as positive). */
  function Sign(x: real): (s: real)
    ensures s == 1.0 || s == -1.0
    ensures s < 0.0 <==> x < 0.0
  {
    if x < 0.0 then -1.0 else 1.0
  }

  /** accelerate(amount): each component becomes 15 * amount with the component's sign. */
  function Accelerated(v: Vector2D, amount: real): (r: Vector2D)
    ensures v.X >= 0.0 ==> r.X == MaxBallSpeed * amount
    ensures v.X < 0.0 ==> r.X == -(MaxBallSpeed * amount)
    ensures v.Y >= 0.0 ==> r.Y == MaxBallSpeed * amount
    ensures v.Y < 0.0 ==> r.Y == -(MaxBallSpeed * amount)
    ensures amount > 0.0 ==> (r.X < 0.0 <==> v.X < 0.0) && (r.Y < 0.0 <==> v.Y < 0.0)
  {
    Vector2D(Sign(v.X) * MaxBallSpeed * amount, Sign(v.Y) * MaxBallSpeed * amount)
  }

  /** s is the exact square root of q. */
  predicate IsRootOf(s: real, q: real) {
    s >= 0.0 && s * s == q
  }

  /** v scaled by the positive factor f. */
  function Scaled(v: Vector2D, f: real): Vector2D {
    Vector2D(v.X * f, v.Y * f)
  }

  /**
   * normalizeBallSpeed: when the speed sqrt(X^2 + Y^2) exceeds 15 both
   * components are scaled by 15 / speed; otherwise nothing changes.
   */
  function Normalized(v: Vector2D, sqrt: real -> real): (r: Vector2D)
    ensures sqrt(SquaredSpeed(v)) <= MaxBallSpeed ==> r == v
  {
    var speed := sqrt(SquaredSpeed(v));
    if speed > MaxBallSpeed then Scaled(v, MaxBallSpeed / speed) else v
  }

  /**
   * Normalising keeps the sign of each component; with an exact square
   * root, a normalised velocity is at most 15 fast, and a velocity already
   * at most 15 fast is left alone.
   */
  lemma NormalizedIsBounded(v: Vector2D, sqrt: real -> real)
    ensures var r := Normalized(v, sqrt);
            (r.X < 0.0 <==> v.X < 0.0) && (r.X > 0.0 <==> v.X > 0.0) &&
            (r.Y < 0.0 <==> v.Y < 0.0) && (r.Y > 0.0 <==> v.Y > 0.0)
    ensures var r := Normalized(v, sqrt);
            IsRootOf(sqrt(SquaredSpeed(v)), SquaredSpeed(v)) ==>
              SquaredSpeed(r) <= MaxBallSpeed * MaxBallSpeed &&
              (SquaredSpeed(v) <= MaxBallSpeed * MaxBallSpeed ==> r == v)
  {
    var speed := sqrt(SquaredSpeed(v));
    if speed > MaxBallSpeed {
      RescaledToMax(v, speed);
    }
    if IsRootOf(speed, SquaredSpeed(v)) {
      RootAtMost(speed, SquaredSpeed(v));
    }
  }

  /** A non-negative root of a value at most 225 is at most 15. */
  lemma RootAtMost(s: real, q: real)
    requires IsRootOf(s, q)
    ensures q <= MaxBallSpeed * MaxBallSpeed <==> s <= MaxBallSpeed
  {
    assert s * s - MaxBallSpeed * MaxBallSpeed == (s - MaxBallSpeed) * (s + MaxBallSpeed);
    if s > MaxBallSpeed {
      PositiveProduct(s - MaxBallSpeed, s + MaxBallSpeed);
    } else {
      PositiveProduct(MaxBallSpeed - s, s + MaxBallSpeed);
      assert (MaxBallSpeed - s) * (s + MaxBallSpeed) == -((s - MaxBallSpeed) * (s + MaxBallSpeed));
    }
  }

  /** Scaling by 15 / speed, with speed > 15, keeps the signs and brings an exact speed down to 15. */
  lemma RescaledToMax(v: Vector2D, speed: real)
    requires speed > MaxBallSpeed
    ensures var r := Scaled(v, MaxBallSpeed / speed);
            (r.X < 0.0 <==> v.X < 0.0) && (r.X > 0.0 <==> v.X > 0.0) &&
            (r.Y < 0.0 <==> v.Y < 0.0) && (r.Y > 0.0 <==> v.Y > 0.0) &&
            (IsRootOf(speed, SquaredSpeed(v)) ==> SquaredSpeed(r) == MaxBallSpeed * MaxBallSpeed)
  {
    var f := MaxBallSpeed / speed;
    FactorBelowOne(speed);
    SignOfScaled(v.X, f);
    SignOfScaled(v.Y, f);
    if IsRootOf(speed, SquaredSpeed(v)) {
      ScaledSquare(v, f, speed);
    }
  }

  lemma FactorBelowOne(speed: real)
    requires speed > MaxBallSpeed
    ensures 0.0 < MaxBallSpeed / speed && (MaxBallSpeed / speed) * speed == MaxBallSpeed
  {
  }

  /** The factor 15 / speed for a speed above 15 lies strictly between 0 and 1. */
  lemma FactorInUnit(speed: real)
    requires speed > MaxBallSpeed
    ensures 0.0 < MaxBallSpeed / speed < 1.0
  {
    var f := MaxBallSpeed / speed;
    FactorBelowOne(speed);
    if f >= 1.0 {
      PositiveProduct(f - 1.0, speed);
      assert (f - 1.0) * speed == f * speed - speed;
    }
  }

  /** Scaling a vector of exact speed s by f multiplies its squared speed by f * f. */
  lemma ScaledSquare(v: Vector2D, f: real, s: real)
    requires IsRootOf(s, SquaredSpeed(v)) && f * s == MaxBallSpeed
    ensures SquaredSpeed(Scaled(v, f)) == MaxBallSpeed * MaxBallSpeed
  {
    var x, y := v.X, v.Y;
    assert (x * f) * (x * f) == (x * x) * (f * f);
    assert (y * f) * (y * f) == (y * y) * (f * f);
    assert (x * x) * (f * f) + (y * y) * (f * f) == (x * x + y * y) * (f * f);
    assert x * x + y * y == s * s;
    assert (s * s) * (f * f) == (f * s) * (f * s);
  }

  lemma SignOfScaled(x: real, f: real)
    requires f > 0.0
    ensures (x * f < 0.0 <==> x < 0.0) && (x * f > 0.0 <==> x > 0.0)
  {
    if x < 0.0 {
      PositiveProduct(-x, f);
      assert (-x) * f == -(x * f);
    } else if x > 0.0 {
      PositiveProduct(x, f);
    }
  }

  /**
   * atAngle: the vertical speed that sends the ball off at the given angle
   * (in degrees) for the horizontal speed vx, rounded to a whole number.
   * tanDeg stands for math.Tan of the angle converted to radians.
   */
  function AtAngle(tanDeg: real -> real, angle: real, vx: real): (y: real)
    ensures IsWhole(y)
    ensures tanDeg(angle) * vx - 0.5 <= y <= tanDeg(angle) * vx + 0.5
  {
    Round(tanDeg(angle) * vx) as real
  }

  /** The ball as a mutable object; every method is proved against the value function above. */
  class Ball {
    var position: Rectangle
    var velocity: Vector2D

    function State(): BallState
      reads this
    {
      BallState(position, velocity)
    }

    /** newBall (the sounds it loads are not modelled). */
    constructor ()
      ensures State() == InitialBall
    {
      position := InitialBall.position;
      velocity := Zero;
    }

    /** Update: moves the ball by its rounded velocity. */
    method Update()
      modifies this
      ensures State() == Moved(old(State()))
    {
      position := position.(X := position.X + Round(velocity.X));
      position := position.(Y := position.Y + Round(velocity.Y));
    }

    method HandleWallCollision(soundPlayed: bool)
      modifies this
      ensures State() == WallBounced(old(State()), soundPlayed)
    {
      if position.Top() < 0 || position.Bottom() > ScreenHeight {
        if !soundPlayed {
          return;
        }
        if position.Bottom() >= ScreenHeight {
          position := position.WithBottom(ScreenHeight);
        } else {
          position := position.WithTop(0);
        }
        velocity := velocity.(Y := -velocity.Y);
      }
    }

    method SetInitialVelocity(d: ServeDraws)
      modifies this
      ensures position == old(position) && velocity == InitialVelocity(d)
    {
      var directionX := RandomChoice(RandFloat(-2.0, -1.0, d.negX), RandFloat(1.0, 2.0, d.posX), d.coin);
      var directionY := RandFloat(-2.0, 2.0, d.dirY);
      var reducer := Reducer;
      velocity := velocity.(X := MaxBallSpeed * reducer * directionX);
      velocity := velocity.(Y := MaxBallSpeed * reducer * directionY);
    }

    method NormalizeSpeed(sqrt: real -> real)
      modifies this
      ensures position == old(position) && velocity == Normalized(old(velocity), sqrt)
    {
      var speed := sqrt(SquaredSpeed(velocity));
      if speed > MaxBallSpeed {
        var factor := MaxBallSpeed / speed;
        velocity := velocity.(X := velocity.X * factor);
        velocity := velocity.(Y := velocity.Y * factor);
      }
    }

    method Accelerate(amount: real)
      modifies this
      ensures position == old(position) && velocity == Accelerated(old(velocity), amount)
    {
      var signX := 1.0;
      if velocity.X < 0.0 {
        signX := -1.0;
      }
      var signY := 1.0;
      if velocity.Y < 0.0 {
        signY := -1.0;
      }
      velocity := velocity.(X := signX * MaxBallSpeed * amount);
      velocity := velocity.(Y := signY * MaxBallSpeed * amount);
    }
  }

  /** Accelerating twice by the same non-negative amount is the same as accelerating once. */
  lemma AccelerateIdempotent(v: Vector2D, amount: real)
    requires amount >= 0.0
    ensures Accelerated(Accelerated(v, amount), amount) == Accelerated(v, amount)
  {
    PositiveProduct(amount, MaxBallSpeed);
  }

  /** After accelerate both components have magnitude 15 * amount. */
  lemma AcceleratedSpeed(v: Vector2D, amount: real)
    ensures SquaredSpeed(Accelerated(v, amount)) == 2.0 * (MaxBallSpeed * amount) * (MaxBallSpeed * amount)
  {
    var r := Accelerated(v, amount);
    var m := MaxBallSpeed * amount;
    assert r.X == m || r.X == -m;
    assert r.Y == m || r.Y == -m;
    assert r.X * r.X == m * m;
    assert r.Y * r.Y == m * m;
  }
}
