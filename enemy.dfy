/**
 * The computer-controlled enemy of the struct version: its paddle is kept
 * on screen, the ball bounces off it by the same eight-band rule as off the
 * player (with forward-going angle tables), and it can patrol towards a
 * randomly chosen height.
 */
module Enemies {
  import opened Rect
  import opened Floats
  import opened Helpers
  import opened Settings
  import opened Bands
  import opened Paddles
  import opened Balls

  /** newEnemy: a 20x110 paddle 70 px from the left edge, vertically centred, speed 12. */
  const InitialEnemyPaddle :=
    PaddleState(Rectangle(70, HalfGameScreenHeight - 110 / 2, 20, 110), Zero, 12.0)

  /** Enemy.bounce, as a value: reverse X and take Y from the band's angle, if a band matches. */
  function EnemyBounced(b: BallState, paddle: Rectangle, volleyCount: int, tanDeg: real -> real): (r: BallState)
    ensures r.position == b.position && r.velocity.X == -b.velocity.X
    ensures HitBand(b.position, paddle) == BandCount ==> r.velocity.Y == b.velocity.Y
  {
    var k := HitBand(b.position, paddle);
    var vx := -b.velocity.X;
    var vy := if k < BandCount then AtAngle(tanDeg, EnemyAngles(volleyCount)[k], vx) else b.velocity.Y;
    BallState(b.position, Vector2D(vx, vy))
  }

  /**
   * A hit whose top falls into band k of the paddle takes band k's angle
   * from the enemy's table of the volley's tier, applied to the reversed X velocity.
   */
  lemma EnemyBandAngle(b: BallState, paddle: Rectangle, volleyCount: int, tanDeg: real -> real, k: nat)
    requires paddle.Height >= 8 && k < BandCount
    requires k == 0 || paddle.Top() + (paddle.Height / 8) * k <= b.position.Top()
    requires b.position.Top() < paddle.Top() + (paddle.Height / 8) * (k + 1)
    ensures HitBand(b.position, paddle) == k
    ensures EnemyBounced(b, paddle, volleyCount, tanDeg).velocity.Y ==
            AtAngle(tanDeg, EnemyTiers[Tier(volleyCount)][k], -b.velocity.X)
  {
    HitBandIs(b.position, paddle, k);
  }

  /**
   * The lower edge of band i, relative to the paddle's top, as the enemy's
   * loop computes it from the integer band height: with part the float64 of
   * that height, int(math.Round(part * (i + 1))). The rounding gives back
   * the integer product, the edge the player's loop uses.
   */
  function RoundedEdge(whole: int, i: int): (e: int)
    ensures e == whole * (i + 1)
  {
    var part := whole as real;
    var x := part * ((i as real) + 1.0);
    assert x == (whole * (i + 1)) as real;
    RoundWhole(x);
    Round(x)
  }

  /** The target randomPosition holds once patrol has drawn one if it needed to. */
  function PatrolTarget(position: Rectangle, target: int, draw: int): (t: int)
    requires target == 0 ==> position.Height / 2 < ScreenHeight - position.Height / 2
    ensures target != 0 ==> t == target
    ensures target == 0 && 0 <= draw < ScreenHeight - 2 * (position.Height / 2) ==>
              position.Height / 2 <= t < ScreenHeight - position.Height / 2
  {
    if target == 0 then RandInt(position.Height / 2, ScreenHeight - position.Height / 2, draw) else target
  }

  /**
   * patrol: draws a target if there is none, moves up by Round(speed) when
   * the target is above the centre, then, looking at the new centre, moves
   * down by Round(speed) when the target is below it, and clears the target
   * once the centre is strictly within 15 px of it. Returns the new paddle
   * rectangle and the new target.
   */
  function Patrolled(position: Rectangle, target: int, speed: real, draw: int): (r: (Rectangle, int))
    requires target == 0 ==> position.Height / 2 < ScreenHeight - position.Height / 2
    ensures r.0.X == position.X && r.0.SameSize(position)
    ensures var t := PatrolTarget(position, target, draw);
            var c := position.CenterY();
            var d := Round(speed);
            (t > c ==> r.0.Y == position.Y + d) &&
            (t == c ==> r.0.Y == position.Y) &&
            (t < c && t <= c - d ==> r.0.Y == position.Y - d) &&
            (t < c && t > c - d ==> r.0.Y == position.Y)
    ensures var t := PatrolTarget(position, target, draw);
            r.1 == if t - 15 < r.0.CenterY() < t + 15 then 0 else t
  {
    var t := PatrolTarget(position, target, draw);
    var d := Round(speed);
    var p1 := if t < position.CenterY() then position.(Y := position.Y - d) else position;
    var p2 := if t > p1.CenterY() then p1.(Y := p1.Y + d) else p1;
    (p2, if t - 15 < p2.CenterY() && t + 15 > p2.CenterY() then 0 else t)
  }

  class Enemy {
    const paddle: Paddle
    var score: int
    var randomPosition: int

    /** newEnemy. */
    constructor ()
      ensures fresh(paddle) && paddle.State() == InitialEnemyPaddle && score == 0 && randomPosition == 0
    {
      paddle := new Paddle(InitialEnemyPaddle.position, InitialEnemyPaddle.speed);
      score := 0;
      randomPosition := 0;
    }

    /** Update: keeps the paddle on screen. */
    method Update()
      modifies paddle
      ensures paddle.position == old(paddle.position).ClampedY(0, ScreenHeight)
      ensures paddle.velocity == old(paddle.velocity) && paddle.speed == old(paddle.speed)
    {
      if paddle.position.Top() < 0 {
        paddle.position := paddle.position.WithTop(0);
      }
      if paddle.position.Bottom() > ScreenHeight {
        paddle.position := paddle.position.WithBottom(ScreenHeight);
      }
    }

    /** bounce: returns the band the loop stopped at (8 when it ran out). */
    method Bounce(ball: Ball, volleyCount: int, tanDeg: real -> real) returns (band: nat)
      modifies ball
      ensures band == HitBand(old(ball.position), paddle.position)
      ensures ball.State() == EnemyBounced(old(ball.State()), paddle.position, volleyCount, tanDeg)
    {
      ball.velocity := ball.velocity.(X := -ball.velocity.X);
      var part := paddle.position.Height / 8;
      var sl := EnemyAngles(volleyCount);
      // The loop moves neither the ball nor the paddle, so both tops are read once.
      var ballTop, paddleTop := ball.position.Top(), paddle.position.Top();
      ghost var vx := ball.velocity.X;
      band := 0;
      while band < BandCount
        invariant band <= BandCount
        invariant FirstBand(ballTop, paddleTop, part, band) == HitBand(old(ball.position), paddle.position)
        invariant ball.position == old(ball.position)
        invariant ball.velocity == Vector2D(vx, old(ball.velocity).Y)
      {
        var edge := RoundedEdge(part, band);
        if ballTop < paddleTop + edge {
          ball.velocity := ball.velocity.(Y := AtAngle(tanDeg, sl[band], ball.velocity.X));
          break;
        }
        band := band + 1;
      }
    }

    /** patrol, with the rand.Intn draw of randInt as a parameter. */
    method Patrol(draw: int)
      requires randomPosition == 0 ==> paddle.position.Height / 2 < ScreenHeight - paddle.position.Height / 2
      modifies this, paddle
      ensures (paddle.position, randomPosition) == Patrolled(old(paddle.position), old(randomPosition), paddle.speed, draw)
      ensures paddle.velocity == old(paddle.velocity) && paddle.speed == old(paddle.speed) && score == old(score)
    {
      if randomPosition == 0 {
        var halfPaddle := paddle.position.Height / 2;
        randomPosition := RandInt(0 + halfPaddle, ScreenHeight - halfPaddle, draw);
      }
      if randomPosition < paddle.position.CenterY() {
        paddle.position := paddle.position.(Y := paddle.position.Y - Round(paddle.speed));
      }
      if randomPosition > paddle.position.CenterY() {
        paddle.position := paddle.position.(Y := paddle.position.Y + Round(paddle.speed));
      }
      if randomPosition - 15 < paddle.position.CenterY() && randomPosition + 15 > paddle.position.CenterY() {
        randomPosition := 0;
      }
    }
  }

  /** Keeping the paddle on screen a second time changes nothing. */
  lemma UpdateIdempotent(p: Rectangle)
    requires p.Height <= ScreenHeight
    ensures p.ClampedY(0, ScreenHeight).ClampedY(0, ScreenHeight) == p.ClampedY(0, ScreenHeight)
  {
    ClampIdempotent(p, 0, ScreenHeight);
  }

  /**
   * For the enemy's 110 px paddle at speed 12 the drawn target lies in
   * [55, 665), and the paddle moves 12 px towards a target 12 px or more
   * away from its centre, but not at all towards one less than 12 px above it.
   */
  lemma PatrolOfEnemyPaddle(position: Rectangle, target: int, draw: int)
    requires position.Height == 110
    requires target == 0 ==> 0 <= draw < 610
    ensures var t := PatrolTarget(position, target, draw);
            (target == 0 ==> 55 <= t < 665) &&
            var r := Patrolled(position, target, 12.0, draw);
            (t >= position.CenterY() + 12 ==> r.0.Y == position.Y + 12) &&
            (t <= position.CenterY() - 12 ==> r.0.Y == position.Y - 12) &&
            (position.CenterY() - 12 < t <= position.CenterY() ==> r.0.Y == position.Y)
  {
    RoundWhole(12.0);
  }
}
