/**
 * The player of the struct version: a keyboard-driven paddle that stays on
 * screen, and the bounce of the ball off it, whose vertical speed is taken
 * from one of three eight-angle tables.
 */
module Players {
  import opened Rect
  import opened Floats
  import opened Helpers
  import opened Settings
  import opened Platform
  import opened Bands
  import opened Paddles
  import opened Balls

  /** newPlayer: a 20x110 paddle 70 px from the right edge, vertically centred, speed 15. */
  const InitialPlayerPaddle :=
    PaddleState(Rectangle(ScreenWidth - 70 - 20, HalfGameScreenHeight - 110 / 2, 20, 110), Zero, 15.0)

  /** The player's bounce angles, in degrees, one list per difficulty tier. */
  const PlayerTiers: seq<seq<real>> := [
    [-135.0, -150.0, -165.0, -180.0, -180.0, 165.0, 150.0, 135.0],
    [-150.0, -165.0, -180.0, -180.0, 165.0, 150.0, 135.0, 120.0],
    [-165.0, -180.0, -180.0, 165.0, 150.0, 135.0, 120.0, 105.0]]

  /** The player's angle list for the volley's tier. */
  function PlayerAngles(volleyCount: int): (t: seq<real>)
    ensures |t| == BandCount
  {
    PlayerTiers[Tier(volleyCount)]
  }

  /** Player.Update: apply the key edges, move by the rounded velocity, keep the paddle on screen. */
  function PlayerMoved(p: PaddleState, keys: KeyEdges): (r: PaddleState)
    ensures r.speed == p.speed
    ensures r.velocity == Vector2D(p.velocity.X, InputVelocityY(p.velocity.Y, p.speed, keys))
    ensures r.position.X == p.position.X && r.position.SameSize(p.position)
    ensures p.position.Height <= ScreenHeight ==> 0 <= r.position.Top() && r.position.Bottom() <= ScreenHeight
    ensures r.position == p.position.Shifted(0, Round(r.velocity.Y)).ClampedY(0, ScreenHeight)
  {
    var v := Vector2D(p.velocity.X, InputVelocityY(p.velocity.Y, p.speed, keys));
    var moved := p.position.(Y := p.position.Y + Round(v.Y));
    PaddleState(moved.ClampedY(0, ScreenHeight), v, p.speed)
  }

  /**
   * Player.bounce: the horizontal velocity is reversed and, when the ball's
   * top falls into a band, the vertical velocity is set from that band's
   * angle in the table of the current tier; otherwise it is kept.
   */
  function PlayerBounced(b: BallState, paddle: Rectangle, volleyCount: int, tanDeg: real -> real): (r: BallState)
    ensures r.position == b.position && r.velocity.X == -b.velocity.X
    ensures HitBand(b.position, paddle) == BandCount ==> r.velocity.Y == b.velocity.Y
  {
    var k := HitBand(b.position, paddle);
    var vx := -b.velocity.X;
    var vy := if k < BandCount then AtAngle(tanDeg, PlayerAngles(volleyCount)[k], vx) else b.velocity.Y;
    BallState(b.position, Vector2D(vx, vy))
  }

  class Player {
    const paddle: Paddle
    var score: int

    /** newPlayer. */
    constructor ()
      ensures fresh(paddle) && paddle.State() == InitialPlayerPaddle && score == 0
    {
      paddle := new Paddle(InitialPlayerPaddle.position, InitialPlayerPaddle.speed);
      score := 0;
    }

    method Update(keys: KeyEdges)
      modifies paddle
      ensures paddle.State() == PlayerMoved(old(paddle.State()), keys)
    {
      paddle.Input(keys);
      paddle.position := paddle.position.(Y := paddle.position.Y + Round(paddle.velocity.Y));
      if paddle.position.Top() < 0 {
        paddle.position := paddle.position.WithTop(0);
      }
      if paddle.position.Bottom() > ScreenHeight {
        paddle.position := paddle.position.WithBottom(ScreenHeight);
      }
    }

    /**
     * bounce: returns the band the loop stopped at (8 when it ran out), so
     * that the band and the angle it selects can be stated.
     */
    method Bounce(ball: Ball, volleyCount: int, tanDeg: real -> real) returns (band: nat)
      modifies ball
      ensures band == HitBand(old(ball.position), paddle.position)
      ensures ball.State() == PlayerBounced(old(ball.State()), paddle.position, volleyCount, tanDeg)
    {
      ball.velocity := ball.velocity.(X := -ball.velocity.X);
      var part := paddle.position.Height / 8;
      var sl := PlayerAngles(volleyCount);
      // The loop moves neither the ball nor the paddle, so both tops are read once.
      var ballTop, paddleTop := ball.position.Top(), paddle.position.Top();
      ghost var vx := ball.velocity.X;
      band := 0;
      while band < BandCount
        invariant band <= BandCount
        invariant FirstBand(ballTop, paddleTop, part, band) == HitBand(old(ball.position), paddle.position)
        invariant ball.position == old(ball.position)
        invariant ball.velocity == Vector2D(vx, old(ball.velocity).Y)
      {
        if ballTop < paddleTop + part * (band + 1) {
          ball.velocity := ball.velocity.(Y := AtAngle(tanDeg, sl[band], ball.velocity.X));
          break;
        }
        band := band + 1;
      }
    }
  }

  /**
   * A hit whose top falls into band k of the paddle takes band k's angle
   * from the table of the volley's tier, applied to the reversed X velocity.
   */
  lemma PlayerBandAngle(b: BallState, paddle: Rectangle, volleyCount: int, tanDeg: real -> real, k: nat)
    requires paddle.Height >= 8 && k < BandCount
    requires k == 0 || paddle.Top() + (paddle.Height / 8) * k <= b.position.Top()
    requires b.position.Top() < paddle.Top() + (paddle.Height / 8) * (k + 1)
    ensures HitBand(b.position, paddle) == k
    ensures PlayerBounced(b, paddle, volleyCount, tanDeg).velocity.Y ==
            AtAngle(tanDeg, PlayerTiers[Tier(volleyCount)][k], -b.velocity.X)
  {
    HitBandIs(b.position, paddle, k);
  }

  /**
   * For the 110 px paddle the bands are 13 px high, so a ball whose top is
   * 104 px or more below the paddle's top matches no band and keeps the
   * vertical speed it came with.
   */
  lemma BottomStripMissesEveryBand(b: BallState, paddle: Rectangle, volleyCount: int, tanDeg: real -> real)
    requires paddle.Height == 110
    requires b.position.Top() >= paddle.Top() + 104
    ensures HitBand(b.position, paddle) == BandCount
    ensures PlayerBounced(b, paddle, volleyCount, tanDeg).velocity.Y == b.velocity.Y
  {
    FirstBandIsOffsetQuotient(b.position.Top(), paddle.Top(), 13);
  }
}
