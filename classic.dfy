/**
 * The self-contained first version of the game (main.go). Its package-level
 * variables become the fields of class Game: three rectangles, whole-number
 * velocities, the scores, the volley count and the state. Every procedure
 * of that file is a method proved against a function on Globals, the value
 * of all those variables, and the lemmas at the end state what a frame does.
 */
module Classic {
  import opened Rect
  import opened Floats
  import opened Platform
  import opened Bands
  import Helpers
  import Balls

  const GameScreenWidth: int := 1280
  const GameScreenHeight: int := 720
  const HalfGameScreenWidth: int := GameScreenWidth / 2
  const HalfGameScreenHeight: int := GameScreenHeight / 2
  /** ballSpeed and paddleSpeed, as the integers the untyped constant 15.0 becomes in integer context. */
  const BallSpeed: int := 15
  const PaddleSpeed: int := 15
  const PointsToWin: int := 10

  /** The state of this version, with its own declaration. */
  datatype GameState = Playing | Paused | GameOver | FirstService

  /** The package-level variables of the game. */
  datatype Globals = Globals(
    ball: Rectangle,
    player: Rectangle,
    enemy: Rectangle,
    ballXVelocity: int,
    ballYVelocity: int,
    playerPaddleVelocity: int,
    enemyPaddleVelocity: real,
    playerScoreCount: int,
    enemyScoreCount: int,
    volleyCount: int,
    currentGameState: GameState)

  /** The two rand.Intn(2) draws of one reduceBallSpeed: one for X, one for Y. */
  datatype Coins = Coins(x: int, y: int)

  /**
   * What one frame receives from outside: the coins of the serves after a
   * player point and after an enemy point, the arrow-key edges and the
   * rand.Float64() draw of enemyAI.
   */
  datatype ClassicInput = ClassicInput(playerPointCoins: Coins, enemyPointCoins: Coins, keys: KeyEdges, aiDraw: real)

  /**
   * The variables as declared, before init() runs: createGameObjects'
   * rectangles, velocities 0 and paddle speeds 0 and 15.0, scores and
   * volley count 0, state playing.
   */
  const Declared := Globals(
    Rectangle(GameScreenWidth / 2 - 10, GameScreenHeight / 2 - 10, 20, 20),
    Rectangle(GameScreenWidth - 70 - 20, HalfGameScreenHeight - 110 / 2, 20, 110),
    Rectangle(70, HalfGameScreenHeight - 110 / 2, 20, 110),
    0, 0, 0, 15.0, 0, 0, 0, Playing)

  /** One component of reduceBallSpeed: ballSpeed * randomChoice(-1, 1) / 3. */
  function ServeSpeed(coin: int): (v: int)
    ensures v == 5 || v == -5
    ensures v == -5 <==> coin == 0
  {
    BallSpeed * Helpers.RandomChoice(-1, 1, coin) / 3
  }

  /**
   * startNewRound: the state goes back to firstService, the volley count to
   * 0, the ball to the centre, and the ball is served at 5 px per frame on
   * each axis in directions the coins choose. Paddles and scores are kept.
   */
  function NewRound(g: Globals, c: Coins): (r: Globals)
    ensures r.currentGameState == FirstService && r.volleyCount == 0
    ensures r.ball.CenterX() == HalfGameScreenWidth && r.ball.CenterY() == HalfGameScreenHeight && r.ball.SameSize(g.ball)
    ensures (r.ballXVelocity == 5 || r.ballXVelocity == -5) && (r.ballYVelocity == 5 || r.ballYVelocity == -5)
    ensures r.ballXVelocity < 0 <==> c.x == 0
    ensures r.ballYVelocity < 0 <==> c.y == 0
    ensures r.player == g.player && r.enemy == g.enemy
    ensures r.playerPaddleVelocity == g.playerPaddleVelocity && r.enemyPaddleVelocity == g.enemyPaddleVelocity
    ensures r.playerScoreCount == g.playerScoreCount && r.enemyScoreCount == g.enemyScoreCount
  {
    g.(currentGameState := FirstService, volleyCount := 0,
       ball := g.ball.Centered(HalfGameScreenWidth, HalfGameScreenHeight),
       ballXVelocity := ServeSpeed(c.x), ballYVelocity := ServeSpeed(c.y))
  }

  /** increaseBallSpeed on one component: 15 with the component's sign, 0 counting as positive. */
  function FullSpeed(v: int): (r: int)
    ensures r == BallSpeed || r == -BallSpeed
    ensures r < 0 <==> v < 0
  {
    (if v < 0 then -1 else 1) * BallSpeed
  }

  /**
   * The wall check of ballMovement: a ball above the top or below the
   * bottom is put back against that edge and its vertical velocity reversed.
   */
  function WallChecked(g: Globals): (r: Globals)
    ensures r.ball.X == g.ball.X && r.ball.SameSize(g.ball)
    ensures g.ball.Height <= GameScreenHeight ==> 0 <= r.ball.Top() && r.ball.Bottom() <= GameScreenHeight
    ensures r.ballYVelocity == (if g.ball.Top() < 0 || g.ball.Bottom() > GameScreenHeight then -g.ballYVelocity else g.ballYVelocity)
    ensures 0 <= g.ball.Top() && g.ball.Bottom() <= GameScreenHeight ==> r == g
    ensures r == g.(ball := r.ball, ballYVelocity := r.ballYVelocity)
  {
    if g.ball.Top() < 0 || g.ball.Bottom() > GameScreenHeight then
      var b := if g.ball.Bottom() >= GameScreenHeight then g.ball.WithBottom(GameScreenHeight) else g.ball.WithTop(0);
      g.(ball := b, ballYVelocity := -g.ballYVelocity)
    else
      g
  }

  /** The player scores: one more point, then game over at 10 or a new round. */
  function PlayerPoint(g: Globals, c: Coins): (r: Globals)
    ensures r.playerScoreCount == g.playerScoreCount + 1 && r.enemyScoreCount == g.enemyScoreCount
    ensures r.playerScoreCount == PointsToWin ==> r == g.(playerScoreCount := PointsToWin, currentGameState := GameOver)
    ensures r.playerScoreCount != PointsToWin ==> r == NewRound(g, c).(playerScoreCount := g.playerScoreCount + 1)
  {
    var t := g.(playerScoreCount := g.playerScoreCount + 1);
    if t.playerScoreCount == PointsToWin then t.(currentGameState := GameOver) else NewRound(t, c)
  }

  /** The enemy scores: one more point, then game over at 10 or a new round. */
  function EnemyPoint(g: Globals, c: Coins): (r: Globals)
    ensures r.enemyScoreCount == g.enemyScoreCount + 1 && r.playerScoreCount == g.playerScoreCount
    ensures r.enemyScoreCount == PointsToWin ==> r == g.(enemyScoreCount := PointsToWin, currentGameState := GameOver)
    ensures r.enemyScoreCount != PointsToWin ==> r == NewRound(g, c).(enemyScoreCount := g.enemyScoreCount + 1)
  {
    var t := g.(enemyScoreCount := g.enemyScoreCount + 1);
    if t.enemyScoreCount == PointsToWin then t.(currentGameState := GameOver) else NewRound(t, c)
  }

  /**
   * atAngle: int(math.Round(tan(angle) * ballXVelocity)), the vertical
   * speed for the given angle in degrees; tanDeg stands for math.Tan of the
   * angle in radians.
   */
  function AtAngle(tanDeg: real -> real, angle: real, vx: int): (y: int)
    ensures tanDeg(angle) * (vx as real) - 0.5 <= y as real <= tanDeg(angle) * (vx as real) + 0.5
  {
    Round(tanDeg(angle) * (vx as real))
  }

  /** The angles of bouncePlayer's three if-chains, one list per tier; the three lists are equal. */
  const BouncePlayerTiers: seq<seq<real>> := [
    [-135.0, -150.0, -165.0, 180.0, 180.0, 165.0, 150.0, 135.0],
    [-135.0, -150.0, -165.0, 180.0, 180.0, 165.0, 150.0, 135.0],
    [-135.0, -150.0, -165.0, 180.0, 180.0, 165.0, 150.0, 135.0]]

  /** bouncePlayer's angle list for the volley's tier. */
  function PlayerAngleTable(volleyCount: int): (t: seq<real>)
    ensures |t| == BandCount
  {
    BouncePlayerTiers[Tier(volleyCount)]
  }

  /** The if-chain of one tier finds the first band of the shared band search. */
  lemma ChainIsFirstBand(top: int, paddleTop: int, part: int)
    ensures FirstBand(top, paddleTop, part, 0) ==
            if top < paddleTop + part then 0
            else if top < paddleTop + part * 2 then 1
            else if top < paddleTop + part * 3 then 2
            else if top < paddleTop + part * 4 then 3
            else if top < paddleTop + part * 5 then 4
            else if top < paddleTop + part * 6 then 5
            else if top < paddleTop + part * 7 then 6
            else if top < paddleTop + part * 8 then 7
            else 8
  {
    assert FirstBand(top, paddleTop, part, 8) == 8;
    assert FirstBand(top, paddleTop, part, 7) == if top < paddleTop + part * 8 then 7 else 8;
    assert FirstBand(top, paddleTop, part, 6) == if top < paddleTop + part * 7 then 6 else FirstBand(top, paddleTop, part, 7);
    assert FirstBand(top, paddleTop, part, 5) == if top < paddleTop + part * 6 then 5 else FirstBand(top, paddleTop, part, 6);
    assert FirstBand(top, paddleTop, part, 4) == if top < paddleTop + part * 5 then 4 else FirstBand(top, paddleTop, part, 5);
    assert FirstBand(top, paddleTop, part, 3) == if top < paddleTop + part * 4 then 3 else FirstBand(top, paddleTop, part, 4);
    assert FirstBand(top, paddleTop, part, 2) == if top < paddleTop + part * 3 then 2 else FirstBand(top, paddleTop, part, 3);
    assert FirstBand(top, paddleTop, part, 1) == if top < paddleTop + part * 2 then 1 else FirstBand(top, paddleTop, part, 2);
  }

  /**
   * bounceEnemy and bouncePlayer: both velocity components go to full
   * speed, X is reversed, and when the ball's top falls into band k of the
   * paddle the vertical speed is set from angle k of the tier's table;
   * otherwise it keeps its full speed.
   */
  function Bounced(g: Globals, paddle: Rectangle, table: seq<real>, tanDeg: real -> real): (r: Globals)
    requires |table| == BandCount
    ensures r.ballXVelocity == -FullSpeed(g.ballXVelocity)
    ensures var k := HitBand(g.ball, paddle);
            r.ballYVelocity == if k < BandCount then AtAngle(tanDeg, table[k], r.ballXVelocity) else FullSpeed(g.ballYVelocity)
    ensures r == g.(ballXVelocity := r.ballXVelocity, ballYVelocity := r.ballYVelocity)
  {
    var vx := -FullSpeed(g.ballXVelocity);
    var k := HitBand(g.ball, paddle);
    g.(ballXVelocity := vx,
       ballYVelocity := if k < BandCount then AtAngle(tanDeg, table[k], vx) else FullSpeed(g.ballYVelocity))
  }

  /** The player-paddle check: one more volley, the ball against the paddle's left edge, bounced, play resumes. */
  function PlayerHit(g: Globals, tanDeg: real -> real): (r: Globals)
    ensures r.volleyCount == g.volleyCount + 1 && r.currentGameState == Playing
    ensures r.ball == g.ball.WithRight(g.player.Left())
    ensures r == Bounced(g.(volleyCount := g.volleyCount + 1, ball := r.ball), g.player,
                         PlayerAngleTable(g.volleyCount + 1), tanDeg).(currentGameState := Playing)
  {
    var t := g.(volleyCount := g.volleyCount + 1, ball := g.ball.WithRight(g.player.Left()));
    Bounced(t, t.player, PlayerAngleTable(t.volleyCount), tanDeg).(currentGameState := Playing)
  }

  /** The enemy-paddle check: one more volley, the ball against the paddle's right edge, bounced, play resumes. */
  function EnemyHit(g: Globals, tanDeg: real -> real): (r: Globals)
    ensures r.volleyCount == g.volleyCount + 1 && r.currentGameState == Playing
    ensures r.ball == g.ball.WithLeft(g.enemy.Right())
    ensures r == Bounced(g.(volleyCount := g.volleyCount + 1, ball := r.ball), g.enemy,
                         EnemyAngles(g.volleyCount + 1), tanDeg).(currentGameState := Playing)
  {
    var t := g.(volleyCount := g.volleyCount + 1, ball := g.ball.WithLeft(g.enemy.Right()));
    Bounced(t, t.enemy, EnemyAngles(t.volleyCount), tanDeg).(currentGameState := Playing)
  }

  /** After scoring, the paddle checks, the corner fix, normalisation and both paddles' moves leave the scores alone. */
  lemma LaterPhasesKeepScores(g: Globals, scored: Globals, input: ClassicInput, env: Env)
    requires g.currentGameState != Paused && g.currentGameState != GameOver
    requires scored == Scored(WallChecked(g.(ball := g.ball.Shifted(g.ballXVelocity, g.ballYVelocity))), input)
    ensures var r := Step(g, input, env);
            r.playerScoreCount == scored.playerScoreCount && r.enemyScoreCount == scored.enemyScoreCount
  {
    var hit := Hit(scored, env);
    var p := if env.overlaps(scored.ball, scored.player) then PlayerHit(scored, env.tanDeg) else scored;
    assert p.playerScoreCount == scored.playerScoreCount && p.enemyScoreCount == scored.enemyScoreCount;
    assert hit.playerScoreCount == scored.playerScoreCount && hit.enemyScoreCount == scored.enemyScoreCount;
    var c := CornerFixed(hit);
    var b := BallMoved(g, input, env);
    assert b.playerScoreCount == c.playerScoreCount && b.enemyScoreCount == c.enemyScoreCount;
  }

  /**
   * The four corner tests of noCornerStuck, in order; the corner's screen
   * coordinates when one holds. The first test that holds picks the corner:
   * top-left, then top-right, bottom-left and bottom-right.
   */
  function StuckCorner(b: Rectangle): (c: (bool, int, int))
    ensures c.0 <==> (b.Left() <= 0 || b.Right() >= GameScreenWidth) && (b.Top() <= 0 || b.Bottom() >= GameScreenHeight)
    ensures b.Left() <= 0 && b.Top() <= 0 ==> c == (true, 0, 0)
    ensures !(b.Left() <= 0 && b.Top() <= 0) && b.Right() >= GameScreenWidth && b.Top() <= 0 ==>
              c == (true, GameScreenWidth, 0)
    ensures !(b.Top() <= 0 && (b.Left() <= 0 || b.Right() >= GameScreenWidth)) &&
            b.Left() <= 0 && b.Bottom() >= GameScreenHeight ==>
              c == (true, 0, GameScreenHeight)
    ensures !(b.Top() <= 0 && (b.Left() <= 0 || b.Right() >= GameScreenWidth)) &&
            !(b.Left() <= 0 && b.Bottom() >= GameScreenHeight) &&
            b.Right() >= GameScreenWidth && b.Bottom() >= GameScreenHeight ==>
              c == (true, GameScreenWidth, GameScreenHeight)
    ensures !c.0 ==> c == (false, 0, 0)
  {
    if b.Left() <= 0 && b.Top() <= 0 then (true, 0, 0)
    else if b.Right() >= GameScreenWidth && b.Top() <= 0 then (true, GameScreenWidth, 0)
    else if b.Left() <= 0 && b.Bottom() >= GameScreenHeight then (true, 0, GameScreenHeight)
    else if b.Right() >= GameScreenWidth && b.Bottom() >= GameScreenHeight then (true, GameScreenWidth, GameScreenHeight)
    else (false, 0, 0)
  }

  /**
   * noCornerStuck: when the ball touches or passes a corner of the screen
   * its top-left is moved to that corner and both velocities are reversed;
   * otherwise nothing changes.
   */
  function CornerFixed(g: Globals): (r: Globals)
    ensures !StuckCorner(g.ball).0 ==> r == g
    ensures StuckCorner(g.ball).0 ==>
              r == g.(ball := g.ball.WithTopLeft(StuckCorner(g.ball).1, StuckCorner(g.ball).2),
                      ballXVelocity := -g.ballXVelocity, ballYVelocity := -g.ballYVelocity)
  {
    var c := StuckCorner(g.ball);
    if c.0 then
      g.(ball := g.ball.WithTopLeft(c.1, c.2), ballXVelocity := -g.ballXVelocity, ballYVelocity := -g.ballYVelocity)
    else
      g
  }

  /** The squared speed normalizeBallSpeed computes: math.Pow(float64(v), 2) for both components, added. */
  function SquaredSpeed(vx: int, vy: int): real {
    (vx as real) * (vx as real) + (vy as real) * (vy as real)
  }

  /** Both components scaled by a factor in (0, 1) and truncated toward zero: none grows or changes sign. */
  function Rescaled(vx: int, vy: int, factor: real): (r: (int, int))
    requires 0.0 < factor < 1.0
    ensures vx >= 0 ==> 0 <= r.0 <= vx
    ensures vx < 0 ==> vx <= r.0 <= 0
    ensures vy >= 0 ==> 0 <= r.1 <= vy
    ensures vy < 0 ==> vy <= r.1 <= 0
  {
    ShrunkComponent(vx, factor);
    ShrunkComponent(vy, factor);
    (Trunc(vx as real * factor), Trunc(vy as real * factor))
  }

  /**
   * normalizeBallSpeed on whole-number velocities: when sqrt(X^2 + Y^2)
   * exceeds 15 both components are scaled by 15 / speed and truncated
   * toward zero. No component grows or changes sign.
   */
  function NormalizedVelocity(vx: int, vy: int, sqrt: real -> real): (r: (int, int))
    ensures sqrt(SquaredSpeed(vx, vy)) <= 15.0 ==> r == (vx, vy)
    ensures vx >= 0 ==> 0 <= r.0 <= vx
    ensures vx < 0 ==> vx <= r.0 <= 0
    ensures vy >= 0 ==> 0 <= r.1 <= vy
    ensures vy < 0 ==> vy <= r.1 <= 0
  {
    var speed := sqrt(SquaredSpeed(vx, vy));
    if speed > 15.0 then
      Balls.FactorInUnit(speed);
      Rescaled(vx, vy, 15.0 / speed)
    else
      (vx, vy)
  }

  /** With an exact square root, the normalised velocity is at most 15 pixels per frame fast. */
  lemma NormalizedIsSlow(vx: int, vy: int, sqrt: real -> real)
    requires Balls.IsRootOf(sqrt(SquaredSpeed(vx, vy)), SquaredSpeed(vx, vy))
    ensures var r := NormalizedVelocity(vx, vy, sqrt);
            r.0 * r.0 + r.1 * r.1 <= BallSpeed * BallSpeed
  {
    var speed := sqrt(SquaredSpeed(vx, vy));
    if speed > 15.0 {
      Balls.FactorInUnit(speed);
      RescaledExactly(vx, vy, speed);
      FastIsSlowed(vx, vy, 15.0 / speed);
    } else {
      SlowEnough(vx, vy, speed);
    }
  }

  /** NormalizedIsSlow for a square root that is exact everywhere. */
  lemma SlowUnderExactRoot(vx: int, vy: int, sqrt: real -> real)
    ensures var r := NormalizedVelocity(vx, vy, sqrt);
            ExactSqrt(sqrt) ==> r.0 * r.0 + r.1 * r.1 <= BallSpeed * BallSpeed
  {
    if ExactSqrt(sqrt) {
      var q := SquaredSpeed(vx, vy);
      assert q >= 0.0;
      assert Balls.IsRootOf(sqrt(q), q);
      NormalizedIsSlow(vx, vy, sqrt);
    }
  }

  /** Rescaling onto the circle of radius 15 and truncating leaves a squared speed of at most 225. */
  lemma FastIsSlowed(vx: int, vy: int, f: real)
    requires 0.0 < f < 1.0
    requires (vx as real * f) * (vx as real * f) + (vy as real * f) * (vy as real * f) == 225.0
    ensures var r := Rescaled(vx, vy, f);
            r.0 * r.0 + r.1 * r.1 <= BallSpeed * BallSpeed
  {
    TruncatedSquares(vx as real * f, vy as real * f);
  }

  /** A velocity whose exact speed is at most 15 has squared speed at most 225. */
  lemma SlowEnough(vx: int, vy: int, speed: real)
    requires speed <= 15.0
    ensures Balls.IsRootOf(speed, SquaredSpeed(vx, vy)) ==> vx * vx + vy * vy <= BallSpeed * BallSpeed
  {
    if Balls.IsRootOf(speed, SquaredSpeed(vx, vy)) {
      Balls.RootAtMost(speed, SquaredSpeed(vx, vy));
      assert SquaredSpeed(vx, vy) == (vx * vx + vy * vy) as real;
    }
  }

  /** Scaling a velocity of exact speed above 15 by 15 / speed gives squared speed exactly 225. */
  lemma RescaledExactly(vx: int, vy: int, speed: real)
    requires speed > 15.0 && Balls.IsRootOf(speed, SquaredSpeed(vx, vy))
    ensures var f := 15.0 / speed;
            (vx as real * f) * (vx as real * f) + (vy as real * f) * (vy as real * f) == 225.0
  {
    var f := 15.0 / speed;
    var v := Helpers.Vector2D(vx as real, vy as real);
    Balls.FactorBelowOne(speed);
    assert Balls.SquaredSpeed(v) == SquaredSpeed(vx, vy);
    Balls.ScaledSquare(v, f, speed);
  }

  /** Truncating both components of a vector of squared length 225 leaves a squared length of at most 225. */
  lemma TruncatedSquares(a: real, b: real)
    requires a * a + b * b == 225.0
    ensures Trunc(a) * Trunc(a) + Trunc(b) * Trunc(b) <= BallSpeed * BallSpeed
  {
    SquareBelow(Trunc(a), a);
    SquareBelow(Trunc(b), b);
    SumOfSquaresBelow(Trunc(a), Trunc(b), a, b);
  }

  lemma SumOfSquaresBelow(x: int, y: int, a: real, b: real)
    requires (x * x) as real <= a * a && (y * y) as real <= b * b && a * a + b * b == 225.0
    ensures x * x + y * y <= BallSpeed * BallSpeed
  {
    assert (x * x + y * y) as real == (x * x) as real + (y * y) as real;
  }

  /** A component scaled by a factor in (0, 1) and truncated keeps its sign and does not grow. */
  lemma ShrunkComponent(v: int, f: real)
    requires 0.0 < f < 1.0
    ensures v >= 0 ==> 0 <= Trunc(v as real * f) <= v
    ensures v < 0 ==> v <= Trunc(v as real * f) <= 0
  {
    var x := v as real * f;
    var w := v as real;
    TruncShrinks(x);
    if v >= 0 {
      Helpers.PositiveProduct(w, f);
      Helpers.PositiveProduct(w, 1.0 - f);
      assert w * (1.0 - f) == w - x;
      assert x <= w;
    } else {
      Helpers.PositiveProduct(-w, f);
      assert (-w) * f == -x;
      Helpers.PositiveProduct(-w, 1.0 - f);
      assert (-w) * (1.0 - f) == x - w;
      assert w <= x;
    }
  }

  /** Truncation toward zero does not increase the square. */
  lemma SquareBelow(n: int, x: real)
    requires n == Trunc(x)
    ensures (n * n) as real <= x * x
  {
    TruncShrinks(x);
    var a := n as real;
    assert (n * n) as real == a * a;
    if x >= 0.0 {
      assert 0.0 <= a <= x;
      assert x * x - a * a == (x - a) * (x + a);
      Helpers.PositiveProduct(x - a, x + a + 1.0);
      assert (x - a) * (x + a + 1.0) == (x - a) * (x + a) + (x - a);
    } else {
      assert x <= a <= 0.0;
      assert x * x - a * a == (a - x) * (-a - x);
      Helpers.PositiveProduct(a - x, -a - x + 1.0);
      assert (a - x) * (-a - x + 1.0) == (a - x) * (-a - x) + (a - x);
    }
  }

  /** The vertical velocity after the arrow keys of playerMovement: Up subtracts 15, Down adds 15, a press wins over a release. */
  function KeyedVelocity(v: int, keys: KeyEdges): (r: int)
    ensures r == v - (if keys.upPressed then PaddleSpeed else if keys.upReleased then -PaddleSpeed else 0)
                   + (if keys.downPressed then PaddleSpeed else if keys.downReleased then -PaddleSpeed else 0)
    ensures keys == NoKeys ==> r == v
  {
    var afterUp := if keys.upPressed then v - PaddleSpeed else if keys.upReleased then v + PaddleSpeed else v;
    if keys.downPressed then afterUp + PaddleSpeed else if keys.downReleased then afterUp - PaddleSpeed else afterUp
  }

  /** playerMovement: new velocity from the keys, move by it, keep the paddle on screen. */
  function PlayerMoved(g: Globals, keys: KeyEdges): (r: Globals)
    ensures r.playerPaddleVelocity == KeyedVelocity(g.playerPaddleVelocity, keys)
    ensures r.player == g.player.Shifted(0, r.playerPaddleVelocity).ClampedY(0, GameScreenHeight)
    ensures r.player.X == g.player.X && r.player.SameSize(g.player)
    ensures g.player.Height <= GameScreenHeight ==> 0 <= r.player.Top() && r.player.Bottom() <= GameScreenHeight
    ensures r == g.(player := r.player, playerPaddleVelocity := r.playerPaddleVelocity)
  {
    var v := KeyedVelocity(g.playerPaddleVelocity, keys);
    g.(playerPaddleVelocity := v, player := g.player.(Y := g.player.Y + v).ClampedY(0, GameScreenHeight))
  }

  /** enemyAI's step: int(enemyPaddleVelocity) - tmp, where tmp is -15 except on the feint draw, when it is 15. */
  function AiDistance(enemyPaddleVelocity: real, aiDraw: real): (d: int)
    ensures d == Trunc(enemyPaddleVelocity) - (if aiDraw > 0.1 then -PaddleSpeed else PaddleSpeed)
  {
    var tmp := if aiDraw > 0.1 then PaddleSpeed * -1 else PaddleSpeed;
    Trunc(enemyPaddleVelocity) - tmp
  }

  /**
   * enemyAI: down by d when the enemy's centre is above the ball's, then,
   * comparing the moved centre, up by d when it is below the ball's. An
   * enemy below the ball rises by d; one above it descends only when it
   * stays at or above the ball's centre.
   */
  function CentreTracked(e: Rectangle, ball: Rectangle, d: int): (r: Rectangle)
    ensures r.X == e.X && r.SameSize(e)
    ensures e.CenterY() > ball.CenterY() ==> r.Y == e.Y - d
    ensures e.CenterY() == ball.CenterY() ==> r.Y == e.Y
    ensures e.CenterY() < ball.CenterY() && e.CenterY() + d <= ball.CenterY() ==> r.Y == e.Y + d
    ensures e.CenterY() < ball.CenterY() && e.CenterY() + d > ball.CenterY() ==> r.Y == e.Y
  {
    var down := if e.CenterY() < ball.CenterY() then e.(Y := e.Y + d) else e;
    if down.CenterY() > ball.CenterY() then down.(Y := down.Y - d) else down
  }

  /** enemyMovement: enemyAI, then keep the paddle on screen. */
  function EnemyMoved(g: Globals, aiDraw: real): (r: Globals)
    ensures r.enemy == CentreTracked(g.enemy, g.ball, AiDistance(g.enemyPaddleVelocity, aiDraw)).ClampedY(0, GameScreenHeight)
    ensures r.enemy.X == g.enemy.X && r.enemy.SameSize(g.enemy)
    ensures g.enemy.Height <= GameScreenHeight ==> 0 <= r.enemy.Top() && r.enemy.Bottom() <= GameScreenHeight
    ensures r == g.(enemy := r.enemy)
  {
    g.(enemy := CentreTracked(g.enemy, g.ball, AiDistance(g.enemyPaddleVelocity, aiDraw)).ClampedY(0, GameScreenHeight))
  }

  /**
   * The scoring checks of ballMovement: the player's point first, then the
   * enemy's, tested on the ball as the player's point left it. The player
   * scores exactly when the ball's left edge is at or past 0; the enemy
   * scores at most once, and, when the player did not score, exactly when
   * the right edge is at or past 1280. A ball inside the screen changes
   * nothing, and the paddles are never touched.
   */
  function Scored(g: Globals, input: ClassicInput): (r: Globals)
    ensures r.playerScoreCount == g.playerScoreCount + (if g.ball.Left() <= 0 then 1 else 0)
    ensures r.enemyScoreCount == g.enemyScoreCount || r.enemyScoreCount == g.enemyScoreCount + 1
    ensures g.ball.Left() > 0 ==> (r.enemyScoreCount == g.enemyScoreCount + 1 <==> g.ball.Right() >= GameScreenWidth)
    ensures 0 < g.ball.Left() && g.ball.Right() < GameScreenWidth ==> r == g
    ensures r.player == g.player && r.enemy == g.enemy
    ensures r.enemyPaddleVelocity == g.enemyPaddleVelocity
  {
    var p := if g.ball.Left() <= 0 then PlayerPoint(g, input.playerPointCoins) else g;
    if p.ball.Right() >= GameScreenWidth then EnemyPoint(p, input.enemyPointCoins) else p
  }

  /**
   * The paddle checks of ballMovement: the player's paddle first, then the
   * enemy's, tested on the ball as the player's hit left it. A ball touching
   * neither paddle changes nothing; a hit on the player's paddle counts a
   * volley and resumes play; the scores and the paddles are never touched.
   */
  function Hit(g: Globals, env: Env): (r: Globals)
    ensures !env.overlaps(g.ball, g.player) && !env.overlaps(g.ball, g.enemy) ==> r == g
    ensures !env.overlaps(g.ball, g.player) && env.overlaps(g.ball, g.enemy) ==> r == EnemyHit(g, env.tanDeg)
    ensures env.overlaps(g.ball, g.player) ==> r.currentGameState == Playing && r.volleyCount >= g.volleyCount + 1
    ensures g.volleyCount <= r.volleyCount <= g.volleyCount + 2
    ensures r.playerScoreCount == g.playerScoreCount && r.enemyScoreCount == g.enemyScoreCount
    ensures r.player == g.player && r.enemy == g.enemy
    ensures r.enemyPaddleVelocity == g.enemyPaddleVelocity
  {
    var p := if env.overlaps(g.ball, g.player) then PlayerHit(g, env.tanDeg) else g;
    if env.overlaps(p.ball, p.enemy) then EnemyHit(p, env.tanDeg) else p
  }

  /** ballMovement: move, wall, scoring, paddles, corners, then normalise while playing. */
  function BallMoved(g: Globals, input: ClassicInput, env: Env): (r: Globals)
    ensures r.enemyPaddleVelocity == g.enemyPaddleVelocity
    ensures r.player == g.player && r.enemy == g.enemy
    ensures ExactSqrt(env.sqrt) && r.currentGameState == Playing ==>
              r.ballXVelocity * r.ballXVelocity + r.ballYVelocity * r.ballYVelocity <= BallSpeed * BallSpeed
  {
    var moved := g.(ball := g.ball.Shifted(g.ballXVelocity, g.ballYVelocity));
    var c := CornerFixed(Hit(Scored(WallChecked(moved), input), env));
    if c.currentGameState == Playing then
      var n := NormalizedVelocity(c.ballXVelocity, c.ballYVelocity, env.sqrt);
      SlowUnderExactRoot(c.ballXVelocity, c.ballYVelocity, env.sqrt);
      c.(ballXVelocity := n.0, ballYVelocity := n.1)
    else
      c
  }

  /** Game.Update: nothing while paused or over, otherwise ballMovement, playerMovement, enemyMovement. */
  function Step(g: Globals, input: ClassicInput, env: Env): (r: Globals)
    ensures g.currentGameState == Paused || g.currentGameState == GameOver ==> r == g
    ensures r.enemyPaddleVelocity == g.enemyPaddleVelocity
  {
    if g.currentGameState == Paused || g.currentGameState == GameOver then g
    else EnemyMoved(PlayerMoved(BallMoved(g, input, env), input.keys), input.aiDraw)
  }

  class Game {
    var ball: Rectangle
    var player: Rectangle
    var enemy: Rectangle
    var ballXVelocity: int
    var ballYVelocity: int
    var playerPaddleVelocity: int
    var enemyPaddleVelocity: real
    var playerScoreCount: int
    var enemyScoreCount: int
    var volleyCount: int
    var currentGameState: GameState

    function Snapshot(): Globals
      reads this
    {
      Globals(ball, player, enemy, ballXVelocity, ballYVelocity, playerPaddleVelocity, enemyPaddleVelocity,
              playerScoreCount, enemyScoreCount, volleyCount, currentGameState)
    }

    /** The variable declarations with createGameObjects, then init()'s startNewRound. */
    constructor (c: Coins)
      ensures Snapshot() == NewRound(Declared, c)
    {
      ball := Declared.ball;
      player := Declared.player;
      enemy := Declared.enemy;
      ballXVelocity, ballYVelocity := 0, 0;
      playerPaddleVelocity, enemyPaddleVelocity := 0, 15.0;
      playerScoreCount, enemyScoreCount := 0, 0;
      volleyCount := 0;
      currentGameState := Playing;
      new;
      StartNewRound(c);
    }

    method StartNewRound(c: Coins)
      modifies this
      ensures Snapshot() == NewRound(old(Snapshot()), c)
    {
      currentGameState := FirstService;
      volleyCount := 0;
      ball := ball.Centered(HalfGameScreenWidth, HalfGameScreenHeight);
      ReduceBallSpeed(c);
    }

    method UpdateBallPosition()
      modifies this
      ensures Snapshot() == old(Snapshot()).(ball := old(ball).Shifted(old(ballXVelocity), old(ballYVelocity)))
    {
      ball := ball.(X := ball.X + ballXVelocity);
      ball := ball.(Y := ball.Y + ballYVelocity);
    }

    method ReduceBallSpeed(c: Coins)
      modifies this
      ensures Snapshot() == old(Snapshot()).(ballXVelocity := ServeSpeed(c.x), ballYVelocity := ServeSpeed(c.y))
    {
      ballXVelocity := BallSpeed * Helpers.RandomChoice(-1, 1, c.x) / 3;
      ballYVelocity := BallSpeed * Helpers.RandomChoice(-1, 1, c.y) / 3;
    }

    method IncreaseBallSpeed()
      modifies this
      ensures Snapshot() == old(Snapshot()).(ballXVelocity := FullSpeed(old(ballXVelocity)), ballYVelocity := FullSpeed(old(ballYVelocity)))
    {
      var signX := 1;
      if ballXVelocity < 0 {
        signX := -1;
      }
      var signY := 1;
      if ballYVelocity < 0 {
        signY := -1;
      }
      ballXVelocity := signX * BallSpeed;
      ballYVelocity := signY * BallSpeed;
    }

    /** ballMovement: move, wall, scoring, paddles, corners, then normalise while playing. */
    method BallMovement(input: ClassicInput, env: Env)
      modifies this
      ensures Snapshot() == BallMoved(old(Snapshot()), input, env)
    {
      UpdateBallPosition();
      WallCheck();
      CheckScoring(input);
      CheckPaddleHits(env);
      NoCornerStuck();
      if currentGameState == Playing {
        NormalizeBallSpeed(env.sqrt);
      }
    }

    /** The wall check at the head of ballMovement. */
    method WallCheck()
      modifies this
      ensures Snapshot() == WallChecked(old(Snapshot()))
    {
      if ball.Top() < 0 || ball.Bottom() > GameScreenHeight {
        if ball.Bottom() >= GameScreenHeight {
          ball := ball.WithBottom(GameScreenHeight);
        } else {
          ball := ball.WithTop(0);
        }
        ballYVelocity := -ballYVelocity;
      }
    }

    /** The two scoring checks of ballMovement, left edge first. */
    method CheckScoring(input: ClassicInput)
      modifies this
      ensures Snapshot() == Scored(old(Snapshot()), input)
    {
      ghost var start := Snapshot();
      if ball.Left() <= 0 {
        playerScoreCount := playerScoreCount + 1;
        if playerScoreCount == PointsToWin {
          currentGameState := GameOver;
        } else {
          StartNewRound(input.playerPointCoins);
        }
      }
      assert Snapshot() == if start.ball.Left() <= 0 then PlayerPoint(start, input.playerPointCoins) else start;
      if ball.Right() >= GameScreenWidth {
        enemyScoreCount := enemyScoreCount + 1;
        if enemyScoreCount == PointsToWin {
          currentGameState := GameOver;
        } else {
          StartNewRound(input.enemyPointCoins);
        }
      }
    }

    /** The two paddle checks of ballMovement, the player's first. */
    method CheckPaddleHits(env: Env)
      modifies this
      ensures Snapshot() == Hit(old(Snapshot()), env)
    {
      ghost var start := Snapshot();
      if env.overlaps(ball, player) {
        volleyCount := volleyCount + 1;
        ball := ball.WithRight(player.Left());
        BouncePlayer(env.tanDeg);
        currentGameState := Playing;
      }
      assert Snapshot() == if env.overlaps(start.ball, start.player) then PlayerHit(start, env.tanDeg) else start;
      if env.overlaps(ball, enemy) {
        volleyCount := volleyCount + 1;
        ball := ball.WithLeft(enemy.Right());
        BounceEnemy(env.tanDeg);
        currentGameState := Playing;
      }
    }

    method NoCornerStuck()
      modifies this
      ensures Snapshot() == CornerFixed(old(Snapshot()))
    {
      var newX, newY;
      if ball.Left() <= 0 && ball.Top() <= 0 {
        newX, newY := 0, 0;
      } else if ball.Right() >= GameScreenWidth && ball.Top() <= 0 {
        newX, newY := GameScreenWidth, 0;
      } else if ball.Left() <= 0 && ball.Bottom() >= GameScreenHeight {
        newX, newY := 0, GameScreenHeight;
      } else if ball.Right() >= GameScreenWidth && ball.Bottom() >= GameScreenHeight {
        newX, newY := GameScreenWidth, GameScreenHeight;
      } else {
        return;
      }
      ball := ball.WithTopLeft(newX, newY);
      ballXVelocity := -ballXVelocity;
      ballYVelocity := -ballYVelocity;
    }

    method NormalizeBallSpeed(sqrt: real -> real)
      modifies this
      ensures Snapshot() == old(Snapshot()).(ballXVelocity := NormalizedVelocity(old(ballXVelocity), old(ballYVelocity), sqrt).0,
                                             ballYVelocity := NormalizedVelocity(old(ballXVelocity), old(ballYVelocity), sqrt).1)
    {
      var n := NormalizedVelocity(ballXVelocity, ballYVelocity, sqrt);
      ballXVelocity, ballYVelocity := n.0, n.1;
    }

    /**
     * One of the if-chains of bounceEnemy and bouncePlayer: the first of the
     * eight bands of height part below paddleTop that the ball's top lies
     * above sets the vertical speed from that band's angle.
     */
    method BandChain(top: int, paddleTop: int, part: int, table: seq<real>, tanDeg: real -> real)
      requires |table| == BandCount
      modifies this
      ensures var k := FirstBand(top, paddleTop, part, 0);
              Snapshot() == old(Snapshot()).(ballYVelocity :=
                if k < BandCount then AtAngle(tanDeg, table[k], old(ballXVelocity)) else old(ballYVelocity))
    {
      ChainIsFirstBand(top, paddleTop, part);
      if top < paddleTop + part {
        ballYVelocity := AtAngle(tanDeg, table[0], ballXVelocity);
      } else if top < paddleTop + part * 2 {
        ballYVelocity := AtAngle(tanDeg, table[1], ballXVelocity);
      } else if top < paddleTop + part * 3 {
        ballYVelocity := AtAngle(tanDeg, table[2], ballXVelocity);
      } else if top < paddleTop + part * 4 {
        ballYVelocity := AtAngle(tanDeg, table[3], ballXVelocity);
      } else if top < paddleTop + part * 5 {
        ballYVelocity := AtAngle(tanDeg, table[4], ballXVelocity);
      } else if top < paddleTop + part * 6 {
        ballYVelocity := AtAngle(tanDeg, table[5], ballXVelocity);
      } else if top < paddleTop + part * 7 {
        ballYVelocity := AtAngle(tanDeg, table[6], ballXVelocity);
      } else if top < paddleTop + part * 8 {
        ballYVelocity := AtAngle(tanDeg, table[7], ballXVelocity);
      }
    }

    method BounceEnemy(tanDeg: real -> real)
      modifies this
      ensures Snapshot() == Bounced(old(Snapshot()), old(enemy), EnemyAngles(old(volleyCount)), tanDeg)
    {
      IncreaseBallSpeed();
      ballXVelocity := -ballXVelocity;
      var part := enemy.Height / 8;
      if volleyCount < 4 {
        BandChain(ball.Top(), enemy.Top(), part, [-45.0, -30.0, -15.0, 0.0, 0.0, 15.0, 30.0, 45.0], tanDeg);
      }
      if volleyCount >= 4 && volleyCount < 8 {
        BandChain(ball.Top(), enemy.Top(), part, [-60.0, -45.0, -30.0, -15.0, 0.0, 0.0, 15.0, 30.0], tanDeg);
      }
      if volleyCount >= 8 {
        BandChain(ball.Top(), enemy.Top(), part, [-75.0, -60.0, -45.0, -30.0, -15.0, 0.0, 15.0, 30.0], tanDeg);
      }
    }

    method BouncePlayer(tanDeg: real -> real)
      modifies this
      ensures Snapshot() == Bounced(old(Snapshot()), old(player), PlayerAngleTable(old(volleyCount)), tanDeg)
    {
      IncreaseBallSpeed();
      ballXVelocity := -ballXVelocity;
      var part := player.Height / 8;
      var angles := [-135.0, -150.0, -165.0, 180.0, 180.0, 165.0, 150.0, 135.0];
      if volleyCount < 4 {
        BandChain(ball.Y, player.Y, part, angles, tanDeg);
      }
      if volleyCount >= 4 && volleyCount < 8 {
        BandChain(ball.Y, player.Y, part, angles, tanDeg);
      }
      if volleyCount >= 8 {
        BandChain(ball.Y, player.Y, part, angles, tanDeg);
      }
    }

    method PlayerMovement(keys: KeyEdges)
      modifies this
      ensures Snapshot() == PlayerMoved(old(Snapshot()), keys)
    {
      if keys.upPressed {
        playerPaddleVelocity := playerPaddleVelocity - PaddleSpeed;
      } else if keys.upReleased {
        playerPaddleVelocity := playerPaddleVelocity + PaddleSpeed;
      }
      if keys.downPressed {
        playerPaddleVelocity := playerPaddleVelocity + PaddleSpeed;
      } else if keys.downReleased {
        playerPaddleVelocity := playerPaddleVelocity - PaddleSpeed;
      }

      player := player.(Y := player.Y + playerPaddleVelocity);

      if player.Top() < 0 {
        player := player.WithTop(0);
      }
      if player.Bottom() > GameScreenHeight {
        player := player.WithBottom(GameScreenHeight);
      }
    }

    method EnemyMovement(aiDraw: real)
      modifies this
      ensures Snapshot() == EnemyMoved(old(Snapshot()), aiDraw)
    {
      EnemyAI(aiDraw);
      if enemy.Top() < 0 {
        enemy := enemy.WithTop(0);
      }
      if enemy.Bottom() > GameScreenHeight {
        enemy := enemy.WithBottom(GameScreenHeight);
      }
    }

    method EnemyAI(aiDraw: real)
      modifies this
      ensures Snapshot() == old(Snapshot()).(enemy := CentreTracked(old(enemy), old(ball), AiDistance(old(enemyPaddleVelocity), aiDraw)))
    {
      var tmp: int;
      if aiDraw > 0.1 {
        tmp := PaddleSpeed * -1;
      } else {
        tmp := PaddleSpeed;
      }
      if enemy.CenterY() < ball.CenterY() {
        enemy := enemy.(Y := enemy.Y + (Trunc(enemyPaddleVelocity) - tmp));
      }
      if enemy.CenterY() > ball.CenterY() {
        enemy := enemy.(Y := enemy.Y - (Trunc(enemyPaddleVelocity) - tmp));
      }
    }

    /** Game.Update: one frame. */
    method Update(input: ClassicInput, env: Env)
      modifies this
      ensures Snapshot() == Step(old(Snapshot()), input, env)
    {
      if currentGameState == Paused {
        return;
      }
      if currentGameState == GameOver {
        return;
      }
      BallMovement(input, env);
      PlayerMovement(input.keys);
      EnemyMovement(input.aiDraw);
    }
  }

  /** A paddle in its column, 20x110 and on screen. */
  predicate PaddleInPlace(p: Rectangle, x: int) {
    p.X == x && p.Width == 20 && p.Height == 110 && 0 <= p.Top() && p.Bottom() <= GameScreenHeight
  }

  /**
   * What holds before and after every frame: never paused, a 20x20 ball
   * that is on screen vertically while the game goes on, both paddles in
   * their columns and on screen, the enemy's speed 15, scores between 0 and
   * 10, and game over exactly when one of them has reached 10.
   */
  predicate Inv(g: Globals) {
    g.currentGameState != Paused &&
    g.ball.Width == 20 && g.ball.Height == 20 &&
    (g.currentGameState != GameOver ==> 0 <= g.ball.Top() && g.ball.Bottom() <= GameScreenHeight) &&
    PaddleInPlace(g.player, Declared.player.X) && PaddleInPlace(g.enemy, Declared.enemy.X) &&
    g.enemyPaddleVelocity == 15.0 &&
    0 <= g.playerScoreCount <= PointsToWin && 0 <= g.enemyScoreCount <= PointsToWin &&
    (g.currentGameState == GameOver <==> g.playerScoreCount == PointsToWin || g.enemyScoreCount == PointsToWin)
  }

  /** The game as init() leaves it satisfies Inv. */
  lemma InitialInv(c: Coins)
    ensures Inv(NewRound(Declared, c))
  {
  }

  /** Update does nothing once the game is over, and nothing leaves game over. */
  lemma GameOverIsFinal(g: Globals, input: ClassicInput, env: Env)
    requires g.currentGameState == GameOver
    ensures Step(g, input, env) == g
  {
  }

  /**
   * After the scoring checks of a frame that started in play: Inv holds,
   * the paddles are untouched, and a game still going has its ball strictly
   * inside the screen horizontally, while a finished one has it past an edge.
   */
  lemma ScoredKeepsInv(walled: Globals, input: ClassicInput)
    requires Inv(walled) && walled.currentGameState != GameOver
    ensures var r := Scored(walled, input);
            Inv(r) && r.player == walled.player && r.enemy == walled.enemy &&
            r.enemyPaddleVelocity == walled.enemyPaddleVelocity &&
            (r.currentGameState != GameOver ==> 0 < r.ball.Left() && r.ball.Right() < GameScreenWidth) &&
            (r.currentGameState == GameOver ==> r.ball.Left() <= 0 || r.ball.Right() >= GameScreenWidth)
  {
    var p := if walled.ball.Left() <= 0 then PlayerPoint(walled, input.playerPointCoins) else walled;
    assert Inv(p);
    assert p.currentGameState == GameOver ==> p.ball.Left() <= 0;
  }

  /**
   * The paddle checks keep Inv, leave the ball strictly inside the screen
   * horizontally while the game goes on, and do nothing in a finished game
   * (its ball is past both paddles).
   */
  lemma HitKeepsInv(g: Globals, env: Env)
    requires Inv(g) && OverlapNeedsContact(env.overlaps)
    requires g.currentGameState != GameOver ==> 0 < g.ball.Left() && g.ball.Right() < GameScreenWidth
    requires g.currentGameState == GameOver ==> g.ball.Left() <= 0 || g.ball.Right() >= GameScreenWidth
    ensures var r := Hit(g, env);
            Inv(r) && r.player == g.player && r.enemy == g.enemy &&
            (r.currentGameState != GameOver ==> 0 < r.ball.Left() && r.ball.Right() < GameScreenWidth) &&
            (g.currentGameState == GameOver ==> r == g)
  {
    if g.currentGameState == GameOver {
      assert !(g.ball.Left() < g.player.Right() && g.player.Left() < g.ball.Right());
      assert !(g.ball.Left() < g.enemy.Right() && g.enemy.Left() < g.ball.Right());
    }
  }

  /** Every frame keeps Inv, provided overlapping rectangles touch horizontally. */
  lemma StepKeepsInv(g: Globals, input: ClassicInput, env: Env)
    requires Inv(g) && OverlapNeedsContact(env.overlaps)
    ensures Inv(Step(g, input, env))
  {
    if g.currentGameState != GameOver {
      var moved := g.(ball := g.ball.Shifted(g.ballXVelocity, g.ballYVelocity));
      var walled := WallChecked(moved);
      assert Inv(walled);
      ScoredKeepsInv(walled, input);
      var scored := Scored(walled, input);
      HitKeepsInv(scored, env);
      var hit := Hit(scored, env);
      var c := CornerFixed(hit);
      assert hit.currentGameState != GameOver ==> c == hit;
      var b := BallMoved(g, input, env);
      assert Inv(b);
    }
  }

  /**
   * noCornerStuck can only act in the frame that ends the match: in a frame
   * that leaves the game running, the ball reaching it is strictly inside
   * the screen horizontally, so no corner test holds.
   */
  lemma CornerGuardOnlyAtMatchEnd(g: Globals, input: ClassicInput, env: Env)
    requires Inv(g) && OverlapNeedsContact(env.overlaps) && g.currentGameState != GameOver
    ensures var moved := g.(ball := g.ball.Shifted(g.ballXVelocity, g.ballYVelocity));
            var hit := Hit(Scored(WallChecked(moved), input), env);
            StuckCorner(hit.ball).0 ==> hit.currentGameState == GameOver
  {
    var moved := g.(ball := g.ball.Shifted(g.ballXVelocity, g.ballYVelocity));
    var walled := WallChecked(moved);
    ScoredKeepsInv(walled, input);
    HitKeepsInv(Scored(walled, input), env);
  }

  /**
   * Scoring in one frame: the player gets exactly one point when the ball
   * after its move and wall check has its left edge at or past 0, the enemy
   * exactly one when its right edge is at or past 1280, never both.
   */
  lemma ScoreAccounting(g: Globals, input: ClassicInput, env: Env)
    requires Inv(g) && g.currentGameState != GameOver
    ensures var b := WallChecked(g.(ball := g.ball.Shifted(g.ballXVelocity, g.ballYVelocity))).ball;
            var r := Step(g, input, env);
            r.playerScoreCount == g.playerScoreCount + (if b.Left() <= 0 then 1 else 0) &&
            r.enemyScoreCount == g.enemyScoreCount + (if b.Right() >= GameScreenWidth then 1 else 0) &&
            !(b.Left() <= 0 && b.Right() >= GameScreenWidth)
  {
    var walled := WallChecked(g.(ball := g.ball.Shifted(g.ballXVelocity, g.ballYVelocity)));
    var p := if walled.ball.Left() <= 0 then PlayerPoint(walled, input.playerPointCoins) else walled;
    assert p.ball.Right() < GameScreenWidth || walled.ball.Left() > 0;
    var scored := Scored(walled, input);
    assert scored.playerScoreCount == g.playerScoreCount + (if walled.ball.Left() <= 0 then 1 else 0);
    assert scored.enemyScoreCount == g.enemyScoreCount + (if walled.ball.Right() >= GameScreenWidth then 1 else 0);
    LaterPhasesKeepScores(g, scored, input, env);
  }

  /** bouncePlayer's result does not depend on the volley count. */
  lemma BouncePlayerIgnoresVolley(g: Globals, paddle: Rectangle, volleyA: int, volleyB: int, tanDeg: real -> real)
    ensures Bounced(g, paddle, PlayerAngleTable(volleyA), tanDeg) == Bounced(g, paddle, PlayerAngleTable(volleyB), tanDeg)
  {
  }

  /**
   * A hit below the eighth band of the 110 px enemy paddle (13 px bands)
   * leaves the vertical speed at its accelerated 15, with the sign it had.
   */
  lemma NoBandKeepsFullSpeed(g: Globals, tanDeg: real -> real)
    requires g.enemy.Height == 110 && g.ball.Top() >= g.enemy.Top() + 104
    ensures Bounced(g, g.enemy, EnemyAngles(g.volleyCount), tanDeg).ballYVelocity == FullSpeed(g.ballYVelocity)
  {
    FirstBandIsOffsetQuotient(g.ball.Top(), g.enemy.Top(), 13);
  }

  /**
   * enemyAI with the enemy's speed of 15: 30 px per step, or nothing on the
   * feint draw. An enemy whose centre is below the ball's rises by 30; one
   * whose centre is above descends by 30 only when it is at least 30 px
   * above, and otherwise stays.
   */
  lemma TrackingAtSpeed15(e: Rectangle, ball: Rectangle, aiDraw: real)
    ensures aiDraw > 0.1 ==> AiDistance(15.0, aiDraw) == 30
    ensures aiDraw <= 0.1 ==> AiDistance(15.0, aiDraw) == 0 && CentreTracked(e, ball, 0) == e
    ensures var r := CentreTracked(e, ball, 30);
            (e.CenterY() > ball.CenterY() ==> r.Y == e.Y - 30) &&
            (e.CenterY() + 30 <= ball.CenterY() ==> r.Y == e.Y + 30) &&
            (e.CenterY() < ball.CenterY() < e.CenterY() + 30 ==> r.Y == e.Y)
  {
    assert Trunc(15.0) == 15;
  }
}
