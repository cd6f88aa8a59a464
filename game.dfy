/**
 * The game of the struct version: its state, newGame, startNewRound and the
 * per-frame Update (serve, ball move, scoring, game over, paddle hits,
 * player input and the enemy's tracking step). A Snapshot is the value of
 * everything Update reads or writes; class Game performs one frame in place
 * and is proved to compute Step of its snapshot. The lemmas that follow
 * state what a frame does to the score, the state and the paddles.
 */
module Games {
  import opened Rect
  import opened Floats
  import opened Helpers
  import opened Settings
  import opened Platform
  import opened Paddles
  import opened Balls
  import opened Players
  import opened Enemies

  datatype Snapshot = Snapshot(
    state: GameState,
    volleyCount: int,
    ball: BallState,
    player: PaddleState,
    playerScore: int,
    enemy: PaddleState,
    enemyScore: int,
    randomPosition: int)

  /**
   * What one frame receives from outside: the draws of the up to three
   * serves a frame can make (the first service, a new round after a player
   * point, one after an enemy point), the arrow-key edges, the
   * rand.Float64() draw of the enemy step and the acceleration amount of a
   * paddle hit.
   */
  datatype FrameInput = FrameInput(
    serve: ServeDraws,
    playerPointServe: ServeDraws,
    enemyPointServe: ServeDraws,
    keys: KeyEdges,
    aiDraw: real,
    amount: real)

  /** newGame: first service, the ball at rest in the middle, both scores 0. */
  const InitialSnapshot :=
    Snapshot(FirstService, 0, InitialBall, InitialPlayerPaddle, 0, InitialEnemyPaddle, 0, 0)

  /**
   * startNewRound: the volley count restarts and the ball is served again
   * from the centre of the screen. The state and the scores are left alone.
   */
  function NewRound(s: Snapshot, d: ServeDraws): (r: Snapshot)
    ensures r.volleyCount == 0
    ensures r.ball.position.CenterX() == HalfGameScreenWidth && r.ball.position.CenterY() == HalfGameScreenHeight
    ensures r.ball.position.SameSize(s.ball.position)
    ensures r.ball.velocity == InitialVelocity(d)
    ensures DrawsInRange(d) ==> r.ball.velocity.X != 0.0
    ensures r.state == s.state && r.playerScore == s.playerScore && r.enemyScore == s.enemyScore
    ensures r.player == s.player && r.enemy == s.enemy && r.randomPosition == s.randomPosition
  {
    s.(volleyCount := 0,
       ball := BallState(s.ball.position.Centered(HalfGameScreenWidth, HalfGameScreenHeight), InitialVelocity(d)))
  }

  /** The first serve: only in firstService and only while the ball is at rest. */
  function Serve(s: Snapshot, d: ServeDraws): (r: Snapshot)
    ensures s.state == FirstService && s.ball.velocity == Zero ==> r == NewRound(s, d)
    ensures !(s.state == FirstService && s.ball.velocity == Zero) ==> r == s
  {
    if s.state == FirstService && s.ball.velocity == Zero then NewRound(s, d) else s
  }

  /** The player scores: one more point, then game over at 10 or a new round. */
  function PlayerPoint(s: Snapshot, d: ServeDraws): (r: Snapshot)
    ensures r.playerScore == s.playerScore + 1 && r.enemyScore == s.enemyScore
    ensures r.playerScore == PointsToWin ==> r.state == GameOver && r.ball == s.ball && r.volleyCount == s.volleyCount
    ensures r.playerScore != PointsToWin ==> r == NewRound(s, d).(playerScore := s.playerScore + 1)
    ensures r.player == s.player && r.enemy == s.enemy && r.randomPosition == s.randomPosition
  {
    var t := s.(playerScore := s.playerScore + 1);
    if t.playerScore == PointsToWin then t.(state := GameOver) else NewRound(t, d)
  }

  /** The enemy scores: one more point, then game over at 10 or a new round. */
  function EnemyPoint(s: Snapshot, d: ServeDraws): (r: Snapshot)
    ensures r.enemyScore == s.enemyScore + 1 && r.playerScore == s.playerScore
    ensures r.enemyScore == PointsToWin ==> r.state == GameOver && r.ball == s.ball && r.volleyCount == s.volleyCount
    ensures r.enemyScore != PointsToWin ==> r == NewRound(s, d).(enemyScore := s.enemyScore + 1)
    ensures r.player == s.player && r.enemy == s.enemy && r.randomPosition == s.randomPosition
  {
    var t := s.(enemyScore := s.enemyScore + 1);
    if t.enemyScore == PointsToWin then t.(state := GameOver) else NewRound(t, d)
  }

  /**
   * The ball hits the player's paddle: one more volley, the ball is put
   * against the paddle's left edge, accelerated, bounced, play resumes and
   * the speed is normalised.
   */
  function PlayerHit(s: Snapshot, amount: real, env: Env): (r: Snapshot)
    ensures r.volleyCount == s.volleyCount + 1 && r.state == Playing
    ensures r.ball.position == s.ball.position.WithRight(s.player.position.Left())
    ensures r.playerScore == s.playerScore && r.enemyScore == s.enemyScore
    ensures r.player == s.player && r.enemy == s.enemy && r.randomPosition == s.randomPosition
  {
    var volley := s.volleyCount + 1;
    var placed := BallState(s.ball.position.WithRight(s.player.position.Left()), s.ball.velocity);
    var fast := placed.(velocity := Accelerated(placed.velocity, amount));
    var bounced := PlayerBounced(fast, s.player.position, volley, env.tanDeg);
    s.(volleyCount := volley, state := Playing,
       ball := bounced.(velocity := Normalized(bounced.velocity, env.sqrt)))
  }

  /** The ball hits the enemy's paddle: as PlayerHit, against the paddle's right edge. */
  function EnemyHit(s: Snapshot, amount: real, env: Env): (r: Snapshot)
    ensures r.volleyCount == s.volleyCount + 1 && r.state == Playing
    ensures r.ball.position == s.ball.position.WithLeft(s.enemy.position.Right())
    ensures r.playerScore == s.playerScore && r.enemyScore == s.enemyScore
    ensures r.player == s.player && r.enemy == s.enemy && r.randomPosition == s.randomPosition
  {
    var volley := s.volleyCount + 1;
    var placed := BallState(s.ball.position.WithLeft(s.enemy.position.Right()), s.ball.velocity);
    var fast := placed.(velocity := Accelerated(placed.velocity, amount));
    var bounced := EnemyBounced(fast, s.enemy.position, volley, env.tanDeg);
    s.(volleyCount := volley, state := Playing,
       ball := bounced.(velocity := Normalized(bounced.velocity, env.sqrt)))
  }

  /** PlayerHit, step by step as Update performs it. */
  lemma PlayerHitSteps(s: Snapshot, amount: real, env: Env, fast: BallState, bounced: BallState)
    requires fast == BallState(s.ball.position.WithRight(s.player.position.Left()), Accelerated(s.ball.velocity, amount))
    requires bounced == PlayerBounced(fast, s.player.position, s.volleyCount + 1, env.tanDeg)
    ensures PlayerHit(s, amount, env) ==
            s.(volleyCount := s.volleyCount + 1, state := Playing,
               ball := bounced.(velocity := Normalized(bounced.velocity, env.sqrt)))
  {
  }

  /** EnemyHit, step by step as Update performs it. */
  lemma EnemyHitSteps(s: Snapshot, amount: real, env: Env, fast: BallState, bounced: BallState)
    requires fast == BallState(s.ball.position.WithLeft(s.enemy.position.Right()), Accelerated(s.ball.velocity, amount))
    requires bounced == EnemyBounced(fast, s.enemy.position, s.volleyCount + 1, env.tanDeg)
    ensures EnemyHit(s, amount, env) ==
            s.(volleyCount := s.volleyCount + 1, state := Playing,
               ball := bounced.(velocity := Normalized(bounced.velocity, env.sqrt)))
  {
  }

  /** How far the enemy moves in the tracking step: 2 * speed, or nothing on the feint draw. */
  function TrackingDistance(speed: real, aiDraw: real): (d: int)
    ensures aiDraw <= 0.1 ==> d == 0
    ensures aiDraw > 0.1 && speed >= 0.0 ==> d >= 0
  {
    var tmp := if aiDraw > 0.1 then speed * -1.0 else speed;
    Round(speed - tmp)
  }

  /**
   * The tracking step before the clamp: down by d when the paddle's top is
   * above the ball's bottom, then, looking at the moved paddle, up by d when
   * its bottom is below the ball's top. A paddle that already spans part of
   * the ball's height goes down and back up; one above the ball moves down
   * only when its bottom ends up no lower than the ball's top.
   */
  function Tracked(e: Rectangle, ball: Rectangle, d: int): (r: Rectangle)
    ensures r.X == e.X && r.SameSize(e)
    ensures d == 0 ==> r == e
    ensures e.Height > 0 && ball.Height > 0 ==>
              (e.Top() >= ball.Bottom() ==> r.Y == e.Y - d) &&
              (e.Top() < ball.Bottom() && e.Bottom() > ball.Top() && d >= 0 ==> r.Y == e.Y) &&
              (e.Bottom() <= ball.Top() && e.Bottom() + d <= ball.Top() ==> r.Y == e.Y + d) &&
              (e.Bottom() <= ball.Top() && e.Bottom() + d > ball.Top() ==> r.Y == e.Y)
  {
    var down := if e.Top() < ball.Bottom() then e.(Y := e.Y + d) else e;
    if down.Bottom() > ball.Top() then down.(Y := down.Y - d) else down
  }

  /** The enemy's move for the frame: the tracking step, then Enemy.Update's clamp. */
  function EnemyStep(e: PaddleState, ball: Rectangle, aiDraw: real): (r: PaddleState)
    ensures r.velocity == e.velocity && r.speed == e.speed
    ensures r.position.X == e.position.X && r.position.SameSize(e.position)
    ensures e.position.Height <= ScreenHeight ==> 0 <= r.position.Top() && r.position.Bottom() <= ScreenHeight
    ensures aiDraw <= 0.1 ==> r.position == e.position.ClampedY(0, ScreenHeight)
  {
    var tracked := Tracked(e.position, ball, TrackingDistance(e.speed, aiDraw));
    e.(position := tracked.ClampedY(0, ScreenHeight))
  }

  /**
   * The scoring checks, in source order: the player's point first, then the
   * enemy's, tested on the ball as the player's point left it. The player
   * scores exactly when the ball's left edge is at or past 0; the enemy
   * scores at most once, and, when the player did not score, exactly when
   * the right edge is at or past 1280. A ball inside the screen changes
   * nothing, and the paddles are never touched.
   */
  function Scored(s: Snapshot, input: FrameInput): (r: Snapshot)
    ensures r.playerScore == s.playerScore + (if s.ball.position.Left() <= 0 then 1 else 0)
    ensures r.enemyScore == s.enemyScore || r.enemyScore == s.enemyScore + 1
    ensures s.ball.position.Left() > 0 ==>
              (r.enemyScore == s.enemyScore + 1 <==> s.ball.position.Right() >= ScreenWidth)
    ensures 0 < s.ball.position.Left() && s.ball.position.Right() < ScreenWidth ==> r == s
    ensures r.player == s.player && r.enemy == s.enemy && r.randomPosition == s.randomPosition
  {
    var a := if s.ball.position.Left() <= 0 then PlayerPoint(s, input.playerPointServe) else s;
    if a.ball.position.Right() >= ScreenWidth then EnemyPoint(a, input.enemyPointServe) else a
  }

  /**
   * The paddle checks, in source order: the player's paddle first, then the
   * enemy's, tested on the ball as the player's hit left it. A ball touching
   * neither paddle changes nothing; a hit on the player's paddle counts a
   * volley and resumes play; the scores, the paddles and the patrol target
   * are never touched.
   */
  function Hit(s: Snapshot, amount: real, env: Env): (r: Snapshot)
    ensures !env.overlaps(s.ball.position, s.player.position) && !env.overlaps(s.ball.position, s.enemy.position) ==> r == s
    ensures !env.overlaps(s.ball.position, s.player.position) && env.overlaps(s.ball.position, s.enemy.position) ==>
              r == EnemyHit(s, amount, env)
    ensures env.overlaps(s.ball.position, s.player.position) ==> r.state == Playing && r.volleyCount >= s.volleyCount + 1
    ensures s.volleyCount <= r.volleyCount <= s.volleyCount + 2
    ensures r.playerScore == s.playerScore && r.enemyScore == s.enemyScore
    ensures r.player == s.player && r.enemy == s.enemy && r.randomPosition == s.randomPosition
  {
    var a := if env.overlaps(s.ball.position, s.player.position) then PlayerHit(s, amount, env) else s;
    if env.overlaps(a.ball.position, a.enemy.position) then EnemyHit(a, amount, env) else a
  }

  /** Game.Update on a snapshot: nothing while paused or over, otherwise the phases in order. */
  function Step(s: Snapshot, input: FrameInput, env: Env): (r: Snapshot)
    ensures s.state == Paused || s.state == GameOver ==> r == s
    ensures r.randomPosition == s.randomPosition
  {
    if s.state == Paused || s.state == GameOver then s
    else
      var served := Serve(s, input.serve);
      var moved := served.(ball := Moved(served.ball));
      var hit := Hit(Scored(moved, input), input.amount, env);
      hit.(player := PlayerMoved(hit.player, input.keys), enemy := EnemyStep(hit.enemy, hit.ball.position, input.aiDraw))
  }

  class Game {
    var state: GameState
    var volleyCount: int
    const ball: Ball
    const player: Player
    const enemy: Enemy

    /** The paddles of the two sides are different objects. */
    ghost predicate Valid()
      reads this, player, enemy
    {
      player.paddle != enemy.paddle
    }

    function View(): Snapshot
      reads this, ball, player, enemy, player.paddle, enemy.paddle
    {
      Snapshot(state, volleyCount, ball.State(), player.paddle.State(), player.score,
               enemy.paddle.State(), enemy.score, enemy.randomPosition)
    }

    /** newGame (the font it loads is not modelled). */
    constructor ()
      ensures Valid() && View() == InitialSnapshot
      ensures fresh(ball) && fresh(player) && fresh(enemy) && fresh(player.paddle) && fresh(enemy.paddle)
    {
      state := FirstService;
      volleyCount := 0;
      ball := new Ball();
      player := new Player();
      enemy := new Enemy();
    }

    method StartNewRound(d: ServeDraws)
      modifies this, ball
      ensures View() == NewRound(old(View()), d)
    {
      volleyCount := 0;
      ball.position := ball.position.Centered(HalfGameScreenWidth, HalfGameScreenHeight);
      ball.SetInitialVelocity(d);
    }

    /** Game.Update: one frame. */
    method Update(input: FrameInput, env: Env)
      requires Valid()
      modifies this, ball, player, enemy, player.paddle, enemy.paddle
      ensures Valid()
      ensures View() == Step(old(View()), input, env)
    {
      if state == Paused {
        return;
      }
      if state == GameOver {
        return;
      }

      if state == FirstService && ball.velocity.X == 0.0 && ball.velocity.Y == 0.0 {
        StartNewRound(input.serve);
      }
      ghost var served := View();
      assert served == Serve(old(View()), input.serve);

      ball.Update();
      CheckScoring(input);
      CheckPaddleHits(input.amount, env);
      MovePaddles(input);
    }

    /** The two scoring checks of Update: the ball past the left edge, then past the right edge. */
    method CheckScoring(input: FrameInput)
      modifies this, ball, player, enemy
      ensures View() == Scored(old(View()), input)
    {
      ghost var moved := View();
      if ball.position.Left() <= 0 {
        player.score := player.score + 1;
        if player.score == PointsToWin {
          state := GameOver;
        } else {
          StartNewRound(input.playerPointServe);
        }
      }
      assert View() == if moved.ball.position.Left() <= 0 then PlayerPoint(moved, input.playerPointServe) else moved;

      if ball.position.Right() >= ScreenWidth {
        enemy.score := enemy.score + 1;
        if enemy.score == PointsToWin {
          state := GameOver;
        } else {
          StartNewRound(input.enemyPointServe);
        }
      }
    }

    /** The two paddle checks of Update: the player's paddle, then the enemy's. */
    method CheckPaddleHits(amount: real, env: Env)
      modifies this, ball
      ensures View() == Hit(old(View()), amount, env)
    {
      if env.overlaps(ball.position, player.paddle.position) {
        BounceOffPlayer(amount, env);
      }
      if env.overlaps(ball.position, enemy.paddle.position) {
        BounceOffEnemy(amount, env);
      }
    }

    /** Everything but the ball, the volley count and the state still as in s. */
    ghost predicate PaddlesAsIn(s: Snapshot)
      reads this, player, enemy, player.paddle, enemy.paddle
    {
      player.paddle.State() == s.player && player.score == s.playerScore &&
      enemy.paddle.State() == s.enemy && enemy.score == s.enemyScore && enemy.randomPosition == s.randomPosition
    }

    /** The body of the player-paddle check. */
    method BounceOffPlayer(amount: real, env: Env)
      modifies this, ball
      ensures View() == PlayerHit(old(View()), amount, env)
    {
      ghost var s := View();
      volleyCount := volleyCount + 1;
      ball.position := ball.position.WithRight(player.paddle.position.Left());
      ghost var placed := ball.position;
      assert PaddlesAsIn(s);
      ball.Accelerate(amount);
      ghost var fast := ball.State();
      assert PaddlesAsIn(s);
      assert fast == BallState(placed, Accelerated(s.ball.velocity, amount));
      var _ := player.Bounce(ball, volleyCount, env.tanDeg);
      ghost var bounced := ball.State();
      assert PaddlesAsIn(s);
      assert bounced == PlayerBounced(fast, s.player.position, s.volleyCount + 1, env.tanDeg);
      state := Playing;
      ball.NormalizeSpeed(env.sqrt);
      assert PaddlesAsIn(s);
      assert View() == s.(volleyCount := s.volleyCount + 1, state := Playing, ball := ball.State());
      PlayerHitSteps(s, amount, env, fast, bounced);
    }

    /** The body of the enemy-paddle check. */
    method BounceOffEnemy(amount: real, env: Env)
      modifies this, ball
      ensures View() == EnemyHit(old(View()), amount, env)
    {
      ghost var s := View();
      volleyCount := volleyCount + 1;
      ball.position := ball.position.WithLeft(enemy.paddle.position.Right());
      ghost var placed := ball.position;
      assert PaddlesAsIn(s);
      ball.Accelerate(amount);
      ghost var fast := ball.State();
      assert PaddlesAsIn(s);
      assert fast == BallState(placed, Accelerated(s.ball.velocity, amount));
      var _ := enemy.Bounce(ball, volleyCount, env.tanDeg);
      ghost var bounced := ball.State();
      assert PaddlesAsIn(s);
      assert bounced == EnemyBounced(fast, s.enemy.position, s.volleyCount + 1, env.tanDeg);
      state := Playing;
      ball.NormalizeSpeed(env.sqrt);
      assert PaddlesAsIn(s);
      assert View() == s.(volleyCount := s.volleyCount + 1, state := Playing, ball := ball.State());
      EnemyHitSteps(s, amount, env, fast, bounced);
    }

    /** The end of Update: the player's input and move, then the enemy's tracking step and clamp. */
    method MovePaddles(input: FrameInput)
      requires Valid()
      modifies player.paddle, enemy.paddle
      ensures View() == old(View()).(player := PlayerMoved(old(View()).player, input.keys),
                                     enemy := EnemyStep(old(View()).enemy, old(View()).ball.position, input.aiDraw))
    {
      ghost var s := View();
      player.Update(input.keys);
      assert enemy.paddle.State() == s.enemy;

      // The enemy tracks the ball, unless the draw makes it hold still.
      var tmp: real;
      if input.aiDraw > 0.1 {
        tmp := enemy.paddle.speed * -1.0;
      } else {
        tmp := enemy.paddle.speed;
      }
      ghost var d := TrackingDistance(s.enemy.speed, input.aiDraw);
      assert Round(enemy.paddle.speed - tmp) == d;
      if enemy.paddle.position.Top() < ball.position.Bottom() {
        enemy.paddle.position := enemy.paddle.position.(Y := enemy.paddle.position.Y + Round(enemy.paddle.speed - tmp));
      }
      if enemy.paddle.position.Bottom() > ball.position.Top() {
        enemy.paddle.position := enemy.paddle.position.(Y := enemy.paddle.position.Y - Round(enemy.paddle.speed - tmp));
      }
      assert enemy.paddle.position == Tracked(s.enemy.position, s.ball.position, d);
      enemy.Update();
      assert enemy.paddle.State() == EnemyStep(s.enemy, s.ball.position, input.aiDraw);
      assert player.paddle.State() == PlayerMoved(s.player, input.keys);
    }
  }

  /** The paddle a side's rectangle must stay: its column, 20x110, on screen. */
  predicate PaddleInPlace(p: PaddleState, x: int, speed: real) {
    p.position.X == x && p.position.Width == 20 && p.position.Height == 110 &&
    0 <= p.position.Top() && p.position.Bottom() <= ScreenHeight && p.speed == speed
  }

  /**
   * What holds before and after every frame: the state is never paused, the
   * ball is 20x20, both paddles are in their columns and on screen, the
   * scores are between 0 and 10, and the game is over exactly when one of
   * them has reached 10.
   */
  predicate Inv(s: Snapshot) {
    s.state != Paused &&
    s.ball.position.Width == 20 && s.ball.position.Height == 20 &&
    PaddleInPlace(s.player, InitialPlayerPaddle.position.X, InitialPlayerPaddle.speed) &&
    PaddleInPlace(s.enemy, InitialEnemyPaddle.position.X, InitialEnemyPaddle.speed) &&
    0 <= s.playerScore <= PointsToWin && 0 <= s.enemyScore <= PointsToWin &&
    (s.state == GameOver <==> s.playerScore == PointsToWin || s.enemyScore == PointsToWin)
  }

  lemma InitialInv()
    ensures Inv(InitialSnapshot)
  {
  }

  /** Update returns at once while the game is paused or over; game over is never left. */
  lemma GameOverIsFinal(s: Snapshot, input: FrameInput, env: Env)
    requires s.state == GameOver
    ensures Step(s, input, env) == s
  {
  }

  /**
   * Scoring in one frame: the player gets exactly one point when the moved
   * ball's left edge is at or past 0, the enemy exactly one when its right
   * edge is at or past 1280, never both, and nobody otherwise.
   */
  lemma ScoreAccounting(s: Snapshot, input: FrameInput, env: Env)
    requires Inv(s) && s.state != GameOver
    ensures var b := Moved(Serve(s, input.serve).ball).position;
            var r := Step(s, input, env);
            r.playerScore == s.playerScore + (if b.Left() <= 0 then 1 else 0) &&
            r.enemyScore == s.enemyScore + (if b.Right() >= ScreenWidth then 1 else 0) &&
            !(b.Left() <= 0 && b.Right() >= ScreenWidth)
  {
    var served := Serve(s, input.serve);
    var moved := served.(ball := Moved(served.ball));
    var a := if moved.ball.position.Left() <= 0 then PlayerPoint(moved, input.playerPointServe) else moved;
    assert a.ball.position.Right() < ScreenWidth || moved.ball.position.Left() > 0;
  }

  /**
   * A ball that left the screen in a game-over frame is beyond either
   * paddle's column, so under OverlapNeedsContact it can hit neither.
   */
  lemma NoHitAfterExit(s: Snapshot, env: Env)
    requires OverlapNeedsContact(env.overlaps)
    requires s.ball.position.Width == 20
    requires PaddleInPlace(s.player, InitialPlayerPaddle.position.X, InitialPlayerPaddle.speed)
    requires PaddleInPlace(s.enemy, InitialEnemyPaddle.position.X, InitialEnemyPaddle.speed)
    requires s.ball.position.Left() <= 0 || s.ball.position.Right() >= ScreenWidth
    ensures !env.overlaps(s.ball.position, s.player.position)
    ensures !env.overlaps(s.ball.position, s.enemy.position)
  {
    assert !(s.ball.position.Left() < s.player.position.Right() && s.player.position.Left() < s.ball.position.Right());
    assert !(s.ball.position.Left() < s.enemy.position.Right() && s.enemy.position.Left() < s.ball.position.Right());
  }

  /**
   * After the scoring checks of a frame that started in play: the ball and
   * the paddles keep their sizes and places, the scores stay within 10,
   * the game is over exactly when one of them reached 10, and then the
   * ball is still beyond an edge.
   */
  lemma ScoredKeepsInv(moved: Snapshot, input: FrameInput)
    requires Inv(moved) && moved.state != GameOver
    ensures var r := Scored(moved, input);
            Inv(r) && r.player == moved.player && r.enemy == moved.enemy &&
            (r.state == GameOver ==> r.ball.position.Left() <= 0 || r.ball.position.Right() >= ScreenWidth)
  {
    var a := if moved.ball.position.Left() <= 0 then PlayerPoint(moved, input.playerPointServe) else moved;
    assert Inv(a);
    assert a.state == GameOver ==> a.ball.position.Left() <= 0;
  }

  /** The paddle checks keep Inv; in a game-over frame they do nothing, as the ball is past both paddles. */
  lemma HitKeepsInv(s: Snapshot, amount: real, env: Env)
    requires Inv(s) && OverlapNeedsContact(env.overlaps)
    requires s.state == GameOver ==> s.ball.position.Left() <= 0 || s.ball.position.Right() >= ScreenWidth
    ensures var r := Hit(s, amount, env);
            Inv(r) && r.player == s.player && r.enemy == s.enemy
  {
    if s.state == GameOver {
      NoHitAfterExit(s, env);
    }
  }

  /** Every frame keeps Inv, provided overlapping rectangles touch horizontally. */
  lemma StepKeepsInv(s: Snapshot, input: FrameInput, env: Env)
    requires Inv(s) && OverlapNeedsContact(env.overlaps)
    ensures Inv(Step(s, input, env))
  {
    if s.state != GameOver {
      var served := Serve(s, input.serve);
      var moved := served.(ball := Moved(served.ball));
      assert Inv(moved);
      ScoredKeepsInv(moved, input);
      var scored := Scored(moved, input);
      HitKeepsInv(scored, input.amount, env);
    }
  }

  /**
   * A paddle hit: one more volley, the ball against the paddle's face, play
   * resumes, and for a positive amount the ball leaves in the direction
   * opposite to the one it arrived in (a ball at rest horizontally counts
   * as arriving rightwards). With an exact square root its speed is at most 15.
   */
  lemma PlayerHitTurnsBall(s: Snapshot, amount: real, env: Env)
    requires amount > 0.0
    ensures var r := PlayerHit(s, amount, env);
            r.ball.position.Right() == s.player.position.Left() &&
            (r.ball.velocity.X < 0.0 <==> s.ball.velocity.X >= 0.0) &&
            (ExactSqrt(env.sqrt) ==> SquaredSpeed(r.ball.velocity) <= MaxBallSpeed * MaxBallSpeed)
  {
    var v := PlayerHit(s, amount, env).ball.velocity;
    var placed := s.ball.position.WithRight(s.player.position.Left());
    var fast := Accelerated(s.ball.velocity, amount);
    var bounced := PlayerBounced(BallState(placed, fast), s.player.position, s.volleyCount + 1, env.tanDeg);
    assert bounced.velocity.X == -fast.X;
    PositiveProduct(amount, MaxBallSpeed);
    assert fast.X != 0.0;
    SqrtOfSquaredSpeed(bounced.velocity, env.sqrt);
    NormalizedIsBounded(bounced.velocity, env.sqrt);
  }

  /** The same for the enemy's paddle, whose face is its right edge. */
  lemma EnemyHitTurnsBall(s: Snapshot, amount: real, env: Env)
    requires amount > 0.0
    ensures var r := EnemyHit(s, amount, env);
            r.ball.position.Left() == s.enemy.position.Right() &&
            (r.ball.velocity.X < 0.0 <==> s.ball.velocity.X >= 0.0) &&
            (ExactSqrt(env.sqrt) ==> SquaredSpeed(r.ball.velocity) <= MaxBallSpeed * MaxBallSpeed)
  {
    var placed := s.ball.position.WithLeft(s.enemy.position.Right());
    var fast := Accelerated(s.ball.velocity, amount);
    var bounced := EnemyBounced(BallState(placed, fast), s.enemy.position, s.volleyCount + 1, env.tanDeg);
    assert bounced.velocity.X == -fast.X;
    PositiveProduct(amount, MaxBallSpeed);
    assert fast.X != 0.0;
    SqrtOfSquaredSpeed(bounced.velocity, env.sqrt);
    NormalizedIsBounded(bounced.velocity, env.sqrt);
  }

  /** An exact square root is the root of every squared speed. */
  lemma SqrtOfSquaredSpeed(v: Vector2D, sqrt: real -> real)
    ensures ExactSqrt(sqrt) ==> IsRootOf(sqrt(SquaredSpeed(v)), SquaredSpeed(v))
  {
    if ExactSqrt(sqrt) {
      assert v.X * v.X >= 0.0 && v.Y * v.Y >= 0.0;
      assert SquaredSpeed(v) >= 0.0;
    }
  }

  /**
   * On the feint draw the enemy does not move before the clamp, so a
   * paddle on screen stays exactly where it was.
   */
  lemma FeintHoldsStill(e: PaddleState, ball: Rectangle, aiDraw: real)
    requires aiDraw <= 0.1
    requires 0 <= e.position.Top() && e.position.Bottom() <= ScreenHeight
    ensures EnemyStep(e, ball, aiDraw) == e
  {
  }

  /**
   * With the enemy's speed of 12 the tracking step is 24 px: a paddle
   * entirely below the ball moves up 24, one spanning part of the ball's
   * height stays, and one above the ball moves down 24 only if it then
   * still ends above the ball's top (all before the clamp).
   */
  lemma TrackingAtSpeed12(e: Rectangle, ball: Rectangle, aiDraw: real)
    requires aiDraw > 0.1 && e.Height > 0 && ball.Height > 0
    ensures TrackingDistance(12.0, aiDraw) == 24
    ensures var r := Tracked(e, ball, 24);
            (e.Top() >= ball.Bottom() ==> r.Y == e.Y - 24) &&
            (e.Top() < ball.Bottom() && e.Bottom() > ball.Top() ==> r.Y == e.Y) &&
            (e.Bottom() + 24 <= ball.Top() ==> r.Y == e.Y + 24) &&
            (e.Bottom() <= ball.Top() < e.Bottom() + 24 ==> r.Y == e.Y)
  {
    RoundWhole(24.0);
  }

  /** The serve of the first frame: it happens exactly when the game is waiting for it with the ball at rest. */
  lemma ServeOnlyAtFirstService(s: Snapshot, d: ServeDraws)
    requires DrawsInRange(d)
    ensures Serve(s, d) != s ==> s.state == FirstService && s.ball.velocity == Zero
    ensures s.state == FirstService && s.ball.velocity == Zero ==>
              Serve(s, d).ball.velocity.X != 0.0 && Serve(s, d).volleyCount == 0
  {
  }
}
