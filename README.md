# Pong: the per-frame rules, modelled and proved in Dafny

This project models the game rules of a Go Pong clone built on Ebiten. Each
frame the rules do the following:

- move a 20x20 ball;
- bounce it off the top and bottom walls;
- award a point when it leaves the screen on the left or the right;
- end the match at 10 points;
- bounce the ball off the two 20x110 paddles, at an angle set by the band
  of the paddle it hits and by the length of the volley;
- move the player's paddle from the arrow keys;
- let the computer's paddle track the ball.

The repository contains two incompatible versions of the game, and they are
modelled separately.

- **module Classic** (`classic.dfy`) is the self-contained version in
  `main.go`.
  - Its package-level variables become the fields of `class Classic.Game`.
  - Velocities are integers.
  - Bounces are written out as `if` chains.
  - A corner guard and a speed normaliser run after every ball move.
- **The struct version** is spread over the modules Settings, Helpers,
  Paddles, Balls, Players, Enemies and Games.
  - It has objects `Ball`, `Paddle`, `Player`, `Enemy` and `Game`, each a
    Dafny `class` whose methods update its fields in place.
  - Velocities are real-valued.
  - Bounces use angle tables with a band loop, and the enemy has a patrol
    routine.

Four modules are shared by both versions:

- **Rect**: the integer rectangle of the rect library.
- **Floats**: `math.Round` and Go's `int(x)` conversion.
- **Platform**: what comes from outside, namely key edges, tangent, square
  root and the overlap test.
- **Bands**: the eight-band search both versions use to pick a bounce angle.

Every method that changes state is proved against a function on values:

- `Classic.Game.Snapshot()` for the classic version;
- `Ball.State()`, `Paddle.State()` and `Games.Game.View()` for the struct
  version.

For example, `Games.Game.Update` ensures `View() == Step(old(View()), input,
env)`. The lemmas then state what a frame does, in terms of those functions:

- it keeps an invariant;
- it awards points exactly;
- game over is final;
- the ball turns at a paddle;
- the serve happens only when due.

### Assumptions

- **Rectangles.** The rect library is not part of this model. Its accessors
  are read in the conventional way:
  - `Top = Y`, `Bottom = Y + Height`, `Left = X`, `Right = X + Width`;
  - the centre is `X + Width / 2`, `Y + Height / 2`;
  - an edge setter shifts the rectangle and keeps its size;
  - `Center(cx, cy)` places that centre;
  - the corner getters `TopLeft()`, `TopRight()`, `BottomLeft()` and
    `BottomRight()` return `(Left, Top)`, `(Right, Top)`, `(Left, Bottom)` and
    `(Right, Bottom)`, which is what `Classic.StuckCorner` tests;
  - the setter `TopLeft(x, y)` moves the rectangle so that its top-left
    corner is at `(x, y)` and keeps its size (`Rect.Rectangle.WithTopLeft`).
- **Overlap.** `Overlaps` is a parameter, `Env.overlaps`. The lemmas assume
  only `OverlapNeedsContact`: two rectangles that overlap also overlap
  horizontally.
- **Maths library.** `math.Tan` (of an angle in degrees) and `math.Sqrt` are
  parameters, `Env.tanDeg` and `Env.sqrt`. Bounds on speed assume only that
  the square root is exact (`ExactSqrt`, or `IsRootOf` for one value).
- **Numbers.** float64 values are exact reals. `math.Round` rounds halves
  away from zero and `int(x)` truncates toward zero, both written out in
  module Floats. Floating-point rounding of sums and products is not
  modelled.
- **Outside inputs.** Every draw of `math/rand` and every key edge is a
  parameter:
  - `ServeDraws`, `Coins` and the `draw` and `aiDraw` arguments;
  - `KeyEdges`;
  - whether the wall sound played is a `bool`.
- **accelerate.** `Ball.accelerate` takes an `amount` (ball.go:110), but
  gameloop.go:60 and gameloop.go:70 call it with no argument. The model
  keeps the parameter and takes the amount from the frame input
  (`FrameInput.amount`).

### What the code does, as written

The model follows the code in each of these points.

- The struct `Game.Update` (gameloop.go:13-101) never calls
  `handleBallWallCollision`. That method is modelled (`Balls.WallBounced`),
  but a frame of the struct version does not reflect the ball off the walls,
  so its invariant says nothing about the ball's vertical position.
- `Enemy.patrol` (enemy.go:78-98) is modelled, but nothing calls it. The
  struct frame moves the enemy by the tracking step of gameloop.go:81-95.
- The struct `startNewRound` (game.go:74-80) does not set the state back to
  `firstService`, so a round after a point starts in whatever state the
  game was in. The classic one (main.go:79-86) does set it.
- patrol's first test moves the paddle up by 12 when the target is above its
  centre. The second test looks at the moved centre. So a target less than
  12 px above the centre makes the paddle go up and straight back down
  (`Enemies.PatrolOfEnemyPaddle`).
- The tracking step tests before it moves and looks at the moved paddle.
  - Struct version (gameloop.go:88-95): a paddle that spans part of the
    ball's height goes down and back up.
  - Classic version (main.go:410-417): a paddle just above the ball stays
    where it is.
- The classic `noCornerStuck` (main.go:182-205) can act only in the frame
  that ends the match. While the game goes on, the scoring checks have
  already re-centred any ball that reached a side
  (`Classic.CornerGuardOnlyAtMatchEnd`).
- The classic `bouncePlayer` (main.go:294-352) uses the same angle list in
  all three tiers, so the volley count has no effect on it
  (`Classic.BouncePlayerIgnoresVolley`).
- The struct player's tables use -180 degrees where the classic list uses
  180. In float64 their tangents are tiny nonzero values of opposite sign,
  so `atAngle` rounds both to the same vertical speed, 0. Both angles are
  passed to the tangent parameter unchanged.

## Model

| member | source | states |
|---|---|---|
| Floats.Round | ball.go:56-57 | math.Round: the result is within half a unit of x, with halves going away from zero |
| Floats.Trunc | main.go:215-216 | int(x) on a float64: the result is the integer part, truncated toward zero |
| Floats.RoundWhole | ball.go:56-57 | rounding a whole number gives it back |
| Floats.TruncShrinks | main.go:215-216 | truncation keeps the sign and never increases the magnitude |
| Rect.Rectangle.ClampedY | enemy.go:44-53 | the paddle's screen guard: X and size are kept, a rectangle that fits ends within [lo, hi], and one already inside is unchanged |
| Rect.ClampIdempotent | enemy.go:44-53 | applying the screen guard twice is the same as applying it once |
| Helpers.RandomChoice | helpers.go:12-20 | the result is a or b; it is a when a == b; otherwise it is a exactly on coin 0 (the same rule as main.go's randomChoice on ints, which the classic version uses) |
| Helpers.RandInt | helpers.go:22-24 | with max > min and a draw in [0, max - min), the result lies in [min, max) |
| Helpers.RandFloat | helpers.go:26-28 | with min < max and a draw in [0, 1), the result lies in [min, max) |
| Bands.FirstBand | player.go:69-74 | the band is the first k with ballTop < paddleTop + part * (k + 1); the ball's top is at or past every earlier edge; 8 means no band matched |
| Bands.HitBand | player.go:58-74 | the band a hit selects, with band height Height / 8: at most 8; the ball's top is at or below the lower edge of every earlier band, and when below 8 it is above that band's lower edge, so it is the first such band |
| Bands.HitBandIs | player.go:58-74 | for a paddle at least 8 px high: band k < 8 exactly covers ball tops in [Top + part * k, Top + part * (k + 1)), band 0 also takes tops above the paddle, and tops at Top + part * 8 or lower match no band |
| Bands.EnemyAngles | enemy.go:59-66 | the enemy's list is the one of the volley's tier (the lists are shared with main.go:226-284), eight angles long |
| Bands.Tier | enemy.go:60-66 | the reference tier rule every angle table is indexed by: tier 0 exactly for a volley under 4, tier 1 exactly for 4 to 7, tier 2 exactly for 8 or more |
| Bands.FirstBandUnique | player.go:69-74 | any index meeting the first-band definition is the band the search returns |
| Bands.FirstBandIsOffsetQuotient | player.go:69-74 | closed form: the band is the ball's offset below the paddle's top divided by the band height, 0 above the paddle, and 8 once that quotient reaches 8 |
| Bands.EdgeBelowIff | player.go:69-74 | m whole bands fit in the offset exactly when m is at most offset / band height |
| Paddles.KeyEffect | input.go:11-22 | a just-pressed key contributes +speed, a key only just released contributes -speed, and otherwise the contribution is 0 |
| Paddles.InputVelocityY | input.go:9-24 | the new vertical velocity is the old one minus Up's contribution plus Down's; it is unchanged when there are no key edges |
| Paddles.Paddle.Input | input.go:9-24 | only velocity.Y changes, by InputVelocityY; position, speed and velocity.X are kept |
| Paddles.Paddle.constructor | paddle.go:15-24 | a paddle at rest at the given place and speed |
| Paddles.UpPressReleaseRestores | input.go:11-15 | pressing Up and later releasing it restores the velocity |
| Paddles.DownPressReleaseRestores | input.go:18-22 | pressing Down and later releasing it restores the velocity |
| Paddles.PressWinsOverRelease | input.go:11-22 | a key reported both pressed and released in one frame acts as pressed only |
| Balls.Moved | ball.go:55-58 | the ball moves by its rounded velocity, within half a pixel of it, and by exactly (vx, vy) when both are whole; velocity and size are kept |
| Balls.WallBounced | ball.go:60-75 | nothing changes for a ball on screen or when the sound fails; otherwise velocity.Y is negated, X and size are kept, and a ball that fits ends within [0, 720] |
| Balls.InitialVelocity | ball.go:79-87 | with draws in range, X lies in [-7.5, -3.75) or [3.75, 7.5), so it is never 0, and Y lies in [-7.5, 7.5) |
| Balls.Sign | ball.go:111-118 | the sign is -1 exactly for a negative component; 0 counts as positive |
| Balls.Accelerated | ball.go:110-121 | each component becomes 15 * amount with the old component's sign (0 counts as positive); for amount > 0 the signs are kept |
| Balls.AccelerateIdempotent | ball.go:110-121 | accelerating twice by the same non-negative amount is the same as accelerating once |
| Balls.AcceleratedSpeed | ball.go:110-121 | after accelerate, the squared speed is 2 * (15 * amount)^2 |
| Balls.Normalized | ball.go:89-100 | a velocity whose computed speed is at most 15 is left unchanged |
| Balls.NormalizedIsBounded | ball.go:89-100 | normalising keeps each component's sign; with an exact root, the result has squared speed at most 225, and a velocity with squared speed at most 225 is unchanged |
| Balls.RescaledToMax | ball.go:94-99 | scaling by 15 / speed keeps the signs and, with an exact speed, gives squared speed exactly 225 |
| Balls.RootAtMost | ball.go:91-94 | an exact root is at most 15 exactly when the square is at most 225 |
| Balls.FactorInUnit | ball.go:96 | the factor 15 / speed for a speed above 15 lies strictly between 0 and 1 |
| Balls.AtAngle | ball.go:102-107 | atAngle is a whole number within 0.5 of tan(angle) * vx |
| Balls.Ball.constructor | ball.go:30-44 | a new ball is 20x20, centred and at rest |
| Balls.Ball.Update | ball.go:55-58 | the new state is Moved of the old |
| Balls.Ball.HandleWallCollision | ball.go:60-75 | the new state is WallBounced of the old |
| Balls.Ball.SetInitialVelocity | ball.go:79-87 | the velocity becomes InitialVelocity of the draws and the position is kept |
| Balls.Ball.NormalizeSpeed | ball.go:89-100 | the velocity becomes Normalized of the old one and the position is kept |
| Balls.Ball.Accelerate | ball.go:110-121 | the velocity becomes Accelerated of the old one and the position is kept |
| Players.PlayerAngles | player.go:60-67 | the player's list is the one of the volley's tier, eight angles long |
| Players.PlayerMoved | player.go:37-53 | the velocity goes through the key input; the paddle moves by the rounded velocity and is then clamped; X, size and speed are kept; a paddle that fits ends within [0, 720] |
| Players.PlayerBounced | player.go:55-76 | the position is kept and X is negated; when no band matches, Y is kept |
| Players.Player.constructor | player.go:18-27 | the paddle is 20x110 at x = 1190, vertically centred, at rest, speed 15, and the score is 0 |
| Players.Player.Update | player.go:37-53 | the paddle's new state is PlayerMoved of the old |
| Players.Player.Bounce | player.go:55-76 | only the ball changes, to PlayerBounced of it; the band returned is the first band of the loop (8 when it ran out) |
| Players.PlayerBandAngle | player.go:58-74 | a hit whose top falls into band k selects band k and sets Y to atAngle of angle k of tier Tier(volley) of the player's lists, for the reversed X |
| Players.BottomStripMissesEveryBand | player.go:69-74 | on the 110 px paddle, a ball whose top is 104 px or more below the paddle's top matches no band and keeps its vertical speed |
| Enemies.EnemyBounced | enemy.go:56-74 | the position is kept and X is negated; when no band matches, Y is kept |
| Enemies.RoundedEdge | enemy.go:58-69 | the loop's edge int(math.Round(float64(Height / 8) * (i + 1))) is the integer product of the band height and i + 1 |
| Enemies.EnemyBandAngle | enemy.go:56-74 | a hit whose top falls into band k selects band k and sets Y to atAngle of angle k of tier Tier(volley) of the enemy's lists, for the reversed X |
| Enemies.PatrolTarget | enemy.go:79-82 | an existing target is kept; a new one with a draw in range lies in [half, 720 - half) |
| Enemies.Patrolled | enemy.go:78-98 | the paddle moves up or down by Round(speed) as the two tests decide, or stays; X and size are kept; the target is cleared exactly when the new centre is strictly within 15 of it |
| Enemies.Enemy.constructor | enemy.go:22-31 | the paddle is 20x110 at x = 70, vertically centred, at rest, speed 12; the score is 0 and there is no target |
| Enemies.Enemy.Update | enemy.go:44-53 | the paddle's position is clamped to the screen; velocity and speed are kept |
| Enemies.Enemy.Bounce | enemy.go:56-74 | only the ball changes, to EnemyBounced of it; the band returned is the first band of the loop |
| Enemies.Enemy.Patrol | enemy.go:78-98 | the paddle position and target become Patrolled of the old ones; nothing else changes |
| Enemies.UpdateIdempotent | enemy.go:44-53 | clamping the enemy's paddle twice is the same as clamping once |
| Enemies.PatrolOfEnemyPaddle | enemy.go:79-92 | for the 110 px paddle at speed 12, a new target lies in [55, 665); the paddle moves 12 px toward a target at least 12 px away, and does not move for one less than 12 px above or at the centre |
| Games.NewRound | game.go:74-80 | the volley count is 0; the ball is centred at (640, 360) with its size and served with InitialVelocity (so X is not 0); state, scores and paddles are kept |
| Games.Serve | gameloop.go:21-30 | the serve runs exactly in firstService with the ball at rest, and otherwise nothing changes |
| Games.ServeOnlyAtFirstService | gameloop.go:21-30 | a serve changes the game only when it was due, and a due serve leaves the ball moving horizontally with volley 0 |
| Games.PlayerPoint | gameloop.go:37-44 | the player gets exactly one point and the enemy none; at 10 the game is over with the ball left alone; otherwise a new round starts |
| Games.EnemyPoint | gameloop.go:47-54 | the enemy gets exactly one point and the player none; at 10 the game is over; otherwise a new round starts |
| Games.PlayerHit | gameloop.go:57-64 | one more volley; the ball's right edge is placed on the paddle's left; the state is playing; scores and paddles are kept |
| Games.EnemyHit | gameloop.go:67-74 | one more volley; the ball's left edge is placed on the paddle's right; the state is playing; scores and paddles are kept |
| Games.Scored | gameloop.go:37-54 | the player scores exactly when the ball's left edge is at or past 0; the enemy scores at most once, and exactly when the right edge is at or past 1280 if the player did not score; a ball inside changes nothing; paddles and patrol target are kept |
| Games.Hit | gameloop.go:57-74 | touching neither paddle changes nothing; touching only the enemy's is EnemyHit; a player hit resumes play with one more volley; at most two volleys; scores, paddles and patrol target are kept |
| Games.PlayerHitTurnsBall | gameloop.go:57-64 | for a positive amount, the ball leaves to the left exactly when it arrived moving right or at rest horizontally; with an exact root its speed is at most 15 |
| Games.EnemyHitTurnsBall | gameloop.go:67-74 | the same for the enemy's paddle, whose face is its right edge |
| Games.SqrtOfSquaredSpeed | ball.go:91 | an exact square root is the root of every squared speed |
| Games.TrackingDistance | gameloop.go:81-89 | the AI moves 0 on the feint draw, and a non-negative distance otherwise |
| Games.Tracked | gameloop.go:88-95 | X and size are kept; no move for distance 0; a paddle below the ball rises by d; one spanning the ball stays; one above descends only if it stays above the ball's top |
| Games.EnemyStep | gameloop.go:81-98 | the enemy's paddle ends within [0, 720] with X, size, velocity and speed kept; on the feint draw it is only clamped |
| Games.FeintHoldsStill | gameloop.go:81-98 | on the feint draw, an enemy paddle on screen stays exactly where it was |
| Games.TrackingAtSpeed12 | gameloop.go:81-95 | at the enemy's speed 12 the step is 24 px, and each of the four cases moves as stated |
| Games.Step | gameloop.go:13-19 | a paused or finished game is left unchanged; the patrol target is never touched |
| Games.Game.constructor | game.go:58-64 | the new game is InitialSnapshot: firstService, volley 0, the ball at rest in the centre, both scores 0 |
| Games.Game.StartNewRound | game.go:74-80 | the new view is NewRound of the old |
| Games.Game.Update | gameloop.go:13-101 | the new view is Step of the old, and the two paddles stay distinct objects |
| Games.Game.CheckScoring | gameloop.go:37-54 | the new view is Scored of the old |
| Games.Game.CheckPaddleHits | gameloop.go:57-74 | the new view is Hit of the old |
| Games.Game.BounceOffPlayer | gameloop.go:58-63 | the new view is PlayerHit of the old |
| Games.Game.BounceOffEnemy | gameloop.go:68-73 | the new view is EnemyHit of the old |
| Games.Game.MovePaddles | gameloop.go:77-98 | the player's paddle becomes PlayerMoved and the enemy's EnemyStep of the old state; nothing else changes |
| Games.InitialInv | game.go:58-64 | the new game satisfies the frame invariant |
| Games.GameOverIsFinal | gameloop.go:17-19 | a frame of a finished game changes nothing, so game over is final |
| Games.ScoreAccounting | gameloop.go:37-54 | in a frame in play, the player gains exactly one point when the moved ball's left edge is at or past 0, and the enemy exactly one when its right edge is at or past 1280; never both; otherwise nobody scores |
| Games.NoHitAfterExit | gameloop.go:57-74 | a ball beyond a side edge overlaps neither paddle |
| Games.ScoredKeepsInv | gameloop.go:37-54 | the scoring checks keep the invariant and the paddles, and a finished game has its ball beyond an edge |
| Games.HitKeepsInv | gameloop.go:57-74 | the paddle checks keep the invariant and the paddles |
| Games.StepKeepsInv | gameloop.go:13-101 | every frame keeps the invariant: never paused; a 20x20 ball; both paddles in their columns and on screen; scores within 10; game over exactly at 10 |
| Classic.ServeSpeed | main.go:96-99 | a served component is 5 or -5, and -5 exactly on coin 0 |
| Classic.NewRound | main.go:79-86 | state firstService, volley 0, the ball centred with its size, both velocities ±5 in the directions of the coins; paddles and scores kept |
| Classic.FullSpeed | main.go:102-113 | a component becomes ±15 with its sign kept; 0 counts as positive |
| Classic.WallChecked | main.go:123-132 | a ball that fits ends within [0, 720]; ballYVelocity is negated exactly when the ball had crossed; a ball on screen is untouched; nothing else changes |
| Classic.PlayerPoint | main.go:135-142 | the player gets exactly one point; at 10 the game is over; otherwise a new round starts |
| Classic.EnemyPoint | main.go:145-152 | the enemy gets exactly one point; at 10 the game is over; otherwise a new round starts |
| Classic.AtAngle | main.go:356-361 | atAngle is within 0.5 of tan(angle) * ballXVelocity |
| Classic.PlayerAngleTable | main.go:294-352 | bouncePlayer's list is the one of the volley's tier, eight angles long |
| Classic.ChainIsFirstBand | main.go:226-244 | one tier's if-chain selects the first band of the shared band search |
| Classic.Bounced | main.go:220-285 | X goes to full speed reversed; Y comes from angle k of the tier when band k matches and keeps its full speed when none does; nothing else changes |
| Classic.PlayerHit | main.go:155-160 | one more volley; the ball's right edge is placed on the player's left; bounced off the player; playing |
| Classic.EnemyHit | main.go:163-168 | one more volley; the ball's left edge is placed on the enemy's right; bounced off the enemy; playing |
| Classic.LaterPhasesKeepScores | main.go:155-176 | the paddle checks, corner guard and normalisation change no score |
| Classic.Scored | main.go:135-152 | the player scores exactly when the ball's left edge is at or past 0; the enemy scores at most once, and exactly when the right edge is at or past 1280 if the player did not score; a ball inside changes nothing; paddles and the enemy's speed are kept |
| Classic.Hit | main.go:155-168 | touching neither paddle changes nothing; touching only the enemy's is EnemyHit; a player hit resumes play with one more volley; at most two volleys; scores, paddles and the enemy's speed are kept |
| Classic.BallMoved | main.go:119-177 | ballMovement leaves both paddles and the enemy's speed alone, and with an exact square root a ball still in play ends with squared speed at most 225 |
| Classic.StuckCorner | main.go:187-197 | a corner test holds exactly when the ball touches a side and the top or bottom; the first test that holds, in the order top-left, top-right, bottom-left, bottom-right, gives its corner |
| Classic.CornerFixed | main.go:182-205 | no change when no corner test holds; otherwise the ball's top-left goes to the matched corner and both velocities are negated |
| Classic.Rescaled | main.go:214-216 | scaling by a factor in (0, 1) and truncating keeps each component's sign and never increases it |
| Classic.NormalizedVelocity | main.go:207-218 | a velocity with computed speed at most 15 is unchanged; no component grows or changes sign |
| Classic.NormalizedIsSlow | main.go:207-218 | with an exact root, the normalised velocity has squared speed at most 225 |
| Classic.SlowUnderExactRoot | main.go:207-218 | the same bound whenever the square root is exact everywhere |
| Classic.FastIsSlowed | main.go:214-216 | rescaling onto speed 15 and truncating gives squared speed at most 225 |
| Classic.SlowEnough | main.go:212 | a velocity with exact speed at most 15 has squared speed at most 225 |
| Classic.RescaledExactly | main.go:214-216 | scaling by 15 / exact speed gives squared speed exactly 225 |
| Classic.TruncatedSquares | main.go:215-216 | truncating both components does not increase the squared speed beyond 225 |
| Classic.ShrunkComponent | main.go:215-216 | a component scaled by a factor in (0, 1) and truncated keeps its sign and does not grow |
| Classic.SquareBelow | main.go:215-216 | truncation toward zero does not increase the square |
| Classic.KeyedVelocity | main.go:364-373 | Up subtracts 15 and Down adds 15 when just pressed, and undoes that when only just released; no key edges means no change |
| Classic.PlayerMoved | main.go:363-385 | the paddle moves by its new velocity and is clamped; X and size are kept; a paddle that fits ends within [0, 720] |
| Classic.AiDistance | main.go:402-416 | the step is int(enemyPaddleVelocity) + 15, or minus 15 on the feint draw |
| Classic.CentreTracked | main.go:409-417 | X and size are kept; a centre below the ball's rises by d; a matching centre stays; one above descends only if it does not pass the ball's centre |
| Classic.EnemyMoved | main.go:387-398 | the enemy's paddle is tracked, then clamped to end within [0, 720]; nothing else changes |
| Classic.TrackingAtSpeed15 | main.go:400-418 | at speed 15 the step is 30 px, or 0 on the feint draw; the three cases move as stated |
| Classic.Step | main.go:437-448 | a paused or finished game is unchanged; the enemy's speed is never changed |
| Classic.Game.constructor | main.go:41-56 | the declared variables, then init's startNewRound (main.go:521) |
| Classic.Game.StartNewRound | main.go:79-86 | the new globals are NewRound of the old |
| Classic.Game.UpdateBallPosition | main.go:89-92 | the ball is shifted by the two velocities; nothing else changes |
| Classic.Game.ReduceBallSpeed | main.go:96-99 | both velocities become ServeSpeed of their coins; nothing else changes |
| Classic.Game.IncreaseBallSpeed | main.go:102-113 | both velocities become FullSpeed of the old ones; nothing else changes |
| Classic.Game.BallMovement | main.go:119-177 | the new globals are BallMoved of the old |
| Classic.Game.WallCheck | main.go:123-132 | the new globals are WallChecked of the old |
| Classic.Game.CheckScoring | main.go:135-152 | the new globals are Scored of the old |
| Classic.Game.CheckPaddleHits | main.go:155-168 | the new globals are Hit of the old |
| Classic.Game.NoCornerStuck | main.go:182-205 | the new globals are CornerFixed of the old |
| Classic.Game.NormalizeBallSpeed | main.go:207-218 | both velocities become NormalizedVelocity of the old ones; nothing else changes |
| Classic.Game.BandChain | main.go:226-244 | one tier's chain: ballYVelocity is set from the first band's angle, or kept when no band matches |
| Classic.Game.BounceEnemy | main.go:220-285 | the new globals are Bounced off the enemy with the tier's table |
| Classic.Game.BouncePlayer | main.go:287-354 | the new globals are Bounced off the player with its table |
| Classic.Game.PlayerMovement | main.go:363-385 | the new globals are PlayerMoved of the old |
| Classic.Game.EnemyMovement | main.go:387-398 | the new globals are EnemyMoved of the old |
| Classic.Game.EnemyAI | main.go:400-418 | only the enemy changes, to CentreTracked of it |
| Classic.Game.Update | main.go:437-448 | the new globals are Step of the old |
| Classic.InitialInv | main.go:496-522 | the game as init leaves it satisfies the frame invariant |
| Classic.GameOverIsFinal | main.go:441-443 | a frame of a finished game changes nothing, so game over is final |
| Classic.ScoredKeepsInv | main.go:135-152 | the scoring checks keep the invariant and the paddles; a game still going has its ball strictly inside horizontally |
| Classic.HitKeepsInv | main.go:155-168 | the paddle checks keep the invariant and do nothing in a finished game |
| Classic.StepKeepsInv | main.go:437-448 | every frame keeps the invariant: never paused; a 20x20 ball on screen vertically while in play; both paddles in their columns and on screen; the enemy's speed 15; scores within 10; game over exactly at 10 |
| Classic.CornerGuardOnlyAtMatchEnd | main.go:171 | a corner test can hold after the paddle checks only in the frame that ends the match |
| Classic.ScoreAccounting | main.go:135-152 | the player gains exactly one point when the moved and wall-checked ball's left edge is at or past 0, and the enemy exactly one when its right edge is at or past 1280; never both |
| Classic.BouncePlayerIgnoresVolley | main.go:294-352 | bouncePlayer's result does not depend on the volley count |
| Classic.NoBandKeepsFullSpeed | main.go:220-285 | a hit 104 px or more below the enemy's top matches no band and keeps the accelerated ±15 |

## Left out

- Drawing: the `Draw` methods, the HUD and every vector or text call. These are rendering into Ebiten.
- Fonts, `init`'s font loading and `newGame`'s font loading, `main`, `Layout` and `ebiten.RunGame`. These are resource I/O and start-up.
- Audio: `Sound.Play`, `LoadSounds` and `Ball.playSound`. Only whether the wall sound played matters, and it is a `bool` parameter of `WallBounced`.
- `random` (main.go:421-424): nothing in the modelled code calls it, and it seeds from the wall clock.
- The internals of `math/rand`, `math.Tan` and `math.Sqrt`: draws are parameters, and tangent and square root are function parameters.
- float64 rounding of sums and products. The model computes on exact reals and writes out only `math.Round` and `int()`.
- Ebiten's `inpututil` polling: the key edges are boolean inputs (`KeyEdges`).
- paddle.go's `PaddleHolder` and `GetPaddle` plumbing, which has no behaviour, and the `gameObjects` slice of `Game`, which newGame fills and only Draw reads.
- The `playerTurn` enum (state.go:13-18): nothing reads it.
- Helpers.RandInt: requires max > min, where `rand.Intn` would panic. Enemies.PatrolTarget, Enemies.Patrolled and Enemies.Enemy.Patrol carry the matching requires on the paddle's height. No call can reach the panic: the only caller is patrol, and for the 110 px paddle the range is [55, 665).
- The `playerScore` and `enemyScore` fields of game.go's `Game` (game.go:20): nothing reads or writes them, and the scores live in `Player.score` and `Enemy.score`.
- The `paused` state: nothing enters it, so no frame starts in it; both invariants state that it is never reached.
- Balls.Normalized: its own contract states only the no-op case. The rescaling case is stated in NormalizedIsBounded, and the bound there assumes an exact square root.
- Classic.NormalizedVelocity: the bound on the squared speed assumes an exact square root (NormalizedIsSlow).
- Games.StepKeepsInv: says nothing about the ball's vertical position, because the struct frame never calls the wall reflection.
- Games.PlayerHit and Games.EnemyHit: the amount passed to accelerate is a frame input, because the source's calls supply none.
