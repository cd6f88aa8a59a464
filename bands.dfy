/**
 * The bounce-angle selection both variants share: a paddle is cut into
 * eight bands of Height / 8 pixels each (integer division), the band that
 * a hit falls into is the first k with ballTop < paddleTop + part * (k + 1),
 * and the length of the current volley picks one of three angle tables.
 */
module Bands {
  import opened Rect

  const BandCount: nat := 8

  /** The lower edge of band k: paddleTop + part * (k + 1). */
  function BandEdge(paddleTop: int, part: int, k: int): int {
    paddleTop + part * (k + 1)
  }

  /**
   * The first band k in [from, 8) whose lower edge lies below ballTop,
   * or 8 when there is none (the loop runs out without writing).
   */
  function FirstBand(ballTop: int, paddleTop: int, part: int, from: nat): (k: nat)
    requires from <= BandCount
    ensures from <= k <= BandCount
    ensures forall j :: from <= j < k ==> ballTop >= BandEdge(paddleTop, part, j)
    ensures k < BandCount ==> ballTop < BandEdge(paddleTop, part, k)
    decreases BandCount - from
  {
    if from == BandCount then BandCount
    else if ballTop < BandEdge(paddleTop, part, from) then from
    else FirstBand(ballTop, paddleTop, part, from + 1)
  }

  /**
   * The band of the paddle that the ball's top falls into (8 when none).
   * The band height is Height / 8 in integer division, in both versions.
   */
  function HitBand(ball: Rectangle, paddle: Rectangle): (k: nat)
    ensures k <= BandCount
    ensures forall j :: 0 <= j < k ==> ball.Top() >= BandEdge(paddle.Top(), paddle.Height / 8, j)
    ensures k < BandCount ==> ball.Top() < BandEdge(paddle.Top(), paddle.Height / 8, k)
  {
    FirstBand(ball.Top(), paddle.Top(), paddle.Height / 8, 0)
  }

  /**
   * Which band a hit selects, for a paddle at least 8 px high: band k < 8
   * when the ball's top lies in [Top + part * k, Top + part * (k + 1)), band
   * 0 also for a ball whose top is above the paddle, and no band (8) when
   * the top is at Top + part * 8 or lower.
   */
  lemma HitBandIs(ball: Rectangle, paddle: Rectangle, k: nat)
    requires paddle.Height >= 8 && k <= BandCount
    requires k == 0 || paddle.Top() + (paddle.Height / 8) * k <= ball.Top()
    requires k < BandCount ==> ball.Top() < paddle.Top() + (paddle.Height / 8) * (k + 1)
    ensures HitBand(ball, paddle) == k
  {
    var part := paddle.Height / 8;
    var d := ball.Top() - paddle.Top();
    FirstBandIsOffsetQuotient(ball.Top(), paddle.Top(), part);
    if d >= 0 {
      EdgeBelowIff(d, part, k);
      if k < BandCount {
        EdgeBelowIff(d, part, k + 1);
      }
    }
  }

  /** The enemy's bounce angles, in degrees, one list per tier; both versions use these lists. */
  const EnemyTiers: seq<seq<real>> := [
    [-45.0, -30.0, -15.0, 0.0, 0.0, 15.0, 30.0, 45.0],
    [-60.0, -45.0, -30.0, -15.0, 0.0, 0.0, 15.0, 30.0],
    [-75.0, -60.0, -45.0, -30.0, -15.0, 0.0, 15.0, 30.0]]

  /** The enemy's angle list for the volley's tier. */
  function EnemyAngles(volleyCount: int): (t: seq<real>)
    ensures |t| == BandCount
  {
    EnemyTiers[Tier(volleyCount)]
  }

  /**
   * The three difficulty tiers every angle table is chosen by: volley under
   * 4, 4 to 7, 8 and over (the if / else-if / else of each table).
   */
  function Tier(volleyCount: int): (t: nat)
    ensures t < 3
    ensures t == 0 <==> volleyCount < 4
    ensures t == 1 <==> 4 <= volleyCount < 8
    ensures t == 2 <==> 8 <= volleyCount
  {
    if volleyCount < 4 then 0 else if volleyCount < 8 then 1 else 2
  }

  /** A band index is the first one exactly when it meets the definition. */
  lemma FirstBandUnique(ballTop: int, paddleTop: int, part: int, k: nat)
    requires k <= BandCount
    requires forall j :: 0 <= j < k ==> ballTop >= BandEdge(paddleTop, part, j)
    requires k < BandCount ==> ballTop < BandEdge(paddleTop, part, k)
    ensures FirstBand(ballTop, paddleTop, part, 0) == k
  {
  }

  /**
   * Closed form of the band search when the band height is positive: a hit
   * above the paddle's top falls into band 0, otherwise the band is the
   * offset of the ball's top from the paddle's top divided by the band
   * height, and 8 (no band) once that reaches 8.
   */
  lemma FirstBandIsOffsetQuotient(ballTop: int, paddleTop: int, part: int)
    requires part > 0
    ensures FirstBand(ballTop, paddleTop, part, 0) ==
            if ballTop < paddleTop then 0
            else if (ballTop - paddleTop) / part < BandCount then (ballTop - paddleTop) / part
            else BandCount
  {
    if ballTop < paddleTop {
      assert ballTop < BandEdge(paddleTop, part, 0);
      FirstBandUnique(ballTop, paddleTop, part, 0);
    } else {
      OffsetBand(ballTop, paddleTop, part);
    }
  }

  /** The closed form for a ball whose top is at or below the paddle's top. */
  lemma OffsetBand(ballTop: int, paddleTop: int, part: int)
    requires part > 0 && ballTop >= paddleTop
    ensures var q := (ballTop - paddleTop) / part;
            FirstBand(ballTop, paddleTop, part, 0) == if q < BandCount then q else BandCount
  {
    var d := ballTop - paddleTop;
    var q := d / part;
    var k := if q < BandCount then q else BandCount;
    if k < BandCount {
      EdgeBelowIff(d, part, k + 1);
    }
    forall j | 0 <= j < k
      ensures ballTop >= BandEdge(paddleTop, part, j)
    {
      EdgeBelowIff(d, part, j + 1);
    }
    FirstBandUnique(ballTop, paddleTop, part, k);
  }

  /** m whole bands of height p fit into d exactly when m is at most d / p. */
  lemma EdgeBelowIff(d: int, p: int, m: int)
    requires d >= 0 && p > 0
    ensures p * m <= d <==> m <= d / p
  {
    var q := d / p;
    DivBounds(d, p);
    if m <= q {
      MulMonotone(p, m, q);
    } else {
      MulMonotone(p, q + 1, m);
    }
  }

  /** The quotient q = d / p satisfies p * q <= d < p * (q + 1). */
  lemma DivBounds(d: int, p: int)
    requires d >= 0 && p > 0
    ensures p * (d / p) <= d < p * (d / p + 1)
  {
    var q := d / p;
    assert d == p * q + d % p;
    assert p * (q + 1) == p * q + p;
  }

  lemma MulMonotone(p: int, a: int, b: int)
    requires p > 0 && a <= b
    ensures p * a <= p * b
  {
    assert p * b - p * a == p * (b - a);
  }
}
