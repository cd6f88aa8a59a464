/**
 * The paddle of the struct version and the keyboard handling of input.go:
 * a just-pressed key adds its direction's speed to the vertical velocity,
 * a just-released key takes it back, and a press wins over a release of
 * the same key in the same frame.
 */
module Paddles {
  import opened Rect
  import opened Helpers
  import opened Platform

  datatype PaddleState = PaddleState(position: Rectangle, velocity: Vector2D, speed: real)

  /**
   * What one key contributes in its own direction: +speed when just
   * pressed, -speed when only just released, 0 otherwise.
   */
  function KeyEffect(pressed: bool, released: bool, speed: real): (d: real)
    ensures pressed ==> d == speed
    ensures !pressed && released ==> d == -speed
    ensures !pressed && !released ==> d == 0.0
  {
    if pressed then speed else if released then -speed else 0.0
  }

  /** The vertical velocity after Paddle.input: Up counts upward (negative Y), Down downward. */
  function InputVelocityY(vy: real, speed: real, keys: KeyEdges): (r: real)
    ensures r == vy - KeyEffect(keys.upPressed, keys.upReleased, speed)
                    + KeyEffect(keys.downPressed, keys.downReleased, speed)
    ensures keys == NoKeys ==> r == vy
  {
    var afterUp :=
      if keys.upPressed then vy - speed
      else if keys.upReleased then vy + speed
      else vy;
    if keys.downPressed then afterUp + speed
    else if keys.downReleased then afterUp - speed
    else afterUp
  }

  class Paddle {
    var position: Rectangle
    var velocity: Vector2D
    var speed: real

    function State(): PaddleState
      reads this
    {
      PaddleState(position, velocity, speed)
    }

    /** A paddle at rest at the given place, moving at the given speed. */
    constructor (position: Rectangle, speed: real)
      ensures State() == PaddleState(position, Zero, speed)
    {
      this.position := position;
      this.velocity := Zero;
      this.speed := speed;
    }

    /** input: applies this frame's key edges to the vertical velocity only. */
    method Input(keys: KeyEdges)
      modifies this
      ensures position == old(position) && speed == old(speed)
      ensures velocity == Vector2D(old(velocity).X, InputVelocityY(old(velocity).Y, speed, keys))
    {
      if keys.upPressed {
        velocity := velocity.(Y := velocity.Y - speed);
      } else if keys.upReleased {
        velocity := velocity.(Y := velocity.Y + speed);
      }
      if keys.downPressed {
        velocity := velocity.(Y := velocity.Y + speed);
      } else if keys.downReleased {
        velocity := velocity.(Y := velocity.Y - speed);
      }
    }
  }

  /** Pressing Up in one frame and releasing it in a later one restores the velocity. */
  lemma UpPressReleaseRestores(vy: real, speed: real)
    ensures InputVelocityY(InputVelocityY(vy, speed, NoKeys.(upPressed := true)), speed, NoKeys.(upReleased := true)) == vy
  {
  }

  /** Pressing Down in one frame and releasing it in a later one restores the velocity. */
  lemma DownPressReleaseRestores(vy: real, speed: real)
    ensures InputVelocityY(InputVelocityY(vy, speed, NoKeys.(downPressed := true)), speed, NoKeys.(downReleased := true)) == vy
  {
  }

  /** A key reported both pressed and released in one frame acts as pressed only. */
  lemma PressWinsOverRelease(vy: real, speed: real, keys: KeyEdges)
    ensures InputVelocityY(vy, speed, keys.(upPressed := true, upReleased := true)) ==
            InputVelocityY(vy, speed, keys.(upPressed := true, upReleased := false))
    ensures InputVelocityY(vy, speed, keys.(downPressed := true, downReleased := true)) ==
            InputVelocityY(vy, speed, keys.(downPressed := true, downReleased := false))
  {
  }
}
