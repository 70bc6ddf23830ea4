/** The single bouncing ball of js/script.js: its start-up state and the
    motion-and-bounce part of one animation frame. The source keeps the ball
    and the canvas in module-level variables that each frame updates in
    place; here they are the fields of a `Simulation` object. Positions and
    velocities are exact reals, and the canvas size is a pair of naturals. */
module SingleBall {

  const FRAMES_PER_SECOND: int := 30
  const BALL_SIZE_PX: int := 5

  /** `BALL_SIZE_PX / 2`, JavaScript division, so 2.5. */
  const HALF_BALL: real := BALL_SIZE_PX as real / 2.0

  /** The ball's position and velocity at one moment. */
  datatype BallState = BallState(positionX: real, positionY: real, velocityX: real, velocityY: real)

  // ---------------------------------------------------------------------------
  // Start-up, with the values of `Math.random()` passed in

  /** `Math.floor(Math.random() * 75 + 25)`: the starting speed in pixels per
      second, a whole number from 25 to 99. */
  function SpeedDraw(random: real): (k: int)
    requires 0.0 <= random < 1.0
    ensures 25 <= k <= 99
    ensures k as real <= random * 75.0 + 25.0 < k as real + 1.0
  {
    (random * 75.0 + 25.0).Floor
  }

  /** `Math.floor(Math.random() * 2) == 0`: the direction draw that negates a
      starting velocity; it comes up for the lower half of the random range. */
  function NegateDraw(random: real): (b: bool)
    requires 0.0 <= random < 1.0
    ensures b <==> random < 0.5
  {
    (random * 2.0).Floor == 0
  }

  /** Every speed from 25 to 99 is drawn by some random value. */
  lemma SpeedDrawCoversRange(k: int)
    requires 25 <= k <= 99
    ensures 0.0 <= (k - 25) as real / 75.0 < 1.0
    ensures SpeedDraw((k - 25) as real / 75.0) == k
  {
    var random := (k - 25) as real / 75.0;
    assert random * 75.0 + 25.0 == k as real;
  }

  // ---------------------------------------------------------------------------
  // One frame

  /** The ball's low edge is past the low wall (0) while it moves toward it. */
  predicate HitsLowWall(pos: real, vel: real) {
    pos - HALF_BALL < 0.0 && vel < 0.0
  }

  /** The ball's high edge is past the high wall (`extent`) while it moves toward it. */
  predicate HitsHighWall(pos: real, vel: real, extent: real) {
    pos + HALF_BALL > extent && vel > 0.0
  }

  /** The two wall checks of one axis, in source order: the low wall with the
      velocity as it is, then the high wall with the velocity the first check
      left. Only the sign can change, and it changes only when the ball is
      past a wall and moving toward it. */
  function Bounce(pos: real, vel: real, extent: real): (v: real)
    ensures v == vel || v == -vel
    ensures v != vel ==> HitsLowWall(pos, vel) || HitsHighWall(pos, vel, extent)
  {
    var afterLow := if HitsLowWall(pos, vel) then -vel else vel;
    if HitsHighWall(pos, afterLow, extent) then -afterLow else afterLow
  }

  /** The state after one frame on a `width` by `height` canvas: each
      position first moves by its velocity, then each axis bounces on the
      moved position. */
  function Frame(s: BallState, width: real, height: real): BallState {
    var x := s.positionX + s.velocityX;
    var y := s.positionY + s.velocityY;
    BallState(x, y, Bounce(x, s.velocityX, width), Bounce(y, s.velocityY, height))
  }

  /** `n` successive frames. */
  function Frames(s: BallState, width: real, height: real, n: nat): BallState
    decreases n
  {
    if n == 0 then s else Frames(Frame(s, width, height), width, height, n - 1)
  }

  function Abs(r: real): real {
    if r < 0.0 then -r else r
  }

  // ---------------------------------------------------------------------------
  // The JavaScript globals and the two functions that update them

  class Simulation {
    var ballPositionX: real
    var ballPositionY: real
    var ballVelocityX: real
    var ballVelocityY: real
    /** `canvas.width` and `canvas.height`. */
    var width: nat
    var height: nat

    function State(): BallState
      reads this
    {
      BallState(ballPositionX, ballPositionY, ballVelocityX, ballVelocityY)
    }

    /** `startSimulationLoop` without the canvas lookup and the timer: the
        ball starts at the centre of the canvas with a speed of `k` pixels per
        second on each axis (`k` from the speed draw), negated when the
        direction draw says so. */
    constructor Start(width: nat, height: nat,
                      speedRandomX: real, speedRandomY: real,
                      directionRandomX: real, directionRandomY: real)
      requires 0.0 <= speedRandomX < 1.0 && 0.0 <= speedRandomY < 1.0
      requires 0.0 <= directionRandomX < 1.0 && 0.0 <= directionRandomY < 1.0
      ensures this.width == width && this.height == height
      ensures ballPositionX == width as real / 2.0 && ballPositionY == height as real / 2.0
      ensures ballVelocityX == (if directionRandomX < 0.5 then -1.0 else 1.0)
                               * SpeedDraw(speedRandomX) as real / FRAMES_PER_SECOND as real
      ensures ballVelocityY == (if directionRandomY < 0.5 then -1.0 else 1.0)
                               * SpeedDraw(speedRandomY) as real / FRAMES_PER_SECOND as real
    {
      this.width := width;
      this.height := height;
      ballPositionX := width as real / 2.0;
      ballPositionY := height as real / 2.0;
      ballVelocityX := SpeedDraw(speedRandomX) as real / FRAMES_PER_SECOND as real;
      ballVelocityY := SpeedDraw(speedRandomY) as real / FRAMES_PER_SECOND as real;
      new;
      if NegateDraw(directionRandomX) {
        ballVelocityX := -ballVelocityX;
      }
      if NegateDraw(directionRandomY) {
        ballVelocityY := -ballVelocityY;
      }
    }

    /** The motion part of `updateCanvas`: move the ball, then the four wall
        checks in source order (left, right, top, bottom). */
    method UpdateCanvas()
      modifies this
      ensures width == old(width) && height == old(height)
      ensures State() == Frame(old(State()), width as real, height as real)
    {
      ballPositionX := ballPositionX + ballVelocityX;
      ballPositionY := ballPositionY + ballVelocityY;

      if ballPositionX - HALF_BALL < 0.0 && ballVelocityX < 0.0 {
        ballVelocityX := -ballVelocityX;
      }
      if ballPositionX + HALF_BALL > width as real && ballVelocityX > 0.0 {
        ballVelocityX := -ballVelocityX;
      }
      if ballPositionY - HALF_BALL < 0.0 && ballVelocityY < 0.0 {
        ballVelocityY := -ballVelocityY;
      }
      if ballPositionY + HALF_BALL > height as real && ballVelocityY > 0.0 {
        ballVelocityY := -ballVelocityY;
      }
    }
  }

  // ---------------------------------------------------------------------------
  // Properties of a frame

  /** On an axis at least as long as the ball, the two checks cannot both
      fire, and the velocity is negated exactly when the ball is past a wall
      while moving toward it. */
  lemma BounceExactly(pos: real, vel: real, extent: real)
    requires extent >= BALL_SIZE_PX as real
    ensures !(HitsLowWall(pos, vel) && HitsHighWall(pos, -vel, extent))
    ensures !(HitsLowWall(pos, vel) && HitsHighWall(pos, vel, extent))
    ensures Bounce(pos, vel, extent) ==
              if HitsLowWall(pos, vel) || HitsHighWall(pos, vel, extent) then -vel else vel
  {
  }

  /** A ball that is moving away from a wall, or standing still, is never
      turned back by that wall, however far past it the ball is. */
  lemma MovingAwayNotReflected(pos: real, vel: real, extent: real)
    ensures vel >= 0.0 && !HitsHighWall(pos, vel, extent) ==> Bounce(pos, vel, extent) == vel
    ensures vel <= 0.0 && !HitsLowWall(pos, vel) ==> Bounce(pos, vel, extent) == vel
  {
  }

  /** On a canvas narrower than the ball, a ball past the left wall and
      moving left is flipped by the left check and flipped back by the right
      check, so it keeps moving left. */
  lemma NarrowCanvasFlipsTwice()
    ensures HitsLowWall(2.0, -1.0) && HitsHighWall(2.0, 1.0, 4.0)
    ensures Bounce(2.0, -1.0, 4.0) == -1.0
  {
  }

  /** Each frame moves the ball by the velocity it had before the frame; the
      X velocity depends only on the X position and velocity and the width,
      the Y velocity only on Y and the height; every speed is kept. */
  lemma FrameAxesIndependent(s: BallState, t: BallState, width: real, height: real)
    ensures Frame(s, width, height).positionX == s.positionX + s.velocityX
    ensures Frame(s, width, height).positionY == s.positionY + s.velocityY
    ensures s.positionX == t.positionX && s.velocityX == t.velocityX ==>
              Frame(s, width, height).velocityX == Frame(t, width, height).velocityX
    ensures s.positionY == t.positionY && s.velocityY == t.velocityY ==>
              Frame(s, width, height).velocityY == Frame(t, width, height).velocityY
    ensures Abs(Frame(s, width, height).velocityX) == Abs(s.velocityX)
    ensures Abs(Frame(s, width, height).velocityY) == Abs(s.velocityY)
  {
  }

  /** A ball heading into a corner bounces off both walls in the same frame. */
  lemma CornerBouncesBothAxes()
    ensures Frame(BallState(3.0, 3.0, -1.0, -1.0), 100.0, 100.0) == BallState(2.0, 2.0, 1.0, 1.0)
  {
  }

  // ---------------------------------------------------------------------------
  // The ball stays on the canvas

  /** On one axis: the ball is at most one frame's travel past a wall, and
      only while it is already moving away from that wall. Moving toward the
      low wall it is clear of it; moving away, it is at most `|vel|` past it;
      and the same at the high wall `extent`. */
  predicate InPlay(pos: real, vel: real, extent: real) {
    (vel < 0.0 ==> pos >= HALF_BALL) &&
    (vel >= 0.0 ==> pos >= HALF_BALL - vel) &&
    (vel > 0.0 ==> pos <= extent - HALF_BALL) &&
    (vel <= 0.0 ==> pos <= extent - HALF_BALL - vel)
  }

  /** One frame keeps an axis in play, given that the axis is at least as
      long as the ball. */
  lemma {:induction false} AxisStaysInPlay(pos: real, vel: real, extent: real)
    requires extent >= BALL_SIZE_PX as real
    requires InPlay(pos, vel, extent)
    ensures InPlay(pos + vel, Bounce(pos + vel, vel, extent), extent)
  {
    BounceExactly(pos + vel, vel, extent);
  }

  /** Over any number of frames, a ball that starts in play stays in play
      and keeps its speed on each axis. */
  lemma {:induction false} FramesStayInPlay(s: BallState, width: real, height: real, n: nat)
    requires width >= BALL_SIZE_PX as real && height >= BALL_SIZE_PX as real
    requires InPlay(s.positionX, s.velocityX, width) && InPlay(s.positionY, s.velocityY, height)
    ensures var t := Frames(s, width, height, n);
            InPlay(t.positionX, t.velocityX, width) && InPlay(t.positionY, t.velocityY, height)
            && Abs(t.velocityX) == Abs(s.velocityX) && Abs(t.velocityY) == Abs(s.velocityY)
    decreases n
  {
    if n > 0 {
      AxisStaysInPlay(s.positionX, s.velocityX, width);
      AxisStaysInPlay(s.positionY, s.velocityY, height);
      FrameAxesIndependent(s, s, width, height);
      FramesStayInPlay(Frame(s, width, height), width, height, n - 1);
    }
  }

  /** A ball started at the centre of a canvas at least as large as the ball
      never has its edge more than one frame's travel outside the canvas:
      after any number of frames its centre lies within
      `[HALF_BALL - |v|, extent - HALF_BALL + |v|]` on each axis, where `v`
      is the starting velocity on that axis, and its speed on each axis is
      the starting speed. */
  lemma CentredBallStaysOnCanvas(width: nat, height: nat, vx: real, vy: real, n: nat)
    requires width >= BALL_SIZE_PX && height >= BALL_SIZE_PX
    ensures var t := Frames(BallState(width as real / 2.0, height as real / 2.0, vx, vy),
                            width as real, height as real, n);
            HALF_BALL - Abs(vx) <= t.positionX <= width as real - HALF_BALL + Abs(vx) &&
            HALF_BALL - Abs(vy) <= t.positionY <= height as real - HALF_BALL + Abs(vy) &&
            Abs(t.velocityX) == Abs(vx) && Abs(t.velocityY) == Abs(vy)
  {
    var s := BallState(width as real / 2.0, height as real / 2.0, vx, vy);
    FramesStayInPlay(s, width as real, height as real, n);
  }
}
