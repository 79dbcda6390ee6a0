/** src/main.rs: the first program, one ball on a landscape screen. Its
    ball reflects on a wall contact but is never clamped, so it may stand
    past a wall by less than one frame's movement. */
module BouncingBall {

  const ScreenWidth: real := 1920.0
  const ScreenHeight: real := 1080.0
  const BallRadius: real := 20.0

  /** Position and velocity of the ball. */
  datatype Motion = Motion(x: real, y: real, vx: real, vy: real)

  /** The wall condition of one axis: the centre at or past the point
      where the rim touches the wall at 0 or at `dim`. */
  predicate AtWall(p: real, dim: real)
  {
    p <= BallRadius || p >= dim - BallRadius
  }

  function Abs(v: real): (a: real)
    ensures a >= 0.0 && (a == v || a == -v)
  {
    if v < 0.0 then -v else v
  }

  /** One frame of `Ball::update`: the position moves by the velocity and
      is left where it lands; each velocity component is reversed exactly
      when the new position is at that axis's wall. */
  function Step(m: Motion): (r: Motion)
    ensures r.x == m.x + m.vx && r.y == m.y + m.vy
    ensures r.vx == (if AtWall(r.x, ScreenWidth) then -m.vx else m.vx)
    ensures r.vy == (if AtWall(r.y, ScreenHeight) then -m.vy else m.vy)
    ensures Abs(r.vx) == Abs(m.vx) && Abs(r.vy) == Abs(m.vy)
  {
    var x, y := m.x + m.vx, m.y + m.vy;
    Motion(x, y, if AtWall(x, ScreenWidth) then -m.vx else m.vx, if AtWall(y, ScreenHeight) then -m.vy else m.vy)
  }

  /** One axis of a ball that stays near the screen: its speed is non-zero
      and less than the room between the walls, it is less than one frame's
      movement past either wall, and where it is at a wall it is already
      moving away from it. */
  predicate AxisNearWalls(p: real, v: real, dim: real)
  {
    && 0.0 < Abs(v) < dim - 2.0 * BallRadius
    && BallRadius - Abs(v) < p < dim - BallRadius + Abs(v)
    && (p <= BallRadius ==> v > 0.0)
    && (p >= dim - BallRadius ==> v < 0.0)
  }

  predicate NearWalls(m: Motion)
  {
    AxisNearWalls(m.x, m.vx, ScreenWidth) && AxisNearWalls(m.y, m.vy, ScreenHeight)
  }

  /** A frame keeps the ball near the walls. */
  lemma StepKeepsNearWalls(m: Motion)
    requires NearWalls(m)
    ensures NearWalls(Step(m))
  {
    AxisStep(m.x, m.vx, ScreenWidth);
    AxisStep(m.y, m.vy, ScreenHeight);
  }

  lemma AxisStep(p: real, v: real, dim: real)
    requires AxisNearWalls(p, v, dim)
    ensures var p' := p + v; AxisNearWalls(p', if AtWall(p', dim) then -v else v, dim)
  {
    var p' := p + v;
    if v > 0.0 {
      assert !(p >= dim - BallRadius);
      assert p' > BallRadius;
    } else {
      assert !(p <= BallRadius);
      assert p' < dim - BallRadius;
    }
  }

  /** `n` frames. */
  function Steps(m: Motion, n: nat): Motion
  {
    if n == 0 then m else Step(Steps(m, n - 1))
  }

  /** However many frames pass, a ball that started near the walls stays
      there: without the clamp it can stand outside the screen's inner
      rectangle, but never by a whole frame's movement. */
  lemma {:induction false} StaysNearWalls(m: Motion, n: nat)
    requires NearWalls(m)
    ensures NearWalls(Steps(m, n))
    ensures Abs(Steps(m, n).vx) == Abs(m.vx) && Abs(Steps(m, n).vy) == Abs(m.vy)
    ensures BallRadius - Abs(m.vx) < Steps(m, n).x < ScreenWidth - BallRadius + Abs(m.vx)
    ensures BallRadius - Abs(m.vy) < Steps(m, n).y < ScreenHeight - BallRadius + Abs(m.vy)
  {
    if n > 0 {
      StaysNearWalls(m, n - 1);
      StepKeepsNearWalls(Steps(m, n - 1));
    }
  }

  class Ball {
    var x: real
    var y: real
    var vx: real
    var vy: real

    function State(): Motion
      reads this
    {
      Motion(x, y, vx, vy)
    }

    /** `Ball::new`. */
    constructor (x: real, y: real, vx: real, vy: real)
      ensures State() == Motion(x, y, vx, vy)
    {
      this.x, this.y, this.vx, this.vy := x, y, vx, vy;
    }

    /** `Ball::update`. */
    method Update()
      modifies this
      ensures State() == Step(old(State()))
    {
      x, y := x + vx, y + vy;
      if x <= BallRadius || x >= ScreenWidth - BallRadius {
        vx := -vx;
      }
      if y <= BallRadius || y >= ScreenHeight - BallRadius {
        vy := -vy;
      }
    }
  }

  class MainState {
    var ball: Ball

    ghost predicate Valid()
      reads this, ball
    {
      NearWalls(ball.State())
    }

    /** `MainState::new`: the ball at the centre (960, 540), velocity (5, 7). */
    constructor ()
      ensures Valid()
      ensures ball.State() == Motion(960.0, 540.0, 5.0, 7.0)
    {
      ball := new Ball(ScreenWidth / 2.0, ScreenHeight / 2.0, 5.0, 7.0);
    }

    /** `update` of the event handler: one frame of the ball. */
    method Update()
      requires Valid()
      modifies ball
      ensures Valid()
      ensures ball.State() == Step(old(ball.State()))
    {
      StepKeepsNearWalls(ball.State());
      ball.Update();
    }
  }
}
