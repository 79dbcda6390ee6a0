/** The ball of the two multiplying-ball programs (src/ball_video.rs and
    src/multiplying_balls.rs declare it identically, with the same portrait
    screen): it advances by its velocity each frame, and on a wall contact
    reflects that axis's velocity and is clamped back inside the screen. */
module Balls {

  const ScreenWidth: real := 1080.0
  const ScreenHeight: real := 1920.0
  const BallRadius: real := 20.0

  /** An RGBA colour. */
  datatype Color = Color(r: real, g: real, b: real, a: real)

  const White := Color(1.0, 1.0, 1.0, 1.0)

  /** The value of a ball: position, velocity, colour, and the time
      (in seconds) at which it was created or last spawned a child. */
  datatype BallState = BallState(x: real, y: real, vx: real, vy: real, color: Color, lastMultiplied: real)

  function Max(a: real, b: real): (m: real)
    ensures m >= a && m >= b && (m == a || m == b)
  {
    if a >= b then a else b
  }

  function Min(a: real, b: real): (m: real)
    ensures m <= a && m <= b && (m == a || m == b)
  {
    if a <= b then a else b
  }

  /** `v.max(lo).min(hi)`: the point of [lo, hi] nearest to v. */
  function Clamp(v: real, lo: real, hi: real): (c: real)
    requires lo <= hi
    ensures lo <= c <= hi
    ensures lo <= v <= hi ==> c == v
    ensures v < lo ==> c == lo
    ensures v > hi ==> c == hi
  {
    Min(Max(v, lo), hi)
  }

  /** The wall condition of one axis: the ball's rim touches or crosses
      the wall at 0 or the wall at `dim`. */
  predicate HitsWall(p: real, dim: real)
  {
    p - BallRadius <= 0.0 || p + BallRadius >= dim
  }

  /** Where a ball may be after a frame: its rim inside the screen. */
  predicate InBounds(b: BallState)
  {
    BallRadius <= b.x <= ScreenWidth - BallRadius && BallRadius <= b.y <= ScreenHeight - BallRadius
  }

  /** One frame of `Ball::update` on a ball value: the new ball and
      whether either axis hit a wall. */
  function Advance(b: BallState): (r: (BallState, bool))
    ensures InBounds(r.0)
    ensures r.1 <==> HitsWall(b.x + b.vx, ScreenWidth) || HitsWall(b.y + b.vy, ScreenHeight)
    ensures r.0.vx == if HitsWall(b.x + b.vx, ScreenWidth) then -b.vx else b.vx
    ensures r.0.vy == if HitsWall(b.y + b.vy, ScreenHeight) then -b.vy else b.vy
    ensures !HitsWall(b.x + b.vx, ScreenWidth) ==> r.0.x == b.x + b.vx
    ensures !HitsWall(b.y + b.vy, ScreenHeight) ==> r.0.y == b.y + b.vy
    ensures b.x + b.vx <= BallRadius ==> r.0.x == BallRadius
    ensures b.x + b.vx >= ScreenWidth - BallRadius ==> r.0.x == ScreenWidth - BallRadius
    ensures b.y + b.vy <= BallRadius ==> r.0.y == BallRadius
    ensures b.y + b.vy >= ScreenHeight - BallRadius ==> r.0.y == ScreenHeight - BallRadius
    ensures r.0.color == b.color && r.0.lastMultiplied == b.lastMultiplied
    ensures !r.1 ==> r.0 == b.(x := b.x + b.vx, y := b.y + b.vy)
  {
    var x, y := b.x + b.vx, b.y + b.vy;
    var hitX, hitY := HitsWall(x, ScreenWidth), HitsWall(y, ScreenHeight);
    var b' := b.(x := if hitX then Clamp(x, BallRadius, ScreenWidth - BallRadius) else x,
                 vx := if hitX then -b.vx else b.vx,
                 y := if hitY then Clamp(y, BallRadius, ScreenHeight - BallRadius) else y,
                 vy := if hitY then -b.vy else b.vy);
    (b', hitX || hitY)
  }

  /** A ball that hits a wall leaves it on the next frame: it does not
      stick to the wall, provided it started on the screen and its speed on
      that axis is non-zero and smaller than the room between the walls. */
  lemma BounceLeavesWall(b: BallState)
    requires InBounds(b)
    requires b.vx != 0.0 && -(ScreenWidth - 2.0 * BallRadius) < b.vx < ScreenWidth - 2.0 * BallRadius
    requires HitsWall(b.x + b.vx, ScreenWidth)
    ensures !HitsWall(Advance(b).0.x + Advance(b).0.vx, ScreenWidth)
  {
    if b.x + b.vx <= BallRadius {
      assert b.vx < 0.0;
    } else {
      assert b.vx > 0.0;
    }
  }

  /** `n` frames of a lone ball. */
  function Run(b: BallState, n: nat): BallState
  {
    if n == 0 then b else Advance(Run(b, n - 1)).0
  }

  /** The seed ball of both programs: screen centre, velocity (5, 7). */
  function Seed(now: real): BallState
  {
    BallState(ScreenWidth / 2.0, ScreenHeight / 2.0, 5.0, 7.0, White, now)
  }

  /** Distance, in steps of 5, from the left stop to the position at
      phase `p` of the 416-frame horizontal cycle. */
  function Zigzag(p: nat): nat
    requires p < 416
  {
    if p <= 208 then p else 416 - p
  }

  /** The seed ball's horizontal motion is exact reflection: the wall
      distance 1040 is a multiple of its speed 5, so the clamp never moves
      it, and x runs a 416-frame triangle wave between 20 and 1060. */
  lemma {:induction false} SeedHorizontalMotion(now: real, n: nat)
    ensures var p := (104 + n) % 416;
      Run(Seed(now), n).x == BallRadius + 5.0 * (Zigzag(p) as real) &&
      Run(Seed(now), n).vx == if p < 208 then 5.0 else -5.0
  {
    if n > 0 {
      SeedHorizontalMotion(now, n - 1);
      ZigzagPhaseStep(103 + n);
    }
  }

  /** The phase of the next frame is one further round the 416-frame cycle. */
  lemma ZigzagPhaseStep(m: nat)
    ensures (m + 1) % 416 == if m % 416 == 415 then 0 else m % 416 + 1
  {
  }

  /** A ball on the heap, as `Ball` in both programs. */
  class Ball {
    var x: real
    var y: real
    var vx: real
    var vy: real
    var color: Color
    var lastMultiplied: real

    function State(): BallState
      reads this
    {
      BallState(x, y, vx, vy, color, lastMultiplied)
    }

    /** `Ball::new`; `now` stands for `Instant::now()`. */
    constructor (x: real, y: real, vx: real, vy: real, color: Color, now: real)
      ensures State() == BallState(x, y, vx, vy, color, now)
    {
      this.x, this.y, this.vx, this.vy := x, y, vx, vy;
      this.color, this.lastMultiplied := color, now;
    }

    /** `Ball::update`: advance, then reflect and clamp each axis that hit. */
    method Update() returns (hit: bool)
      modifies this
      ensures (State(), hit) == Advance(old(State()))
      ensures InBounds(State())
    {
      x, y := x + vx, y + vy;
      hit := false;
      if x - BallRadius <= 0.0 || x + BallRadius >= ScreenWidth {
        vx := -vx;
        x := Min(Max(x, BallRadius), ScreenWidth - BallRadius);
        hit := true;
      }
      if y - BallRadius <= 0.0 || y + BallRadius >= ScreenHeight {
        vy := -vy;
        y := Min(Max(y, BallRadius), ScreenHeight - BallRadius);
        hit := true;
      }
    }
  }
}
