/** src/multiplying_balls.rs: a growing population of bouncing balls,
    capped at 1750. */
module MultiplyingBalls {
  import opened Balls
  import opened Spawning

  /** `MAX_BALLS`. */
  const MaxBalls: nat := 1750

  class MainState {
    var balls: seq<Ball>

    /** What every frame keeps: the list owns each ball once, no ball lies
        outside the screen, and the population respects the cap. */
    ghost predicate Valid()
      reads this, set b | b in balls
    {
      Population(balls, MaxBalls)
    }

    /** `MainState::new`: one white ball at the centre, velocity (5, 7),
        created at time `now`. */
    constructor (now: real)
      ensures Valid()
      ensures States(balls) == [Seed(now)]
    {
      var seed := new Ball(ScreenWidth / 2.0, ScreenHeight / 2.0, 5.0, 7.0, White, now);
      balls := [seed];
    }

    /** `MainState::update` at time `now`, the k-th child of this frame
        taking velocity and colour `draws(k)`. The balls already on the list
        stay, in order, as a prefix; the list becomes `Tick` of the old one. */
    method Update(now: real, draws: nat -> Offspring)
      requires Valid()
      modifies this, set b | b in balls
      ensures Valid()
      ensures old(|balls|) <= |balls| && balls[..old(|balls|)] == old(balls)
      ensures States(balls) == Tick(old(States(balls)), MaxBalls, now, draws)
    {
      balls := Step(balls, MaxBalls, now, draws);
    }
  }
}
