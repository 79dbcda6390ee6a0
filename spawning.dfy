/** The population step shared by `MainState::update` in src/ball_video.rs
    and src/multiplying_balls.rs: every ball is advanced in order; a ball
    that hit a wall, whose cooldown has strictly elapsed, and whose spawn
    keeps the population below the cap, gets one child at its new position;
    the children are appended after the scan. The two programs differ only
    in the cap, which is a parameter here. */
module Spawning {
  import opened Balls

  /** `COOLDOWN_DURATION`, in seconds. */
  const Cooldown: real := 1.0

  /** What the random generator supplies for one child: the velocity
      and the colour. Any values are allowed here, although the source
      draws a direction at speed 5 and a colour with alpha 1.0. */
  datatype Offspring = Offspring(vx: real, vy: real, color: Color)

  /** The balls of the pre-tick list after the scan, and the children the
      scan collected, in the order they were spawned. */
  datatype ScanResult = ScanResult(visited: seq<BallState>, children: seq<BallState>)

  /** `Instant::elapsed`: the time since `since`, zero if `since` lies in
      the future (the subtraction of instants saturates). */
  function Elapsed(now: real, since: real): (d: real)
    ensures d >= 0.0
    ensures d > Cooldown <==> now - since > Cooldown
  {
    if since <= now then now - since else 0.0
  }

  /** The spawn condition of the scan, for a ball that has just been
      advanced, when `pending` children of this tick are already waiting. */
  predicate Spawns(hit: bool, b: BallState, now: real, numBalls: nat, pending: nat, maxBalls: nat)
  {
    hit && Elapsed(now, b.lastMultiplied) > Cooldown && numBalls + pending < maxBalls
  }

  /** `Ball::new` at the parent's (advanced) position. */
  function Child(parent: BallState, d: Offspring, now: real): BallState
  {
    BallState(parent.x, parent.y, d.vx, d.vy, d.color, now)
  }

  /** One turn of the scan: advance ball `b`, and spawn its child if the
      condition holds with the children collected so far in `p`. */
  function Visit(p: ScanResult, b: BallState, numBalls: nat, maxBalls: nat, now: real, draws: nat -> Offspring): ScanResult
  {
    var (a, hit) := Advance(b);
    var k := |p.children|;
    if Spawns(hit, a, now, numBalls, k, maxBalls) then
      ScanResult(p.visited + [a.(lastMultiplied := now)], p.children + [Child(a, draws(k), now)])
    else
      ScanResult(p.visited + [a], p.children)
  }

  /** `v` is ball `b` after its turn in the scan at time `now`: advanced,
      and its timestamp either kept or reset to `now`. */
  predicate Visited(v: BallState, b: BallState, now: real)
  {
    var a := Advance(b).0;
    v == a || v == a.(lastMultiplied := now)
  }

  /** The scan over the balls `s`, with `numBalls` the list length taken
      before the scan and `draws(k)` the random values of the k-th child. */
  function Scan(s: seq<BallState>, numBalls: nat, maxBalls: nat, now: real, draws: nat -> Offspring): (r: ScanResult)
    ensures |r.visited| == |s| && |r.children| <= |s|
    ensures numBalls < maxBalls ==> numBalls + |r.children| <= maxBalls
    ensures numBalls >= maxBalls ==> r.children == []
    ensures forall j :: 0 <= j < |s| ==> InBounds(r.visited[j])
    ensures forall j {:trigger r.visited[j]} :: 0 <= j < |s| ==> Visited(r.visited[j], s[j], now)
    ensures forall k :: 0 <= k < |r.children| ==>
      InBounds(r.children[k]) && r.children[k].lastMultiplied == now &&
      r.children[k].vx == draws(k).vx && r.children[k].vy == draws(k).vy &&
      r.children[k].color == draws(k).color
    decreases |s|
  {
    if s == [] then ScanResult([], [])
    else Visit(Scan(s[..|s| - 1], numBalls, maxBalls, now, draws), s[|s| - 1], numBalls, maxBalls, now, draws)
  }

  /** `MainState::update` on values: the scanned balls, then the children. */
  function Tick(s: seq<BallState>, maxBalls: nat, now: real, draws: nat -> Offspring): (t: seq<BallState>)
    ensures |s| <= |t| <= 2 * |s|
    ensures |s| < maxBalls ==> |t| <= maxBalls
    ensures |s| >= maxBalls ==> |t| == |s|
    ensures forall j :: 0 <= j < |t| ==> InBounds(t[j])
    ensures forall j :: |s| <= j < |t| ==> t[j].lastMultiplied == now
  {
    var r := Scan(s, |s|, maxBalls, now, draws);
    r.visited + r.children
  }

  /** Scanning a prefix of the list does what the scan of the whole list
      does up to that point. */
  lemma {:induction false} ScanPrefix(s: seq<BallState>, j: nat, numBalls: nat, maxBalls: nat, now: real, draws: nat -> Offspring)
    requires j <= |s|
    ensures var whole, part := Scan(s, numBalls, maxBalls, now, draws), Scan(s[..j], numBalls, maxBalls, now, draws);
      part.visited == whole.visited[..j] && part.children <= whole.children
    decreases |s|
  {
    if j < |s| {
      var s' := s[..|s| - 1];
      assert s'[..j] == s[..j];
      ScanPrefix(s', j, numBalls, maxBalls, now, draws);
    } else {
      assert s[..j] == s;
    }
  }

  /** The fate of the ball at index `j`: it is advanced as `Ball::update`
      advances it, whether or not it spawns; it spawns exactly when it hit a
      wall, its cooldown strictly elapsed, and the pre-tick count plus the
      children of the balls before it is below the cap; a spawning ball's
      timestamp becomes `now`, any other ball keeps its own; and its child
      is the next child in the list, at its new position. */
  lemma ScanAt(s: seq<BallState>, j: nat, numBalls: nat, maxBalls: nat, now: real, draws: nat -> Offspring)
    requires j < |s|
    ensures var r, before := Scan(s, numBalls, maxBalls, now, draws), Scan(s[..j], numBalls, maxBalls, now, draws);
      var (a, hit) := Advance(s[j]);
      var k := |before.children|;
      var spawns := Spawns(hit, a, now, numBalls, k, maxBalls);
      && r.visited[j] == (if spawns then a.(lastMultiplied := now) else a)
      && (spawns <==> |Scan(s[..j + 1], numBalls, maxBalls, now, draws).children| == k + 1)
      && (spawns ==> k < |r.children| && r.children[k] == Child(a, draws(k), now))
      && (!spawns ==> Scan(s[..j + 1], numBalls, maxBalls, now, draws).children == before.children)
  {
    var r, upto := Scan(s, numBalls, maxBalls, now, draws), Scan(s[..j + 1], numBalls, maxBalls, now, draws);
    ScanSnoc(s, j, numBalls, maxBalls, now, draws);
    ScanPrefix(s, j + 1, numBalls, maxBalls, now, draws);
    assert r.visited[j] == upto.visited[j];
  }

  /** Children follow their parents' order: every child of a ball comes
      before every child of a later ball. With `ScanAt`, ball `i`'s child
      sits at index |Scan(s[..i]).children|, below this bound for ball `j`. */
  lemma ChildrenInParentOrder(s: seq<BallState>, i: nat, j: nat, numBalls: nat, maxBalls: nat, now: real, draws: nat -> Offspring)
    requires i < j <= |s|
    ensures |Scan(s[..i + 1], numBalls, maxBalls, now, draws).children| <= |Scan(s[..j], numBalls, maxBalls, now, draws).children|
  {
    PrefixOfPrefix(s, i + 1, j);
    ScanPrefix(s[..j], i + 1, numBalls, maxBalls, now, draws);
  }

  lemma PrefixOfPrefix<T>(s: seq<T>, i: nat, j: nat)
    requires i <= j <= |s|
    ensures s[..j][..i] == s[..i]
  {
  }

  /** The balls that were on the list before the tick stay there, in order,
      as a prefix; each of them is the advanced ball, with only its
      timestamp possibly reset to `now`; the rest of the list are this
      tick's children, none of which was advanced. */
  lemma TickKeepsPrefix(s: seq<BallState>, maxBalls: nat, now: real, draws: nat -> Offspring)
    ensures var t := Tick(s, maxBalls, now, draws);
      && t[..|s|] == Scan(s, |s|, maxBalls, now, draws).visited
      && t[|s|..] == Scan(s, |s|, maxBalls, now, draws).children
      && forall j :: 0 <= j < |s| ==>
           var a := Advance(s[j]).0;
           t[j] == a || t[j] == a.(lastMultiplied := now)
  {
    var r := Scan(s, |s|, maxBalls, now, draws);
    forall j | 0 <= j < |s|
      ensures var a := Advance(s[j]).0; r.visited[j] == a || r.visited[j] == a.(lastMultiplied := now)
    {
      ScanAt(s, j, |s|, maxBalls, now, draws);
    }
  }

  /** The cooldown gate: a ball whose timestamp the tick changed spawned,
      so it hit a wall and more than one second had passed since its last
      spawn; a ball that did not hit, or whose cooldown has not elapsed,
      keeps its timestamp and spawns nothing. */
  lemma CooldownGate(s: seq<BallState>, j: nat, maxBalls: nat, now: real, draws: nat -> Offspring)
    requires j < |s|
    ensures var t := Tick(s, maxBalls, now, draws);
      var (a, hit) := Advance(s[j]);
      && (t[j].lastMultiplied != s[j].lastMultiplied ==> hit && now - s[j].lastMultiplied > Cooldown)
      && (!hit || now - s[j].lastMultiplied <= Cooldown ==> t[j] == a)
  {
    ScanAt(s, j, |s|, maxBalls, now, draws);
  }

  /** Two ball states that differ at most in their timestamp. */
  predicate SameMotion(a: BallState, b: BallState)
  {
    a.x == b.x && a.y == b.y && a.vx == b.vx && a.vy == b.vy && a.color == b.color
  }

  /** A ball's timestamp plays no part in how it moves. */
  lemma AdvanceIgnoresStamp(a: BallState, b: BallState)
    requires SameMotion(a, b)
    ensures SameMotion(Advance(a).0, Advance(b).0) && Advance(a).1 == Advance(b).1
  {
  }

  /** `n` updates of the list, the i-th at time `times(i)` with the random
      draws `draws(i)`. */
  function Ticks(s: seq<BallState>, maxBalls: nat, times: nat -> real, draws: nat -> nat -> Offspring, n: nat): (t: seq<BallState>)
    ensures |s| <= |t|
  {
    if n == 0 then s
    else Tick(Ticks(s, maxBalls, times, draws, n - 1), maxBalls, times(n - 1), draws(n - 1))
  }

  /** The first ball of the list moves as a lone ball would: however many
      updates pass and however many children are born, it stays at index 0
      and only its timestamp can differ from `Run`. */
  lemma {:induction false} FirstBallFollowsRun(s: seq<BallState>, maxBalls: nat, times: nat -> real, draws: nat -> nat -> Offspring, n: nat)
    requires |s| > 0
    ensures SameMotion(Ticks(s, maxBalls, times, draws, n)[0], Run(s[0], n))
  {
    if n > 0 {
      var prev := Ticks(s, maxBalls, times, draws, n - 1);
      FirstBallFollowsRun(s, maxBalls, times, draws, n - 1);
      TickKeepsPrefix(prev, maxBalls, times(n - 1), draws(n - 1));
      AdvanceIgnoresStamp(prev[0], Run(s[0], n - 1));
    }
  }

  /** In the running program the seed ball, which stays first on the list,
      moves horizontally as an exact reflection between the side walls. */
  lemma SeedBallZigzags(now: real, maxBalls: nat, times: nat -> real, draws: nat -> nat -> Offspring, n: nat)
    ensures var b, p := Ticks([Seed(now)], maxBalls, times, draws, n)[0], (104 + n) % 416;
      b.x == BallRadius + 5.0 * (Zigzag(p) as real) && b.vx == if p < 208 then 5.0 else -5.0
  {
    FirstBallFollowsRun([Seed(now)], maxBalls, times, draws, n);
    SeedHorizontalMotion(now, n);
  }

  /** Ball objects on a list, as the `Vec<Ball>` owns them: no two alike. */
  ghost predicate Distinct(balls: seq<Ball>)
  {
    forall i, j :: 0 <= i < j < |balls| ==> balls[i] != balls[j]
  }

  lemma DistinctConcat(a: seq<Ball>, b: seq<Ball>)
    requires Distinct(a) && Distinct(b)
    requires forall k :: 0 <= k < |b| ==> b[k] !in a
    ensures Distinct(a + b)
  {
    forall i, j | 0 <= i < j < |a + b| ensures (a + b)[i] != (a + b)[j] {
      if j >= |a| && i < |a| {
        assert (a + b)[i] in a;
      }
    }
  }

  ghost function States(balls: seq<Ball>): (s: seq<BallState>)
    reads set b | b in balls
    ensures |s| == |balls| && forall j :: 0 <= j < |balls| ==> s[j] == balls[j].State()
  {
    seq(|balls|, j reads set b | b in balls requires 0 <= j < |balls| => balls[j].State())
  }

  /** The scan of one more ball is one more turn of the scan. */
  lemma ScanSnoc(s: seq<BallState>, i: nat, numBalls: nat, maxBalls: nat, now: real, draws: nat -> Offspring)
    requires i < |s|
    ensures Scan(s[..i + 1], numBalls, maxBalls, now, draws) == Visit(Scan(s[..i], numBalls, maxBalls, now, draws), s[i], numBalls, maxBalls, now, draws)
  {
    assert s[..i + 1][..i] == s[..i];
  }

  /** The body of the `for` loop of `MainState::update` for one ball: the
      ball is updated in place, and the child it spawns, if any, is built;
      together they are one turn `Visit` of the scan, `p` being the scan so
      far. */
  method VisitBall(ball: Ball, ghost p: ScanResult, numBalls: nat, pending: nat, maxBalls: nat, now: real, draws: nat -> Offspring)
    returns (spawned: bool, child: BallState)
    requires pending == |p.children|
    modifies ball
    ensures Visit(p, old(ball.State()), numBalls, maxBalls, now, draws) ==
      ScanResult(p.visited + [ball.State()], if spawned then p.children + [child] else p.children)
  {
    var hit := ball.Update();
    spawned := hit && Elapsed(now, ball.lastMultiplied) > Cooldown && numBalls + pending < maxBalls;
    child := Child(ball.State(), draws(pending), now);
    if spawned {
      ball.lastMultiplied := now;
    }
  }

  /** The `for ball in &mut self.balls` loop of `MainState::update`: each
      ball is updated in place, and the children spawned are returned in
      order (the `new_balls` vector), for the caller to append. */
  method ScanAndSpawn(balls: seq<Ball>, maxBalls: nat, now: real, draws: nat -> Offspring) returns (children: seq<BallState>)
    requires Distinct(balls)
    modifies set b | b in balls
    ensures var r := Scan(old(States(balls)), |balls|, maxBalls, now, draws);
      children == r.children &&
      (forall j :: 0 <= j < |balls| ==> balls[j].State() == r.visited[j])
  {
    ghost var s0 := States(balls);
    ghost var r := ScanResult([], []);
    var numBalls := |balls|;
    children := [];
    var i := 0;
    while i < |balls|
      invariant 0 <= i <= |balls|
      invariant r == Scan(s0[..i], numBalls, maxBalls, now, draws)
      invariant |r.visited| == i && children == r.children
      invariant forall j :: 0 <= j < |balls| ==> balls[j].State() == if j < i then r.visited[j] else s0[j]
    {
      ScanSnoc(s0, i, numBalls, maxBalls, now, draws);
      assert forall j :: 0 <= j < |balls| && j != i ==> balls[j] != balls[i];
      var spawned, child := VisitBall(balls[i], r, numBalls, |children|, maxBalls, now, draws);
      r := Visit(r, s0[i], numBalls, maxBalls, now, draws);
      if spawned {
        children := children + [child];
      }
      i := i + 1;
    }
    assert s0[..|balls|] == s0;
  }

  /** `Ball::new` for each child value, in order: the balls that the
      append moves into the list. */
  method NewBalls(kids: seq<BallState>) returns (born: seq<Ball>)
    ensures |born| == |kids|
    ensures forall k :: 0 <= k < |kids| ==> fresh(born[k]) && born[k].State() == kids[k]
    ensures Distinct(born)
  {
    born := [];
    for k := 0 to |kids|
      invariant |born| == k
      invariant forall m :: 0 <= m < k ==> fresh(born[m]) && born[m].State() == kids[m]
      invariant Distinct(born)
    {
      var kid := kids[k];
      var b := new Ball(kid.x, kid.y, kid.vx, kid.vy, kid.color, kid.lastMultiplied);
      born := born + [b];
    }
  }

  /** What every frame keeps of the ball list: it owns each ball once, no
      ball lies outside the screen, and the population is within the cap. */
  ghost predicate Population(balls: seq<Ball>, maxBalls: nat)
    reads set b | b in balls
  {
    && Distinct(balls)
    && 0 < |balls| <= maxBalls
    && forall j :: 0 <= j < |balls| ==> InBounds(balls[j].State())
  }

  /** The whole of `MainState::update`: scan the balls in place, then
      append the children (`self.balls.append(&mut new_balls)`). */
  method Step(balls: seq<Ball>, maxBalls: nat, now: real, draws: nat -> Offspring) returns (after: seq<Ball>)
    requires Population(balls, maxBalls)
    modifies set b | b in balls
    ensures Population(after, maxBalls)
    ensures |balls| <= |after| && after[..|balls|] == balls
    ensures States(after) == Tick(old(States(balls)), maxBalls, now, draws)
  {
    ghost var s0 := States(balls);
    var kids := ScanAndSpawn(balls, maxBalls, now, draws);
    var born := NewBalls(kids);
    ghost var t := Tick(s0, maxBalls, now, draws);
    assert forall k :: 0 <= k < |born| ==> born[k] !in balls;
    DistinctConcat(balls, born);
    after := balls + born;
    assert forall j :: 0 <= j < |after| ==> after[j].State() == t[j];
  }
}
