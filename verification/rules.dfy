/** The rules of one simulation step (`update(dt)`), stated as pure functions over a value
    snapshot of the game. The `Game` class runs the same step in place and is proved to
    produce exactly what `Step` describes. */
module Rules {
  import opened Helpers
  import opened Entities
  import opened Collision

  /** Points earned per second survived. */
  const ScoreRate: real := 12.0

  /** Score needed to add 1 to the difficulty factor. */
  const DifficultyScale: real := 250.0

  /** Spawn interval at difficulty 1, in seconds. */
  const BaseInterval: real := 0.45

  /** The spawn interval never drops below this, in seconds. */
  const MinInterval: real := 0.14

  /** How far below the bottom edge an asteroid's top may go before it is dropped. */
  const PruneSlack: real := 60.0

  /** How far below the bottom edge a hit asteroid is moved. */
  const KnockDrop: real := 999.0

  /** Horizontal direction from the two held keys: -1, 0 or +1; both held cancel out. */
  function Direction(left: bool, right: bool): (d: int)
    ensures -1 <= d <= 1
    ensures d == 0 <==> left == right
    ensures d == 1 <==> right && !left
  {
    (if right then 1 else 0) - (if left then 1 else 0)
  }

  /** The ship after one frame of steering: moved by `dir * speed * dt`, then clamped into
      its band. Only `x` changes, and on a field wide enough for the band the ship ends
      the frame inside it. */
  function Steer(p: Player, left: bool, right: bool, dt: real, width: real): (q: Player)
    ensures q == p.(x := q.x)
    ensures BandLo(p) <= BandHi(p, width) ==> InBand(q, width)
  {
    var x := p.x + Direction(left, right) as real * p.speed * dt;
    p.(x := Clamp(x, BandLo(p), BandHi(p, width)))
  }

  // Written `0.0 < a || a == 0.0` rather than `a >= 0.0`: the solver settles this
  // nonlinear fact in that form and may give up on the other.
  lemma ProductNonneg(a: real, b: real)
    requires 0.0 < a || a == 0.0
    requires 0.0 < b || b == 0.0
    ensures a * b >= 0.0
  {
  }

  lemma ProductPositive(a: real, b: real)
    requires a > 0.0 && b > 0.0
    ensures a * b > 0.0
  {
  }

  /** Holding only the key towards the wall the ship already touches leaves it in place. */
  lemma SteerAtLeftWall(p: Player, dt: real, width: real)
    requires p.x == BandLo(p) && BandLo(p) <= BandHi(p, width)
    requires p.speed >= 0.0 && dt >= 0.0
    ensures Steer(p, true, false, dt, width) == p
  {
    ProductNonneg(p.speed, dt);
    assert Direction(true, false) as real * p.speed * dt == -(p.speed * dt);
  }

  /** The held keys decide the motion: with only right held the ship never moves left,
      with only left held it never moves right, with neither or both held it stays put,
      a move that stays inside the band is exactly `dir * speed * dt`, and a move past
      either end of the band stops exactly at that end. */
  lemma SteerFollowsKeys(p: Player, left: bool, right: bool, dt: real, width: real)
    requires p.speed >= 0.0 && dt >= 0.0 && InBand(p, width)
    ensures var q := Steer(p, left, right, dt, width);
      && (right && !left ==> q.x >= p.x)
      && (left && !right ==> q.x <= p.x)
      && (left == right ==> q == p)
      && (var moved := p.x + Direction(left, right) as real * p.speed * dt;
          && (BandLo(p) <= moved <= BandHi(p, width) ==> q.x == moved)
          && (moved > BandHi(p, width) ==> q.x == BandHi(p, width))
          && (moved < BandLo(p) ==> q.x == BandLo(p)))
  {
    ProductNonneg(p.speed, dt);
    var d := Direction(left, right);
    if d == 1 {
      assert d as real * p.speed * dt == p.speed * dt;
    } else if d == -1 {
      assert d as real * p.speed * dt == -(p.speed * dt);
    } else {
      assert d as real * p.speed * dt == 0.0;
    }
  }

  /** The difficulty factor `1 + score / 250`: at least 1 for a non-negative score and
      growing with the score. */
  function Difficulty(score: real): (d: real)
    ensures score >= 0.0 ==> d >= 1.0
    ensures score > 0.0 ==> d > 1.0
  {
    1.0 + score / DifficultyScale
  }

  lemma DifficultyGrows(s1: real, s2: real)
    requires s1 <= s2
    ensures Difficulty(s1) <= Difficulty(s2)
  {
  }

  lemma QuotientBounds(c: real, d: real)
    requires c > 0.0 && d > 0.0
    ensures c / d > 0.0
    ensures 1.0 < d || d == 1.0 ==> c / d <= c
  {
    var q := c / d;
    assert q * d == c;
    if 1.0 < d || d == 1.0 {
      ProductNonneg(q, d - 1.0);
      assert q * d - q >= 0.0;
    }
  }

  lemma QuotientShrinks(c: real, d1: real, d2: real)
    requires c > 0.0 && d1 > 0.0 && (d1 < d2 || d1 == d2)
    ensures c / d2 <= c / d1
  {
    var q1 := c / d1;
    var q2 := c / d2;
    assert q1 * d1 == c && q2 * d2 == c;
    QuotientBounds(c, d1);
    ProductNonneg(q1, d2 - d1);
  }

  /** The value the spawn countdown is reset to: `max(0.45 / difficulty, 0.14)`. It never
      drops below 0.14 s, and at difficulty 1 or more it is at most 0.45 s. */
  function ResetInterval(difficulty: real): (t: real)
    requires difficulty > 0.0
    ensures t >= MinInterval
    ensures difficulty >= 1.0 ==> t <= BaseInterval
  {
    QuotientBounds(BaseInterval, difficulty);
    Max(BaseInterval / difficulty, MinInterval)
  }

  /** A higher difficulty never lengthens the spawn interval. */
  lemma ResetIntervalShrinks(d1: real, d2: real)
    requires 0.0 < d1 <= d2
    ensures ResetInterval(d2) <= ResetInterval(d1)
  {
    QuotientShrinks(BaseInterval, d1, d2);
  }

  /** The game gets harder as the score grows: a higher score never lengthens the
      interval the spawn countdown restarts from. */
  lemma SpawnIntervalShrinksWithScore(s1: real, s2: real)
    requires 0.0 <= s1 <= s2
    ensures ResetInterval(Difficulty(s2)) <= ResetInterval(Difficulty(s1))
  {
    DifficultyGrows(s1, s2);
    ResetIntervalShrinks(Difficulty(s1), Difficulty(s2));
  }

  /** Result of the spawn rule: the asteroid list and the new countdown. */
  datatype Spawned = Spawned(rocks: seq<Asteroid>, timer: real)

  /** The spawn rule: the countdown runs down by `dt`; when it reaches zero or below, one
      asteroid is appended and the countdown restarts from `ResetInterval`. Nothing else
      is ever added, and existing asteroids are kept in place. */
  function Spawn(rocks: seq<Asteroid>, timer: real, dt: real, difficulty: real, width: real, d: RockDraw): (s: Spawned)
    requires difficulty > 0.0 && RockDrawOk(d)
    ensures |rocks| <= |s.rocks| <= |rocks| + 1
    ensures s.rocks[..|rocks|] == rocks
    ensures |s.rocks| == |rocks| + 1 <==> timer - dt <= 0.0
    ensures |s.rocks| == |rocks| + 1 ==>
              && s.timer == ResetInterval(difficulty) && s.timer >= MinInterval
              && s.rocks[|rocks|] == CreateAsteroid(width, d)
    ensures |s.rocks| == |rocks| ==> s.timer == timer - dt
  {
    var t := timer - dt;
    if t <= 0.0 then
      assert (rocks + [CreateAsteroid(width, d)])[..|rocks|] == rocks;
      Spawned(rocks + [CreateAsteroid(width, d)], ResetInterval(difficulty))
    else
      assert rocks[..|rocks|] == rocks;
      Spawned(rocks, t)
  }

  /** One asteroid after one frame of falling: only `y` changes, by
      `speed * dt * difficulty`. */
  function Fall(a: Asteroid, dt: real, difficulty: real): (b: Asteroid)
    ensures b == a.(y := b.y)
  {
    a.(y := a.y + a.speed * dt * difficulty)
  }

  /** A non-negative speed, time step and difficulty never move an asteroid up, and
      positive ones move it strictly down. */
  lemma FallIsDownward(a: Asteroid, dt: real, difficulty: real)
    requires a.speed >= 0.0 && dt >= 0.0 && difficulty >= 0.0
    ensures Fall(a, dt, difficulty).y >= a.y
    ensures a.speed > 0.0 && dt > 0.0 && difficulty > 0.0 ==> Fall(a, dt, difficulty).y > a.y
  {
    ProductNonneg(a.speed, dt);
    ProductNonneg(a.speed * dt, difficulty);
    if a.speed > 0.0 && dt > 0.0 && difficulty > 0.0 {
      ProductPositive(a.speed, dt);
      ProductPositive(a.speed * dt, difficulty);
    }
  }

  /** A higher difficulty makes the same asteroid fall at least as far in the same frame. */
  lemma FallGrowsWithDifficulty(a: Asteroid, dt: real, d1: real, d2: real)
    requires a.speed >= 0.0 && dt >= 0.0 && d1 <= d2
    ensures Fall(a, dt, d1).y <= Fall(a, dt, d2).y
  {
    var step := a.speed * dt;
    ProductNonneg(a.speed, dt);
    ProductNonneg(step, d2 - d1);
    assert step * d2 - step * d1 == step * (d2 - d1);
  }

  /** Every asteroid advanced by one frame, in order. */
  function Advance(rocks: seq<Asteroid>, dt: real, difficulty: real): (moved: seq<Asteroid>)
    ensures |moved| == |rocks|
    ensures forall i :: 0 <= i < |rocks| ==> moved[i] == Fall(rocks[i], dt, difficulty)
  {
    seq(|rocks|, i requires 0 <= i < |rocks| => Fall(rocks[i], dt, difficulty))
  }

  /** The filter test: the asteroid's top is less than 60 below the bottom edge. An
      asteroid whose centre is still on the field always passes. */
  predicate OnScreen(a: Asteroid, height: real): (visible: bool)
    ensures a.radius >= 0.0 && a.y <= height ==> visible
  {
    a.y - a.radius < height + PruneSlack
  }

  /** `asteroids.filter(...)`: the asteroids that pass `OnScreen`, in their order. */
  function Prune(rocks: seq<Asteroid>, height: real): (kept: seq<Asteroid>)
    ensures |kept| <= |rocks|
    ensures forall a :: a in kept ==> a in rocks && OnScreen(a, height)
  {
    if rocks == [] then []
    else (if OnScreen(rocks[0], height) then [rocks[0]] else []) + Prune(rocks[1..], height)
  }

  /** Pruning a concatenation prunes each part and keeps the parts in order: the filter
      keeps the relative order of the survivors. */
  lemma {:induction false} PruneAppend(a: seq<Asteroid>, b: seq<Asteroid>, height: real)
    ensures Prune(a + b, height) == Prune(a, height) + Prune(b, height)
  {
    if a == [] {
      assert a + b == b;
    } else {
      assert (a + b)[0] == a[0];
      assert (a + b)[1..] == a[1..] + b;
      PruneAppend(a[1..], b, height);
    }
  }

  /** No asteroid that passes the test is dropped, and none that fails it is kept: every
      asteroid occurs in the result exactly as often as in the input if it passes, and
      not at all otherwise. */
  lemma {:induction false} PruneCounts(rocks: seq<Asteroid>, height: real, a: Asteroid)
    ensures multiset(Prune(rocks, height))[a] == if OnScreen(a, height) then multiset(rocks)[a] else 0
  {
    if rocks != [] {
      assert rocks == [rocks[0]] + rocks[1..];
      PruneCounts(rocks[1..], height, a);
      var head := if OnScreen(rocks[0], height) then [rocks[0]] else [];
      assert multiset(Prune(rocks, height)) == multiset(head) + multiset(Prune(rocks[1..], height));
      assert multiset(rocks) == multiset([rocks[0]]) + multiset(rocks[1..]);
    }
  }

  /** When every asteroid passes the test, pruning changes nothing. */
  lemma {:induction false} PruneKeepsVisible(rocks: seq<Asteroid>, height: real)
    requires forall i :: 0 <= i < |rocks| ==> OnScreen(rocks[i], height)
    ensures Prune(rocks, height) == rocks
  {
    if rocks != [] {
      PruneKeepsVisible(rocks[1..], height);
      assert [rocks[0]] + rocks[1..] == rocks;
    }
  }

  /** The radius and speed ranges `createAsteroid` produces; falling and knocking keep
      them. */
  predicate RockShaped(a: Asteroid)
  {
    14.0 <= a.radius < 32.0 && 90.0 <= a.speed < 200.0
  }

  predicate RocksShaped(rocks: seq<Asteroid>)
  {
    forall j :: 0 <= j < |rocks| ==> RockShaped(rocks[j])
  }

  /** Whether an asteroid overlaps the ship. */
  predicate Hits(a: Asteroid, p: Player)
  {
    CircleRectCollide(a.x, a.y, a.radius, p)
  }

  /** A hit asteroid, moved far below the field. */
  function Knock(a: Asteroid, height: real): (b: Asteroid)
    ensures b == a.(y := b.y)
    ensures !OnScreen(b, height) <==> a.radius <= KnockDrop - PruneSlack
  {
    a.(y := height + KnockDrop)
  }

  /** A knocked asteroid fails the pruning test after its next fall, so it is removed
      before the next collision pass: one asteroid never costs two lives. */
  lemma KnockedIsDroppedNextFrame(a: Asteroid, height: real, dt: real, difficulty: real)
    requires RockShaped(a) && dt >= 0.0 && difficulty >= 0.0
    ensures !OnScreen(Fall(Knock(a, height), dt, difficulty), height)
  {
    FallIsDownward(Knock(a, height), dt, difficulty);
  }

  /** Result of the collision pass: the asteroids, the lives left, whether the game ended,
      and the indices of the asteroids that hit, in the order they were found. */
  datatype Sweep = Sweep(rocks: seq<Asteroid>, lives: int, over: bool, hits: seq<nat>)

  /** The collision pass from index `i` on: each hit knocks that asteroid away and costs
      one life; the pass stops at the hit that leaves no life. */
  function Pass(rocks: seq<Asteroid>, p: Player, lives: int, height: real, i: nat): (s: Sweep)
    requires i <= |rocks|
    ensures |s.rocks| == |rocks|
    ensures s.lives == lives - |s.hits|
    decreases |rocks| - i
  {
    if i == |rocks| then Sweep(rocks, lives, false, [])
    else if Hits(rocks[i], p) then
      var knocked := rocks[i := Knock(rocks[i], height)];
      if lives - 1 <= 0 then Sweep(knocked, lives - 1, true, [i])
      else
        var rest := Pass(knocked, p, lives - 1, height, i + 1);
        rest.(hits := [i] + rest.hits)
    else Pass(rocks, p, lives, height, i + 1)
  }

  /** The hits are increasing indices from `i` on of asteroids that overlap the ship; the
      pass knocks exactly those away and leaves every other asteroid as it was. */
  lemma {:induction false} PassKnocksHits(rocks: seq<Asteroid>, p: Player, lives: int, height: real, i: nat)
    requires i <= |rocks|
    ensures var s := Pass(rocks, p, lives, height, i);
      && (forall k :: 0 <= k < |s.hits| ==> i <= s.hits[k] < |rocks| && Hits(rocks[s.hits[k]], p))
      && (forall k, m :: 0 <= k < m < |s.hits| ==> s.hits[k] < s.hits[m])
      && (forall j :: 0 <= j < |rocks| ==>
            s.rocks[j] == if j in s.hits then Knock(rocks[j], height) else rocks[j])
    decreases |rocks| - i
  {
    if i < |rocks| {
      if Hits(rocks[i], p) {
        var knocked := rocks[i := Knock(rocks[i], height)];
        if lives - 1 > 0 {
          PassKnocksHits(knocked, p, lives - 1, height, i + 1);
          var rest := Pass(knocked, p, lives - 1, height, i + 1);
          var s := Pass(rocks, p, lives, height, i);
          assert s.hits == [i] + rest.hits;
          forall j | 0 <= j < |rocks|
            ensures s.rocks[j] == if j in s.hits then Knock(rocks[j], height) else rocks[j]
          {
            if j == i {
              assert j !in rest.hits;
            } else {
              assert (j in s.hits) == (j in rest.hits);
            }
          }
        }
      } else {
        PassKnocksHits(rocks, p, lives, height, i + 1);
      }
    }
  }

  /** How far the pass got: one past the last hit when the game ended, the whole list
      otherwise. */
  function Reach(s: Sweep, n: nat): nat
  {
    if s.over && |s.hits| > 0 then s.hits[|s.hits| - 1] + 1 else n
  }

  /** The pass misses no overlap among the asteroids it examined: every asteroid before
      `Reach` that overlaps the ship is among the hits. A game-ending pass has at least
      one hit. */
  lemma {:induction false} PassMissesNothing(rocks: seq<Asteroid>, p: Player, lives: int, height: real, i: nat)
    requires i <= |rocks|
    ensures var s := Pass(rocks, p, lives, height, i);
      && (s.over ==> |s.hits| > 0)
      && (forall j :: i <= j < |rocks| && j < Reach(s, |rocks|) && Hits(rocks[j], p) ==> j in s.hits)
    decreases |rocks| - i
  {
    if i < |rocks| {
      if Hits(rocks[i], p) {
        var knocked := rocks[i := Knock(rocks[i], height)];
        if lives - 1 > 0 {
          PassMissesNothing(knocked, p, lives - 1, height, i + 1);
          var rest := Pass(knocked, p, lives - 1, height, i + 1);
          var s := Pass(rocks, p, lives, height, i);
          assert s.hits == [i] + rest.hits;
          assert Reach(s, |rocks|) == Reach(rest, |rocks|);
          forall j | i < j < |rocks| && j < Reach(s, |rocks|) && Hits(rocks[j], p)
            ensures j in s.hits
          {
            assert knocked[j] == rocks[j];
          }
        }
      } else {
        PassMissesNothing(rocks, p, lives, height, i + 1);
      }
    }
  }

  /** Entering with at least one life, the pass leaves no fewer than zero, and the game
      ends exactly when none is left. */
  lemma {:induction false} PassLives(rocks: seq<Asteroid>, p: Player, lives: int, height: real, i: nat)
    requires i <= |rocks| && lives >= 1
    ensures var s := Pass(rocks, p, lives, height, i);
      s.lives >= 0 && (s.over <==> s.lives == 0)
    decreases |rocks| - i
  {
    if i < |rocks| {
      if Hits(rocks[i], p) {
        if lives - 1 > 0 {
          PassLives(rocks[i := Knock(rocks[i], height)], p, lives - 1, height, i + 1);
        }
      } else {
        PassLives(rocks, p, lives, height, i + 1);
      }
    }
  }

  /** Once the game ends, no later asteroid is examined: everything after the last hit is
      left as it was, and, entering with at least one life, that last hit is the fatal
      one, the hit that used up the last life. */
  lemma PassStopsAtGameOver(rocks: seq<Asteroid>, p: Player, lives: int, height: real)
    ensures var s := Pass(rocks, p, lives, height, 0);
      && (s.over ==> forall j :: Reach(s, |rocks|) <= j < |rocks| ==> s.rocks[j] == rocks[j])
      && (lives >= 1 && s.over ==> |s.hits| == lives && s.lives == 0)
  {
    var s := Pass(rocks, p, lives, height, 0);
    if lives >= 1 {
      PassLives(rocks, p, lives, height, 0);
    }
    PassKnocksHits(rocks, p, lives, height, 0);
    PassMissesNothing(rocks, p, lives, height, 0);
    if s.over {
      forall j | Reach(s, |rocks|) <= j < |rocks|
        ensures s.rocks[j] == rocks[j]
      {
      }
    }
  }

  /** A snapshot of the state `update` reads and writes. */
  datatype World = World(
    player: Player,
    asteroids: seq<Asteroid>,
    stars: seq<Star>,
    score: real,
    lives: int,
    spawnTimer: real)

  /** What one frame reads from outside: the two held keys and the random draws
      (one column per star, used only if that star is recycled, and the three draws of a
      possible new asteroid). */
  datatype FrameInput = FrameInput(left: bool, right: bool, starDraws: seq<real>, rock: RockDraw)

  /** The frame's draws are what `Math.random` can return, one column per star. */
  predicate InputFits(input: FrameInput, starCount: nat)
  {
    && |input.starDraws| == starCount
    && RockDrawOk(input.rock)
    && forall i :: 0 <= i < |input.starDraws| ==> Unit(input.starDraws[i])
  }

  /** The invariant of a running game on a field of the given size: the ship has its
      fixed shape, row and speed and sits inside its band, the score is non-negative, the
      stars are on the field and every asteroid passes the pruning test or was knocked
      away. */
  predicate Sane(w: World, width: real, height: real)
  {
    && width >= 2.0 * 32.0 + 2.0 * SpawnMargin && height > 0.0
    && w.player.w == 40.0 && w.player.h == 30.0 && w.player.speed == 320.0
    && w.player.y == height - 60.0
    && InBand(w.player, width)
    && w.score >= 0.0
    && StarsOnField(w.stars, width, height)
    && RocksShaped(w.asteroids)
    && forall j :: 0 <= j < |w.asteroids| ==>
         OnScreen(w.asteroids[j], height) || w.asteroids[j].y == height + KnockDrop
  }

  /** The state after one step, and whether the collision pass ended the game. */
  datatype Outcome = Outcome(world: World, over: bool)

  /** Every star advanced by one frame, in order. */
  function DriftAll(stars: seq<Star>, dt: real, width: real, height: real, draws: seq<real>): (moved: seq<Star>)
    requires |draws| == |stars| && height >= -2.0
    ensures |moved| == |stars|
    ensures forall i :: 0 <= i < |stars| ==> moved[i] == Drift(stars[i], dt, width, height, draws[i])
  {
    seq(|stars|, i requires 0 <= i < |stars| => Drift(stars[i], dt, width, height, draws[i]))
  }

  /** One `update(dt)`, in the source's order: score, stars, ship, difficulty, spawn,
      fall, prune, collisions. */
  function Step(w: World, dt: real, input: FrameInput, width: real, height: real): (o: Outcome)
    requires w.score >= 0.0 && dt >= 0.0 && height >= -2.0
    requires InputFits(input, |w.stars|)
    ensures o.world.score == w.score + ScoreRate * dt && o.world.score >= w.score
    ensures |o.world.stars| == |w.stars|
    ensures o.world.player == w.player.(x := o.world.player.x)
    ensures o.world.lives <= w.lives
  {
    var score := w.score + dt * ScoreRate;
    var stars := DriftAll(w.stars, dt, width, height, input.starDraws);
    var player := Steer(w.player, input.left, input.right, dt, width);
    var difficulty := Difficulty(score);
    var spawned := Spawn(w.asteroids, w.spawnTimer, dt, difficulty, width, input.rock);
    var kept := Prune(Advance(spawned.rocks, dt, difficulty), height);
    var sweep := Pass(kept, player, w.lives, height, 0);
    Outcome(World(player, sweep.rocks, stars, score, sweep.lives, spawned.timer), sweep.over)
  }

  /** The ship ends every step inside its band, and only its `x` moves. */
  lemma StepKeepsShipInBand(w: World, dt: real, input: FrameInput, width: real, height: real)
    requires w.score >= 0.0 && dt >= 0.0 && height >= -2.0
    requires InputFits(input, |w.stars|)
    requires BandLo(w.player) <= BandHi(w.player, width)
    ensures var q := Step(w, dt, input, width, height).world.player;
      InBand(q, width) && q == w.player.(x := q.x)
  {
  }

  /** At most one asteroid is added per step, and only when the countdown has run out;
      whenever one is added the countdown restarts at no less than 0.14 s. */
  lemma StepSpawnsAtMostOne(w: World, dt: real, input: FrameInput, width: real, height: real)
    requires w.score >= 0.0 && dt >= 0.0 && height >= -2.0
    requires InputFits(input, |w.stars|)
    ensures var o := Step(w, dt, input, width, height);
      && |o.world.asteroids| <= |w.asteroids| + 1
      && (w.spawnTimer - dt > 0.0 ==>
            |o.world.asteroids| <= |w.asteroids| && o.world.spawnTimer == w.spawnTimer - dt)
      && (w.spawnTimer - dt <= 0.0 ==>
            && o.world.spawnTimer == ResetInterval(Difficulty(w.score + ScoreRate * dt))
            && o.world.spawnTimer >= MinInterval)
      && o.world.spawnTimer > 0.0
  {
    var score := w.score + dt * ScoreRate;
    var difficulty := Difficulty(score);
    var spawned := Spawn(w.asteroids, w.spawnTimer, dt, difficulty, width, input.rock);
    var moved := Advance(spawned.rocks, dt, difficulty);
    var kept := Prune(moved, height);
    var player := Steer(w.player, input.left, input.right, dt, width);
    var sweep := Pass(kept, player, w.lives, height, 0);
    assert |sweep.rocks| == |kept| <= |moved| == |spawned.rocks|;
  }

  /** After a step every asteroid is either on screen by the pruning test or was knocked
      away by a hit in this step. */
  lemma StepLeavesOnlyVisibleOrKnocked(w: World, dt: real, input: FrameInput, width: real, height: real)
    requires w.score >= 0.0 && dt >= 0.0 && height >= -2.0
    requires InputFits(input, |w.stars|)
    ensures var o := Step(w, dt, input, width, height);
      forall j :: 0 <= j < |o.world.asteroids| ==>
        OnScreen(o.world.asteroids[j], height) || o.world.asteroids[j].y == height + KnockDrop
  {
    var score := w.score + dt * ScoreRate;
    var difficulty := Difficulty(score);
    var spawned := Spawn(w.asteroids, w.spawnTimer, dt, difficulty, width, input.rock);
    var kept := Prune(Advance(spawned.rocks, dt, difficulty), height);
    assert forall j :: 0 <= j < |kept| ==> OnScreen(kept[j], height) by {
      forall j | 0 <= j < |kept| ensures OnScreen(kept[j], height) {
        assert kept[j] in kept;
      }
    }
    var player := Steer(w.player, input.left, input.right, dt, width);
    PassLeavesVisibleOrKnocked(kept, player, w.lives, height);
    assert Step(w, dt, input, width, height).world.asteroids == Pass(kept, player, w.lives, height, 0).rocks;
  }

  /** A collision pass over asteroids that all pass the pruning test leaves each of them
      passing it or knocked to `height + 999`. */
  lemma PassLeavesVisibleOrKnocked(rocks: seq<Asteroid>, p: Player, lives: int, height: real)
    requires forall j :: 0 <= j < |rocks| ==> OnScreen(rocks[j], height)
    ensures var s := Pass(rocks, p, lives, height, 0);
      forall j :: 0 <= j < |s.rocks| ==> OnScreen(s.rocks[j], height) || s.rocks[j].y == height + KnockDrop
  {
    PassKnocksHits(rocks, p, lives, height, 0);
  }

  /** Entering a step with at least one life, lives never go below zero, never rise, and
      the step ends the game exactly when they reach zero. */
  lemma StepLives(w: World, dt: real, input: FrameInput, width: real, height: real)
    requires w.score >= 0.0 && dt >= 0.0 && height >= -2.0
    requires InputFits(input, |w.stars|)
    requires w.lives >= 1
    ensures var o := Step(w, dt, input, width, height);
      0 <= o.world.lives <= w.lives && (o.over <==> o.world.lives == 0)
  {
    var score := w.score + dt * ScoreRate;
    var difficulty := Difficulty(score);
    var spawned := Spawn(w.asteroids, w.spawnTimer, dt, difficulty, width, input.rock);
    var kept := Prune(Advance(spawned.rocks, dt, difficulty), height);
    var player := Steer(w.player, input.left, input.right, dt, width);
    PassLives(kept, player, w.lives, height, 0);
  }

  /** Every asteroid after a step was created by `createAsteroid`'s ranges, given that
      every asteroid before it was. */
  lemma StepKeepsRocksShaped(w: World, dt: real, input: FrameInput, width: real, height: real)
    requires w.score >= 0.0 && dt >= 0.0 && height >= -2.0
    requires InputFits(input, |w.stars|)
    requires RocksShaped(w.asteroids)
    ensures RocksShaped(Step(w, dt, input, width, height).world.asteroids)
  {
    var score := w.score + dt * ScoreRate;
    var difficulty := Difficulty(score);
    var spawned := Spawn(w.asteroids, w.spawnTimer, dt, difficulty, width, input.rock);
    assert RocksShaped(spawned.rocks) by {
      forall j | 0 <= j < |spawned.rocks|
        ensures RockShaped(spawned.rocks[j])
      {
        if j < |w.asteroids| {
          assert spawned.rocks[j] == spawned.rocks[..|w.asteroids|][j];
        }
      }
    }
    var moved := Advance(spawned.rocks, dt, difficulty);
    var kept := Prune(moved, height);
    assert RocksShaped(kept) by {
      forall j | 0 <= j < |kept|
        ensures RockShaped(kept[j])
      {
        assert kept[j] in moved;
      }
    }
    var player := Steer(w.player, input.left, input.right, dt, width);
    PassKnocksHits(kept, player, w.lives, height, 0);
  }

  /** A step keeps the invariant of a running game. */
  lemma StepPreservesSane(w: World, dt: real, input: FrameInput, width: real, height: real)
    requires Sane(w, width, height) && dt >= 0.0
    requires InputFits(input, |w.stars|)
    ensures Sane(Step(w, dt, input, width, height).world, width, height)
  {
    StepKeepsShipInBand(w, dt, input, width, height);
    StepLeavesOnlyVisibleOrKnocked(w, dt, input, width, height);
    StepKeepsRocksShaped(w, dt, input, width, height);
    var stars := DriftAll(w.stars, dt, width, height, input.starDraws);
    forall i | 0 <= i < |stars|
      ensures 0.0 <= stars[i].x < width && stars[i].y <= height
    {
      DriftStaysOnField(w.stars[i], dt, width, height, input.starDraws[i]);
    }
  }

  /** `saveBestScore`: the best score becomes the final score only when that is strictly
      greater, so afterwards it is the larger of the two. */
  function BestAfter(best: real, score: real): (b: real)
    ensures b == Max(best, score)
    ensures b != best <==> score > best
  {
    if score > best then score else best
  }

  /** The `dt` of a frame in seconds; the first frame after a reset (`lastTime == 0`)
      measures from itself and so gets zero. */
  function FrameDelta(lastTime: real, timestamp: real): (dt: real)
    ensures lastTime == 0.0 ==> dt == 0.0
    ensures lastTime != 0.0 ==> dt * 1000.0 == timestamp - lastTime
    ensures lastTime <= timestamp ==> dt >= 0.0
  {
    var last := if lastTime == 0.0 then timestamp else lastTime;
    (timestamp - last) / 1000.0
  }
}
