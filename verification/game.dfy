/** The game's mutable state and the operations that change it in place: the module
    globals of the browser game as fields of one object, and the frame loop, the step and
    the lifecycle handlers as methods. Each method's ensures give its whole new state,
    through the matching pure function in `Rules` or `Entities` where there is one. */
module Game {
  import opened Helpers
  import opened Entities
  import opened Rules

  /** Stars generated when the page loads. */
  const StarCount: nat := 80

  /** Lives at the start of a game. */
  const StartLives: int := 3

  class Game {
    const width: real
    const height: real
    var player: Player
    var asteroids: seq<Asteroid>
    var stars: seq<Star>
    var score: real
    var bestScore: real
    var lives: int
    var running: bool
    var paused: bool
    var lastTime: real
    var spawnTimer: real

    /** The part of the state one step reads and writes. */
    function Current(): (w: World)
      reads this
      ensures w.player == player && w.asteroids == asteroids && w.stars == stars
      ensures w.score == score && w.lives == lives && w.spawnTimer == spawnTimer
    {
      World(player, asteroids, stars, score, lives, spawnTimer)
    }

    /** The step invariant holds, and a running game has at least one life left. */
    ghost predicate Valid()
      reads this
    {
      Sane(Current(), width, height) && (running ==> lives >= 1)
    }

    /** The page's start-up: the best score read back from storage, a fresh field of
        stars, and the overlay waiting for Start. */
    constructor (width: real, height: real, storedBest: real, starDraws: seq<StarDraw>)
      requires width >= 2.0 * 32.0 + 2.0 * SpawnMargin && height > 0.0
      requires |starDraws| == StarCount
      requires forall i :: 0 <= i < |starDraws| ==> StarDrawOk(starDraws[i])
      ensures this.width == width && this.height == height
      ensures stars == Starfield(starDraws, width, height)
      ensures player == CreatePlayer(width, height)
      ensures asteroids == [] && score == 0.0 && lives == StartLives
      ensures bestScore == storedBest
      ensures !running && !paused && lastTime == 0.0 && spawnTimer == 0.0
      ensures Valid()
    {
      this.width := width;
      this.height := height;
      player := CreatePlayer(width, height);
      asteroids := [];
      stars := [];
      score := 0.0;
      bestScore := storedBest;
      lives := StartLives;
      running := false;
      paused := false;
      lastTime := 0.0;
      spawnTimer := 0.0;
      new;
      CreateStars(starDraws);
    }

    /** `createStars`: replaces the stars by one new star per draw. */
    method CreateStars(draws: seq<StarDraw>)
      requires forall i :: 0 <= i < |draws| ==> StarDrawOk(draws[i])
      requires width > 0.0 && height > 0.0
      modifies this
      ensures stars == Starfield(draws, width, height)
      ensures player == old(player) && asteroids == old(asteroids)
      ensures score == old(score) && bestScore == old(bestScore) && lives == old(lives)
      ensures running == old(running) && paused == old(paused)
      ensures lastTime == old(lastTime) && spawnTimer == old(spawnTimer)
    {
      stars := [];
      var i := 0;
      while i < |draws|
        invariant 0 <= i <= |draws|
        invariant stars == Starfield(draws[..i], width, height)
        invariant player == old(player) && asteroids == old(asteroids)
        invariant score == old(score) && bestScore == old(bestScore) && lives == old(lives)
        invariant running == old(running) && paused == old(paused)
        invariant lastTime == old(lastTime) && spawnTimer == old(spawnTimer)
      {
        stars := stars + [CreateStar(draws[i], width, height)];
        i := i + 1;
      }
      assert draws[..i] == draws;
    }

    /** `updateStars(dt)`: every star drifts by one frame, in place. */
    method UpdateStars(dt: real, draws: seq<real>)
      requires |draws| == |stars| && height >= -2.0
      modifies this
      ensures stars == DriftAll(old(stars), dt, width, height, draws)
      ensures player == old(player) && asteroids == old(asteroids)
      ensures score == old(score) && bestScore == old(bestScore) && lives == old(lives)
      ensures running == old(running) && paused == old(paused)
      ensures lastTime == old(lastTime) && spawnTimer == old(spawnTimer)
    {
      var i := 0;
      while i < |stars|
        invariant 0 <= i <= |stars| == |old(stars)|
        invariant forall k :: 0 <= k < i ==> stars[k] == Drift(old(stars)[k], dt, width, height, draws[k])
        invariant forall k :: i <= k < |stars| ==> stars[k] == old(stars)[k]
        invariant player == old(player) && asteroids == old(asteroids)
        invariant score == old(score) && bestScore == old(bestScore) && lives == old(lives)
        invariant running == old(running) && paused == old(paused)
        invariant lastTime == old(lastTime) && spawnTimer == old(spawnTimer)
      {
        stars := stars[i := Drift(stars[i], dt, width, height, draws[i])];
        i := i + 1;
      }
    }

    /** The movement block of `update`: the ship moves by `dir * speed * dt` and is
        clamped back into its band. */
    method MovePlayer(left: bool, right: bool, dt: real)
      modifies this
      ensures player == Steer(old(player), left, right, dt, width)
      ensures asteroids == old(asteroids) && stars == old(stars)
      ensures score == old(score) && bestScore == old(bestScore) && lives == old(lives)
      ensures running == old(running) && paused == old(paused)
      ensures lastTime == old(lastTime) && spawnTimer == old(spawnTimer)
    {
      var dir := Direction(left, right);
      player := player.(x := player.x + dir as real * player.speed * dt);
      player := player.(x := Clamp(player.x, BandLo(player), BandHi(player, width)));
    }

    /** The spawn block of `update`: the countdown runs down by `dt`, and when it is used
        up one new asteroid is pushed and the countdown restarts. */
    method SpawnAsteroids(dt: real, difficulty: real, d: RockDraw)
      requires difficulty > 0.0 && RockDrawOk(d)
      modifies this
      ensures var s := Spawn(old(asteroids), old(spawnTimer), dt, difficulty, width, d);
        asteroids == s.rocks && spawnTimer == s.timer
      ensures player == old(player) && stars == old(stars)
      ensures score == old(score) && bestScore == old(bestScore) && lives == old(lives)
      ensures running == old(running) && paused == old(paused)
      ensures lastTime == old(lastTime)
    {
      spawnTimer := spawnTimer - dt;
      if spawnTimer <= 0.0 {
        asteroids := asteroids + [CreateAsteroid(width, d)];
        spawnTimer := ResetInterval(difficulty);
      }
    }

    /** The falling loop of `update`: every asteroid moves down by one frame, in place. */
    method AdvanceAsteroids(dt: real, difficulty: real)
      modifies this
      ensures asteroids == Advance(old(asteroids), dt, difficulty)
      ensures player == old(player) && stars == old(stars)
      ensures score == old(score) && bestScore == old(bestScore) && lives == old(lives)
      ensures running == old(running) && paused == old(paused)
      ensures lastTime == old(lastTime) && spawnTimer == old(spawnTimer)
    {
      var i := 0;
      while i < |asteroids|
        invariant 0 <= i <= |asteroids| == |old(asteroids)|
        invariant forall k :: 0 <= k < i ==> asteroids[k] == Fall(old(asteroids)[k], dt, difficulty)
        invariant forall k :: i <= k < |asteroids| ==> asteroids[k] == old(asteroids)[k]
        invariant player == old(player) && stars == old(stars)
        invariant score == old(score) && bestScore == old(bestScore) && lives == old(lives)
        invariant running == old(running) && paused == old(paused)
        invariant lastTime == old(lastTime) && spawnTimer == old(spawnTimer)
      {
        asteroids := asteroids[i := Fall(asteroids[i], dt, difficulty)];
        i := i + 1;
      }
    }

    /** The collision loop of `update`: each asteroid that overlaps the ship is knocked
        away and costs a life; at the hit that leaves no life the game ends and the loop
        returns at once. */
    method DetectCollisions()
      modifies this
      ensures var s := Pass(old(asteroids), player, old(lives), height, 0);
        && asteroids == s.rocks && lives == s.lives
        && running == (old(running) && !s.over)
        && paused == (old(paused) && !s.over)
        && bestScore == (if s.over then BestAfter(old(bestScore), score) else old(bestScore))
      ensures player == old(player) && stars == old(stars) && score == old(score)
      ensures lastTime == old(lastTime) && spawnTimer == old(spawnTimer)
    {
      ghost var goal := Pass(asteroids, player, lives, height, 0);
      var i := 0;
      while i < |asteroids|
        invariant 0 <= i <= |asteroids| == |old(asteroids)|
        invariant var s := Pass(asteroids, player, lives, height, i);
          s.rocks == goal.rocks && s.lives == goal.lives && s.over == goal.over
        invariant player == old(player) && stars == old(stars) && score == old(score)
        invariant bestScore == old(bestScore) && running == old(running) && paused == old(paused)
        invariant lastTime == old(lastTime) && spawnTimer == old(spawnTimer)
      {
        var a := asteroids[i];
        if Hits(a, player) {
          asteroids := asteroids[i := Knock(a, height)];
          lives := lives - 1;
          if lives <= 0 {
            EndGame();
            return;
          }
        }
        i := i + 1;
      }
    }

    /** `update(dt)`: one step of the simulation, in the source's order. The new state is
        exactly the one `Step` describes; when the collision pass ends the game, the game
        stops and the best score is saved. */
    method Update(dt: real, input: FrameInput)
      requires Valid() && dt >= 0.0
      requires InputFits(input, |stars|)
      modifies this
      ensures var o := Step(old(Current()), dt, input, width, height);
        && Current() == o.world
        && running == (old(running) && !o.over)
        && paused == (old(paused) && !o.over)
        && bestScore == (if o.over then BestAfter(old(bestScore), score) else old(bestScore))
      ensures lastTime == old(lastTime)
      ensures Valid()
    {
      ghost var before := Current();
      score := score + dt * ScoreRate;
      UpdateStars(dt, input.starDraws);

      MovePlayer(input.left, input.right, dt);
      var difficulty := Difficulty(score);
      SpawnAsteroids(dt, difficulty, input.rock);
      AdvanceAsteroids(dt, difficulty);
      asteroids := Prune(asteroids, height);
      DetectCollisions();

      ghost var o := Step(before, dt, input, width, height);
      assert Current() == o.world;
      StepPreservesSane(before, dt, input, width, height);
      if old(running) {
        StepLives(before, dt, input, width, height);
      }
    }

    /** `saveBestScore`: the best score is raised to the final score when that is
        strictly greater. */
    method SaveBestScore()
      modifies this
      ensures bestScore == BestAfter(old(bestScore), score)
      ensures player == old(player) && asteroids == old(asteroids) && stars == old(stars)
      ensures score == old(score) && lives == old(lives)
      ensures running == old(running) && paused == old(paused)
      ensures lastTime == old(lastTime) && spawnTimer == old(spawnTimer)
    {
      if score > bestScore {
        bestScore := score;
      }
    }

    /** `endGame`: stops the game, clears the pause, and saves the best score. */
    method EndGame()
      modifies this
      ensures !running && !paused
      ensures bestScore == BestAfter(old(bestScore), score)
      ensures player == old(player) && asteroids == old(asteroids) && stars == old(stars)
      ensures score == old(score) && lives == old(lives)
      ensures lastTime == old(lastTime) && spawnTimer == old(spawnTimer)
    {
      running := false;
      paused := false;
      SaveBestScore();
    }

    /** `resetGame`: a new ship, no asteroids, zero score, three lives, and the spawn
        countdown and frame clock cleared. */
    method ResetGame()
      requires width >= 2.0 * 32.0 + 2.0 * SpawnMargin && height > 0.0
      requires StarsOnField(stars, width, height)
      modifies this
      ensures player == CreatePlayer(width, height)
      ensures asteroids == [] && score == 0.0 && lives == StartLives
      ensures spawnTimer == 0.0 && lastTime == 0.0
      ensures stars == old(stars) && bestScore == old(bestScore)
      ensures running == old(running) && paused == old(paused)
      ensures Sane(Current(), width, height)
    {
      player := CreatePlayer(width, height);
      asteroids := [];
      score := 0.0;
      lives := StartLives;
      spawnTimer := 0.0;
      lastTime := 0.0;
    }

    /** `startGame`: ignored while a game is running and not paused; otherwise a fresh
        game is set up and set running (this also ends a pause). */
    method StartGame()
      requires Valid()
      modifies this
      ensures old(running && !paused) ==>
        Current() == old(Current()) && running && !paused && lastTime == old(lastTime)
      ensures !old(running && !paused) ==>
        && player == CreatePlayer(width, height)
        && asteroids == [] && score == 0.0 && lives == StartLives
        && spawnTimer == 0.0 && lastTime == 0.0
        && stars == old(stars)
        && running && !paused
      ensures bestScore == old(bestScore)
      ensures Valid()
    {
      if running && !paused {
        return;
      }
      ResetGame();
      running := true;
      paused := false;
    }

    /** `pauseGame(now)`: ignored unless a game is running; otherwise toggles the pause,
        and on resuming restarts the frame clock at `now` so the pause is not counted as
        elapsed time. */
    method PauseGame(now: real)
      modifies this
      ensures Current() == old(Current()) && running == old(running) && bestScore == old(bestScore)
      ensures !old(running) ==> paused == old(paused) && lastTime == old(lastTime)
      ensures old(running) ==> paused == !old(paused)
      ensures old(running) && old(paused) ==> lastTime == now
      ensures old(running) && !old(paused) ==> lastTime == old(lastTime)
    {
      if !running {
        return;
      }
      paused := !paused;
      if !paused {
        lastTime := now;
      }
    }

    /** `loop(timestamp)`: nothing happens unless the game is running and not paused;
        otherwise the frame's `dt` is measured from the previous frame (zero on the first
        frame after a reset), the clock advances to `timestamp`, and one step runs. The
        browser's clock never runs backwards. */
    method Loop(timestamp: real, input: FrameInput)
      requires Valid() && InputFits(input, |stars|)
      requires lastTime == 0.0 || timestamp >= lastTime
      modifies this
      ensures !old(running) || old(paused) ==>
        && Current() == old(Current()) && running == old(running) && paused == old(paused)
        && lastTime == old(lastTime) && bestScore == old(bestScore)
      ensures old(running) && !old(paused) ==>
        var o := Step(old(Current()), FrameDelta(old(lastTime), timestamp), input, width, height);
        && Current() == o.world
        && lastTime == timestamp
        && running == !o.over && !paused
        && bestScore == (if o.over then BestAfter(old(bestScore), score) else old(bestScore))
      ensures Valid()
    {
      if !running || paused {
        return;
      }
      if lastTime == 0.0 {
        lastTime := timestamp;
      }
      var dt := (timestamp - lastTime) / 1000.0;
      lastTime := timestamp;
      Update(dt, input);
    }
  }
}
