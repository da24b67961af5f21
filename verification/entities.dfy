/** The game's records: the player's ship, the falling asteroids and the background stars,
    with the rules that create them from uniform random draws in `[0, 1)`. */
module Entities {
  import opened Helpers

  /** A value `Math.random()` can return. */
  predicate Unit(u: real) { 0.0 <= u < 1.0 }

  /** The ship: `x`, `y` are its centre, `w`, `h` its size, `speed` its horizontal speed. */
  datatype Player = Player(x: real, y: real, w: real, h: real, speed: real)

  /** A falling obstacle: centre, radius and fall speed. */
  datatype Asteroid = Asteroid(x: real, y: real, radius: real, speed: real)

  /** A background particle. */
  datatype Star = Star(x: real, y: real, r: real, alpha: real, speed: real)

  /** The three draws `createAsteroid` makes, in the order it makes them. */
  datatype RockDraw = RockDraw(radius: real, x: real, speed: real)

  predicate RockDrawOk(d: RockDraw) { Unit(d.radius) && Unit(d.x) && Unit(d.speed) }

  /** The five draws `createStars` makes for one star, in order. */
  datatype StarDraw = StarDraw(x: real, y: real, r: real, alpha: real, speed: real)

  predicate StarDrawOk(d: StarDraw) { Unit(d.x) && Unit(d.y) && Unit(d.r) && Unit(d.alpha) && Unit(d.speed) }

  /** Distance kept between the ship and either side wall. */
  const WallMargin: real := 20.0

  /** Distance kept between a new asteroid and either side wall. */
  const SpawnMargin: real := 24.0

  /** Left end of the band the ship's centre is clamped into: a ship centred there has
      its left edge exactly `WallMargin` from the left wall. */
  function BandLo(p: Player): real
  {
    p.w / 2.0 + WallMargin
  }

  /** Right end of the band the ship's centre is clamped into: a ship centred there has
      its right edge exactly `WallMargin` from the right wall. The band is non-empty
      whenever the field is at least the ship's width plus both margins. */
  function BandHi(p: Player, width: real): (hi: real)
    ensures width >= p.w + 2.0 * WallMargin ==> BandLo(p) <= hi
  {
    width - p.w / 2.0 - WallMargin
  }

  /** The ship's centre lies in its band. On a non-empty band these are exactly the
      positions the clamp of the movement step leaves where they are. */
  predicate InBand(p: Player, width: real): (inside: bool)
    ensures BandLo(p) <= BandHi(p, width) ==>
              (inside <==> Clamp(p.x, BandLo(p), BandHi(p, width)) == p.x)
  {
    BandLo(p) <= p.x <= BandHi(p, width)
  }

  /** The ship a game starts with: centred, 60 above the bottom, 40 by 30, 320 per second. */
  function CreatePlayer(width: real, height: real): (p: Player)
    ensures p.w == 40.0 && p.h == 30.0 && p.speed == 320.0
    ensures p.y == height - 60.0
    ensures width >= 80.0 ==> InBand(p, width)
  {
    Player(width / 2.0, height - 60.0, 40.0, 30.0, 320.0)
  }

  /** `u * span`: a draw scaled onto a span. Kept as a function of its own so that the
      bounds below are proved once, without multiplying out `span`. */
  function Portion(u: real, span: real): real { u * span }

  lemma ScaleWithin(u: real, span: real)
    requires Unit(u)
    ensures span >= 0.0 ==> 0.0 <= Portion(u, span) <= span
    ensures span > 0.0 ==> Portion(u, span) < span
  {
    if span >= 0.0 {
      var v := 1.0 - u;
      assert u * span >= 0.0;
      assert v * span >= 0.0;
      assert u * span + v * span == span;
      if span > 0.0 {
        assert v * span > 0.0;
      }
    }
  }

  /** The column `createAsteroid` picks keeps the whole asteroid inside the spawn margins
      whenever the field is wide enough for the largest radius. */
  lemma SpawnColumnWithin(width: real, radius: real, u: real)
    requires Unit(u) && radius < 32.0
    ensures width >= 2.0 * 32.0 + 2.0 * SpawnMargin ==>
              var x := SpawnMargin + radius + Portion(u, width - radius * 2.0 - SpawnMargin * 2.0);
              SpawnMargin + radius <= x <= width - SpawnMargin - radius
  {
    ScaleWithin(u, width - radius * 2.0 - SpawnMargin * 2.0);
  }

  /** A new asteroid above the top edge: radius in `[14, 32)`, fall speed in `[90, 200)`,
      and, on a field wide enough for the largest radius, its whole width inside the
      spawn margins. */
  function CreateAsteroid(width: real, d: RockDraw): (a: Asteroid)
    requires RockDrawOk(d)
    ensures 14.0 <= a.radius < 32.0
    ensures a.y == -a.radius - 10.0
    ensures 90.0 <= a.speed < 200.0
    ensures width >= 2.0 * 32.0 + 2.0 * SpawnMargin ==>
              SpawnMargin + a.radius <= a.x <= width - SpawnMargin - a.radius
  {
    var radius := 14.0 + d.radius * 18.0;
    var margin := SpawnMargin;
    var x := margin + radius + Portion(d.x, width - radius * 2.0 - margin * 2.0);
    var y := -radius - 10.0;
    var speed := 90.0 + d.speed * 110.0;
    ScaleWithin(d.radius, 18.0);
    ScaleWithin(d.speed, 110.0);
    SpawnColumnWithin(width, radius, d.x);
    Asteroid(x, y, radius, speed)
  }

  /** One star of the initial field: anywhere on the field, radius in `[0.3, 1.8)`,
      opacity in `[0.4, 1)`, drift speed in `[10, 30)`. */
  function CreateStar(d: StarDraw, width: real, height: real): (s: Star)
    requires StarDrawOk(d) && width > 0.0 && height > 0.0
    ensures 0.0 <= s.x < width && 0.0 <= s.y < height
    ensures 0.3 <= s.r < 1.8
    ensures 0.4 <= s.alpha < 1.0
    ensures 10.0 <= s.speed < 30.0
  {
    ScaleWithin(d.x, width);
    ScaleWithin(d.y, height);
    Star(Portion(d.x, width), Portion(d.y, height), d.r * 1.5 + 0.3, 0.4 + d.alpha * 0.6, 10.0 + d.speed * 20.0)
  }

  /** One star advanced by one frame: it drifts down by `speed * dt * 0.3`; once below the
      bottom edge it is recycled to `y = -2` at the drawn column. Either way it ends the
      frame no lower than the bottom edge, and only its position changes. */
  function Drift(s: Star, dt: real, width: real, height: real, u: real): (t: Star)
    requires height >= -2.0
    ensures t.y <= height
    ensures t.r == s.r && t.alpha == s.alpha && t.speed == s.speed
    ensures t.x == s.x || (t.y == -2.0 && t.x == Portion(u, width))
    ensures s.speed >= 0.0 && dt >= 0.0 && t.y != -2.0 ==> t.y >= s.y
    ensures s.y + s.speed * dt * 0.3 <= height ==>
              t.x == s.x && t.y == s.y + s.speed * dt * 0.3
    ensures s.y + s.speed * dt * 0.3 > height ==> t.y == -2.0 && t.x == Portion(u, width)
  {
    var y := s.y + s.speed * dt * 0.3;
    if y > height then s.(y := -2.0, x := Portion(u, width))
    else
      assert s.speed >= 0.0 && dt >= 0.0 ==> s.speed * dt >= 0.0;
      s.(y := y)
  }

  /** Every star lies within the field's columns and no lower than its bottom edge. */
  predicate StarsOnField(stars: seq<Star>, width: real, height: real)
  {
    forall i :: 0 <= i < |stars| ==> 0.0 <= stars[i].x < width && stars[i].y <= height
  }

  /** `createStars(count)`: one star per draw, in order, all on the field. */
  function Starfield(draws: seq<StarDraw>, width: real, height: real): (stars: seq<Star>)
    requires forall i :: 0 <= i < |draws| ==> StarDrawOk(draws[i])
    requires width > 0.0 && height > 0.0
    ensures |stars| == |draws|
    ensures StarsOnField(stars, width, height)
    ensures forall i :: 0 <= i < |stars| ==> 0.0 <= stars[i].y && 10.0 <= stars[i].speed
  {
    seq(|draws|, i requires 0 <= i < |draws| => CreateStar(draws[i], width, height))
  }

  /** A recycled star lands on the field's columns. */
  lemma DriftStaysOnField(s: Star, dt: real, width: real, height: real, u: real)
    requires height >= -2.0 && width > 0.0 && Unit(u)
    requires 0.0 <= s.x < width
    ensures 0.0 <= Drift(s, dt, width, height, u).x < width
  {
    ScaleWithin(u, width);
  }
}
