/** The closest-point test between a circle and the ship's axis-aligned rectangle
    (`circleRectCollide`). The rectangle is given by its centre and size. */
module Collision {
  import opened Helpers
  import opened Entities

  /** Left edge of the rectangle. */
  function Left(rect: Player): real { rect.x - rect.w / 2.0 }

  /** Top edge of the rectangle. */
  function Top(rect: Player): real { rect.y - rect.h / 2.0 }

  /** The point of the rectangle nearest to `(cx, cy)`, horizontal coordinate. */
  function NearestX(cx: real, rect: Player): real { Clamp(cx, Left(rect), Left(rect) + rect.w) }

  /** The point of the rectangle nearest to `(cx, cy)`, vertical coordinate. */
  function NearestY(cy: real, rect: Player): real { Clamp(cy, Top(rect), Top(rect) + rect.h) }

  /** Squared distance from `(cx, cy)` to the rectangle's nearest point. */
  function Gap(cx: real, cy: real, rect: Player): real
  {
    var dx := cx - NearestX(cx, rect);
    var dy := cy - NearestY(cy, rect);
    dx * dx + dy * dy
  }

  predicate InRect(px: real, py: real, rect: Player)
  {
    Left(rect) <= px <= Left(rect) + rect.w && Top(rect) <= py <= Top(rect) + rect.h
  }

  /** `circleRectCollide`: the squared gap is STRICTLY below the squared radius, so a
      circle of radius zero never hits, even with its centre inside the rectangle. */
  predicate CircleRectCollide(cx: real, cy: real, r: real, rect: Player): (hit: bool)
    ensures hit ==> r != 0.0
  {
    GapNonneg(cx, cy, rect);
    Gap(cx, cy, rect) < r * r
  }

  lemma GapNonneg(cx: real, cy: real, rect: Player)
    ensures Gap(cx, cy, rect) >= 0.0
  {
    SquareNonneg(cx - NearestX(cx, rect));
    SquareNonneg(cy - NearestY(cy, rect));
  }

  /** Tangency (gap exactly the radius) is a miss. */
  lemma TangentIsMiss(cx: real, cy: real, r: real, rect: Player)
    requires Gap(cx, cy, rect) == r * r
    ensures !CircleRectCollide(cx, cy, r, rect)
  {
  }

  /** A hit is witnessed by a point of the rectangle strictly inside the circle. */
  lemma HitHasWitness(cx: real, cy: real, r: real, rect: Player)
    requires rect.w >= 0.0 && rect.h >= 0.0
    requires CircleRectCollide(cx, cy, r, rect)
    ensures InRect(NearestX(cx, rect), NearestY(cy, rect), rect)
    ensures Gap(cx, cy, rect) < r * r
  {
  }

  /** Any point of the rectangle strictly inside the circle makes the test hit: the test
      misses nothing that overlaps. With `HitHasWitness`, the test holds exactly when some
      point of the rectangle is strictly closer than `r` to the centre. */
  lemma OverlapIsHit(cx: real, cy: real, r: real, rect: Player, px: real, py: real)
    requires InRect(px, py, rect)
    requires (cx - px) * (cx - px) + (cy - py) * (cy - py) < r * r
    ensures CircleRectCollide(cx, cy, r, rect)
  {
    ClampIsNearest(cx, Left(rect), Left(rect) + rect.w, px);
    ClampIsNearest(cy, Top(rect), Top(rect) + rect.h, py);
  }

  /** A circle of positive radius whose centre lies in the rectangle always hits. */
  lemma CentreInsideHits(cx: real, cy: real, r: real, rect: Player)
    requires InRect(cx, cy, rect) && r > 0.0
    ensures CircleRectCollide(cx, cy, r, rect)
  {
    SquarePositive(r);
    OverlapIsHit(cx, cy, r, rect, cx, cy);
  }
}
