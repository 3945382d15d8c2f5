/** generateAnchorPoints: the shared triad of anchor points, jittered around
    the centre (0, CANVAS_HEIGHT / 2). */
module Anchors {
  import opened Base
  import opened Config
  import opened Geometry
  import opened Random

  /** Centre of the anchor ring. */
  const CENTER: Point := Point(0.0, CANVAS_HEIGHT / 2.0)

  /** The base radius: the first draw of the pass, from counter s. */
  function BaseRadius(m: MathLib, s: int): real
  {
    RangeOf(Draw(m, s), 40.0, 80.0)
  }

  /** The polar angle of anchor i: its share of the full turn plus a jitter
      drawn at counter s + 1 + 2i. */
  function AnchorAngle(m: MathLib, s: int, i: int): real
  {
    (i as real / ANCHOR_POINTS as real) * PI * 2.0 + RangeOf(Draw(m, s + 1 + 2 * i), -0.3, 0.3)
  }

  /** The polar radius of anchor i: the base radius plus a jitter drawn at
      counter s + 2 + 2i. */
  function AnchorRadius(m: MathLib, s: int, i: int): real
  {
    BaseRadius(m, s) + RangeOf(Draw(m, s + 2 + 2 * i), -20.0, 20.0)
  }

  function AnchorPointAt(m: MathLib, s: int, i: int): Point
  {
    var angle := AnchorAngle(m, s, i);
    var radius := AnchorRadius(m, s, i);
    Point(CENTER.x + m.cos(angle) * radius, CENTER.y + m.sin(angle) * radius)
  }

  /** The anchor points a pass starting at counter s produces, in draw order. */
  function AnchorPointsFrom(m: MathLib, s: int): (r: seq<Point>)
    ensures |r| == ANCHOR_POINTS
  {
    seq(ANCHOR_POINTS, i => AnchorPointAt(m, s, i))
  }

  /** Anchor i sits at polar coordinates around CENTER whose angle is within
      0.3 of i/3 of a full turn and whose radius lies in [20, 100). */
  lemma AnchorPolarBounds(m: MathLib, s: int, i: nat)
    requires i < ANCHOR_POINTS
    ensures var p := AnchorPointsFrom(m, s)[i];
            var angle := AnchorAngle(m, s, i);
            var radius := AnchorRadius(m, s, i);
            var share := (i as real / ANCHOR_POINTS as real) * PI * 2.0;
            p == Point(CENTER.x + m.cos(angle) * radius, CENTER.y + m.sin(angle) * radius) &&
            share - 0.3 <= angle < share + 0.3 &&
            20.0 <= radius < 100.0
  {
    RangeBounds(Draw(m, s), 40.0, 80.0);
    RangeBounds(Draw(m, s + 1 + 2 * i), -0.3, 0.3);
    RangeBounds(Draw(m, s + 2 + 2 * i), -20.0, 20.0);
  }

  /** Where cos and sin satisfy cos^2 + sin^2 = 1 at anchor i's angle, its
      squared distance from CENTER lies in [400, 10000): the anchor is
      between 20 and 100 mm from the centre. */
  lemma AnchorDistance(m: MathLib, s: int, i: nat)
    requires i < ANCHOR_POINTS
    requires var a := AnchorAngle(m, s, i); m.cos(a) * m.cos(a) + m.sin(a) * m.sin(a) == 1.0
    ensures var p := AnchorPointsFrom(m, s)[i];
            var dx := p.x - CENTER.x;
            var dy := p.y - CENTER.y;
            400.0 <= dx * dx + dy * dy < 10000.0
  {
    AnchorPolarBounds(m, s, i);
    var a := AnchorAngle(m, s, i);
    var c, sn, r := m.cos(a), m.sin(a), AnchorRadius(m, s, i);
    var p := AnchorPointsFrom(m, s)[i];
    assert p.x - CENTER.x == c * r && p.y - CENTER.y == sn * r;
    PolarSquare(c, sn, r);
    SquareBounds(r, 20.0, 100.0);
  }

  /** (c r)^2 + (s r)^2 = r^2 when c^2 + s^2 = 1. */
  lemma PolarSquare(c: real, s: real, r: real)
    requires c * c + s * s == 1.0
    ensures (c * r) * (c * r) + (s * r) * (s * r) == r * r
  {
    calc {
      (c * r) * (c * r) + (s * r) * (s * r);
      (c * c) * (r * r) + (s * s) * (r * r);
      (c * c + s * s) * (r * r);
    }
  }

  /** Squaring is monotone on the non-negative reals. */
  lemma SquareBounds(r: real, lo: real, hi: real)
    requires 0.0 <= lo <= r < hi
    ensures lo * lo <= r * r < hi * hi
  {
    var ll, lr, rr, rh, hh := lo * lo, lo * r, r * r, r * hi, hi * hi;
    assert ll <= lr <= rr;
    assert rr <= rh < hh;
  }

  /** Extending the prefix of the triad by its next point. */
  lemma PrefixStep(m: MathLib, s: int, i: nat)
    requires i < ANCHOR_POINTS
    ensures AnchorPointsFrom(m, s)[..i + 1] == AnchorPointsFrom(m, s)[..i] + [AnchorPointAt(m, s, i)]
  {
  }

  /** generateAnchorPoints: one base-radius draw, then an angle jitter and a
      radius jitter for each anchor in order; seven draws in all. */
  method GenerateAnchorPoints(rng: SeededRandom) returns (points: seq<Point>)
    modifies rng
    ensures rng.seed == old(rng.seed) + 1 + 2 * ANCHOR_POINTS
    ensures points == AnchorPointsFrom(rng.math, old(rng.seed))
  {
    ghost var s := rng.seed;
    var m := rng.math;
    points := [];
    var baseRadius := rng.Range(40.0, 80.0);
    var i := 0;
    while i < ANCHOR_POINTS
      invariant 0 <= i <= ANCHOR_POINTS
      invariant rng.seed == s + 1 + 2 * i
      invariant baseRadius == BaseRadius(m, s)
      invariant points == AnchorPointsFrom(m, s)[..i]
    {
      var angleJitter := rng.Range(-0.3, 0.3);
      var angle := (i as real / ANCHOR_POINTS as real) * PI * 2.0 + angleJitter;
      var radiusJitter := rng.Range(-20.0, 20.0);
      var radius := baseRadius + radiusJitter;
      assert angle == AnchorAngle(m, s, i) && radius == AnchorRadius(m, s, i);
      var p := Point(CENTER.x + m.cos(angle) * radius, CENTER.y + m.sin(angle) * radius);
      assert p == AnchorPointAt(m, s, i);
      PrefixStep(m, s, i);
      points := points + [p];
      i := i + 1;
    }
  }
}
