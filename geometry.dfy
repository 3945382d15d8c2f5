/** Plain geometric values and the pure overlap and canvas tests. */
module Geometry {
  import opened Base
  import opened Config

  datatype Point = Point(x: real, y: real)

  /** A placed lens: its centre, radius, palette colour and the anchor point
      it was sampled around. */
  datatype Circle = Circle(x: real, y: real, radius: real, color: Color, anchor: Point)

  /** circlesOverlap: the distance of the centres is below the sum of the
      radii plus the buffer. Where sqrt is a true square root at the squared
      centre distance and that threshold is positive, this is the same as the
      squared distance being below the squared threshold. */
  function CirclesOverlap(m: MathLib, c1: Circle, c2: Circle, buffer: real): (r: bool)
    ensures var d2, t := SquaredDistance(c1, c2), c1.radius + c2.radius + buffer;
            m.sqrt(d2) >= 0.0 && m.sqrt(d2) * m.sqrt(d2) == d2 && t > 0.0 ==> (r <==> d2 < t * t)
  {
    var d2, t := SquaredDistance(c1, c2), c1.radius + c2.radius + buffer;
    if m.sqrt(d2) >= 0.0 && m.sqrt(d2) * m.sqrt(d2) == d2 && t > 0.0 then
      SquareMonotone(m.sqrt(d2), t);
      m.sqrt(d2) < t
    else
      m.sqrt(d2) < t
  }

  /** dx * dx + dy * dy for the centres of two circles. */
  function SquaredDistance(c1: Circle, c2: Circle): real
  {
    var dx := c1.x - c2.x;
    var dy := c1.y - c2.y;
    dx * dx + dy * dy
  }

  /** The four canvas-bound checks all pass. A circle that passes them is
      no wider than the canvas, and a circle of non-negative radius that
      passes them has its centre on the canvas. */
  function InCanvas(c: Circle): (r: bool)
    ensures r ==> 2.0 * c.radius <= CANVAS_WIDTH && 2.0 * c.radius <= CANVAS_HEIGHT
    ensures r && 0.0 <= c.radius ==>
              -CANVAS_WIDTH / 2.0 <= c.x <= CANVAS_WIDTH / 2.0 && 0.0 <= c.y <= CANVAS_HEIGHT
  {
    -CANVAS_WIDTH / 2.0 <= c.x - c.radius && c.x + c.radius <= CANVAS_WIDTH / 2.0 &&
    0.0 <= c.y - c.radius && c.y + c.radius <= CANVAS_HEIGHT
  }

  /** The overlap test does not depend on the order of its arguments. */
  lemma OverlapSymmetric(m: MathLib, c1: Circle, c2: Circle, buffer: real)
    ensures CirclesOverlap(m, c1, c2, buffer) == CirclesOverlap(m, c2, c1, buffer)
  {
    var dx, dy := c1.x - c2.x, c1.y - c2.y;
    assert (c2.x - c1.x) * (c2.x - c1.x) == dx * dx;
    assert (c2.y - c1.y) * (c2.y - c1.y) == dy * dy;
    assert SquaredDistance(c1, c2) == SquaredDistance(c2, c1);
  }

  /** Where sqrt is a true square root at the squared centre distance, and
      both radii are at least MIN_RADIUS (so r1 + r2 - 5 > 0), two circles do
      not overlap exactly when the squared distance is at least
      (r1 + r2 - 5)^2. */
  lemma OverlapBySquares(m: MathLib, c1: Circle, c2: Circle)
    requires c1.radius >= MIN_RADIUS && c2.radius >= MIN_RADIUS
    requires var d2 := SquaredDistance(c1, c2); m.sqrt(d2) >= 0.0 && m.sqrt(d2) * m.sqrt(d2) == d2
    ensures var t := c1.radius + c2.radius + OVERLAP_BUFFER;
            !CirclesOverlap(m, c1, c2, OVERLAP_BUFFER) <==> SquaredDistance(c1, c2) >= t * t
  {
    SquareMonotone(m.sqrt(SquaredDistance(c1, c2)), c1.radius + c2.radius + OVERLAP_BUFFER);
  }

  /** For d >= 0 and t > 0, d >= t exactly when d * d >= t * t. */
  lemma SquareMonotone(d: real, t: real)
    requires d >= 0.0 && t > 0.0
    ensures d >= t <==> d * d >= t * t
  {
    var dd, dt, tt := d * d, d * t, t * t;
    if d >= t {
      assert dd >= dt >= tt;
    } else {
      assert dd <= dt < tt;
    }
  }
}
