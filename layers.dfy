/** generateLayerCircles: one layer's circles, packed by bounded rejection
    sampling around the anchor points. */
module Layers {
  import opened Base
  import opened Config
  import opened Geometry
  import opened Random
  import opened Packing

  /** The number of slots a layer asks for: int(8, 15) at counter s. */
  function RequestedCount(m: MathLib, s: int): (n: int)
    ensures MIN_CIRCLES <= n <= MAX_CIRCLES
  {
    IntBounds(Draw(m, s), MIN_CIRCLES, MAX_CIRCLES);
    IntOf(Draw(m, s), MIN_CIRCLES, MAX_CIRCLES)
  }

  /** The candidate of an attempt that starts at counter s. */
  function Candidate(m: MathLib, anchors: seq<Point>, s: int): (c: Circle)
    requires |anchors| > 0
    ensures MIN_RADIUS <= c.radius < MAX_RADIUS
    ensures c.anchor in anchors && c.color in COLORS
  {
    RangeBounds(Draw(m, s), MIN_RADIUS, MAX_RADIUS);
    var radius := RangeOf(Draw(m, s), MIN_RADIUS, MAX_RADIUS);
    var anchor := Pick(Draw(m, s + 1), anchors).value;
    var offsetAngle := RangeOf(Draw(m, s + 2), 0.0, PI * 2.0);
    var offsetDist := RangeOf(Draw(m, s + 3), 0.0, 30.0);
    var color := Pick(Draw(m, s + 4), COLORS).value;
    Circle(anchor.x + m.cos(offsetAngle) * offsetDist, anchor.y + m.sin(offsetAngle) * offsetDist,
           radius, color, anchor)
  }

  /** c overlaps some circle already accepted. */
  predicate OverlapsAny(m: MathLib, c: Circle, placed: seq<Circle>)
  {
    exists k :: 0 <= k < |placed| && CirclesOverlap(m, c, placed[k], OVERLAP_BUFFER)
  }

  /** The validity test of one candidate against the circles accepted so far. */
  predicate Acceptable(m: MathLib, c: Circle, placed: seq<Circle>)
  {
    !OverlapsAny(m, c, placed) && InCanvas(c)
  }

  /** The candidates of a layer's attempts, by the counter each attempt
      starts at. */
  function LayerSampler(m: MathLib, anchors: seq<Point>): Sampler
    requires |anchors| > 0
  {
    t => Candidate(m, anchors, t)
  }

  /** The validity test of a layer, as a test for the packing. */
  function LayerTest(m: MathLib): Test
  {
    (c, placed) => Acceptable(m, c, placed)
  }

  /** One slot of a layer with `left` attempts remaining from counter s:
      the first acceptable candidate, or None, and the counter afterwards. */
  function LayerSlot(m: MathLib, anchors: seq<Point>, placed: seq<Circle>, s: int, left: nat): (Option<Circle>, int)
    requires |anchors| > 0
  {
    PlaceSlot(LayerTest(m), LayerSampler(m, anchors), placed, s, left)
  }

  /** The remaining `slots` slots of a layer, from counter s. */
  function LayerFill(m: MathLib, anchors: seq<Point>, placed: seq<Circle>, s: int, slots: nat): (seq<Circle>, int)
    requires |anchors| > 0
  {
    FillSlots(LayerTest(m), LayerSampler(m, anchors), placed, s, slots)
  }

  /** The circles of a layer whose pass starts at counter s, and the counter
      after it: one draw for the count, then the slots. */
  function LayerFrom(m: MathLib, anchors: seq<Point>, s: int): (seq<Circle>, int)
    requires |anchors| > 0
  {
    LayerFill(m, anchors, [], s + 1, RequestedCount(m, s) as nat)
  }

  /** No two distinct circles of the list overlap beyond the buffer. */
  predicate PairwiseSeparated(m: MathLib, cs: seq<Circle>)
  {
    forall i, j :: 0 <= i < |cs| && 0 <= j < |cs| && i != j ==> !CirclesOverlap(m, cs[i], cs[j], OVERLAP_BUFFER)
  }

  /** What every candidate satisfies: a radius in [MIN_RADIUS, MAX_RADIUS), a
      palette colour, and one of the anchors. */
  predicate WellSampled(anchors: seq<Point>, c: Circle)
  {
    MIN_RADIUS <= c.radius < MAX_RADIUS && c.anchor in anchors && c.color in COLORS
  }

  /** Acceptance in order under the layer's test makes every pair of circles
      separated, in both argument orders of the overlap test, and puts every
      circle inside the canvas. */
  lemma AcceptedSeparated(m: MathLib, cs: seq<Circle>)
    requires AcceptedInOrder(LayerTest(m), cs)
    ensures PairwiseSeparated(m, cs)
    ensures forall c :: c in cs ==> InCanvas(c)
  {
    forall k | 0 <= k < |cs|
      ensures Acceptable(m, cs[k], cs[..k])
    {
      assert LayerTest(m)(cs[k], cs[..k]);
    }
    forall i, j | 0 <= i < |cs| && 0 <= j < |cs| && i != j
      ensures !CirclesOverlap(m, cs[i], cs[j], OVERLAP_BUFFER)
    {
      var lo, hi := if i < j then i else j, if i < j then j else i;
      assert Acceptable(m, cs[hi], cs[..hi]);
      assert cs[..hi][lo] == cs[lo];
      OverlapSymmetric(m, cs[hi], cs[lo], OVERLAP_BUFFER);
    }
  }

  /** A slot of a layer makes k attempts of 5 draws each, at most 200: when
      it places a circle, that is the candidate of attempt k and it is
      acceptable; when it places none, all 200 attempts were made. */
  lemma LayerSlotAttempts(m: MathLib, anchors: seq<Point>, placed: seq<Circle>, s: int) returns (k: nat)
    requires |anchors| > 0
    ensures var r := LayerSlot(m, anchors, placed, s, ATTEMPTS);
            k <= ATTEMPTS && r.1 == s + DRAWS_PER_ATTEMPT * k &&
            (r.0.None? ==> k == ATTEMPTS) &&
            (r.0.Some? ==> 1 <= k && r.0.value == Candidate(m, anchors, s + DRAWS_PER_ATTEMPT * (k - 1)) &&
                           Acceptable(m, r.0.value, placed))
  {
    var accept, attempt := LayerTest(m), LayerSampler(m, anchors);
    k := PlaceSlotAttempts(accept, attempt, placed, s, ATTEMPTS);
    var r := LayerSlot(m, anchors, placed, s, ATTEMPTS);
    if r.0.Some? {
      assert attempt(s + DRAWS_PER_ATTEMPT * (k - 1)) == Candidate(m, anchors, s + DRAWS_PER_ATTEMPT * (k - 1));
      assert accept(r.0.value, placed);
    }
  }

  /** A slot of a layer takes the first acceptable candidate: every attempt
      that starts before the accepted one (every attempt, when none was
      accepted) had a candidate that was not acceptable. */
  lemma LayerSlotFirstFit(m: MathLib, anchors: seq<Point>, placed: seq<Circle>, s: int)
    requires |anchors| > 0
    ensures var r := LayerSlot(m, anchors, placed, s, ATTEMPTS);
            var stop := if r.0.Some? then r.1 - DRAWS_PER_ATTEMPT else r.1;
            forall j: nat :: AttemptStart(s, j) < stop ==> !Acceptable(m, Candidate(m, anchors, AttemptStart(s, j)), placed)
  {
    var accept, attempt := LayerTest(m), LayerSampler(m, anchors);
    PlaceSlotFirstFit(accept, attempt, placed, s, ATTEMPTS);
    var r := LayerSlot(m, anchors, placed, s, ATTEMPTS);
    var stop := if r.0.Some? then r.1 - DRAWS_PER_ATTEMPT else r.1;
    forall j: nat | AttemptStart(s, j) < stop
      ensures !Acceptable(m, Candidate(m, anchors, AttemptStart(s, j)), placed)
    {
      var t := AttemptStart(s, j);
      assert !accept(attempt(t), placed);
      assert attempt(t) == Candidate(m, anchors, t);
    }
  }

  /** A layer holds at most the requested count, which lies in [8, 15]; a
      slot whose attempts run out simply adds nothing. */
  lemma LayerCount(m: MathLib, anchors: seq<Point>, s: int)
    requires |anchors| > 0
    ensures |LayerFrom(m, anchors, s).0| <= RequestedCount(m, s) <= MAX_CIRCLES
  {
    FillSlotsAppends(LayerTest(m), LayerSampler(m, anchors), [], s + 1, RequestedCount(m, s) as nat);
  }

  /** A layer pass consumes one draw for the count and then exactly 5 per
      attempt, with at most 200 attempts per requested slot. */
  lemma LayerAttempts(m: MathLib, anchors: seq<Point>, s: int) returns (k: nat)
    requires |anchors| > 0
    ensures k <= ATTEMPTS * RequestedCount(m, s)
    ensures LayerFrom(m, anchors, s).1 == s + 1 + DRAWS_PER_ATTEMPT * k
  {
    k := FillSlotsAttempts(LayerTest(m), LayerSampler(m, anchors), [], s + 1, RequestedCount(m, s) as nat);
  }

  /** Every circle of a layer has a radius in [13, 61), a palette colour and
      one of the anchors, lies inside the canvas, was acceptable against the
      circles placed before it, and overlaps no other circle of the layer
      beyond the buffer. */
  lemma LayerValid(m: MathLib, anchors: seq<Point>, s: int)
    requires |anchors| > 0
    ensures var cs := LayerFrom(m, anchors, s).0;
            (forall c :: c in cs ==> WellSampled(anchors, c) && InCanvas(c)) &&
            (forall k :: 0 <= k < |cs| ==> Acceptable(m, cs[k], cs[..k])) &&
            PairwiseSeparated(m, cs)
  {
    var accept, attempt := LayerTest(m), LayerSampler(m, anchors);
    var n := RequestedCount(m, s) as nat;
    var cs := LayerFrom(m, anchors, s).0;
    var good := c => WellSampled(anchors, c);
    forall t ensures good(attempt(t)) {
      assert attempt(t) == Candidate(m, anchors, t);
    }
    FillSlotsSampled(accept, attempt, good, [], s + 1, n);
    FillSlotsAccepted(accept, attempt, [], s + 1, n);
    AcceptedSeparated(m, cs);
    forall k | 0 <= k < |cs| ensures Acceptable(m, cs[k], cs[..k]) {
      assert accept(cs[k], cs[..k]);
    }
  }

  /** One attempt's draws in the order of the source: radius, anchor,
      angle, distance, colour; the candidate is the one of the counter the
      attempt starts at. */
  method SampleCandidate(anchors: seq<Point>, rng: SeededRandom) returns (circle: Circle)
    requires |anchors| > 0
    modifies rng
    ensures rng.seed == old(rng.seed) + DRAWS_PER_ATTEMPT
    ensures circle == Candidate(rng.math, anchors, old(rng.seed))
  {
    var m := rng.math;
    var radius := rng.Range(MIN_RADIUS, MAX_RADIUS);
    var anchor := rng.Choice(anchors);
    var offsetAngle := rng.Range(0.0, PI * 2.0);
    var offsetDist := rng.Range(0.0, 30.0);
    var color := rng.Choice(COLORS);
    circle := Circle(anchor.value.x + m.cos(offsetAngle) * offsetDist,
                     anchor.value.y + m.sin(offsetAngle) * offsetDist,
                     radius, color.value, anchor.value);
  }

  /** The validity check of one candidate: a scan of the accepted circles
      that stops at the first overlap, then the four canvas bounds. */
  method CheckCandidate(m: MathLib, circle: Circle, circles: seq<Circle>) returns (valid: bool)
    ensures valid <==> Acceptable(m, circle, circles)
  {
    valid := true;
    var j := 0;
    while j < |circles|
      invariant 0 <= j <= |circles|
      invariant valid
      invariant forall k :: 0 <= k < j ==> !CirclesOverlap(m, circle, circles[k], OVERLAP_BUFFER)
    {
      if CirclesOverlap(m, circle, circles[j], OVERLAP_BUFFER) {
        valid := false;
        break;
      }
      j := j + 1;
    }
    if circle.x - circle.radius < -CANVAS_WIDTH / 2.0 ||
       circle.x + circle.radius > CANVAS_WIDTH / 2.0 ||
       circle.y - circle.radius < 0.0 ||
       circle.y + circle.radius > CANVAS_HEIGHT {
      valid := false;
    }
  }

  /** A rejected candidate leaves the rest of the slot to the next attempt. */
  lemma LayerSlotReject(m: MathLib, anchors: seq<Point>, placed: seq<Circle>, t: int, left: nat)
    requires |anchors| > 0 && left > 0 && !Acceptable(m, Candidate(m, anchors, t), placed)
    ensures LayerSlot(m, anchors, placed, t, left) == LayerSlot(m, anchors, placed, t + DRAWS_PER_ATTEMPT, left - 1)
  {
    assert LayerSampler(m, anchors)(t) == Candidate(m, anchors, t);
    assert LayerSlot(m, anchors, placed, t, left) == PlaceAttempt(LayerTest(m), LayerSampler(m, anchors), placed, t, left);
  }

  /** An accepted candidate ends the slot. */
  lemma LayerSlotAccept(m: MathLib, anchors: seq<Point>, placed: seq<Circle>, t: int, left: nat)
    requires |anchors| > 0 && left > 0 && Acceptable(m, Candidate(m, anchors, t), placed)
    ensures LayerSlot(m, anchors, placed, t, left) == (Some(Candidate(m, anchors, t)), t + DRAWS_PER_ATTEMPT)
  {
    assert LayerSampler(m, anchors)(t) == Candidate(m, anchors, t);
    assert LayerSlot(m, anchors, placed, t, left) == PlaceAttempt(LayerTest(m), LayerSampler(m, anchors), placed, t, left);
  }

  /** One attempt of generateLayerCircles: sample a candidate and check it. */
  method TryCandidate(anchors: seq<Point>, circles: seq<Circle>, rng: SeededRandom, ghost left: nat) returns (circle: Circle, valid: bool)
    requires |anchors| > 0 && left > 0
    modifies rng
    ensures rng.seed == old(rng.seed) + DRAWS_PER_ATTEMPT
    ensures valid ==> LayerSlot(rng.math, anchors, circles, old(rng.seed), left) == (Some(circle), rng.seed)
    ensures !valid ==> LayerSlot(rng.math, anchors, circles, old(rng.seed), left) == LayerSlot(rng.math, anchors, circles, rng.seed, left - 1)
  {
    ghost var t := rng.seed;
    circle := SampleCandidate(anchors, rng);
    valid := CheckCandidate(rng.math, circle, circles);
    if valid {
      LayerSlotAccept(rng.math, anchors, circles, t, left);
    } else {
      LayerSlotReject(rng.math, anchors, circles, t, left);
    }
  }

  /** A slot appends its circle, when it found one, to the circles the
      remaining slots start from. */
  lemma LayerFillStep(m: MathLib, anchors: seq<Point>, placed: seq<Circle>, s: int, slots: nat)
    requires |anchors| > 0 && slots > 0
    ensures var r := LayerSlot(m, anchors, placed, s, ATTEMPTS);
            var next := if r.0.Some? then placed + [r.0.value] else placed;
            LayerFill(m, anchors, placed, s, slots) == LayerFill(m, anchors, next, r.1, slots - 1)
  {
    assert LayerFill(m, anchors, placed, s, slots) == FillSlot(LayerTest(m), LayerSampler(m, anchors), placed, s, slots);
  }

  /** One slot of generateLayerCircles: up to 200 attempts, stopping at the
      first candidate that passes the check. */
  method PlaceCircle(anchors: seq<Point>, circles: seq<Circle>, rng: SeededRandom) returns (bestCircle: Option<Circle>)
    requires |anchors| > 0
    modifies rng
    ensures (bestCircle, rng.seed) == LayerSlot(rng.math, anchors, circles, old(rng.seed), ATTEMPTS)
  {
    var m := rng.math;
    ghost var slotStart := rng.seed;
    bestCircle := None;
    var maxAttempts := ATTEMPTS;
    while maxAttempts > 0
      invariant rng.math == m
      invariant bestCircle.None?
      invariant LayerSlot(m, anchors, circles, rng.seed, maxAttempts) == LayerSlot(m, anchors, circles, slotStart, ATTEMPTS)
      decreases maxAttempts
    {
      var circle, valid := TryCandidate(anchors, circles, rng, maxAttempts);
      if valid {
        bestCircle := Some(circle);
        return;
      }
      maxAttempts := maxAttempts - 1;
    }
  }

  /** One iteration of generateLayerCircles' outer loop: place one slot and
      push its circle when it found one. */
  method FillSlotStep(anchors: seq<Point>, circles: seq<Circle>, rng: SeededRandom, ghost left: nat)
    returns (next: seq<Circle>)
    requires |anchors| > 0 && left > 0
    modifies rng
    ensures LayerFill(rng.math, anchors, next, rng.seed, left - 1) == LayerFill(rng.math, anchors, circles, old(rng.seed), left)
  {
    LayerFillStep(rng.math, anchors, circles, rng.seed, left);
    var bestCircle := PlaceCircle(anchors, circles, rng);
    next := circles;
    if bestCircle.Some? {
      next := circles + [bestCircle.value];
    }
  }

  /** generateLayerCircles: draw the count, then fill that many slots,
      pushing each slot's circle when it found one. */
  method GenerateLayerCircles(anchors: seq<Point>, rng: SeededRandom) returns (circles: seq<Circle>)
    requires |anchors| > 0
    modifies rng
    ensures (circles, rng.seed) == LayerFrom(rng.math, anchors, old(rng.seed))
  {
    var m := rng.math;
    circles := [];
    var numCircles := rng.Int(MIN_CIRCLES, MAX_CIRCLES);
    ghost var start := rng.seed;
    var i := 0;
    while i < numCircles
      invariant 0 <= i <= numCircles
      invariant rng.math == m
      invariant LayerFill(m, anchors, circles, rng.seed, numCircles - i) == LayerFill(m, anchors, [], start, numCircles)
    {
      circles := FillSlotStep(anchors, circles, rng, numCircles - i);
      i := i + 1;
    }
  }
}
