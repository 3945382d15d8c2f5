/** generateComposition: one generator seeded once, threaded through the
    anchor step and then through the three layer passes in order. */
module Compositions {
  import opened Base
  import opened Config
  import opened Geometry
  import opened Random
  import opened Anchors
  import opened Packing
  import opened Layers

  /** One layer of the composition: its position in the stack, its height
      and its circles. */
  datatype Layer = Layer(index: nat, z: real, circles: seq<Circle>)

  /** The seed it was generated from, the shared anchor triad and the layers. */
  datatype Composition = Composition(seed: int, anchorPoints: seq<Point>, layers: seq<Layer>)

  /** The counter at which layer pass i starts, the first one starting at s:
      each pass starts where the one before it stopped. */
  function PassStart(m: MathLib, anchors: seq<Point>, s: int, i: nat): int
    requires |anchors| > 0
  {
    if i == 0 then s else LayerFrom(m, anchors, PassStart(m, anchors, s, i - 1)).1
  }

  /** Layer i of a composition whose passes start at s: index i, height
      i * LAYER_SPACING, and the circles of pass i. */
  function LayerAt(m: MathLib, anchors: seq<Point>, s: int, i: nat): Layer
    requires |anchors| > 0
  {
    Layer(i, i as real * LAYER_SPACING, LayerFrom(m, anchors, PassStart(m, anchors, s, i)).0)
  }

  /** The first n layers of a composition whose passes start at s. */
  function LayersUpTo(m: MathLib, anchors: seq<Point>, s: int, n: nat): seq<Layer>
    requires |anchors| > 0
  {
    if n == 0 then [] else LayersUpTo(m, anchors, s, n - 1) + [LayerAt(m, anchors, s, n - 1)]
  }

  /** The first n layers are n in number, layer i being LayerAt(i). */
  lemma {:induction false} LayersUpToAt(m: MathLib, anchors: seq<Point>, s: int, n: nat)
    requires |anchors| > 0
    ensures |LayersUpTo(m, anchors, s, n)| == n
    ensures forall i :: 0 <= i < n ==> LayersUpTo(m, anchors, s, n)[i] == LayerAt(m, anchors, s, i)
  {
    if n > 0 {
      LayersUpToAt(m, anchors, s, n - 1);
    }
  }

  /** The composition a seed yields: the anchors from the first seven draws,
      then LAYER_COUNT layer passes from the counter after them. */
  function CompositionOf(m: MathLib, seed: int): Composition
  {
    var anchors := AnchorPointsFrom(m, seed);
    Composition(seed, anchors, LayersUpTo(m, anchors, seed + 1 + 2 * ANCHOR_POINTS, LAYER_COUNT))
  }

  /** What LayerValid and LayerCount establish of one layer's circles. */
  predicate LayerSound(m: MathLib, anchors: seq<Point>, cs: seq<Circle>)
  {
    |cs| <= MAX_CIRCLES &&
    (forall c :: c in cs ==> WellSampled(anchors, c) && InCanvas(c)) &&
    (forall k :: 0 <= k < |cs| ==> Acceptable(m, cs[k], cs[..k])) &&
    PairwiseSeparated(m, cs)
  }

  /** A composition returns its seed, the triad of anchors of the first
      seven draws, and exactly LAYER_COUNT layers, layer i with index i,
      height i * LAYER_SPACING and the circles of the pass that starts at
      PassStart(i), counting passes from right after the anchor draws. */
  lemma CompositionShape(m: MathLib, seed: int)
    ensures var c := CompositionOf(m, seed);
            var s := seed + 1 + 2 * ANCHOR_POINTS;
            c.seed == seed && c.anchorPoints == AnchorPointsFrom(m, seed) &&
            |c.anchorPoints| == ANCHOR_POINTS && |c.layers| == LAYER_COUNT &&
            forall i :: 0 <= i < |c.layers| ==>
              c.layers[i].index == i && c.layers[i].z == i as real * LAYER_SPACING &&
              c.layers[i].circles == LayerFrom(m, c.anchorPoints, PassStart(m, c.anchorPoints, s, i)).0
  {
    LayersUpToAt(m, AnchorPointsFrom(m, seed), seed + 1 + 2 * ANCHOR_POINTS, LAYER_COUNT);
  }

  /** Each layer pass starts where the one before it stopped, after the
      count draw and exactly 5 draws per attempt, with at most 200 attempts
      for each of at most 15 slots. */
  lemma PassDraws(m: MathLib, anchors: seq<Point>, s: int, i: nat) returns (k: nat)
    requires |anchors| > 0
    ensures k <= ATTEMPTS * MAX_CIRCLES
    ensures PassStart(m, anchors, s, i + 1) == PassStart(m, anchors, s, i) + 1 + DRAWS_PER_ATTEMPT * k
  {
    var t := PassStart(m, anchors, s, i);
    k := LayerAttempts(m, anchors, t);
    assert PassStart(m, anchors, s, i + 1) == LayerFrom(m, anchors, t).1;
  }

  /** Every layer of a composition holds at most 15 circles, each with a
      radius in [13, 61), a palette colour and one of the composition's own
      anchors, inside the canvas, accepted against the circles before it,
      and overlapping no other circle of its layer beyond the buffer. */
  lemma CompositionLayersSound(m: MathLib, seed: int)
    ensures var c := CompositionOf(m, seed);
            forall l :: l in c.layers ==> LayerSound(m, c.anchorPoints, l.circles)
  {
    var c := CompositionOf(m, seed);
    var s := seed + 1 + 2 * ANCHOR_POINTS;
    LayersUpToAt(m, c.anchorPoints, s, LAYER_COUNT);
    forall i | 0 <= i < |c.layers|
      ensures LayerSound(m, c.anchorPoints, c.layers[i].circles)
    {
      var t := PassStart(m, c.anchorPoints, s, i);
      LayerValid(m, c.anchorPoints, t);
      LayerCount(m, c.anchorPoints, t);
    }
  }

  /** The loop of generateComposition: LAYER_COUNT layer passes, each
      pushed with its index and height. */
  method GenerateLayers(anchorPoints: seq<Point>, rng: SeededRandom) returns (layers: seq<Layer>)
    requires |anchorPoints| > 0
    modifies rng
    ensures rng.seed == PassStart(rng.math, anchorPoints, old(rng.seed), LAYER_COUNT)
    ensures layers == LayersUpTo(rng.math, anchorPoints, old(rng.seed), LAYER_COUNT)
  {
    ghost var start := rng.seed;
    layers := [];
    var i := 0;
    while i < LAYER_COUNT
      invariant 0 <= i <= LAYER_COUNT
      invariant rng.seed == PassStart(rng.math, anchorPoints, start, i)
      invariant layers == LayersUpTo(rng.math, anchorPoints, start, i)
    {
      var layerCircles := GenerateLayerCircles(anchorPoints, rng);
      assert rng.seed == PassStart(rng.math, anchorPoints, start, i + 1);
      layers := layers + [Layer(i, i as real * LAYER_SPACING, layerCircles)];
      i := i + 1;
    }
  }

  /** generateComposition: a fresh generator at the seed, the anchors, then
      three layer passes pushed in order. The result is a function of the
      seed (and the Math functions) alone. */
  method GenerateComposition(math: MathLib, seed: int) returns (composition: Composition)
    ensures composition == CompositionOf(math, seed)
  {
    var rng := new SeededRandom(math, seed);
    var anchorPoints := GenerateAnchorPoints(rng);
    var layers := GenerateLayers(anchorPoints, rng);
    composition := Composition(seed, anchorPoints, layers);
  }
}
