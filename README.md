# Seeded composition generator

A model of the generation pipeline of `main.js`. It turns an integer seed
into a composition: a triad of anchor points and three layers of circles
("lenses") packed around them, where two circles of a layer overlap each
other by at most 5 mm. One `SeededRandom`
produces every value of the pipeline:

- `SeededRandom`: a counter that `random()` advances by one per draw.
- `generateAnchorPoints`: uses seven draws.
- `generateLayerCircles`: per layer, one draw for the requested count, then
  5 draws per placement attempt, with up to 200 attempts per slot.
- `generateComposition`: threads the one generator through the anchor step
  and then through three layer passes.

Modules and files:

| file | module | models |
|---|---|---|
| `base.dfy` | `Base` | `Option` and `MathLib`, the host's Math functions as a parameter. |
| `config.dfy` | `Config` | The CONFIG entries the pipeline reads: spacing, radii, canvas, palette. |
| `geometry.dfy` | `Geometry` | Points, circles, `circlesOverlap` and the canvas test. |
| `random.dfy` | `Random` | `SeededRandom` as a class with a mutable `seed`. Spec functions `Draw`, `RangeOf`, `IntOf` and `Pick` give each draw's value. |
| `anchors.dfy` | `Anchors` | `generateAnchorPoints`. |
| `packing.dfy` | `Packing` | The bounded rejection sampling of `generateLayerCircles`, stated for any candidate source and any acceptance test. |
| `layers.dfy` | `Layers` | `generateLayerCircles` as nested loops. `PlaceCircle` is the `while (maxAttempts > 0)` loop and `CheckCandidate` is the validity scan. They are proved against `LayerSlot`, `LayerFill` and `LayerFrom`, which instantiate `Packing` with the layer's sampler and test. |
| `composition.dfy` | `Compositions` | `generateComposition`, proved against `CompositionOf`. |

How the model represents the source:

- The host's `Math.sin`, `Math.cos` and `Math.sqrt` are a parameter
  (`MathLib`). Every result holds for whatever functions they are, unless a
  lemma's `requires` states what it assumes of them.
- JavaScript numbers are mathematical reals.
- The seed and the counter are integers. The only caller seeds with
  `Math.floor(Math.random() * 1000000)` at main.js:510.
- The three layers of `generateComposition` loop over the literal 3
  (main.js:230). The model names it `LAYER_COUNT`.
- The 200 attempts are a local constant of `generateLayerCircles`
  (main.js:159). The model names it `ATTEMPTS`.

## Model

| member | source | states |
|---|---|---|
| Random.Draw | main.js:50-53 | The value `random()` returns at counter s is the fractional part of `sin(s) * 10000`, and lies in [0, 1). |
| Random.Pick | main.js:63-65 | `choice` on a non-empty array returns one of its elements. On an empty array it returns nothing (`undefined`), and only then. |
| Random.RangeBounds | main.js:55-57 | For a draw in [0, 1) and min <= max, `range(min, max)` lies in [min, max], and below max when min < max. On an empty interval it is min. |
| Random.IntBounds | main.js:59-61 | For integers min <= max, `int(min, max)` lies in [min, max]. |
| Random.EmptyChoiceIndex | main.js:63-65 | On an empty array, `choice` computes index `int(0, -1) = 0`, which is outside the array. |
| Random.SeededRandom.constructor | main.js:46-48 | The generator starts with its counter at the seed. |
| Random.SeededRandom.Random | main.js:50-53 | `random()` returns `Draw` at the old counter, in [0, 1), and advances the counter by exactly one. |
| Random.SeededRandom.Range | main.js:55-57 | `range` consumes one draw and returns `min + u * (max - min)`, within [min, max) on a proper interval. |
| Random.SeededRandom.Int | main.js:59-61 | `int` consumes one draw and returns the floor of `range(min, max + 1)`, an integer in [min, max] when min <= max. |
| Random.SeededRandom.Choice | main.js:63-65 | `choice` consumes one draw. It returns an element of a non-empty array, and nothing exactly when the array is empty. |
| Geometry.CirclesOverlap | main.js:148-154 | For any buffer, where sqrt is a true square root at the squared centre distance d² and the threshold t = r1 + r2 + buffer is positive, two circles overlap exactly when d² < t². |
| Geometry.InCanvas | main.js:196-202 | The four bound checks: a circle that passes them is no wider than the 300 × 300 canvas, and one of non-negative radius has its centre on the canvas. |
| Geometry.OverlapSymmetric | main.js:148-154 | `circlesOverlap(c1, c2)` and `circlesOverlap(c2, c1)` agree. |
| Geometry.OverlapBySquares | main.js:148-154 | Assume sqrt is a true square root at the squared centre distance and both radii are at least 13. Then two circles fail to overlap (buffer -5) exactly when the squared distance is at least (r1 + r2 - 5)^2. |
| Anchors.AnchorPointsFrom | main.js:125-145 | A pass yields exactly `ANCHOR_POINTS` = 3 anchors, in draw order. |
| Anchors.AnchorPolarBounds | main.js:133-142 | Anchor i sits at polar coordinates around (0, 150). Its angle is within 0.3 of i/3 of a full turn, and its radius, base plus jitter, lies in [20, 100). |
| Anchors.AnchorDistance | main.js:133-142 | Where cos² + sin² = 1 at the anchor's angle, its squared distance from the centre lies in [400, 10000). |
| Anchors.GenerateAnchorPoints | main.js:125-145 | Consumes exactly 7 draws: one base radius, then an angle jitter and a radius jitter per anchor. Returns `AnchorPointsFrom` at the old counter. |
| Packing.PlaceSlotAttempts | main.js:163-210 | A slot makes k attempts and advances the counter by exactly 5k. A placed circle needs 1 <= k <= left and is the candidate of the last attempt, which passed the test. No circle means k = left. |
| Packing.PlaceSlotFirstFit | main.js:166-207 | A slot keeps the first accepted candidate. Every attempt before it was rejected, or every attempt when none was accepted. |
| Packing.FillSlotsAppends | main.js:162-215 | Filling slots only appends: earlier circles stay a prefix, and each slot adds at most one circle. |
| Packing.FillSlotsAttempts | main.js:162-215 | Filling n slots makes at most 200n attempts and advances the counter by exactly 5 per attempt. |
| Packing.AppendAccepted | main.js:204-214 | Pushing a circle accepted against the current list keeps every circle accepted against those before it. |
| Packing.FillSlotsAccepted | main.js:162-215 | Filling slots keeps every circle accepted against the circles placed before it. |
| Packing.FillSlotsSampled | main.js:162-215 | A property every candidate has holds of every placed circle. |
| Layers.RequestedCount | main.js:160 | The requested circle count, `int(8, 15)` at the pass's first draw, lies in [8, 15]. |
| Layers.Candidate | main.js:167-183 | The candidate of an attempt has a radius in [13, 61), one of the anchors, and a palette colour. |
| Layers.AcceptedSeparated | main.js:186-202 | Circles accepted in order are pairwise separated, in both argument orders of `circlesOverlap`, and all lie in the canvas. |
| Layers.LayerSlotAttempts | main.js:163-214 | One slot of a layer makes k <= 200 attempts and advances the counter by 5k. A placed circle is the candidate of attempt k and is acceptable. No circle means all 200 attempts were made. |
| Layers.LayerSlotFirstFit | main.js:166-207 | One slot of a layer takes the first acceptable candidate. Every candidate before it was unacceptable. |
| Layers.LayerCount | main.js:160-215 | A layer holds at most the requested count, which is at most 15. |
| Layers.LayerAttempts | main.js:160-215 | A layer pass consumes one draw for the count and then exactly 5 per attempt, with k <= 200 × count attempts. |
| Layers.LayerValid | main.js:157-218 | Every circle of a layer is well sampled, lies inside the canvas, and was acceptable against the circles placed before it. No two circles of the layer overlap beyond the buffer. |
| Layers.SampleCandidate | main.js:167-183 | One attempt draws radius, anchor, angle, distance and colour in source order: 5 draws. The circle is `Candidate` at the old counter. |
| Layers.CheckCandidate | main.js:186-202 | The scan with `break` plus the four bound checks says valid exactly when the candidate overlaps no accepted circle and lies in the canvas. |
| Layers.LayerSlotReject | main.js:204-209 | A rejected attempt leaves the rest of the slot to the next counter with one attempt fewer. |
| Layers.LayerSlotAccept | main.js:204-207 | An accepted attempt ends the slot with its candidate, 5 draws later. |
| Layers.LayerFillStep | main.js:162-214 | An iteration of the outer loop pushes its slot's circle, if any, and leaves the remaining slots to the next counter. |
| Layers.TryCandidate | main.js:167-209 | One attempt advances the counter by 5. It either ends the slot with its candidate or hands the slot on to the next attempt. |
| Layers.PlaceCircle | main.js:163-210 | The `while (maxAttempts > 0)` loop returns exactly the slot outcome and counter of `LayerSlot`. |
| Layers.FillSlotStep | main.js:162-215 | One iteration of the `for` loop moves the state along `LayerFill` by one slot. |
| Layers.GenerateLayerCircles | main.js:157-218 | Returns exactly `LayerFrom` at the old counter and leaves the counter where `LayerFrom` says. |
| Compositions.LayersUpToAt | main.js:228-237 | The first n layers are n in number, and layer i is `LayerAt(i)`. |
| Compositions.CompositionShape | main.js:221-243 | Facts about the composition: it returns the input seed and the 3 anchors of the first seven draws. It has exactly 3 layers; layer i has index i, height i × 38.1 and the circles of pass i, the passes counted from counter seed + 7. |
| Compositions.PassDraws | main.js:230-231 | Each layer pass starts where the previous one stopped. It uses 1 + 5k draws, with k <= 200 × 15. |
| Compositions.CompositionLayersSound | main.js:221-243 | Every layer holds at most 15 well-sampled circles around the composition's own anchors. They lie in the canvas, were accepted in order and are pairwise separated. |
| Compositions.GenerateLayers | main.js:228-237 | The three-layer loop pushes `LayerAt(i)` for i = 0, 1, 2 and leaves the counter at the start of a fourth pass. |
| Compositions.GenerateComposition | main.js:221-244 | Returns exactly `CompositionOf(math, seed)`. The result depends on the seed and the Math functions alone. |

## Left out

- Rendering, Three.js scene setup, mesh and leg construction, STL export,
  JSON export, the DOM and event handling (main.js:69-123, 247-613). They call into a
  library that is not part of this model.
- `findTangentCircle` (main.js:286-326) is not modelled. It is defined but
  never called in main.js.
- The unseeded `Math.random()` calls: the seed choice at main.js:510 and
  the rendering jitter at main.js:467 and 484. The model takes the seed as
  a parameter.
- The concrete values of `Math.sin`, `Math.cos` and `Math.sqrt`, and IEEE
  rounding. The exact reproducible sequence of a seed is therefore not
  computed: the model proves what holds for every choice of these functions.
- Layers.GenerateLayerCircles: the unused `existingCircles` parameter
  (main.js:157) is dropped.
- Layers.GenerateLayerCircles: requires a non-empty anchor list. On an empty
  list the source's `choice` yields `undefined` and then throws on
  `anchor.x`. The composition always passes the 3 anchors.
- Random.SeededRandom: the counter is an integer. A non-integer seed, which
  the only caller never passes, is not modelled. Neither is a seed beyond
  2^53, where `seed++` on a double no longer advances; the only caller seeds
  below 10^6 and a composition makes at most about 45,000 draws.
- CONFIG entries used only by rendering or not at all (`RING_WALL_THICKNESS`,
  `RING_HEIGHT`, the `LEG_*` entries) are not modelled.
