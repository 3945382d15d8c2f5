/** SeededRandom: a generator whose state is one integer counter. Every draw
    reads Math.sin at the counter, keeps the fractional part of ten thousand
    times that value, and advances the counter by one. */
module Random {
  import opened Base

  /** The fractional part of x: in [0, 1). */
  function Frac(x: real): (r: real)
    ensures 0.0 <= r < 1.0
  {
    x - x.Floor as real
  }

  /** The value random() returns when the counter is s. */
  function Draw(m: MathLib, s: int): (r: real)
    ensures 0.0 <= r < 1.0
  {
    Frac(m.sin(s as real) * 10000.0)
  }

  /** u * w: the draw scaled to a width. */
  function Scale(u: real, w: real): real
  {
    u * w
  }

  /** range(min, max) given the draw u it consumes. */
  function RangeOf(u: real, min: real, max: real): real
  {
    min + Scale(u, max - min)
  }

  /** int(min, max) given the draw u it consumes: the floor of range(min, max + 1). */
  function IntOf(u: real, min: int, max: int): int
  {
    RangeOf(u, min as real, (max + 1) as real).Floor
  }

  /** choice(items) given the draw u it consumes. On an empty array the source
      indexes position 0 and gets undefined, modelled as None. */
  function Pick<T>(u: real, items: seq<T>): (r: Option<T>)
    requires 0.0 <= u < 1.0
    ensures r.None? <==> |items| == 0
    ensures r.Some? ==> r.value in items
  {
    if |items| == 0 then None
    else
      IntBounds(u, 0, |items| - 1);
      Some(items[IntOf(u, 0, |items| - 1)])
  }

  /** For a draw in [0, 1), range(min, max) lies in [min, max), and equals
      min when the interval is empty. */
  lemma RangeBounds(u: real, min: real, max: real)
    requires 0.0 <= u < 1.0 && min <= max
    ensures min <= RangeOf(u, min, max) <= max
    ensures min < max ==> RangeOf(u, min, max) < max
    ensures min == max ==> RangeOf(u, min, max) == min
  {
    ScaleBelow(u, max - min);
  }

  /** Scaling a non-negative width by a factor in [0, 1) stays within it. */
  lemma ScaleBelow(u: real, w: real)
    requires 0.0 <= u < 1.0 && 0.0 <= w
    ensures 0.0 <= Scale(u, w) <= w
    ensures 0.0 < w ==> Scale(u, w) < w
    ensures w == 0.0 ==> Scale(u, w) == 0.0
  {
    if w > 0.0 {
      Positive(1.0 - u, w);
    }
  }

  /** The product of two positive reals is positive. */
  lemma Positive(a: real, b: real)
    requires 0.0 < a && 0.0 < b
    ensures 0.0 < a * b
  {
  }

  /** For integers min <= max, int(min, max) lies in [min, max]. */
  lemma IntBounds(u: real, min: int, max: int)
    requires 0.0 <= u < 1.0 && min <= max
    ensures min <= IntOf(u, min, max) <= max
  {
    RangeBounds(u, min as real, (max + 1) as real);
  }

  /** choice on an empty array computes int(0, -1), which is 0: an index
      outside the array. */
  lemma EmptyChoiceIndex(u: real)
    requires 0.0 <= u < 1.0
    ensures IntOf(u, 0, -1) == 0
  {
    assert RangeOf(u, 0.0, 0.0) == 0.0;
  }

  class SeededRandom {
    /** The Math functions the generator reads. */
    const math: MathLib
    /** The counter fed to the next draw. */
    var seed: int

    constructor (math: MathLib, seed: int)
      ensures this.math == math && this.seed == seed
    {
      this.math := math;
      this.seed := seed;
    }

    method Random() returns (r: real)
      modifies this
      ensures seed == old(seed) + 1
      ensures r == Draw(math, old(seed))
      ensures 0.0 <= r < 1.0
    {
      r := Draw(math, seed);
      seed := seed + 1;
    }

    method Range(min: real, max: real) returns (r: real)
      modifies this
      ensures seed == old(seed) + 1
      ensures r == RangeOf(Draw(math, old(seed)), min, max)
      ensures min <= max ==> min <= r <= max
      ensures min < max ==> r < max
    {
      var u := Random();
      r := min + u * (max - min);
      if min <= max {
        RangeBounds(u, min, max);
      }
    }

    method Int(min: int, max: int) returns (r: int)
      modifies this
      ensures seed == old(seed) + 1
      ensures r == IntOf(Draw(math, old(seed)), min, max)
      ensures min <= max ==> min <= r <= max
    {
      var x := Range(min as real, (max + 1) as real);
      r := x.Floor;
      if min <= max {
        IntBounds(Draw(math, old(seed)), min, max);
      }
    }

    method Choice<T>(items: seq<T>) returns (r: Option<T>)
      modifies this
      ensures seed == old(seed) + 1
      ensures r == Pick(Draw(math, old(seed)), items)
      ensures r.None? <==> |items| == 0
      ensures r.Some? ==> r.value in items
    {
      var k := Int(0, |items| - 1);
      if 0 <= k < |items| {
        r := Some(items[k]);
      } else {
        EmptyChoiceIndex(Draw(math, old(seed)));
        r := None;
      }
    }
  }
}
