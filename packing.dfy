/** The bounded rejection sampling of generateLayerCircles, stated for any
    candidate source and any acceptance test: each slot tries up to ATTEMPTS
    candidates, each attempt consuming DRAWS_PER_ATTEMPT draws whether or not
    it is accepted, and keeps the first one the test accepts against the
    circles placed so far. The layer generator instantiates it with its
    sampler and its overlap-and-bounds test. */
module Packing {
  import opened Base
  import opened Config
  import opened Geometry

  /** Draws consumed by one placement attempt: radius, anchor, angle,
      distance and colour. */
  const DRAWS_PER_ATTEMPT: nat := 5

  /** The candidate sampled by the attempt that starts at a given counter. */
  type Sampler = int -> Circle

  /** Whether a candidate may join the circles already placed. */
  type Test = (Circle, seq<Circle>) -> bool

  /** One slot with `left` attempts remaining from counter s: the first
      accepted candidate, or None when the attempts run out, together with
      the counter afterwards. */
  function PlaceSlot(accept: Test, attempt: Sampler, placed: seq<Circle>, s: int, left: nat): (Option<Circle>, int)
    decreases left, 1
  {
    if left == 0 then (None, s) else PlaceAttempt(accept, attempt, placed, s, left)
  }

  /** The attempt at counter s with `left` attempts remaining: its candidate
      when accepted, otherwise the rest of the slot from the next counter. */
  function PlaceAttempt(accept: Test, attempt: Sampler, placed: seq<Circle>, s: int, left: nat): (Option<Circle>, int)
    requires left > 0
    decreases left, 0
  {
    var c := attempt(s);
    if accept(c, placed) then (Some(c), s + DRAWS_PER_ATTEMPT)
    else PlaceSlot(accept, attempt, placed, s + DRAWS_PER_ATTEMPT, left - 1)
  }

  /** The remaining `slots` slots, appending each placed circle to `placed`;
      returns the circles and the counter afterwards. */
  function FillSlots(accept: Test, attempt: Sampler, placed: seq<Circle>, s: int, slots: nat): (seq<Circle>, int)
    decreases slots, 1
  {
    if slots == 0 then (placed, s) else FillSlot(accept, attempt, placed, s, slots)
  }

  /** The next slot from counter s, its circle appended when it found one;
      the remaining slots follow it. */
  function FillSlot(accept: Test, attempt: Sampler, placed: seq<Circle>, s: int, slots: nat): (seq<Circle>, int)
    requires slots > 0
    decreases slots, 0
  {
    var r := PlaceSlot(accept, attempt, placed, s, ATTEMPTS);
    var next := if r.0.Some? then placed + [r.0.value] else placed;
    FillSlots(accept, attempt, next, r.1, slots - 1)
  }

  /** The counter at which attempt number j (from 0) of a slot starts. */
  function AttemptStart(s: int, j: nat): int
  {
    s + DRAWS_PER_ATTEMPT * j
  }

  /** Each circle was accepted against the circles before it. */
  predicate AcceptedInOrder(accept: Test, cs: seq<Circle>)
  {
    forall k :: 0 <= k < |cs| ==> accept(cs[k], cs[..k])
  }

  /** Draw accounting of one slot: it makes k attempts, 1 <= k <= left when it
      places a circle and k == left when it does not, and advances the
      counter by exactly 5k. A placed circle is the candidate of the last
      attempt and passed the test. */
  lemma {:induction false} PlaceSlotAttempts(accept: Test, attempt: Sampler, placed: seq<Circle>, s: int, left: nat)
    returns (k: nat)
    ensures var r := PlaceSlot(accept, attempt, placed, s, left);
            k <= left && r.1 == s + DRAWS_PER_ATTEMPT * k &&
            (r.0.None? ==> k == left) &&
            (r.0.Some? ==> 1 <= k && r.0.value == attempt(s + DRAWS_PER_ATTEMPT * (k - 1)) && accept(r.0.value, placed))
    decreases left
  {
    if left == 0 {
      k := 0;
    } else if accept(attempt(s), placed) {
      k := 1;
    } else {
      var rest := PlaceSlotAttempts(accept, attempt, placed, s + DRAWS_PER_ATTEMPT, left - 1);
      k := rest + 1;
    }
  }

  /** A slot takes the FIRST accepted candidate: every attempt that starts
      before the accepted one (every attempt, when none was accepted) was
      rejected. */
  lemma {:induction false} PlaceSlotFirstFit(accept: Test, attempt: Sampler, placed: seq<Circle>, s: int, left: nat)
    ensures var r := PlaceSlot(accept, attempt, placed, s, left);
            var stop := if r.0.Some? then r.1 - DRAWS_PER_ATTEMPT else r.1;
            forall j: nat :: AttemptStart(s, j) < stop ==> !accept(attempt(AttemptStart(s, j)), placed)
    decreases left
  {
    if left > 0 && !accept(attempt(s), placed) {
      PlaceSlotFirstFit(accept, attempt, placed, s + DRAWS_PER_ATTEMPT, left - 1);
      forall j: nat | 0 < j
        ensures AttemptStart(s, j) == AttemptStart(s + DRAWS_PER_ATTEMPT, j - 1)
      {
      }
    }
  }

  /** Filling slots only appends: the circles placed before are a prefix of
      the result, and each slot adds at most one circle. */
  lemma {:induction false} FillSlotsAppends(accept: Test, attempt: Sampler, placed: seq<Circle>, s: int, slots: nat)
    ensures var r := FillSlots(accept, attempt, placed, s, slots);
            placed <= r.0 && |r.0| <= |placed| + slots
    decreases slots
  {
    if slots > 0 {
      var r := PlaceSlot(accept, attempt, placed, s, ATTEMPTS);
      var next := if r.0.Some? then placed + [r.0.value] else placed;
      FillSlotsAppends(accept, attempt, next, r.1, slots - 1);
    }
  }

  /** Filling slots makes at most ATTEMPTS attempts per slot and advances the
      counter by exactly 5 per attempt. */
  lemma {:induction false} FillSlotsAttempts(accept: Test, attempt: Sampler, placed: seq<Circle>, s: int, slots: nat)
    returns (k: nat)
    ensures k <= ATTEMPTS * slots
    ensures FillSlots(accept, attempt, placed, s, slots).1 == s + DRAWS_PER_ATTEMPT * k
    decreases slots
  {
    if slots == 0 {
      k := 0;
    } else {
      var r := PlaceSlot(accept, attempt, placed, s, ATTEMPTS);
      var first := PlaceSlotAttempts(accept, attempt, placed, s, ATTEMPTS);
      var next := if r.0.Some? then placed + [r.0.value] else placed;
      var rest := FillSlotsAttempts(accept, attempt, next, r.1, slots - 1);
      k := first + rest;
    }
  }

  /** Appending an accepted circle keeps the acceptance-order invariant. */
  lemma AppendAccepted(accept: Test, cs: seq<Circle>, c: Circle)
    requires AcceptedInOrder(accept, cs) && accept(c, cs)
    ensures AcceptedInOrder(accept, cs + [c])
  {
    var ext := cs + [c];
    forall k | 0 <= k < |ext|
      ensures accept(ext[k], ext[..k])
    {
      if k < |cs| {
        assert ext[..k] == cs[..k];
      } else {
        assert ext[..k] == cs;
      }
    }
  }

  /** Filling slots keeps the acceptance-order invariant. */
  lemma {:induction false} FillSlotsAccepted(accept: Test, attempt: Sampler, placed: seq<Circle>, s: int, slots: nat)
    requires AcceptedInOrder(accept, placed)
    ensures AcceptedInOrder(accept, FillSlots(accept, attempt, placed, s, slots).0)
    decreases slots
  {
    if slots > 0 {
      var r := PlaceSlot(accept, attempt, placed, s, ATTEMPTS);
      var k := PlaceSlotAttempts(accept, attempt, placed, s, ATTEMPTS);
      var next := if r.0.Some? then placed + [r.0.value] else placed;
      if r.0.Some? {
        AppendAccepted(accept, placed, r.0.value);
      }
      FillSlotsAccepted(accept, attempt, next, r.1, slots - 1);
    }
  }

  /** A property every candidate has holds of every circle placed. */
  lemma {:induction false} FillSlotsSampled(accept: Test, attempt: Sampler, good: Circle -> bool,
                                            placed: seq<Circle>, s: int, slots: nat)
    requires forall t :: good(attempt(t))
    requires forall c :: c in placed ==> good(c)
    ensures forall c :: c in FillSlots(accept, attempt, placed, s, slots).0 ==> good(c)
    decreases slots
  {
    if slots > 0 {
      var r := PlaceSlot(accept, attempt, placed, s, ATTEMPTS);
      var k := PlaceSlotAttempts(accept, attempt, placed, s, ATTEMPTS);
      var next := if r.0.Some? then placed + [r.0.value] else placed;
      FillSlotsSampled(accept, attempt, good, next, r.1, slots - 1);
    }
  }
}
