/** Ghost notes driven by a per-bar seeded generator
    (src/engine/DensityGenerator.ts). The generator's mutable closure state is
    threaded explicitly through the functions, in the order the source draws. */
module DensityGenerator {
  import opened DrumTypes

  /** Velocity of an added soft hi-hat layer and the base of a ghost note's. */
  const GhostVelocity: real := 0.5
  /** 2^32: the generator works on unsigned 32-bit integers (`>>> 0`). */
  const Modulus: nat := 0x1_0000_0000

  /** The state of the generator returned by `createSeededRandom`. */
  datatype Rng = Rng(state: nat)

  /** `createSeededRandom(seed)`: the state starts at `(seed * 2654435761) >>> 0`,
      replaced by 1 when that is 0, so it is never 0. */
  function SeedRng(seed: int): (rng: Rng)
    ensures 0 < rng.state < Modulus
  {
    var s := (seed * 2654435761) % Modulus;
    Rng(if s == 0 then 1 else s)
  }

  /** One call of the generator: the glibc LCG step modulo 2^32, then
      `(state >>> 16) / 32768`, a value in [0, 2) (not [0, 1)). */
  function Next(rng: Rng): (r: (real, Rng))
    ensures 0.0 <= r.0 < 2.0
    ensures r.1.state < Modulus
  {
    var s := (rng.state * 1103515245 + 12345) % Modulus;
    var high := s / 65536;
    assert high < 65536;
    (high as real / 32768.0, Rng(s))
  }

  /** JavaScript's `Math.round` for the values here: half rounds up. */
  function Round(x: real): int {
    (x + 0.5).Floor
  }

  /** `max(2, round(4 / density))`: how often a rest is forced to sound. */
  function GuaranteedPeriod(density: real): (p: int)
    requires density > 0.0
    ensures p >= 2
  {
    var r := Round(4.0 / density);
    if r > 2 then r else 2
  }

  /** A step the generator treats as a rest. */
  predicate IsRestLike(step: Step) {
    step.isRest || |step.hits| == 0
  }

  predicate HasHatOrRide(hits: seq<Hit>) {
    exists i :: 0 <= i < |hits| && (hits[i].symbol == 'h' || hits[i].symbol == 'H' || hits[i].symbol == 'r')
  }

  /** `maybeAddGhostNote`: a rest in a guaranteed slot always sounds, any other
      with probability `density * 0.6` (one draw); the voice is a closed hat on
      odd positions and otherwise a ride when a draw exceeds 0.7; the velocity
      takes one more draw. */
  function MaybeAddGhostNote(step: Step, density: real, rng: Rng, stepIndex: nat): (r: (Step, Rng))
    requires density > 0.0
    ensures r.0 == step || IsGhostNote(r.0, stepIndex)
    ensures stepIndex % GuaranteedPeriod(density) == 0 ==> IsGhostNote(r.0, stepIndex)
  {
    var guaranteed := stepIndex % GuaranteedPeriod(density) == 0;
    var (add, rng1) :=
      if guaranteed then (true, rng)
      else var (u, next) := Next(rng); (u < density * 0.6, next);
    if !add then (step, rng1)
    else
      var offbeat := (stepIndex % 16) % 2 == 1;
      assert offbeat <==> stepIndex % 2 == 1;
      var (symbol, rng2) :=
        if offbeat then ('h', rng1)
        else var (u, next) := Next(rng1); (if u > 0.7 then 'r' else 'h', next);
      var (uv, rng3) := Next(rng2);
      (Step([Hit(symbol, GhostVelocity + uv * 0.1, 0.0)], false), rng3)
  }

  /** `maybeAddExtraLayer`: below density 0.4 nothing (no draw); otherwise one
      draw, and with probability `(density - 0.4) * 0.67` a soft closed hat is
      appended unless the step already has a hat or a ride. */
  function MaybeAddExtraLayer(step: Step, density: real, rng: Rng): (r: (Step, Rng))
    ensures r.0 == step
      || (density >= 0.4 && !HasHatOrRide(step.hits) && r.0 == Step(step.hits + [Hit('h', GhostVelocity, 0.0)], false))
  {
    if density < 0.4 then (step, rng)
    else
      var (u, rng1) := Next(rng);
      if u > (density - 0.4) * 0.67 then (step, rng1)
      else if HasHatOrRide(step.hits) then (step, rng1)
      else (Step(step.hits + [Hit('h', GhostVelocity, 0.0)], false), rng1)
  }

  /** A ghost note placed at `stepIndex`: one hit without offset, a closed hat
      on odd positions and a closed hat or a ride on even ones, at a velocity
      in [0.5, 0.7). */
  predicate IsGhostNote(s: Step, stepIndex: nat) {
    && |s.hits| == 1 && !s.isRest
    && s.hits[0].offset == 0.0
    && GhostVelocity <= s.hits[0].velocity < GhostVelocity + 0.2
    && (s.hits[0].symbol == 'h' || (stepIndex % 2 == 0 && s.hits[0].symbol == 'r'))
  }

  /** The only ways the generator may change step `i`. */
  predicate Derived(original: Step, shaped: Step, density: real, stepIndex: nat)
    requires density > 0.0
  {
    if IsRestLike(original) then
      && (shaped == original || IsGhostNote(shaped, stepIndex))
      && (stepIndex % GuaranteedPeriod(density) == 0 ==> IsGhostNote(shaped, stepIndex))
    else
      shaped == original
      || (density >= 0.4 && !HasHatOrRide(original.hits)
          && shaped == Step(original.hits + [Hit('h', GhostVelocity, 0.0)], false))
  }

  /** One element of the `.map`: rests go to `maybeAddGhostNote`, the others
      to `maybeAddExtraLayer`. */
  function ShapeStep(step: Step, density: real, rng: Rng, stepIndex: nat): (r: (Step, Rng))
    requires density > 0.0
    ensures Derived(step, r.0, density, stepIndex)
  {
    if IsRestLike(step) then MaybeAddGhostNote(step, density, rng, stepIndex)
    else MaybeAddExtraLayer(step, density, rng)
  }

  /** The `.map` from index `from` on, with the generator state reached there. */
  function ShapeFrom(steps: seq<Step>, from: nat, density: real, rng: Rng): (r: seq<Step>)
    requires from <= |steps| && density > 0.0
    ensures |r| == |steps| - from
    ensures forall i :: from <= i < |steps| ==> Derived(steps[i], r[i - from], density, i)
    decreases |steps| - from
  {
    if from == |steps| then []
    else
      var (shaped, next) := ShapeStep(steps[from], density, rng, from);
      [shaped] + ShapeFrom(steps, from + 1, density, next)
  }

  /** `generateWithDensity`: the steps unchanged when density is not positive;
      otherwise the same number of steps, each derived from the step at the same
      index only in the ways `Derived` allows. The draws come from a generator
      seeded by `barIndex` alone, so the same arguments give the same bar. */
  function GenerateWithDensity(steps: seq<Step>, density: real, barIndex: int): (r: seq<Step>)
    ensures density <= 0.0 ==> r == steps
    ensures |r| == |steps|
    ensures density > 0.0 ==> forall i :: 0 <= i < |steps| ==> Derived(steps[i], r[i], density, i)
  {
    if density <= 0.0 then steps
    else ShapeFrom(steps, 0, density, SeedRng(barIndex))
  }

  /** `shouldApplyDensity`. */
  function ShouldApplyDensity(density: real, stepsLength: nat): bool {
    density > 0.0 && stepsLength > 0
  }

  /** When `shouldApplyDensity` says no, generating is the identity. */
  lemma SkippedDensityIsIdentity(steps: seq<Step>, density: real, barIndex: int)
    requires !ShouldApplyDensity(density, |steps|)
    ensures GenerateWithDensity(steps, density, barIndex) == steps
  {
  }

  /** Consequences of `Derived` for a whole bar: rests in guaranteed slots
      always sound, steps that already hold a hat or a ride are never touched,
      nothing but rests changes below density 0.4, and a changed sounding step
      keeps its hits as a prefix and gains exactly one soft closed hat. */
  lemma GeneratedBarShape(steps: seq<Step>, density: real, barIndex: int, i: nat)
    requires density > 0.0 && i < |steps|
    ensures var r := GenerateWithDensity(steps, density, barIndex);
      && (IsRestLike(steps[i]) && i % GuaranteedPeriod(density) == 0 ==> IsGhostNote(r[i], i))
      && (!IsRestLike(steps[i]) && HasHatOrRide(steps[i].hits) ==> r[i] == steps[i])
      && (!IsRestLike(steps[i]) && density < 0.4 ==> r[i] == steps[i])
      && (!IsRestLike(steps[i]) && r[i] != steps[i] ==>
            |r[i].hits| == |steps[i].hits| + 1 && r[i].hits[..|steps[i].hits|] == steps[i].hits
            && r[i].hits[|steps[i].hits|] == Hit('h', GhostVelocity, 0.0) && !r[i].isRest)
  {
    var r := GenerateWithDensity(steps, density, barIndex);
    assert Derived(steps[i], r[i], density, i);
    if !IsRestLike(steps[i]) && r[i] != steps[i] {
      assert r[i].hits == steps[i].hits + [Hit('h', GhostVelocity, 0.0)];
    }
  }

  /** At full density every fourth rest is forced; at half density every
      eighth. */
  lemma GuaranteedPeriodExamples()
    ensures GuaranteedPeriod(1.0) == 4 && GuaranteedPeriod(0.5) == 8
  {
  }
}
