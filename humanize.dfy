/** Timing and velocity jitter (src/engine/HumanizeProcessor.ts). Each
    `Math.random()` draw is a parameter `u`, a value in [0, 1). */
module HumanizeProcessor {

  /** Largest timing jitter, in seconds, at full humanize. */
  const MaxTimingJitter: real := 0.020
  /** Largest velocity jitter, as a fraction, at full humanize. */
  const MaxVelocityJitter: real := 0.4

  function Min(a: real, b: real): real { if a <= b then a else b }
  function Max(a: real, b: real): real { if a >= b then a else b }

  /** A draw of `Math.random()`. */
  predicate IsDraw(u: real) { 0.0 <= u < 1.0 }

  /** `(u * 2 - 1)`: a draw spread over [-1, 1). */
  function Spread(u: real): (x: real)
    ensures IsDraw(u) ==> -1.0 <= x < 1.0
  {
    u * 2.0 - 1.0
  }

  /** `getTimingJitter`: nothing unless humanize is positive; otherwise a
      jitter within 20 ms scaled by humanize (capped at 1). */
  function GetTimingJitter(humanize: real, u: real): (jitter: real)
    ensures humanize <= 0.0 ==> jitter == 0.0
    ensures IsDraw(u) && humanize > 0.0 ==>
      var range := MaxTimingJitter * Min(1.0, humanize); -range <= jitter <= range
  {
    if humanize <= 0.0 then 0.0
    else
      var range := MaxTimingJitter * Min(1.0, humanize);
      ScaledDrawBound(u, range);
      Spread(u) * range
  }

  /** `1 + (u * 2 - 1) * jitterRange` for the velocity. */
  function VelocityMultiplier(humanize: real, u: real): (m: real)
    requires humanize > 0.0
    ensures IsDraw(u) ==>
      var range := MaxVelocityJitter * Min(1.0, humanize); 1.0 - range <= m <= 1.0 + range
  {
    var range := MaxVelocityJitter * Min(1.0, humanize);
    ScaledDrawBound(u, range);
    1.0 + Spread(u) * range
  }

  /** `applyVelocityJitter`: the velocity itself, unchanged and unclamped, when
      humanize is not positive; otherwise the jittered velocity clamped to
      [0.1, 1], so a humanized hit is never silent. */
  function ApplyVelocityJitter(baseVelocity: real, humanize: real, u: real): (v: real)
    ensures humanize <= 0.0 ==> v == baseVelocity
    ensures humanize > 0.0 ==> 0.1 <= v <= 1.0
    ensures humanize > 0.0 && 0.1 <= baseVelocity * VelocityMultiplier(humanize, u) <= 1.0 ==>
      v == baseVelocity * VelocityMultiplier(humanize, u)
  {
    if humanize <= 0.0 then baseVelocity
    else Max(0.1, Min(1.0, baseVelocity * VelocityMultiplier(humanize, u)))
  }

  datatype Humanized = Humanized(timingOffset: real, velocity: real)

  /** `applyHumanize`: the timing jitter (first draw) and the jittered velocity
      (second draw) together. */
  function ApplyHumanize(baseVelocity: real, humanize: real, uTiming: real, uVelocity: real): (r: Humanized)
    ensures humanize <= 0.0 ==> r == Humanized(0.0, baseVelocity)
    ensures IsDraw(uTiming) && humanize > 0.0 ==>
      -MaxTimingJitter <= r.timingOffset <= MaxTimingJitter && 0.1 <= r.velocity <= 1.0
  {
    Humanized(GetTimingJitter(humanize, uTiming), ApplyVelocityJitter(baseVelocity, humanize, uVelocity))
  }

  /** The pair is exactly the two separate results. */
  lemma ApplyHumanizeIsPair(baseVelocity: real, humanize: real, uTiming: real, uVelocity: real)
    ensures ApplyHumanize(baseVelocity, humanize, uTiming, uVelocity).timingOffset == GetTimingJitter(humanize, uTiming)
    ensures ApplyHumanize(baseVelocity, humanize, uTiming, uVelocity).velocity == ApplyVelocityJitter(baseVelocity, humanize, uVelocity)
  {
  }

  /** A spread draw scaled by a non-negative range stays within the range. */
  lemma ScaledDrawBound(u: real, range: real)
    requires range >= 0.0
    ensures IsDraw(u) ==> -range <= Spread(u) * range <= range
  {
    BoundedScale(Spread(u), range);
  }

  /** |x * range| <= range for x in [-1, 1] and range >= 0. */
  lemma BoundedScale(x: real, range: real)
    ensures -1.0 <= x <= 1.0 && range >= 0.0 ==> -range <= x * range <= range
  {
    if -1.0 <= x <= 1.0 && range >= 0.0 {
      if x >= 0.0 {
        assert x * range <= 1.0 * range;
      } else {
        assert x * range >= -1.0 * range;
      }
    }
  }
}
