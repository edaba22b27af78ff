/** Swing and shuffle timing (src/engine/FeelProcessor.ts): the "and" of every
    beat, position 2 of each group of four sixteenths, is delayed by a fixed
    fraction of the step duration. */
module FeelProcessor {
  import opened DrumTypes

  /** `getTimingOffset`; `stepIndex` follows JavaScript's truncating `%`.
      Straight never delays; swing delays the offbeats by 15% of a step and
      shuffle by 25%; every other step is on time. */
  function GetTimingOffset(stepIndex: int, stepDuration: real, feel: Feel): (offset: real)
    ensures feel == Straight ==> offset == 0.0
    ensures stepIndex >= 0 && !IsOffbeat(stepIndex) ==> offset == 0.0
    ensures stepIndex >= 0 && IsOffbeat(stepIndex) && feel == Swing ==> offset == 0.15 * stepDuration
    ensures stepIndex >= 0 && IsOffbeat(stepIndex) && feel == Shuffle ==> offset == 0.25 * stepDuration
  {
    assert stepIndex >= 0 ==> (stepIndex % 16) % 4 == stepIndex % 4;
    if feel == Straight then 0.0
    else
      var positionInBar := JsRem(stepIndex, 16);
      var isOffbeat := JsRem(positionInBar, 4) == 2;
      if !isOffbeat then 0.0
      else if feel == Swing then stepDuration * 0.15
      else stepDuration * 0.25
  }

  /** `applyFeel` delegates to `getTimingOffset`. */
  function ApplyFeel(stepIndex: int, stepDuration: real, feel: Feel): real {
    GetTimingOffset(stepIndex, stepDuration, feel)
  }

  /** `applyFeel` and `getTimingOffset` agree on every input. */
  lemma ApplyFeelIsTimingOffset(stepIndex: int, stepDuration: real, feel: Feel)
    ensures ApplyFeel(stepIndex, stepDuration, feel) == GetTimingOffset(stepIndex, stepDuration, feel)
  {
  }

  /** The offbeat positions of a bar are 2, 6, 10 and 14 (for indices >= 0). */
  predicate IsOffbeat(stepIndex: int) {
    stepIndex % 4 == 2
  }

  /** The offset depends on the index only through its position in the beat,
      so it repeats every four steps. */
  lemma {:induction false} TimingOffsetPeriodic(stepIndex: nat, stepDuration: real, feel: Feel)
    ensures GetTimingOffset(stepIndex + 4, stepDuration, feel) == GetTimingOffset(stepIndex, stepDuration, feel)
  {
    assert IsOffbeat(stepIndex + 4) == IsOffbeat(stepIndex);
  }

  /** A delay is never negative for a non-negative step duration, and is at
      most a quarter of the step, so a delayed step still plays before the next. */
  lemma TimingOffsetBounds(stepIndex: int, stepDuration: real, feel: Feel)
    requires stepDuration >= 0.0
    ensures 0.0 <= GetTimingOffset(stepIndex, stepDuration, feel) <= 0.25 * stepDuration
  {
  }

  /** For negative indices the truncating `%` leaves e.g. -2 on time, although
      -2 and 2 lie four steps apart. */
  lemma NegativeIndexNotPeriodic()
    ensures GetTimingOffset(-2, 1.0, Swing) == 0.0
    ensures GetTimingOffset(2, 1.0, Swing) == 0.15
  {
  }
}
