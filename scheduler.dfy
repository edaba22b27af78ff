/** The lookahead step scheduler (src/engine/Scheduler.ts). The audio clock's
    `currentTime` becomes the parameter `now`; each `playSample` call becomes
    a `Trigger` in an output list, and each callback invocation an `Event`. */
module StepScheduler {
  import opened DrumTypes
  import DrumConstants
  import FeelProcessor

  /** Seconds of audio scheduled ahead of the clock. */
  const ScheduleAheadTime: real := 0.1
  const StepsPerBar: nat := 16

  /** One `playSample(spriteName, when, velocity)` call. */
  datatype Trigger = Trigger(sprite: string, when: real, velocity: real)

  /** One step scheduled by the lookahead loop: its index and start time. */
  datatype Slot = Slot(stepIndex: nat, time: real)

  /** One callback invocation: the step callback or the bar-boundary callback. */
  datatype Event = StepChanged(stepIndex: nat) | BarBoundary(barIndex: nat)

  /** A sixteenth note at `bpm`: `60 / bpm / 4` seconds. */
  function StepDuration(bpm: real): (d: real)
    requires bpm > 0.0
    ensures d > 0.0
  {
    60.0 / bpm / 4.0
  }

  /** `advanceStep`'s index update: the next index, wrapping to 0 at the end. */
  function NextIndex(current: nat, length: nat): (next: nat)
    ensures next < length || next == 0
  {
    if current + 1 >= length then 0 else current + 1
  }

  /** The index after `count` advances from `start`. */
  function IndexAfter(start: nat, count: nat, length: nat): (r: nat)
    ensures r < length || r == 0 || (count == 0 && r == start)
  {
    if count == 0 then start else NextIndex(IndexAfter(start, count - 1, length), length)
  }

  /** Advancing `a` then `b` times is advancing `a + b` times. */
  lemma {:induction false} IndexAfterCompose(start: nat, a: nat, b: nat, length: nat)
    ensures IndexAfter(IndexAfter(start, a, length), b, length) == IndexAfter(start, a + b, length)
  {
    if b > 0 {
      IndexAfterCompose(start, a, b - 1, length);
    }
  }

  /** Before the end of the pattern the index just counts up. */
  lemma {:induction false} IndexAfterCounts(start: nat, count: nat, length: nat)
    requires start + count < length
    ensures IndexAfter(start, count, length) == start + count
  {
    if count > 0 {
      IndexAfterCounts(start, count - 1, length);
    }
  }

  /** On a non-empty pattern the index wraps to 0 exactly at the end, and
      returns to where it started after one pattern length. */
  lemma IndexAfterWraps(start: nat, length: nat)
    requires start < length
    ensures IndexAfter(start, length - start, length) == 0
    ensures IndexAfter(start, length, length) == start
  {
    if start + 1 < length {
      IndexAfterCounts(start, length - start - 1, length);
    }
    assert IndexAfter(start, length - start, length) == 0;
    IndexAfterCompose(start, length - start, start, length);
    IndexAfterCounts(0, start, length);
  }

  /** The triggers for `hits` played at `time` shifted by the feel offset:
      one per hit whose symbol has a sprite, in hit order. */
  function HitTriggers(hits: seq<Hit>, time: real, feelOffset: real): seq<Trigger> {
    if |hits| == 0 then []
    else
      var last := hits[|hits| - 1];
      HitTriggers(hits[..|hits| - 1], time, feelOffset)
      + (if last.symbol in DrumConstants.SpriteMap
         then [Trigger(DrumConstants.SpriteMap[last.symbol], time + last.offset + feelOffset, last.velocity)]
         else [])
  }

  /** What `scheduleStep(stepIndex, time)` plays: nothing for an empty
      pattern, a rest or an empty step; otherwise the step's hit triggers with
      the feel offset of `stepIndex`. */
  function StepTriggers(pattern: seq<Step>, bpm: real, feel: Feel, stepIndex: nat, time: real): seq<Trigger>
    requires bpm > 0.0
  {
    if |pattern| == 0 then []
    else
      var step := pattern[stepIndex % |pattern|];
      if step.isRest || |step.hits| == 0 then []
      else HitTriggers(step.hits, time, FeelProcessor.ApplyFeel(stepIndex, StepDuration(bpm), feel))
  }

  /** Everything played for a list of slots, in slot order. */
  function SlotTriggers(pattern: seq<Step>, bpm: real, feel: Feel, slots: seq<Slot>): seq<Trigger>
    requires bpm > 0.0
  {
    if |slots| == 0 then []
    else
      var last := slots[|slots| - 1];
      SlotTriggers(pattern, bpm, feel, slots[..|slots| - 1]) + StepTriggers(pattern, bpm, feel, last.stepIndex, last.time)
  }

  /** The callbacks one advance to `newStep` invokes: the step callback with
      the new index, then the bar callback with `newStep / 16` when the new
      index starts a bar; each only when registered. */
  function AdvanceEvents(newStep: nat, stepListener: bool, barListener: bool): seq<Event> {
    (if stepListener then [StepChanged(newStep)] else [])
    + (if newStep % StepsPerBar == 0 && barListener then [BarBoundary(newStep / StepsPerBar)] else [])
  }

  /** The callbacks of the advances that follow each slot, in slot order. */
  function SlotEvents(slots: seq<Slot>, length: nat, stepListener: bool, barListener: bool): seq<Event> {
    if |slots| == 0 then []
    else
      SlotEvents(slots[..|slots| - 1], length, stepListener, barListener)
      + AdvanceEvents(NextIndex(slots[|slots| - 1].stepIndex, length), stepListener, barListener)
  }

  class Scheduler {
    var isPlaying: bool
    /** Whether a `setTimeout` for the next loop is pending (`timerID !== null`). */
    var timerArmed: bool
    var nextStepTime: real
    var currentStep: nat
    var pattern: seq<Step>
    var bpm: real
    var feel: Feel
    /** Whether `onStep` / `onBarBoundary` registered a callback. */
    var stepListener: bool
    var barListener: bool

    /** The index stays inside the pattern (an empty pattern keeps it at 0),
        and a timer is pending only while playing. */
    predicate Valid()
      reads this
    {
      (currentStep < |pattern| || currentStep == 0) && (timerArmed ==> isPlaying)
    }

    /** The loop ran `|slots|` times from index `start` and time `startTime`:
        slot `j` holds the index after `j` advances at `startTime + j·d`,
        every slot was due before `now + 0.1`, and the next slot is not. */
    predicate ScheduledUpTo(slots: seq<Slot>, start: nat, startTime: real, now: real)
      reads this
      requires bpm > 0.0
    {
      var d := StepDuration(bpm);
      && DueSlots(slots, start, startTime, d, now + ScheduleAheadTime, |pattern|)
      && nextStepTime == SlotTime(startTime, |slots|, d)
      && nextStepTime >= now + ScheduleAheadTime
      && currentStep == IndexAfter(start, |slots|, |pattern|)
    }

    constructor()
      ensures Valid()
      ensures !isPlaying && !timerArmed && nextStepTime == 0.0 && currentStep == 0
      ensures pattern == [] && bpm == 120.0 && feel == Straight
      ensures !stepListener && !barListener
    {
      isPlaying := false;
      timerArmed := false;
      nextStepTime := 0.0;
      currentStep := 0;
      pattern := [];
      bpm := 120.0;
      feel := Straight;
      stepListener := false;
      barListener := false;
    }

    /** `stop`: a no-op when not playing; afterwards nothing plays and no
        timer is pending. */
    method Stop()
      requires Valid()
      modifies this
      ensures Valid() && !isPlaying && !timerArmed
      ensures !old(isPlaying) ==> unchanged(this)
      ensures nextStepTime == old(nextStepTime) && currentStep == old(currentStep)
      ensures pattern == old(pattern) && bpm == old(bpm) && feel == old(feel)
      ensures stepListener == old(stepListener) && barListener == old(barListener)
    {
      if !isPlaying {
        return;
      }
      isPlaying := false;
      if timerArmed {
        timerArmed := false;
      }
    }

    /** `setBPM`: only the tempo changes. */
    method SetBPM(newBpm: real)
      requires Valid()
      modifies this
      ensures Valid() && bpm == newBpm
      ensures isPlaying == old(isPlaying) && timerArmed == old(timerArmed)
      ensures nextStepTime == old(nextStepTime) && currentStep == old(currentStep)
      ensures pattern == old(pattern) && feel == old(feel)
      ensures stepListener == old(stepListener) && barListener == old(barListener)
    {
      bpm := newBpm;
    }

    /** `setFeel`: only the feel changes. */
    method SetFeel(newFeel: Feel)
      requires Valid()
      modifies this
      ensures Valid() && feel == newFeel
      ensures isPlaying == old(isPlaying) && timerArmed == old(timerArmed)
      ensures nextStepTime == old(nextStepTime) && currentStep == old(currentStep)
      ensures pattern == old(pattern) && bpm == old(bpm)
      ensures stepListener == old(stepListener) && barListener == old(barListener)
    {
      feel := newFeel;
    }

    /** `updatePattern`: an empty pattern is refused and changes nothing;
        otherwise the pattern is swapped, and the index restarts at 0 exactly
        when it no longer fits. */
    method UpdatePattern(newPattern: seq<Step>)
      requires Valid()
      modifies this
      ensures Valid()
      ensures |newPattern| == 0 ==> unchanged(this)
      ensures |newPattern| > 0 ==>
        && pattern == newPattern
        && currentStep == (if old(currentStep) >= |newPattern| then 0 else old(currentStep))
      ensures isPlaying == old(isPlaying) && timerArmed == old(timerArmed)
      ensures nextStepTime == old(nextStepTime) && bpm == old(bpm) && feel == old(feel)
      ensures stepListener == old(stepListener) && barListener == old(barListener)
    {
      if |newPattern| == 0 {
        return;
      }
      pattern := newPattern;
      if currentStep >= |newPattern| {
        currentStep := 0;
      }
    }

    /** `onStep`: registers the step callback. */
    method OnStep()
      requires Valid()
      modifies this
      ensures Valid() && stepListener && barListener == old(barListener)
      ensures isPlaying == old(isPlaying) && timerArmed == old(timerArmed)
      ensures nextStepTime == old(nextStepTime) && currentStep == old(currentStep)
      ensures pattern == old(pattern) && bpm == old(bpm) && feel == old(feel)
    {
      stepListener := true;
    }

    /** `onBarBoundary`: registers the bar callback. */
    method OnBarBoundary()
      requires Valid()
      modifies this
      ensures Valid() && barListener && stepListener == old(stepListener)
      ensures isPlaying == old(isPlaying) && timerArmed == old(timerArmed)
      ensures nextStepTime == old(nextStepTime) && currentStep == old(currentStep)
      ensures pattern == old(pattern) && bpm == old(bpm) && feel == old(feel)
    {
      barListener := true;
    }

    /** `getCurrentBar`: the bar holding the current step. */
    method GetCurrentBar() returns (bar: nat)
      ensures bar * StepsPerBar <= currentStep < (bar + 1) * StepsPerBar
    {
      bar := currentStep / StepsPerBar;
    }

    /** `scheduleStep`: plays each hit of the step at `stepIndex` (taken
        modulo the pattern length) whose symbol has a sprite. */
    method ScheduleStep(stepIndex: nat, time: real) returns (triggers: seq<Trigger>)
      requires bpm > 0.0
      ensures triggers == StepTriggers(pattern, bpm, feel, stepIndex, time)
    {
      if |pattern| == 0 {
        return [];
      }
      var step := pattern[stepIndex % |pattern|];
      if step.isRest || |step.hits| == 0 {
        return [];
      }
      var secondsPerBeat := 60.0 / bpm;
      var stepDuration := secondsPerBeat / 4.0;
      var feelOffset := FeelProcessor.ApplyFeel(stepIndex, stepDuration, feel);
      triggers := [];
      for j := 0 to |step.hits|
        invariant triggers == HitTriggers(step.hits[..j], time, feelOffset)
      {
        var hit := step.hits[j];
        assert step.hits[..j + 1][..j] == step.hits[..j];
        if hit.symbol !in DrumConstants.SpriteMap {
          continue;
        }
        var when := time + hit.offset + feelOffset;
        triggers := triggers + [Trigger(DrumConstants.SpriteMap[hit.symbol], when, hit.velocity)];
      }
      assert step.hits[..|step.hits|] == step.hits;
    }

    /** `advanceStep`: moves one sixteenth later and one index on (wrapping),
        then invokes the registered callbacks with the new index. */
    method AdvanceStep() returns (events: seq<Event>)
      requires Valid() && bpm > 0.0
      modifies this
      ensures Valid()
      ensures isPlaying == old(isPlaying) && timerArmed == old(timerArmed)
      ensures pattern == old(pattern) && bpm == old(bpm) && feel == old(feel)
      ensures stepListener == old(stepListener) && barListener == old(barListener)
      ensures nextStepTime == old(nextStepTime) + StepDuration(bpm)
      ensures currentStep == NextIndex(old(currentStep), |pattern|)
      ensures events == AdvanceEvents(currentStep, stepListener, barListener)
    {
      var secondsPerBeat := 60.0 / bpm;
      var secondsPer16th := secondsPerBeat / 4.0;
      nextStepTime := nextStepTime + secondsPer16th;
      currentStep := currentStep + 1;
      if currentStep >= |pattern| {
        currentStep := 0;
      }
      events := [];
      if stepListener {
        events := events + [StepChanged(currentStep)];
      }
      var isOnBarBoundary := currentStep % StepsPerBar == 0;
      if isOnBarBoundary && barListener {
        var barIndex := currentStep / StepsPerBar;
        events := events + [BarBoundary(barIndex)];
      }
    }

    /** `scheduleLoop` for one tick of the clock at `now`: when playing, it
        schedules every step due before `now + 0.1` in order and arms the
        timer for the next tick; when stopped it does nothing. */
    method ScheduleLoop(now: real) returns (slots: seq<Slot>, played: seq<Trigger>, events: seq<Event>)
      requires Valid() && bpm > 0.0
      modifies this
      ensures Valid()
      ensures pattern == old(pattern) && bpm == old(bpm) && feel == old(feel)
      ensures stepListener == old(stepListener) && barListener == old(barListener)
      ensures !old(isPlaying) ==> unchanged(this) && slots == [] && played == [] && events == []
      ensures old(isPlaying) ==> isPlaying && timerArmed && ScheduledUpTo(slots, old(currentStep), old(nextStepTime), now)
      ensures played == SlotTriggers(pattern, bpm, feel, slots)
      ensures events == SlotEvents(slots, |pattern|, stepListener, barListener)
    {
      if !isPlaying {
        return [], [], [];
      }
      slots, played, events := ScheduleDueSteps(now);
      timerArmed := true;
    }

    /** The `while` loop of `scheduleLoop`: schedules and advances while the
        next step is due before `now + 0.1`. */
    method ScheduleDueSteps(now: real) returns (slots: seq<Slot>, played: seq<Trigger>, events: seq<Event>)
      requires Valid() && bpm > 0.0
      modifies this
      ensures Valid()
      ensures isPlaying == old(isPlaying) && timerArmed == old(timerArmed)
      ensures pattern == old(pattern) && bpm == old(bpm) && feel == old(feel)
      ensures stepListener == old(stepListener) && barListener == old(barListener)
      ensures ScheduledUpTo(slots, old(currentStep), old(nextStepTime), now)
      ensures played == SlotTriggers(pattern, bpm, feel, slots)
      ensures events == SlotEvents(slots, |pattern|, stepListener, barListener)
    {
      slots, played, events := [], [], [];
      var start, startTime := currentStep, nextStepTime;
      ghost var steps, tempo, groove, onStep, onBar := pattern, bpm, feel, stepListener, barListener;
      var horizon := now + ScheduleAheadTime;
      var d := StepDuration(bpm);
      ghost var bound := StepsToReach(startTime, d, horizon);
      while nextStepTime < horizon
        invariant Valid() && isPlaying == old(isPlaying) && timerArmed == old(timerArmed)
        invariant pattern == steps && bpm == tempo && feel == groove
        invariant stepListener == onStep && barListener == onBar
        invariant nextStepTime == SlotTime(startTime, |slots|, d)
        invariant currentStep == IndexAfter(start, |slots|, |steps|)
        invariant DueSlots(slots, start, startTime, d, horizon, |steps|)
        invariant played == SlotTriggers(steps, tempo, groove, slots)
        invariant events == SlotEvents(slots, |steps|, onStep, onBar)
        invariant |slots| <= bound
        decreases bound - |slots|
      {
        DueBeforeBound(startTime, d, |slots|, bound, horizon);
        var slot := Slot(currentStep, nextStepTime);
        var stepTriggers := ScheduleStep(currentStep, nextStepTime);
        var stepEvents := AdvanceStep();
        SlotTriggersExtend(steps, tempo, groove, slots, slot);
        SlotEventsExtend(slots, slot, |steps|, onStep, onBar);
        AppendSlot(slots, slot, start, startTime, d, horizon, |steps|);
        slots := slots + [slot];
        played := played + stepTriggers;
        events := events + stepEvents;
      }
    }

    /** `start`: stops any running playback, installs the pattern and tempo,
        restarts at index 0 at the clock's time, and runs the loop once. */
    method Start(newPattern: seq<Step>, newBpm: real, now: real) returns (slots: seq<Slot>, played: seq<Trigger>, events: seq<Event>)
      requires Valid() && newBpm > 0.0
      modifies this
      ensures Valid() && isPlaying && timerArmed
      ensures pattern == newPattern && bpm == newBpm && feel == old(feel)
      ensures ScheduledUpTo(slots, 0, now, now)
      ensures |slots| > 0 && slots[0] == Slot(0, now)
      ensures played == SlotTriggers(pattern, bpm, feel, slots)
      ensures events == SlotEvents(slots, |pattern|, stepListener, barListener)
      ensures stepListener == old(stepListener) && barListener == old(barListener)
    {
      if isPlaying {
        Stop();
      }
      pattern := newPattern;
      bpm := newBpm;
      currentStep := 0;
      nextStepTime := now;
      isPlaying := true;
      slots, played, events := ScheduleLoop(now);
    }

    /** The `playing` getter. */
    method Playing() returns (playing: bool)
      ensures playing == isPlaying
    {
      playing := isPlaying;
    }
  }

  lemma SlotTriggersExtend(pattern: seq<Step>, bpm: real, feel: Feel, slots: seq<Slot>, slot: Slot)
    requires bpm > 0.0
    ensures SlotTriggers(pattern, bpm, feel, slots + [slot])
      == SlotTriggers(pattern, bpm, feel, slots) + StepTriggers(pattern, bpm, feel, slot.stepIndex, slot.time)
  {
    assert (slots + [slot])[..|slots|] == slots;
  }

  lemma SlotEventsExtend(slots: seq<Slot>, slot: Slot, length: nat, stepListener: bool, barListener: bool)
    ensures SlotEvents(slots + [slot], length, stepListener, barListener)
      == SlotEvents(slots, length, stepListener, barListener)
         + AdvanceEvents(NextIndex(slot.stepIndex, length), stepListener, barListener)
  {
    assert (slots + [slot])[..|slots|] == slots;
  }

  /** Slot `j` holds the index after `j` advances from `start` at the
      `j`-th slot time from `startTime`, and every slot lies before `horizon`. */
  predicate DueSlots(slots: seq<Slot>, start: nat, startTime: real, d: real, horizon: real, length: nat) {
    forall j :: 0 <= j < |slots| ==>
      slots[j] == Slot(IndexAfter(start, j, length), SlotTime(startTime, j, d)) && slots[j].time < horizon
  }

  /** Appending the slot at the current index and time keeps `DueSlots`. */
  lemma AppendSlot(slots: seq<Slot>, slot: Slot, start: nat, startTime: real, d: real, horizon: real, length: nat)
    requires DueSlots(slots, start, startTime, d, horizon, length)
    requires slot == Slot(IndexAfter(start, |slots|, length), SlotTime(startTime, |slots|, d)) && slot.time < horizon
    ensures DueSlots(slots + [slot], start, startTime, d, horizon, length)
  {
  }

  /** The start time of the `k`-th slot after one at `t`, `d` apart. */
  function SlotTime(t: real, k: nat, d: real): real {
    if k == 0 then t else SlotTime(t, k - 1, d) + d
  }

  lemma {:induction false} SlotTimeIsLinear(t: real, k: nat, d: real)
    ensures SlotTime(t, k, d) == t + k as real * d
  {
    if k > 0 {
      SlotTimeIsLinear(t, k - 1, d);
    }
  }

  /** Slot times strictly increase with the slot number. */
  lemma {:induction false} SlotTimeIncreases(t: real, i: nat, j: nat, d: real)
    requires d > 0.0 && i < j
    ensures SlotTime(t, i, d) < SlotTime(t, j, d)
  {
    if i < j - 1 {
      SlotTimeIncreases(t, i, j - 1, d);
    }
  }

  /** A number of slots after which the time has reached `horizon`. */
  function StepsToReach(t: real, d: real, horizon: real): (k: nat)
    requires d > 0.0
    ensures SlotTime(t, k, d) >= horizon
  {
    if horizon <= t then 0
    else
      var k := ((horizon - t) / d).Floor + 1;
      SlotTimeIsLinear(t, k, d);
      assert (horizon - t) / d * d == horizon - t;
      assert k as real * d >= (horizon - t) / d * d;
      k
  }

  /** A slot that is still due comes before any slot that has reached the
      horizon. */
  lemma DueBeforeBound(t: real, d: real, k: nat, bound: nat, horizon: real)
    requires d > 0.0 && SlotTime(t, k, d) < horizon <= SlotTime(t, bound, d)
    ensures k < bound
  {
    if k >= bound {
      if k > bound {
        SlotTimeIncreases(t, bound, k, d);
      }
    }
  }


  /** For hits whose symbols all belong to the alphabet, `scheduleStep`
      plays exactly one trigger per hit, in hit order, at the step time plus
      the hit's own offset plus the feel offset, with the hit's velocity. */
  lemma {:induction false} OneTriggerPerHit(hits: seq<Hit>, time: real, feelOffset: real)
    requires forall j :: 0 <= j < |hits| ==> DrumConstants.IsValidDrumSymbol(hits[j].symbol)
    ensures var r := HitTriggers(hits, time, feelOffset);
      && |r| == |hits|
      && forall j :: 0 <= j < |hits| ==>
           hits[j].symbol in DrumConstants.SpriteMap
           && r[j] == Trigger(DrumConstants.SpriteMap[hits[j].symbol], time + hits[j].offset + feelOffset, hits[j].velocity)
  {
    if |hits| > 0 {
      var init := hits[..|hits| - 1];
      OneTriggerPerHit(init, time, feelOffset);
      DrumConstants.SpriteMapCoversAlphabet(hits[|hits| - 1].symbol);
    }
  }

  /** A rest, an empty step or an empty pattern plays nothing; a sounding
      step of valid symbols plays one trigger per hit, shifted by the feel
      offset of its index. */
  lemma StepTriggersShape(pattern: seq<Step>, bpm: real, feel: Feel, stepIndex: nat, time: real)
    requires bpm > 0.0
    ensures |pattern| == 0 ==> StepTriggers(pattern, bpm, feel, stepIndex, time) == []
    ensures |pattern| > 0 ==>
      var step := pattern[stepIndex % |pattern|];
      var r := StepTriggers(pattern, bpm, feel, stepIndex, time);
      && (step.isRest || |step.hits| == 0 ==> r == [])
      && (!step.isRest && (forall j :: 0 <= j < |step.hits| ==> DrumConstants.IsValidDrumSymbol(step.hits[j].symbol)) ==>
            var offset := FeelProcessor.GetTimingOffset(stepIndex, StepDuration(bpm), feel);
            |r| == |step.hits|
            && forall j :: 0 <= j < |step.hits| ==> r[j].when == time + step.hits[j].offset + offset)
  {
    if |pattern| > 0 {
      var step := pattern[stepIndex % |pattern|];
      var offset := FeelProcessor.ApplyFeel(stepIndex, StepDuration(bpm), feel);
      FeelProcessor.ApplyFeelIsTimingOffset(stepIndex, StepDuration(bpm), feel);
      if !step.isRest && (forall j :: 0 <= j < |step.hits| ==> DrumConstants.IsValidDrumSymbol(step.hits[j].symbol)) {
        OneTriggerPerHit(step.hits, time, offset);
      }
    }
  }

  /** The slots of one loop run are in strictly increasing time order, one
      sixteenth apart, and the first is the old next-step time. */
  lemma ScheduledInOrder(s: Scheduler, slots: seq<Slot>, start: nat, startTime: real, now: real)
    requires s.bpm > 0.0 && s.ScheduledUpTo(slots, start, startTime, now)
    ensures forall i, j :: 0 <= i < j < |slots| ==> slots[i].time < slots[j].time
    ensures forall j :: 0 <= j < |slots| - 1 ==> slots[j + 1].time == slots[j].time + StepDuration(s.bpm)
    ensures |slots| > 0 ==> slots[0].time == startTime
  {
    var d := StepDuration(s.bpm);
    forall i, j | 0 <= i < j < |slots|
      ensures slots[i].time < slots[j].time
    {
      SlotTimeIncreases(startTime, i, j, d);
    }
  }

  /** The bar callback fires after an advance exactly when the new index
      starts a bar, with that bar's number; in particular on every wrap to 0.
      The step callback always receives the new index. */
  lemma BarCallbackRule(newStep: nat, stepListener: bool, bar: nat)
    ensures BarBoundary(bar) in AdvanceEvents(newStep, stepListener, true)
      <==> newStep % StepsPerBar == 0 && bar == newStep / StepsPerBar
    ensures BarBoundary(0) in AdvanceEvents(0, stepListener, true)
    ensures stepListener ==> AdvanceEvents(newStep, stepListener, true)[0] == StepChanged(newStep)
    ensures forall e :: e in AdvanceEvents(newStep, stepListener, false) ==> e == StepChanged(newStep)
  {
  }
}
