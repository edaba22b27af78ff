# drum-companion: a verified model of the rhythm engine

drum-companion is a text-driven drum machine. A pattern is written as
whitespace-separated tokens (`k h s h`, `kh . sh .`). `.` is a rest, and every
other token is one step holding one hit per drum symbol. This project models
the engine behind that notation in Dafny:

- **Parser and alphabet.** The parser (`parsePattern`, `calculateBars`) and
  the 18-symbol alphabet with its sprite table.
- **Note-shaping transforms.** Swing and shuffle feel, humanize jitter, and
  density ghost notes from a per-bar seeded generator. Also fills that
  rewrite the tail of a pattern.
- **Lookahead scheduler.** A class whose methods update its fields in place.
  The audio clock is a parameter; the samples it plays and the callbacks it
  invokes are output lists.
- **Store reducers.** Pattern text, set properties, queued pattern switches,
  and saved sets.
- **Migration.** The persisted-state migration from lettered patterns (V1) to
  numbered patterns (V2).
- **Small helpers.** The key ↔ pattern-number helpers, the pattern-length
  validator of the pattern editor, and tap-tempo arithmetic.

Modules follow the source files:

| module | source |
|---|---|
| `DrumTypes` | `src/types/pattern.ts` |
| `DrumConstants` | `src/parser/constants.ts` |
| `PatternParser` | `src/parser/parsePattern.ts` |
| `FeelProcessor` | `src/engine/FeelProcessor.ts` |
| `HumanizeProcessor` | `src/engine/HumanizeProcessor.ts` |
| `DensityGenerator` | `src/engine/DensityGenerator.ts` |
| `FillGenerator` | `src/engine/FillGenerator.ts` |
| `StepScheduler` | `src/engine/Scheduler.ts` |
| `AppStore` | `src/store/useAppStore.ts` |
| `Migrations` | `src/store/migrations.ts` |
| `PatternHelpers` | `src/utils/patternHelpers.ts` |
| `PatternInputValidation` | `src/components/PatternEditor/PatternInput.tsx` |
| `TapTempo` | `src/components/TopBar/BPMControl.tsx` and `src/components/Transport/TransportControls.tsx` |

Three support modules carry no source file of their own:

- `Wrappers` holds `Option` and `Result`.
- `JsText` holds the JavaScript string built-ins the core relies on:
  - the `\s` whitespace class
  - `parseInt(s, 10)`
  - integer-to-decimal rendering
- `DrumTypes` also holds `JsRem`, which models JavaScript's truncating `%`.

Modelling choices:

- **Imperative code stays imperative.**
  - `parsePattern` is a method with the source's two loops, proved equal to a
    specification function `Parse`.
  - The loop of `generateFill` is a method proved equal to a rewrite
    function.
  - The tap-interval loop is a method.
  - The scheduler is a `class` whose methods have `modifies` clauses. The
    lookahead `while` loop carries invariants that tie every scheduled slot,
    trigger and callback to functions of the starting state.
- **Pure code is functions.** The store reducers and the migration are
  functions from state to state.
- **Randomness is made explicit.**
  - The density generator's mutable closure is threaded explicitly as an
    `Rng` value, in the source's draw order.
  - Humanize takes its `Math.random()` draws as parameters.
- **Numbers.**
  - Times, velocities, tempo and density are reals.
  - `Math.round` is `floor(x + 0.5)`.
- **Where the notation disagrees, the code wins.**
  - The alphabet is taken from `src/parser/constants.ts`, which includes
    `x`, `B`, `p`, `w`, `m`, `S`, `C`, `a` and `A`. It is not taken from the
    narrower `DrumSymbol` type union.
  - The parser test at `src/parser/parsePattern.test.ts:35-38` still expects
    `x` to be rejected. The model follows the code, where `x` is a valid
    closed hi-hat: `PatternParser.ParseAcceptsX`.

## Model

| member | source | states |
|---|---|---|
| DrumConstants.ValidSymbolsExactly | src/parser/constants.ts:7-17 | `isValidDrumSymbol(c)` holds exactly when `c` is in the listed alphabet |
| DrumConstants.AlphabetIsEighteenDistinctSymbols | src/parser/constants.ts:7-12 | the alphabet has 18 distinct symbols; `.` and `L` are not symbols |
| DrumConstants.SpriteMapCoversAlphabet | src/parser/constants.ts:20-39 | a symbol has a sprite exactly when it is valid, so a parsed hit never takes the scheduler's "no sprite mapping" skip |
| DrumConstants.SpriteAliasesAndCase | src/parser/constants.ts:20-39 | `k`/`B` are both kick and `h`/`x` both closed hat; `c`/`C`, `t`/`T` and `s`/`S` name different drums |
| DrumConstants.SymbolIsNotWhitespace | src/parser/constants.ts:7-12 | no drum symbol is whitespace, so a symbol never splits a token |
| PatternParser.ParsePattern | src/parser/parsePattern.ts:24-59 | the method with the token loop and the character loop returns exactly `Parse(text)`: all steps, or the first error with no partial list |
| PatternParser.ParseHits | src/parser/parsePattern.ts:42-53 | the character loop yields the token's hits, or the error for its first invalid character |
| PatternParser.ParseMeaning | src/parser/parsePattern.ts:26-58 | blank text gives no steps; parsing succeeds iff every token is `.` or only drum symbols; then there is one step per token, each the step that token stands for; an error names an invalid character and the token holding it |
| PatternParser.ParseTokenMeaning | src/parser/parsePattern.ts:36-55 | `.` is a rest with no hits; another token gives one hit per character, in order, at velocity 0.8 and offset 0; an error names the first invalid character and its token |
| PatternParser.ParseTokensMeaning | src/parser/parsePattern.ts:34-56 | the token loop succeeds iff every token is accepted, giving one step per token in order |
| PatternParser.TokenHitsOk | src/parser/parsePattern.ts:43-53 | the first `n` characters give hits iff all are valid symbols, and then exactly one default hit per character |
| PatternParser.TokenHitsErr | src/parser/parsePattern.ts:44-46 | a failing token reports itself and one of its invalid characters |
| PatternParser.ErrorPersists | src/parser/parsePattern.ts:44-46 | once a token fails, the whole parse is that error: later tokens cannot change it |
| PatternParser.TokensEmptyIffBlank | src/parser/parsePattern.ts:26-31 | the text has no tokens exactly when it is empty or all whitespace |
| PatternParser.TokensAreWords | src/parser/parsePattern.ts:31 | every token is non-empty and holds no whitespace |
| PatternParser.TokensSplitAtBlank | src/parser/parsePattern.ts:31 | splitting the text just before a whitespace character splits its token list the same way |
| PatternParser.RepeatedWhitespaceAddsNoToken | src/parser/parsePattern.ts:31 | a run of two whitespace characters yields the same tokens as one, so repeated spaces add no steps |
| PatternParser.TokensOfJoinedWords | src/parser/parsePattern.ts:31 | words joined by single spaces split back into exactly those words |
| PatternParser.ParsedStepsWellFormed | src/parser/parsePattern.ts:36-55 | every parsed step rests iff it has no hits, and every hit is a valid symbol at velocity 0.8 and offset 0 |
| PatternParser.CalculateBars | src/parser/parsePattern.ts:65-68 | the bar count is the least `b` with `16·b ≥ stepCount`, i.e. `ceil(n/16)` |
| PatternParser.CalculateBarsExamples | src/parser/parsePattern.ts:65-68 | 0→0, 1→1, 8→1, 16→1, 17→2, 32→2, 48→3 |
| PatternParser.ParseBlankExamples | src/parser/parsePattern.ts:26-28 | `""` and `"   "` parse to the empty list, not an error |
| PatternParser.ParseAcceptsX | src/parser/parsePattern.ts:43-53 | `"k x s"` parses: `x` is in the alphabet |
| PatternParser.TokensOfXExample | src/parser/parsePattern.ts:31 | `"k x s"` splits into the tokens `k`, `x`, `s` |
| FeelProcessor.GetTimingOffset | src/engine/FeelProcessor.ts:24-52 | straight gives 0; steps not at position 2 (mod 4) of a bar give 0; otherwise swing gives 0.15 and shuffle 0.25 of the step duration |
| FeelProcessor.ApplyFeelIsTimingOffset | src/engine/FeelProcessor.ts:58-64 | `applyFeel` equals `getTimingOffset` on every input |
| FeelProcessor.TimingOffsetPeriodic | src/engine/FeelProcessor.ts:35-36 | for non-negative indices the offset repeats every 4 steps |
| FeelProcessor.TimingOffsetBounds | src/engine/FeelProcessor.ts:29-51 | the offset lies between 0 and a quarter of the step duration |
| FeelProcessor.NegativeIndexNotPeriodic | src/engine/FeelProcessor.ts:35-36 | with JavaScript's truncating `%`, index -2 is not an offbeat although 2 is |
| HumanizeProcessor.GetTimingJitter | src/engine/HumanizeProcessor.ts:22-30 | no jitter when humanize ≤ 0; otherwise, for a draw in [0,1), `|jitter| ≤ 0.020·min(1, humanize)` |
| HumanizeProcessor.VelocityMultiplier | src/engine/HumanizeProcessor.ts:42-45 | the multiplier lies in `[1 − 0.4·min(1,h), 1 + 0.4·min(1,h)]` |
| HumanizeProcessor.ApplyVelocityJitter | src/engine/HumanizeProcessor.ts:38-50 | with humanize ≤ 0 the velocity is returned unchanged, even outside [0.1, 1]; otherwise it always lies in [0.1, 1], equal to the scaled velocity when that is in range |
| HumanizeProcessor.ApplyHumanize | src/engine/HumanizeProcessor.ts:58-66 | no humanize leaves timing 0 and velocity unchanged; otherwise both parts keep their bounds |
| HumanizeProcessor.ApplyHumanizeIsPair | src/engine/HumanizeProcessor.ts:58-66 | the result is exactly the pair of the jitter and velocity functions' results |
| DensityGenerator.SeedRng | src/engine/DensityGenerator.ts:147-149 | the seeded state is a 32-bit value and never 0 |
| DensityGenerator.Next | src/engine/DensityGenerator.ts:151-155 | one LCG step modulo 2^32; the draw `(state>>>16)/32768` lies in [0, 2), not [0, 1) |
| DensityGenerator.GuaranteedPeriod | src/engine/DensityGenerator.ts:62-64 | the forced-ghost-note period is at least 2 |
| DensityGenerator.GuaranteedPeriodExamples | src/engine/DensityGenerator.ts:62-64 | density 1.0 forces every 4th rest and density 0.5 every 8th |
| DensityGenerator.MaybeAddGhostNote | src/engine/DensityGenerator.ts:56-97 | a rest is kept or becomes one ghost note; in a guaranteed slot it always becomes one. A ghost note is a single `h` (or `r` on even positions), offset 0, velocity in [0.5, 0.7), and not a rest |
| DensityGenerator.MaybeAddExtraLayer | src/engine/DensityGenerator.ts:102-141 | a sounding step is kept, or (only at density ≥ 0.4 and without `h`/`H`/`r`) gains exactly one appended `h` at velocity 0.5 and offset 0 |
| DensityGenerator.ShapeStep | src/engine/DensityGenerator.ts:37-46 | each step is derived from the step at its own index only, in the ways above |
| DensityGenerator.ShapeFrom | src/engine/DensityGenerator.ts:37-46 | the `.map` keeps the length, and output `i` is derived from input `i` |
| DensityGenerator.GenerateWithDensity | src/engine/DensityGenerator.ts:25-47 | density ≤ 0 returns the input; otherwise the length is kept and every step is derived from its own input step; the output is a function of `(steps, density, barIndex)` alone |
| DensityGenerator.SkippedDensityIsIdentity | src/engine/DensityGenerator.ts:162-164 | when `shouldApplyDensity` is false (`density ≤ 0` or no steps) generation is the identity |
| DensityGenerator.GeneratedBarShape | src/engine/DensityGenerator.ts:56-141 | rests in guaranteed slots sound; steps with a hat or ride, and all sounding steps below 0.4, are untouched; a changed sounding step keeps its hits as a prefix and gains one soft `h` |
| FillGenerator.CeilDiv | src/engine/FillGenerator.ts:124 | `Math.ceil(a/b)` is the least `q` with `b·q ≥ a` |
| FillGenerator.KeepSymbols | src/engine/FillGenerator.ts:76 | the result holds only hits of the input with a kept symbol, and every such hit |
| FillGenerator.KeepSymbolsSingle | src/engine/FillGenerator.ts:76 | a single hit survives exactly when its symbol is kept |
| FillGenerator.KeepSymbolsAppend | src/engine/FillGenerator.ts:76 | filtering a concatenation concatenates the filtered parts, so with the single-hit case the kept hits appear in their original order |
| FillGenerator.KeepSymbolsCounts | src/engine/FillGenerator.ts:76 | each hit with a kept symbol appears exactly as often as in the input, and no other hit appears |
| FillGenerator.FillStepKeeping | src/engine/FillGenerator.ts:69-87 | a generated fill step rests iff it has no hits |
| FillGenerator.FillAsWritten | src/engine/FillGenerator.ts:24-63 | the fill has as many steps as the input pattern |
| FillGenerator.GenerateFill | src/engine/FillGenerator.ts:24-63 | the method (copy, then overwrite the tail in a loop) returns exactly `FillAsWritten` |
| FillGenerator.OverwriteTail | src/engine/FillGenerator.ts:43-57 | the loop rewrites exactly the indices `pos ≤ i < min(L, |pattern|)` and keeps every other step |
| FillGenerator.FillTouchesOnlyTail | src/engine/FillGenerator.ts:30-62 | with at most one step left the pattern comes back unchanged without crash; otherwise a crash is requested and steps before `pos` or from `L` on are unchanged |
| FillGenerator.FillRewrittenStep | src/engine/FillGenerator.ts:69-87 | each rewritten step has the original `k` hits first and in order, then at most one fill hit, and rests iff it is empty |
| FillGenerator.FillHitsShape | src/engine/FillGenerator.ts:92-190 | every tier gives at most one hit: `s`, `T`, `t` or `f`, offset 0, velocity 0.765, 0.85 or 1.0 |
| FillGenerator.TierVoices | src/engine/FillGenerator.ts:92-190 | the tier is chosen by the total length (≤4 snare roll, ≤8 medium, ≤12 long, else full), with each tier's voice boundaries at its half, thirds or quarters |
| FillGenerator.FinalStepsAccented | src/engine/FillGenerator.ts:111-190 | the last step of every fill is an accented `s`; the one before is too, except in a fill of exactly 13 steps, where it is a mid tom |
| FillGenerator.FillEndsOnAccent | src/engine/FillGenerator.ts:24-63 | after a fill, the last step of the effective length ends with an accented snare |
| FillGenerator.CrashHit | src/engine/FillGenerator.ts:195-197 | the crash hit is `c`, a valid symbol whose sprite is the crash cymbal, at velocity 1.0 and offset 0 |
| FillGenerator.FillDropsAliasKick | src/engine/FillGenerator.ts:76 | as written, a kick written `B` is dropped from a rewritten step; the corrected fill keeps it |
| FillGenerator.ZeroLengthFillRequestsCrash | src/engine/FillGenerator.ts:30-40 | as written, length 0 returns the pattern with a crash requested; the corrected fill requests none |
| FillGenerator.KickSymbolsAreKickSprites | src/parser/constants.ts:20-22 | the kept symbols of the corrected fill are exactly the symbols whose sprite is the kick |
| FillGenerator.CorrectedFill | src/engine/FillGenerator.ts:24-63 | the corrected fill keeps the length, and a zero length returns the pattern without crash |
| FillGenerator.CorrectedFillCrashesOnlyAfterFill | src/engine/FillGenerator.ts:30-62 | the corrected fill requests a crash iff `L > 0` and at least two steps remain |
| FillGenerator.CorrectedFillKeepsEveryKick | src/engine/FillGenerator.ts:76-81 | in the corrected fill every kick of every step survives, whichever letter wrote it |
| StepScheduler.StepDuration | src/engine/Scheduler.ts:195-196 | a sixteenth note at a positive tempo is a positive duration |
| StepScheduler.NextIndex | src/engine/Scheduler.ts:204-209 | the advanced index is inside the pattern, or 0 |
| StepScheduler.IndexAfterWraps | src/engine/Scheduler.ts:204-209 | the index wraps to 0 exactly at the end and returns to its start after one pattern length |
| StepScheduler.Scheduler.constructor | src/engine/Scheduler.ts:20-27 | starts stopped at step 0, time 0, empty pattern, 120 BPM, straight, no timer, no callbacks |
| StepScheduler.Scheduler.Stop | src/engine/Scheduler.ts:61-71 | a no-op when stopped; afterwards not playing and no timer; nothing else changes |
| StepScheduler.Scheduler.SetBPM | src/engine/Scheduler.ts:76-78 | only `bpm` changes |
| StepScheduler.Scheduler.SetFeel | src/engine/Scheduler.ts:83-86 | only `feel` changes |
| StepScheduler.Scheduler.UpdatePattern | src/engine/Scheduler.ts:91-104 | an empty pattern changes nothing; otherwise the pattern is swapped and `currentStep` becomes 0 iff it no longer fits |
| StepScheduler.Scheduler.OnStep | src/engine/Scheduler.ts:109-111 | registers the step callback and changes nothing else |
| StepScheduler.Scheduler.OnBarBoundary | src/engine/Scheduler.ts:116-118 | registers the bar callback and changes nothing else |
| StepScheduler.Scheduler.GetCurrentBar | src/engine/Scheduler.ts:130-132 | the bar is `floor(currentStep/16)` |
| StepScheduler.Scheduler.ScheduleStep | src/engine/Scheduler.ts:153-187 | the hit loop plays exactly `StepTriggers`: nothing for an empty pattern or a rest, else one trigger per mapped hit |
| StepScheduler.Scheduler.AdvanceStep | src/engine/Scheduler.ts:192-223 | time advances by `60/bpm/4`; the index advances with wrap, keeping `0 ≤ currentStep < |pattern|`; the callbacks receive the new index and, at a bar start, `currentStep/16` |
| StepScheduler.Scheduler.ScheduleDueSteps | src/engine/Scheduler.ts:141-144 | the loop terminates; afterwards `nextStepTime ≥ now + 0.1`; slot `j` is the index after `j` advances at the `j`-th time, and all were due; triggers and callbacks are those of these slots |
| StepScheduler.Scheduler.ScheduleLoop | src/engine/Scheduler.ts:137-148 | stopped: nothing changes; playing: schedules the due steps and arms the timer |
| StepScheduler.Scheduler.Start | src/engine/Scheduler.ts:41-56 | stops first, installs pattern and tempo, restarts at step 0 at the clock's time, plays, and runs the loop, whose first slot is step 0 at `now` |
| StepScheduler.Scheduler.Playing | src/engine/Scheduler.ts:228-230 | reports `isPlaying` |
| StepScheduler.StepsToReach | src/engine/Scheduler.ts:141 | some finite number of steps reaches any horizon, which bounds the lookahead loop |
| StepScheduler.OneTriggerPerHit | src/engine/Scheduler.ts:171-186 | for valid symbols there is one trigger per hit, in order, at `time + hit.offset + feelOffset` with the hit's velocity |
| StepScheduler.StepTriggersShape | src/engine/Scheduler.ts:153-187 | an empty pattern, a rest or an empty step plays nothing; a sounding step plays one trigger per hit shifted by the feel offset of its index |
| StepScheduler.ScheduledInOrder | src/engine/Scheduler.ts:141-144 | the steps one loop run schedules are in strictly increasing time, one sixteenth apart, from the old next-step time |
| StepScheduler.BarCallbackRule | src/engine/Scheduler.ts:211-222 | the bar callback fires iff the new index is a multiple of 16, with `index/16`, so on every wrap to 0; the step callback gets the new index |
| AppStore.PatternSet.With | src/store/useAppStore.ts:94-100 | replacing one letter's pattern leaves the other three unchanged |
| AppStore.CreateDefaultPattern | src/store/useAppStore.ts:7-15 | a default pattern holds its text, the parse of it, and `ceil(steps/16)` bars |
| AppStore.DefaultTextsParse | src/store/useAppStore.ts:22-25 | each of the four default texts parses to 8 steps |
| AppStore.DefaultSetShape | src/store/useAppStore.ts:18-32 | the default set has patterns A–D parsed from their texts, 8 steps in 1 bar each, at 120 BPM, straight feel, humanize and density 0 |
| AppStore.SetPatternText | src/store/useAppStore.ts:88-113 | unparsable text leaves the whole state unchanged; otherwise only that pattern changes, to the text, its steps and bar count, with no length check |
| AppStore.SetBPM | src/store/useAppStore.ts:116-123 | only the set's tempo changes |
| AppStore.SetFeel | src/store/useAppStore.ts:125-132 | only the set's feel changes |
| AppStore.SetHumanize | src/store/useAppStore.ts:134-141 | only the set's humanize changes |
| AppStore.SetDensity | src/store/useAppStore.ts:143-150 | only the set's density changes |
| AppStore.SetVolume | src/store/useAppStore.ts:152-159 | only the set's volume changes |
| AppStore.SetPlaying | src/store/useAppStore.ts:162-169 | only the playing flag changes |
| AppStore.SwitchPattern | src/store/useAppStore.ts:171-192 | stopped: switch at once and clear the queue; playing: only queue it, the current pattern stays |
| AppStore.ApplyPendingPatternSwitch | src/store/useAppStore.ts:194-208 | a queued pattern becomes current and the queue clears; with nothing queued the state is unchanged |
| AppStore.ApplyPendingIdempotent | src/store/useAppStore.ts:194-208 | applying the pending switch twice equals applying it once |
| AppStore.SwitchThenApplyLands | src/store/useAppStore.ts:171-208 | a switch followed by the bar-boundary apply lands on the chosen pattern with nothing queued, playing or not |
| AppStore.LastQueuedSwitchWins | src/store/useAppStore.ts:184-190 | while playing, switches never change the sounding pattern and only the last is queued |
| AppStore.UpdatePlaybackState | src/store/useAppStore.ts:210-218 | only the step and bar counters change |
| AppStore.FindSet | src/store/useAppStore.ts:236 | returns the first saved set with the id, or nothing iff none has it |
| AppStore.LoadSet | src/store/useAppStore.ts:234-243 | an unknown id changes nothing; otherwise the first match becomes the current set |
| AppStore.WithoutId | src/store/useAppStore.ts:247 | the result has no set with the id, only sets from the input, and every input set without the id |
| AppStore.WithoutIdSingle | src/store/useAppStore.ts:247 | a single set survives exactly when its id differs |
| AppStore.WithoutIdAppend | src/store/useAppStore.ts:247 | filtering a concatenation concatenates the filtered parts, so with the single-set case the survivors keep their order |
| AppStore.WithoutIdCounts | src/store/useAppStore.ts:247 | a set without the id survives exactly as often as it occurs; a set with it never does |
| AppStore.DeleteSet | src/store/useAppStore.ts:245-249 | only the saved sets change: they become the in-order filter `WithoutId`, so none keeps the id and every other set survives in its order and multiplicity |
| AppStore.DeleteUnknownIdKeepsSets | src/store/useAppStore.ts:245-249 | deleting an id nobody has keeps the list, in order |
| AppStore.DeleteSetIdempotent | src/store/useAppStore.ts:245-249 | deleting twice equals deleting once |
| AppStore.SaveSet | src/store/useAppStore.ts:221-232 | appends a copy of the current set renamed, with id `set-<stamp>`; nothing else changes |
| AppStore.SaveThenLoad | src/store/useAppStore.ts:221-243 | loading a freshly saved set, whose id is new, restores the current set under its new id and name |
| AppStore.CreateNewSet | src/store/useAppStore.ts:251-255 | the current set becomes the default set; nothing else changes |
| Migrations.PatternLetterToNumber | src/store/migrations.ts:42-45 | letters map into 1..4 |
| Migrations.LetterNumbering | src/store/migrations.ts:42-45 | A→1, B→2, C→3, D→4, and the mapping is injective |
| Migrations.LookupPatternNumber | src/store/migrations.ts:42-45 | a letter gives its number; anything else misses the table |
| Migrations.MigrateDrumSetV1toV2 | src/store/migrations.ts:50-65 | four patterns in order A–D with ids 1–4 and the old members; version 2, kit `kit-default`; all other members unchanged; the result is no longer V1 |
| Migrations.MigratedPatternsFoundByNumber | src/store/migrations.ts:52-57 | looking up a migrated set by a letter's number finds the pattern stored under that letter |
| Migrations.MigratePlaybackStateV1toV2 | src/store/migrations.ts:70-80 | the current pattern is mapped; a truthy next pattern is mapped and a falsy one becomes null; other fields unchanged |
| Migrations.V1PlaybackGetsNumbers | src/store/migrations.ts:70-80 | a V1 playback state (letters, or null next) gets numbers 1..4 and null |
| Migrations.MigrateSavedSet | src/store/migrations.ts:100-102 | a V1 saved set is migrated and any other kept; the result is not V1 |
| Migrations.MigrateSavedSets | src/store/migrations.ts:100-102 | saved sets are mapped element-wise, keeping length and order |
| Migrations.MigrateStateV1toV2 | src/store/migrations.ts:86-129 | a non-V1 state is returned unchanged; a V1 state gets migrated set, playback and saved sets and `sidebarOpen`; afterwards no set is V1 |
| Migrations.MigrationIdempotent | src/store/migrations.ts:86-129 | migrating twice equals migrating once |
| PatternHelpers.KeyToPatternId | src/utils/patternHelpers.ts:10-15 | results lie in 1..10, and 10 comes exactly from key `0` |
| PatternHelpers.PatternIdToKey | src/utils/patternHelpers.ts:22-26 | a key exists iff the id is in 1..10, and it is a single digit |
| PatternHelpers.NumberedKeysExactly | src/utils/patternHelpers.ts:10-15 | a single-character key selects a pattern iff it is a digit, `1`–`9` selecting 1–9 |
| PatternHelpers.IdKeyRoundTrip | src/utils/patternHelpers.ts:10-26 | for ids 1..10, the id's key selects the id again |
| PatternHelpers.KeyIdRoundTrip | src/utils/patternHelpers.ts:10-26 | a single-character key that selects a pattern is that pattern's key |
| PatternHelpers.LeadingDigitSelects | src/utils/patternHelpers.ts:12-13 | `parseInt` reads leading digits, so key `3x` selects pattern 3 |
| PatternHelpers.ValidIdsHaveKeys | src/utils/patternHelpers.ts:31-33 | with at most ten patterns every valid id has a key that selects it |
| PatternHelpers.FirstIndexOf | src/utils/patternHelpers.ts:38-40 | finds the position of the first pattern with the id, or reports that none has it |
| PatternHelpers.GetPatternById | src/utils/patternHelpers.ts:38-40 | returns the first pattern whose id matches, or nothing iff none matches |
| PatternInputValidation.ValidatePattern | src/components/PatternEditor/PatternInput.tsx:36-60 | valid iff the parse succeeds with 2..64 steps, exactly when there is no message; a parse failure gives the error message and count 0; otherwise the count is the step count |
| PatternInputValidation.MessagesSpelledOut | src/components/PatternEditor/PatternInput.tsx:43-50 | the messages read "Too short (min 2)" and "Too long (max 64)" |
| PatternInputValidation.ValidationByTokens | src/components/PatternEditor/PatternInput.tsx:36-60 | in terms of tokens: valid iff all accepted and 2..64 of them; blank text is "Pattern is empty" with 0; one step is too short; over 64 is too long |
| TapTempo.Clamp | src/components/TopBar/BPMControl.tsx:52 | `max(lo, min(hi, x))` lies in range, is `x` when `x` is in range, and is `lo` when `lo > hi` |
| TapTempo.Round | src/components/TopBar/BPMControl.tsx:49 | the result is within half a unit of the input |
| TapTempo.RecentTaps | src/components/TopBar/BPMControl.tsx:33-36 | keeps the newest taps, at most 4, ending with the new tap, as a suffix of all taps |
| TapTempo.Intervals | src/components/TopBar/BPMControl.tsx:40-43 | the loop yields the consecutive differences of the taps |
| TapTempo.IntervalsTelescope | src/components/TopBar/BPMControl.tsx:40-46 | the intervals sum to last minus first tap |
| TapTempo.BpmOfMeanInterval | src/components/TopBar/BPMControl.tsx:49-52 | the tempo lies in [min, max], and is `max` for a zero mean interval |
| TapTempo.HandleTapTempo | src/components/TopBar/BPMControl.tsx:24-63 | keeps at most 4 taps ending with `now`; reports a tempo iff at least 2 are kept, and then it is `round(60000·(n−1)/(last−first))` clamped into range |
| TapTempo.TransportTapTempo | src/components/Transport/TransportControls.tsx:33-72 | the same with the fixed range 40..240; a tempo iff a previous tap exists |
| TapTempo.SteadyTapsReportTheirTempo | src/components/TopBar/BPMControl.tsx:40-52 | taps a steady `gap` apart report `round(60000/gap)` when in range |
| TapTempo.CommitTypedBpm | src/components/TopBar/BPMControl.tsx:85-92 | a number is emitted iff the text parses, clamped into range, and unchanged when already in range |
| TapTempo.EscapeEditText | src/components/TopBar/BPMControl.tsx:97-100 | the restored text reads back as the current value |
| TapTempo.EscapeThenCommit | src/components/TopBar/BPMControl.tsx:85-100 | committing the restored text re-emits the current in-range value |

## Left out

- **Audio output.** Sample loading, the Web Audio graph and the `AudioEngine`
  wrapper are not part of this model. `playSample` calls are the scheduler's
  output `Trigger` list.
- **The audio clock.** `context.currentTime` is the parameter `now`, fixed
  for one run of the lookahead loop.
- **Timers.**
  - The scheduler's `setTimeout` cadence is the boolean `timerArmed`.
  - The tap-tempo reset after 2 seconds and the pattern editor's 500 ms
    debounce are not modelled.
  - `Date.now()` in the tap handlers is the parameter `now`.
- **Logging.** Console logging is dropped. This includes the migration's
  success and failure logs.
- StepScheduler.Scheduler.AdvanceStep: requires `bpm > 0`. The source
  divides by `bpm` without a guard, and a zero tempo is not modelled.
- StepScheduler.Scheduler.ScheduleDueSteps: requires `bpm > 0`. In the
  source a zero tempo makes the step duration `Infinity`: one step is
  scheduled, `nextStepTime` becomes `Infinity` and the loop exits. A negative
  tempo moves the time backwards and the loop never ends. The model
  represents neither case.
- **Unused values.**
  - `wasOnBarBoundary` in `advanceStep` is computed but never used.
  - `getCurrentStep` only reads a field.
  - The unused `positionInBar` argument of the fill functions is dropped.
- **JavaScript number effects.**
  - In the density generator, `state * 1103515245` is computed in doubles and
    loses precision above 2^53. The model uses exact arithmetic modulo 2^32
    instead, so specific ghost-note positions are not claimed.
  - Floating-point rounding in times and velocities is not modelled; they
    are reals.
- HumanizeProcessor.GetTimingJitter: the draw `Math.random()` is a parameter.
  The bounds are stated for draws in [0, 1).
- FillGenerator.GenerateFill: `currentStep` is a natural number. The source
  takes any number, and negative or fractional steps are not modelled.
- **Set identifiers.**
  - `saveSet` takes the `Date.now()` reading as the parameter `stamp`.
  - `createDefaultState` (in `src/store/migrations.ts`) draws a random UUID
    and is not modelled.
- **Persistence.** The zustand `persist` wrapper and localStorage are not
  modelled.
- Migrations.MigrateStateV1toV2: the stored state is modelled with its known
  members only.
  - Other JSON members are not carried.
  - A state whose `currentSet` is missing, which makes the source throw, is
    not represented.
  - The `catch` and rethrow path is not modelled.
- Migrations.MigrateDrumSetV1toV2: a V1 `version` that is falsy other than
  missing or 0 (such as `NaN`) is not represented.
- **Number inputs.**
  - The tempo text field and key handling read integers only.
  - Pattern numbers are integers. Fractional ids passed to `patternIdToKey`
    are not modelled.
- PatternInputValidation.ValidatePattern: only `ParseError` is thrown by the
  parser, so the `'Invalid'` fallback for non-`Error` values is not modelled.
- **React state.** Rendering, React state hooks and every component other
  than the modelled computations are left out.

## Findings

| source | as written | input that shows it | evidently intended | confidence | as-written member | corrected member |
|---|---|---|---|---|---|---|
| src/engine/FillGenerator.ts:76 | a fill keeps only hits whose symbol is `k` | a pattern whose first step is a kick written `B` (the alias `src/parser/constants.ts` maps to the same kick sprite), fill from step 0 of 3 | every kick survives the fill, as the file's own header promises ("keep kicks"), whichever letter wrote it | not executed | FillGenerator.FillDropsAliasKick | FillGenerator.CorrectedFillKeepsEveryKick |
| src/engine/FillGenerator.ts:30-40 | with an effective length of 0, `currentStep % 0` is NaN, so the no-fill guard fails, the loop does not run and a crash is requested | `generateFill(pattern, 0, 0)` | no fill and no crash when there is nothing to fill | not executed | FillGenerator.ZeroLengthFillRequestsCrash | FillGenerator.CorrectedFillCrashesOnlyAfterFill |
