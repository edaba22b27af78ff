/** Migration of persisted state from schema V1 (patterns keyed by the letters
    A..D) to schema V2 (an array of numbered patterns) (src/store/migrations.ts).
    The stored state is untyped JSON, so the datatypes below say which shapes a
    member may take; a member the stored object lacks is `None`. */
module Migrations {
  import opened Wrappers
  import opened DrumTypes
  import PatternHelpers

  /** The members of a stored pattern object other than its id. */
  datatype PatternFields = PatternFields(text: Option<string>, steps: Option<seq<Step>>, bars: Option<int>)

  /** Spreading a missing pattern (`{...undefined}`) contributes no member. */
  const NoFields := PatternFields(None, None, None)

  /** A V2 pattern: a number and the remaining members. */
  datatype NumberedPattern = NumberedPattern(id: int, fields: PatternFields)

  /** The `patterns` member of a stored set: absent, the V1 record keyed by
      letter, or the V2 array. */
  datatype StoredPatterns =
    | Absent
    | Keyed(entries: map<PatternLetter, PatternFields>)
    | Listed(items: seq<NumberedPattern>)

  datatype StoredSet = StoredSet(
    id: string, name: string, patterns: StoredPatterns,
    bpm: real, feel: Feel, humanize: real, density: real, volume: real,
    selectedKit: Option<string>, version: Option<int>)

  /** A stored pattern reference: V1 holds letters, V2 numbers; `nextPattern`
      may be `null`, and a failed lookup yields `undefined`. */
  datatype PatternRef = Null | Undefined | Letter(letter: PatternLetter) | Number(n: int)

  datatype StoredPlayback = StoredPlayback(
    isPlaying: bool, currentPattern: PatternRef, nextPattern: PatternRef,
    currentBar: int, currentStep: int, fillActive: bool, fillContinuous: bool)

  /** `sidebarOpen` is the `ui` member the migration writes. */
  datatype StoredState = StoredState(
    currentSet: StoredSet, playback: StoredPlayback,
    savedSets: Option<seq<StoredSet>>, sidebarOpen: Option<bool>)

  /** JavaScript truthiness of a pattern reference. */
  predicate Truthy(ref: PatternRef) {
    match ref
    case Null => false
    case Undefined => false
    case Letter(_) => true
    case Number(n) => n != 0
  }

  /** A set is V1 when it has no (or a zero) version and its patterns are a
      record with key A. */
  predicate IsV1DrumSet(s: StoredSet) {
    (s.version.None? || s.version == Some(0)) && s.patterns.Keyed? && A in s.patterns.entries
  }

  function PatternLetterToNumber(letter: PatternLetter): (n: int)
    ensures 1 <= n <= 4
  {
    match letter
    case A => 1
    case B => 2
    case C => 3
    case D => 4
  }

  /** Looking a stored reference up in the letter table: anything but a
      letter misses and yields `undefined`. */
  function LookupPatternNumber(ref: PatternRef): (r: PatternRef)
    ensures ref.Letter? ==> r == Number(PatternLetterToNumber(ref.letter))
    ensures !ref.Letter? ==> r == Undefined
  {
    match ref
    case Letter(l) => Number(PatternLetterToNumber(l))
    case _ => Undefined
  }

  /** The members of the V1 pattern stored under `letter`. */
  function FieldsOf(entries: map<PatternLetter, PatternFields>, letter: PatternLetter): PatternFields {
    if letter in entries then entries[letter] else NoFields
  }

  function MigrateDrumSetV1toV2(oldSet: StoredSet): (r: StoredSet)
    requires oldSet.patterns.Keyed?
    ensures r.patterns.Listed? && |r.patterns.items| == 4
    ensures forall l: PatternLetter ::
              r.patterns.items[PatternLetterToNumber(l) - 1]
              == NumberedPattern(PatternLetterToNumber(l), FieldsOf(oldSet.patterns.entries, l))
    ensures r.version == Some(2) && r.selectedKit == Some("kit-default")
    ensures r.(patterns := oldSet.patterns, selectedKit := oldSet.selectedKit, version := oldSet.version) == oldSet
    ensures !IsV1DrumSet(r)
  {
    var entries := oldSet.patterns.entries;
    var patterns := [
      NumberedPattern(1, FieldsOf(entries, A)),
      NumberedPattern(2, FieldsOf(entries, B)),
      NumberedPattern(3, FieldsOf(entries, C)),
      NumberedPattern(4, FieldsOf(entries, D))
    ];
    oldSet.(patterns := Listed(patterns), selectedKit := Some("kit-default"), version := Some(2))
  }

  function MigratePlaybackStateV1toV2(oldPlayback: StoredPlayback): (r: StoredPlayback)
    ensures r.currentPattern == LookupPatternNumber(oldPlayback.currentPattern)
    ensures Truthy(oldPlayback.nextPattern) ==> r.nextPattern == LookupPatternNumber(oldPlayback.nextPattern)
    ensures !Truthy(oldPlayback.nextPattern) ==> r.nextPattern == Null
    ensures r.(currentPattern := oldPlayback.currentPattern, nextPattern := oldPlayback.nextPattern) == oldPlayback
  {
    oldPlayback.(
      currentPattern := LookupPatternNumber(oldPlayback.currentPattern),
      nextPattern := if Truthy(oldPlayback.nextPattern) then LookupPatternNumber(oldPlayback.nextPattern) else Null)
  }

  /** One saved set as the migration's `.map` rewrites it. */
  function MigrateSavedSet(s: StoredSet): (r: StoredSet)
    ensures !IsV1DrumSet(r)
    ensures !IsV1DrumSet(s) ==> r == s
  {
    if IsV1DrumSet(s) then MigrateDrumSetV1toV2(s) else s
  }

  /** `savedSets.map(...)`: the sets rewritten one by one, in order. */
  function MigrateSavedSets(sets: seq<StoredSet>): (r: seq<StoredSet>)
    ensures |r| == |sets|
    ensures forall i :: 0 <= i < |sets| ==> r[i] == MigrateSavedSet(sets[i])
  {
    if |sets| == 0 then []
    else [MigrateSavedSet(sets[0])] + MigrateSavedSets(sets[1..])
  }

  function MigrateStateV1toV2(oldState: StoredState): (r: StoredState)
    ensures !IsV1DrumSet(oldState.currentSet) ==> r == oldState
    ensures IsV1DrumSet(oldState.currentSet) ==>
      && r.currentSet == MigrateDrumSetV1toV2(oldState.currentSet)
      && r.playback == MigratePlaybackStateV1toV2(oldState.playback)
      && r.savedSets == Some(MigrateSavedSets(oldState.savedSets.GetOr([])))
      && r.sidebarOpen == Some(true)
    ensures !IsV1DrumSet(r.currentSet)
    ensures IsV1DrumSet(oldState.currentSet) ==>
      forall i :: 0 <= i < |r.savedSets.value| ==> !IsV1DrumSet(r.savedSets.value[i])
  {
    if !IsV1DrumSet(oldState.currentSet) then oldState
    else
      oldState.(
        currentSet := MigrateDrumSetV1toV2(oldState.currentSet),
        savedSets := Some(MigrateSavedSets(oldState.savedSets.GetOr([]))),
        playback := MigratePlaybackStateV1toV2(oldState.playback),
        sidebarOpen := Some(true))
  }

  /** The letters map to 1..4 in order, and distinct letters to distinct
      numbers. */
  lemma LetterNumbering(a: PatternLetter, b: PatternLetter)
    ensures PatternLetterToNumber(A) == 1 && PatternLetterToNumber(B) == 2
    ensures PatternLetterToNumber(C) == 3 && PatternLetterToNumber(D) == 4
    ensures PatternLetterToNumber(a) == PatternLetterToNumber(b) <==> a == b
  {
  }

  /** After migration, looking a pattern up by its new number finds the
      pattern the letter used to name. */
  lemma MigratedPatternsFoundByNumber(oldSet: StoredSet, letter: PatternLetter)
    requires oldSet.patterns.Keyed?
    ensures PatternHelpers.GetPatternById(
              MigrateDrumSetV1toV2(oldSet).patterns.items, (p: NumberedPattern) => p.id,
              PatternLetterToNumber(letter))
            == Some(NumberedPattern(PatternLetterToNumber(letter), FieldsOf(oldSet.patterns.entries, letter)))
  {
    var items := MigrateDrumSetV1toV2(oldSet).patterns.items;
    var n := PatternLetterToNumber(letter);
    assert items[n - 1].id == n;
    assert forall j :: 0 <= j < n - 1 ==> items[j].id == j + 1 by {
      assert items[0].id == 1 by { assert items[PatternLetterToNumber(A) - 1].id == 1; }
      assert items[1].id == 2 by { assert items[PatternLetterToNumber(B) - 1].id == 2; }
      assert items[2].id == 3 by { assert items[PatternLetterToNumber(C) - 1].id == 3; }
    }
  }

  /** A playback state of schema V1 (a letter, and a letter or null queued)
      migrates to numbers 1..4 and null. */
  lemma V1PlaybackGetsNumbers(oldPlayback: StoredPlayback)
    requires oldPlayback.currentPattern.Letter?
    requires oldPlayback.nextPattern.Letter? || oldPlayback.nextPattern == Null
    ensures var r := MigratePlaybackStateV1toV2(oldPlayback);
      && r.currentPattern.Number? && 1 <= r.currentPattern.n <= 4
      && (oldPlayback.nextPattern == Null ==> r.nextPattern == Null)
      && (oldPlayback.nextPattern.Letter? ==>
            r.nextPattern == Number(PatternLetterToNumber(oldPlayback.nextPattern.letter)))
  {
  }

  /** Migrating twice is migrating once. */
  lemma MigrationIdempotent(oldState: StoredState)
    ensures MigrateStateV1toV2(MigrateStateV1toV2(oldState)) == MigrateStateV1toV2(oldState)
  {
  }
}
