/** The host's playback and pattern state (src/store/useAppStore.ts). Every
    action is a function from the state to the new state. */
module AppStore {
  import opened Wrappers
  import opened DrumTypes
  import opened PatternParser
  import JsText
  import DrumConstants

  /** One of the four patterns of a set: its text, the parsed steps and the
      number of bars they span. */
  datatype Pattern = Pattern(id: PatternLetter, text: string, steps: seq<Step>, bars: nat)

  /** The record of patterns keyed by letter. */
  datatype PatternSet = PatternSet(a: Pattern, b: Pattern, c: Pattern, d: Pattern) {
    function Get(id: PatternLetter): Pattern {
      match id
      case A => a
      case B => b
      case C => c
      case D => d
    }

    function With(id: PatternLetter, p: Pattern): (r: PatternSet)
      ensures r.Get(id) == p
      ensures forall other :: other != id ==> r.Get(other) == Get(other)
    {
      match id
      case A => this.(a := p)
      case B => this.(b := p)
      case C => this.(c := p)
      case D => this.(d := p)
    }
  }

  datatype DrumSet = DrumSet(
    id: string, name: string, patterns: PatternSet,
    bpm: real, feel: Feel, humanize: real, density: real, volume: real)

  /** `nextPattern` holds a switch queued until the next bar boundary. */
  datatype Playback = Playback(
    isPlaying: bool, currentPattern: PatternLetter, nextPattern: Option<PatternLetter>,
    currentStep: int, currentBar: int)

  datatype AppState = AppState(currentSet: DrumSet, playback: Playback, savedSets: seq<DrumSet>)

  const TextA: string := "k h s h k h s h"
  const TextB: string := "k . s . k k s ."
  const TextC: string := "kh . sh . kh . sh ."
  const TextD: string := "k h sh h k . s h"

  /** A non-empty run of drum symbols. */
  predicate SymbolRun(w: string) {
    |w| > 0 && DrumConstants.IsValidDrumSymbol(w[0]) && (|w| == 1 || SymbolRun(w[1..]))
  }

  /** Every word is a rest mark or a run of drum symbols. */
  predicate AcceptedWords(words: seq<string>) {
    |words| == 0 || ((words[0] == "." || SymbolRun(words[0])) && AcceptedWords(words[1..]))
  }

  lemma {:induction false} SymbolRunIsAcceptedWord(w: string)
    requires SymbolRun(w)
    ensures IsWord(w) && SymbolsValid(w)
  {
    DrumConstants.SymbolIsNotWhitespace(w[0]);
    if |w| > 1 {
      SymbolRunIsAcceptedWord(w[1..]);
      forall i | 1 <= i < |w|
        ensures !JsText.IsJsWhitespace(w[i]) && DrumConstants.IsValidDrumSymbol(w[i])
      {
        assert w[i] == w[1..][i - 1];
      }
    }
  }

  lemma {:induction false} AcceptedWordsAreTokens(words: seq<string>)
    requires AcceptedWords(words)
    ensures forall k :: 0 <= k < |words| ==> IsWord(words[k]) && TokenAccepted(words[k])
  {
    if |words| > 0 {
      AcceptedWordsAreTokens(words[1..]);
      if words[0] != "." {
        SymbolRunIsAcceptedWord(words[0]);
      }
      forall k | 1 <= k < |words|
        ensures IsWord(words[k]) && TokenAccepted(words[k])
      {
        assert words[k] == words[1..][k - 1];
      }
    }
  }

  lemma {:induction false} AcceptedWordsAppend(left: seq<string>, right: seq<string>)
    requires AcceptedWords(left) && AcceptedWords(right)
    ensures AcceptedWords(left + right)
  {
    if |left| > 0 {
      AcceptedWordsAppend(left[1..], right);
      assert (left + right)[1..] == left[1..] + right;
    } else {
      assert left + right == right;
    }
  }

  /** Text made of accepted words joined by single spaces parses, into one
      step per word. */
  lemma JoinedWordsParse(words: seq<string>)
    requires AcceptedWords(words)
    ensures Parse(JoinWords(words)).Ok? && |Parse(JoinWords(words)).value| == |words|
  {
    AcceptedWordsAreTokens(words);
    TokensOfJoinedWords(words);
    ParseMeaning(JoinWords(words));
  }

  /** The four default texts parse, into eight steps each. */
  lemma DefaultTextsParse()
    ensures Parse(TextA).Ok? && |Parse(TextA).value| == 8
    ensures Parse(TextB).Ok? && |Parse(TextB).value| == 8
    ensures Parse(TextC).Ok? && |Parse(TextC).value| == 8
    ensures Parse(TextD).Ok? && |Parse(TextD).value| == 8
  {
    TextAParses();
    TextBParses();
    TextCParses();
    TextDParses();
  }

  lemma TextAParses()
    ensures Parse(TextA).Ok? && |Parse(TextA).value| == 8
  {
    var left, right := ["k", "h", "s", "h"], ["k", "h", "s", "h"];
    JoinWordsAppend(left, right);
    assert JoinWords(left) == "k h s h";
    assert JoinWords(right) == "k h s h";
    assert TextA == "k h s h" + " " + "k h s h";
    AcceptedWordsAppend(left, right);
    JoinedWordsParse(left + right);
  }

  lemma TextBParses()
    ensures Parse(TextB).Ok? && |Parse(TextB).value| == 8
  {
    var left, right := ["k", ".", "s", "."], ["k", "k", "s", "."];
    JoinWordsAppend(left, right);
    assert JoinWords(left) == "k . s .";
    assert JoinWords(right) == "k k s .";
    assert TextB == "k . s ." + " " + "k k s .";
    AcceptedWordsAppend(left, right);
    JoinedWordsParse(left + right);
  }

  lemma TextCParses()
    ensures Parse(TextC).Ok? && |Parse(TextC).value| == 8
  {
    var left, right := ["kh", ".", "sh", "."], ["kh", ".", "sh", "."];
    JoinWordsAppend(left, right);
    assert JoinWords(left) == "kh . sh .";
    assert JoinWords(right) == "kh . sh .";
    assert TextC == "kh . sh ." + " " + "kh . sh .";
    AcceptedWordsAppend(left, right);
    JoinedWordsParse(left + right);
  }

  lemma TextDParses()
    ensures Parse(TextD).Ok? && |Parse(TextD).value| == 8
  {
    var left, right := ["k", "h", "sh", "h"], ["k", ".", "s", "h"];
    JoinWordsAppend(left, right);
    assert JoinWords(left) == "k h sh h";
    assert JoinWords(right) == "k . s h";
    assert TextD == "k h sh h" + " " + "k . s h";
    AcceptedWordsAppend(left, right);
    JoinedWordsParse(left + right);
  }

  /** `createDefaultPattern`: the pattern holding the parse of `text`. */
  function CreateDefaultPattern(id: PatternLetter, text: string): (p: Pattern)
    requires Parse(text).Ok?
    ensures p.id == id && p.text == text && p.steps == Parse(text).value
    ensures p.bars == CalculateBars(|p.steps|)
  {
    var steps := Parse(text).value;
    Pattern(id, text, steps, CalculateBars(|steps|))
  }

  /** `createDefaultSet`. */
  function CreateDefaultSet(): DrumSet {
    DefaultTextsParse();
    DrumSet("default", "Untitled Set",
      PatternSet(
        CreateDefaultPattern(A, TextA), CreateDefaultPattern(B, TextB),
        CreateDefaultPattern(C, TextC), CreateDefaultPattern(D, TextD)),
      120.0, Straight, 0.0, 0.0, 0.8)
  }

  /** The store's initial state: the default set, stopped on pattern A, no
      queued switch and nothing saved. */
  function InitialState(): AppState {
    AppState(CreateDefaultSet(), Playback(false, A, None, 0, 0), [])
  }

  /** The default set: each pattern is its own letter with the parse of its
      text, eight steps in one bar, at 120 BPM straight, with no humanize
      and no density. */
  lemma DefaultSetShape(id: PatternLetter)
    ensures var s := CreateDefaultSet();
      var p := s.patterns.Get(id);
      && p.id == id && Parse(p.text) == Ok(p.steps) && |p.steps| == 8 && p.bars == 1
      && s.bpm == 120.0 && s.feel == Straight && s.humanize == 0.0 && s.density == 0.0
  {
    DefaultTextsParse();
  }

  // ---------------------------------------------------------------------
  // Pattern and set properties

  /** `setPatternText`: text that fails to parse leaves the whole state
      unchanged; otherwise only pattern `id` changes, to the text, its steps
      and their bar count (the length is not range-checked). */
  function SetPatternText(s: AppState, id: PatternLetter, text: string): (r: AppState)
    ensures Parse(text).Err? ==> r == s
    ensures Parse(text).Ok? ==>
      && r.currentSet.patterns.Get(id) == Pattern(id, text, Parse(text).value, CalculateBars(|Parse(text).value|))
      && (forall other :: other != id ==> r.currentSet.patterns.Get(other) == s.currentSet.patterns.Get(other))
      && r.currentSet.(patterns := s.currentSet.patterns) == s.currentSet
      && r.playback == s.playback && r.savedSets == s.savedSets
  {
    match Parse(text)
    case Err(_) => s
    case Ok(steps) =>
      var newPatterns := s.currentSet.patterns.With(id, Pattern(id, text, steps, CalculateBars(|steps|)));
      s.(currentSet := s.currentSet.(patterns := newPatterns))
  }

  /** `setBPM`: only the set's tempo changes. */
  function SetBPM(s: AppState, bpm: real): (r: AppState)
    ensures r.currentSet.bpm == bpm && r.currentSet.(bpm := s.currentSet.bpm) == s.currentSet
    ensures r.playback == s.playback && r.savedSets == s.savedSets
  {
    s.(currentSet := s.currentSet.(bpm := bpm))
  }

  /** `setFeel`: only the set's feel changes. */
  function SetFeel(s: AppState, feel: Feel): (r: AppState)
    ensures r.currentSet.feel == feel && r.currentSet.(feel := s.currentSet.feel) == s.currentSet
    ensures r.playback == s.playback && r.savedSets == s.savedSets
  {
    s.(currentSet := s.currentSet.(feel := feel))
  }

  /** `setHumanize`: only the set's humanize amount changes. */
  function SetHumanize(s: AppState, humanize: real): (r: AppState)
    ensures r.currentSet.humanize == humanize && r.currentSet.(humanize := s.currentSet.humanize) == s.currentSet
    ensures r.playback == s.playback && r.savedSets == s.savedSets
  {
    s.(currentSet := s.currentSet.(humanize := humanize))
  }

  /** `setDensity`: only the set's density changes. */
  function SetDensity(s: AppState, density: real): (r: AppState)
    ensures r.currentSet.density == density && r.currentSet.(density := s.currentSet.density) == s.currentSet
    ensures r.playback == s.playback && r.savedSets == s.savedSets
  {
    s.(currentSet := s.currentSet.(density := density))
  }

  /** `setVolume`: only the set's volume changes. */
  function SetVolume(s: AppState, volume: real): (r: AppState)
    ensures r.currentSet.volume == volume && r.currentSet.(volume := s.currentSet.volume) == s.currentSet
    ensures r.playback == s.playback && r.savedSets == s.savedSets
  {
    s.(currentSet := s.currentSet.(volume := volume))
  }

  // ---------------------------------------------------------------------
  // Playback

  /** `setPlaying`: only the playing flag changes. */
  function SetPlaying(s: AppState, isPlaying: bool): (r: AppState)
    ensures r.playback.isPlaying == isPlaying && r.playback.(isPlaying := s.playback.isPlaying) == s.playback
    ensures r.currentSet == s.currentSet && r.savedSets == s.savedSets
  {
    s.(playback := s.playback.(isPlaying := isPlaying))
  }

  /** `switchPattern`: while stopped the switch is immediate and clears any
      queued one; while playing it is only queued, and the current pattern
      stays. */
  function SwitchPattern(s: AppState, id: PatternLetter): (r: AppState)
    ensures !s.playback.isPlaying ==> r.playback.currentPattern == id && r.playback.nextPattern == None
    ensures s.playback.isPlaying ==>
      r.playback.currentPattern == s.playback.currentPattern && r.playback.nextPattern == Some(id)
    ensures r.playback.(currentPattern := s.playback.currentPattern, nextPattern := s.playback.nextPattern) == s.playback
    ensures r.currentSet == s.currentSet && r.savedSets == s.savedSets
  {
    if !s.playback.isPlaying then
      s.(playback := s.playback.(currentPattern := id, nextPattern := None))
    else
      s.(playback := s.playback.(nextPattern := Some(id)))
  }

  /** `applyPendingPatternSwitch`: a queued switch takes effect and is
      cleared; with nothing queued the state is unchanged. */
  function ApplyPendingPatternSwitch(s: AppState): (r: AppState)
    ensures s.playback.nextPattern == None ==> r == s
    ensures s.playback.nextPattern.Some? ==>
      r.playback.currentPattern == s.playback.nextPattern.value && r.playback.nextPattern == None
    ensures r.playback.(currentPattern := s.playback.currentPattern, nextPattern := s.playback.nextPattern) == s.playback
    ensures r.currentSet == s.currentSet && r.savedSets == s.savedSets
  {
    if s.playback.nextPattern.Some? then
      s.(playback := s.playback.(currentPattern := s.playback.nextPattern.value, nextPattern := None))
    else s
  }

  /** `updatePlaybackState`: only the step and bar counters change. */
  function UpdatePlaybackState(s: AppState, step: int, bar: int): (r: AppState)
    ensures r.playback.currentStep == step && r.playback.currentBar == bar
    ensures r.playback.(currentStep := s.playback.currentStep, currentBar := s.playback.currentBar) == s.playback
    ensures r.currentSet == s.currentSet && r.savedSets == s.savedSets
  {
    s.(playback := s.playback.(currentStep := step, currentBar := bar))
  }

  /** Applying the pending switch twice is applying it once. */
  lemma ApplyPendingIdempotent(s: AppState)
    ensures ApplyPendingPatternSwitch(ApplyPendingPatternSwitch(s)) == ApplyPendingPatternSwitch(s)
  {
  }

  /** Whether playing or stopped, a switch followed by the bar-boundary
      apply lands on the chosen pattern with nothing queued, and touches
      nothing but those two fields. */
  lemma SwitchThenApplyLands(s: AppState, id: PatternLetter)
    ensures var r := ApplyPendingPatternSwitch(SwitchPattern(s, id));
      && r.playback == s.playback.(currentPattern := id, nextPattern := None)
      && r.currentSet == s.currentSet && r.savedSets == s.savedSets
  {
  }

  /** While playing, no sequence of switches changes the sounding pattern
      before the apply: only the last queued one is kept. */
  lemma LastQueuedSwitchWins(s: AppState, first: PatternLetter, second: PatternLetter)
    requires s.playback.isPlaying
    ensures var r := SwitchPattern(SwitchPattern(s, first), second);
      r.playback.currentPattern == s.playback.currentPattern && r.playback.nextPattern == Some(second)
  {
  }

  // ---------------------------------------------------------------------
  // Saved sets

  /** `savedSets.find(s => s.id === id)`: the first saved set with the id. */
  function FindSet(sets: seq<DrumSet>, id: string): (r: Option<DrumSet>)
    ensures r.None? <==> forall k :: 0 <= k < |sets| ==> sets[k].id != id
    ensures r.Some? ==> exists k :: 0 <= k < |sets| && sets[k] == r.value && r.value.id == id
                                    && forall j :: 0 <= j < k ==> sets[j].id != id
  {
    if |sets| == 0 then None
    else if sets[0].id == id then Some(sets[0])
    else
      var r := FindSet(sets[1..], id);
      if r.Some? then
        ghost var k :| 0 <= k < |sets| - 1 && sets[1..][k] == r.value && r.value.id == id
          && forall j :: 0 <= j < k ==> sets[1..][j].id != id;
        assert sets[k + 1] == r.value;
        r
      else r
  }

  /** `loadSet`: the first saved set with the id becomes the current set; an
      unknown id changes nothing. */
  function LoadSet(s: AppState, id: string): (r: AppState)
    ensures FindSet(s.savedSets, id).None? ==> r == s
    ensures FindSet(s.savedSets, id).Some? ==> r == s.(currentSet := FindSet(s.savedSets, id).value)
  {
    match FindSet(s.savedSets, id)
    case None => s
    case Some(found) => s.(currentSet := found)
  }

  /** The saved sets without those with the given id, in their order. */
  function WithoutId(sets: seq<DrumSet>, id: string): (r: seq<DrumSet>)
    ensures |r| <= |sets|
    ensures forall k :: 0 <= k < |r| ==> r[k].id != id && r[k] in sets
    ensures forall x :: x in sets && x.id != id ==> x in r
  {
    if |sets| == 0 then []
    else (if sets[0].id == id then [] else [sets[0]]) + WithoutId(sets[1..], id)
  }

  /** A single set survives exactly when its id differs. */
  lemma WithoutIdSingle(x: DrumSet, id: string)
    ensures WithoutId([x], id) == if x.id == id then [] else [x]
  {
    assert [x][1..] == [];
  }

  /** Filtering a concatenation concatenates the filtered pieces; with
      `WithoutIdSingle` this fixes the survivors and their order. */
  lemma {:induction false} WithoutIdAppend(a: seq<DrumSet>, b: seq<DrumSet>, id: string)
    ensures WithoutId(a + b, id) == WithoutId(a, id) + WithoutId(b, id)
  {
    if |a| == 0 {
      assert a + b == b;
    } else {
      var head := if a[0].id == id then [] else [a[0]];
      assert (a + b)[1..] == a[1..] + b;
      calc {
        WithoutId(a + b, id);
        head + WithoutId(a[1..] + b, id);
        { WithoutIdAppend(a[1..], b, id); }
        head + (WithoutId(a[1..], id) + WithoutId(b, id));
        (head + WithoutId(a[1..], id)) + WithoutId(b, id);
      }
    }
  }

  /** Every set without the id survives as often as it occurs; none with it
      does. */
  lemma {:induction false} WithoutIdCounts(sets: seq<DrumSet>, id: string, x: DrumSet)
    ensures multiset(WithoutId(sets, id))[x] == if x.id == id then 0 else multiset(sets)[x]
  {
    if |sets| > 0 {
      var head := if sets[0].id == id then [] else [sets[0]];
      WithoutIdCounts(sets[1..], id, x);
      assert sets == [sets[0]] + sets[1..];
      assert multiset(WithoutId(sets, id)) == multiset(head) + multiset(WithoutId(sets[1..], id));
      assert multiset(sets) == multiset([sets[0]]) + multiset(sets[1..]);
    }
  }

  /** `deleteSet`: only the saved sets change, losing exactly those with the id. */
  function DeleteSet(s: AppState, id: string): (r: AppState)
    ensures r.currentSet == s.currentSet && r.playback == s.playback
    ensures forall k :: 0 <= k < |r.savedSets| ==> r.savedSets[k].id != id
    ensures forall x :: x in s.savedSets && x.id != id ==> x in r.savedSets
    ensures r.savedSets == WithoutId(s.savedSets, id)
  {
    s.(savedSets := WithoutId(s.savedSets, id))
  }

  /** Deleting an id no saved set carries changes nothing. */
  lemma {:induction false} DeleteUnknownIdKeepsSets(sets: seq<DrumSet>, id: string)
    requires forall k :: 0 <= k < |sets| ==> sets[k].id != id
    ensures WithoutId(sets, id) == sets
  {
    if |sets| > 0 {
      DeleteUnknownIdKeepsSets(sets[1..], id);
      assert [sets[0]] + sets[1..] == sets;
    }
  }

  /** Deleting twice is deleting once. */
  lemma DeleteSetIdempotent(s: AppState, id: string)
    ensures DeleteSet(DeleteSet(s, id), id) == DeleteSet(s, id)
  {
    DeleteUnknownIdKeepsSets(WithoutId(s.savedSets, id), id);
  }

  /** `saveSet` with the clock reading as a parameter: appends a copy of the
      current set named `name` with id `set-<stamp>`. */
  function SaveSet(s: AppState, name: string, stamp: int): (r: AppState)
    ensures r.currentSet == s.currentSet && r.playback == s.playback
    ensures |r.savedSets| == |s.savedSets| + 1 && r.savedSets[..|s.savedSets|] == s.savedSets
    ensures r.savedSets[|s.savedSets|] == s.currentSet.(id := "set-" + JsText.IntToDecimal(stamp), name := name)
  {
    var newSet := s.currentSet.(id := "set-" + JsText.IntToDecimal(stamp), name := name);
    s.(savedSets := s.savedSets + [newSet])
  }

  /** Loading a freshly saved set restores the current set under its new id
      and name, provided no earlier saved set carries the same id. */
  lemma SaveThenLoad(s: AppState, name: string, stamp: int)
    requires forall k :: 0 <= k < |s.savedSets| ==> s.savedSets[k].id != "set-" + JsText.IntToDecimal(stamp)
    ensures var id := "set-" + JsText.IntToDecimal(stamp);
      LoadSet(SaveSet(s, name, stamp), id).currentSet == s.currentSet.(id := id, name := name)
  {
    var id := "set-" + JsText.IntToDecimal(stamp);
    var saved := SaveSet(s, name, stamp).savedSets;
    var found := FindSet(saved, id);
    assert saved[|s.savedSets|].id == id;
    assert found.Some?;
  }

  /** `createNewSet`: the current set becomes the default set. */
  function CreateNewSet(s: AppState): (r: AppState)
    ensures r.currentSet == CreateDefaultSet() && r.playback == s.playback && r.savedSets == s.savedSets
  {
    s.(currentSet := CreateDefaultSet())
  }
}
