/** Drum fills that rewrite the tail of a pattern (src/engine/FillGenerator.ts). */
module FillGenerator {
  import opened Wrappers
  import opened DrumTypes
  import DrumConstants

  const FillVelocity: real := 0.85
  const AccentVelocity: real := 1.0
  /** The velocity of the sparse hi toms that open a full-bar fill. */
  const SoftTomVelocity: real := 0.765

  /** `Math.ceil(a / b)` for a non-negative numerator and a positive divisor. */
  function CeilDiv(a: nat, b: nat): (q: nat)
    requires b > 0
    ensures b * q >= a && b * (q - 1) < a
  {
    (a + b - 1) / b
  }

  /** A single fill hit without timing offset. */
  function FillHit(symbol: char, velocity: real): Hit {
    Hit(symbol, velocity, 0.0)
  }

  /** The final two steps of every tier's snare section are accented. */
  function SnareVelocity(stepsToEnd: int): real {
    if stepsToEnd <= 2 then AccentVelocity else FillVelocity
  }

  /** `generateSnareRoll`: a snare on every step. */
  function SnareRoll(stepsToEnd: int): seq<Hit> {
    [FillHit('s', SnareVelocity(stepsToEnd))]
  }

  /** `generateMediumFill`: alternating hi/mid toms for the first half, then snares. */
  function MediumFill(stepsToEnd: int, total: nat): seq<Hit> {
    var halfway := CeilDiv(total, 2);
    var progress := total - stepsToEnd;
    if progress < halfway then [FillHit(if JsRem(progress, 2) == 0 then 'T' else 't', FillVelocity)]
    else [FillHit('s', SnareVelocity(stepsToEnd))]
  }

  /** `generateLongFill`: sparse hi toms, then mid toms, then snares, by thirds. */
  function LongFill(stepsToEnd: int, total: nat): seq<Hit> {
    var third := CeilDiv(total, 3);
    var progress := total - stepsToEnd;
    if progress < third then (if JsRem(progress, 2) == 0 then [FillHit('T', FillVelocity)] else [])
    else if progress < third * 2 then [FillHit('t', FillVelocity)]
    else [FillHit('s', SnareVelocity(stepsToEnd))]
  }

  /** `generateFullFill`: soft sparse hi toms, mid toms, low and mid toms
      alternating, then snares, by quarters. */
  function FullFill(stepsToEnd: int, total: nat): seq<Hit> {
    var quarter := CeilDiv(total, 4);
    var progress := total - stepsToEnd;
    if progress < quarter then (if JsRem(progress, 2) == 0 then [FillHit('T', SoftTomVelocity)] else [])
    else if progress < quarter * 2 then [FillHit('t', FillVelocity)]
    else if progress < quarter * 3 then [FillHit(if JsRem(progress, 2) == 0 then 'f' else 't', FillVelocity)]
    else [FillHit('s', SnareVelocity(stepsToEnd))]
  }

  /** `selectFillHits`: the tier is chosen by the total fill length. */
  function SelectFillHits(stepsToEnd: int, total: nat): seq<Hit> {
    if total <= 4 then SnareRoll(stepsToEnd)
    else if total <= 8 then MediumFill(stepsToEnd, total)
    else if total <= 12 then LongFill(stepsToEnd, total)
    else FullFill(stepsToEnd, total)
  }

  /** The hits whose symbol lies in `symbols`, in their original order. */
  function KeepSymbols(hits: seq<Hit>, symbols: set<char>): (r: seq<Hit>)
    ensures |r| <= |hits|
    ensures forall i :: 0 <= i < |r| ==> r[i] in hits && r[i].symbol in symbols
    ensures forall h :: h in hits && h.symbol in symbols ==> h in r
  {
    if |hits| == 0 then []
    else
      var rest := KeepSymbols(hits[..|hits| - 1], symbols);
      var last := hits[|hits| - 1];
      assert hits == hits[..|hits| - 1] + [last];
      if last.symbol in symbols then rest + [last] else rest
  }

  /** A single hit is kept exactly when its symbol is. */
  lemma KeepSymbolsSingle(h: Hit, symbols: set<char>)
    ensures KeepSymbols([h], symbols) == if h.symbol in symbols then [h] else []
  {
    assert [h][..0] == [];
  }

  /** Filtering a concatenation concatenates the filtered pieces; with
      `KeepSymbolsSingle` this fixes the kept hits and their order. */
  lemma {:induction false} KeepSymbolsAppend(a: seq<Hit>, b: seq<Hit>, symbols: set<char>)
    ensures KeepSymbols(a + b, symbols) == KeepSymbols(a, symbols) + KeepSymbols(b, symbols)
  {
    if |b| == 0 {
      assert a + b == a;
    } else {
      var n := |b| - 1;
      var tail := if b[n].symbol in symbols then [b[n]] else [];
      assert (a + b)[..|a + b| - 1] == a + b[..n];
      assert (a + b)[|a + b| - 1] == b[n];
      assert b[..n] + [b[n]] == b;
      calc {
        KeepSymbols(a + b, symbols);
        KeepSymbols(a + b[..n], symbols) + tail;
        { KeepSymbolsAppend(a, b[..n], symbols); }
        (KeepSymbols(a, symbols) + KeepSymbols(b[..n], symbols)) + tail;
        KeepSymbols(a, symbols) + (KeepSymbols(b[..n], symbols) + tail);
      }
    }
  }

  /** Every kept hit appears as often as in the input; no other hit appears. */
  lemma {:induction false} KeepSymbolsCounts(hits: seq<Hit>, symbols: set<char>, h: Hit)
    ensures multiset(KeepSymbols(hits, symbols))[h] == if h.symbol in symbols then multiset(hits)[h] else 0
  {
    if |hits| > 0 {
      var n := |hits| - 1;
      KeepSymbolsCounts(hits[..n], symbols, h);
      assert hits == hits[..n] + [hits[n]];
    }
  }

  /** The symbols `generateFillStep` keeps: only the letter `k`. */
  const KeptAsWritten: set<char> := {'k'}
  /** Every symbol whose sprite is the kick drum: `k` and its alias `B`. */
  const KickSymbols: set<char> := {'k', 'B'}

  /** `generateFillStep` with the kept symbols as a parameter: the kept hits
      first, then the fill hits; a rest exactly when nothing remains. */
  function FillStepKeeping(original: Step, stepsToEnd: int, total: nat, kept: set<char>): (r: Step)
    ensures WellFormedStep(r)
  {
    var all := KeepSymbols(original.hits, kept) + SelectFillHits(stepsToEnd, total);
    Step(all, |all| == 0)
  }

  /** The result of `generateFill`. */
  datatype Fill = Fill(fillSteps: seq<Step>, shouldCrash: bool)

  /** `patternLength ?? originalPattern.length`. */
  function EffectiveLength(pattern: seq<Step>, patternLength: Option<int>): int {
    patternLength.GetOr(|pattern|)
  }

  function Abs(x: int): nat {
    if x < 0 then -x else x
  }

  /** The steps at indices `pos <= i < upto` rewritten as fill steps of a fill
      ending at `len`, every other index kept. */
  function RewriteRange(pattern: seq<Step>, pos: nat, upto: int, len: int, total: nat, kept: set<char>): (r: seq<Step>)
    ensures |r| == |pattern|
  {
    seq(|pattern|, i requires 0 <= i < |pattern| =>
      if pos <= i < upto then FillStepKeeping(pattern[i], len - i, total, kept) else pattern[i])
  }

  /** The tail rewrite shared by both versions: index `i` with
      `pos <= i < len` becomes a fill step, every other index is kept. */
  function RewriteTail(pattern: seq<Step>, pos: nat, len: int, total: nat, kept: set<char>): (r: seq<Step>)
    ensures |r| == |pattern|
  {
    RewriteRange(pattern, pos, len, len, total, kept)
  }

  /** `generateFill` as written: for a zero length `currentStep % 0` is NaN,
      the no-fill guard is false and the loop never runs, so the copy comes
      back with a crash requested; only `k` hits survive the rewrite. */
  function FillAsWritten(pattern: seq<Step>, currentStep: nat, patternLength: Option<int>): (r: Fill)
    ensures |r.fillSteps| == |pattern|
  {
    var len := EffectiveLength(pattern, patternLength);
    if len == 0 then Fill(pattern, true)
    else
      var pos := currentStep % Abs(len);
      var remaining := len - pos;
      if remaining <= 1 then Fill(pattern, false)
      else Fill(RewriteTail(pattern, pos, len, remaining, KeptAsWritten), true)
  }

  /** `generateFill`: copies the pattern and overwrites the steps from the
      current position to the end of the effective length, in a loop. */
  method GenerateFill(originalPattern: seq<Step>, currentStep: nat, patternLength: Option<int>)
    returns (fillSteps: seq<Step>, shouldCrash: bool)
    ensures Fill(fillSteps, shouldCrash) == FillAsWritten(originalPattern, currentStep, patternLength)
  {
    var effectiveLength := EffectiveLength(originalPattern, patternLength);
    if effectiveLength == 0 {
      // the position is NaN: the guard fails and the loop does not run
      return originalPattern, true;
    }
    var positionInPattern := currentStep % Abs(effectiveLength);
    var remainingSteps := effectiveLength - positionInPattern;
    if remainingSteps <= 1 {
      return originalPattern, false;
    }
    fillSteps := OverwriteTail(originalPattern, positionInPattern, effectiveLength, remainingSteps);
    shouldCrash := true;
  }

  /** The loop of `generateFill`: overwrites, in place in the copy, every
      index from `pos` up to the effective length that the pattern has. */
  method OverwriteTail(originalPattern: seq<Step>, pos: nat, len: int, total: nat)
    returns (fillSteps: seq<Step>)
    requires pos <= len
    ensures fillSteps == RewriteTail(originalPattern, pos, len, total, KeptAsWritten)
  {
    fillSteps := originalPattern;
    var i := pos;
    assert fillSteps == RewriteRange(originalPattern, pos, i, len, total, KeptAsWritten);
    while i < len && i < |fillSteps|
      invariant pos <= i <= len
      invariant fillSteps == RewriteRange(originalPattern, pos, i, len, total, KeptAsWritten)
      decreases |fillSteps| - i
    {
      RewriteRangeExtend(originalPattern, pos, i, len, total, KeptAsWritten);
      fillSteps := fillSteps[i := FillStepKeeping(fillSteps[i], len - i, total, KeptAsWritten)];
      i := i + 1;
    }
    RewriteRangePastEnd(originalPattern, pos, i, len, total, KeptAsWritten);
  }

  /** One more iteration of the loop rewrites index `i`. */
  lemma RewriteRangeExtend(pattern: seq<Step>, pos: nat, i: nat, len: int, total: nat, kept: set<char>)
    requires pos <= i < |pattern|
    ensures var r := RewriteRange(pattern, pos, i, len, total, kept);
      r[i] == pattern[i]
      && RewriteRange(pattern, pos, i + 1, len, total, kept)
         == r[i := FillStepKeeping(r[i], len - i, total, kept)]
  {
  }

  /** Once the loop has passed the pattern's end, no index is left to rewrite
      below the effective length. */
  lemma RewriteRangePastEnd(pattern: seq<Step>, pos: nat, i: nat, len: int, total: nat, kept: set<char>)
    requires i <= len && (i == len || i >= |pattern|)
    ensures RewriteRange(pattern, pos, i, len, total, kept) == RewriteTail(pattern, pos, len, total, kept)
  {
  }

  /** The corrected `generateFill`: no crash when there is no fill to finish
      (zero length), and every kick survives, whichever letter wrote it. */
  function CorrectedFill(pattern: seq<Step>, currentStep: nat, patternLength: Option<int>): (r: Fill)
    ensures |r.fillSteps| == |pattern|
    ensures EffectiveLength(pattern, patternLength) == 0 ==> r == Fill(pattern, false)
  {
    var len := EffectiveLength(pattern, patternLength);
    if len == 0 then Fill(pattern, false)
    else
      var pos := currentStep % Abs(len);
      var remaining := len - pos;
      if remaining <= 1 then Fill(pattern, false)
      else Fill(RewriteTail(pattern, pos, len, remaining, KickSymbols), true)
  }

  /** `generateCrashHit`: the crash for beat 1 of the next bar. */
  function CrashHit(): (h: Hit)
    ensures DrumConstants.IsValidDrumSymbol(h.symbol)
    ensures DrumConstants.SpriteMap[h.symbol] == "crash"
    ensures h.symbol == 'c' && h.velocity == 1.0 && h.offset == 0.0
  {
    Hit('c', AccentVelocity, 0.0)
  }

  /** What a fill hit may be: a snare or a tom, without offset, at one of the
      three fill velocities. */
  predicate IsFillHit(h: Hit) {
    && (h.symbol == 's' || h.symbol == 'T' || h.symbol == 't' || h.symbol == 'f')
    && (h.velocity == SoftTomVelocity || h.velocity == FillVelocity || h.velocity == AccentVelocity)
    && h.offset == 0.0
  }

  /** Every tier yields at most one hit, and only a fill hit. */
  lemma FillHitsShape(stepsToEnd: int, total: nat)
    ensures var r := SelectFillHits(stepsToEnd, total);
      |r| <= 1 && forall j :: 0 <= j < |r| ==> IsFillHit(r[j]) && DrumConstants.IsValidDrumSymbol(r[j].symbol)
  {
  }

  /** The voices of each tier, by progress into the fill: a pure snare roll up
      to 4 steps; toms then snares split at half the length up to 8; sparse hi
      toms, mid toms and snares by thirds up to 12; beyond that the sparse hi
      toms of the first quarter are softer and low toms appear only in the
      third quarter. */
  lemma TierVoices(stepsToEnd: int, total: nat)
    requires 1 <= stepsToEnd <= total
    ensures var r := SelectFillHits(stepsToEnd, total);
      var progress := total - stepsToEnd;
      && (total <= 4 ==> r == [FillHit('s', SnareVelocity(stepsToEnd))])
      && (4 < total <= 8 ==> |r| == 1 && (r[0].symbol != 's' <==> 2 * progress < total))
      && (8 < total <= 12 ==>
            (r == [] || r[0].symbol == 'T' <==> 3 * progress < total)
            && (|r| == 1 && r[0].symbol == 's' ==> 3 * progress >= 2 * total))
      && (12 < total ==>
            (r == [] || r[0] == FillHit('T', SoftTomVelocity) <==> 4 * progress < total)
            && (|r| == 1 && r[0].symbol == 'f' ==> 2 * total <= 4 * progress < 3 * total + 8))
  {
  }

  /** The last step of every fill is an accented snare; the one before it is
      too, except in a fill of exactly 13 steps, where it is a mid tom. */
  lemma FinalStepsAccented(total: nat)
    requires total >= 2
    ensures SelectFillHits(1, total) == [FillHit('s', AccentVelocity)]
    ensures SelectFillHits(2, total) == [FillHit('s', AccentVelocity)] <==> total != 13
    ensures SelectFillHits(2, 13) == [FillHit('t', FillVelocity)]
  {
    if total > 12 {
      var quarter := CeilDiv(total, 4);
      if total != 13 {
        assert total - 2 >= quarter * 3;
      } else {
        assert quarter == 4;
      }
    }
  }

  /** Which steps `generateFill` touches: with no fill (at most one step
      left) the pattern comes back as is without a crash; otherwise a crash
      is requested and only the steps from the current position up to the
      effective length are rewritten. */
  lemma FillTouchesOnlyTail(pattern: seq<Step>, currentStep: nat, patternLength: Option<int>, i: nat)
    requires EffectiveLength(pattern, patternLength) != 0 && i < |pattern|
    ensures var len := EffectiveLength(pattern, patternLength);
      var pos := currentStep % Abs(len);
      var r := FillAsWritten(pattern, currentStep, patternLength);
      && (len - pos <= 1 ==> r == Fill(pattern, false))
      && (len - pos > 1 ==> r.shouldCrash && len > 0)
      && (!r.shouldCrash || i < pos || i >= len ==> r.fillSteps[i] == pattern[i])
  {
  }

  /** What a rewritten step is made of: the kept hits of the original step
      first and in order, then at most one fill hit; a rest exactly when it
      holds nothing. */
  predicate RewrittenFrom(s: Step, original: Step, kept: set<char>) {
    var kicks := KeepSymbols(original.hits, kept);
    && |kicks| <= |s.hits| <= |kicks| + 1
    && s.hits[..|kicks|] == kicks
    && (forall j :: |kicks| <= j < |s.hits| ==> IsFillHit(s.hits[j]))
    && (s.isRest <==> |s.hits| == 0)
  }

  /** Each step of the fill is rewritten from the original step at its index:
      its `k` hits first, then at most one fill hit. */
  lemma FillRewrittenStep(pattern: seq<Step>, currentStep: nat, patternLength: Option<int>, i: nat)
    requires var len := EffectiveLength(pattern, patternLength);
      len > 0 && i < |pattern| && currentStep % Abs(len) <= i < len
    requires FillAsWritten(pattern, currentStep, patternLength).shouldCrash
    ensures RewrittenFrom(FillAsWritten(pattern, currentStep, patternLength).fillSteps[i], pattern[i], KeptAsWritten)
  {
    var len := EffectiveLength(pattern, patternLength);
    var pos := currentStep % Abs(len);
    FillAsWrittenIsRewrite(pattern, currentStep, patternLength);
    RewriteTailStep(pattern, pos, len, len - pos, KeptAsWritten, i);
  }

  lemma RewriteTailStep(pattern: seq<Step>, pos: nat, len: int, total: nat, kept: set<char>, i: nat)
    requires pos <= i < len && i < |pattern|
    ensures RewrittenFrom(RewriteTail(pattern, pos, len, total, kept)[i], pattern[i], kept)
  {
    RewriteTailAt(pattern, pos, len, total, kept, i);
    FillStepShape(RewriteTail(pattern, pos, len, total, kept)[i], pattern[i], len - i, total, kept);
  }

  lemma FillAsWrittenIsRewrite(pattern: seq<Step>, currentStep: nat, patternLength: Option<int>)
    requires EffectiveLength(pattern, patternLength) != 0
    requires FillAsWritten(pattern, currentStep, patternLength).shouldCrash
    ensures var len := EffectiveLength(pattern, patternLength);
      var pos := currentStep % Abs(len);
      FillAsWritten(pattern, currentStep, patternLength).fillSteps == RewriteTail(pattern, pos, len, len - pos, KeptAsWritten)
  {
  }

  /** Index `i` of the rewritten tail is the fill step for that index. */
  lemma RewriteTailAt(pattern: seq<Step>, pos: nat, len: int, total: nat, kept: set<char>, i: nat)
    requires pos <= i < len && i < |pattern|
    ensures RewriteTail(pattern, pos, len, total, kept)[i] == FillStepKeeping(pattern[i], len - i, total, kept)
  {
  }

  lemma FillStepShape(s: Step, original: Step, stepsToEnd: int, total: nat, kept: set<char>)
    requires s == FillStepKeeping(original, stepsToEnd, total, kept)
    ensures RewrittenFrom(s, original, kept)
  {
    var kicks := KeepSymbols(original.hits, kept);
    var fill := SelectFillHits(stepsToEnd, total);
    FillHitsShape(stepsToEnd, total);
    assert s.hits == kicks + fill;
    assert s.hits[..|kicks|] == kicks;
  }

  /** The last step of the effective length, when the pattern reaches it,
      ends with an accented snare whenever a fill was generated. */
  lemma FillEndsOnAccent(pattern: seq<Step>, currentStep: nat, patternLength: Option<int>)
    requires var len := EffectiveLength(pattern, patternLength); 0 < len <= |pattern|
    requires FillAsWritten(pattern, currentStep, patternLength).shouldCrash
    ensures var s := FillAsWritten(pattern, currentStep, patternLength).fillSteps[EffectiveLength(pattern, patternLength) - 1];
      |s.hits| > 0 && s.hits[|s.hits| - 1] == FillHit('s', AccentVelocity)
  {
    var len := EffectiveLength(pattern, patternLength);
    var pos := currentStep % Abs(len);
    FinalStepsAccented(len - pos);
  }

  /** Finding, as written: a kick written with its alias `B` is dropped from
      a rewritten step, while the corrected fill keeps it. */
  lemma FillDropsAliasKick()
    ensures var pattern := [Step([Hit('B', 0.8, 0.0)], false), Step([], true), Step([], true)];
      && DrumConstants.SpriteMap['B'] == "kick"
      && FillAsWritten(pattern, 0, None).fillSteps[0] == Step([FillHit('s', FillVelocity)], false)
      && CorrectedFill(pattern, 0, None).fillSteps[0] == Step([Hit('B', 0.8, 0.0), FillHit('s', FillVelocity)], false)
  {
    var pattern := [Step([Hit('B', 0.8, 0.0)], false), Step([], true), Step([], true)];
    assert KeepSymbols(pattern[0].hits, KeptAsWritten) == [];
    assert KeepSymbols(pattern[0].hits, KickSymbols) == [Hit('B', 0.8, 0.0)];
  }

  /** Finding, as written: a zero effective length rewrites nothing yet asks
      for a crash. */
  lemma ZeroLengthFillRequestsCrash(pattern: seq<Step>, currentStep: nat)
    ensures FillAsWritten(pattern, currentStep, Some(0)) == Fill(pattern, true)
    ensures CorrectedFill(pattern, currentStep, Some(0)) == Fill(pattern, false)
  {
  }

  /** The kick symbols are exactly the symbols whose sprite is the kick drum. */
  lemma KickSymbolsAreKickSprites(c: char)
    ensures c in KickSymbols <==> DrumConstants.IsValidDrumSymbol(c) && DrumConstants.SpriteMap[c] == "kick"
  {
  }

  /** The corrected fill requests a crash exactly when it rewrites a tail of
      at least two steps. */
  lemma CorrectedFillCrashesOnlyAfterFill(pattern: seq<Step>, currentStep: nat, patternLength: Option<int>)
    ensures var len := EffectiveLength(pattern, patternLength);
      CorrectedFill(pattern, currentStep, patternLength).shouldCrash <==> len > 0 && len - currentStep % len > 1
  {
  }

  /** In the corrected fill every kick of a rewritten step survives,
      whichever letter wrote it (`KickSymbolsAreKickSprites` says these are
      exactly the hits drawn with the kick sprite). */
  lemma CorrectedFillKeepsEveryKick(pattern: seq<Step>, currentStep: nat, patternLength: Option<int>, i: nat, h: Hit)
    requires i < |pattern| && h in pattern[i].hits && h.symbol in KickSymbols
    ensures h in CorrectedFill(pattern, currentStep, patternLength).fillSteps[i].hits
  {
    var len := EffectiveLength(pattern, patternLength);
    if len != 0 {
      var pos := currentStep % Abs(len);
      if len - pos > 1 {
        CorrectedFillIsRewrite(pattern, currentStep, patternLength);
        RewriteTailKeeps(pattern, pos, len, len - pos, KickSymbols, i, h);
      }
    }
  }

  lemma CorrectedFillIsRewrite(pattern: seq<Step>, currentStep: nat, patternLength: Option<int>)
    requires EffectiveLength(pattern, patternLength) != 0
    requires var len := EffectiveLength(pattern, patternLength); len - currentStep % Abs(len) > 1
    ensures var len := EffectiveLength(pattern, patternLength);
      var pos := currentStep % Abs(len);
      CorrectedFill(pattern, currentStep, patternLength).fillSteps == RewriteTail(pattern, pos, len, len - pos, KickSymbols)
  {
  }

  /** A hit whose symbol is kept survives the tail rewrite at its index. */
  lemma RewriteTailKeeps(pattern: seq<Step>, pos: nat, len: int, total: nat, kept: set<char>, i: nat, h: Hit)
    requires i < |pattern| && h in pattern[i].hits && h.symbol in kept
    ensures h in RewriteTail(pattern, pos, len, total, kept)[i].hits
  {
    if pos <= i < len {
      RewriteTailAt(pattern, pos, len, total, kept, i);
      KeptHitSurvives(RewriteTail(pattern, pos, len, total, kept)[i], pattern[i], len - i, total, kept, h);
    } else {
      assert RewriteTail(pattern, pos, len, total, kept)[i] == pattern[i];
    }
  }

  lemma KeptHitSurvives(s: Step, original: Step, stepsToEnd: int, total: nat, kept: set<char>, h: Hit)
    requires s == FillStepKeeping(original, stepsToEnd, total, kept)
    requires h in original.hits && h.symbol in kept
    ensures h in s.hits
  {
    var kicks := KeepSymbols(original.hits, kept);
    assert h in kicks;
    assert s.hits == kicks + SelectFillHits(stepsToEnd, total);
  }
}
