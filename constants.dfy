/** The drum-symbol alphabet of the pattern notation, the sprite each symbol
    plays and the default hit velocity (src/parser/constants.ts). */
module DrumConstants {
  import JsText

  /** The accepted symbols, in the order the source lists them. */
  const ValidDrumSymbols: seq<char> :=
    ['k', 'B', 's', 'h', 'x', 'H', 'c', 'r', 't', 'T', 'f', 'p', 'w', 'm', 'S', 'C', 'a', 'A']

  /** Velocity of every hit the parser creates. */
  const DefaultVelocity: real := 0.8

  /** Sprite (sample) name of each symbol; several symbols share a sprite. */
  const SpriteMap: map<char, string> := map[
    'k' := "kick", 'B' := "kick", 's' := "snare", 'h' := "hatClosed", 'x' := "hatClosed",
    'H' := "hatOpen", 'c' := "crash", 'r' := "ride", 't' := "midTom", 'T' := "hiTom",
    'f' := "lowTom", 'p' := "clap", 'w' := "cowbell", 'm' := "tamb", 'S' := "splash",
    'C' := "china", 'a' := "hiAgogo", 'A' := "lowAgogo"]

  /** `isValidDrumSymbol`: one of the eighteen symbols. */
  predicate IsValidDrumSymbol(c: char) {
    match c
    case 'k' | 'B' | 's' | 'h' | 'x' | 'H' | 'c' | 'r' | 't' | 'T' | 'f' | 'p' | 'w' | 'm' | 'S' | 'C' | 'a' | 'A' => true
    case _ => false
  }

  /** The test is membership in the listed alphabet. */
  lemma ValidSymbolsExactly(c: char)
    ensures IsValidDrumSymbol(c) <==> c in ValidDrumSymbols
  {
  }

  /** The alphabet lists eighteen distinct symbols; the rest step `.` and the
      letter `L` of the older type declaration are not among them. */
  lemma AlphabetIsEighteenDistinctSymbols()
    ensures |ValidDrumSymbols| == 18
    ensures forall i, j :: 0 <= i < j < |ValidDrumSymbols| ==> ValidDrumSymbols[i] != ValidDrumSymbols[j]
    ensures !IsValidDrumSymbol('.') && !IsValidDrumSymbol('L')
  {
  }

  /** Every valid symbol has a sprite and nothing else has one, so a parsed hit
      never reaches the scheduler's "no sprite mapping" branch. */
  lemma SpriteMapCoversAlphabet(c: char)
    ensures c in SpriteMap <==> IsValidDrumSymbol(c)
  {
  }

  /** Aliases collapse onto one sprite; case distinguishes different drums. */
  lemma SpriteAliasesAndCase()
    ensures SpriteMap['k'] == SpriteMap['B'] == "kick"
    ensures SpriteMap['h'] == SpriteMap['x'] == "hatClosed"
    ensures SpriteMap['c'] == "crash" && SpriteMap['C'] == "china"
    ensures SpriteMap['t'] == "midTom" && SpriteMap['T'] == "hiTom"
    ensures SpriteMap['s'] == "snare" && SpriteMap['S'] == "splash"
  {
  }

  /** No drum symbol is whitespace, so symbols never split a token. */
  lemma SymbolIsNotWhitespace(c: char)
    requires IsValidDrumSymbol(c)
    ensures !JsText.IsJsWhitespace(c)
  {
  }
}
