/** Keyboard shortcuts for pattern numbers and lookups by pattern number
    (src/utils/patternHelpers.ts). Keys '1'..'9' select patterns 1..9 and
    key '0' selects pattern 10. */
module PatternHelpers {
  import opened Wrappers
  import JsText

  /** The pattern number a key selects: '0' is 10, otherwise `parseInt(key, 10)`
      when that lies in 1..9. */
  function KeyToPatternId(key: string): (r: Option<int>)
    ensures r.Some? ==> 1 <= r.value <= 10
    ensures r == Some(10) <==> key == "0"
  {
    if key == "0" then Some(10)
    else
      match JsText.ParseInt(key)
      case Some(n) => if 1 <= n <= 9 then Some(n) else None
      case None => None
  }

  /** The key that selects pattern `id`: '0' for 10, the digit for 1..9. */
  function PatternIdToKey(id: int): (r: Option<string>)
    ensures r.Some? <==> 1 <= id <= 10
    ensures r.Some? ==> |r.value| == 1 && JsText.IsDigit(r.value[0])
  {
    if id == 10 then Some("0")
    else if 1 <= id <= 9 then Some(JsText.IntToDecimal(id))
    else None
  }

  predicate IsValidPatternId(id: int, patternCount: int) {
    id >= 1 && id <= patternCount
  }

  /** The position of the first pattern whose number is `id`; `idOf` reads a
      pattern's number. */
  function FirstIndexOf<P>(patterns: seq<P>, idOf: P -> int, id: int): (r: Option<nat>)
    ensures r.Some? ==> r.value < |patterns| && idOf(patterns[r.value]) == id
    ensures r.Some? ==> forall j :: 0 <= j < r.value ==> idOf(patterns[j]) != id
    ensures r.None? ==> forall j :: 0 <= j < |patterns| ==> idOf(patterns[j]) != id
  {
    if |patterns| == 0 then None
    else if idOf(patterns[0]) == id then Some(0)
    else
      match FirstIndexOf(patterns[1..], idOf, id)
      case Some(i) =>
        assert forall j :: 1 <= j < i + 1 ==> patterns[j] == patterns[1..][j - 1];
        Some(i + 1)
      case None =>
        assert forall j :: 1 <= j < |patterns| ==> patterns[j] == patterns[1..][j - 1];
        None
  }

  /** `patterns.find(p => p.id === id)`: the first pattern with that number, or
      nothing when none has it. */
  function GetPatternById<P>(patterns: seq<P>, idOf: P -> int, id: int): (r: Option<P>)
    ensures r.None? <==> forall j :: 0 <= j < |patterns| ==> idOf(patterns[j]) != id
    ensures r.Some? ==> (exists i :: 0 <= i < |patterns| && idOf(patterns[i]) == id
                           && (forall j :: 0 <= j < i ==> idOf(patterns[j]) != id)
                           && r == Some(patterns[i]))
  {
    match FirstIndexOf(patterns, idOf, id)
    case Some(i) => Some(patterns[i])
    case None => None
  }

  lemma NumberedKeysExactly(c: char)
    ensures KeyToPatternId([c]).Some? <==> JsText.IsDigit(c)
    ensures JsText.IsDigit(c) && c != '0' ==> KeyToPatternId([c]) == Some(JsText.DigitValue(c))
  {
    if JsText.IsDigit(c) {
      JsText.ParseIntDigit(c);
    } else {
      JsText.ParseIntNonDigit(c);
    }
  }

  /** Every pattern number 1..10 has a key, and that key selects it again. */
  lemma IdKeyRoundTrip(id: int)
    requires 1 <= id <= 10
    ensures PatternIdToKey(id).Some? && KeyToPatternId(PatternIdToKey(id).value) == Some(id)
  {
    if id != 10 {
      JsText.ParseIntOfDecimal(id);
    }
  }

  /** Every single-character key that selects a pattern is that pattern's key. */
  lemma KeyIdRoundTrip(c: char)
    requires KeyToPatternId([c]).Some?
    ensures PatternIdToKey(KeyToPatternId([c]).value) == Some([c])
  {
    NumberedKeysExactly(c);
    if c != '0' {
      var d := JsText.DigitValue(c);
      assert JsText.IntToDecimal(d) == [JsText.DigitChar(d)];
      assert JsText.DigitChar(d) == c;
    }
  }

  /** `parseInt` reads only the leading digits, so a longer key such as "3x"
      selects pattern 3 too. */
  lemma LeadingDigitSelects()
    ensures KeyToPatternId("3x") == Some(3)
  {
    var s := "3x";
    assert JsText.SkipWhitespace(s) == s;
    assert JsText.DigitRun(s) == 1 by { assert JsText.DigitRun(s[1..]) == 0; }
    assert s[..1] == "3";
    assert JsText.DigitsValue("3") == 3 by { assert "3"[..0] == []; }
  }

  /** With at most ten patterns, every valid pattern number has a key that
      selects it. */
  lemma ValidIdsHaveKeys(id: int, patternCount: int)
    requires IsValidPatternId(id, patternCount) && patternCount <= 10
    ensures PatternIdToKey(id).Some? && KeyToPatternId(PatternIdToKey(id).value) == Some(id)
  {
    IdKeyRoundTrip(id);
  }
}
