/** The pattern notation parser (src/parser/parsePattern.ts): whitespace
    separated tokens, `.` for a rest, every other token one hit per character. */
module PatternParser {
  import opened Wrappers
  import opened DrumTypes
  import opened DrumConstants
  import opened JsText

  /** The thrown `ParseError`: the offending character and its token. */
  datatype ParseError = InvalidSymbol(symbol: char, token: string)

  /** The error's message text. */
  function ErrorMessage(e: ParseError): string {
    "Invalid drum symbol: '" + [e.symbol] + "' in token '" + e.token + "'"
  }

  // ---------------------------------------------------------------------
  // Tokenising: `text.trim().split(/\s+/).filter(Boolean)`

  /** Number of leading characters before the first whitespace. */
  function WordLength(s: string): (n: nat)
    ensures n <= |s|
    ensures forall i :: 0 <= i < n ==> !IsJsWhitespace(s[i])
  {
    if s == [] || IsJsWhitespace(s[0]) then 0 else 1 + WordLength(s[1..])
  }

  /** The maximal runs of non-whitespace characters of `s`, in order. */
  function Tokens(s: string): seq<string>
    decreases |s|
  {
    if s == [] then []
    else if IsJsWhitespace(s[0]) then Tokens(s[1..])
    else
      var n := WordLength(s);
      [s[..n]] + Tokens(s[n..])
  }

  predicate AllWhitespace(s: string) {
    forall i :: 0 <= i < |s| ==> IsJsWhitespace(s[i])
  }

  /** Every token is non-empty and holds no whitespace. */
  lemma {:induction false} TokensAreWords(s: string)
    ensures forall t :: t in Tokens(s) ==> |t| > 0 && forall i :: 0 <= i < |t| ==> !IsJsWhitespace(t[i])
    decreases |s|
  {
    if s == [] {
    } else if IsJsWhitespace(s[0]) {
      TokensAreWords(s[1..]);
    } else {
      var n := WordLength(s);
      TokensAreWords(s[n..]);
    }
  }

  /** Text yields no token exactly when it is empty or all whitespace. */
  lemma {:induction false} TokensEmptyIffBlank(s: string)
    ensures Tokens(s) == [] <==> AllWhitespace(s)
    decreases |s|
  {
    if s == [] {
    } else if IsJsWhitespace(s[0]) {
      TokensEmptyIffBlank(s[1..]);
      assert AllWhitespace(s) <==> AllWhitespace(s[1..]) by {
        if AllWhitespace(s[1..]) {
          forall i | 0 <= i < |s| ensures IsJsWhitespace(s[i]) {
            if i > 0 { assert s[i] == s[1..][i - 1]; }
          }
        }
      }
    } else {
      assert !AllWhitespace(s);
    }
  }

  lemma {:induction false} WordLengthOfExtended(x: string, y: string)
    requires WordLength(x) < |x| || (y != [] && IsJsWhitespace(y[0]))
    ensures WordLength(x + y) == WordLength(x)
    decreases |x|
  {
    if x == [] {
    } else if IsJsWhitespace(x[0]) {
    } else {
      assert (x + y)[1..] == x[1..] + y;
      WordLengthOfExtended(x[1..], y);
    }
  }

  /** Splitting text just before a whitespace character splits its tokens:
      no token spans the cut. */
  lemma {:induction false} TokensSplitAtBlank(x: string, z: string)
    requires z == [] || IsJsWhitespace(z[0])
    ensures Tokens(x + z) == Tokens(x) + Tokens(z)
    decreases |x|
  {
    if x == [] {
      assert x + z == z;
    } else if IsJsWhitespace(x[0]) {
      TokensSplitAtBlank(x[1..], z);
      assert (x + z)[1..] == x[1..] + z;
    } else if z == [] {
      assert x + z == x;
    } else {
      TokensSplitAtBlank(x[WordLength(x)..], z);
      WordBeforeBlank(x, z);
    }
  }

  /** A run of whitespace splits like a single whitespace character: doubling a
      separator never creates an extra token. */
  lemma RepeatedWhitespaceAddsNoToken(x: string, w1: char, w2: char, y: string)
    requires IsJsWhitespace(w1) && IsJsWhitespace(w2)
    ensures Tokens(x + [w1] + y) == Tokens(x + [w1, w2] + y)
  {
    assert x + [w1] + y == x + ([w1] + y);
    assert x + [w1, w2] + y == x + ([w1] + ([w2] + y));
    TokensSplitAtBlank(x, [w1] + y);
    TokensSplitAtBlank(x, [w1] + ([w2] + y));
    LeadingBlankAddsNoToken(w1, y);
    LeadingBlankAddsNoToken(w1, [w2] + y);
    LeadingBlankAddsNoToken(w2, y);
  }

  lemma LeadingBlankAddsNoToken(w: char, z: string)
    requires IsJsWhitespace(w)
    ensures Tokens([w] + z) == Tokens(z)
  {
    assert ([w] + z)[1..] == z;
  }

  /** Text that starts with a word splits off that word first, whatever
      follows a whitespace character after it. */
  lemma WordBeforeBlank(x: string, z: string)
    requires x != [] && !IsJsWhitespace(x[0])
    requires z != [] && IsJsWhitespace(z[0])
    ensures Tokens(x + z) == [x[..WordLength(x)]] + Tokens(x[WordLength(x)..] + z)
  {
    WordLengthOfExtended(x, z);
    var n := WordLength(x);
    assert (x + z)[..n] == x[..n];
    assert (x + z)[n..] == x[n..] + z;
  }

  /** A non-empty run of non-whitespace characters. */
  predicate IsWord(w: string) {
    |w| > 0 && forall i :: 0 <= i < |w| ==> !IsJsWhitespace(w[i])
  }

  /** Words joined by single spaces. */
  function JoinWords(words: seq<string>): string {
    if |words| == 0 then []
    else if |words| == 1 then words[0]
    else words[0] + " " + JoinWords(words[1..])
  }

  /** Joining two non-empty word lists is joining each, then a space. */
  lemma {:induction false} JoinWordsAppend(left: seq<string>, right: seq<string>)
    requires |left| > 0 && |right| > 0
    ensures JoinWords(left + right) == JoinWords(left) + " " + JoinWords(right)
  {
    if |left| > 1 {
      JoinWordsAppend(left[1..], right);
      assert (left + right)[1..] == left[1..] + right;
    }
  }

  lemma {:induction false} WordLengthOfWord(w: string)
    requires IsWord(w)
    ensures WordLength(w) == |w|
  {
    if |w| > 1 {
      assert IsWord(w[1..]) by {
        forall i | 0 <= i < |w| - 1 ensures !IsJsWhitespace(w[1..][i]) {
          assert w[1..][i] == w[i + 1];
        }
      }
      WordLengthOfWord(w[1..]);
    }
  }

  /** A word followed by nothing or by whitespace is the first token. */
  lemma WordThenRest(w: string, rest: string)
    requires IsWord(w) && (rest == [] || IsJsWhitespace(rest[0]))
    ensures Tokens(w + rest) == [w] + Tokens(rest)
  {
    WordLengthOfWord(w);
    if rest == [] {
      assert w + rest == w;
      assert w[|w|..] == [];
    } else {
      WordLengthOfExtended(w, rest);
      var s := w + rest;
      assert s[..|w|] == w;
      assert s[|w|..] == rest;
    }
  }

  /** Splitting words joined by single spaces gives back the words. */
  lemma {:induction false} TokensOfJoinedWords(words: seq<string>)
    requires forall k :: 0 <= k < |words| ==> IsWord(words[k])
    ensures Tokens(JoinWords(words)) == words
  {
    if |words| == 1 {
      WordThenRest(words[0], []);
      assert words[0] + [] == words[0];
    } else if |words| > 1 {
      TokensOfJoinedWords(words[1..]);
      var rest := " " + JoinWords(words[1..]);
      WordThenRest(words[0], rest);
      assert JoinWords(words) == words[0] + rest;
      assert rest[1..] == JoinWords(words[1..]);
      assert [words[0]] + words[1..] == words;
    }
  }

  // ---------------------------------------------------------------------
  // Parsing

  /** The hits of the first `n` characters of a token, or the error for the
      first of them that is not a drum symbol. */
  function TokenHits(token: string, n: nat): Result<seq<Hit>, ParseError>
    requires n <= |token|
  {
    if n == 0 then Ok([])
    else
      match TokenHits(token, n - 1)
      case Err(e) => Err(e)
      case Ok(hits) =>
        if IsValidDrumSymbol(token[n - 1]) then Ok(hits + [Hit(token[n - 1], DefaultVelocity, 0.0)])
        else Err(InvalidSymbol(token[n - 1], token))
  }

  /** One token as one step. */
  function ParseToken(token: string): Result<Step, ParseError> {
    if token == "." then Ok(Step([], true))
    else
      match TokenHits(token, |token|)
      case Err(e) => Err(e)
      case Ok(hits) => Ok(Step(hits, |hits| == 0))
  }

  /** Tokens parsed left to right; the first failing token decides the error. */
  function ParseTokens(tokens: seq<string>): Result<seq<Step>, ParseError> {
    if tokens == [] then Ok([])
    else
      match ParseTokens(tokens[..|tokens| - 1])
      case Err(e) => Err(e)
      case Ok(steps) =>
        match ParseToken(tokens[|tokens| - 1])
        case Err(e) => Err(e)
        case Ok(step) => Ok(steps + [step])
  }

  /** What `parsePattern(text)` returns or throws. */
  function Parse(text: string): Result<seq<Step>, ParseError> {
    ParseTokens(Tokens(text))
  }

  /** `parsePattern`: loops over the tokens, and over the characters of each
      token that is not a rest, stopping at the first character outside the
      alphabet. */
  method ParsePattern(text: string) returns (r: Result<seq<Step>, ParseError>)
    ensures r == Parse(text)
  {
    if AllWhitespace(text) {
      TokensEmptyIffBlank(text);
      return Ok([]);
    }
    var tokens := Tokens(text);
    var steps: seq<Step> := [];
    for t := 0 to |tokens|
      invariant ParseTokens(tokens[..t]) == Ok(steps)
    {
      var token := tokens[t];
      ParseTokensExtend(tokens, t);
      if token == "." {
        steps := steps + [Step([], true)];
        continue;
      }
      var hits := ParseHits(token);
      if hits.Err? {
        ErrorPersists(tokens, t + 1);
        assert tokens[..|tokens|] == tokens;
        return Err(hits.error);
      }
      steps := steps + [Step(hits.value, |hits.value| == 0)];
    }
    assert tokens[..|tokens|] == tokens;
    return Ok(steps);
  }

  /** The inner loop of `parsePattern`: one hit per character of a token. */
  method ParseHits(token: string) returns (r: Result<seq<Hit>, ParseError>)
    ensures r == TokenHits(token, |token|)
  {
    var hits: seq<Hit> := [];
    for j := 0 to |token|
      invariant TokenHits(token, j) == Ok(hits)
    {
      TokenHitsExtend(token, j, hits);
      if !IsValidDrumSymbol(token[j]) {
        TokenHitsErrorPersists(token, j + 1);
        return Err(InvalidSymbol(token[j], token));
      }
      hits := hits + [Hit(token[j], DefaultVelocity, 0.0)];
    }
    return Ok(hits);
  }

  /** Parsing one more token extends the steps or fails with that token. */
  lemma ParseTokensExtend(tokens: seq<string>, t: nat)
    requires t < |tokens|
    ensures ParseTokens(tokens[..t + 1]) ==
      match ParseTokens(tokens[..t])
      case Err(e) => Err(e)
      case Ok(steps) =>
        match ParseToken(tokens[t])
        case Err(e) => Err(e)
        case Ok(step) => Ok(steps + [step])
  {
    assert tokens[..t + 1][..t] == tokens[..t];
  }

  lemma TokenHitsExtend(token: string, j: nat, hits: seq<Hit>)
    requires j < |token| && TokenHits(token, j) == Ok(hits)
    ensures TokenHits(token, j + 1) ==
      if IsValidDrumSymbol(token[j]) then Ok(hits + [Hit(token[j], DefaultVelocity, 0.0)])
      else Err(InvalidSymbol(token[j], token))
  {
  }

  /** Once a prefix of a token fails, the whole token fails the same way. */
  lemma {:induction false} TokenHitsErrorPersists(token: string, k: nat)
    requires k <= |token| && TokenHits(token, k).Err?
    ensures TokenHits(token, |token|) == TokenHits(token, k)
    decreases |token| - k
  {
    if k < |token| {
      TokenHitsErrorPersists(token, k + 1);
    }
  }

  /** Once a prefix of the tokens fails, the whole parse fails the same way. */
  lemma {:induction false} ErrorPersists(tokens: seq<string>, k: nat)
    requires k <= |tokens| && ParseTokens(tokens[..k]).Err?
    ensures ParseTokens(tokens) == ParseTokens(tokens[..k])
    decreases |tokens| - k
  {
    if k < |tokens| {
      assert tokens[..k + 1][..k] == tokens[..k];
      ErrorPersists(tokens, k + 1);
    } else {
      assert tokens[..k] == tokens;
    }
  }

  // ---------------------------------------------------------------------
  // What a parse produces

  /** A token made only of drum symbols. */
  predicate SymbolsValid(token: string) {
    forall i :: 0 <= i < |token| ==> IsValidDrumSymbol(token[i])
  }

  /** A token that the parser accepts: the rest marker or drum symbols only. */
  predicate TokenAccepted(token: string) {
    token == "." || SymbolsValid(token)
  }

  /** The step an accepted token stands for: a rest for `.`, otherwise one hit
      per character, in order, at the default velocity with no offset. */
  function StepOfToken(token: string): Step {
    if token == "." then Step([], true)
    else Step(seq(|token|, i requires 0 <= i < |token| => Hit(token[i], DefaultVelocity, 0.0)), |token| == 0)
  }

  lemma {:induction false} TokenHitsOk(token: string, n: nat)
    requires n <= |token|
    ensures TokenHits(token, n).Ok? <==> forall i :: 0 <= i < n ==> IsValidDrumSymbol(token[i])
    ensures TokenHits(token, n).Ok? ==>
      TokenHits(token, n).value == seq(n, i requires 0 <= i < n => Hit(token[i], DefaultVelocity, 0.0))
  {
    if n > 0 {
      TokenHitsOk(token, n - 1);
      if TokenHits(token, n).Ok? {
        assert seq(n, i requires 0 <= i < n => Hit(token[i], DefaultVelocity, 0.0))
            == seq(n - 1, i requires 0 <= i < n - 1 => Hit(token[i], DefaultVelocity, 0.0)) + [Hit(token[n - 1], DefaultVelocity, 0.0)];
      }
    }
  }

  lemma {:induction false} TokenHitsErr(token: string, n: nat)
    requires n <= |token| && TokenHits(token, n).Err?
    ensures TokenHits(token, n).error.token == token
    ensures exists k :: 0 <= k < n && TokenHits(token, n).error.symbol == token[k] && !IsValidDrumSymbol(token[k])
                        && forall i :: 0 <= i < k ==> IsValidDrumSymbol(token[i])
  {
    if TokenHits(token, n - 1).Err? {
      TokenHitsErr(token, n - 1);
      var k :| 0 <= k < n - 1 && TokenHits(token, n - 1).error.symbol == token[k] && !IsValidDrumSymbol(token[k])
               && forall i :: 0 <= i < k ==> IsValidDrumSymbol(token[i]);
      assert TokenHits(token, n).error.symbol == token[k];
    } else {
      TokenHitsOk(token, n - 1);
      var k := n - 1;
      assert TokenHits(token, n).error.symbol == token[k] && !IsValidDrumSymbol(token[k]);
      assert forall i :: 0 <= i < k ==> IsValidDrumSymbol(token[i]);
    }
  }

  /** A token parses exactly when it is accepted, and then to the step it
      stands for; otherwise the error names it and one of its characters that
      is outside the alphabet, the first such character. */
  lemma ParseTokenMeaning(token: string)
    ensures ParseToken(token).Ok? <==> TokenAccepted(token)
    ensures ParseToken(token).Ok? ==> ParseToken(token).value == StepOfToken(token)
    ensures ParseToken(token).Err? ==>
      var e := ParseToken(token).error;
      e.token == token && token != "." && e.symbol in token && !IsValidDrumSymbol(e.symbol)
      && exists k :: 0 <= k < |token| && token[k] == e.symbol && forall i :: 0 <= i < k ==> IsValidDrumSymbol(token[i])
  {
    if token != "." {
      TokenHitsOk(token, |token|);
      if TokenHits(token, |token|).Err? {
        TokenHitsErr(token, |token|);
      }
    }
  }

  /** Parsing succeeds exactly when every token is accepted; then there is one
      step per token, each the step that token stands for. */
  lemma {:induction false} ParseTokensMeaning(tokens: seq<string>)
    ensures ParseTokens(tokens).Ok? <==> forall t :: t in tokens ==> TokenAccepted(t)
    ensures ParseTokens(tokens).Ok? ==>
      var steps := ParseTokens(tokens).value;
      |steps| == |tokens| && forall i :: 0 <= i < |tokens| ==> steps[i] == StepOfToken(tokens[i])
    ensures ParseTokens(tokens).Err? ==>
      var e := ParseTokens(tokens).error;
      e.token in tokens && e.symbol in e.token && e.token != "." && !IsValidDrumSymbol(e.symbol)
  {
    if tokens != [] {
      var init := tokens[..|tokens| - 1];
      var last := tokens[|tokens| - 1];
      ParseTokensMeaning(init);
      ParseTokenMeaning(last);
      assert tokens == init + [last];
      assert forall t :: t in tokens <==> t in init || t == last;
      assert (forall t :: t in tokens ==> TokenAccepted(t)) <==> (forall t :: t in init ==> TokenAccepted(t)) && TokenAccepted(last);
    }
  }

  /** `parsePattern` in terms of the text: empty or blank text gives no steps;
      otherwise one step per whitespace-separated token, or the error of the
      first character outside the alphabet, naming it and its token. */
  lemma ParseMeaning(text: string)
    ensures AllWhitespace(text) ==> Parse(text) == Ok([])
    ensures Parse(text).Ok? <==> forall t :: t in Tokens(text) ==> TokenAccepted(t)
    ensures Parse(text).Ok? ==>
      var steps := Parse(text).value;
      |steps| == |Tokens(text)| && forall i :: 0 <= i < |steps| ==> steps[i] == StepOfToken(Tokens(text)[i])
    ensures Parse(text).Err? ==>
      var e := Parse(text).error;
      e.token in Tokens(text) && e.symbol in e.token && !IsValidDrumSymbol(e.symbol)
  {
    TokensEmptyIffBlank(text);
    ParseTokensMeaning(Tokens(text));
  }

  /** Every parsed step rests exactly when it has no hits, a rest only ever
      comes from a `.` token, and every hit has a symbol of the alphabet, the
      default velocity and offset 0. */
  lemma ParsedStepsWellFormed(text: string)
    requires Parse(text).Ok?
    ensures forall s :: s in Parse(text).value ==> WellFormedStep(s)
    ensures forall s, h :: s in Parse(text).value && h in s.hits ==>
              IsValidDrumSymbol(h.symbol) && h.velocity == DefaultVelocity && h.offset == 0.0
  {
    ParseMeaning(text);
    TokensAreWords(text);
    var toks := Tokens(text);
    var steps := Parse(text).value;
    forall s | s in steps
      ensures WellFormedStep(s)
      ensures forall h :: h in s.hits ==> IsValidDrumSymbol(h.symbol) && h.velocity == DefaultVelocity && h.offset == 0.0
    {
      var i :| 0 <= i < |steps| && steps[i] == s;
      assert toks[i] in toks;
      assert TokenAccepted(toks[i]);
    }
  }

  /** `calculateBars`: the number of 16-step bars needed to hold `stepCount`
      steps, that is the ceiling of stepCount / 16. */
  function CalculateBars(stepCount: nat): (bars: nat)
    ensures bars * 16 >= stepCount
    ensures bars == 0 || (bars - 1) * 16 < stepCount
  {
    (stepCount + 15) / 16
  }

  /** The bar counts of the parser's unit tests. */
  lemma CalculateBarsExamples()
    ensures CalculateBars(0) == 0 && CalculateBars(1) == 1 && CalculateBars(8) == 1
    ensures CalculateBars(16) == 1 && CalculateBars(17) == 2 && CalculateBars(32) == 2
    ensures CalculateBars(48) == 3
  {
  }

  /** Parser unit-test example: empty and blank text give no steps. */
  lemma ParseBlankExamples()
    ensures Parse("") == Ok([]) && Parse("   ") == Ok([])
  {
    TokensEmptyIffBlank("   ");
  }

  /** The unit test that expects `x` to be rejected predates `x` joining the
      alphabet as a closed hi-hat: `k x s` parses. */
  lemma ParseAcceptsX()
    ensures Parse("k x s").Ok?
  {
    var toks := ["k", "x", "s"];
    TokensOfXExample();
    SymbolAccepted('k');
    SymbolAccepted('x');
    SymbolAccepted('s');
    assert forall t :: t in toks ==> TokenAccepted(t);
    ParseTokensMeaning(toks);
  }

  lemma SymbolAccepted(c: char)
    requires IsValidDrumSymbol(c)
    ensures TokenAccepted([c])
  {
  }

  lemma TokensOfXExample()
    ensures Tokens("k x s") == ["k", "x", "s"]
  {
    assert "k x s" == "k" + ([' '] + ("x" + ([' '] + "s")));
    TokensOfSymbol('k');
    TokensOfSymbol('x');
    TokensOfSymbol('s');
    LeadingBlankAddsNoToken(' ', "s");
    TokensSplitAtBlank("x", [' '] + "s");
    LeadingBlankAddsNoToken(' ', "x" + ([' '] + "s"));
    TokensSplitAtBlank("k", [' '] + ("x" + ([' '] + "s")));
  }

  lemma TokensOfSymbol(c: char)
    requires !IsJsWhitespace(c)
    ensures Tokens([c]) == [[c]]
  {
    var s := [c];
    assert s[1..] == [];
    assert WordLength(s) == 1;
    assert s[..1] == s;
  }

}
