/** The validity classification the pattern editor shows while the user types
    (src/components/PatternEditor/PatternInput.tsx, the effect at lines 36-60):
    a parse error, an empty pattern, too few or too many steps, or valid. */
module PatternInputValidation {
  import opened Wrappers
  import PatternParser
  import JsText

  const MinPatternSteps: nat := 2
  const MaxPatternSteps: nat := 64

  /** What the editor displays: the validity flag, the error text (`null` when
      valid) and the step count. */
  datatype Validation = Validation(isValid: bool, message: Option<string>, stepCount: nat)

  const EmptyMessage: string := "Pattern is empty"

  function TooShortMessage(): string {
    "Too short (min " + JsText.IntToDecimal(MinPatternSteps) + ")"
  }

  function TooLongMessage(): string {
    "Too long (max " + JsText.IntToDecimal(MaxPatternSteps) + ")"
  }

  function ValidatePattern(text: string): (v: Validation)
    ensures v.isValid <==>
      PatternParser.Parse(text).Ok? && MinPatternSteps <= |PatternParser.Parse(text).value| <= MaxPatternSteps
    ensures v.isValid <==> v.message.None?
    ensures PatternParser.Parse(text).Err? ==>
      v == Validation(false, Some(PatternParser.ErrorMessage(PatternParser.Parse(text).error)), 0)
    ensures PatternParser.Parse(text).Ok? ==> v.stepCount == |PatternParser.Parse(text).value|
  {
    match PatternParser.Parse(text)
    case Err(e) => Validation(false, Some(PatternParser.ErrorMessage(e)), 0)
    case Ok(pattern) =>
      if |pattern| == 0 then Validation(false, Some(EmptyMessage), 0)
      else if |pattern| < MinPatternSteps then Validation(false, Some(TooShortMessage()), |pattern|)
      else if |pattern| > MaxPatternSteps then Validation(false, Some(TooLongMessage()), |pattern|)
      else Validation(true, None, |pattern|)
  }

  /** The interpolated messages read "Too short (min 2)" and "Too long (max 64)". */
  lemma MessagesSpelledOut()
    ensures TooShortMessage() == "Too short (min 2)"
    ensures TooLongMessage() == "Too long (max 64)"
  {
    assert JsText.NatToDecimal(64) == JsText.NatToDecimal(6) + [JsText.DigitChar(4)];
  }

  /** The classification in terms of the text's tokens: valid exactly when
      every token is a rest mark or a run of drum symbols and there are 2 to 64
      of them; a blank text is reported empty; one token is too short. */
  lemma ValidationByTokens(text: string)
    ensures ValidatePattern(text).isValid <==>
      (forall t :: t in PatternParser.Tokens(text) ==> PatternParser.TokenAccepted(t))
      && 2 <= |PatternParser.Tokens(text)| <= 64
    ensures PatternParser.AllWhitespace(text) ==>
      ValidatePattern(text) == Validation(false, Some("Pattern is empty"), 0)
    ensures PatternParser.Parse(text).Ok? && |PatternParser.Tokens(text)| == 1 ==>
      ValidatePattern(text) == Validation(false, Some("Too short (min 2)"), 1)
    ensures PatternParser.Parse(text).Ok? && |PatternParser.Tokens(text)| > 64 ==>
      ValidatePattern(text) == Validation(false, Some("Too long (max 64)"), |PatternParser.Tokens(text)|)
  {
    PatternParser.ParseMeaning(text);
    MessagesSpelledOut();
  }
}
