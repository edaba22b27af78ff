/** The value types shared by the parser, the note-shaping transforms and the
    scheduler (src/types/pattern.ts). */
module DrumTypes {

  /** One voice trigger inside a step: a drum symbol, a velocity in 0..1 and an
      intra-step timing offset in seconds. Times and velocities are reals. */
  datatype Hit = Hit(symbol: char, velocity: real, offset: real)

  /** One grid slot: the simultaneous hits and the rest flag. */
  datatype Step = Step(hits: seq<Hit>, isRest: bool)

  datatype Feel = Straight | Swing | Shuffle

  /** The letter ids of the four patterns of a drum set. */
  datatype PatternLetter = A | B | C | D

  /** The invariant every parsed or generated step keeps: a step rests exactly
      when it has no hits. */
  predicate WellFormedStep(s: Step) {
    s.isRest <==> |s.hits| == 0
  }

  /** JavaScript's `%` truncates toward zero, so the remainder takes the sign of
      the dividend; Dafny's `%` is Euclidean. */
  function JsRem(a: int, b: int): (r: int)
    requires b > 0
    ensures a >= 0 ==> r == a % b
    ensures a < 0 ==> -b < r <= 0
  {
    if a >= 0 then a % b else -((-a) % b)
  }
}
