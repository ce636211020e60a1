/** The result screen's two rule tables: the colour of the score and the
    performance message, each an ordered chain of thresholds. */
module ResultScreen {

  datatype ScoreColor = Green | Yellow | Red

  /** `getScoreColor`. */
  function ScoreColorOf(score: int): (c: ScoreColor)
    ensures c == Green <==> score >= 80
    ensures c == Yellow <==> 60 <= score < 80
    ensures c == Red <==> score < 60
  {
    if score >= 80 then Green
    else if score >= 60 then Yellow
    else Red
  }

  function ColorClass(c: ScoreColor): string
  {
    match c
    case Green => "text-green-600"
    case Yellow => "text-yellow-600"
    case Red => "text-red-600"
  }

  /** The four message tiers, from lowest to highest. */
  datatype Tier = KeepPracticing | Good | VeryGood | Excellent

  function Rank(t: Tier): nat
  {
    match t
    case KeepPracticing => 0
    case Good => 1
    case VeryGood => 2
    case Excellent => 3
  }

  /** The first tier of `getPerformanceMessage` whose condition holds. */
  function PerformanceTier(score: int, errors: int): (t: Tier)
    ensures t == Excellent <==> score >= 90 && errors <= 1
    ensures t == VeryGood <==> !(score >= 90 && errors <= 1) && score >= 70 && errors <= 3
    ensures t == Good <==> !(score >= 70 && errors <= 3) && score >= 50
    ensures t == KeepPracticing <==> score < 50
  {
    if score >= 90 && errors <= 1 then Excellent
    else if score >= 70 && errors <= 3 then VeryGood
    else if score >= 50 then Good
    else KeepPracticing
  }

  function TierMessage(t: Tier): string
  {
    match t
    case Excellent => "🌟 Excelente trabalho!"
    case VeryGood => "👍 Muito bem!"
    case Good => "😊 Bom trabalho!"
    case KeepPracticing => "💪 Continue praticando!"
  }

  /** `getPerformanceMessage`: always one of the four messages. */
  function PerformanceMessage(score: int, errors: int): (m: string)
    ensures m in {"🌟 Excelente trabalho!", "👍 Muito bem!", "😊 Bom trabalho!", "💪 Continue praticando!"}
    ensures m == "🌟 Excelente trabalho!" <==> score >= 90 && errors <= 1
    ensures m == "👍 Muito bem!" <==> !(score >= 90 && errors <= 1) && score >= 70 && errors <= 3
    ensures m == "😊 Bom trabalho!" <==> !(score >= 70 && errors <= 3) && score >= 50
    ensures m == "💪 Continue praticando!" <==> score < 50
  {
    TierMessage(PerformanceTier(score, errors))
  }

  /** With errors fixed, a higher score never gives a lower tier. */
  lemma TierMonotoneInScore(s1: int, s2: int, errors: int)
    requires s1 <= s2
    ensures Rank(PerformanceTier(s1, errors)) <= Rank(PerformanceTier(s2, errors))
  {
  }

  /** With the score fixed, fewer errors never give a lower tier. */
  lemma TierMonotoneInErrors(score: int, e1: int, e2: int)
    requires e2 <= e1
    ensures Rank(PerformanceTier(score, e1)) <= Rank(PerformanceTier(score, e2))
  {
  }

  /** A higher score never gives a colour further down the scale. */
  lemma ColorMonotone(s1: int, s2: int)
    requires s1 <= s2
    ensures ScoreColorOf(s1) == Green ==> ScoreColorOf(s2) == Green
    ensures ScoreColorOf(s2) == Red ==> ScoreColorOf(s1) == Red
  {
  }
}
