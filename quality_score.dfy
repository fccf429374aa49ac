/**
 * The QualityScore component (src/components/QualityScore.tsx): three
 * threshold chains that map a score to a colour token, a label and an icon.
 * None of them clamps the score, so every integer is classified.
 */
module QualityScore {

  import opened Theme
  import opened Types

  /** Lowest score labelled Excellent (and coloured success). */
  const ExcellentFrom := 80
  /** Lowest score labelled Good (and coloured warning). */
  const GoodFrom := 60
  /** Lowest score labelled Fair. */
  const FairFrom := 40

  datatype Label = Poor | Fair | Good | Excellent

  /** Position of a label in the order Poor < Fair < Good < Excellent. */
  function Rank(l: Label): nat
  {
    match l
    case Poor => 0
    case Fair => 1
    case Good => 2
    case Excellent => 3
  }

  /** `getScoreColor`: success from 80, warning from 60, error below. */
  function ScoreColor(score: int): (c: ColorToken)
    ensures c == Success <==> score >= ExcellentFrom
    ensures c == Warning <==> GoodFrom <= score < ExcellentFrom
    ensures c == Error <==> score < GoodFrom
  {
    if score >= 80 then Success
    else if score >= 60 then Warning
    else Error
  }

  /** `getScoreLabel`: each label owns one half-open band of scores. */
  function ScoreLabel(score: int): (l: Label)
    ensures l == Excellent <==> score >= ExcellentFrom
    ensures l == Good <==> GoodFrom <= score < ExcellentFrom
    ensures l == Fair <==> FairFrom <= score < GoodFrom
    ensures l == Poor <==> score < FairFrom
  {
    if score >= 80 then Excellent
    else if score >= 60 then Good
    else if score >= 40 then Fair
    else Poor
  }

  /** `getScoreIcon`: checkmark from 80, warning from 60, a cross below. */
  function ScoreIcon(score: int): (i: Icon)
    ensures i == CheckmarkCircleIcon <==> score >= ExcellentFrom
    ensures i == WarningIcon <==> GoodFrom <= score < ExcellentFrom
    ensures i == CloseCircleIcon <==> score < GoodFrom
  {
    if score >= 80 then CheckmarkCircleIcon
    else if score >= 60 then WarningIcon
    else CloseCircleIcon
  }

  /** The icon that goes with each colour tier of the component. */
  function TierIcon(c: ColorToken): Icon
  {
    match c
    case Success => CheckmarkCircleIcon
    case Warning => WarningIcon
    case _ => CloseCircleIcon
  }

  /** A higher score never gets a lower-ranked label. */
  lemma LabelMonotone(a: int, b: int)
    requires a <= b
    ensures Rank(ScoreLabel(a)) <= Rank(ScoreLabel(b))
  {
  }

  /** The label changes exactly at 80, 60 and 40. */
  lemma LabelBoundaries()
    ensures ScoreLabel(80) == Excellent && ScoreLabel(79) == Good
    ensures ScoreLabel(60) == Good && ScoreLabel(59) == Fair
    ensures ScoreLabel(40) == Fair && ScoreLabel(39) == Poor
  {
  }

  /** Colour and icon use the same cut points, so their tiers always coincide. */
  lemma IconFollowsColor(score: int)
    ensures ScoreIcon(score) == TierIcon(ScoreColor(score))
    ensures ScoreColor(score) == Success <==> ScoreLabel(score) == Excellent
    ensures ScoreColor(score) == Warning <==> ScoreLabel(score) == Good
  {
  }

  /** Fair and Poor are told apart only by the label text. */
  lemma FairAndPoorShareTier(a: int, b: int)
    requires ScoreLabel(a) == Fair && ScoreLabel(b) == Poor
    ensures ScoreColor(a) == ScoreColor(b) == Error
    ensures ScoreIcon(a) == ScoreIcon(b) == CloseCircleIcon
  {
  }

  /** Scores outside 0..100 are not clamped: they fall into the outer bands. */
  lemma NoClamping(score: int)
    ensures score > 100 ==> ScoreLabel(score) == Excellent && ScoreColor(score) == Success
    ensures score < 0 ==> ScoreLabel(score) == Poor && ScoreIcon(score) == CloseCircleIcon
  {
  }
}
