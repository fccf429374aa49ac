/**
 * The product detail screen (src/screens/ProductDetailsScreen.tsx): its own
 * copies of the score classifiers, the score panel, and the nutrient grid
 * built from a scanned item.
 */
module ProductDetails {

  import opened Wrappers
  import opened Theme
  import opened Types
  import QualityScore

  /**
   * `getQualityColor`: the secondary token for Good scores, the text token
   * for every other score, so high and low scores look the same.
   */
  function QualityColor(score: int): (c: ColorToken)
    ensures c == Secondary <==> QualityScore.GoodFrom <= score < QualityScore.ExcellentFrom
    ensures c != Secondary ==> c == Text
  {
    if score >= 80 then Text
    else if score >= 60 then Secondary
    else Text
  }

  /** `getQualityLabel`: this screen's copy of the label chain agrees with the component's. */
  function QualityLabel(score: int): (l: QualityScore.Label)
    ensures l == QualityScore.ScoreLabel(score)
  {
    if score >= 80 then QualityScore.Excellent
    else if score >= 60 then QualityScore.Good
    else if score >= 40 then QualityScore.Fair
    else QualityScore.Poor
  }

  /** The secondary colour marks exactly the scores labelled Good. */
  lemma SecondaryExactlyWhenGood(score: int)
    ensures QualityColor(score) == Secondary <==> QualityLabel(score) == QualityScore.Good
  {
  }

  /** Excellent and below-Good scores share one colour token. */
  lemma HighAndLowShareColor(high: int, low: int)
    requires high >= QualityScore.ExcellentFrom && low < QualityScore.GoodFrom
    ensures QualityColor(high) == QualityColor(low) == Text
  {
  }

  /** What the score panel draws: the number, its tinted parts and the label. */
  datatype QualityPanel = QualityPanel(
    scoreText: int,
    innerColor: ColorToken,
    barWidthPercent: int,
    barColor: ColorToken,
    scoreLabel: QualityScore.Label,
    labelColor: ColorToken)

  /**
   * `renderQualityScore`: the bar is `score` percent wide with no clamping, and
   * the inner disc, the bar and the label all take the screen's quality colour.
   */
  function RenderQualityScore(score: int): (p: QualityPanel)
    ensures p.scoreText == score && p.barWidthPercent == score
    ensures p.innerColor == p.barColor == p.labelColor == QualityColor(score)
    ensures p.labelColor == Secondary <==> p.scoreLabel == QualityScore.Good
    ensures p.scoreLabel == QualityScore.ScoreLabel(score)
  {
    var color := QualityColor(score);
    QualityPanel(score, color, score, color, QualityLabel(score), color)
  }

  /** The nutrition facts section: the serving basis and the cards in order. */
  datatype NutrientGrid = NutrientGrid(servingBasis: string, cards: seq<NutrientCard>)

  /**
   * `renderNutrientGrid`: nothing without nutrients; otherwise seven cards in
   * the order Calories, Protein, Carbs, Fat, Fiber, Sugar, Sodium, each copying
   * the value and unit of its own field, under "Per" the calories' basis.
   */
  function RenderNutrientGrid(item: ScannedItem): (g: Option<NutrientGrid>)
    ensures g.None? <==> item.nutrients.None?
    ensures g.Some? ==> g.value.servingBasis == item.nutrients.value.calories.per
    ensures g.Some? ==> |g.value.cards| == |CardOrder| == 7
    ensures g.Some? ==> forall i :: 0 <= i < 7 ==>
      g.value.cards[i] == CardFor(item.nutrients.value, CardOrder[i])
  {
    match item.nutrients
    case None => None
    case Some(n) =>
      Some(NutrientGrid(n.calories.per, [
        NutrientCard("Calories", n.calories.value, n.calories.unit),
        NutrientCard("Protein", n.protein.value, n.protein.unit),
        NutrientCard("Carbs", n.carbs.value, n.carbs.unit),
        NutrientCard("Fat", n.fat.value, n.fat.unit),
        NutrientCard("Fiber", n.fiber.value, n.fiber.unit),
        NutrientCard("Sugar", n.sugar.value, n.sugar.unit),
        NutrientCard("Sodium", n.sodium.value, n.sodium.unit)
      ]))
  }

  /** Every nutrient appears in the grid exactly once. */
  lemma GridShowsEachNutrientOnce(item: ScannedItem, k: NutrientKind)
    requires item.nutrients.Some?
    ensures exists i :: 0 <= i < 7 && RenderNutrientGrid(item).value.cards[i] == CardFor(item.nutrients.value, k)
    ensures forall i, j :: 0 <= i < j < 7 ==>
      RenderNutrientGrid(item).value.cards[i].name != RenderNutrientGrid(item).value.cards[j].name
  {
    var i := match k
      case Calories => 0 case Protein => 1 case Carbs => 2 case Fat => 3
      case Fiber => 4 case Sugar => 5 case Sodium => 6;
    assert CardOrder[i] == k;
    assert RenderNutrientGrid(item).value.cards[i] == CardFor(item.nutrients.value, k);
  }
}
