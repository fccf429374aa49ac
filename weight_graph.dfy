/**
 * The weight progress graph (src/components/WeightProgressGraph.tsx) over an
 * arbitrary non-empty list of integer weights, one per week: the summary
 * figures, the three y-axis labels, where each point and connecting line sits
 * (as percentages of the chart area) and the x-axis labels.
 */
module WeightGraph {

  import opened Wrappers

  /** `Math.max(...weights)`: an upper bound that some weight attains. */
  function MaxWeight(w: seq<int>): (m: int)
    requires |w| > 0
    ensures forall i :: 0 <= i < |w| ==> w[i] <= m
    ensures exists i :: 0 <= i < |w| && w[i] == m
  {
    if |w| == 1 then w[0]
    else
      var rest := MaxWeight(w[1..]);
      assert forall i :: 1 <= i < |w| ==> w[i] == w[1..][i - 1];
      if w[0] >= rest then w[0] else rest
  }

  /** `Math.min(...weights)`: a lower bound that some weight attains. */
  function MinWeight(w: seq<int>): (m: int)
    requires |w| > 0
    ensures forall i :: 0 <= i < |w| ==> m <= w[i]
    ensures exists i :: 0 <= i < |w| && w[i] == m
  {
    if |w| == 1 then w[0]
    else
      var rest := MinWeight(w[1..]);
      assert forall i :: 1 <= i < |w| ==> w[i] == w[1..][i - 1];
      if w[0] <= rest then w[0] else rest
  }

  /** The header and footer figures, with the y-range used for scaling. */
  datatype Summary = Summary(start: int, current: int, totalLoss: int, max: int, min: int, range: int)

  /**
   * Start is the first weight, current the last, the loss their difference;
   * max and min bound every weight, and the loss never exceeds the range.
   */
  function Summarize(w: seq<int>): (s: Summary)
    requires |w| > 0
    ensures s.start == w[0] && s.current == w[|w| - 1]
    ensures s.totalLoss == w[0] - w[|w| - 1]
    ensures forall i :: 0 <= i < |w| ==> s.min <= w[i] <= s.max
    ensures (exists i :: 0 <= i < |w| && w[i] == s.max) && (exists i :: 0 <= i < |w| && w[i] == s.min)
    ensures s.range == s.max - s.min >= 0
    ensures -s.range <= s.totalLoss <= s.range
  {
    var start := w[0];
    var current := w[|w| - 1];
    var max := MaxWeight(w);
    var min := MinWeight(w);
    Summary(start, current, start - current, max, min, max - min)
  }

  /** JavaScript's `Math.round`: to the nearest integer, halves upward. */
  function JsRound(x: real): (r: int)
    ensures r as real - 0.5 <= x < r as real + 0.5
  {
    (x + 0.5).Floor
  }

  /**
   * The middle y-axis label `Math.round((max + min) / 2)`: it lies between
   * min and max and is the midpoint rounded up, ceil((max + min) / 2).
   */
  function MidLabel(max: int, min: int): (r: int)
    requires min <= max
    ensures min <= r <= max
    ensures 2 * r - 1 <= max + min <= 2 * r
  {
    JsRound((max + min) as real / 2.0)
  }

  /** The y-axis labels from top to bottom: max, midpoint, min. */
  function YAxisLabels(w: seq<int>): (labels: seq<int>)
    requires |w| > 0
    ensures |labels| == 3
    ensures labels[0] == Summarize(w).max && labels[2] == Summarize(w).min
    ensures labels[1] == MidLabel(Summarize(w).max, Summarize(w).min)
    ensures labels[0] >= labels[1] >= labels[2]
  {
    var s := Summarize(w);
    [s.max, MidLabel(s.max, s.min), s.min]
  }

  /**
   * `heightPercentage`, the point's distance from the top: 0 at the heaviest
   * weight, 100 at the lightest, in between otherwise. A zero range would
   * divide by zero, so the range must be positive.
   */
  function HeightPercentage(w: seq<int>, i: int): (h: real)
    requires 0 <= i < |w| && Summarize(w).range > 0
    ensures 0.0 <= h <= 100.0
    ensures h == 0.0 <==> w[i] == Summarize(w).max
    ensures h == 100.0 <==> w[i] == Summarize(w).min
    ensures h * Summarize(w).range as real == (Summarize(w).max - w[i]) as real * 100.0
  {
    var s := Summarize(w);
    ScaledShare(s.max - w[i], s.range)
  }

  /** `(part / whole) * 100` for 0 <= part <= whole. */
  function ScaledShare(part: int, whole: int): (p: real)
    requires 0 <= part <= whole && whole > 0
    ensures 0.0 <= p <= 100.0
    ensures p == 0.0 <==> part == 0
    ensures p == 100.0 <==> part == whole
    ensures p * whole as real == part as real * 100.0
  {
    (part as real / whole as real) * 100.0
  }

  /** A heavier point is drawn no lower than a lighter one. */
  lemma HeightOrdersWeights(w: seq<int>, i: int, j: int)
    requires 0 <= i < |w| && 0 <= j < |w| && Summarize(w).range > 0
    requires w[i] <= w[j]
    ensures HeightPercentage(w, j) <= HeightPercentage(w, i)
  {
    var s := Summarize(w);
    ShareMonotone(s.max - w[j], s.max - w[i], s.range);
  }

  /** A larger part is a larger share of the same whole. */
  lemma ShareMonotone(small: int, large: int, whole: int)
    requires 0 <= small <= large <= whole && whole > 0
    ensures ScaledShare(small, whole) <= ScaledShare(large, whole)
  {
    var d := whole as real;
    var x, y := small as real / d, large as real / d;
    assert y - x == (large - small) as real / d;
  }

  /**
   * `leftPercentage = (index / (n - 1)) * 100`: 0 for the first point and 100
   * for the last. With a single point this divides by zero, so n >= 2.
   */
  function LeftPercentage(n: int, index: int): (l: real)
    requires n >= 2 && 0 <= index < n
    ensures 0.0 <= l <= 100.0
    ensures index == 0 ==> l == 0.0
    ensures index == n - 1 ==> l == 100.0
    ensures l * (n - 1) as real == index as real * 100.0
  {
    ScaledShare(index, n - 1)
  }

  /** Points are spread strictly left to right in list order. */
  lemma LeftStrictlyIncreasing(n: int, i: int, j: int)
    requires n >= 2 && 0 <= i < j < n
    ensures LeftPercentage(n, i) < LeftPercentage(n, j)
  {
  }

  /**
   * The chart is drawn to scale: the vertical gap between two points is
   * their weight difference as a share of the range.
   */
  lemma HeightToScale(w: seq<int>, i: int, j: int)
    requires 0 <= i < |w| && 0 <= j < |w| && Summarize(w).range > 0
    ensures (HeightPercentage(w, i) - HeightPercentage(w, j)) * Summarize(w).range as real
      == (w[j] - w[i]) as real * 100.0
  {
  }

  /** Neighbouring points are always 100 / (n - 1) percent apart. */
  lemma LeftEvenlySpaced(n: int, i: int)
    requires n >= 2 && 0 <= i < n - 1
    ensures LeftPercentage(n, i + 1) - LeftPercentage(n, i) == 100.0 / (n - 1) as real
  {
  }

  /** The segment drawn from the previous point towards point `index`. */
  datatype Line = Line(left: real, width: real, top: real)

  /**
   * The connection line of point `index` > 0 starts at the previous point
   * (its left and top) and is one step wide, so it ends at this point's left.
   */
  function ConnectionLine(w: seq<int>, index: int): (line: Line)
    requires |w| >= 2 && 0 < index < |w| && Summarize(w).range > 0
    ensures line.left == LeftPercentage(|w|, index - 1)
    ensures line.top == HeightPercentage(w, index - 1)
    ensures line.left + line.width == LeftPercentage(|w|, index)
    ensures line.width == 100.0 / (|w| - 1) as real
  {
    var n := |w|;
    var d := (n - 1) as real;
    assert (index - 1) as real / d + 1.0 / d == index as real / d;
    Line(((index - 1) as real / d) * 100.0, 100.0 / d, HeightPercentage(w, index - 1))
  }

  /** One data point: where it is drawn and, after the first, its line. */
  datatype Point = Point(left: real, top: real, line: Option<Line>)

  /** The `weightData.map` of the chart: one point per weight, in order. */
  function Points(w: seq<int>): (ps: seq<Point>)
    requires |w| >= 2 && Summarize(w).range > 0
    ensures |ps| == |w|
    ensures forall i :: 0 <= i < |w| ==>
      ps[i].left == LeftPercentage(|w|, i) && ps[i].top == HeightPercentage(w, i)
    ensures forall i :: 0 <= i < |w| ==> (ps[i].line.Some? <==> i > 0)
    ensures forall i :: 0 < i < |w| ==> ps[i].line == Some(ConnectionLine(w, i))
  {
    seq(|w|, i requires 0 <= i < |w| =>
      Point(LeftPercentage(|w|, i), HeightPercentage(w, i),
        if i > 0 then Some(ConnectionLine(w, i)) else None))
  }

  /** How many of the points carry a connection line. */
  function LineCount(ps: seq<Point>): nat
  {
    if ps == [] then 0 else (if ps[0].line.Some? then 1 else 0) + LineCount(ps[1..])
  }

  /** The count of points that have a line, for any suffix of the points. */
  lemma {:induction false} LineCountFrom(ps: seq<Point>, k: nat)
    requires 0 < k <= |ps|
    requires forall i :: 0 <= i < |ps| ==> (ps[i].line.Some? <==> i > 0)
    ensures LineCount(ps[k..]) == |ps| - k
    decreases |ps| - k
  {
    if k < |ps| {
      LineCountFrom(ps, k + 1);
      assert ps[k..][1..] == ps[k + 1..];
    }
  }

  /** There are exactly n - 1 connection lines, one for each point after the first. */
  lemma OneLinePerStep(w: seq<int>)
    requires |w| >= 2 && Summarize(w).range > 0
    ensures LineCount(Points(w)) == |w| - 1
  {
    var ps := Points(w);
    LineCountFrom(ps, 1);
  }

  /** The x-axis label "W<number>". */
  datatype WeekLabel = W(number: int)

  /** One x-axis label per point, W1 to Wn. */
  function XAxisLabels(n: nat): (labels: seq<WeekLabel>)
    ensures |labels| == n
    ensures forall i :: 0 <= i < n ==> labels[i] == W(i + 1)
  {
    seq(n, i requires 0 <= i < n => W(i + 1))
  }
}
