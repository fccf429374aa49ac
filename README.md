# Nutrient scanner screens — a Dafny model

The repository is a React Native app for a barcode-scanning nutrition scanner.
It has no scoring algorithm: the quality score, warnings and benefits of the
scanned product are literals. What logic it does have sits inside its
components, and this project models it:

- **QualityScore** (`quality_score.dfy`): the component's three threshold chains,
  which map a score to a colour token, a label (Poor/Fair/Good/Excellent) and an
  icon. These are exact band characterisations, with monotonicity and boundary
  facts and the agreement of colour tier and icon tier.
- **ProductDetails** (`product_details.dfy`): this screen's own copies of the
  label and colour chains, which are proved to agree with the component or to
  differ from it in the stated way. Also the score panel, whose bar width is the
  unclamped score, and the seven-card nutrient grid, which is nothing when
  nutrients are absent.
- **History** (`history.dfy`): the history screen as a class with its two state
  fields, `scannedItems` (a `seq`) and `loading`. `LoadHistory` sorts a fresh
  array in place newest first, by insertion sort. The model proves the result is
  a permutation of the stored list and that `loading` is cleared in every
  outcome. Also modelled: `ClearHistory`, the badge colour, the relative-time
  buckets of `formatTimestamp` as a function of `(timestamp, now)` in
  milliseconds, and the loading/empty/list render decision.
- **ScanScreen** (`scan_screen.dfy`): the scan screen as a class with
  `isScanning` and `scannedProduct`, driven by start, timer-fired and
  scan-another events. A third field, `pendingTimers`, stands for the scheduled
  2-second callbacks. The render is a pure function of the state, and tapping
  only the buttons on screen keeps the screen "settled": exactly one timer while
  scanning, and no product during a scan.
- **WeightGraph** (`weight_graph.dfy`): the weight chart over any non-empty list
  of integer weights. It covers the summary figures, the y-axis labels with
  JavaScript's round-half-up midpoint, point positions as percentages, the
  connection lines and the x-axis labels.

`types.dfy` holds the record shapes. `src/types/index.ts:1-28` does not declare
the history entry (`ScannedItem`), so its fields are inferred from what the
screens read. `theme.dfy` names colour tokens instead of hex values, because
several tokens share `#000000`. `wrappers.dfy` holds `Option`.

Time, storage and timers are inputs. `now` is a parameter. A storage read is
`StorageRead` (the read or parse failed, or the stored list, which may be
absent). Whether the removal succeeded is passed to `ClearHistory` as a flag.
The timer is the explicit event `TimerFired`.

## Model

| member | source | states |
|---|---|---|
| QualityScore.ScoreColor | src/components/QualityScore.tsx:11-15 | success exactly for scores >= 80, warning exactly for 60..79, error exactly below 60 |
| QualityScore.ScoreLabel | src/components/QualityScore.tsx:17-22 | Excellent iff score >= 80, Good iff 60 <= score < 80, Fair iff 40 <= score < 60, Poor iff score < 40 |
| QualityScore.ScoreIcon | src/components/QualityScore.tsx:24-28 | checkmark-circle iff score >= 80, warning iff 60..79, close-circle otherwise |
| QualityScore.LabelMonotone | src/components/QualityScore.tsx:17-22 | a higher score never gets a lower-ranked label |
| QualityScore.LabelBoundaries | src/components/QualityScore.tsx:18-21 | 80 is Excellent, 79 and 60 Good, 59 and 40 Fair, 39 Poor |
| QualityScore.IconFollowsColor | src/components/QualityScore.tsx:11-28 | the icon is the one of the colour tier; success colour iff Excellent, warning colour iff Good |
| QualityScore.FairAndPoorShareTier | src/components/QualityScore.tsx:11-28 | Fair and Poor scores share the error colour and the close-circle icon |
| QualityScore.NoClamping | src/components/QualityScore.tsx:10-22 | scores above 100 classify as Excellent/success, negative scores as Poor/close-circle |
| ProductDetails.QualityColor | src/screens/ProductDetailsScreen.tsx:14-18 | secondary exactly for 60 <= score < 80, the text token for every other score |
| ProductDetails.QualityLabel | src/screens/ProductDetailsScreen.tsx:20-25 | this screen's label chain gives the same label as the QualityScore component for every score |
| ProductDetails.SecondaryExactlyWhenGood | src/screens/ProductDetailsScreen.tsx:14-25 | the secondary colour marks exactly the scores labelled Good |
| ProductDetails.HighAndLowShareColor | src/screens/ProductDetailsScreen.tsx:14-18 | a score >= 80 and a score < 60 get the same (text) colour |
| ProductDetails.RenderQualityScore | src/screens/ProductDetailsScreen.tsx:38-73 | bar width is exactly score percent with no clamping; disc, bar and label all take the screen's quality colour (secondary iff the label is Good, text otherwise) |
| ProductDetails.RenderNutrientGrid | src/screens/ProductDetailsScreen.tsx:75-106 | nothing iff nutrients are absent; otherwise seven cards in the order Calories..Sodium, each copying its own field's value and unit, under the calories entry's serving basis |
| ProductDetails.GridShowsEachNutrientOnce | src/screens/ProductDetailsScreen.tsx:79-87 | every nutrient has a card and no caption appears twice |
| History.SortNewestFirst | src/screens/HistoryScreen.tsx:24-25 | the array ends newest first (non-increasing timestamps) and is a permutation of what it held |
| History.HistoryScreen.constructor | src/screens/HistoryScreen.tsx:12-13 | the list starts empty and loading starts true |
| History.HistoryScreen.LoadHistory | src/screens/HistoryScreen.tsx:19-33 | a stored list becomes the items, newest first, nothing added or dropped; a failed or empty read leaves the items as they were; loading is false in every outcome, so the screen never shows the loading view afterwards |
| History.HistoryScreen.ClearHistory | src/screens/HistoryScreen.tsx:35-42 | a successful removal leaves the list empty; a failed one changes nothing; loading is untouched; once loaded, a successful clear shows the empty state |
| History.QualityColor | src/screens/HistoryScreen.tsx:44-48 | success for score >= 80, warning for 60..79, error below 60 |
| History.BadgeMatchesScoreComponent | src/screens/HistoryScreen.tsx:44-48 | the badge colour equals the QualityScore component's colour for every score |
| History.FormatTimestamp | src/screens/HistoryScreen.tsx:50-62 | "Just now" iff less than an hour elapsed (future times included); "h ago" iff 1 to 24 hours elapsed, with the whole number of hours elapsed, always 1..23; otherwise the scan's date |
| History.FormatTimestampMonotone | src/screens/HistoryScreen.tsx:50-62 | an older scan never shows a more recent bucket or fewer hours than a newer one |
| History.RenderHistory | src/screens/HistoryScreen.tsx:64-113 | loading view iff loading; empty state iff not loading and no items; otherwise the header count is the list length and there is one row per item in order, with its name, brand, barcode, score, badge colour and time text |
| History.RowsAgeDownTheList | src/screens/HistoryScreen.tsx:64-76 | down a newest-first list, the age buckets shown never decrease |
| ScanScreen.Rows | src/screens/ScanScreen.tsx:138-153 | one row per text, in list order, each with the given icon and colour |
| ScanScreen.RenderScan | src/screens/ScanScreen.tsx:55-168 | result view iff a product is set; the scan section's camera icon, colour, texts and button icon follow the scanning flag, and the button is disabled and titled "Scanning..." exactly while scanning; the result has six cards with no sodium, one warning row per health warning and one benefit row per benefit, in order, under the product's name, brand and barcode, and ends with the enabled "Scan Another Product" button |
| ScanScreen.ResultCardsAreDetailGridWithoutSodium | src/screens/ScanScreen.tsx:103-132 | the result view's cards are the product detail grid's first six cards |
| ScanScreen.Screen.constructor | src/screens/ScanScreen.tsx:38-39 | not scanning, no product, no timer pending |
| ScanScreen.Screen.HandleStartScan | src/screens/ScanScreen.tsx:41-49 | scanning becomes true, the product is unchanged, one more timer is scheduled |
| ScanScreen.Screen.TimerFired | src/screens/ScanScreen.tsx:45-48 | scanning becomes false and the product becomes the mock product |
| ScanScreen.Screen.HandleScanAnother | src/screens/ScanScreen.tsx:51-53 | the product becomes null; scanning is unchanged |
| ScanScreen.Screen.PressStartButton | src/screens/ScanScreen.tsx:77-83 | a tap starts a scan only when the start button is shown and enabled; the screen stays settled |
| ScanScreen.Screen.PressScanAnother | src/screens/ScanScreen.tsx:156-162 | a tap clears the product only from the result view; the screen stays settled |
| ScanScreen.Screen.SettledTimerFired | src/screens/ScanScreen.tsx:45-48 | on a settled screen the timer leaves it settled, showing the mock product with no timer pending |
| WeightGraph.MaxWeight | src/components/WeightProgressGraph.tsx:20 | at least every weight, and equal to one of them |
| WeightGraph.MinWeight | src/components/WeightProgressGraph.tsx:21 | at most every weight, and equal to one of them |
| WeightGraph.Summarize | src/components/WeightProgressGraph.tsx:17-22 | start is the first weight, current the last, loss their difference; min <= every weight <= max, both attained; the loss lies within plus or minus the range |
| WeightGraph.JsRound | src/components/WeightProgressGraph.tsx:35 | Math.round: the nearest integer, with halves going up |
| WeightGraph.MidLabel | src/components/WeightProgressGraph.tsx:35 | the middle label lies in [min, max] and is the ceiling of (max + min) / 2 |
| WeightGraph.YAxisLabels | src/components/WeightProgressGraph.tsx:33-37 | three labels, max then the rounded midpoint (MidLabel) then min, non-increasing |
| WeightGraph.ScaledShare | src/components/WeightProgressGraph.tsx:48-49 | a part of a positive whole scaled to 0..100 in proportion (share times whole equals part times 100): 0 iff the part is 0, 100 iff it is the whole |
| WeightGraph.HeightPercentage | src/components/WeightProgressGraph.tsx:48 | in [0, 100] when the range is positive; 0 iff the point is at max, 100 iff at min; in between, proportional to the point's distance below max |
| WeightGraph.HeightOrdersWeights | src/components/WeightProgressGraph.tsx:48 | a heavier point is drawn no lower than a lighter one |
| WeightGraph.HeightToScale | src/components/WeightProgressGraph.tsx:48 | the vertical gap between any two points is their weight difference as a share of the range: the chart is drawn to scale |
| WeightGraph.LeftPercentage | src/components/WeightProgressGraph.tsx:49 | with n >= 2 points: in [0, 100], 0 for the first point and 100 for the last, proportional to the index |
| WeightGraph.LeftStrictlyIncreasing | src/components/WeightProgressGraph.tsx:49 | the left position strictly increases with the index |
| WeightGraph.LeftEvenlySpaced | src/components/WeightProgressGraph.tsx:49 | neighbouring points are always 100 / (n - 1) percent apart |
| WeightGraph.ConnectionLine | src/components/WeightProgressGraph.tsx:62-81 | the line of point i starts at point i-1's position, is 100 / (n - 1) wide, and ends at point i's left |
| WeightGraph.Points | src/components/WeightProgressGraph.tsx:47-84 | one point per weight in order, at its left and height percentages, with a line exactly after the first, and that line is the point's ConnectionLine |
| WeightGraph.OneLinePerStep | src/components/WeightProgressGraph.tsx:62 | there are exactly n - 1 connection lines |
| WeightGraph.XAxisLabels | src/components/WeightProgressGraph.tsx:88-92 | exactly one label per point, W1 to Wn |

## Left out

- The nutrient quality score has no formula in the code. It and the warning and benefit lists are literals (`src/screens/ScanScreen.tsx:16`, `:26-34`), so the model only carries them in `MockProduct`.
- AsyncStorage reads and removals, `JSON.parse` and `console.error` are I/O. Their outcomes are inputs (`StorageRead`, the `removed` flag), and a parse failure counts as a failed read.
- `useEffect` runs `loadHistory` once on mount. It is left to the caller. Concurrent loads and clears are not modelled: each method runs to completion.
- The 2-second `setTimeout` is not timed. Its firing is the `TimerFired` event. The timer is never cancelled in the code, and the model does not cover unmounting.
- Locale date formatting (`toLocaleDateString`) is a foreign library. The history's older-than-a-day text is the abstract `LocaleDate(timestamp)`. The detail screen's `formatTimestamp` (`src/screens/ProductDetailsScreen.tsx:27-36`) is not modelled.
- Invalid dates are not modelled. Timestamps are integer milliseconds, so the NaN that an invalid date gives in JavaScript cannot arise.
- Floating point: percentages are exact reals, not IEEE doubles. Scores and weights are modelled as integers, though JavaScript numbers may have fractions.
- The `atan2` rotation of connection lines is left out. So are the circumference and `strokeDasharray` of the detail screen: they are floating geometry.
- The weight chart's empty list is excluded by a precondition. In JavaScript, `weightData[0]` would throw on an empty list.
- A single point or a zero range is excluded by a precondition too. There the code divides by zero and renders NaN positions.
- The chart's subtitle and stat texts (`-{totalLoss} lbs in 6 weeks`, with "6 weeks" fixed text) are left out. The model keeps only the numbers they show.
- SortNewestFirst: does not state that items with equal timestamps keep their stored order (`Array.prototype.sort` is stable), only sortedness and permutation.
- Styles, theme hex values, Button variant styling, the NutrientCard layout, navigation (`App.tsx`, `src/screens/HomeScreen.tsx`) and `src/screens/PaywallScreen.tsx` (a plan toggle that only changes labels) are presentation only. The QualityScore component's layout around its three classifiers is left out for the same reason.
