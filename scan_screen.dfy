/**
 * The scan screen (src/screens/ScanScreen.tsx): two state fields driven by
 * "start scanning", the simulated scanner's timer and "scan another", and a
 * render that is a pure function of those fields.
 */
module ScanScreen {

  import opened Wrappers
  import opened Theme
  import opened Types
  import ProductDetails

  /** The product every simulated scan yields. */
  const MockProduct := ProductInfo(
    "Sample Cereal", "HealthyBrand", "1234567890123", 75,
    Nutrients(
      NutrientValue(150.0, "kcal", "100g"),
      NutrientValue(8.5, "g", "100g"),
      NutrientValue(60.0, "g", "100g"),
      NutrientValue(2.1, "g", "100g"),
      NutrientValue(5.2, "g", "100g"),
      NutrientValue(12.0, "g", "100g"),
      NutrientValue(180.0, "mg", "100g")),
    ["Contains high amount of sugar", "May contain traces of gluten"],
    ["Good source of fiber", "Fortified with vitamins", "Low in fat"])

  /** Props of a Button: its title, whether presses are ignored, its icon. */
  datatype ButtonView = ButtonView(title: string, disabled: bool, icon: Icon)

  /** The camera placeholder and the start button. */
  datatype ScanSection = ScanSection(
    cameraIcon: Icon,
    cameraColor: ColorToken,
    cameraText: string,
    cameraSubtext: string,
    button: ButtonView)

  /** One warning or benefit line: its icon, the icon's colour and the text. */
  datatype HealthRow = HealthRow(icon: Icon, color: ColorToken, text: string)

  /** The scan result: header, score, nutrient cards, warnings and benefits. */
  datatype ResultSection = ResultSection(
    name: string,
    brand: string,
    barcode: string,
    score: int,
    cards: seq<NutrientCard>,
    warnings: seq<HealthRow>,
    benefits: seq<HealthRow>,
    scanAnother: ButtonView)

  datatype ScanView = Scanning(section: ScanSection) | Result(result: ResultSection)

  /** One row per entry of `texts`, in list order. */
  function Rows(texts: seq<string>, icon: Icon, color: ColorToken): (rows: seq<HealthRow>)
    ensures |rows| == |texts|
    ensures forall i :: 0 <= i < |texts| ==> rows[i] == HealthRow(icon, color, texts[i])
  {
    seq(|texts|, i requires 0 <= i < |texts| => HealthRow(icon, color, texts[i]))
  }

  /**
   * The render. Without a product it shows the scan section, whose button is
   * disabled and titled "Scanning..." exactly while scanning. With one it
   * shows the result: six nutrient cards (no sodium), one warning row per
   * health warning and one benefit row per benefit, in list order.
   */
  function RenderScan(isScanning: bool, product: Option<ProductInfo>): (v: ScanView)
    ensures v.Result? <==> product.Some?
    ensures v.Scanning? ==> v.section.button.disabled == isScanning
    ensures v.Scanning? ==> (v.section.button.title == "Scanning..." <==> isScanning)
    ensures v.Scanning? ==> (v.section.cameraText == "Scanning..." <==> isScanning)
    ensures v.Scanning? ==>
      v.section.cameraIcon == v.section.button.icon == (if isScanning then ScanIcon else CameraIcon)
    ensures v.Scanning? ==> v.section.cameraColor == (if isScanning then Primary else TextSecondary)
    ensures v.Scanning? ==> (v.section.cameraSubtext == "Hold steady while scanning barcode" <==> isScanning)
    ensures v.Scanning? && !isScanning ==>
      v.section.cameraText == "Camera will be here" &&
      v.section.cameraSubtext == "Point your camera at a product barcode" &&
      v.section.button.title == "Start Scanning"
    ensures v.Result? ==>
      v.result.name == product.value.name && v.result.brand == product.value.brand &&
      v.result.barcode == product.value.barcode
    ensures v.Result? ==> v.result.score == product.value.qualityScore
    ensures v.Result? ==> v.result.scanAnother == ButtonView("Scan Another Product", false, ScanIcon)
    ensures v.Result? ==> |v.result.cards| == 6
    ensures v.Result? ==> forall i :: 0 <= i < 6 ==>
      v.result.cards[i] == CardFor(product.value.nutrients, CardOrder[i])
    ensures v.Result? ==> forall i :: 0 <= i < 6 ==> v.result.cards[i].name != "Sodium"
    ensures v.Result? ==> |v.result.warnings| == |product.value.healthWarnings|
    ensures v.Result? ==> forall i :: 0 <= i < |v.result.warnings| ==>
      v.result.warnings[i] == HealthRow(WarningIcon, Error, product.value.healthWarnings[i])
    ensures v.Result? ==> |v.result.benefits| == |product.value.benefits|
    ensures v.Result? ==> forall i :: 0 <= i < |v.result.benefits| ==>
      v.result.benefits[i] == HealthRow(CheckmarkCircleIcon, Success, product.value.benefits[i])
  {
    match product
    case None =>
      Scanning(ScanSection(
        if isScanning then ScanIcon else CameraIcon,
        if isScanning then Primary else TextSecondary,
        if isScanning then "Scanning..." else "Camera will be here",
        if isScanning then "Hold steady while scanning barcode" else "Point your camera at a product barcode",
        ButtonView(if isScanning then "Scanning..." else "Start Scanning", isScanning,
          if isScanning then ScanIcon else CameraIcon)))
    case Some(p) =>
      var n := p.nutrients;
      Result(ResultSection(p.name, p.brand, p.barcode, p.qualityScore,
        [ NutrientCard("Calories", n.calories.value, n.calories.unit),
          NutrientCard("Protein", n.protein.value, n.protein.unit),
          NutrientCard("Carbs", n.carbs.value, n.carbs.unit),
          NutrientCard("Fat", n.fat.value, n.fat.unit),
          NutrientCard("Fiber", n.fiber.value, n.fiber.unit),
          NutrientCard("Sugar", n.sugar.value, n.sugar.unit) ],
        Rows(p.healthWarnings, WarningIcon, Error),
        Rows(p.benefits, CheckmarkCircleIcon, Success),
        ButtonView("Scan Another Product", false, ScanIcon)))
  }

  /**
   * The result view's cards are the product detail grid without its last
   * (sodium) card.
   */
  lemma ResultCardsAreDetailGridWithoutSodium(p: ProductInfo, item: ScannedItem)
    requires item.nutrients == Some(p.nutrients)
    ensures RenderScan(false, Some(p)).result.cards == ProductDetails.RenderNutrientGrid(item).value.cards[..6]
  {
    var cards := RenderScan(false, Some(p)).result.cards;
    var grid := ProductDetails.RenderNutrientGrid(item).value.cards;
    forall i | 0 <= i < 6
      ensures cards[i] == grid[i]
    {
    }
  }

  /** The scan screen's state, plus the simulated scanner's pending timers. */
  class Screen {
    var isScanning: bool
    var scannedProduct: Option<ProductInfo>
    /** The 2-second callbacks scheduled by a start and not yet fired. */
    var pendingTimers: nat

    /** A scan in progress always has a timer on the way to finish it. */
    ghost predicate Valid()
      reads this
    {
      isScanning ==> pendingTimers > 0
    }

    /**
     * Reached by pressing only the buttons on screen: one timer exactly
     * while scanning, and no product shown during a scan.
     */
    ghost predicate Settled()
      reads this
    {
      pendingTimers == (if isScanning then 1 else 0) &&
      (isScanning ==> scannedProduct == None)
    }

    /** Initially not scanning and no product. */
    constructor ()
      ensures !isScanning && scannedProduct == None && pendingTimers == 0
      ensures Valid() && Settled()
    {
      isScanning := false;
      scannedProduct := None;
      pendingTimers := 0;
    }

    function View(): ScanView
      reads this
    {
      RenderScan(isScanning, scannedProduct)
    }

    /** `handleStartScan`: scanning begins; the product is untouched; a timer is scheduled. */
    method HandleStartScan()
      requires Valid()
      modifies this
      ensures Valid()
      ensures isScanning && scannedProduct == old(scannedProduct)
      ensures pendingTimers == old(pendingTimers) + 1
    {
      isScanning := true;
      pendingTimers := pendingTimers + 1;
    }

    /** The timer callback: scanning stops and the mock product is shown. */
    method TimerFired()
      requires Valid() && pendingTimers > 0
      modifies this
      ensures Valid()
      ensures !isScanning && scannedProduct == Some(MockProduct)
      ensures pendingTimers == old(pendingTimers) - 1
    {
      isScanning := false;
      scannedProduct := Some(MockProduct);
      pendingTimers := pendingTimers - 1;
    }

    /** `handleScanAnother`: the product is cleared; scanning is untouched. */
    method HandleScanAnother()
      requires Valid()
      modifies this
      ensures Valid()
      ensures scannedProduct == None
      ensures isScanning == old(isScanning) && pendingTimers == old(pendingTimers)
    {
      scannedProduct := None;
    }

    /**
     * A tap on the start button: it reaches `handleStartScan` only when the
     * button is on screen and enabled, otherwise nothing happens.
     */
    method PressStartButton()
      requires Valid() && Settled()
      modifies this
      ensures Valid() && Settled()
      ensures if old(View()).Scanning? && !old(View()).section.button.disabled
        then isScanning && scannedProduct == None && pendingTimers == 1
        else isScanning == old(isScanning) && scannedProduct == old(scannedProduct) &&
             pendingTimers == old(pendingTimers)
    {
      var v := View();
      if v.Scanning? && !v.section.button.disabled {
        HandleStartScan();
      }
    }

    /** A tap on "Scan Another Product": only the result view has that button. */
    method PressScanAnother()
      requires Valid() && Settled()
      modifies this
      ensures Valid() && Settled()
      ensures old(View()).Result? ==> scannedProduct == None && isScanning == old(isScanning)
      ensures !old(View()).Result? ==>
        isScanning == old(isScanning) && scannedProduct == old(scannedProduct)
      ensures pendingTimers == old(pendingTimers)
    {
      var v := View();
      if v.Result? {
        HandleScanAnother();
      }
    }

    /** The timer firing on a settled screen leaves it settled. */
    method SettledTimerFired()
      requires Valid() && Settled() && pendingTimers > 0
      modifies this
      ensures Valid() && Settled()
      ensures !isScanning && scannedProduct == Some(MockProduct) && pendingTimers == 0
    {
      TimerFired();
    }
  }

  /** One full cycle: start, the timer, scan another, each with the view it leaves. */
  method ScanCycle()
  {
    var s := new Screen();
    assert s.View().Scanning? && !s.View().section.button.disabled;
    s.PressStartButton();
    assert s.View().section.button.title == "Scanning..." && s.View().section.button.disabled;
    s.PressStartButton();
    assert s.pendingTimers == 1;
    s.SettledTimerFired();
    assert s.View().Result? && |s.View().result.warnings| == 2 && |s.View().result.benefits| == 3;
    s.PressScanAnother();
    assert s.View().Scanning? && s.View().section.button.title == "Start Scanning";
  }
}
