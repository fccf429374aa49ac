/**
 * Record shapes shared by the screens: a nutrient amount, the nutrient table,
 * the product shown after a scan, the history entry, and the props of the
 * nutrient card and of the icons the screens draw.
 */
module Types {

  import opened Wrappers

  /** One nutrient amount, `{ value, unit, per }`. */
  datatype NutrientValue = NutrientValue(value: real, unit: string, per: string)

  /** The seven tracked nutrients of a product. */
  datatype Nutrients = Nutrients(
    calories: NutrientValue,
    protein: NutrientValue,
    carbs: NutrientValue,
    fat: NutrientValue,
    fiber: NutrientValue,
    sugar: NutrientValue,
    sodium: NutrientValue)

  /** The product record a scan produces. */
  datatype ProductInfo = ProductInfo(
    name: string,
    brand: string,
    barcode: string,
    qualityScore: int,
    nutrients: Nutrients,
    healthWarnings: seq<string>,
    benefits: seq<string>)

  /**
   * An entry of the scan history. The repository never declares this type;
   * its fields are the ones the history and detail screens read, and
   * `timestamp` is the scan time in milliseconds since the epoch.
   */
  datatype ScannedItem = ScannedItem(
    id: string,
    productName: string,
    brand: string,
    barcode: string,
    timestamp: int,
    qualityScore: int,
    nutrients: Option<Nutrients>)

  /** Which of the seven nutrients a field is. */
  datatype NutrientKind = Calories | Protein | Carbs | Fat | Fiber | Sugar | Sodium

  /** The field of `n` that holds nutrient `k`. */
  function Field(n: Nutrients, k: NutrientKind): NutrientValue
  {
    match k
    case Calories => n.calories
    case Protein => n.protein
    case Carbs => n.carbs
    case Fat => n.fat
    case Fiber => n.fiber
    case Sugar => n.sugar
    case Sodium => n.sodium
  }

  /** The caption a nutrient card shows for nutrient `k`. */
  function KindName(k: NutrientKind): string
  {
    match k
    case Calories => "Calories"
    case Protein => "Protein"
    case Carbs => "Carbs"
    case Fat => "Fat"
    case Fiber => "Fiber"
    case Sugar => "Sugar"
    case Sodium => "Sodium"
  }

  /** The order in which both screens lay out their nutrient cards. */
  const CardOrder: seq<NutrientKind> := [Calories, Protein, Carbs, Fat, Fiber, Sugar, Sodium]

  /** Props of the NutrientCard component: caption, amount and unit. */
  datatype NutrientCard = NutrientCard(name: string, value: real, unit: string)

  /** The card that shows field `k` of `n` under its own caption. */
  function CardFor(n: Nutrients, k: NutrientKind): NutrientCard
  {
    NutrientCard(KindName(k), Field(n, k).value, Field(n, k).unit)
  }

  /** The Ionicons glyphs the modelled screens choose between. */
  datatype Icon = ScanIcon | CameraIcon | WarningIcon | CheckmarkCircleIcon | CloseCircleIcon
}
