/** The records and closed enumerations shared by the spend model and the
    rebate evaluators. Every number is an exact `real`, an idealisation of the
    JavaScript doubles the program computes with. */
module Types {

  datatype Province = AB | SK | MB | BC | ON | QC | NB | NS | PE | NL

  datatype BudgetLevel = Low | Med | High

  datatype Category =
    | PreSeedHerb
    | InCropHerb
    | Fungicide
    | Insecticide
    | SeedTreatment
    | BiologicalsPGR
    | SeedTrait

  datatype Crop =
    | Canola | Wheat | Barley | Oats | Durum | Peas | Lentils
    | Soybeans | Corn | Sunflowers | Other

  /** What a grower intends for one category of one crop plan. */
  datatype Intent = Intent(enabled: bool, budget: BudgetLevel)

  /** One grower declaration; `intents` is partial: a missing category is
      the same as a disabled one. Acres are not checked to be non-negative. */
  datatype CropPlan = CropPlan(crop: Crop, acres: real, intents: map<Category, Intent>)

  datatype FarmInput = FarmInput(
    province: Province,
    year: int,
    earlyPurchase: bool,
    bundleFriendly: bool,
    plans: seq<CropPlan>)

  /** A `Record<Category, number>`: every one of the seven categories has a value. */
  type CategoryAmounts = m: map<Category, real> | forall c: Category :: c in m
    witness map c: Category :: 0.0

  /** Modeled dollars and proxy acres per category, for one crop or the whole farm. */
  datatype CropModeledSpend = CropModeledSpend(
    byCategory: CategoryAmounts,
    total: real,
    acresByCategory: CategoryAmounts)

  /** The farm-wide bucket (spread into the top level of the result in the
      source) and one bucket per crop that occurs in the plans. */
  datatype ModeledSpend = ModeledSpend(
    overall: CropModeledSpend,
    byCrop: map<Crop, CropModeledSpend>)

  /** The human-readable notes of a program result, as tagged variants
      instead of formatted text. */
  datatype Note =
      /** The tier reached (0 is reported as not reached). */
    | TierStatus(tier: nat)
      /** The modeled total is under the first FMC breakpoint. */
    | TierNotReached
      /** The matching-acre bonus was paid, on this many acres rounded to a whole acre. */
    | MatchingBonusApplied(roundedAcres: int)
      /** Fewer than two Bayer segments reached 300 acres. */
    | SegmentSavingsNotReached
      /** Segment Savings paid at this percentage for this many segments. */
    | SegmentSavingsApplied(percent: real, segments: nat)
      /** The caveat naming the program features that are not modeled. */
    | UnmodeledFeaturesCaveat
      /** A note of an evaluator that is not part of this model. */
    | Remark(text: string)

  /** A breakdown line: its label (`caption`, as `label` is a Dafny keyword) and value. */
  datatype LineItem = LineItem(caption: string, value: real)

  datatype ProgramResult = ProgramResult(
    company: string,
    estimatedCashback: real,
    estimatedPerAcre: real,
    notes: seq<Note>,
    breakdown: seq<LineItem>)

  /** The sum of the values of a list of breakdown lines. */
  function LineSum(items: seq<LineItem>): real
  {
    if items == [] then 0.0 else LineSum(items[..|items| - 1]) + items[|items| - 1].value
  }

  function Min(a: real, b: real): (r: real)
    ensures r <= a && r <= b && (r == a || r == b)
  {
    if a <= b then a else b
  }

  function Max(a: real, b: real): (r: real)
    ensures a <= r && b <= r && (r == a || r == b)
  {
    if a >= b then a else b
  }

  function Abs(x: real): (r: real)
    ensures r >= 0.0 && (r == x || r == -x)
  {
    if x < 0.0 then -x else x
  }
}
