/** The spend model: turns a farm's crop plans into modeled dollars and
    "proxy acres" per category, farm-wide and per crop, using an external
    per-acre assumption table. */
module SpendModel {
  import opened Types

  /** `ALL_CATEGORIES`, in the order the source lists them. */
  const AllCategories: seq<Category> :=
    [PreSeedHerb, InCropHerb, Fungicide, Insecticide, SeedTreatment, BiologicalsPGR, SeedTrait]

  /** Every crop once; used to sum over the per-crop buckets. */
  const AllCrops: seq<Crop> :=
    [Canola, Wheat, Barley, Oats, Durum, Peas, Lentils, Soybeans, Corn, Sunflowers, Other]

  /** The position of a category in `AllCategories`. */
  function CategoryIndex(c: Category): (i: nat)
    ensures i < |AllCategories| && AllCategories[i] == c
  {
    match c
    case PreSeedHerb => 0
    case InCropHerb => 1
    case Fungicide => 2
    case Insecticide => 3
    case SeedTreatment => 4
    case BiologicalsPGR => 5
    case SeedTrait => 6
  }

  predicate Distinct<T(==)>(s: seq<T>)
  {
    forall i, j :: 0 <= i < j < |s| ==> s[i] != s[j]
  }

  lemma AllCropsListed(crop: Crop)
    ensures crop in AllCrops && Distinct(AllCrops)
  {
  }

  /** Dollars per acre by category and budget; entries may be missing. */
  type Profile = map<Category, map<BudgetLevel, real>>

  /** The `spendPerAcre` assumption table; its contents are configuration
      data and are a parameter here. */
  type AssumptionTable = map<Crop, Profile>

  /** The crop's own profile, or the `other` profile when the crop has
      none. When even `other` is missing, every lookup finds nothing, which
      is an empty profile. */
  function ResolveProfile(table: AssumptionTable, crop: Crop): (profile: Profile)
    ensures crop in table ==> profile == table[crop]
    ensures crop !in table && Other in table ==> profile == table[Other]
    ensures crop !in table && Other !in table ==> profile == map[]
  {
    if crop in table then table[crop]
    else if Other in table then table[Other]
    else map[]
  }

  /** The price per acre of a category at a budget level; 0 when the
      profile has no entry for them. */
  function PerAcre(profile: Profile, cat: Category, budget: BudgetLevel): (price: real)
    ensures cat in profile && budget in profile[cat] ==> price == profile[cat][budget]
    ensures cat !in profile || budget !in profile[cat] ==> price == 0.0
  {
    if cat in profile && budget in profile[cat] then profile[cat][budget] else 0.0
  }

  /** The modeled dollars of one category of one plan. */
  function Dollars(perAcre: real, acres: real): real
  {
    perAcre * acres
  }

  /** The plan has an intent for the category and it is enabled. */
  predicate Enabled(plan: CropPlan, cat: Category)
    ensures Enabled(plan, cat) <==> cat in plan.intents && plan.intents[cat].enabled
  {
    cat in plan.intents && plan.intents[cat].enabled
  }

  /** Every category mapped to 0. */
  const NoAmounts: CategoryAmounts := map c: Category :: 0.0

  /** `emptySpend()`: every category present, with 0 dollars and 0 acres. */
  function EmptySpend(): (b: CropModeledSpend)
    ensures forall c :: b.byCategory[c] == 0.0 && b.acresByCategory[c] == 0.0
    ensures b.total == 0.0
  {
    CropModeledSpend(NoAmounts, 0.0, NoAmounts)
  }

  /** The sum of a bucket's dollars, added from left to right in the order
      of `AllCategories`. */
  function SumCategories(m: CategoryAmounts): (s: real)
    ensures s == FoldValues(m, AllCategories)
  {
    FoldAllCategories(m);
    0.0 + m[PreSeedHerb] + m[InCropHerb] + m[Fungicide] + m[Insecticide]
        + m[SeedTreatment] + m[BiologicalsPGR] + m[SeedTrait]
  }

  /** A left-to-right reduction, starting from 0, of the values of the listed
      categories: the reference for how a bucket's dollars are summed. */
  function FoldValues(m: CategoryAmounts, cats: seq<Category>): real
  {
    if cats == [] then 0.0 else FoldValues(m, cats[..|cats| - 1]) + m[cats[|cats| - 1]]
  }

  lemma FoldAllCategories(m: CategoryAmounts)
    ensures FoldValues(m, AllCategories)
         == 0.0 + m[PreSeedHerb] + m[InCropHerb] + m[Fungicide] + m[Insecticide]
              + m[SeedTreatment] + m[BiologicalsPGR] + m[SeedTrait]
  {
    var c1 := [PreSeedHerb];
    var c2 := c1 + [InCropHerb];
    var c3 := c2 + [Fungicide];
    var c4 := c3 + [Insecticide];
    var c5 := c4 + [SeedTreatment];
    var c6 := c5 + [BiologicalsPGR];
    var c7 := c6 + [SeedTrait];
    assert c7 == AllCategories;
    assert c1[..0] == [] && c2[..1] == c1 && c3[..2] == c2 && c4[..3] == c3;
    assert c5[..4] == c4 && c6[..5] == c5 && c7[..6] == c6;
    assert FoldValues(m, c1) == 0.0 + m[PreSeedHerb];
    assert FoldValues(m, c2) == FoldValues(m, c1) + m[InCropHerb];
    assert FoldValues(m, c3) == FoldValues(m, c2) + m[Fungicide];
    assert FoldValues(m, c4) == FoldValues(m, c3) + m[Insecticide];
    assert FoldValues(m, c5) == FoldValues(m, c4) + m[SeedTreatment];
    assert FoldValues(m, c6) == FoldValues(m, c5) + m[BiologicalsPGR];
    assert FoldValues(m, c7) == FoldValues(m, c6) + m[SeedTrait];
  }

  /** One of the two accumulators a bucket keeps for a category. */
  datatype Counter = Spend(cat: Category) | ProxyAcres(cat: Category)

  function Read(b: CropModeledSpend, k: Counter): real
  {
    match k
    case Spend(c) => b.byCategory[c]
    case ProxyAcres(c) => b.acresByCategory[c]
  }

  /** What one plan adds to counter `k` of every bucket it is counted in. */
  function Credit(table: AssumptionTable, plan: CropPlan, k: Counter): real
  {
    if !Enabled(plan, k.cat) then 0.0
    else match k
      case Spend(c) => Dollars(PerAcre(ResolveProfile(table, plan.crop), c, plan.intents[c].budget), plan.acres)
      case ProxyAcres(_) => plan.acres
  }

  /** The farm-wide bucket, or the bucket of one crop. */
  datatype Scope = Farm | OnCrop(crop: Crop)

  predicate InScope(plan: CropPlan, scope: Scope)
  {
    scope.Farm? || scope.crop == plan.crop
  }

  /** Counter `k` of the bucket `scope` after the given plans. */
  function Accumulated(table: AssumptionTable, plans: seq<CropPlan>, scope: Scope, k: Counter): real
  {
    if plans == [] then 0.0
    else
      var last := plans[|plans| - 1];
      Accumulated(table, plans[..|plans| - 1], scope, k)
        + (if InScope(last, scope) then Credit(table, last, k) else 0.0)
  }

  /** The bucket `scope` after the given plans, total included. */
  function Bucket(table: AssumptionTable, plans: seq<CropPlan>, scope: Scope): (b: CropModeledSpend)
    ensures b.total == SumCategories(b.byCategory)
  {
    var byCategory := map c: Category :: Accumulated(table, plans, scope, Spend(c));
    CropModeledSpend(byCategory, SumCategories(byCategory),
                     map c: Category :: Accumulated(table, plans, scope, ProxyAcres(c)))
  }

  function CropsOf(plans: seq<CropPlan>): set<Crop>
  {
    set p | p in plans :: p.crop
  }

  /** What `modelFarmSpend` computes, as a function of its input. */
  function ModelSpec(table: AssumptionTable, input: FarmInput): (m: ModeledSpend)
    ensures m.byCrop.Keys == CropsOf(input.plans)
  {
    ModeledSpend(Bucket(table, input.plans, Farm), CropBuckets(table, input.plans))
  }

  /** One bucket for each crop that occurs in the plans. */
  function CropBuckets(table: AssumptionTable, plans: seq<CropPlan>): (buckets: map<Crop, CropModeledSpend>)
    ensures buckets.Keys == CropsOf(plans)
  {
    map crop | crop in CropsOf(plans) :: Bucket(table, plans, OnCrop(crop))
  }

  /** The inner loop of `modelFarmSpend` applied to one bucket: for every
      enabled category of the plan, in the order of `AllCategories`, the
      plan's dollars and acres are added to that category's counters. */
  method CreditPlan(table: AssumptionTable, plan: CropPlan, cropAssumptions: Profile,
                    bucket0: CropModeledSpend)
    returns (bucket: CropModeledSpend)
    requires cropAssumptions == ResolveProfile(table, plan.crop)
    ensures forall k :: Read(bucket, k) == Read(bucket0, k) + Credit(table, plan, k)
    ensures bucket.total == bucket0.total
  {
    bucket := bucket0;
    ghost var done: set<Category> := {};
    for j := 0 to |AllCategories|
      invariant forall k :: Read(bucket, k)
                  == Read(bucket0, k) + (if k.cat in done then Credit(table, plan, k) else 0.0)
      invariant forall c :: c in done <==> CategoryIndex(c) < j
      invariant bucket.total == bucket0.total
    {
      var cat := AllCategories[j];
      assert CategoryIndex(cat) == j;
      done := done + {cat};
      if !Enabled(plan, cat) {
        continue;
      }
      var budget := plan.intents[cat].budget;
      var dollars := Dollars(PerAcre(cropAssumptions, cat, budget), plan.acres);

      bucket := bucket.(byCategory := bucket.byCategory[cat := bucket.byCategory[cat] + dollars]);
      bucket := bucket.(acresByCategory := bucket.acresByCategory[cat := bucket.acresByCategory[cat] + plan.acres]);
    }
  }

  /** `modelFarmSpend`: buckets are created on demand and their counters
      increased in place, plan by plan and category by category; the totals
      are filled in at the end. */
  method ModelFarmSpend(table: AssumptionTable, input: FarmInput) returns (modeled: ModeledSpend)
    ensures modeled == ModelSpec(table, input)
  {
    var plans := input.plans;
    var overall := EmptySpend();
    var byCrop: map<Crop, CropModeledSpend> := map[];
    TracksNoPlans(table);

    for i := 0 to |plans|
      invariant Tracks(table, plans[..i], overall, byCrop)
    {
      var plan := plans[i];
      var cropAssumptions := ResolveProfile(table, plan.crop);
      ghost var overallBefore, byCropBefore := overall, byCrop;

      if plan.crop !in byCrop {
        byCrop := byCrop[plan.crop := EmptySpend()];
      }
      var cropBucket := byCrop[plan.crop];

      overall := CreditPlan(table, plan, cropAssumptions, overall);
      cropBucket := CreditPlan(table, plan, cropAssumptions, cropBucket);

      byCrop := byCrop[plan.crop := cropBucket];
      assert byCrop == byCropBefore[plan.crop := cropBucket];
      TracksStep(table, plans, i, overallBefore, byCropBefore, overall, cropBucket);
    }
    assert plans[..|plans|] == plans;

    TracksRetotalFarm(table, plans, overall, byCrop);
    overall := overall.(total := SumCategories(overall.byCategory));

    var pending := byCrop.Keys;
    while pending != {}
      invariant pending <= byCrop.Keys
      invariant Tracks(table, plans, overall, byCrop)
      invariant forall crop :: crop in byCrop && crop !in pending ==>
                  byCrop[crop].total == SumCategories(byCrop[crop].byCategory)
      decreases pending
    {
      var crop :| crop in pending;
      TracksRetotalCrop(table, plans, overall, byCrop, crop);
      var bucket := byCrop[crop];
      byCrop := byCrop[crop := bucket.(total := SumCategories(bucket.byCategory))];
      pending := pending - {crop};
    }

    modeled := ModeledSpend(overall, byCrop);
    TracksModel(table, input, overall, byCrop);
  }

  // ---------------------------------------------------------------------
  // The loop invariant of the method above and its helper facts.

  /** After the given plans, `overall` and `byCrop` hold the specified
      counters, and `byCrop` has a bucket for exactly the crops seen. */
  ghost predicate Tracks(table: AssumptionTable, plans: seq<CropPlan>,
                         overall: CropModeledSpend, byCrop: map<Crop, CropModeledSpend>)
  {
    && (forall k :: Read(overall, k) == Accumulated(table, plans, Farm, k))
    && byCrop.Keys == CropsOf(plans)
    && (forall crop, k :: crop in byCrop ==> Read(byCrop[crop], k) == Accumulated(table, plans, OnCrop(crop), k))
  }

  lemma TracksNoPlans(table: AssumptionTable)
    ensures Tracks(table, [], EmptySpend(), map[])
  {
  }

  lemma TracksStep(table: AssumptionTable, plans: seq<CropPlan>, i: nat,
                   overall: CropModeledSpend, byCrop: map<Crop, CropModeledSpend>,
                   overall': CropModeledSpend, cropBucket': CropModeledSpend)
    requires i < |plans|
    requires Tracks(table, plans[..i], overall, byCrop)
    requires forall k :: Read(overall', k) == Read(overall, k) + Credit(table, plans[i], k)
    requires forall k :: Read(cropBucket', k)
               == (if plans[i].crop in byCrop then Read(byCrop[plans[i].crop], k) else 0.0) + Credit(table, plans[i], k)
    ensures Tracks(table, plans[..i + 1], overall', byCrop[plans[i].crop := cropBucket'])
  {
    var plan := plans[i];
    var byCrop' := byCrop[plan.crop := cropBucket'];
    CropsOfStep(plans, i);
    if plan.crop !in byCrop {
      AbsentCropIsZero(table, plans[..i], plan.crop);
    }
    forall k ensures Read(overall', k) == Accumulated(table, plans[..i + 1], Farm, k) {
      AccumulatedStep(table, plans, i, Farm, k);
    }
    forall crop, k | crop in byCrop'
      ensures Read(byCrop'[crop], k) == Accumulated(table, plans[..i + 1], OnCrop(crop), k)
    {
      AccumulatedStep(table, plans, i, OnCrop(crop), k);
    }
  }

  /** Setting the farm-wide total leaves the counters as they are. */
  lemma TracksRetotalFarm(table: AssumptionTable, plans: seq<CropPlan>,
                          overall: CropModeledSpend, byCrop: map<Crop, CropModeledSpend>)
    requires Tracks(table, plans, overall, byCrop)
    ensures Tracks(table, plans, overall.(total := SumCategories(overall.byCategory)), byCrop)
  {
  }

  /** Setting the total of one crop's bucket leaves the counters as they are. */
  lemma TracksRetotalCrop(table: AssumptionTable, plans: seq<CropPlan>,
                          overall: CropModeledSpend, byCrop: map<Crop, CropModeledSpend>, crop: Crop)
    requires Tracks(table, plans, overall, byCrop)
    requires crop in byCrop
    ensures var b := byCrop[crop];
            Tracks(table, plans, overall, byCrop[crop := b.(total := SumCategories(b.byCategory))])
  {
  }

  /** Counters tracked over all the plans, with the totals filled in, are the
      specified model. */
  lemma TracksModel(table: AssumptionTable, input: FarmInput,
                    overall: CropModeledSpend, byCrop: map<Crop, CropModeledSpend>)
    requires Tracks(table, input.plans, overall, byCrop)
    requires overall.total == SumCategories(overall.byCategory)
    requires forall crop :: crop in byCrop ==> byCrop[crop].total == SumCategories(byCrop[crop].byCategory)
    ensures ModeledSpend(overall, byCrop) == ModelSpec(table, input)
  {
    BucketFromCounters(overall, table, input.plans, Farm);
    TrackedCropBuckets(table, input.plans, overall, byCrop);
  }

  lemma TrackedCropBuckets(table: AssumptionTable, plans: seq<CropPlan>,
                           overall: CropModeledSpend, byCrop: map<Crop, CropModeledSpend>)
    requires Tracks(table, plans, overall, byCrop)
    requires forall crop :: crop in byCrop ==> byCrop[crop].total == SumCategories(byCrop[crop].byCategory)
    ensures byCrop == CropBuckets(table, plans)
  {
    forall crop | crop in byCrop ensures byCrop[crop] == Bucket(table, plans, OnCrop(crop)) {
      TrackedCropBucket(table, plans, overall, byCrop, crop);
    }
    CropBucketsFrom(table, plans, byCrop);
  }

  lemma CropBucketsFrom(table: AssumptionTable, plans: seq<CropPlan>, byCrop: map<Crop, CropModeledSpend>)
    requires byCrop.Keys == CropsOf(plans)
    requires forall crop :: crop in byCrop ==> byCrop[crop] == Bucket(table, plans, OnCrop(crop))
    ensures byCrop == CropBuckets(table, plans)
  {
  }

  lemma TrackedCropBucket(table: AssumptionTable, plans: seq<CropPlan>,
                          overall: CropModeledSpend, byCrop: map<Crop, CropModeledSpend>, crop: Crop)
    requires Tracks(table, plans, overall, byCrop)
    requires crop in byCrop && byCrop[crop].total == SumCategories(byCrop[crop].byCategory)
    ensures byCrop[crop] == Bucket(table, plans, OnCrop(crop))
  {
    BucketFromCounters(byCrop[crop], table, plans, OnCrop(crop));
  }

  lemma AccumulatedStep(table: AssumptionTable, plans: seq<CropPlan>, i: nat, scope: Scope, k: Counter)
    requires i < |plans|
    ensures Accumulated(table, plans[..i + 1], scope, k)
         == Accumulated(table, plans[..i], scope, k)
            + (if InScope(plans[i], scope) then Credit(table, plans[i], k) else 0.0)
  {
    assert plans[..i + 1][..i] == plans[..i];
  }

  lemma CropsOfStep(plans: seq<CropPlan>, i: nat)
    requires i < |plans|
    ensures CropsOf(plans[..i + 1]) == CropsOf(plans[..i]) + {plans[i].crop}
  {
    assert plans[..i + 1] == plans[..i] + [plans[i]];
  }

  /** A bucket whose counters and total agree with the specification is
      the specified bucket. */
  lemma BucketFromCounters(b: CropModeledSpend, table: AssumptionTable, plans: seq<CropPlan>, scope: Scope)
    requires forall k :: Read(b, k) == Accumulated(table, plans, scope, k)
    requires b.total == SumCategories(b.byCategory)
    ensures b == Bucket(table, plans, scope)
  {
    var spec := Bucket(table, plans, scope);
    assert forall c :: b.byCategory[c] == Read(b, Spend(c));
    assert forall c :: b.acresByCategory[c] == Read(b, ProxyAcres(c));
    assert b.byCategory == spec.byCategory;
    assert b.acresByCategory == spec.acresByCategory;
  }

  /** A crop that no plan names has an all-zero bucket. */
  lemma {:induction false} AbsentCropIsZero(table: AssumptionTable, plans: seq<CropPlan>, crop: Crop)
    requires crop !in CropsOf(plans)
    ensures forall k :: Accumulated(table, plans, OnCrop(crop), k) == 0.0
  {
    if plans != [] {
      var init := plans[..|plans| - 1];
      assert CropsOf(init) <= CropsOf(plans);
      assert plans[|plans| - 1] in plans;
      AbsentCropIsZero(table, init, crop);
    }
  }

  /** Two plan lists giving every counter of a bucket the same value give
      the same bucket. */
  lemma BucketsAgree(table: AssumptionTable, a: seq<CropPlan>, b: seq<CropPlan>, scope: Scope)
    requires forall k :: Accumulated(table, a, scope, k) == Accumulated(table, b, scope, k)
    ensures Bucket(table, a, scope) == Bucket(table, b, scope)
  {
    var ba, bb := Bucket(table, a, scope), Bucket(table, b, scope);
    assert forall c :: ba.byCategory[c] == Accumulated(table, a, scope, Spend(c));
    assert forall c :: bb.byCategory[c] == Accumulated(table, b, scope, Spend(c));
    assert ba.byCategory == bb.byCategory;
    assert forall c :: ba.acresByCategory[c] == Accumulated(table, a, scope, ProxyAcres(c));
    assert forall c :: bb.acresByCategory[c] == Accumulated(table, b, scope, ProxyAcres(c));
    assert ba.acresByCategory == bb.acresByCategory;
  }

  // ---------------------------------------------------------------------
  // What appending a plan does to the model.

  function WithPlan(input: FarmInput, plan: CropPlan): FarmInput
  {
    input.(plans := input.plans + [plan])
  }

  lemma AppendedPlan(input: FarmInput, plan: CropPlan)
    ensures var plans := WithPlan(input, plan).plans;
            |plans| == |input.plans| + 1 && plans[..|input.plans|] == input.plans
            && plans[|input.plans|] == plan
  {
  }

  /** Appending a plan adds its credit to every counter of the farm-wide bucket. */
  lemma AppendPlanOverall(table: AssumptionTable, input: FarmInput, plan: CropPlan, k: Counter)
    ensures Read(ModelSpec(table, WithPlan(input, plan)).overall, k)
         == Read(ModelSpec(table, input).overall, k) + Credit(table, plan, k)
  {
    AppendedPlan(input, plan);
    AccumulatedStep(table, WithPlan(input, plan).plans, |input.plans|, Farm, k);
  }

  /** Appending a plan adds its credit to the bucket of its crop, which is
      created (from zero) when the crop is new. */
  lemma AppendPlanCropBucket(table: AssumptionTable, input: FarmInput, plan: CropPlan, k: Counter)
    ensures var before := ModelSpec(table, input);
            var after := ModelSpec(table, WithPlan(input, plan));
            && plan.crop in after.byCrop
            && Read(after.byCrop[plan.crop], k)
               == (if plan.crop in before.byCrop then Read(before.byCrop[plan.crop], k) else 0.0)
                  + Credit(table, plan, k)
  {
    var plans := WithPlan(input, plan).plans;
    AppendedPlan(input, plan);
    CropsOfStep(plans, |input.plans|);
    AccumulatedStep(table, plans, |input.plans|, OnCrop(plan.crop), k);
    if plan.crop !in CropsOf(input.plans) {
      AbsentCropIsZero(table, input.plans, plan.crop);
    }
  }

  /** Appending a plan adds its crop to the crop buckets and leaves every
      other crop's bucket as it was. */
  lemma AppendPlanOtherCrops(table: AssumptionTable, input: FarmInput, plan: CropPlan)
    ensures var before := ModelSpec(table, input);
            var after := ModelSpec(table, WithPlan(input, plan));
            && after.byCrop.Keys == before.byCrop.Keys + {plan.crop}
            && (forall crop :: crop in before.byCrop && crop != plan.crop ==>
                  after.byCrop[crop] == before.byCrop[crop])
  {
    var plans := WithPlan(input, plan).plans;
    AppendedPlan(input, plan);
    CropsOfStep(plans, |input.plans|);
    forall crop | crop in CropsOf(input.plans) && crop != plan.crop
      ensures CropBuckets(table, plans)[crop] == CropBuckets(table, input.plans)[crop]
    {
      OtherCropUnchanged(table, input.plans, plan, crop);
    }
  }

  lemma OtherCropUnchanged(table: AssumptionTable, plans: seq<CropPlan>, plan: CropPlan, crop: Crop)
    requires crop != plan.crop
    ensures Bucket(table, plans + [plan], OnCrop(crop)) == Bucket(table, plans, OnCrop(crop))
  {
    var plans' := plans + [plan];
    assert plans'[..|plans|] == plans;
    forall k ensures Accumulated(table, plans', OnCrop(crop), k) == Accumulated(table, plans, OnCrop(crop), k) {
      AccumulatedStep(table, plans', |plans|, OnCrop(crop), k);
    }
    BucketsAgree(table, plans', plans, OnCrop(crop));
  }

  /** A category whose intent is missing or disabled adds nothing to any
      dollar or acre counter. */
  lemma DisabledCategoryAddsNothing(table: AssumptionTable, input: FarmInput, plan: CropPlan, c: Category)
    requires !Enabled(plan, c)
    ensures plan.crop in ModelSpec(table, WithPlan(input, plan)).byCrop
    ensures var before := ModelSpec(table, input);
            var after := ModelSpec(table, WithPlan(input, plan));
            && after.overall.byCategory[c] == before.overall.byCategory[c]
            && after.overall.acresByCategory[c] == before.overall.acresByCategory[c]
            && (plan.crop in before.byCrop ==>
                  && after.byCrop[plan.crop].byCategory[c] == before.byCrop[plan.crop].byCategory[c]
                  && after.byCrop[plan.crop].acresByCategory[c] == before.byCrop[plan.crop].acresByCategory[c])
            && (plan.crop !in before.byCrop ==>
                  after.byCrop[plan.crop].byCategory[c] == 0.0 && after.byCrop[plan.crop].acresByCategory[c] == 0.0)
  {
    AppendPlanOverall(table, input, plan, Spend(c));
    AppendPlanOverall(table, input, plan, ProxyAcres(c));
    AppendPlanCropBucket(table, input, plan, Spend(c));
    AppendPlanCropBucket(table, input, plan, ProxyAcres(c));
  }

  /** An enabled category adds `perAcre * acres` dollars and `acres` proxy
      acres to the farm-wide bucket and to the plan's crop bucket, where
      `perAcre` comes from the crop's profile (or `other`'s) and is 0 when
      the profile has no entry for the category and budget. */
  lemma EnabledCategoryAdds(table: AssumptionTable, input: FarmInput, plan: CropPlan, c: Category)
    requires Enabled(plan, c)
    ensures plan.crop in ModelSpec(table, WithPlan(input, plan)).byCrop
    ensures var before := ModelSpec(table, input);
            var after := ModelSpec(table, WithPlan(input, plan));
            var dollars := Dollars(PerAcre(ResolveProfile(table, plan.crop), c, plan.intents[c].budget), plan.acres);
            var cropDollars := if plan.crop in before.byCrop then before.byCrop[plan.crop].byCategory[c] else 0.0;
            var cropAcres := if plan.crop in before.byCrop then before.byCrop[plan.crop].acresByCategory[c] else 0.0;
            && after.overall.byCategory[c] == before.overall.byCategory[c] + dollars
            && after.overall.acresByCategory[c] == before.overall.acresByCategory[c] + plan.acres
            && after.byCrop[plan.crop].byCategory[c] == cropDollars + dollars
            && after.byCrop[plan.crop].acresByCategory[c] == cropAcres + plan.acres
  {
    AppendPlanOverall(table, input, plan, Spend(c));
    AppendPlanOverall(table, input, plan, ProxyAcres(c));
    AppendPlanCropBucket(table, input, plan, Spend(c));
    AppendPlanCropBucket(table, input, plan, ProxyAcres(c));
  }

  /** A crop without a profile of its own is priced with the `other` profile. */
  lemma FallbackToOther(table: AssumptionTable, plan: CropPlan, c: Category)
    requires plan.crop !in table
    ensures Credit(table, plan, Spend(c)) == Credit(table, plan.(crop := Other), Spend(c))
  {
  }

  /** A missing (category, budget) entry prices the category at 0 dollars,
      but the plan's acres are still credited to it. */
  lemma MissingEntryCreditsAcresOnly(table: AssumptionTable, plan: CropPlan, c: Category)
    requires Enabled(plan, c)
    requires var profile := ResolveProfile(table, plan.crop);
             c !in profile || plan.intents[c].budget !in profile[c]
    ensures Credit(table, plan, Spend(c)) == 0.0
    ensures Credit(table, plan, ProxyAcres(c)) == plan.acres
  {
  }

  // ---------------------------------------------------------------------
  // The aggregation invariants.

  /** The sum of counter `k` over the buckets of the listed crops. */
  function BucketSum(byCrop: map<Crop, CropModeledSpend>, k: Counter, crops: seq<Crop>): real
  {
    if crops == [] then 0.0
    else (if crops[0] in byCrop then Read(byCrop[crops[0]], k) else 0.0) + BucketSum(byCrop, k, crops[1..])
  }

  /** The invariants a modeled spend keeps: every total is the sum of its
      bucket's dollars, and every farm-wide counter is the sum of that
      counter over the crop buckets. */
  ghost predicate Consistent(m: ModeledSpend)
  {
    && m.overall.total == SumCategories(m.overall.byCategory)
    && (forall crop :: crop in m.byCrop ==> m.byCrop[crop].total == SumCategories(m.byCrop[crop].byCategory))
    && (forall k :: Read(m.overall, k) == BucketSum(m.byCrop, k, AllCrops))
  }

  function CropSum(table: AssumptionTable, plans: seq<CropPlan>, k: Counter, crops: seq<Crop>): real
  {
    if crops == [] then 0.0
    else Accumulated(table, plans, OnCrop(crops[0]), k) + CropSum(table, plans, k, crops[1..])
  }

  lemma {:induction false} CropSumOfNoPlans(table: AssumptionTable, k: Counter, crops: seq<Crop>)
    ensures CropSum(table, [], k, crops) == 0.0
  {
    if crops != [] {
      CropSumOfNoPlans(table, k, crops[1..]);
    }
  }

  lemma {:induction false} CropSumAppend(table: AssumptionTable, plans: seq<CropPlan>, plan: CropPlan,
                                         k: Counter, crops: seq<Crop>)
    requires Distinct(crops)
    ensures CropSum(table, plans + [plan], k, crops)
         == CropSum(table, plans, k, crops) + (if plan.crop in crops then Credit(table, plan, k) else 0.0)
  {
    var longer := plans + [plan];
    assert longer[..|longer| - 1] == plans;
    if crops != [] {
      assert Distinct(crops[1..]);
      assert crops[0] == plan.crop ==> plan.crop !in crops[1..];
      CropSumAppend(table, plans, plan, k, crops[1..]);
    }
  }

  /** The farm-wide counter is the sum of that counter over all crops. */
  lemma {:induction false} FarmIsSumOfCrops(table: AssumptionTable, plans: seq<CropPlan>, k: Counter)
    ensures Accumulated(table, plans, Farm, k) == CropSum(table, plans, k, AllCrops)
  {
    if plans == [] {
      CropSumOfNoPlans(table, k, AllCrops);
    } else {
      var init, last := plans[..|plans| - 1], plans[|plans| - 1];
      assert plans == init + [last];
      FarmIsSumOfCrops(table, init, k);
      AllCropsListed(last.crop);
      CropSumAppend(table, init, last, k, AllCrops);
    }
  }

  lemma {:induction false} BucketSumOfModel(table: AssumptionTable, input: FarmInput, k: Counter, crops: seq<Crop>)
    ensures BucketSum(ModelSpec(table, input).byCrop, k, crops) == CropSum(table, input.plans, k, crops)
  {
    if crops != [] {
      if crops[0] !in CropsOf(input.plans) {
        AbsentCropIsZero(table, input.plans, crops[0]);
      }
      BucketSumOfModel(table, input, k, crops[1..]);
    }
  }

  /** The modeled spend keeps its invariants, and its crop buckets are
      exactly those of the crops that occur in the plans. */
  lemma ModelSpecConsistent(table: AssumptionTable, input: FarmInput)
    ensures Consistent(ModelSpec(table, input))
    ensures ModelSpec(table, input).byCrop.Keys == CropsOf(input.plans)
  {
    var m := ModelSpec(table, input);
    forall k ensures Read(m.overall, k) == BucketSum(m.byCrop, k, AllCrops) {
      FarmIsSumOfCrops(table, input.plans, k);
      BucketSumOfModel(table, input, k, AllCrops);
    }
  }

  // ---------------------------------------------------------------------
  // Independence of the order of the plans.

  lemma {:induction false} AccumulatedConcat(table: AssumptionTable, a: seq<CropPlan>, b: seq<CropPlan>,
                                             scope: Scope, k: Counter)
    ensures Accumulated(table, a + b, scope, k) == Accumulated(table, a, scope, k) + Accumulated(table, b, scope, k)
  {
    if b == [] {
      assert a + b == a;
    } else {
      var ab := a + b;
      assert ab[..|ab| - 1] == a + b[..|b| - 1];
      AccumulatedConcat(table, a, b[..|b| - 1], scope, k);
    }
  }

  /** The last element of `a` occurs in its permutation `b`; removing it
      from both leaves two permutations of each other. */
  lemma RemoveMatching<T>(a: seq<T>, b: seq<T>) returns (i: nat)
    requires a != [] && multiset(a) == multiset(b)
    ensures i < |b| && b[i] == a[|a| - 1]
    ensures multiset(a[..|a| - 1]) == multiset(b[..i] + b[i + 1..])
  {
    var init, last := a[..|a| - 1], a[|a| - 1];
    assert a == init + [last];
    assert last in multiset(b);
    i :| 0 <= i < |b| && b[i] == last;
    assert b == b[..i] + [last] + b[i + 1..];
    assert multiset(init) == multiset(a) - multiset{last};
    assert multiset(b[..i] + b[i + 1..]) == multiset(b) - multiset{last};
  }

  lemma {:induction false} AccumulatedPermutation(table: AssumptionTable, a: seq<CropPlan>, b: seq<CropPlan>,
                                                  scope: Scope, k: Counter)
    requires multiset(a) == multiset(b)
    ensures Accumulated(table, a, scope, k) == Accumulated(table, b, scope, k)
    decreases |a|
  {
    if a == [] {
      assert |b| == |multiset(b)| == 0;
    } else {
      var init, last := a[..|a| - 1], a[|a| - 1];
      var i := RemoveMatching(a, b);
      var rest := b[..i] + b[i + 1..];
      assert b == b[..i] + [last] + b[i + 1..];
      AccumulatedPermutation(table, init, rest, scope, k);
      AccumulatedConcat(table, b[..i], b[i + 1..], scope, k);
      AccumulatedConcat(table, b[..i] + [last], b[i + 1..], scope, k);
      AccumulatedConcat(table, b[..i], [last], scope, k);
      assert [last][..0] == [];
    }
  }

  /** Reordering the plans leaves every bucket as it was. */
  lemma PermutedBucket(table: AssumptionTable, a: seq<CropPlan>, b: seq<CropPlan>, scope: Scope)
    requires multiset(a) == multiset(b)
    ensures Bucket(table, a, scope) == Bucket(table, b, scope)
  {
    forall k ensures Accumulated(table, a, scope, k) == Accumulated(table, b, scope, k) {
      AccumulatedPermutation(table, a, b, scope, k);
    }
    BucketsAgree(table, a, b, scope);
  }

  lemma PermutedCrops(a: seq<CropPlan>, b: seq<CropPlan>)
    requires multiset(a) == multiset(b)
    ensures CropsOf(a) == CropsOf(b)
  {
    forall crop ensures crop in CropsOf(a) ==> crop in CropsOf(b) {
      if crop in CropsOf(a) {
        var p :| p in a && p.crop == crop;
        assert p in multiset(b);
      }
    }
    forall crop ensures crop in CropsOf(b) ==> crop in CropsOf(a) {
      if crop in CropsOf(b) {
        var p :| p in b && p.crop == crop;
        assert p in multiset(a);
      }
    }
  }

  /** Over exact arithmetic the modeled spend does not depend on the order
      of the plans (nor on any field of the input but the plans). */
  lemma OrderIndependent(table: AssumptionTable, input1: FarmInput, input2: FarmInput)
    requires multiset(input1.plans) == multiset(input2.plans)
    ensures ModelSpec(table, input1) == ModelSpec(table, input2)
  {
    var a, b := input1.plans, input2.plans;
    PermutedBucket(table, a, b, Farm);
    PermutedCrops(a, b);
    forall crop | crop in CropsOf(a)
      ensures CropBuckets(table, a)[crop] == CropBuckets(table, b)[crop]
    {
      PermutedBucket(table, a, b, OnCrop(crop));
    }
    assert CropBuckets(table, a) == CropBuckets(table, b);
  }

  // ---------------------------------------------------------------------
  // Plans without acreage.

  lemma {:induction false} ZeroAcresZeroCounters(table: AssumptionTable, plans: seq<CropPlan>, scope: Scope, k: Counter)
    requires forall p :: p in plans ==> p.acres == 0.0
    ensures Accumulated(table, plans, scope, k) == 0.0
  {
    if plans != [] {
      var init := plans[..|plans| - 1];
      assert forall p :: p in init ==> p in plans;
      assert plans[|plans| - 1] in plans;
      ZeroAcresZeroCounters(table, init, scope, k);
    }
  }

  /** When every plan has 0 acres, every dollar and acre counter and every
      total of the model is 0, whatever the assumption table says. */
  lemma ZeroAcresZeroSpend(table: AssumptionTable, input: FarmInput)
    requires forall p :: p in input.plans ==> p.acres == 0.0
    ensures var m := ModelSpec(table, input);
            && (forall k :: Read(m.overall, k) == 0.0)
            && m.overall.total == 0.0
            && (forall crop, k :: crop in m.byCrop ==> Read(m.byCrop[crop], k) == 0.0 && m.byCrop[crop].total == 0.0)
  {
    var m := ModelSpec(table, input);
    ZeroBucket(table, input.plans, Farm);
    forall crop | crop in m.byCrop
      ensures (forall k :: Read(m.byCrop[crop], k) == 0.0) && m.byCrop[crop].total == 0.0
    {
      ZeroBucket(table, input.plans, OnCrop(crop));
    }
  }

  lemma ZeroBucket(table: AssumptionTable, plans: seq<CropPlan>, scope: Scope)
    requires forall p :: p in plans ==> p.acres == 0.0
    ensures forall k :: Read(Bucket(table, plans, scope), k) == 0.0
    ensures Bucket(table, plans, scope).total == 0.0
  {
    var b := Bucket(table, plans, scope);
    forall c ensures b.byCategory[c] == 0.0 && b.acresByCategory[c] == 0.0 {
      ZeroAcresZeroCounters(table, plans, scope, Spend(c));
      ZeroAcresZeroCounters(table, plans, scope, ProxyAcres(c));
    }
  }
}
