/** Worked examples: a canola farm priced from a small assumption table, the
    same farm with no acreage, and a ranking of four results. */
module Scenarios {
  import opened Types
  import opened Rounding
  import opened SpendModel
  import Fmc
  import BayerValue
  import Evaluate

  /** Canola: $18 and $22 per acre of medium-budget pre-seed and in-crop
      herbicide, $10 and $12 per acre of low-budget fungicide and seed
      treatment; nothing else is priced. */
  const CanolaTable: AssumptionTable := map[
    Canola := map[
      PreSeedHerb := map[Med := 18.0],
      InCropHerb := map[Med := 22.0],
      Fungicide := map[Low := 10.0],
      SeedTreatment := map[Low := 12.0]]]

  function CanolaPlan(acres: real): CropPlan
  {
    CropPlan(Canola, acres, map[
      PreSeedHerb := Intent(true, Med),
      InCropHerb := Intent(true, Med),
      Fungicide := Intent(true, Low),
      SeedTreatment := Intent(true, Low),
      Insecticide := Intent(false, Low),
      BiologicalsPGR := Intent(false, Low),
      SeedTrait := Intent(false, Low)])
  }

  function CanolaFarm(acres: real): FarmInput
  {
    FarmInput(SK, 2026, false, false, [CanolaPlan(acres)])
  }

  /** A single plan credits its own counters and nothing else. */
  lemma SinglePlan(table: AssumptionTable, plan: CropPlan, scope: Scope, k: Counter)
    ensures Accumulated(table, [plan], scope, k) == (if InScope(plan, scope) then Credit(table, plan, k) else 0.0)
  {
    assert [plan][..0] == [];
  }

  /** The canola table's price for each category the plan enables. */
  function CanolaPrice(c: Category): real
  {
    match c
    case PreSeedHerb => 18.0
    case InCropHerb => 22.0
    case Fungicide => 10.0
    case SeedTreatment => 12.0
    case _ => 0.0
  }

  predicate CanolaEnables(c: Category)
  {
    c in {PreSeedHerb, InCropHerb, Fungicide, SeedTreatment}
  }

  lemma CanolaCredit(acres: real, c: Category)
    ensures Credit(CanolaTable, CanolaPlan(acres), Spend(c)) == CanolaPrice(c) * acres
    ensures Credit(CanolaTable, CanolaPlan(acres), ProxyAcres(c)) == if CanolaEnables(c) then acres else 0.0
  {
    var profile := ResolveProfile(CanolaTable, Canola);
    assert profile == CanolaTable[Canola];
  }

  lemma CanolaFarmCounters(acres: real, c: Category)
    ensures var o := ModelSpec(CanolaTable, CanolaFarm(acres)).overall;
            && o.byCategory[c] == CanolaPrice(c) * acres
            && o.acresByCategory[c] == if CanolaEnables(c) then acres else 0.0
  {
    SinglePlan(CanolaTable, CanolaPlan(acres), Farm, Spend(c));
    SinglePlan(CanolaTable, CanolaPlan(acres), Farm, ProxyAcres(c));
    CanolaCredit(acres, c);
  }

  /** A 1000-acre canola farm: its modeled spend. */
  lemma CanolaSpend()
    ensures CanolaCounters(ModelSpec(CanolaTable, CanolaFarm(1000.0)).overall)
  {
    var o := ModelSpec(CanolaTable, CanolaFarm(1000.0)).overall;
    CanolaFarmCounters(1000.0, PreSeedHerb);
    CanolaFarmCounters(1000.0, InCropHerb);
    CanolaFarmCounters(1000.0, Fungicide);
    CanolaFarmCounters(1000.0, Insecticide);
    CanolaFarmCounters(1000.0, SeedTreatment);
    CanolaFarmCounters(1000.0, BiologicalsPGR);
    CanolaFarmCounters(1000.0, SeedTrait);
    assert o.total == SumCategories(o.byCategory);
  }

  /** The farm-wide counters of the 1000-acre canola farm. */
  predicate CanolaCounters(o: CropModeledSpend)
  {
    && o.byCategory[PreSeedHerb] == 18000.0 && o.byCategory[InCropHerb] == 22000.0
    && o.byCategory[Fungicide] == 10000.0 && o.byCategory[SeedTreatment] == 12000.0
    && o.byCategory[Insecticide] == 0.0 && o.byCategory[BiologicalsPGR] == 0.0 && o.byCategory[SeedTrait] == 0.0
    && o.total == 62000.0
    && o.acresByCategory[PreSeedHerb] == 1000.0 && o.acresByCategory[InCropHerb] == 1000.0
    && o.acresByCategory[Fungicide] == 1000.0 && o.acresByCategory[SeedTreatment] == 1000.0
    && o.acresByCategory[Insecticide] == 0.0 && o.acresByCategory[BiologicalsPGR] == 0.0
    && o.acresByCategory[SeedTrait] == 0.0
  }

  lemma CanolaFmcLines(m: ModeledSpend)
    requires CanolaCounters(m.overall)
    ensures LineSum(Fmc.Breakdown(m.overall)) == 4720.0
    ensures Fmc.MaxAcres(m.overall) == 1000.0
    ensures Fmc.Tier(m.overall.total) == 3 && Fmc.MatchAcres(m.overall) == 1000.0
  {
  }

  lemma CanolaFmcOf(m: ModeledSpend)
    requires CanolaCounters(m.overall)
    ensures var r := Fmc.EvalFMC(m);
            && r.notes == [TierStatus(3), MatchingBonusApplied(1000)]
            && r.estimatedCashback == 4720.0
            && r.estimatedPerAcre == 4.72
  {
    CanolaFmcLines(m);
    assert MathRound(1000.0) == 1000;
    Round2OfCents(472000);
    Round2OfCents(472);
  }

  /** The 1000-acre canola farm under FMC: tier 3, $1,080 + $2,640 in
      herbicide rebates and a $1,000 matching bonus. */
  lemma CanolaFmc()
    ensures var r := Fmc.EvalFMC(ModelSpec(CanolaTable, CanolaFarm(1000.0)));
            && r.notes == [TierStatus(3), MatchingBonusApplied(1000)]
            && r.estimatedCashback == 4720.0
            && r.estimatedPerAcre == 4.72
  {
    CanolaSpend();
    CanolaFmcOf(ModelSpec(CanolaTable, CanolaFarm(1000.0)));
  }

  lemma CanolaSegments(o: CropModeledSpend)
    requires CanolaCounters(o)
    ensures BayerValue.SegmentCount(o) == 3
    ensures BayerValue.EligibleSpend(o) == 62000.0
    ensures BayerValue.SegmentMaxAcres(o) == 1000.0
  {
    BayerValue.QualifyingOfAll(o);
  }

  lemma CanolaBayerOf(input: FarmInput, m: ModeledSpend)
    requires CanolaCounters(m.overall)
    ensures var r := BayerValue.EvalBayer(input, m);
            && r.notes == [SegmentSavingsApplied(10.0, 3), UnmodeledFeaturesCaveat]
            && r.breakdown[0].value == 62000.0
            && r.estimatedCashback == 6200.0
            && r.estimatedPerAcre == 6.2
  {
    CanolaSegments(m.overall);
    Round2OfCents(620000);
    Round2OfCents(620);
  }

  /** The 1000-acre canola farm under Bayer: all three segments qualify,
      10% of $62,000. */
  lemma CanolaBayer()
    ensures var r := BayerValue.EvalBayer(CanolaFarm(1000.0), ModelSpec(CanolaTable, CanolaFarm(1000.0)));
            && r.notes == [SegmentSavingsApplied(10.0, 3), UnmodeledFeaturesCaveat]
            && r.breakdown[0].value == 62000.0
            && r.estimatedCashback == 6200.0
            && r.estimatedPerAcre == 6.2
  {
    CanolaSpend();
    CanolaBayerOf(CanolaFarm(1000.0), ModelSpec(CanolaTable, CanolaFarm(1000.0)));
  }

  /** The same farm with no acreage has an all-zero model. */
  lemma NoAcreageSpend()
    ensures var o := ModelSpec(CanolaTable, CanolaFarm(0.0)).overall;
            o.total == 0.0 && forall c :: o.byCategory[c] == 0.0 && o.acresByCategory[c] == 0.0
  {
    ZeroAcresZeroSpend(CanolaTable, CanolaFarm(0.0));
    var o := ModelSpec(CanolaTable, CanolaFarm(0.0)).overall;
    forall c ensures o.byCategory[c] == 0.0 && o.acresByCategory[c] == 0.0 {
      assert Read(o, Spend(c)) == 0.0;
      assert Read(o, ProxyAcres(c)) == 0.0;
    }
  }

  /** An all-zero model pays nothing under FMC, reports 0 per acre and says
      the tier was not reached. */
  lemma ZeroModelFmc(m: ModeledSpend)
    requires m.overall.total == 0.0
    requires forall c :: m.overall.byCategory[c] == 0.0 && m.overall.acresByCategory[c] == 0.0
    ensures var r := Fmc.EvalFMC(m);
            r.estimatedCashback == 0.0 && r.estimatedPerAcre == 0.0 && TierNotReached in r.notes
  {
    var o := m.overall;
    assert Fmc.Tier(o.total) == 0;
    assert Fmc.MatchAcres(o) == 0.0;
    assert Fmc.MaxAcres(o) == 0.0;
    Round2Zero();
  }

  /** An all-zero model pays nothing under Bayer, reports 0 per acre and says
      Segment Savings was not reached. */
  lemma ZeroModelBayer(input: FarmInput, m: ModeledSpend)
    requires forall c :: m.overall.byCategory[c] == 0.0 && m.overall.acresByCategory[c] == 0.0
    ensures var r := BayerValue.EvalBayer(input, m);
            r.estimatedCashback == 0.0 && r.estimatedPerAcre == 0.0 && SegmentSavingsNotReached in r.notes
  {
    var o := m.overall;
    BayerValue.QualifyingOfAll(o);
    assert BayerValue.SegmentCount(o) == 0;
    assert BayerValue.SegmentMaxAcres(o) == 0.0;
    Round2Zero();
  }

  lemma NoAcreage()
    ensures var m := ModelSpec(CanolaTable, CanolaFarm(0.0));
            var fmc := Fmc.EvalFMC(m);
            var bayer := BayerValue.EvalBayer(CanolaFarm(0.0), m);
            && fmc.estimatedCashback == 0.0 && fmc.estimatedPerAcre == 0.0 && TierNotReached in fmc.notes
            && bayer.estimatedCashback == 0.0 && bayer.estimatedPerAcre == 0.0
            && SegmentSavingsNotReached in bayer.notes
  {
    NoAcreageSpend();
    ZeroModelFmc(ModelSpec(CanolaTable, CanolaFarm(0.0)));
    ZeroModelBayer(CanolaFarm(0.0), ModelSpec(CanolaTable, CanolaFarm(0.0)));
  }

  function Result(company: string, cashback: real): ProgramResult
  {
    ProgramResult(company, cashback, 0.0, [], [])
  }

  lemma RankAppend(s: seq<ProgramResult>, x: ProgramResult)
    ensures Evaluate.Rank(s + [x]) == Evaluate.Insert(x, Evaluate.Rank(s))
  {
    assert (s + [x])[..|s|] == s;
  }

  const A := Result("A", 120.0)
  const B := Result("B", 450.0)
  const C := Result("C", 0.0)
  const D := Result("D", 300.0)

  lemma RankingStep1()
    ensures Evaluate.Rank([A]) == [A]
  {
    RankAppend([], A);
    assert [] + [A] == [A];
    InsertAt(A, [], 0);
  }

  lemma RankingStep2()
    ensures Evaluate.Rank([A, B]) == [B, A]
  {
    RankAppend([A], B);
    assert [A] + [B] == [A, B];
    RankingStep1();
    InsertAt(B, [A], 0);
  }

  lemma RankingStep3()
    ensures Evaluate.Rank([A, B, C]) == [B, A, C]
  {
    RankAppend([A, B], C);
    assert [A, B] + [C] == [A, B, C];
    RankingStep2();
    InsertAt(C, [B, A], 2);
  }

  /** Ranking: cash-backs 120, 450, 0 and 300 come out as 450, 300, 120, 0. */
  lemma RankingExample()
    ensures Evaluate.Rank([A, B, C, D]) == [B, D, A, C]
  {
    RankAppend([A, B, C], D);
    assert [A, B, C] + [D] == [A, B, C, D];
    RankingStep3();
    assert [B, A, C][..1] == [B] && [B, A, C][1..] == [A, C];
    InsertAt(D, [B, A, C], 1);
  }

  /** The insertion point is the first entry paying less. */
  lemma InsertAt(x: ProgramResult, s: seq<ProgramResult>, k: nat)
    requires Evaluate.SortedDesc(s) && k <= |s|
    requires forall i :: 0 <= i < k ==> s[i].estimatedCashback >= x.estimatedCashback
    requires k < |s| ==> s[k].estimatedCashback < x.estimatedCashback
    ensures Evaluate.Insert(x, s) == s[..k] + [x] + s[k..]
  {
  }
}
