/** The FMC CashBack estimate: a tier chosen by the modeled total spend,
    per-tier rates on biologicals, pre-seed and in-crop herbicide spend, and a
    $1 bonus per acre matched between pre-seed and in-crop herbicides. */
module Fmc {
  import opened Types
  import opened Rounding

  /** The tier of a modeled total: 0 (not reached) and 1 to 4 by the
      breakpoints $5,000, $30,000, $50,000 and $75,000. */
  function Tier(total: real): (t: nat)
    ensures t <= 4
    ensures t == 0 <==> total < 5000.0
    ensures t == 1 <==> 5000.0 <= total < 30000.0
    ensures t == 2 <==> 30000.0 <= total < 50000.0
    ensures t == 3 <==> 50000.0 <= total < 75000.0
    ensures t == 4 <==> 75000.0 <= total
  {
    if total >= 75000.0 then 4
    else if total >= 50000.0 then 3
    else if total >= 30000.0 then 2
    else if total >= 5000.0 then 1
    else 0
  }

  lemma TierMonotone(a: real, b: real)
    requires a <= b
    ensures Tier(a) <= Tier(b)
  {
  }

  /** The rate on biologicals spend; the pre-seed herbicide rate is the same. */
  function BioRate(t: nat): (rate: real)
    ensures t == 0 ==> rate == 0.0
    ensures 1 <= t <= 4 ==> rate == 0.02 * t as real
  {
    if t == 4 then 0.08 else if t == 3 then 0.06 else if t == 2 then 0.04 else if t == 1 then 0.02 else 0.0
  }

  /** The rate on in-crop herbicide spend. */
  function InCropRate(t: nat): (rate: real)
    ensures t == 0 ==> rate == 0.0
    ensures 1 <= t <= 4 ==> rate == 0.03 * (t + 1) as real
  {
    if t == 4 then 0.15 else if t == 3 then 0.12 else if t == 2 then 0.09 else if t == 1 then 0.06 else 0.0
  }

  /** From tier 1 on the in-crop rate is above the biologicals rate; at
      tier 0 both are 0. */
  lemma RatesOrdered(t: nat)
    requires t <= 4
    ensures 0.0 <= BioRate(t) < InCropRate(t) || (t == 0 && BioRate(t) == InCropRate(t) == 0.0)
  {
  }

  lemma RatesMonotone(t: nat, u: nat)
    requires t <= u <= 4
    ensures BioRate(t) <= BioRate(u) && InCropRate(t) <= InCropRate(u)
  {
  }

  /** The acres common to pre-seed and in-crop herbicide engagement. */
  function MatchAcres(o: CropModeledSpend): (r: real)
    ensures r <= o.acresByCategory[PreSeedHerb] && r <= o.acresByCategory[InCropHerb]
    ensures r == o.acresByCategory[PreSeedHerb] || r == o.acresByCategory[InCropHerb]
  {
    Min(o.acresByCategory[PreSeedHerb], o.acresByCategory[InCropHerb])
  }

  /** $1 per matched acre, nothing when no acre is matched. */
  function MatchBonus(matchAcres: real): (r: real)
    ensures r == Max(0.0, matchAcres)
  {
    if matchAcres > 0.0 then matchAcres * 1.0 else 0.0
  }

  /** The per-acre denominator: the largest acre counter of the six
      categories other than seed traits. */
  function MaxAcres(o: CropModeledSpend): (r: real)
    ensures var a := o.acresByCategory;
            && a[PreSeedHerb] <= r && a[InCropHerb] <= r && a[Fungicide] <= r
            && a[Insecticide] <= r && a[SeedTreatment] <= r && a[BiologicalsPGR] <= r
            && r in {a[PreSeedHerb], a[InCropHerb], a[Fungicide], a[Insecticide], a[SeedTreatment], a[BiologicalsPGR]}
  {
    var a := o.acresByCategory;
    Max(Max(Max(Max(Max(a[PreSeedHerb], a[InCropHerb]), a[Fungicide]), a[Insecticide]), a[SeedTreatment]),
        a[BiologicalsPGR])
  }

  /** The four breakdown lines, in this order and each present even when 0;
      their values add up to the unrounded cash-back. */
  function Breakdown(o: CropModeledSpend): (items: seq<LineItem>)
    ensures var t := Tier(o.total);
            && |items| == 4
            && items[0] == LineItem("Biologicals rebate", o.byCategory[BiologicalsPGR] * BioRate(t))
            && items[1] == LineItem("Pre-seed herbicide rebate", o.byCategory[PreSeedHerb] * BioRate(t))
            && items[2] == LineItem("In-crop herbicide rebate", o.byCategory[InCropHerb] * InCropRate(t))
            && items[3] == LineItem("Matching-acre bonus", MatchBonus(MatchAcres(o)))
    ensures LineSum(items) == items[0].value + items[1].value + items[2].value + items[3].value
  {
    var t := Tier(o.total);
    var bioRate := BioRate(t);
    var preRate := bioRate;
    var items := [
      LineItem("Biologicals rebate", o.byCategory[BiologicalsPGR] * bioRate),
      LineItem("Pre-seed herbicide rebate", o.byCategory[PreSeedHerb] * preRate),
      LineItem("In-crop herbicide rebate", o.byCategory[InCropHerb] * InCropRate(t)),
      LineItem("Matching-acre bonus", MatchBonus(MatchAcres(o)))];
    LineSumOfFour(items);
    items
  }

  /** The notes: the tier note first, then "not reached" exactly at tier 0,
      then the matching-acre note exactly when some acre is matched. */
  function Notes(t: nat, matchAcres: real): (notes: seq<Note>)
    ensures |notes| == 1 + (if t == 0 then 1 else 0) + (if matchAcres > 0.0 then 1 else 0)
    ensures notes[0] == TierStatus(t)
    ensures TierNotReached in notes <==> t == 0
    ensures t == 0 ==> notes[1] == TierNotReached
    ensures MatchingBonusApplied(MathRound(matchAcres)) in notes <==> matchAcres > 0.0
    ensures forall n :: n in notes && n.MatchingBonusApplied? ==> matchAcres > 0.0 && n.roundedAcres == MathRound(matchAcres)
  {
    [TierStatus(t)]
      + (if t == 0 then [TierNotReached] else [])
      + (if matchAcres > 0.0 then [MatchingBonusApplied(MathRound(matchAcres))] else [])
  }

  /** The unrounded cash-back divided by the acre denominator, 0 when no acre
      was recorded. */
  function CashbackPerAcre(cashback: real, acres: real): (r: real)
    ensures acres == 0.0 ==> r == 0.0
    ensures acres != 0.0 ==> r * acres == cashback
  {
    if acres != 0.0 then cashback / acres else 0.0
  }

  /** `evalFMC`: the cash-back is the rounded sum of the breakdown lines. */
  function EvalFMC(modeled: ModeledSpend): (r: ProgramResult)
    ensures r.company == "FMC CashBack (modeled)"
    ensures r.breakdown == Breakdown(modeled.overall)
    ensures r.estimatedCashback == Round2(LineSum(r.breakdown))
    ensures r.estimatedPerAcre == Round2(CashbackPerAcre(LineSum(r.breakdown), MaxAcres(modeled.overall)))
    ensures r.notes == Notes(Tier(modeled.overall.total), MatchAcres(modeled.overall))
  {
    var o := modeled.overall;
    var t := Tier(o.total);
    var breakdown := Breakdown(o);
    var cashback := breakdown[0].value + breakdown[1].value + breakdown[2].value + breakdown[3].value;
    ProgramResult(
      "FMC CashBack (modeled)",
      Round2(cashback),
      Round2(CashbackPerAcre(cashback, MaxAcres(o))),
      Notes(t, MatchAcres(o)),
      breakdown)
  }

  lemma LineSumOfFour(items: seq<LineItem>)
    requires |items| == 4
    ensures LineSum(items) == items[0].value + items[1].value + items[2].value + items[3].value
  {
    assert items[..1][..0] == [];
    assert items[..2][..1] == items[..1];
    assert items[..3][..2] == items[..2];
    assert LineSum(items[..1]) == items[0].value;
    assert LineSum(items[..2]) == items[0].value + items[1].value;
    assert LineSum(items[..3]) == items[0].value + items[1].value + items[2].value;
  }

  /** The cash-back depends on nothing but the total, the biologicals and
      herbicide dollars and the herbicide acres. */
  lemma CashbackInputs(m1: ModeledSpend, m2: ModeledSpend)
    requires m1.overall.total == m2.overall.total
    requires m1.overall.byCategory[BiologicalsPGR] == m2.overall.byCategory[BiologicalsPGR]
    requires m1.overall.byCategory[PreSeedHerb] == m2.overall.byCategory[PreSeedHerb]
    requires m1.overall.byCategory[InCropHerb] == m2.overall.byCategory[InCropHerb]
    requires m1.overall.acresByCategory[PreSeedHerb] == m2.overall.acresByCategory[PreSeedHerb]
    requires m1.overall.acresByCategory[InCropHerb] == m2.overall.acresByCategory[InCropHerb]
    ensures EvalFMC(m1).estimatedCashback == EvalFMC(m2).estimatedCashback
    ensures EvalFMC(m1).breakdown == EvalFMC(m2).breakdown
  {
    var b1, b2 := Breakdown(m1.overall), Breakdown(m2.overall);
    assert MatchAcres(m1.overall) == MatchAcres(m2.overall);
    assert forall i :: 0 <= i < 4 ==> b1[i] == b2[i];
    assert b1 == b2;
  }

  /** Below the first tier only the matching bonus is paid: the bonus is not
      gated by the tier. */
  lemma BonusNotGatedByTier(modeled: ModeledSpend)
    requires modeled.overall.total < 5000.0
    ensures EvalFMC(modeled).estimatedCashback == Round2(Max(0.0, MatchAcres(modeled.overall)))
  {
    var r := EvalFMC(modeled);
    assert r.breakdown[0].value == 0.0 && r.breakdown[1].value == 0.0 && r.breakdown[2].value == 0.0;
  }

  /** With non-negative dollars the cash-back is non-negative. */
  lemma CashbackNonNegative(modeled: ModeledSpend)
    requires forall c :: modeled.overall.byCategory[c] >= 0.0
    ensures EvalFMC(modeled).estimatedCashback >= 0.0
  {
    var r := EvalFMC(modeled);
    var o := modeled.overall;
    var t := Tier(o.total);
    RatesOrdered(t);
    NonNegativeProduct(o.byCategory[BiologicalsPGR], BioRate(t));
    NonNegativeProduct(o.byCategory[PreSeedHerb], BioRate(t));
    NonNegativeProduct(o.byCategory[InCropHerb], InCropRate(t));
    Round2NonNegative(LineSum(r.breakdown));
  }

  lemma NonNegativeProduct(x: real, y: real)
    requires x >= 0.0 && y >= 0.0
    ensures x * y >= 0.0
  {
  }
}
