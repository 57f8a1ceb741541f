# Rebate optimizer: spend model and program evaluators

This project models the estimation engine of a rebate optimizer for
Canadian farm input programs, and proves properties of it.

- A farm is described by crop plans. Each plan has a crop, its acres and,
  for each of seven input categories, an intent: enabled or not, at a low,
  medium or high budget.
- The spend model turns the plans into modeled dollars and "proxy acres"
  per category. It does this for the whole farm and for each crop, using a
  per-acre assumption table.
- Rebate evaluators turn the modeled spend into estimated cash-back. They
  report the cash-back, a per-acre figure, notes and a breakdown.
- The orchestrator runs the spend model once, runs the five evaluators on
  its result and ranks the results by cash-back, highest first.

Modules, one per source file:

- `Types` (`types.dfy`): the records and enumerations of `modelSpend.ts`.
  Numbers are exact `real`s.
- `Rounding` (`rounding.dfy`): `round2` of `basf.ts`.
- `SpendModel` (`spend_model.dfy`): `ALL_CATEGORIES`, `emptySpend` and
  `modelFarmSpend` of `bayer.ts`.
  - `ModelFarmSpend` is a method with a loop over the plans, a loop over the
    categories (`CreditPlan`) and a loop filling in the totals at the end.
    Buckets are created on demand and their counters are increased plan by
    plan and category by category.
  - The source credits the farm bucket and the crop bucket in one pass over
    the categories. The model makes two passes per plan, one per bucket. The
    final state is the same, and each counter receives the same additions in
    the same order.
  - It is proved equal to the function `ModelSpec`. `ModelSpec` defines every
    counter as a sum over the plans.
  - The lemmas about `ModelSpec` state the aggregation invariants, what one
    more plan adds, and order independence.
- `Fmc` (`fmc.dfy`): `tier` and `evalFMC` of `next.config.mjs`.
- `BayerValue` (`bayer_value.dfy`): `evalBayer` of `next-env.d.ts`.
- `Evaluate` (`evaluate.dfy`): `evaluateAll` of `upl.ts`.
  - The library sort becomes a stable insertion sort, `Rank`.
  - It is proved sorted, a permutation and stable.
- `Scenarios` (`scenarios.dfy`): worked examples.
  - A 1000-acre canola farm: its spend, its FMC result and its Bayer result.
  - The same farm with no acreage.
  - A ranking of four results.

The assumption table has no `other` requirement. The code reads the table
with optional chaining, so a table without an `other` profile simply prices
unprofiled crops at 0 dollars. `ResolveProfile` models exactly that, and no
member requires an `other` entry.

## Model

| member | source | states |
|---|---|---|
| Types.Min | next.config.mjs:35 | `Math.min` of two numbers: a lower bound of both, and one of them |
| Types.Max | next.config.mjs:41-48 | `Math.max` of two numbers: an upper bound of both, and one of them |
| Types.Abs | next-env.d.ts:39 | proof helper: the absolute value: non-negative, and `x` or `-x` |
| Rounding.MathRound | basf.ts:5 | `Math.round` is the unique integer in `(x - 1/2, x + 1/2]`, so halves round up |
| Rounding.Round2 | basf.ts:4-6 | `round2(n)` is a whole number of cents (`round2(n) * 100` is an integer) within half a cent of `n`: `n - 0.005 < round2(n) <= n + 0.005` |
| Rounding.Round2OfCents | basf.ts:4-6 | a whole number of cents is left unchanged by `round2` |
| Rounding.Round2Idempotent | basf.ts:5 | `round2(round2(n)) == round2(n)` |
| Rounding.MathRoundMonotone | basf.ts:5 | `Math.round` is monotone |
| Rounding.Round2Monotone | basf.ts:5 | `n <= m` implies `round2(n) <= round2(m)` |
| Rounding.Round2Zero | basf.ts:4-6 | `round2(0) == 0` |
| Rounding.Round2NonNegative | basf.ts:4-6 | `n >= 0` implies `round2(n) >= 0` |
| SpendModel.CategoryIndex | bayer.ts:4-12 | every category occurs in `ALL_CATEGORIES`, at the index returned |
| SpendModel.AllCropsListed | modelSpend.ts:14-25 | the crop list used to sum over crop buckets holds every crop, each once |
| SpendModel.ResolveProfile | bayer.ts:25 | the crop's own profile when the table has one; otherwise the `other` profile; an empty profile when neither exists |
| SpendModel.PerAcre | bayer.ts:35-38 | the table's price for the category at the plan's budget, and 0 when the profile has no such entry |
| SpendModel.Enabled | bayer.ts:31-32 | a category is enabled exactly when the plan has an intent for it with `enabled` set |
| SpendModel.Dollars | bayer.ts:38 | (no contract of its own) a category's dollars, the price per acre times the plan's acres |
| SpendModel.SumCategories | bayer.ts:48 | a bucket's total is the left-to-right reduction from 0 of its seven dollar values in `ALL_CATEGORIES` order (the reference `FoldValues`) |
| SpendModel.FoldAllCategories | bayer.ts:48 | the reduction over `ALL_CATEGORIES`, written out as seven additions |
| SpendModel.Credit | bayer.ts:31-41 | (no contract of its own) what one plan adds to one counter; its cases are stated by `DisabledCategoryAddsNothing`, `EnabledCategoryAdds`, `FallbackToOther` and `MissingEntryCreditsAcresOnly` |
| SpendModel.Accumulated | bayer.ts:24-46 | (no contract of its own) a counter after the plans, the sum of the credits of the plans in scope; its properties are stated by `AccumulatedStep`, `AccumulatedConcat`, `AccumulatedPermutation` and `FarmIsSumOfCrops` |
| SpendModel.Bucket | bayer.ts:48-52 | a specified bucket's total is the sum of its dollars |
| SpendModel.ModelSpec | bayer.ts:20-55 | the specification of `modelFarmSpend`: its crop buckets are keyed by exactly the crops that occur in the plans |
| SpendModel.CropBuckets | bayer.ts:27-28 | one bucket for each crop that occurs in the plans, and no other |
| SpendModel.EmptySpend | bayer.ts:14-18 | a fresh bucket has all seven categories at 0 dollars and 0 acres, and a total of 0 |
| SpendModel.CreditPlan | bayer.ts:30-45 | the inner loop adds to each counter exactly the plan's credit for it, and leaves the total alone |
| SpendModel.ModelFarmSpend | bayer.ts:20-55 | the method's result equals the specification `ModelSpec`; its loop invariant is `Tracks` |
| SpendModel.TracksNoPlans | bayer.ts:21-22 | the empty farm bucket and empty crop map satisfy the loop invariant for no plans |
| SpendModel.TracksStep | bayer.ts:24-46 | crediting one plan to the farm bucket and to its crop bucket (created if new) preserves the loop invariant |
| SpendModel.TracksRetotalFarm | bayer.ts:48 | setting the farm-wide total leaves its counters, and so the loop invariant, as they were |
| SpendModel.TracksRetotalCrop | bayer.ts:50-52 | setting one crop bucket's total leaves its counters, and so the loop invariant, as they were |
| SpendModel.TracksModel | bayer.ts:48-54 | tracked counters with filled-in totals are the specified model |
| SpendModel.TrackedCropBuckets | bayer.ts:50-52 | tracked crop buckets with filled-in totals are the specified crop buckets |
| SpendModel.CropBucketsFrom | bayer.ts:27-28 | a map with the plans' crops as keys and the specified bucket at each key is the crop-bucket map |
| SpendModel.TrackedCropBucket | bayer.ts:51 | one tracked crop bucket with its total filled in is the specified bucket |
| SpendModel.AccumulatedStep | bayer.ts:24 | one more plan adds its credit to every bucket it belongs to |
| SpendModel.CropsOfStep | bayer.ts:27 | one more plan adds its crop to the set of crops seen |
| SpendModel.BucketFromCounters | bayer.ts:48-52 | a bucket is fixed by its fourteen counters and its total |
| SpendModel.AbsentCropIsZero | bayer.ts:27-28 | a crop that no plan names has all counters at 0 |
| SpendModel.BucketsAgree | bayer.ts:40-44 | plan lists giving equal counters give equal buckets |
| SpendModel.AppendedPlan | bayer.ts:24 | appending a plan extends the plan list by exactly that plan |
| SpendModel.AppendPlanOverall | bayer.ts:40-41 | one more plan adds its credit to each counter of the farm bucket |
| SpendModel.AppendPlanCropBucket | bayer.ts:27-44 | one more plan adds its credit to its crop's bucket, created from 0 when the crop is new |
| SpendModel.AppendPlanOtherCrops | bayer.ts:27-28 | one more plan adds its crop to the keys and leaves every other crop's bucket unchanged |
| SpendModel.OtherCropUnchanged | bayer.ts:43-44 | a plan leaves the buckets of other crops unchanged |
| SpendModel.DisabledCategoryAddsNothing | bayer.ts:31-32 | a missing or disabled intent adds nothing to any dollar or acre counter, farm-wide or per crop |
| SpendModel.EnabledCategoryAdds | bayer.ts:34-44 | an enabled category adds `perAcre * acres` dollars and `acres` acres to the farm bucket and to the plan's crop bucket |
| SpendModel.FallbackToOther | bayer.ts:25 | a crop with no profile is priced as the `other` crop would be |
| SpendModel.MissingEntryCreditsAcresOnly | bayer.ts:35-41 | a missing (category, budget) entry gives 0 dollars, but the plan's acres are still credited |
| SpendModel.CropSumOfNoPlans | bayer.ts:21-22 | without plans every crop's counter is 0 |
| SpendModel.CropSumAppend | bayer.ts:43-44 | one more plan adds its credit to the sum over crops exactly once, for its own crop |
| SpendModel.FarmIsSumOfCrops | bayer.ts:40-44 | each farm-wide counter is the sum of that counter over all crops |
| SpendModel.BucketSumOfModel | bayer.ts:27-44 | summing the model's crop buckets gives the sum of the crops' counters |
| SpendModel.ModelSpecConsistent | bayer.ts:40-52 | every total is the sum of its bucket's dollars; every farm counter is the sum over crop buckets; the bucket keys are exactly the crops of the plans |
| SpendModel.AccumulatedConcat | bayer.ts:24 | the counters of two plan lists run one after the other add up |
| SpendModel.RemoveMatching | bayer.ts:24 | the last plan of a list occurs in any permutation of it, and removing it from both leaves permutations |
| SpendModel.AccumulatedPermutation | bayer.ts:24-46 | a counter does not depend on the order of the plans |
| SpendModel.PermutedBucket | bayer.ts:24-46 | a bucket does not depend on the order of the plans |
| SpendModel.PermutedCrops | bayer.ts:27 | the crops seen do not depend on the order of the plans |
| SpendModel.OrderIndependent | bayer.ts:20-55 | over exact arithmetic, reordering the plans leaves the whole model unchanged |
| SpendModel.ZeroAcresZeroCounters | bayer.ts:38-44 | plans with 0 acres add 0 to every counter |
| SpendModel.ZeroAcresZeroSpend | bayer.ts:20-55 | when every plan has 0 acres, every counter and every total is 0, whatever the table |
| SpendModel.ZeroBucket | bayer.ts:48-52 | with 0 acres a bucket's counters and total are 0 |
| Fmc.Tier | next.config.mjs:13-19 | tier 0 below 5000, 1 on [5000, 30000), 2 on [30000, 50000), 3 on [50000, 75000), 4 from 75000, each an iff |
| Fmc.TierMonotone | next.config.mjs:13-19 | the tier is monotone in the total |
| Fmc.BioRate | next.config.mjs:26-27 | the biologicals rate, also used for pre-seed herbicide: 0 at tier 0, 2% per tier from tier 1 to 4 (2/4/6/8%) |
| Fmc.InCropRate | next.config.mjs:28 | the in-crop herbicide rate: 0 at tier 0, 3% per tier plus 3% from tier 1 to 4 (6/9/12/15%) |
| Fmc.RatesOrdered | next.config.mjs:26-28 | from tier 1 the in-crop rate is above the biologicals rate; at tier 0 both are 0 |
| Fmc.RatesMonotone | next.config.mjs:26-28 | both rates are monotone in the tier |
| Fmc.MatchAcres | next.config.mjs:35 | the matched acres are the smaller of pre-seed and in-crop acres |
| Fmc.MatchBonus | next.config.mjs:36 | the bonus is `max(0, matchAcres)` dollars: the matched acres when positive, else 0 |
| Fmc.MaxAcres | next.config.mjs:41-48 | the per-acre denominator is the largest of the six acre counters other than seed traits |
| Fmc.Breakdown | next.config.mjs:30-63 | exactly four lines (biologicals, pre-seed, in-crop, bonus), each the dollars times its tier rate, and their sum |
| Fmc.Notes | next.config.mjs:24-57 | the tier note comes first; "not reached" is present iff the tier is 0 and then comes second; the bonus note is present iff the matched acres are positive and carries them rounded; no other note: the length is 1, plus 1 at tier 0, plus 1 with matched acres |
| Fmc.CashbackPerAcre | next.config.mjs:53 | 0 when the denominator is 0, otherwise the quotient times the denominator is the cash-back |
| Fmc.EvalFMC | next.config.mjs:21-65 | the result: its company, the breakdown, cash-back `round2` of the breakdown's sum, per-acre `round2(cashback / maxAcres)` or 0, and the notes |
| Fmc.LineSumOfFour | next.config.mjs:39 | a four-line breakdown sums to the sum of its four values |
| Fmc.CashbackInputs | next.config.mjs:30-52 | only the total, the biologicals and herbicide dollars and the herbicide acres affect the cash-back and the breakdown |
| Fmc.BonusNotGatedByTier | next.config.mjs:35-36 | below tier 1 the matching bonus is still paid, and it is all that is paid |
| Fmc.CashbackNonNegative | next.config.mjs:30-52 | with non-negative dollars the reported cash-back is non-negative |
| Fmc.NonNegativeProduct | next.config.mjs:30-32 | proof helper: a product of non-negative dollars and a rate is non-negative |
| BayerValue.Qualifies | next-env.d.ts:21-23 | (no contract of its own) a segment qualifies from 300 acres on; the boundary is stated by `QualifyingBoundary` |
| BayerValue.SegmentAcres | next-env.d.ts:17-19 | (no contract of its own) a segment's acres, the herbicide segment taking the larger of pre-seed and in-crop; its body is the definition; `QualifyingSegments` and `QualifyingMembers` are stated in terms of it |
| BayerValue.SegmentSpend | next-env.d.ts:34-37 | (no contract of its own) a segment's dollars, herbicides counting pre-seed plus in-crop; stated through `EligibleSpend` |
| BayerValue.QualifyingBoundary | next-env.d.ts:21-23 | 300 acres qualify and 299 do not |
| BayerValue.CountTrue | next-env.d.ts:25 | `filter(Boolean).length` is the number of `true` flags |
| BayerValue.QualifyingSegments | next-env.d.ts:17-25 | at most as many qualifying segments as segments |
| BayerValue.QualifyingMembers | next-env.d.ts:17-23 | a segment qualifies iff it is listed and its acres (herbicides: the larger of pre-seed and in-crop) reach 300 |
| BayerValue.SegmentRate | next-env.d.ts:27-29 | the rate is 0 for fewer than 2 segments, 5% for 2 and 10% for 3 |
| BayerValue.QualifyingOfAll | next-env.d.ts:21-25 | the qualifying segments of the three, written out in order |
| BayerValue.SegmentCount | next-env.d.ts:25 | the count of true flags is the number of qualifying segments, at most 3 |
| BayerValue.QualifyingFlags | next-env.d.ts:25 | three flags count as the sum of their indicators |
| BayerValue.EligibleSpend | next-env.d.ts:34-37 | the eligible spend is the sum of the dollars of the qualifying segments only, herbicides counting pre-seed plus in-crop |
| BayerValue.SpendOfThree | next-env.d.ts:34-37 | the dollars of the qualifying segments, written out for three segments |
| BayerValue.SegmentMaxAcres | next-env.d.ts:41 | the per-acre denominator is the largest segment acreage |
| BayerValue.SegmentNote | next-env.d.ts:31-32 | "not reached" iff fewer than 2 segments, otherwise the "applied" note at 10% for 3 and 5% for 2 |
| BayerValue.Breakdown | next-env.d.ts:51-54 | two lines: the eligible spend, then the rebate, which is the eligible spend at the segment rate |
| BayerValue.EvalBayer | next-env.d.ts:14-56 | the result: its company, exactly two notes (segment note, caveat), the breakdown, cash-back `round2` of the rebate line, and per-acre 0 when no segment acreage |
| BayerValue.NotReachedPaysNothing | next-env.d.ts:27-39 | fewer than 2 qualifying segments pay 0 and give the "not reached" note first |
| BayerValue.RebateAtMostTenPercent | next-env.d.ts:39 | the unrounded rebate is never more than 10% of the eligible spend in magnitude |
| BayerValue.ScaledAbs | next-env.d.ts:39 | proof helper: a rate of at most 10% scales an amount to at most a tenth of it in magnitude |
| BayerValue.ScaledBound | next-env.d.ts:39 | proof helper: a rate of at most 10% on a non-negative amount gives at most a tenth of it |
| BayerValue.InputIgnored | next-env.d.ts:14-56 | the result depends only on the modeled spend, and the farm input is never read |
| BayerValue.CashbackNonNegative | next-env.d.ts:34-39 | with non-negative dollars the reported cash-back is non-negative |
| Evaluate.Registered | upl.ts:12-17 | the five results in registration order: `evalFMC(modeled)`, `evalBayer(input, modeled)`, then the BASF, UPL and Syngenta evaluators on the arguments the source passes them |
| Evaluate.InsertPosition | upl.ts:18 | the insertion point follows every entry paying at least as much and precedes every entry paying less |
| Evaluate.Insert | upl.ts:18 | inserting into a ranked list keeps it ranked and adds one entry |
| Evaluate.InsertPermutes | upl.ts:18 | insertion adds exactly the new entry to the multiset of entries |
| Evaluate.Rank | upl.ts:18 | the ranking is non-increasing by cash-back and keeps the length |
| Evaluate.RankPermutes | upl.ts:18 | the ranking is a permutation of its input |
| Evaluate.WithCashbackConcat | upl.ts:18 | the entries with a given cash-back of a concatenation are those of the two parts, in order |
| Evaluate.NoneWithCashback | upl.ts:18 | a list whose entries all pay less than `v` has no entry at `v` |
| Evaluate.InsertKeepsTies | upl.ts:18 | an inserted entry goes after the earlier entries paying the same |
| Evaluate.TiesAround | upl.ts:18 | an entry placed before entries paying less comes after the ties ahead of it |
| Evaluate.RankIsStable | upl.ts:18 | for every cash-back value, the entries with that value keep their input order |
| Evaluate.EvaluateAll | upl.ts:9-21 | one spend-model run, returned as `modeled` and given to every evaluator; five results, a permutation of the registered results, ranked by cash-back |
| Evaluate.RankFirstIsBest | upl.ts:18 | the first ranked entry pays the most |
| Evaluate.RankIsStableForAll | upl.ts:18 | stability for all cash-back values at once |
| Evaluate.PlanOrderIrrelevant | upl.ts:10-14 | reordering the plans changes neither the model nor the FMC and Bayer results |
| Scenarios.SinglePlan | bayer.ts:24-46 | a single plan credits its own counters and nothing else |
| Scenarios.CanolaCredit | bayer.ts:25-41 | the canola plan's credit per category: dollars from the table, acres only where enabled |
| Scenarios.CanolaFarmCounters | bayer.ts:40-41 | the canola farm's farm-wide counters per category, for any acreage |
| Scenarios.CanolaSpend | bayer.ts:20-55 | the 1000-acre canola farm models $18,000, $22,000, $10,000 and $12,000 in the four enabled categories, $62,000 in total, 1000 acres each |
| Scenarios.CanolaFmcLines | next.config.mjs:21-48 | that model reaches tier 3, matches 1000 acres and has a breakdown summing to $4,720 |
| Scenarios.CanolaFmcOf | next.config.mjs:21-65 | on that model FMC pays $4,720, $4.72 per acre, with the tier-3 and bonus notes |
| Scenarios.CanolaFmc | next.config.mjs:21-65 | the same, starting from the farm |
| Scenarios.CanolaSegments | next-env.d.ts:17-41 | that model qualifies all three segments, with $62,000 eligible over 1000 acres |
| Scenarios.CanolaBayerOf | next-env.d.ts:14-56 | on that model Bayer pays 10% of $62,000: $6,200, $6.20 per acre |
| Scenarios.CanolaBayer | next-env.d.ts:14-56 | the same, starting from the farm |
| Scenarios.NoAcreageSpend | bayer.ts:20-55 | a farm with 0 acres has an all-zero model |
| Scenarios.ZeroModelFmc | next.config.mjs:21-65 | an all-zero model pays nothing under FMC, 0 per acre, with the "not reached" note |
| Scenarios.ZeroModelBayer | next-env.d.ts:14-56 | an all-zero model pays nothing under Bayer, 0 per acre, with the "not reached" note |
| Scenarios.NoAcreage | upl.ts:12-14 | the 0-acre farm pays nothing under FMC and Bayer |
| Scenarios.RankAppend | upl.ts:18 | ranking one more entry inserts it into the ranking of the others |
| Scenarios.RankingStep1 | upl.ts:18 | ranking a single result keeps it |
| Scenarios.RankingStep2 | upl.ts:18 | ranking two results puts the better first |
| Scenarios.RankingStep3 | upl.ts:18 | ranking three results orders them by cash-back |
| Scenarios.RankingExample | upl.ts:18 | cash-backs 120, 450, 0 and 300 are ranked 450, 300, 120, 0 |
| Scenarios.InsertAt | upl.ts:18 | an entry is inserted before the first entry paying less |

## Left out

- Floating point: every number is an exact `real`. IEEE-754 rounding of `Math.round` and of the accumulated sums is not modelled. `Rounding.Round2` and the order-independence lemmas hold over exact arithmetic only.
- NaN: with exact reals a per-acre denominator is never NaN. The source's truthiness test `totalAcres ? … : 0` is modelled as "denominator different from 0".
- The assumption table's contents are configuration data, not shown. The table is a parameter of every member.
- `evalBASF`, `evalUPL` and `evalSyngentaWCU` are not part of this model. They are arbitrary total functions, the fields of `Evaluate.Evaluators`, given the arguments the source passes them.
- `money` in `basf.ts` formats currency through the locale library. It is presentation only, and it is not modelled.
- Note texts: notes are the variants of `Types.Note` rather than formatted strings, so formatting with `toFixed` and templates is not modelled. Breakdown labels and company names keep the source's strings.
- The modeled spend keeps the farm-wide bucket in a field `overall`. The source spreads it into the top level of the result next to `byCrop`.
- Aliasing: the source updates a crop bucket through a reference taken from the map. `SpendModel.ModelFarmSpend` reads the bucket, updates it and writes it back, which gives the same final state.
- Ordering of crop buckets: `byCrop` is a map, so the key order in which the source fills in the totals is not modelled. The totals do not depend on it.
- `Evaluate.Rank`: `Array.prototype.sort` is modelled as a stable insertion sort. ECMAScript requires the library sort to be stable, and it is then fully determined by the comparator, so the result is the same.
- `Evaluate.EvaluateAll`: determinism is not a separate lemma. The method's `ensures` fixes its result as a function of its inputs.
- The province, year, early-purchase and bundle-friendly fields of the input are never read by the spend model, FMC or Bayer. The UPL and Syngenta evaluators, which are not part of this model, receive the whole input.
- Non-negative acres and prices are not checked by the source, and the model does not require them. The lemmas that need non-negative dollars say so in their `requires`.
