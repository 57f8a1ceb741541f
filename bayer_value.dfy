/** The BayerValue Segment Savings estimate: three segments (seed
    treatments, herbicides, fungicides), each qualifying at 300 proxy acres;
    two qualifying segments pay 5% and three pay 10% of the qualifying
    segments' spend. */
module BayerValue {
  import opened Types
  import opened Rounding

  datatype Segment = SeedTreatments | Herbicides | Fungicides

  /** The segments, in the order the source lists their flags. */
  const AllSegments: seq<Segment> := [SeedTreatments, Herbicides, Fungicides]

  /** A segment pays only from 300 proxy acres on. */
  predicate Qualifies(acres: real)
  {
    acres >= 300.0
  }

  lemma QualifyingBoundary()
    ensures Qualifies(300.0) && !Qualifies(299.0)
  {
  }

  /** A segment's proxy acres; the herbicide segment takes the larger of the
      pre-seed and in-crop counters. */
  function SegmentAcres(o: CropModeledSpend, s: Segment): real
  {
    match s
    case SeedTreatments => o.acresByCategory[SeedTreatment]
    case Herbicides => Max(o.acresByCategory[PreSeedHerb], o.acresByCategory[InCropHerb])
    case Fungicides => o.acresByCategory[Fungicide]
  }

  /** A segment's modeled dollars; the herbicide segment is pre-seed plus
      in-crop. */
  function SegmentSpend(o: CropModeledSpend, s: Segment): real
  {
    match s
    case SeedTreatments => o.byCategory[SeedTreatment]
    case Herbicides => o.byCategory[PreSeedHerb] + o.byCategory[InCropHerb]
    case Fungicides => o.byCategory[Fungicide]
  }

  /** The number of `true` flags. */
  function CountTrue(flags: seq<bool>): (n: nat)
    ensures n == multiset(flags)[true]
    ensures n <= |flags|
  {
    if flags == [] then 0
    else
      var init, last := flags[..|flags| - 1], flags[|flags| - 1];
      assert flags == init + [last];
      CountTrue(init) + (if last then 1 else 0)
  }

  /** The segments that qualify, in list order: a reference definition of
      what the evaluator counts and sums. */
  function QualifyingSegments(o: CropModeledSpend, segments: seq<Segment>): (q: seq<Segment>)
    ensures |q| <= |segments|
  {
    if segments == [] then []
    else
      var rest := QualifyingSegments(o, segments[1..]);
      if Qualifies(SegmentAcres(o, segments[0])) then [segments[0]] + rest else rest
  }

  /** A segment is among the qualifying ones exactly when it is listed and
      has its 300 acres. */
  lemma {:induction false} QualifyingMembers(o: CropModeledSpend, segments: seq<Segment>, s: Segment)
    ensures s in QualifyingSegments(o, segments) <==> s in segments && Qualifies(SegmentAcres(o, s))
  {
    if segments != [] {
      QualifyingMembers(o, segments[1..], s);
      assert s in segments <==> s == segments[0] || s in segments[1..];
    }
  }

  /** The sum of the dollars of the given segments. */
  function SpendOf(o: CropModeledSpend, segments: seq<Segment>): real
  {
    if segments == [] then 0.0 else SegmentSpend(o, segments[0]) + SpendOf(o, segments[1..])
  }

  /** The rate for a number of qualifying segments. */
  function SegmentRate(segments: nat): (rate: real)
    ensures segments < 2 ==> rate == 0.0
    ensures segments == 2 ==> rate == 0.05
    ensures segments >= 3 ==> rate == 0.10
  {
    if segments >= 3 then 0.10 else if segments >= 2 then 0.05 else 0.0
  }

  /** The qualifying segments, written out for the three segments. */
  lemma QualifyingOfAll(o: CropModeledSpend)
    ensures QualifyingSegments(o, AllSegments)
         == (if Qualifies(SegmentAcres(o, SeedTreatments)) then [SeedTreatments] else [])
            + (if Qualifies(SegmentAcres(o, Herbicides)) then [Herbicides] else [])
            + (if Qualifies(SegmentAcres(o, Fungicides)) then [Fungicides] else [])
  {
    var q1, q2, q3 := Qualifies(SegmentAcres(o, SeedTreatments)), Qualifies(SegmentAcres(o, Herbicides)),
                      Qualifies(SegmentAcres(o, Fungicides));
    assert AllSegments[1..] == [Herbicides, Fungicides];
    assert AllSegments[1..][1..] == [Fungicides];
    assert AllSegments[1..][1..][1..] == [];
    assert QualifyingSegments(o, [Fungicides]) == (if q3 then [Fungicides] else []);
    assert QualifyingSegments(o, [Herbicides, Fungicides])
        == (if q2 then [Herbicides] else []) + (if q3 then [Fungicides] else []);
  }

  /** The number of qualifying segments, as the evaluator counts it. */
  function SegmentCount(o: CropModeledSpend): (n: nat)
    ensures n == |QualifyingSegments(o, AllSegments)|
    ensures n <= 3
  {
    var flags := [Qualifies(SegmentAcres(o, SeedTreatments)), Qualifies(SegmentAcres(o, Herbicides)),
                  Qualifies(SegmentAcres(o, Fungicides))];
    QualifyingFlags(flags);
    QualifyingOfAll(o);
    CountTrue(flags)
  }

  lemma QualifyingFlags(flags: seq<bool>)
    requires |flags| == 3
    ensures CountTrue(flags) == (if flags[0] then 1 else 0) + (if flags[1] then 1 else 0) + (if flags[2] then 1 else 0)
  {
    assert flags[..2][..1][..0] == [];
    assert flags[..2][..1] == flags[..1];
    assert CountTrue(flags[..1]) == (if flags[0] then 1 else 0);
    assert CountTrue(flags[..2]) == CountTrue(flags[..1]) + (if flags[1] then 1 else 0);
  }

  /** The spend of the qualifying segments, as the evaluator adds it up. */
  function EligibleSpend(o: CropModeledSpend): (r: real)
    ensures r == SpendOf(o, QualifyingSegments(o, AllSegments))
  {
    QualifyingOfAll(o);
    SpendOfThree(o, Qualifies(SegmentAcres(o, SeedTreatments)), Qualifies(SegmentAcres(o, Herbicides)),
                 Qualifies(SegmentAcres(o, Fungicides)));
    (if Qualifies(SegmentAcres(o, SeedTreatments)) then o.byCategory[SeedTreatment] else 0.0)
      + (if Qualifies(SegmentAcres(o, Herbicides)) then o.byCategory[PreSeedHerb] + o.byCategory[InCropHerb] else 0.0)
      + (if Qualifies(SegmentAcres(o, Fungicides)) then o.byCategory[Fungicide] else 0.0)
  }

  lemma SpendOfThree(o: CropModeledSpend, q1: bool, q2: bool, q3: bool)
    ensures SpendOf(o, (if q1 then [SeedTreatments] else []) + (if q2 then [Herbicides] else [])
                       + (if q3 then [Fungicides] else []))
         == (if q1 then SegmentSpend(o, SeedTreatments) else 0.0)
            + (if q2 then SegmentSpend(o, Herbicides) else 0.0)
            + (if q3 then SegmentSpend(o, Fungicides) else 0.0)
  {
    var tail := (if q2 then [Herbicides] else []) + (if q3 then [Fungicides] else []);
    var all := (if q1 then [SeedTreatments] else []) + tail;
    assert q1 ==> all[1..] == tail;
    assert !q1 ==> all == tail;
    assert q2 ==> tail[1..] == (if q3 then [Fungicides] else []);
    assert !q2 ==> tail == (if q3 then [Fungicides] else []);
    assert [Fungicides][1..] == [];
    var last := if q3 then [Fungicides] else [];
    assert SpendOf(o, last) == (if q3 then SegmentSpend(o, Fungicides) else 0.0);
    assert SpendOf(o, tail) == (if q2 then SegmentSpend(o, Herbicides) else 0.0) + SpendOf(o, last);
  }

  /** The per-acre denominator: the largest segment acreage. */
  function SegmentMaxAcres(o: CropModeledSpend): (r: real)
    ensures SegmentAcres(o, SeedTreatments) <= r && SegmentAcres(o, Herbicides) <= r && SegmentAcres(o, Fungicides) <= r
    ensures r in {SegmentAcres(o, SeedTreatments), SegmentAcres(o, Herbicides), SegmentAcres(o, Fungicides)}
  {
    Max(Max(SegmentAcres(o, SeedTreatments), SegmentAcres(o, Herbicides)), SegmentAcres(o, Fungicides))
  }

  /** The segment-count note. */
  function SegmentNote(segments: nat): (n: Note)
    ensures n == SegmentSavingsNotReached <==> segments < 2
    ensures segments >= 2 ==> n == SegmentSavingsApplied(if segments >= 3 then 10.0 else 5.0, segments)
  {
    if segments < 2 then SegmentSavingsNotReached
    else SegmentSavingsApplied(SegmentRate(segments) * 100.0, segments)
  }

  /** The two breakdown lines: the eligible spend (informational), then the
      rebate, which is the eligible spend at the segment-count rate. */
  function Breakdown(o: CropModeledSpend): (items: seq<LineItem>)
    ensures |items| == 2
    ensures items[0] == LineItem("Eligible spend (qualified segments only)", EligibleSpend(o))
    ensures items[1] == LineItem("Segment savings rebate", EligibleSpend(o) * SegmentRate(SegmentCount(o)))
  {
    var eligibleSpend := EligibleSpend(o);
    [LineItem("Eligible spend (qualified segments only)", eligibleSpend),
     LineItem("Segment savings rebate", eligibleSpend * SegmentRate(SegmentCount(o)))]
  }

  /** `evalBayer`. The farm input is passed but not read. */
  function EvalBayer(input: FarmInput, modeled: ModeledSpend): (r: ProgramResult)
    ensures r.company == "BayerValue (modeled segment savings)"
    ensures r.notes == [SegmentNote(SegmentCount(modeled.overall)), UnmodeledFeaturesCaveat]
    ensures r.breakdown == Breakdown(modeled.overall)
    ensures r.estimatedCashback == Round2(r.breakdown[1].value)
    ensures SegmentMaxAcres(modeled.overall) == 0.0 ==> r.estimatedPerAcre == 0.0
    ensures SegmentMaxAcres(modeled.overall) != 0.0 ==>
              r.estimatedPerAcre == Round2(r.breakdown[1].value / SegmentMaxAcres(modeled.overall))
  {
    var o := modeled.overall;
    var segments := SegmentCount(o);
    var breakdown := Breakdown(o);
    var estimatedCashback := breakdown[1].value;
    var totalAcres := SegmentMaxAcres(o);
    ProgramResult(
      "BayerValue (modeled segment savings)",
      Round2(estimatedCashback),
      Round2(if totalAcres != 0.0 then estimatedCashback / totalAcres else 0.0),
      [SegmentNote(segments), UnmodeledFeaturesCaveat],
      breakdown)
  }

  /** Fewer than two qualifying segments pay nothing. */
  lemma NotReachedPaysNothing(input: FarmInput, modeled: ModeledSpend)
    requires SegmentCount(modeled.overall) < 2
    ensures EvalBayer(input, modeled).estimatedCashback == 0.0
    ensures EvalBayer(input, modeled).notes[0] == SegmentSavingsNotReached
  {
    Round2Zero();
  }

  /** The rebate is never more than 10% of the eligible spend. */
  lemma RebateAtMostTenPercent(input: FarmInput, modeled: ModeledSpend)
    ensures var b := EvalBayer(input, modeled).breakdown;
            Abs(b[1].value) <= Abs(b[0].value) / 10.0
  {
    var o := modeled.overall;
    var e, rate := EligibleSpend(o), SegmentRate(SegmentCount(o));
    assert EvalBayer(input, modeled).breakdown == Breakdown(o);
    ScaledAbs(e, rate);
  }

  lemma ScaledAbs(e: real, rate: real)
    requires 0.0 <= rate <= 0.10
    ensures Abs(e * rate) <= Abs(e) / 10.0
  {
    var d := Abs(e);
    ScaledBound(d, rate);
    assert Abs(e * rate) == d * rate by {
      if e < 0.0 {
        assert e * rate == -(d * rate);
      }
    }
  }

  lemma ScaledBound(d: real, rate: real)
    requires d >= 0.0 && 0.0 <= rate <= 0.10
    ensures 0.0 <= d * rate <= d / 10.0
  {
  }

  /** The result does not depend on the farm input, only on the model. */
  lemma InputIgnored(input1: FarmInput, input2: FarmInput, modeled: ModeledSpend)
    ensures EvalBayer(input1, modeled) == EvalBayer(input2, modeled)
  {
  }

  /** With non-negative dollars the cash-back is non-negative. */
  lemma CashbackNonNegative(input: FarmInput, modeled: ModeledSpend)
    requires forall c :: modeled.overall.byCategory[c] >= 0.0
    ensures EvalBayer(input, modeled).estimatedCashback >= 0.0
  {
    var o := modeled.overall;
    var e, rate := EligibleSpend(o), SegmentRate(SegmentCount(o));
    assert e >= 0.0;
    assert e * rate >= 0.0;
    Round2NonNegative(e * rate);
  }
}
