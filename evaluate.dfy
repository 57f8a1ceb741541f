/** `evaluateAll`: the spend model is computed once and handed to the five
    registered evaluators, whose results are ranked by cash-back, highest
    first, a stable sort keeping registration order among ties. */
module Evaluate {
  import opened Types
  import SpendModel
  import Fmc
  import BayerValue

  /** The BASF, UPL and Syngenta evaluators, which are not part of this
      model: any total functions of the arguments the source passes them. */
  datatype Evaluators = Evaluators(
    evalBASF: ModeledSpend -> ProgramResult,
    evalUPL: (FarmInput, ModeledSpend) -> ProgramResult,
    evalSyngentaWCU: (FarmInput, ModeledSpend) -> ProgramResult)

  datatype Evaluation = Evaluation(modeled: ModeledSpend, results: seq<ProgramResult>)

  /** The results in registration order: FMC, Bayer, BASF, UPL, Syngenta. */
  function Registered(others: Evaluators, input: FarmInput, modeled: ModeledSpend): (r: seq<ProgramResult>)
    ensures |r| == 5
    ensures r[0] == Fmc.EvalFMC(modeled) && r[1] == BayerValue.EvalBayer(input, modeled)
    ensures r[2] == others.evalBASF(modeled)
    ensures r[3] == others.evalUPL(input, modeled) && r[4] == others.evalSyngentaWCU(input, modeled)
  {
    [Fmc.EvalFMC(modeled), BayerValue.EvalBayer(input, modeled), others.evalBASF(modeled),
     others.evalUPL(input, modeled), others.evalSyngentaWCU(input, modeled)]
  }

  /** Non-increasing by cash-back. */
  predicate SortedDesc(s: seq<ProgramResult>)
  {
    forall i, j :: 0 <= i < j < |s| ==> s[i].estimatedCashback >= s[j].estimatedCashback
  }

  /** The entries whose cash-back is `v`, in their order in `s`. */
  function WithCashback(s: seq<ProgramResult>, v: real): seq<ProgramResult>
  {
    if s == [] then []
    else (if s[0].estimatedCashback == v then [s[0]] else []) + WithCashback(s[1..], v)
  }

  /** Where `x` goes in a sorted list: after every entry paying at least
      as much as `x`, so that an earlier entry stays ahead of a later tie. */
  function InsertPosition(x: ProgramResult, s: seq<ProgramResult>): (k: nat)
    requires SortedDesc(s)
    ensures k <= |s|
    ensures forall i :: 0 <= i < k ==> s[i].estimatedCashback >= x.estimatedCashback
    ensures forall i :: k <= i < |s| ==> s[i].estimatedCashback < x.estimatedCashback
  {
    if s == [] || s[0].estimatedCashback < x.estimatedCashback then 0
    else 1 + InsertPosition(x, s[1..])
  }

  function Insert(x: ProgramResult, s: seq<ProgramResult>): (r: seq<ProgramResult>)
    requires SortedDesc(s)
    ensures SortedDesc(r)
    ensures |r| == |s| + 1
  {
    var k := InsertPosition(x, s);
    s[..k] + [x] + s[k..]
  }

  lemma InsertPermutes(x: ProgramResult, s: seq<ProgramResult>)
    requires SortedDesc(s)
    ensures multiset(Insert(x, s)) == multiset(s) + multiset{x}
  {
    var k := InsertPosition(x, s);
    assert s == s[..k] + s[k..];
  }

  /** The ranking: an insertion sort, front to back. */
  function Rank(s: seq<ProgramResult>): (r: seq<ProgramResult>)
    ensures SortedDesc(r)
    ensures |r| == |s|
  {
    if s == [] then [] else Insert(s[|s| - 1], Rank(s[..|s| - 1]))
  }

  /** The ranking is a permutation of its input. */
  lemma {:induction false} RankPermutes(s: seq<ProgramResult>)
    ensures multiset(Rank(s)) == multiset(s)
  {
    if s != [] {
      var init, last := s[..|s| - 1], s[|s| - 1];
      assert s == init + [last];
      RankPermutes(init);
      InsertPermutes(last, Rank(init));
    }
  }

  lemma {:induction false} WithCashbackConcat(a: seq<ProgramResult>, b: seq<ProgramResult>, v: real)
    ensures WithCashback(a + b, v) == WithCashback(a, v) + WithCashback(b, v)
  {
    if a == [] {
      assert a + b == b;
    } else {
      assert (a + b)[1..] == a[1..] + b;
      WithCashbackConcat(a[1..], b, v);
    }
  }

  lemma {:induction false} NoneWithCashback(s: seq<ProgramResult>, v: real)
    requires forall i :: 0 <= i < |s| ==> s[i].estimatedCashback < v
    ensures WithCashback(s, v) == []
  {
    if s != [] {
      NoneWithCashback(s[1..], v);
    }
  }

  /** Inserting `x` puts it after every earlier entry with its cash-back. */
  lemma InsertKeepsTies(x: ProgramResult, s: seq<ProgramResult>, v: real)
    requires SortedDesc(s)
    ensures WithCashback(Insert(x, s), v)
         == WithCashback(s, v) + (if x.estimatedCashback == v then [x] else [])
  {
    var k := InsertPosition(x, s);
    assert s == s[..k] + s[k..];
    TiesAround(s[..k], x, s[k..], v);
  }

  /** Placing `x` ahead of entries that all pay less puts it after the
      entries with its cash-back. */
  lemma TiesAround(front: seq<ProgramResult>, x: ProgramResult, back: seq<ProgramResult>, v: real)
    requires forall i :: 0 <= i < |back| ==> back[i].estimatedCashback < x.estimatedCashback
    ensures WithCashback(front + [x] + back, v)
         == WithCashback(front + back, v) + (if x.estimatedCashback == v then [x] else [])
  {
    var mine := if x.estimatedCashback == v then [x] else [];
    WithCashbackConcat(front, back, v);
    WithCashbackConcat(front + [x], back, v);
    WithCashbackConcat(front, [x], v);
    assert [x][1..] == [];
    assert WithCashback([x], v) == mine;
    if x.estimatedCashback == v {
      NoneWithCashback(back, v);
    }
  }

  /** The ranking is stable: for every cash-back value, the entries with that
      value come out in the order they went in. */
  lemma {:induction false} RankIsStable(s: seq<ProgramResult>, v: real)
    ensures WithCashback(Rank(s), v) == WithCashback(s, v)
  {
    if s != [] {
      var init, last := s[..|s| - 1], s[|s| - 1];
      RankIsStable(init, v);
      InsertKeepsTies(last, Rank(init), v);
      assert s == init + [last];
      WithCashbackConcat(init, [last], v);
    }
  }

  /** `evaluateAll`: one run of the spend model, whose result is both
      returned and given to every evaluator, and the ranked results. */
  method EvaluateAll(table: SpendModel.AssumptionTable, others: Evaluators, input: FarmInput)
    returns (e: Evaluation)
    ensures e.modeled == SpendModel.ModelSpec(table, input)
    ensures e.results == Rank(Registered(others, input, e.modeled))
    ensures |e.results| == 5 && multiset(e.results) == multiset(Registered(others, input, e.modeled))
    ensures SortedDesc(e.results)
  {
    var modeled := SpendModel.ModelFarmSpend(table, input);
    var registered := Registered(others, input, modeled);
    RankPermutes(registered);
    e := Evaluation(modeled, Rank(registered));
  }

  /** The ranked list puts a best-paying entry first. */
  lemma RankFirstIsBest(s: seq<ProgramResult>)
    ensures forall i :: 0 <= i < |Rank(s)| ==> Rank(s)[0].estimatedCashback >= Rank(s)[i].estimatedCashback
  {
    var r := Rank(s);
    assert SortedDesc(r);
  }

  /** For every cash-back value at once. */
  lemma RankIsStableForAll(s: seq<ProgramResult>)
    ensures forall v :: WithCashback(Rank(s), v) == WithCashback(s, v)
  {
    forall v ensures WithCashback(Rank(s), v) == WithCashback(s, v) {
      RankIsStable(s, v);
    }
  }

  /** Reordering the plans changes neither the model nor the FMC and Bayer
      results (the other evaluators receive the input itself). */
  lemma PlanOrderIrrelevant(table: SpendModel.AssumptionTable, input1: FarmInput, input2: FarmInput)
    requires multiset(input1.plans) == multiset(input2.plans)
    ensures var m1, m2 := SpendModel.ModelSpec(table, input1), SpendModel.ModelSpec(table, input2);
            && m1 == m2
            && Fmc.EvalFMC(m1) == Fmc.EvalFMC(m2)
            && BayerValue.EvalBayer(input1, m1) == BayerValue.EvalBayer(input2, m2)
  {
    SpendModel.OrderIndependent(table, input1, input2);
    BayerValue.InputIgnored(input1, input2, SpendModel.ModelSpec(table, input1));
  }
}
