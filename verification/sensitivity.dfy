/**
 Sensitivity analysis: score a copy of the catalog under one of four fixed
 weight scenarios, into a scenario score kept apart from the canonical score,
 and show the top three.
 */
module Sensitivity {
  import opened Catalog
  import opened Scoring
  import opened Ranking

  datatype Scenario = Optimistic | Pessimistic | Balanced | LowRisk

  /** The hard-coded weights of each scenario; every one totals 100 and has no
      negative weight. */
  function ScenarioWeights(s: Scenario): (w: Weights)
    ensures Total(w) == 100.0 && NonNegative(w)
  {
    match s
    case Optimistic => Weights(40.0, 10.0, 30.0, 10.0, 5.0, 5.0)
    case Pessimistic => Weights(20.0, 30.0, 20.0, 15.0, 10.0, 5.0)
    case Balanced => Weights(25.0, 20.0, 25.0, 10.0, 10.0, 10.0)
    case LowRisk => Weights(20.0, 15.0, 20.0, 10.0, 10.0, 25.0)
  }

  /** A copy of a product with its scenario score beside it. */
  datatype ScenarioEntry = ScenarioEntry(product: Product, scenarioScore: real)

  function ByScenarioScore(e: ScenarioEntry): real {
    e.scenarioScore
  }

  /** The deep copy, each entry given the unclamped weighted sum under `w`. */
  function ScenarioCopies(ps: seq<Product>, w: Weights): (r: seq<ScenarioEntry>)
    ensures |r| == |ps|
    ensures forall i :: 0 <= i < |r| ==> r[i].product == ps[i]
    ensures forall i :: 0 <= i < |r| ==> r[i].scenarioScore == WeightedSum(ps[i], w)
  {
    seq(|ps|, i requires 0 <= i < |ps| => ScenarioEntry(ps[i], WeightedSum(ps[i], w)))
  }

  /** `runSensitivityAnalysis`: the first three of the copies ranked by scenario
      score. The copies carry the canonical products, scores included, unchanged. */
  function RunSensitivityAnalysis(ps: seq<Product>, s: Scenario): (top: seq<ScenarioEntry>)
    ensures |top| == Min(3, |ps|)
    ensures top == Top(ScenarioCopies(ps, ScenarioWeights(s)), ByScenarioScore, 3)
    ensures forall e :: e in top ==>
      e.product in ps && e.scenarioScore == WeightedSum(e.product, ScenarioWeights(s))
  {
    var copies := ScenarioCopies(ps, ScenarioWeights(s));
    var top := Top(copies, ByScenarioScore, 3);
    forall e | e in top
      ensures e.product in ps && e.scenarioScore == WeightedSum(e.product, ScenarioWeights(s))
    {
      assert e in multiset(copies);
      var i :| 0 <= i < |copies| && copies[i] == e;
    }
    top
  }

  /** On a catalog of valid products the missing clamp makes no difference: each
      scenario score is the score the engine gives under the scenario's weights. */
  lemma ScenarioScoresNeedNoClamp(ps: seq<Product>, s: Scenario)
    requires ValidCatalog(ps)
    ensures forall e :: e in ScenarioCopies(ps, ScenarioWeights(s)) ==>
      e.scenarioScore == Score(e.product, ScenarioWeights(s)) && 0.0 <= e.scenarioScore <= 1.0
  {
    var w := ScenarioWeights(s);
    var copies := ScenarioCopies(ps, w);
    forall e | e in copies
      ensures e.scenarioScore == Score(e.product, w) && 0.0 <= e.scenarioScore <= 1.0
    {
      var i :| 0 <= i < |copies| && copies[i] == e;
      assert ValidProduct(ps[i]);
      ClampIsNoOp(ps[i], w);
    }
  }

  /** The weighted sum reads the six criteria only, never the score. */
  lemma WeightedSumIgnoresScore(p: Product, q: Product, w: Weights)
    requires SameButScore(p, q)
    ensures WeightedSum(p, w) == WeightedSum(q, w)
  {
    assert p == q.(score := p.score);
  }

  /** The scenario ranking ignores the canonical scores: catalogs that differ only
      in their scores get the same scenario scores. */
  lemma ScenarioIgnoresCanonicalScores(ps: seq<Product>, qs: seq<Product>, s: Scenario)
    requires |ps| == |qs|
    requires forall i :: 0 <= i < |ps| ==> SameButScore(ps[i], qs[i])
    ensures var a, b := ScenarioCopies(ps, ScenarioWeights(s)), ScenarioCopies(qs, ScenarioWeights(s));
      forall i :: 0 <= i < |a| ==> a[i].scenarioScore == b[i].scenarioScore
  {
    var w := ScenarioWeights(s);
    forall i | 0 <= i < |ps| ensures WeightedSum(ps[i], w) == WeightedSum(qs[i], w) {
      WeightedSumIgnoresScore(ps[i], qs[i], w);
    }
  }

  datatype SensitivityOutcome = NeedProducts | TopThree(entries: seq<ScenarioEntry>)

  /** A scenario button: an empty catalog only raises a notice. */
  function OnScenarioClick(ps: seq<Product>, s: Scenario): (r: SensitivityOutcome)
    ensures r.NeedProducts? <==> |ps| == 0
    ensures r.TopThree? ==> 1 <= |r.entries| <= 3
    ensures r.TopThree? ==> r.entries == RunSensitivityAnalysis(ps, s)
  {
    if |ps| == 0 then NeedProducts else TopThree(RunSensitivityAnalysis(ps, s))
  }
}
