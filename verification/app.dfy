/**
 The "Analyze" button: score the catalog, rank it, and derive from the best
 product the insight, the action list, the chart and the dashboard.
 */
module App {
  import opened Catalog
  import opened Scoring
  import opened Ranking
  import opened Rules
  import opened Dashboard
  import opened Chart

  /** Everything one analysis puts on screen. */
  datatype Analysis = Analysis(
    catalog: seq<Product>,
    ranking: seq<Product>,
    best: Product,
    insight: Insight,
    actions: seq<Action>,
    chart: ChartData,
    stats: Stats)

  /** What a click on "Analyze" ends in: a notice that there are no products, the
      weight gate's refusal (nothing else changes), or a full analysis. */
  datatype AnalyzeOutcome = NoProducts | WeightsRefused | Analyzed(analysis: Analysis)

  /** The click handler of the "Analyze" button. */
  function Analyze(ps: seq<Product>, f: WeightForm): (r: AnalyzeOutcome)
    ensures r.NoProducts? <==> |ps| == 0
    ensures r.WeightsRefused? <==> |ps| > 0 && Total(ReadWeights(f)) != 100.0
    ensures r.Analyzed? ==>
      var a := r.analysis;
      && a.catalog == ScoreAll(ps, ReadWeights(f))
      && SortedDesc(a.ranking, ByScore)
      && multiset(a.ranking) == multiset(a.catalog)
      && |a.ranking| == |ps| > 0
      && a.best == a.ranking[0]
      && a.insight.status == StatusFor(a.best.score)
      && |a.actions| == 3 + 2 * Triggered(a.best)
      && a.stats.Summary? && a.stats.best == a.best
      && |a.chart.labels| == |a.chart.scores| == Min(5, |ps|)
      && a.chart.labels[0] == a.best.name
      && a.ranking == Rank(a.catalog, ByScore)
      && a.insight == GenerateInsight(a.best)
      && a.actions == GenerateAction(a.best)
      && a.chart == ChartSeries(a.catalog).value
      && a.stats == UpdateDashboard(a.catalog)
  {
    if |ps| == 0 then NoProducts
    else
      var scoring := CalculateScore(ps, f);
      if !scoring.ok then WeightsRefused
      else
        var scored := scoring.products;
        var ranking := Rank(scored, ByScore);
        var best := ranking[0];
        Analyzed(Analysis(scored, ranking, best, GenerateInsight(best), GenerateAction(best),
                          ChartSeries(scored).value, UpdateDashboard(scored)))
  }

  /** The best product has the catalog's highest score, lies in [0, 1], and is the
      first one added among equals. */
  ghost predicate EarliestTopScorer(a: Analysis) {
    && 0.0 <= a.best.score <= 1.0
    && (forall p :: p in a.catalog ==> p.score <= a.best.score)
    && exists i :: 0 <= i < |a.catalog| && a.catalog[i] == a.best
         && forall j :: 0 <= j < i ==> a.catalog[j].score < a.best.score
  }

  /** A non-empty catalog with weights totalling 100 is analysed, and the analysis
      picks the earliest top scorer of the scored catalog. */
  lemma AnalyzedBestIsEarliestTopScorer(ps: seq<Product>, f: WeightForm)
    requires |ps| > 0 && Total(ReadWeights(f)) == 100.0
    ensures Analyze(ps, f).Analyzed?
    ensures EarliestTopScorer(Analyze(ps, f).analysis)
  {
    var a := Analyze(ps, f).analysis;
    assert a.best == Rank(a.catalog, ByScore)[0] && |a.catalog| > 0;
    HeadHasTopScore(a.catalog);
    RankHeadIsEarliestMaximum(a.catalog, ByScore);
  }
}
