/**
 The dashboard's summary statistics (best product, average score, score
 distribution) and the recommendation label of the CSV export.
 */
module Dashboard {
  import opened Catalog
  import opened Ranking

  /** The bucket tests of the distribution, written as the three filters are. */
  predicate IsHigh(p: Product) { p.score >= 0.7 }
  predicate IsMedium(p: Product) { p.score >= 0.5 && p.score < 0.7 }
  predicate IsLow(p: Product) { p.score < 0.5 }

  /** `ps.filter(test).length`. */
  function Count(ps: seq<Product>, test: Product -> bool): (n: nat)
    ensures n <= |ps|
  {
    if |ps| == 0 then 0 else (if test(ps[0]) then 1 else 0) + Count(ps[1..], test)
  }

  /** `ps.reduce((sum, p) => sum + (p.score || 0), 0)`; a score is always a number here. */
  function SumScores(ps: seq<Product>): real {
    if |ps| == 0 then 0.0 else ps[0].score + SumScores(ps[1..])
  }

  /** The three buckets partition the catalog: every product is counted exactly once. */
  lemma {:induction false} BucketsPartition(ps: seq<Product>)
    ensures Count(ps, IsHigh) + Count(ps, IsMedium) + Count(ps, IsLow) == |ps|
  {
    if |ps| > 0 {
      BucketsPartition(ps[1..]);
    }
  }

  /** The sum of scores that all lie in [lo, hi] lies in [n * lo, n * hi]. */
  lemma {:induction false} SumScoresBounds(ps: seq<Product>, lo: real, hi: real)
    requires forall i :: 0 <= i < |ps| ==> lo <= ps[i].score <= hi
    ensures |ps| as real * lo <= SumScores(ps) <= |ps| as real * hi
  {
    if |ps| > 0 {
      SumScoresBounds(ps[1..], lo, hi);
      assert (|ps| as real) * lo == lo + (|ps[1..]| as real) * lo;
      assert (|ps| as real) * hi == hi + (|ps[1..]| as real) * hi;
    }
  }

  /** `total / n` for a non-empty catalog. */
  function Mean(total: real, n: nat): (m: real)
    requires n > 0
    ensures m * (n as real) == total
  {
    total / (n as real)
  }

  /** The head of the score ranking is a catalog product with the greatest score. */
  lemma HeadHasTopScore(ps: seq<Product>)
    requires |ps| > 0
    ensures Rank(ps, ByScore)[0] in ps
    ensures forall p :: p in ps ==> p.score <= Rank(ps, ByScore)[0].score
  {
    var best := Rank(ps, ByScore)[0];
    RankHeadIsMaximum(ps, ByScore);
    forall p | p in ps ensures p.score <= best.score {
      assert ByScore(p) <= ByScore(best);
    }
  }

  /** What the dashboard shows: the "-" sentinel for an empty catalog, or the summary. */
  datatype Stats =
    | NoData
    | Summary(best: Product, average: real, high: nat, medium: nat, low: nat)

  /** `updateDashboard`. */
  function UpdateDashboard(ps: seq<Product>): (d: Stats)
    ensures d.NoData? <==> |ps| == 0
    ensures d.Summary? ==>
      && d.best in ps
      && (forall p :: p in ps ==> p.score <= d.best.score)
      && d.average == Mean(SumScores(ps), |ps|)
      && d.high == Count(ps, IsHigh)
      && d.medium == Count(ps, IsMedium)
      && d.low == Count(ps, IsLow)
      && d.high + d.medium + d.low == |ps|
  {
    if |ps| == 0 then NoData
    else
      var best := Rank(ps, ByScore)[0];
      var high, medium, low := Count(ps, IsHigh), Count(ps, IsMedium), Count(ps, IsLow);
      HeadHasTopScore(ps);
      assert high + medium + low == |ps| by {
        BucketsPartition(ps);
      }
      Summary(best, Mean(SumScores(ps), |ps|), high, medium, low)
  }

  /** When every score lies in [0, 1] the average does too. */
  lemma AverageInUnitRange(ps: seq<Product>)
    requires |ps| > 0
    requires forall i :: 0 <= i < |ps| ==> 0.0 <= ps[i].score <= 1.0
    ensures 0.0 <= UpdateDashboard(ps).average <= 1.0
  {
    SumScoresBounds(ps, 0.0, 1.0);
    MeanBounds(SumScores(ps), |ps|, 0.0, 1.0);
  }

  lemma MeanBounds(total: real, n: nat, lo: real, hi: real)
    requires n > 0 && (n as real) * lo <= total <= (n as real) * hi
    ensures lo <= Mean(total, n) <= hi
  {
    var m, k := Mean(total, n), n as real;
    assert (hi - m) * k == hi * k - total;
    assert (m - lo) * k == total - lo * k;
  }

  /** The best product shown is, among those with the highest score, the one added first. */
  lemma BestIsEarliestTopScorer(ps: seq<Product>)
    requires |ps| > 0
    ensures exists i :: (0 <= i < |ps| && ps[i] == UpdateDashboard(ps).best
      && forall j :: 0 <= j < i ==> ps[j].score < ps[i].score)
  {
    RankHeadIsEarliestMaximum(ps, ByScore);
  }

  // ---------------------------------------------------------------- export label

  datatype Recommendation = Recommended | Consider | Reevaluate

  /** The label in the export's last column. */
  function RecommendationFor(score: real): (r: Recommendation)
    ensures r == Recommended <==> score >= 0.7
    ensures r == Consider <==> 0.5 <= score < 0.7
    ensures r == Reevaluate <==> score < 0.5
  {
    if score >= 0.7 then Recommended
    else if score >= 0.5 then Consider
    else Reevaluate
  }

  /** The export labels use the dashboard's buckets: "recommended" is high,
      "consider" is medium, "re-evaluate" is low. */
  lemma {:induction false} LabelsMatchBuckets(ps: seq<Product>)
    ensures Count(ps, IsHigh) == Count(ps, (p: Product) => RecommendationFor(p.score) == Recommended)
    ensures Count(ps, IsMedium) == Count(ps, (p: Product) => RecommendationFor(p.score) == Consider)
    ensures Count(ps, IsLow) == Count(ps, (p: Product) => RecommendationFor(p.score) == Reevaluate)
  {
    if |ps| > 0 {
      LabelsMatchBuckets(ps[1..]);
    }
  }
}
