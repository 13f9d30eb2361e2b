/**
 The comparison chart: which kind of chart is shown, how the toggle button
 cycles it, and the two series drawn for the five best products.
 */
module Chart {
  import opened Catalog
  import opened Optional
  import opened Ranking

  datatype ChartKind = Bar | Radar | Pie

  /** The toggle's cycle, in the order the button walks it. */
  const Kinds: seq<ChartKind> := [Bar, Radar, Pie]

  /** Position of `k` in the cycle (`types.indexOf(chartType)`). */
  function KindIndex(k: ChartKind): (i: nat)
    ensures i < |Kinds| && Kinds[i] == k
  {
    match k
    case Bar => 0
    case Radar => 1
    case Pie => 2
  }

  /** What the toggle leaves on screen: the kind now drawn, and the kind the
      button's label offers next. */
  datatype Toggle = Toggle(shown: ChartKind, offered: ChartKind)

  /** One click of the toggle: move one step along the cycle and label the button
      with the kind two steps along. */
  function ToggleChart(k: ChartKind): (t: Toggle)
    ensures t.shown != k && t.offered != k && t.offered != t.shown
    ensures KindIndex(t.shown) == (KindIndex(k) + 1) % 3
  {
    var i := KindIndex(k);
    Toggle(Kinds[(i + 1) % 3], Kinds[(i + 2) % 3])
  }

  /** The label tells the truth: the kind it offers is the one the next click shows. */
  lemma LabelOffersTheNextKind(k: ChartKind)
    ensures ToggleChart(k).offered == ToggleChart(ToggleChart(k).shown).shown
  {
  }

  /** Three clicks bring the chart back to the kind it started from, having shown
      every kind on the way. */
  lemma ThreeClicksComeBack(k: ChartKind)
    ensures var a := ToggleChart(k).shown;
      var b := ToggleChart(a).shown;
      ToggleChart(b).shown == k && {k, a, b} == {Bar, Radar, Pie}
  {
  }

  /** The two series of the comparison chart, one entry per charted product. */
  datatype ChartData = ChartData(labels: seq<string>, scores: seq<real>, demands: seq<real>)

  /** `renderChart`: nothing on an empty catalog; otherwise the five best products
      by score, each with its score as a percentage and its raw demand. */
  function ChartSeries(ps: seq<Product>): (r: Option<ChartData>)
    ensures r.None? <==> |ps| == 0
    ensures r.Some? ==> var top := Top(ps, ByScore, 5);
      && |r.value.labels| == |r.value.scores| == |r.value.demands| == Min(5, |ps|)
      && (forall i :: 0 <= i < |top| ==>
            r.value.labels[i] == top[i].name
            && r.value.scores[i] == top[i].score * 100.0
            && r.value.demands[i] == top[i].demand)
  {
    if |ps| == 0 then None
    else
      var top := Top(ps, ByScore, 5);
      Some(ChartData(
        seq(|top|, i requires 0 <= i < |top| => top[i].name),
        seq(|top|, i requires 0 <= i < |top| => top[i].score * 100.0),
        seq(|top|, i requires 0 <= i < |top| => top[i].demand)))
  }

  /** The score bars come out highest first, and none is lower than the score of
      any product left off the chart. */
  lemma ChartScoresDescend(ps: seq<Product>)
    requires |ps| > 0
    ensures var s := ChartSeries(ps).value.scores;
      && (forall i, j :: 0 <= i < j < |s| ==> s[i] >= s[j])
      && (forall i, p :: 0 <= i < |s| && p in ps ==> s[i] >= p.score * 100.0 || p in Top(ps, ByScore, 5))
  {
    var top := Top(ps, ByScore, 5);
    var ranked := Rank(ps, ByScore);
    var s := ChartSeries(ps).value.scores;
    forall i, j | 0 <= i < j < |s| ensures s[i] >= s[j] {
      assert top[i] == ranked[i] && top[j] == ranked[j];
    }
    forall i, p | 0 <= i < |s| && p in ps && p !in top ensures s[i] >= p.score * 100.0 {
      TopBeatsTheRest(ps, ByScore, 5, i, p);
    }
  }
}
