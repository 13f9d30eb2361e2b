/**
 The scoring engine: the weight gate (the six weights must total exactly 100)
 and the weighted sum of normalised criteria, clamped to [0, 1].
 */
module Scoring {
  import opened Catalog

  /** Six weights, in percent, one per criterion. */
  datatype Weights = Weights(
    demand: real,
    competition: real,
    profit: real,
    capital: real,
    productionTime: real,
    risk: real)

  function WeightOf(w: Weights, c: Criterion): real {
    match c
    case Demand => w.demand
    case Competition => w.competition
    case Profit => w.profit
    case Capital => w.capital
    case ProductionTime => w.productionTime
    case Risk => w.risk
  }

  function Total(w: Weights): real {
    w.demand + w.competition + w.profit + w.capital + w.productionTime + w.risk
  }

  predicate NonNegative(w: Weights) {
    && w.demand >= 0.0 && w.competition >= 0.0 && w.profit >= 0.0
    && w.capital >= 0.0 && w.productionTime >= 0.0 && w.risk >= 0.0
  }

  /** The six weight fields of the form, already through `parseFloat`. */
  datatype WeightForm = WeightForm(
    demand: Input,
    competition: Input,
    profit: Input,
    capital: Input,
    productionTime: Input,
    risk: Input)

  /** The form field of criterion `c`. */
  function Entry(f: WeightForm, c: Criterion): Input {
    match c
    case Demand => f.demand
    case Competition => f.competition
    case Profit => f.profit
    case Capital => f.capital
    case ProductionTime => f.productionTime
    case Risk => f.risk
  }

  /** `parseFloat(x) || 0`: a field that does not parse counts as 0. */
  function OrZero(i: Input): (v: real)
    ensures i.Num? ==> v == i.value
    ensures i.NaN? ==> v == 0.0
  {
    match i
    case Num(x) => x
    case NaN => 0.0
  }

  /** The weights `calculateTotalWeight` reads off the form. */
  function ReadWeights(f: WeightForm): (w: Weights)
    ensures forall c :: Entry(f, c).Num? ==> WeightOf(w, c) == Entry(f, c).value
    ensures forall c :: Entry(f, c).NaN? ==> WeightOf(w, c) == 0.0
  {
    Weights(OrZero(f.demand), OrZero(f.competition), OrZero(f.profit),
            OrZero(f.capital), OrZero(f.productionTime), OrZero(f.risk))
  }

  /** `validateWeights`: analysis is allowed only when the total is exactly 100. */
  predicate WeightsValid(f: WeightForm) {
    Total(ReadWeights(f)) == 100.0
  }

  /** A field after `parseFloat(x) || 0` is read, with `NaN` written as 0. */
  function BlankAsZero(i: Input): (z: Input)
    ensures z.Num? && OrZero(z) == OrZero(i)
    ensures i.Num? ==> z == i
  {
    match i
    case Num(_) => i
    case NaN => Num(0.0)
  }

  /** The form with every blank or unparsable field replaced by a typed 0. */
  function BlanksAsZero(f: WeightForm): WeightForm {
    WeightForm(BlankAsZero(f.demand), BlankAsZero(f.competition), BlankAsZero(f.profit),
               BlankAsZero(f.capital), BlankAsZero(f.productionTime), BlankAsZero(f.risk))
  }

  /** Any field left blank or unparsable is the same to the gate as a field holding 0:
      writing 0 into every such field changes neither the weights read nor the verdict. */
  lemma BlankWeightCountsAsZero(f: WeightForm)
    ensures ReadWeights(BlanksAsZero(f)) == ReadWeights(f)
    ensures WeightsValid(f) <==> WeightsValid(BlanksAsZero(f))
  {
  }

  /** Six weights of 30 total 180 and are refused. */
  lemma ThirtyEachIsRefused()
    ensures !WeightsValid(WeightForm(Num(30.0), Num(30.0), Num(30.0), Num(30.0), Num(30.0), Num(30.0)))
  {
  }

  // ---------------------------------------------------------------- scoring

  /** A benefit criterion is `v / 100`, a cost criterion `(100 - v) / 100`. */
  function Normalise(c: Criterion, v: real): (n: real)
    ensures InRange(v) ==> 0.0 <= n <= 1.0
    ensures IsBenefit(c) ==> n * 100.0 == v
    ensures !IsBenefit(c) ==> n * 100.0 + v == 100.0
  {
    if IsBenefit(c) then v / 100.0 else (100.0 - v) / 100.0
  }

  /** One criterion's contribution: normalised value times the weight as a fraction. */
  function Term(p: Product, w: Weights, c: Criterion): real {
    Normalise(c, Raw(p, c)) * (WeightOf(w, c) / 100.0)
  }

  /** The weighted sum before clamping. */
  function WeightedSum(p: Product, w: Weights): (r: real)
    ensures CriteriaInRange(p) && NonNegative(w) ==> 0.0 <= r <= Total(w) / 100.0
  {
    TermsBounded(p, w);
    Term(p, w, Demand) + Term(p, w, Competition) + Term(p, w, Profit)
    + Term(p, w, Capital) + Term(p, w, ProductionTime) + Term(p, w, Risk)
  }

  /** On valid criteria with non-negative weights, each term lies in [0, weight / 100]. */
  lemma TermsBounded(p: Product, w: Weights)
    ensures CriteriaInRange(p) && NonNegative(w) ==> forall c :: 0.0 <= Term(p, w, c) <= WeightOf(w, c) / 100.0
  {
    if CriteriaInRange(p) && NonNegative(w) {
      forall c ensures 0.0 <= Term(p, w, c) <= WeightOf(w, c) / 100.0 {
        TermBounds(p, w, c);
      }
    }
  }

  /** `Math.max(0, Math.min(1, x))`. */
  function Clamp(x: real): (r: real)
    ensures 0.0 <= r <= 1.0
    ensures 0.0 <= x <= 1.0 ==> r == x
    ensures x < 0.0 ==> r == 0.0
    ensures x > 1.0 ==> r == 1.0
  {
    if x > 1.0 then 1.0 else if x < 0.0 then 0.0 else x
  }

  /** A product's score under weights `w`. Whatever the weights, it lies in [0, 1]. */
  function Score(p: Product, w: Weights): (s: real)
    ensures 0.0 <= s <= 1.0
    ensures 0.0 <= WeightedSum(p, w) <= 1.0 ==> s == WeightedSum(p, w)
  {
    Clamp(WeightedSum(p, w))
  }

  lemma {:induction false} TermBounds(p: Product, w: Weights, c: Criterion)
    requires InRange(Raw(p, c)) && WeightOf(w, c) >= 0.0
    ensures 0.0 <= Term(p, w, c) <= WeightOf(w, c) / 100.0
  {
    var n := Normalise(c, Raw(p, c));
    var f := WeightOf(w, c) / 100.0;
    assert Term(p, w, c) == n * f;
    assert 0.0 <= n <= 1.0 && f >= 0.0;
    assert n * f <= 1.0 * f;
  }

  /** With non-negative weights totalling 100 and criteria in range, the weighted sum
      already lies in [0, 1]: the clamp changes nothing. */
  lemma {:induction false} ClampIsNoOp(p: Product, w: Weights)
    requires CriteriaInRange(p) && NonNegative(w) && Total(w) == 100.0
    ensures 0.0 <= WeightedSum(p, w) <= 1.0
    ensures Score(p, w) == WeightedSum(p, w)
  {
    TermBounds(p, w, Demand);
    TermBounds(p, w, Competition);
    TermBounds(p, w, Profit);
    TermBounds(p, w, Capital);
    TermBounds(p, w, ProductionTime);
    TermBounds(p, w, Risk);
  }

  /** The gate checks only the total, so negative weights pass it; the clamp is then
      what keeps the score in [0, 1]: here the weighted sum is 2 and the score 1. */
  lemma NegativeWeightsNeedTheClamp(p: Product, w: Weights)
    requires p.demand == 100.0 && p.competition == 100.0 && p.profit == 1.0
    requires p.capital == 100.0 && p.productionTime == 100.0 && p.risk == 100.0
    requires w.demand == 200.0 && w.competition == -100.0 && w.profit == 0.0
    requires w.capital == 0.0 && w.productionTime == 0.0 && w.risk == 0.0
    ensures CriteriaInRange(p) && Total(w) == 100.0
    ensures WeightedSum(p, w) == 2.0 && Score(p, w) == 1.0
  {
    assert Term(p, w, Demand) == 2.0;
    assert Term(p, w, Competition) == 0.0;
  }

  /** Polarity: with a non-negative weight, raising a benefit criterion never lowers
      the score and raising a cost criterion never raises it. */
  lemma {:induction false} ScoreFollowsPolarity(p: Product, w: Weights, c: Criterion, lo: real, hi: real)
    requires lo <= hi && WeightOf(w, c) >= 0.0
    ensures IsBenefit(c) ==> Score(WithRaw(p, c, lo), w) <= Score(WithRaw(p, c, hi), w)
    ensures !IsBenefit(c) ==> Score(WithRaw(p, c, lo), w) >= Score(WithRaw(p, c, hi), w)
  {
    var a, b := WithRaw(p, c, lo), WithRaw(p, c, hi);
    SumDiffersInOneTerm(a, b, w, c);
    TermFollowsPolarity(a, b, w, c);
    var x, y := WeightedSum(a, w), WeightedSum(b, w);
    if IsBenefit(c) {
      assert x <= y;
      ClampIsMonotone(x, y);
    } else {
      assert y <= x;
      ClampIsMonotone(y, x);
    }
  }

  lemma ClampIsMonotone(x: real, y: real)
    requires x <= y
    ensures Clamp(x) <= Clamp(y)
  {
  }

  lemma {:induction false} TermFollowsPolarity(a: Product, b: Product, w: Weights, c: Criterion)
    requires Raw(a, c) <= Raw(b, c) && WeightOf(w, c) >= 0.0
    ensures IsBenefit(c) ==> Term(a, w, c) <= Term(b, w, c)
    ensures !IsBenefit(c) ==> Term(a, w, c) >= Term(b, w, c)
  {
    var f := WeightOf(w, c) / 100.0;
    var na, nb := Normalise(c, Raw(a, c)), Normalise(c, Raw(b, c));
    assert Term(a, w, c) == na * f && Term(b, w, c) == nb * f;
    if IsBenefit(c) {
      assert na <= nb;
      assert na * f <= nb * f;
    } else {
      assert na >= nb;
      assert na * f >= nb * f;
    }
  }

  /** Two products agreeing on every criterion but `c` have weighted sums that differ
      by exactly the difference of their `c` terms. */
  lemma {:induction false} SumDiffersInOneTerm(a: Product, b: Product, w: Weights, c: Criterion)
    requires forall d :: d != c ==> Raw(a, d) == Raw(b, d)
    ensures WeightedSum(b, w) - WeightedSum(a, w) == Term(b, w, c) - Term(a, w, c)
  {
    var ds := [Demand, Competition, Profit, Capital, ProductionTime, Risk];
    assert c in ds;
    assert forall d :: d != c ==> Term(a, w, d) == Term(b, w, d);
  }

  /** Every product of `ps` scored under `w`; nothing but the scores changes. */
  function ScoreAll(ps: seq<Product>, w: Weights): (r: seq<Product>)
    ensures |r| == |ps|
    ensures forall i :: 0 <= i < |r| ==> SameButScore(r[i], ps[i]) && r[i].score == Score(ps[i], w)
    ensures forall i :: 0 <= i < |r| ==> 0.0 <= r[i].score <= 1.0
  {
    seq(|ps|, i requires 0 <= i < |ps| => ps[i].(score := Score(ps[i], w)))
  }

  /** What `calculateScore` leaves: whether it ran, and the catalog afterwards. */
  datatype Scoring = Scoring(ok: bool, products: seq<Product>)

  /** `calculateScore`: refuse unless the weights total 100; otherwise score every
      product with the weights read off the form. */
  function CalculateScore(ps: seq<Product>, f: WeightForm): (r: Scoring)
    ensures r.ok <==> Total(ReadWeights(f)) == 100.0
    ensures !r.ok ==> r.products == ps
    ensures r.ok ==> r.products == ScoreAll(ps, ReadWeights(f))
  {
    if !WeightsValid(f) then Scoring(false, ps)
    else Scoring(true, ScoreAll(ps, ReadWeights(f)))
  }

  /** Scoring keeps a valid catalog valid: only scores change, and they land in [0, 1]. */
  lemma CalculateScoreKeepsCatalogValid(ps: seq<Product>, f: WeightForm)
    requires ValidCatalog(ps)
    ensures ValidCatalog(CalculateScore(ps, f).products)
  {
    var r := CalculateScore(ps, f).products;
    forall i | 0 <= i < |r| ensures ValidProduct(r[i]) {
      var p := ps[i];
      assert ValidProduct(p);
      assert r[i] == p.(score := r[i].score);
    }
  }
}
