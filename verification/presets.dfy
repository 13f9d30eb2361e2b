/**
 Where the weight form's values come from besides typing: the four built-in
 templates, the stored "current template" with its per-field defaults, and the
 auto-weight heuristic.
 */
module Presets {
  import opened Catalog
  import opened Optional
  import opened Scoring
  import opened Sensitivity
  import opened Dashboard

  /** The form holding exactly the weights `w`. */
  function FormOf(w: Weights): (f: WeightForm)
    ensures ReadWeights(f) == w
    ensures WeightsValid(f) <==> Total(w) == 100.0
  {
    WeightForm(Num(w.demand), Num(w.competition), Num(w.profit),
               Num(w.capital), Num(w.productionTime), Num(w.risk))
  }

  // ---------------------------------------------------------------- templates

  datatype Template = Fashion | FoodAndBeverage | Digital | Services

  /** The built-in templates; every one totals 100 with no negative weight. */
  function TemplateWeights(t: Template): (w: Weights)
    ensures Total(w) == 100.0 && NonNegative(w)
  {
    match t
    case Fashion => Weights(35.0, 25.0, 20.0, 10.0, 5.0, 5.0)
    case FoodAndBeverage => Weights(40.0, 20.0, 25.0, 5.0, 5.0, 5.0)
    case Digital => Weights(25.0, 15.0, 35.0, 10.0, 10.0, 5.0)
    case Services => Weights(25.0, 30.0, 25.0, 5.0, 5.0, 10.0)
  }

  /** Choosing a template fills the form with weights the gate accepts. */
  function ApplyTemplate(t: Template): (f: WeightForm)
    ensures WeightsValid(f)
    ensures ReadWeights(f) == TemplateWeights(t)
  {
    FormOf(TemplateWeights(t))
  }

  // ---------------------------------------------------------------- stored template

  /** The defaults the stored template falls back to. */
  const DefaultWeights: Weights := Weights(25.0, 20.0, 25.0, 10.0, 10.0, 10.0)

  lemma DefaultWeightsAreValid()
    ensures Total(DefaultWeights) == 100.0 && NonNegative(DefaultWeights)
  {
  }

  /** The defaults are the balanced scenario's weights. */
  lemma BalancedScenarioIsTheDefault()
    ensures ScenarioWeights(Balanced) == DefaultWeights
  {
  }

  /** `stored || fallback`. A stored template field is taken to be a number or
      absent, and `NaN` stands for an absent field here; a stored non-numeric value
      is outside the model. An absent field and a stored 0 both fall back. */
  function OrDefault(stored: Input, fallback: real): (v: real)
    ensures stored.NaN? ==> v == fallback
    ensures stored.Num? && stored.value != 0.0 ==> v == stored.value
    ensures stored == Num(0.0) ==> v == fallback
  {
    match stored
    case NaN => fallback
    case Num(x) => if x == 0.0 then fallback else x
  }

  /** `loadTemplate` as written, with `NaN` marking an absent stored field: with no
      stored weights the form keeps what it has;
      otherwise each field gets its stored value, or its default when the stored
      value is missing or 0. */
  function LoadTemplateAsWritten(current: WeightForm, stored: Option<WeightForm>): (f: WeightForm)
    ensures stored.None? ==> f == current
    ensures stored.Some? ==> ReadWeights(f) == Weights(
      OrDefault(stored.value.demand, DefaultWeights.demand),
      OrDefault(stored.value.competition, DefaultWeights.competition),
      OrDefault(stored.value.profit, DefaultWeights.profit),
      OrDefault(stored.value.capital, DefaultWeights.capital),
      OrDefault(stored.value.productionTime, DefaultWeights.productionTime),
      OrDefault(stored.value.risk, DefaultWeights.risk))
  {
    match stored
    case None => current
    case Some(s) => FormOf(Weights(
      OrDefault(s.demand, DefaultWeights.demand),
      OrDefault(s.competition, DefaultWeights.competition),
      OrDefault(s.profit, DefaultWeights.profit),
      OrDefault(s.capital, DefaultWeights.capital),
      OrDefault(s.productionTime, DefaultWeights.productionTime),
      OrDefault(s.risk, DefaultWeights.risk)))
  }

  /** A stored template that zeroes one criterion and totals 100 is loaded as a
      vector totalling 125, which the gate then refuses. */
  lemma StoredZeroWeightIsReplaced(current: WeightForm, s: WeightForm)
    requires s.demand == Num(0.0) && s.competition == Num(40.0) && s.profit == Num(30.0)
    requires s.capital == Num(10.0) && s.productionTime == Num(10.0) && s.risk == Num(10.0)
    ensures WeightsValid(s)
    ensures Total(ReadWeights(LoadTemplateAsWritten(current, Some(s)))) == 125.0
    ensures !WeightsValid(LoadTemplateAsWritten(current, Some(s)))
  {
  }

  /** A stored field that is present, 0 included, is kept; only a missing one falls back. */
  function PresentOrDefault(stored: Input, fallback: real): (v: real)
    ensures stored.NaN? ==> v == fallback
    ensures stored.Num? ==> v == stored.value
  {
    match stored
    case NaN => fallback
    case Num(x) => x
  }

  /** `loadTemplate` with defaults applied per missing field only. */
  function LoadTemplate(current: WeightForm, stored: Option<WeightForm>): (f: WeightForm)
    ensures stored.None? ==> f == current
    ensures stored.Some? ==> ReadWeights(f) == Weights(
      PresentOrDefault(stored.value.demand, DefaultWeights.demand),
      PresentOrDefault(stored.value.competition, DefaultWeights.competition),
      PresentOrDefault(stored.value.profit, DefaultWeights.profit),
      PresentOrDefault(stored.value.capital, DefaultWeights.capital),
      PresentOrDefault(stored.value.productionTime, DefaultWeights.productionTime),
      PresentOrDefault(stored.value.risk, DefaultWeights.risk))
  {
    match stored
    case None => current
    case Some(s) => FormOf(Weights(
      PresentOrDefault(s.demand, DefaultWeights.demand),
      PresentOrDefault(s.competition, DefaultWeights.competition),
      PresentOrDefault(s.profit, DefaultWeights.profit),
      PresentOrDefault(s.capital, DefaultWeights.capital),
      PresentOrDefault(s.productionTime, DefaultWeights.productionTime),
      PresentOrDefault(s.risk, DefaultWeights.risk)))
  }

  predicate AllPresent(s: WeightForm) {
    s.demand.Num? && s.competition.Num? && s.profit.Num?
    && s.capital.Num? && s.productionTime.Num? && s.risk.Num?
  }

  predicate AllMissing(s: WeightForm) {
    s.demand.NaN? && s.competition.NaN? && s.profit.NaN?
    && s.capital.NaN? && s.productionTime.NaN? && s.risk.NaN?
  }

  /** A complete stored template is loaded verbatim, so the gate judges exactly
      the stored vector; an empty one loads the defaults, which the gate accepts. */
  lemma LoadTemplateKeepsStoredVector(current: WeightForm, s: WeightForm)
    ensures AllPresent(s) ==> ReadWeights(LoadTemplate(current, Some(s))) == ReadWeights(s)
    ensures AllPresent(s) ==> (WeightsValid(LoadTemplate(current, Some(s))) <==> WeightsValid(s))
    ensures AllMissing(s) ==> ReadWeights(LoadTemplate(current, Some(s))) == DefaultWeights
    ensures AllMissing(s) ==> WeightsValid(LoadTemplate(current, Some(s)))
  {
  }

  // ---------------------------------------------------------------- auto-weight

  /** The sum of criterion `c` over the catalog. */
  function SumOf(ps: seq<Product>, c: Criterion): real {
    if |ps| == 0 then 0.0 else Raw(ps[0], c) + SumOf(ps[1..], c)
  }

  lemma {:induction false} SumOfBounds(ps: seq<Product>, c: Criterion)
    requires forall i :: 0 <= i < |ps| ==> CriteriaInRange(ps[i])
    ensures |ps| as real <= SumOf(ps, c) <= 100.0 * |ps| as real
  {
    if |ps| > 0 {
      assert CriteriaInRange(ps[0]);
      SumOfBounds(ps[1..], c);
    }
  }

  /** The mean of criterion `c` over a non-empty catalog. */
  function MeanOf(ps: seq<Product>, c: Criterion): (m: real)
    requires |ps| > 0
    requires forall i :: 0 <= i < |ps| ==> CriteriaInRange(ps[i])
    ensures InRange(m)
  {
    SumOfBounds(ps, c);
    MeanBounds(SumOf(ps, c), |ps|, 1.0, 100.0);
    Mean(SumOf(ps, c), |ps|)
  }

  /** `Math.round`: the nearest integer, halves rounded up. */
  function Round(x: real): (r: int)
    ensures x - 0.5 < r as real <= x + 0.5
  {
    (x + 0.5).Floor
  }

  /** The heuristic's normalised mean of criterion `c`. */
  function Appeal(ps: seq<Product>, c: Criterion): (a: real)
    requires |ps| > 0
    requires forall i :: 0 <= i < |ps| ==> CriteriaInRange(ps[i])
    ensures 0.0 <= a <= 1.0
    ensures c == Demand ==> a >= 0.01
  {
    Normalise(c, MeanOf(ps, c))
  }

  /** Quotients by one positive divisor add up as their dividends do. */
  lemma DivAdd(x: real, y: real, t: real)
    requires t > 0.0
    ensures x / t + y / t == (x + y) / t
  {
    var qx, qy := x / t, y / t;
    assert qx * t == x && qy * t == y;
    assert (qx + qy) * t == x + y;
  }

  /** Six shares `a_i / t * 100` of their own total `t` add up to 100. */
  lemma {:induction false} SharesAddUp(a: real, b: real, c: real, d: real, e: real, f: real)
    requires a + b + c + d + e + f > 0.0
    ensures var t := a + b + c + d + e + f;
      a / t * 100.0 + b / t * 100.0 + c / t * 100.0
      + d / t * 100.0 + e / t * 100.0 + f / t * 100.0 == 100.0
  {
    var t := a + b + c + d + e + f;
    DivAdd(a, b, t);
    DivAdd(a + b, c, t);
    DivAdd(a + b + c, d, t);
    DivAdd(a + b + c + d, e, t);
    DivAdd(a + b + c + d + e, f, t);
    assert a / t + b / t + c / t + d / t + e / t + f / t == t / t == 1.0;
  }

  /** One rounded share of a non-negative part of a positive total lies in 0..100. */
  function Share(part: real, total: real): (r: real)
    requires 0.0 <= part <= total && total > 0.0
    ensures 0.0 <= r <= 100.0
    ensures r == Round(part / total * 100.0) as real
  {
    RatioInUnit(part, total);
    Round(part / total * 100.0) as real
  }

  /** A non-negative part of a positive total is a fraction in [0, 1] of it. */
  lemma RatioInUnit(part: real, total: real)
    requires 0.0 <= part <= total && total > 0.0
    ensures 0.0 <= part / total <= 1.0
  {
    var x := part / total;
    assert x * total == part;
    assert (1.0 - x) * total == total - part;
  }

  /** The divisor of every share: the six normalised means together. */
  function AppealTotal(ps: seq<Product>): (t: real)
    requires |ps| > 0
    requires forall i :: 0 <= i < |ps| ==> CriteriaInRange(ps[i])
    ensures 0.01 <= t <= 6.0
  {
    Appeal(ps, Demand) + Appeal(ps, Competition) + Appeal(ps, Profit)
    + Appeal(ps, Capital) + Appeal(ps, ProductionTime) + Appeal(ps, Risk)
  }

  /** Criterion `c`'s weight: its normalised mean's percentage of the six means'
      total, rounded on its own. */
  function ShareOf(ps: seq<Product>, c: Criterion): (r: real)
    requires |ps| > 0
    requires forall i :: 0 <= i < |ps| ==> CriteriaInRange(ps[i])
    ensures 0.0 <= r <= 100.0 && r == r.Floor as real
    ensures var exact := Appeal(ps, c) / AppealTotal(ps) * 100.0;
      exact - 0.5 < r <= exact + 0.5
  {
    Share(Appeal(ps, c), AppealTotal(ps))
  }

  /** `autoWeightByIndustry`: on an empty catalog only a notice; otherwise each
      criterion gets the rounded percentage of its normalised mean in the sum of
      all six. Each share is rounded on its own, with no correction to 100. */
  function AutoWeight(ps: seq<Product>): (r: Option<Weights>)
    requires forall i :: 0 <= i < |ps| ==> CriteriaInRange(ps[i])
    ensures r.None? <==> |ps| == 0
    ensures r.Some? ==> NonNegative(r.value)
    ensures r.Some? ==> forall c :: WeightOf(r.value, c) <= 100.0 && WeightOf(r.value, c) == WeightOf(r.value, c).Floor as real
    ensures r.Some? ==> 97.0 < Total(r.value) <= 103.0
    ensures r.Some? ==> forall c ::
      var exact := Appeal(ps, c) / AppealTotal(ps) * 100.0;
      exact - 0.5 < WeightOf(r.value, c) <= exact + 0.5
  {
    if |ps| == 0 then None
    else
      SharesAddUp(Appeal(ps, Demand), Appeal(ps, Competition), Appeal(ps, Profit),
                  Appeal(ps, Capital), Appeal(ps, ProductionTime), Appeal(ps, Risk));
      Some(Weights(ShareOf(ps, Demand), ShareOf(ps, Competition), ShareOf(ps, Profit),
                   ShareOf(ps, Capital), ShareOf(ps, ProductionTime), ShareOf(ps, Risk)))
  }

  /** The rounding drift is real: a one-product catalog with every criterion at 50
      gets six shares of 17, totalling 102, which the gate refuses. */
  lemma AutoWeightCanMissHundred(p: Product)
    requires p.demand == 50.0 && p.competition == 50.0 && p.profit == 50.0
    requires p.capital == 50.0 && p.productionTime == 50.0 && p.risk == 50.0
    ensures AutoWeight([p]).Some?
    ensures AutoWeight([p]).value == Weights(17.0, 17.0, 17.0, 17.0, 17.0, 17.0)
    ensures !WeightsValid(FormOf(AutoWeight([p]).value))
  {
    var ps := [p];
    forall c ensures MeanOf(ps, c) == 50.0 {
      assert SumOf(ps, c) == 50.0;
    }
    forall c ensures Appeal(ps, c) == 0.5 {
    }
    assert Share(0.5, 3.0) == 17.0 by {
      assert 0.5 / 3.0 * 100.0 + 0.5 == 103.0 / 6.0;
      assert (103.0 / 6.0).Floor == 17;
    }
  }
}
