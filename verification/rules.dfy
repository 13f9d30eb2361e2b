/**
 The rule tables that turn the best product into a status, four remarks and a
 list of recommended actions. Message texts are presentation; each fixed
 message is one constructor here.
 */
module Rules {
  import opened Catalog

  // ---------------------------------------------------------------- insight

  /** The status badge: ready to try, potential, caution, high risk. */
  datatype Status = ReadyToTry | Potential | Caution | HighRisk

  function StatusFor(score: real): (s: Status)
    ensures s == ReadyToTry <==> score >= 0.8
    ensures s == Potential <==> 0.6 <= score < 0.8
    ensures s == Caution <==> 0.4 <= score < 0.6
    ensures s == HighRisk <==> score < 0.4
  {
    if score >= 0.8 then ReadyToTry
    else if score >= 0.6 then Potential
    else if score >= 0.4 then Caution
    else HighRisk
  }

  /** 0 for the best status, 3 for the worst. */
  function StatusRank(s: Status): nat {
    match s
    case ReadyToTry => 0
    case Potential => 1
    case Caution => 2
    case HighRisk => 3
  }

  /** A higher score never earns a worse status. */
  lemma StatusIsMonotone(lo: real, hi: real)
    requires lo <= hi
    ensures StatusRank(StatusFor(hi)) <= StatusRank(StatusFor(lo))
  {
  }

  /** The three grades a remark can carry: favourable, middling, unfavourable. */
  datatype Grade = Favourable | Middling | Unfavourable

  function GradeRank(g: Grade): nat {
    match g
    case Favourable => 0
    case Middling => 1
    case Unfavourable => 2
  }

  /** A remark on one criterion of the best product. Each (criterion, grade) pair
      stands for one fixed message. */
  datatype Remark = Remark(criterion: Criterion, grade: Grade)

  /** Demand is graded by the bands >= 80 and >= 60. */
  function DemandGrade(v: real): (g: Grade)
    ensures g == Favourable <==> v >= 80.0
    ensures g == Middling <==> 60.0 <= v < 80.0
    ensures g == Unfavourable <==> v < 60.0
  {
    if v >= 80.0 then Favourable else if v >= 60.0 then Middling else Unfavourable
  }

  /** Competition, capital and risk are graded by the bands <= 30 and <= 60. */
  function CostGrade(v: real): (g: Grade)
    ensures g == Favourable <==> v <= 30.0
    ensures g == Middling <==> 30.0 < v <= 60.0
    ensures g == Unfavourable <==> v > 60.0
  {
    if v <= 30.0 then Favourable else if v <= 60.0 then Middling else Unfavourable
  }

  /** The criteria the insight remarks on, in the order it lists them. */
  const RemarkedCriteria: seq<Criterion> := [Demand, Competition, Capital, Risk]

  /** Status and remarks for the best product. */
  datatype Insight = Insight(status: Status, remarks: seq<Remark>)

  /** `generateInsight`. */
  function GenerateInsight(best: Product): (r: Insight)
    ensures r.status == StatusFor(best.score)
    ensures |r.remarks| == 4
    ensures forall i :: 0 <= i < 4 ==> r.remarks[i].criterion == RemarkedCriteria[i]
    ensures r.remarks[0].grade == DemandGrade(best.demand)
    ensures forall i :: 1 <= i < 4 ==> r.remarks[i].grade == CostGrade(Raw(best, RemarkedCriteria[i]))
  {
    Insight(StatusFor(best.score), [
      Remark(Demand, DemandGrade(best.demand)),
      Remark(Competition, CostGrade(best.competition)),
      Remark(Capital, CostGrade(best.capital)),
      Remark(Risk, CostGrade(best.risk))])
  }

  /** Remarks follow each criterion's polarity: more demand never grades worse,
      more competition, capital or risk never grades better. */
  lemma GradesFollowPolarity(lo: real, hi: real)
    requires lo <= hi
    ensures GradeRank(DemandGrade(hi)) <= GradeRank(DemandGrade(lo))
    ensures GradeRank(CostGrade(hi)) >= GradeRank(CostGrade(lo))
  {
  }

  // ---------------------------------------------------------------- actions

  /** Every fixed action the recommendation list can hold. */
  datatype Action =
    // score >= 0.8
    | StartSmall | MarketSurvey | FirstQuarterBudget
    // 0.6 <= score < 0.8
    | ResearchCompetitors | FindPartners | BuildPrototype
    // score < 0.6
    | PostponeExecution | SeekAlternatives | ConsultMentor
    // competition >= 70
    | Differentiate | DevelopUsp
    // capital >= 70
    | SeekExternalFunding | WriteInvestorProposal
    // risk >= 70
    | PlanRiskMitigation | ConsiderInsurance

  /** The three score tiers of the base actions. */
  datatype ActionTier = Execute | Validate | Rethink

  /** The tier of the base actions: each tier is chosen exactly on its band. */
  function ActionTierFor(score: real): (t: ActionTier)
    ensures t == Execute <==> score >= 0.8
    ensures t == Validate <==> 0.6 <= score < 0.8
    ensures t == Rethink <==> score < 0.6
  {
    if score >= 0.8 then Execute else if score >= 0.6 then Validate else Rethink
  }

  /** The three base actions of a tier: that tier's three rows of the rule table, in order. */
  function BaseActions(t: ActionTier): (a: seq<Action>)
    ensures |a| == 3
    ensures forall i :: 0 <= i < 3 ==> TableIndex(a[i]) == 3 * TierRow(t) + i
  {
    match t
    case Execute => [StartSmall, MarketSurvey, FirstQuarterBudget]
    case Validate => [ResearchCompetitors, FindPartners, BuildPrototype]
    case Rethink => [PostponeExecution, SeekAlternatives, ConsultMentor]
  }

  /** The tier's block in the rule table, top to bottom. */
  function TierRow(t: ActionTier): nat {
    match t
    case Execute => 0
    case Validate => 1
    case Rethink => 2
  }

  /** The action tiers are the insight's status tiers with the bottom two merged. */
  lemma ActionTierFollowsStatus(score: real)
    ensures ActionTierFor(score) == match StatusFor(score)
      case ReadyToTry => Execute
      case Potential => Validate
      case Caution => Rethink
      case HighRisk => Rethink
  {
  }

  /** The "high" threshold of the conditional actions. */
  predicate High(v: real) {
    v >= 70.0
  }

  /** How many of competition, capital and risk are high. */
  function Triggered(p: Product): (k: nat)
    ensures k <= 3
  {
    (if High(p.competition) then 1 else 0) + (if High(p.capital) then 1 else 0)
    + (if High(p.risk) then 1 else 0)
  }

  /** Position of an action in the rule table, top to bottom. */
  function TableIndex(a: Action): nat {
    match a
    case StartSmall => 0
    case MarketSurvey => 1
    case FirstQuarterBudget => 2
    case ResearchCompetitors => 3
    case FindPartners => 4
    case BuildPrototype => 5
    case PostponeExecution => 6
    case SeekAlternatives => 7
    case ConsultMentor => 8
    case Differentiate => 9
    case DevelopUsp => 10
    case SeekExternalFunding => 11
    case WriteInvestorProposal => 12
    case PlanRiskMitigation => 13
    case ConsiderInsurance => 14
  }

  /** Strictly in rule-table order (hence without repetition). */
  predicate InTableOrder(r: seq<Action>) {
    forall i, j :: 0 <= i < j < |r| ==> TableIndex(r[i]) < TableIndex(r[j])
  }

  /** The two actions appended when `cond` holds, or none. */
  function When(cond: bool, pair: seq<Action>): seq<Action> {
    if cond then pair else []
  }

  /** `generateAction`: three base actions by score tier, then two actions for each
      of competition, capital and risk that is high, in that order. */
  function GenerateAction(best: Product): (r: seq<Action>)
    ensures |r| == 3 + 2 * Triggered(best)
    ensures |r| in {3, 5, 7, 9}
    ensures r[..3] == BaseActions(ActionTierFor(best.score))
    ensures High(best.competition) ==> r[3] == Differentiate && r[4] == DevelopUsp
    ensures High(best.risk) ==> r[|r| - 2] == PlanRiskMitigation && r[|r| - 1] == ConsiderInsurance
  {
    var base := BaseActions(ActionTierFor(best.score));
    var r := base + When(High(best.competition), [Differentiate, DevelopUsp])
      + When(High(best.capital), [SeekExternalFunding, WriteInvestorProposal])
      + When(High(best.risk), [PlanRiskMitigation, ConsiderInsurance]);
    assert r[..3] == base;
    r
  }

  /** No base action is a conditional one: the base tiers fill the table's first nine rows. */
  lemma BaseBeforeConditional(t: ActionTier)
    ensures forall a :: a in BaseActions(t) ==> TableIndex(a) < 9
  {
  }

  /** The competition pair is recommended exactly when competition is high. */
  lemma CompetitionPairIffHigh(best: Product)
    ensures var r := GenerateAction(best);
      && (Differentiate in r <==> High(best.competition))
      && (DevelopUsp in r <==> High(best.competition))
  {
    BaseBeforeConditional(ActionTierFor(best.score));
  }

  /** The capital pair is recommended exactly when capital is high. */
  lemma CapitalPairIffHigh(best: Product)
    ensures var r := GenerateAction(best);
      && (SeekExternalFunding in r <==> High(best.capital))
      && (WriteInvestorProposal in r <==> High(best.capital))
  {
    BaseBeforeConditional(ActionTierFor(best.score));
  }

  /** The risk pair is recommended exactly when risk is high. */
  lemma RiskPairIffHigh(best: Product)
    ensures var r := GenerateAction(best);
      && (PlanRiskMitigation in r <==> High(best.risk))
      && (ConsiderInsurance in r <==> High(best.risk))
  {
    BaseBeforeConditional(ActionTierFor(best.score));
  }

  /** Each conditional action is recommended exactly when its criterion is high. */
  lemma ConditionalActionsIffHigh(best: Product)
    ensures var r := GenerateAction(best);
      && (Differentiate in r <==> High(best.competition))
      && (DevelopUsp in r <==> High(best.competition))
      && (SeekExternalFunding in r <==> High(best.capital))
      && (WriteInvestorProposal in r <==> High(best.capital))
      && (PlanRiskMitigation in r <==> High(best.risk))
      && (ConsiderInsurance in r <==> High(best.risk))
  {
    CompetitionPairIffHigh(best);
    CapitalPairIffHigh(best);
    RiskPairIffHigh(best);
  }

  /** Every action of `a` comes before table position `m`. */
  predicate Below(a: seq<Action>, m: nat) {
    forall i :: 0 <= i < |a| ==> TableIndex(a[i]) < m
  }

  lemma OrderedConcat(a: seq<Action>, b: seq<Action>, m: nat)
    requires InTableOrder(a) && InTableOrder(b) && Below(a, m)
    requires forall i :: 0 <= i < |b| ==> TableIndex(b[i]) >= m
    ensures InTableOrder(a + b)
  {
    var ab := a + b;
    forall i, j | 0 <= i < j < |ab| ensures TableIndex(ab[i]) < TableIndex(ab[j]) {
      if j < |a| {
        assert ab[i] == a[i] && ab[j] == a[j];
      } else if i >= |a| {
        assert ab[i] == b[i - |a|] && ab[j] == b[j - |a|];
      } else {
        assert ab[i] == a[i] && ab[j] == b[j - |a|];
      }
    }
  }

  lemma BaseActionsOrdered(t: ActionTier)
    ensures InTableOrder(BaseActions(t)) && Below(BaseActions(t), 9)
  {
    match t
    case Execute =>
    case Validate =>
    case Rethink =>
  }

  /** Appending one conditional pair to a list that precedes it in the table
      keeps the list in table order. */
  lemma AppendPairOrdered(a: seq<Action>, cond: bool, x: Action, y: Action)
    requires InTableOrder(a) && Below(a, TableIndex(x))
    requires TableIndex(y) == TableIndex(x) + 1
    ensures InTableOrder(a + When(cond, [x, y]))
    ensures Below(a + When(cond, [x, y]), TableIndex(y) + 1)
  {
    var p := When(cond, [x, y]);
    OrderedConcat(a, p, TableIndex(x));
    var ap := a + p;
    forall i | 0 <= i < |ap| ensures TableIndex(ap[i]) < TableIndex(y) + 1 {
      if i < |a| { assert ap[i] == a[i]; } else { assert ap[i] == p[i - |a|]; }
    }
  }

  /** The list follows the rule table's order. */
  lemma ActionsOrdered(best: Product)
    ensures InTableOrder(GenerateAction(best))
  {
    var base := BaseActions(ActionTierFor(best.score));
    var bc := base + When(High(best.competition), [Differentiate, DevelopUsp]);
    var bck := bc + When(High(best.capital), [SeekExternalFunding, WriteInvestorProposal]);
    var r := bck + When(High(best.risk), [PlanRiskMitigation, ConsiderInsurance]);
    assert InTableOrder(bc) && Below(bc, 11) by {
      BaseActionsOrdered(ActionTierFor(best.score));
      AppendPairOrdered(base, High(best.competition), Differentiate, DevelopUsp);
    }
    assert InTableOrder(bck) && Below(bck, 13) by {
      AppendPairOrdered(bc, High(best.capital), SeekExternalFunding, WriteInvestorProposal);
    }
    assert InTableOrder(r) by {
      AppendPairOrdered(bck, High(best.risk), PlanRiskMitigation, ConsiderInsurance);
    }
    assert r == GenerateAction(best);
  }

  /** The list follows the rule table's order, so no action is recommended twice. */
  lemma ActionsInTableOrder(best: Product)
    ensures InTableOrder(GenerateAction(best))
    ensures var r := GenerateAction(best);
      forall i, j :: 0 <= i < j < |r| ==> r[i] != r[j]
  {
    ActionsOrdered(best);
    var r := GenerateAction(best);
    forall i, j | 0 <= i < j < |r| ensures r[i] != r[j] {
      assert TableIndex(r[i]) < TableIndex(r[j]);
    }
  }
}
