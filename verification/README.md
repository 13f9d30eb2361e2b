# Product Idea Selector — decision core in Dafny

The Product Idea Selector is a browser tool for ranking candidate product ideas.
Each idea scores 1..100 on six criteria: demand, competition, profit, capital,
production time and risk. A simple additive weighting (SAW) score in [0, 1]
ranks the ideas. The score uses six percentage weights that must total exactly
100. Around the score sit:

- a dashboard (best product, average, high/medium/low distribution);
- fixed rule tables that turn the best product into a status, four remarks and a
  list of recommended actions;
- a sensitivity analysis under four fixed weight scenarios;
- four weight templates, a stored "current template" with defaults, and an
  auto-weight heuristic;
- a top-5 comparison chart whose kind cycles bar → radar → pie.

This project models that decision logic of `js/app.js` apart from the page and
the browser storage. Criteria and weights are exact `real`s. A form field after
`parseFloat` is `Input = Num(v) | NaN`. A `confirm` answer is a boolean
parameter. Every handler is a pure function from the catalog (a
`seq<Product>`) and the form to the new catalog plus what the page would show.

Modules, one per part of the program:

| file | module | what it holds |
|---|---|---|
| `catalog.dfy` | `Catalog` | product record, criteria, `trim`, the add-product form, deletion |
| `scoring.dfy` | `Scoring` | weight form and 100-total gate, normalisation, weighted sum, clamp, `calculateScore` |
| `ranking.dfy` | `Ranking` | a generic stable descending sort by a real key, and top-n selection |
| `dashboard.dfy` | `Dashboard` | `updateDashboard`'s statistics and the export's recommendation label |
| `rules.dfy` | `Rules` | the insight and action rule tables |
| `sensitivity.dfy` | `Sensitivity` | the four scenarios and the top-3 scenario ranking |
| `presets.dfy` | `Presets` | built-in templates, stored-template loading, auto-weight |
| `chart.dfy` | `Chart` | the chart-kind toggle and the top-5 chart series |
| `app.dfy` | `App` | the "Analyze" button, which ties scoring, ranking, rules, chart and dashboard together |

The page sorts with `(a, b) => b.score - a.score` on the engine's built-in sort,
which is stable. `Ranking.Rank` is a stable insertion sort. It is proved sorted,
a permutation of its input, and order-preserving on equal keys. Together these
three properties determine the result uniquely, so the model's ranking is the
page's ranking.

## Model

| member | source | states |
|---|---|---|
| `Catalog.Trim` | js/app.js:588 | the trimmed name is a slice of the typed name; everything cut off on either side is whitespace; a non-empty result neither starts nor ends with whitespace |
| `Catalog.TextStart` | js/app.js:588 | the first non-whitespace position at or after a start: everything skipped is whitespace, and the position reached is the end or a non-whitespace character |
| `Catalog.TextEnd` | js/app.js:588 | the end of the text before a bound: everything cut off is whitespace, and the last character kept, if any, is not |
| `Catalog.TrimEmptyIffBlank` | js/app.js:588-601 | a name is refused as empty exactly when every character of it is whitespace |
| `Catalog.TrimIdempotent` | js/app.js:588 | trimming an already trimmed name changes nothing |
| `Catalog.SubmitProduct` | js/app.js:585-620 | "name required" exactly when the name is blank; "values out of range" exactly when the name is not blank and some value is NaN or outside [1, 100]; on either refusal the catalog is unchanged; otherwise exactly one product is appended at the end, with the trimmed name, the six typed values and score 0, and the earlier products untouched |
| `Catalog.SubmitKeepsCatalogValid` | js/app.js:597-620 | adding never puts an invalid product into a catalog of valid products (non-blank trimmed name, criteria in [1, 100], score in [0, 1]) |
| `Catalog.DeleteProduct` | js/app.js:127-135 | without confirmation nothing changes; with confirmation exactly the element at the index is removed, the ones before it keep their positions, the ones after it move up by one, and the multiset loses just that element |
| `Catalog.DeleteKeepsCatalogValid` | js/app.js:127-129 | deleting keeps a catalog of valid products valid |
| `Scoring.OrZero` | js/app.js:54-62 | a weight field that does not parse counts as 0; a parsed one counts as its value |
| `Scoring.ReadWeights` | js/app.js:54-68 | each criterion's weight is its field's number, or 0 when the field is blank or does not parse |
| `Scoring.WeightsValid` | js/app.js:70-82 | the gate: analysis is allowed exactly when the six weights read off the form total exactly 100 |
| `Scoring.BlankAsZero` | js/app.js:56-63 | a field rewritten as a typed 0 when blank or unparsable reads as the same weight, and a parsed field is left as it is |
| `Scoring.BlankWeightCountsAsZero` | js/app.js:54-82 | writing 0 into every blank or unparsable weight field changes neither the weights read off the form nor the gate's verdict |
| `Scoring.ThirtyEachIsRefused` | js/app.js:70-82 | six weights of 30 do not pass the gate |
| `Scoring.Normalise` | js/app.js:144-150 | a value in [1, 100] normalises into [0, 1]; a benefit criterion normalises to v/100 and a cost criterion to (100 − v)/100 |
| `Scoring.WeightedSum` | js/app.js:153-160 | with criteria in [1, 100] and non-negative weights, the unclamped sum lies between 0 and the weights' total as a fraction |
| `Scoring.TermsBounded` | js/app.js:153-160 | with criteria in [1, 100] and non-negative weights, each criterion contributes between 0 and its weight's fraction |
| `Scoring.Clamp` | js/app.js:163 | the result lies in [0, 1]; it equals the input when the input already does, and is 0 below and 1 above |
| `Scoring.Score` | js/app.js:142-164 | the score always lies in [0, 1], and equals the weighted sum of normalised criteria whenever that sum does |
| `Scoring.TermBounds` | js/app.js:153-160 | with a non-negative weight and a value in range, one criterion contributes between 0 and its weight's fraction |
| `Scoring.ClampIsNoOp` | js/app.js:153-163 | with non-negative weights totalling 100 and criteria in [1, 100], the weighted sum already lies in [0, 1], so the clamp changes nothing |
| `Scoring.NegativeWeightsNeedTheClamp` | js/app.js:70-82 | a weight vector with a negative entry and total 100 passes the gate and drives the weighted sum to 2; the clamp alone brings the score back to 1 |
| `Scoring.ScoreFollowsPolarity` | js/app.js:144-160 | with a non-negative weight, raising a benefit criterion never lowers the score and raising a cost criterion never raises it |
| `Scoring.ScoreAll` | js/app.js:142-165 | same length and order; every product differs from its original only in its score, which is the clamped score under the weights and lies in [0, 1] |
| `Scoring.CalculateScore` | js/app.js:138-167 | scoring runs exactly when the weights read off the form total 100; when refused, no product changes; when it runs, every product is rescored under those weights |
| `Scoring.CalculateScoreKeepsCatalogValid` | js/app.js:138-167 | scoring keeps a catalog of valid products valid |
| `Ranking.Insert` | js/app.js:181 | inserting into a sorted list gives a sorted list one longer, with the same multiset plus the new element |
| `Ranking.InsertTies` | js/app.js:181 | insertion places the new element last among the elements with its key, and leaves every other key's elements in their order |
| `Ranking.Rank` | js/app.js:181 | the ranking is non-increasing in the key, as long as the input, and a permutation of it |
| `Ranking.RankIsStable` | js/app.js:181 | for every key value, the elements with that key keep their input order in the ranking |
| `Ranking.RankHeadIsMaximum` | js/app.js:181-182 | the head of a non-empty ranking is an input element with the greatest key |
| `Ranking.RankHeadIsEarliestMaximum` | js/app.js:181-182 | among the elements with the greatest key, the head is the one that comes first in the input |
| `Ranking.FirstWithKey` | js/app.js:181-182 | the index found holds the key, and no earlier index does |
| `Ranking.Top` | js/app.js:222 | the first min(n, length) entries of the ranking; each ranks at least as high as every entry left out; no element is invented |
| `Ranking.TopBeatsTheRest` | js/app.js:222 | every element kept in the top n ranks at least as high as any input element left out |
| `Dashboard.Count` | js/app.js:463-465 | a filter count never exceeds the catalog's length |
| `Dashboard.BucketsPartition` | js/app.js:463-465 | the high, medium and low counts add up to the catalog's length |
| `Dashboard.SumScores` | js/app.js:458 | the total of the scores; its range is stated by `Dashboard.SumScoresBounds` |
| `Dashboard.SumScoresBounds` | js/app.js:458 | when every score lies in [lo, hi], the total lies in [n·lo, n·hi] |
| `Dashboard.Mean` | js/app.js:459 | the average times the count gives back the total |
| `Dashboard.UpdateDashboard` | js/app.js:443-468 | the "-" sentinel exactly for an empty catalog; otherwise the best product is in the catalog with the greatest score, the average is the mean of the scores, and the high, medium and low counts are the numbers of products scoring ≥ 0.7, in [0.5, 0.7) and < 0.5, which add up to n |
| `Dashboard.HeadHasTopScore` | js/app.js:453 | the ranking's head is a catalog product whose score no other product exceeds |
| `Dashboard.AverageInUnitRange` | js/app.js:457-459 | when every score lies in [0, 1], so does the average |
| `Dashboard.MeanBounds` | js/app.js:459 | an average of values in [lo, hi] lies in [lo, hi] |
| `Dashboard.BestIsEarliestTopScorer` | js/app.js:453 | the dashboard's best product is the earliest-added among those with the highest score |
| `Dashboard.RecommendationFor` | js/app.js:488-489 | "recommended" exactly at ≥ 0.7, "consider" exactly in [0.5, 0.7), "re-evaluate" exactly below 0.5 |
| `Dashboard.LabelsMatchBuckets` | js/app.js:463-465 | the export labels classify products exactly as the dashboard's high, medium and low buckets do |
| `Rules.StatusFor` | js/app.js:335-343 | each of the four status tiers is chosen exactly on its band: ≥ 0.8, [0.6, 0.8), [0.4, 0.6), < 0.4 |
| `Rules.StatusIsMonotone` | js/app.js:335-343 | a higher score never earns a worse status |
| `Rules.DemandGrade` | js/app.js:348-354 | demand is favourable exactly at ≥ 80, middling exactly in [60, 80), unfavourable exactly below 60 |
| `Rules.CostGrade` | js/app.js:356-378 | competition, capital and risk are favourable exactly at ≤ 30, middling exactly in (30, 60], unfavourable exactly above 60 |
| `Rules.GenerateInsight` | js/app.js:329-378 | the status follows the score; there are exactly four remarks, on demand, competition, capital and risk in that order, each graded on its own bands |
| `Rules.GradesFollowPolarity` | js/app.js:348-378 | more demand never grades worse; more competition, capital or risk never grades better |
| `Rules.ActionTierFollowsStatus` | js/app.js:401-413 | the three base-action tiers are the four status tiers with the bottom two merged |
| `Rules.ActionTierFor` | js/app.js:401-413 | each of the three base-action tiers is chosen exactly on its band: ≥ 0.8, [0.6, 0.8), < 0.6 |
| `Rules.BaseActions` | js/app.js:401-413 | each tier has exactly three base actions, its own three rows of the rule table in table order |
| `Rules.Triggered` | js/app.js:416-429 | at most three conditions trigger |
| `Rules.GenerateAction` | js/app.js:395-429 | the list has 3 + 2k actions for k triggered conditions (so 3, 5, 7 or 9); the first three are the base actions of the score tier; the competition pair comes right after them, and the risk pair comes last |
| `Rules.ConditionalActionsIffHigh` | js/app.js:416-429 | each conditional action appears exactly when its criterion is at least 70 |
| `Rules.ActionsInTableOrder` | js/app.js:395-429 | the list follows the rule table's order, so no action appears twice |
| `Sensitivity.ScenarioWeights` | js/app.js:272-277 | each of the four scenario vectors totals 100 and has no negative weight |
| `Sensitivity.ScenarioCopies` | js/app.js:283-299 | the copy has one entry per product, in order, each carrying the product unchanged and its unclamped weighted sum under the scenario |
| `Sensitivity.RunSensitivityAnalysis` | js/app.js:271-303 | the result is the first min(3, n) entries of the copies ranked by scenario score; every entry carries a catalog product unchanged, canonical score included, and its unclamped scenario sum |
| `Sensitivity.ScenarioScoresNeedNoClamp` | js/app.js:292-298 | on a catalog of valid products, each unclamped scenario score equals the clamped score under the same weights and lies in [0, 1] |
| `Sensitivity.WeightedSumIgnoresScore` | js/app.js:292-298 | two products that differ at most in their score get the same weighted sum |
| `Sensitivity.ScenarioIgnoresCanonicalScores` | js/app.js:283-299 | catalogs that differ only in their scores get the same scenario scores |
| `Sensitivity.OnScenarioClick` | js/app.js:686-695 | an empty catalog only raises a notice; otherwise the entries shown are exactly the scenario's top-three analysis, one to three of them |
| `Presets.FormOf` | js/app.js:712-717 | the form filled from a weight vector reads back as that vector, and passes the gate exactly when the vector totals 100 |
| `Presets.TemplateWeights` | js/app.js:703-708 | each of the four built-in templates totals 100 and has no negative weight |
| `Presets.ApplyTemplate` | js/app.js:698-720 | choosing a template fills the form with that template's weights, which the gate accepts |
| `Presets.DefaultWeightsAreValid` | js/app.js:566-571 | the defaults 25/20/25/10/10/10 total 100 |
| `Presets.BalancedScenarioIsTheDefault` | js/app.js:275 | the balanced scenario's weights are the template defaults |
| `Presets.OrDefault` | js/app.js:566-571 | `x \|\| d`: a missing field and a stored 0 both give the default; any other stored number is kept |
| `Presets.LoadTemplateAsWritten` | js/app.js:562-581 | with nothing stored, the form is untouched; otherwise every field gets its stored value, or its default when the stored value is missing or 0 |
| `Presets.StoredZeroWeightIsReplaced` | js/app.js:566-571 | a stored template 0/40/30/10/10/10 passes the gate, yet loads as a vector totalling 125 that the gate refuses |
| `Presets.PresentOrDefault` | js/app.js:566-571 | a missing field gives the default; any stored number, 0 included, is kept |
| `Presets.LoadTemplate` | js/app.js:562-581 | with nothing stored, the form is untouched; otherwise every present field is kept and only missing ones get their default |
| `Presets.LoadTemplateKeepsStoredVector` | js/app.js:562-581 | a complete stored template loads verbatim, so the gate judges exactly what was stored; a template with no fields loads the defaults, which the gate accepts |
| `Presets.SumOfBounds` | js/app.js:520-527 | a column sum over n valid products lies in [n, 100·n] |
| `Presets.MeanOf` | js/app.js:520-527 | each per-criterion average of valid products lies in [1, 100] |
| `Presets.Round` | js/app.js:544 | `Math.round` lands within one half of its argument, halves going up |
| `Presets.Appeal` | js/app.js:531-538 | each normalised average lies in [0, 1], and demand's is positive |
| `Presets.SharesAddUp` | js/app.js:541-545 | the unrounded shares of a positive total add up to exactly 100 |
| `Presets.Share` | js/app.js:544 | each rounded share lies in [0, 100] |
| `Presets.AppealTotal` | js/app.js:531-541 | the divisor of the shares, the six normalised means together, is positive and at most 6 |
| `Presets.ShareOf` | js/app.js:540-546 | one criterion's weight is a whole number in [0, 100] within one half of its normalised mean's exact percentage of the six means' total |
| `Presets.AutoWeight` | js/app.js:512-559 | nothing but a notice on an empty catalog; otherwise each criterion's weight is its normalised mean's percentage of the six means' total, rounded to a whole number within one half; every share lies in [0, 100], and the total lies in (97, 103], which need not be 100 |
| `Presets.AutoWeightCanMissHundred` | js/app.js:541-557 | one product with every criterion at 50 gets six shares of 17, a total of 102, which the gate refuses |
| `Chart.KindIndex` | js/app.js:677-678 | every chart kind has its place in the cycle bar, radar, pie |
| `Chart.ToggleChart` | js/app.js:676-683 | a click moves one step along the cycle; the button then offers a third kind, different from both the old and the new one |
| `Chart.LabelOffersTheNextKind` | js/app.js:679-682 | the kind the button offers is the one the next click shows |
| `Chart.ThreeClicksComeBack` | js/app.js:677-679 | three clicks show all three kinds and return to the starting kind |
| `Chart.ChartSeries` | js/app.js:206-241 | nothing for an empty catalog; otherwise one label, one score percentage and one demand per product of the top min(5, n), in ranking order |
| `Chart.ChartScoresDescend` | js/app.js:222-230 | the charted scores come out highest first, and none is below the score of a product left off the chart |
| `App.Analyze` | js/app.js:632-650 | a notice exactly for an empty catalog; a refusal, with nothing rescored, exactly when the weights do not total 100; otherwise the catalog is rescored, its ranking is the stable score ranking, the best product is the ranking's head, and the insight, the action list, the chart series and the dashboard are exactly those the generators give for that best product and that catalog (so the best product is also the dashboard's best and the chart's first label) |
| `App.AnalyzedBestIsEarliestTopScorer` | js/app.js:632-645 | a non-empty catalog with weights totalling 100 is analysed, and the best product has the catalog's highest score, lies in [0, 1], and is the earliest-added among equal scores |

## Left out

- DOM rendering, feedback texts, emoji badges and `innerHTML`: presentation only. Each fixed message is a constructor (`Remark`, `Action`, `SubmitFeedback`).
- Browser storage: saving and loading the catalog and reading the stored template. `Presets.LoadTemplate` takes the stored template as an `Option` parameter. Its fields are taken to be numbers or absent, with `NaN` marking an absent field; a stored non-numeric value, which `||` would keep and the gate would read as 0, is not modelled.
- Chart.js construction, the canvas message and the chart options: an external library. Only the data series are modelled.
- CSV text, the download link and the date-stamped file name: I/O and formatting. Only the recommendation label is modelled.
- `toFixed`, `toLocaleTimeString` and the last-analysis time: formatting and the clock.
- IEEE-754 arithmetic: criteria, weights and scores are exact reals, so `total !== 100` becomes exact equality. `parseFloat` is given: a field is a number or `NaN`. `Infinity` is not modelled; it fails the range check and the weight total anyway.
- A product's score is always a number: every product enters through the form with score 0. A record without a score could only come from storage, so `p.score || 0` is the score itself.
- The reset-all button (js/app.js:653-667): it empties the catalog behind a confirmation and re-renders.
- The template button's feedback text and the stored template's name: presentation.
- `alert` and `confirm` are an outcome constructor and a boolean parameter, respectively.
- Catalog.DeleteProduct: requires the index in range; the page only offers indices of rendered rows, and an out-of-range index would fail on `products[index].name` before the `confirm`.
- Presets.AutoWeight: requires every product's criteria in [1, 100]. Products enter only through the validated form (`Catalog.SubmitKeepsCatalogValid`), and outside that range the share total could be 0 or negative.
- Presets.AutoWeight: states each share to within one half of its exact percentage, not the rounded integer itself. Which integer `Math.round` picks is `Presets.Round`'s contract, and `Presets.AutoWeightCanMissHundred` pins one concrete case.

## Findings

| source | as written | input that shows it | evidently intended | confidence | as-written member | corrected member |
|---|---|---|---|---|---|---|
| js/app.js:566-571 | each stored weight is read as `stored \|\| default`, so a stored weight of 0 is replaced by its default like a missing one | stored template weights 0/40/30/10/10/10 (total 100) load as 25/40/30/10/10/10 (total 125), which the gate refuses | the default fills only a field that is missing, so a stored vector that totals 100 loads unchanged and passes | medium, not executed | `Presets.StoredZeroWeightIsReplaced` (about `Presets.LoadTemplateAsWritten`) | `Presets.LoadTemplate`, with `Presets.LoadTemplateKeepsStoredVector` |
