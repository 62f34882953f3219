# SmartBuild estimation and risk core, in Dafny

This project models the rule-based layer of a construction estimating app (a
React Native / TypeScript project). It covers these parts:

- **Estimation service**: the table-driven fallback estimate, the parsing of
  the model's free-text reply, and the material and workforce lists.
- **Risk analysis service**: per-category risk extraction, scores,
  assessments, mitigation plans and the weather assessment.
- **Estimate comparison tool**: variance, accuracy, and the colour and icon
  bands.
- **Project and authentication stores**: state transitions, filter queries
  and persistence.
- **Timeline chart**: geometry and status styling.
- **Projects screen**: the search filter.

The calls to the language models are not modelled. Their outcome is an input
of each operation:

- `Upstream.Reply`: the call failed, or it returned text.
- `Upstream.Parsed`: the call failed, the text would not parse as JSON, or it
  decoded to a record whose fields may be missing.

Other injected inputs:

- `Date.now()` is a `now: nat` parameter.
- Each `Math.random()` draw is a real in [0, 1).

Regular expressions over the reply are modelled by an exact scanner (module
`Scan`). It is case-insensitive on ASCII, and its search is leftmost-first. A
section ends at the first stop word or at the end of the text. Numbers are
exact reals. `Math.round` is `floor(x + 0.5)` and `Math.ceil` is the real
ceiling.

Modules, one per source component, plus shared helpers:

| module | models |
|---|---|
| `Construction` | domain records |
| `Estimation` | the estimation service |
| `RiskAnalysis` | the risk analysis service |
| `Comparison` | the estimate comparison tool |
| `ProjectStore` | the project store |
| `AuthStore` | the authentication store |
| `TimelineChart` | the timeline chart |
| `ProjectsScreen` | the projects screen |
| `Scan`, `Sections`, `Falsy` | regex matching, list extraction, `||` defaults |
| `Text`, `Seqs`, `Numeric`, `Wrappers` | strings, sequences, `Math`, `Option` |

In these places the code's results are surprising; the model follows the code:

- The derived cost breakdown does not always sum to the total. The four shares
  are rounded separately, so a total of 50 gives parts summing to 51 (see
  `Estimation.BreakdownDrift`).
- "Austin, Texas" mentions Texas, so the fallback estimate for a 2000 sq ft new
  house there is 2000 × 150 × 0.9 = 270000
  (`Estimation.AustinExample`).
- The confidence read from a reply is not clamped to 0–100
  (`Estimation.ConfidenceNotClamped`).
- An explicit "score" in a risk section overrides `round(p × i / 100)`. The
  score is consistent with probability and impact only when none is given
  (`RiskAnalysis.SectionFigures`).

One place departs from the code: the variance is not guarded against a zero AI
figure, which yields Infinity or NaN in the app. The model requires a nonzero
figure instead (see Left out).

## Model

| member | source | states |
|---|---|---|
| Estimation.BaseRate | src/services/aiEstimationService.ts:381-391 | The base rate is one of 120, 150, 180, 200, 250, 300 dollars per sq ft; renovations are below 200. |
| Estimation.TimelineMultiplier | src/services/aiEstimationService.ts:412-422 | Days per thousand sq ft is one of 30, 45, 60, 75, 90. |
| Estimation.FirstTierFirst | src/services/aiEstimationService.ts:395-401 | The result of `FirstTier` is the first tier with a mentioned place: earlier tiers mention none; None means no tier matches. |
| Estimation.LocationMultiplier | src/services/aiEstimationService.ts:393-403 | The multiplier is one of 1.4, 1.2, 0.9 and 1.0. |
| Estimation.LocationTiering | src/services/aiEstimationService.ts:393-403 | 1.4 iff a 1.4 place is mentioned; 1.2 iff no 1.4 place but a 1.2 place is; 0.9 iff only a 0.9 place is; otherwise 1.0. |
| Estimation.LocationCaseInsensitive | src/services/aiEstimationService.ts:394 | Lower-casing the location first does not change the multiplier. |
| Estimation.FirstTierWins | src/services/aiEstimationService.ts:395-400 | "New York, Texas" mentions two tiers and gets the first one's 1.4. |
| Estimation.AustinTexasTier | src/services/aiEstimationService.ts:399-400 | "Austin, Texas" gets 0.9. |
| Estimation.UnlistedLocation | src/services/aiEstimationService.ts:402 | A location naming no listed place ("denver") gets 1.0. |
| Estimation.SizeMultiplier | src/services/aiEstimationService.ts:405-410 | 0.85 iff size > 10000; 0.9 iff 5000 < size ≤ 10000; 1.0 iff 1000 ≤ size ≤ 5000; 1.2 iff size < 1000. |
| Estimation.SizeMultiplierAntitone | src/services/aiEstimationService.ts:405-410 | A larger size never has a larger multiplier; the thresholds are strict (10000 → 0.9, 5000 → 1.0, 1000 → 1.0). |
| Estimation.CostPerSquareFoot | src/services/aiEstimationService.ts:370-374 | The product of rate and multipliers lies between 91.8 and 504 dollars per sq ft. |
| Estimation.FallbackCost | src/services/aiEstimationService.ts:369-375 | For a non-negative size the cost is non-negative and within half a dollar of size × [91.8, 504]. |
| Estimation.CostNotMonotoneInSize | src/services/aiEstimationService.ts:405-408 | Because of the small-project premium, 999 sq ft costs more than 1000 sq ft. |
| Estimation.FallbackTimeline | src/services/aiEstimationService.ts:377-379 | The timeline lies between round(size × 0.03) and round(size × 0.09) days. |
| Estimation.DerivedBreakdown | src/services/aiEstimationService.ts:301-304 | For a non-negative total the parts are non-negative and ordered overhead ≤ equipment ≤ labor ≤ materials ≤ total. |
| Estimation.BreakdownDrift | src/services/aiEstimationService.ts:301-304 | The four rounded parts sum to within 1 of the total. |
| Estimation.BreakdownDriftExamples | src/services/aiEstimationService.ts:301-304 | The drift happens both ways: a total of 50 gives parts summing to 51, a total of 1 gives 0. |
| Estimation.FallbackEstimation | src/services/aiEstimationService.ts:290-325 | The fallback uses the same cost and timeline as the parse path's fallbacks, the derived breakdown, confidence 75, and 4 / 3 / 3 canned lists. |
| Estimation.AustinExample | src/services/aiEstimationService.ts:290-296 | A 2000 sq ft new house in "Austin, Texas" costs 270000 and takes 90 days. |
| Estimation.ExtractAssumptions | src/services/aiEstimationService.ts:226-246 | When the reply has no "assumption" header, the six defaults. Otherwise the first six trimmed items of the section after the leftmost header that are longer than 10 characters; the defaults only when the section has no such item. |
| Estimation.ExtractRecommendations | src/services/aiEstimationService.ts:248-267 | When the reply has no "recommendation" header, the five defaults. Otherwise the first five trimmed items of the section longer than 10 characters; the defaults only when the section has none. |
| Estimation.ExtractRisks | src/services/aiEstimationService.ts:269-288 | When the reply has no "risk" header, the five defaults. Otherwise the first five trimmed items longer than 10 characters of everything after the header; the defaults only when there is none. |
| Estimation.ExtractRisksRoundTrip | src/services/aiEstimationService.ts:270-278 | A "Risks:" heading over one to five clean lines, each longer than 10, is read back as exactly those lines. |
| Estimation.FigureOr | src/services/aiEstimationService.ts:213-216 | A captured figure holding a digit gives its value with the commas dropped; no figure, or a capture of commas alone (corrected, see Findings), gives the fallback. |
| Estimation.CountOr | src/services/aiEstimationService.ts:218-219 | A captured digit run gives its decimal value; none gives the fallback. |
| Estimation.ParseEstimation | src/services/aiEstimationService.ts:196-224 | The cost is `ParseCost`'s and the breakdown `ParseBreakdown`'s of that cost. The timeline and the confidence are the counts before "day" and "confidence", else the table timeline and 85. The three lists come from their sections. |
| Estimation.ParseCost | src/services/aiEstimationService.ts:198-208 | The leading amount's value when it holds a digit, otherwise the table cost (corrected, see Findings). |
| Estimation.PartOr | src/services/aiEstimationService.ts:203-216 | The figure after the part's label when it holds a digit, otherwise the rounded share of the cost (corrected, see Findings). |
| Estimation.ParseBreakdown | src/services/aiEstimationService.ts:203-216 | Each part is the figure after "material(s)", "labor", "equipment" or "overhead" when present, otherwise 47, 33, 12 or 8 percent of the cost, rounded. |
| Estimation.PartAsWritten | src/services/aiEstimationService.ts:203-216 | As the source computes a part: NaN exactly when the labelled capture is commas alone, or when there is no capture and the cost is NaN; otherwise the figure or the rounded share. |
| Estimation.MaterialsCommaCapture | src/services/aiEstimationService.ts:203-213 | "Materials, 5" makes the source's materials part NaN; the corrected part is the share of the cost. |
| Estimation.CorrectedPartAgrees | src/services/aiEstimationService.ts:203-216 | The corrected part equals the source's wherever the source yields a number. |
| Estimation.DigitFreeReply | src/services/aiEstimationService.ts:198-219 | A reply with no digit or comma gets the table cost, derived breakdown and table timeline, with confidence 85 rather than 75. |
| Estimation.CountedConfidence | src/services/aiEstimationService.ts:200 | In "150% confidence" the confidence pattern captures "150". |
| Estimation.ConfidenceNotClamped | src/services/aiEstimationService.ts:219 | "150% confidence" parses to confidence 150. |
| Estimation.ParseCostAsWritten | src/services/aiEstimationService.ts:198-208 | As the source computes it: NaN exactly when the leading match captured only commas; the table cost when nothing matched. |
| Estimation.CommaBeforeFigure | src/services/aiEstimationService.ts:198-208 | On "Costs, about $5" the source's cost is NaN, while the corrected parse falls back to the table cost. |
| Estimation.CorrectedCostAgrees | src/services/aiEstimationService.ts:208 | The corrected cost equals the source's wherever the source yields a number, and is the table cost exactly where it yields NaN. |
| Estimation.GenerateEstimation | src/services/aiEstimationService.ts:14-30 | A failed call gives the fallback estimate (confidence 75); a reply is parsed; every list is non-empty and capped. |
| Estimation.AnalyzeMarketConditions | src/services/aiEstimationService.ts:32-71 | A decoded reply's multipliers are kept when non-zero and read 1.0 when missing or 0; its insights are kept when present, even empty. A failed call or unparsable reply gives 1.0 / 1.0 with the matching one-line note. |
| Estimation.IndexedId | src/services/aiEstimationService.ts:96 | `material_${index}` starts with its prefix and is longer than it. |
| Estimation.IndexedIdInjective | src/services/aiEstimationService.ts:96 | Ids with the same prefix and different indices differ. |
| Estimation.FallbackMaterial | src/services/aiEstimationService.ts:337-347 | The price is within −10% / +10% of the base price (upper end exclusive), the lead time is 7 to 20 days, and the item is available with no history. |
| Estimation.FallbackMaterials | src/services/aiEstimationService.ts:327-348 | Six materials in table order, each with its indexed id, jittered price and lead time in 7 to 20. |
| Estimation.MaterialFromJson | src/services/aiEstimationService.ts:95-106 | Each truthy field of the parsed item is kept (name, category, unit, base and current price, lead time) and the supplier as given; a missing or falsy one takes its default, the current price defaulting to the base price. |
| Estimation.GenerateMaterialList | src/services/aiEstimationService.ts:73-114 | A failed or unparsable reply gives the six fallback materials; otherwise material k is item k read with its `||` defaults (`MaterialFromJson`); ids are `material_k`. |
| Estimation.MaterialListRoundTrip | src/services/aiEstimationService.ts:95-106 | Materials spelled out as a reply, with no field that `||` would replace, are generated back unchanged. |
| Estimation.MaterialIdsDistinct | src/services/aiEstimationService.ts:95-96 | Material ids are pairwise distinct. |
| Estimation.FallbackWorkforce | src/services/aiEstimationService.ts:350-367 | Four crews for project "temp" with indexed ids, table skills and counts; 8 workers in all. |
| Estimation.WorkforceFromJson | src/services/aiEstimationService.ts:136-144 | Each truthy field of the parsed item is kept (skill, count, duration, rate, availability); a missing or falsy one takes its default: general labour, 1, 30 days, 25 an hour, available. |
| Estimation.GenerateWorkforce | src/services/aiEstimationService.ts:116-152 | A failed or unparsable reply gives the four fallback crews; otherwise crew k is item k read with its `||` defaults (`WorkforceFromJson`); every crew belongs to "temp" and has a nonzero count. |
| Estimation.WorkforceRoundTrip | src/services/aiEstimationService.ts:136-144 | Crews spelled out as a reply, with no figure that `||` would replace, are generated back unchanged. |
| RiskAnalysis.RiskScore | src/services/riskAnalysisService.ts:224 | round(p × i / 100) is non-negative, and for p, i in 0..100 it is at most each of them. |
| RiskAnalysis.FallbackRisksConsistent | src/services/riskAnalysisService.ts:282-325 | The four canned risks each carry the score their probability and impact give. |
| RiskAnalysis.ScoreSumWithin | src/services/riskAnalysisService.ts:187 | When every score lies in [lo, hi], the sum of n scores lies in [n·lo, n·hi]. |
| RiskAnalysis.OverallScore | src/services/riskAnalysisService.ts:186-188 | No risks give 50. |
| RiskAnalysis.OverallWithin | src/services/riskAnalysisService.ts:186-188 | The overall score of a non-empty list lies between its lowest and highest risk score. |
| RiskAnalysis.FallbackOverallScore | src/services/riskAnalysisService.ts:270-272 | The fallback assessment's overall score is 31. |
| RiskAnalysis.RiskTemplate | src/services/riskAnalysisService.ts:328-337 | Template probabilities lie in 25..60 and impacts in 45..90. |
| RiskAnalysis.RiskIdInjective | src/services/riskAnalysisService.ts:235 | Ids `risk_<category>_<now>` with the same timestamp differ for different categories. |
| RiskAnalysis.FallbackRisk | src/services/riskAnalysisService.ts:327-351 | The risk has its category, its id, status identified, the default mitigation, and a consistent score in 0..60. |
| RiskAnalysis.CategorySection | src/services/riskAnalysisService.ts:211-212 | A category has a section iff its name (with `_` as optional spaces) occurs in the reply. |
| RiskAnalysis.Sample | src/services/riskAnalysisService.ts:222-223 | `40 + floor(draw × 40)` lies in 40..79. |
| RiskAnalysis.SampleOnto | src/services/riskAnalysisService.ts:222-223 | Every value in 40..79 is drawn by some draw in [0, 1). |
| RiskAnalysis.LabelledCount | src/services/riskAnalysisService.ts:218-223 | A labelled number gives its value; no label gives the fallback. |
| RiskAnalysis.SubsectionOr | src/services/riskAnalysisService.ts:227-232 | A present subsection gives its trimmed text; an absent one gives the default. |
| RiskAnalysis.SectionFigures | src/services/riskAnalysisService.ts:218-224 | Probability and impact are their labelled figures, or draws in 40..79; the score is the labelled figure if given, otherwise round(p × i / 100); none is negative. |
| RiskAnalysis.SectionTexts | src/services/riskAnalysisService.ts:227-232 | The description and mitigation are their trimmed subsections, or the category defaults. |
| RiskAnalysis.SectionRisk | src/services/riskAnalysisService.ts:234-243 | The risk read from a section has its category, `risk_<category>_<now>` id, status identified, and the section's figures and texts. |
| RiskAnalysis.CategoryRisk | src/services/riskAnalysisService.ts:211-244 | A category yields a risk iff it has a section, and that risk is the one read from the section. |
| RiskAnalysis.RisksFrom | src/services/riskAnalysisService.ts:209-245 | The risks found from a category onwards are in category order, at most one per category, each the one its category yields. |
| RiskAnalysis.RisksFromComplete | src/services/riskAnalysisService.ts:209-245 | Every category at or after the start that yields a risk is represented. |
| RiskAnalysis.CollectRisks | src/services/riskAnalysisService.ts:207-252 | 1 to 8 risks in category order. The result is the canned list iff no category yields a risk; otherwise each entry is what its category yields. |
| RiskAnalysis.CollectComplete | src/services/riskAnalysisService.ts:209-245 | Every category that yields a risk appears in the result. |
| RiskAnalysis.ReadCategory | src/services/riskAnalysisService.ts:209-244 | Each category is read from the reply with its own draw; every risk read belongs to its category and is identified. |
| RiskAnalysis.ExtractCategoryRisks | src/services/riskAnalysisService.ts:201-253 | 1 to 8 risks in category order. |
| RiskAnalysis.FallbackIffUnmentioned | src/services/riskAnalysisService.ts:247-250 | The canned risks are returned iff no category name occurs in the reply. |
| RiskAnalysis.ExtractedFromSections | src/services/riskAnalysisService.ts:209-252 | Unless the canned list is returned, each risk is exactly the one read from its category's section. |
| RiskAnalysis.ExtractedComplete | src/services/riskAnalysisService.ts:209-245 | Every category whose name occurs in the reply is among the extracted risks. |
| RiskAnalysis.ExtractedIdsDistinct | src/services/riskAnalysisService.ts:235 | The risks extracted from any reply, the fallback catalogue included, have pairwise distinct ids. |
| RiskAnalysis.ExtractRecommendations | src/services/riskAnalysisService.ts:255-268 | When the reply has no "recommendation" header, the six defaults. Otherwise the first six trimmed items of the section longer than 15 characters; the defaults only when the section has none. |
| RiskAnalysis.ParseRiskAssessment | src/services/riskAnalysisService.ts:181-199 | The assessment is for the project, holds the extracted (non-empty) risks, their rounded mean score and the extracted recommendations. |
| RiskAnalysis.FallbackAssessment | src/services/riskAnalysisService.ts:270-280 | The canned risks, overall score 31, the canned recommendations. |
| RiskAnalysis.GenerateRiskAssessment | src/services/riskAnalysisService.ts:14-30 | A failed call gives the fallback assessment, a reply is parsed; either way the risks are non-empty, the overall score is their mean and there are 1 to 6 recommendations. |
| RiskAnalysis.AnalyzeSpecificRisk | src/services/riskAnalysisService.ts:32-72 | A failed call or unparsable reply gives the template risk. Otherwise each truthy field of the reply is kept; a missing or zero probability or impact reads 50, a missing or empty text its default, a missing status "identified"; the score is computed from the values used. |
| RiskAnalysis.AnalyzeSpecificRiskRoundTrip | src/services/riskAnalysisService.ts:52-64 | A reply spelling out a risk with non-zero figures, non-empty texts, the moment's id and a consistent score is read back as that risk. |
| RiskAnalysis.MitigationPlan | src/services/riskAnalysisService.ts:74-104 | A failed call gives the canned six. Otherwise the first eight trimmed items of the whole reply longer than 20 characters; the canned six only when there is none. |
| RiskAnalysis.MitigationPlanRoundTrip | src/services/riskAnalysisService.ts:93-99 | A reply listing one to eight clean lines longer than 20 is read back as exactly those lines. |
| RiskAnalysis.AssessWeatherRisk | src/services/riskAnalysisService.ts:106-139 | A failed or unparsable reply gives the canned medium assessment. Otherwise the level and both lists of the reply are kept when present (a list even when empty), with "medium" and the one-line defaults when missing. |
| Comparison.EnteredFigure | src/components/comparison/EstimateComparisonTool.tsx:146 | A parsed number is kept; an unparsable entry becomes 0. |
| Comparison.Variance | src/components/comparison/EstimateComparisonTool.tsx:50-55 | The variance is 0 iff the figures agree; for a positive AI figure it is positive iff the manual figure is higher, and negative iff lower. |
| Comparison.VarianceRoundTrip | src/components/comparison/EstimateComparisonTool.tsx:50 | The manual figure ai × (1 + v/100) has variance exactly v. |
| Comparison.CalculateVariance | src/components/comparison/EstimateComparisonTool.tsx:48-57 | Each of the six fields is the variance of its manual figure against its AI figure. |
| Comparison.MeanAbsVariance | src/components/comparison/EstimateComparisonTool.tsx:61-68 | The mean absolute variance is non-negative. |
| Comparison.AccuracyOf | src/components/comparison/EstimateComparisonTool.tsx:59-71 | Accuracy lies in 0..100 and is 100 iff every variance is 0. |
| Comparison.AccuracyAntitone | src/components/comparison/EstimateComparisonTool.tsx:61-70 | Variances no larger in magnitude never give lower accuracy. |
| Comparison.CalculateAccuracy | src/components/comparison/EstimateComparisonTool.tsx:59-71 | Accuracy lies in 0..100. |
| Comparison.PerfectAccuracyIffMatch | src/components/comparison/EstimateComparisonTool.tsx:59-71 | Accuracy is 100 iff all six manual figures equal the AI figures. |
| Comparison.HandleCompare | src/components/comparison/EstimateComparisonTool.tsx:73-86 | The result holds both estimates, the variances, and an accuracy in 0..100 that is 100 iff they match. |
| Comparison.VarianceCloseness | src/components/comparison/EstimateComparisonTool.tsx:88-99 | Close iff \|v\| < 5, Near iff 5 ≤ \|v\| < 15, Far iff \|v\| ≥ 15. |
| Comparison.VarianceColor | src/components/comparison/EstimateComparisonTool.tsx:88-93 | Green iff the variance is within 5% either way, yellow iff within 15% but not 5%, red iff 15% or more off. |
| Comparison.VarianceIcon | src/components/comparison/EstimateComparisonTool.tsx:95-99 | Checkmark iff the colour is green, warning iff yellow, alert iff red: icon and colour agree. |
| Comparison.RowIconColorAsWritten | src/components/comparison/EstimateComparisonTool.tsx:272 | As written: the row icon's colour tests the signed variance (< 5 green, < 15 amber, else red). |
| Comparison.UnderestimateShownGreen | src/components/comparison/EstimateComparisonTool.tsx:270-274 | At −20% the row shows the alert icon and red text, but the icon is coloured green. |
| Comparison.RowIconColor | src/components/comparison/EstimateComparisonTool.tsx:272 | Corrected: the icon colour is the colour of the variance's closeness band. |
| Comparison.RowIconColorSymmetric | src/components/comparison/EstimateComparisonTool.tsx:272 | The corrected colour is the same for v and −v. |
| Comparison.RowIconColorAgreesAbove | src/components/comparison/EstimateComparisonTool.tsx:272 | The as-written and corrected colours agree iff v > −5. |
| Comparison.SignPrefix | src/components/comparison/EstimateComparisonTool.tsx:275 | "+" iff the variance is positive, otherwise nothing. |
| Comparison.AccuracyBadge | src/components/comparison/EstimateComparisonTool.tsx:241-248 | Good iff accuracy > 80, Fair iff 60 < a ≤ 80, Poor iff a ≤ 60. |
| Comparison.InsightOf | src/components/comparison/EstimateComparisonTool.tsx:295-298 | Excellent iff > 90, Good iff 80 < a ≤ 90, Moderate iff 60 < a ≤ 80, Significant iff a ≤ 60. |
| Comparison.InsightRefinesBadge | src/components/comparison/EstimateComparisonTool.tsx:241-298 | The insight tiers refine the badge tiers: Excellent or Good insight iff Good badge, Moderate iff Fair, Significant iff Poor. |
| Comparison.AllCloseIsExcellent | src/components/comparison/EstimateComparisonTool.tsx:59-71 | When every variance is within 5%, accuracy exceeds 95 and the insight is Excellent. |
| ProjectStore.MergeProject | src/state/projectStore.ts:67 | The merged project has the new updatedAt. Every other field the update carries replaces the old value, and every field it lacks keeps it; an empty update changes nothing else. |
| ProjectStore.MergeFullPatch | src/state/projectStore.ts:67 | An update carrying every field of another project turns the project into that one, stamped now. |
| ProjectStore.MergeProjectIdempotent | src/state/projectStore.ts:67 | Applying the same update twice at the same moment equals applying it once. |
| ProjectStore.MergeEstimate | src/state/projectStore.ts:111 | Every field the update carries replaces the old value, and every field it lacks keeps it; no timestamp is touched. |
| ProjectStore.MergeEstimateEmpty | src/state/projectStore.ts:111 | An empty update leaves the estimate unchanged (no timestamp is touched). |
| ProjectStore.MergeAssessment | src/state/projectStore.ts:140 | The merged assessment has the new updatedAt. Every other field the update carries replaces the old value, and every field it lacks keeps it. |
| ProjectStore.CreateProject | src/state/projectStore.ts:47-61 | Appends one project carrying all twelve of the draft's fields, the id `now` in decimal and both timestamps `now`; nothing else changes; the id is then present. |
| ProjectStore.UpdateProject | src/state/projectStore.ts:63-74 | Exactly the projects with the id are merged (each field the update carries takes effect, the stamp is now), positions kept; the current project is merged iff it has the id; other collections unchanged. |
| ProjectStore.DeleteProject | src/state/projectStore.ts:76-83 | Removes exactly the project with the id and the estimates and assessments that point to it. Everything else stays in order, with every copy of an equal record kept. Clears the current project iff it is that one. |
| ProjectStore.SetCurrentProject | src/state/projectStore.ts:85-87 | Only the current project changes. |
| ProjectStore.ProjectsByUser | src/state/projectStore.ts:89-91 | Exactly the user's projects, in store order, each as many times as the store holds it. |
| ProjectStore.ProjectsByUserDetermined | src/state/projectStore.ts:89-91 | Order and multiplicity pin the list down: any subsequence of the store holding each of the user's projects as often as the store does, and nothing else, is the user's list. |
| ProjectStore.CreateThenListOwned | src/state/projectStore.ts:56-58 | After a create, the owner's list is the old list plus the new project at the end; other users' lists are unchanged. |
| ProjectStore.AddEstimate | src/state/projectStore.ts:93-106 | Appends one estimate carrying every field of the draft (project, the four cost lists, total, timeline, confidence, author, method) with the `now` id and creation time; nothing else changes. |
| ProjectStore.AddEstimateThenList | src/state/projectStore.ts:93-118 | After an add, a project's estimate list is the old list plus the new estimate at the end iff the draft is for that project. |
| ProjectStore.UpdateEstimate | src/state/projectStore.ts:108-114 | Exactly the estimates with the id are merged (each field the update carries takes effect), positions kept; nothing else changes. |
| ProjectStore.EstimatesByProject | src/state/projectStore.ts:116-118 | Exactly the project's estimates, in store order, each as many times as the store holds it. |
| ProjectStore.AddRiskAssessment | src/state/projectStore.ts:120-134 | Appends one assessment with the draft's contents, the `now` id and timestamps; nothing else changes. |
| ProjectStore.UpdateRiskAssessment | src/state/projectStore.ts:136-144 | Exactly the assessments with the id are merged (each field the update carries takes effect) with a new updatedAt, positions kept. |
| ProjectStore.RiskAssessmentsByProject | src/state/projectStore.ts:146-148 | Exactly the project's assessments, in store order, each as many times as the store holds it. |
| ProjectStore.AddHistoricalProject | src/state/projectStore.ts:150-162 | Appends one historical record carrying every field of the draft (type, size, location, both costs, both durations, completion date, success factors, challenges) with the `now` id; nothing else changes. |
| ProjectStore.AddHistoricalThenByType | src/state/projectStore.ts:150-166 | After an add, the records of a type are the old ones plus the new record at the end iff the draft has that type. |
| ProjectStore.HistoricalProjectsByType | src/state/projectStore.ts:164-166 | Exactly the records whose type string equals the query, in store order, each as many times as the store holds it. |
| ProjectStore.DeleteLeavesNothing | src/state/projectStore.ts:80-81 | After deleting a project, no estimate or assessment of it remains. |
| ProjectStore.DeleteKeepsOthers | src/state/projectStore.ts:80-81 | Deleting one project leaves every other project's estimates and assessments exactly as they were. |
| ProjectStore.DeleteIdempotent | src/state/projectStore.ts:76-83 | Deleting twice equals deleting once. |
| ProjectStore.Partialize | src/state/projectStore.ts:171-176 | The four collections are stored; the current project and loading flag are not. |
| ProjectStore.Rehydrate | src/state/projectStore.ts:39-45 | A restored store has no current project and is not loading. |
| ProjectStore.PersistRoundTrip | src/state/projectStore.ts:168-176 | Storing then restoring loses exactly the current project and the loading flag; restoring then storing is the identity. |
| AuthStore.MockUsersShape | src/state/authStore.ts:17-42 | Three seeded accounts, one per role, with distinct ids. |
| AuthStore.Login | src/state/authStore.ts:51-71 | Succeeds iff some account has the email and role, and then signs in the first such account in directory order, as `find` does; a failure leaves everything but the loading flag as it was. |
| AuthStore.LoginIgnoresPassword | src/state/authStore.ts:51 | The password never affects the outcome. |
| AuthStore.Register | src/state/authStore.ts:73-104 | Refused iff the email is taken; otherwise appends and signs in a new account with id and creation time `now`. |
| AuthStore.RegisterThenLogin | src/state/authStore.ts:80-103 | After registering, signing in with that email and role succeeds, with any password, as the new account. |
| AuthStore.SeededAccounts | src/state/authStore.ts:17-42 | Each seeded account can sign in, and its email cannot be registered again. |
| AuthStore.Logout | src/state/authStore.ts:106-111 | Signs out; the loading flag and the directory stay. |
| AuthStore.MergeUser | src/state/authStore.ts:116 | Every field the update carries replaces the old value, and every field it lacks keeps it. |
| AuthStore.UpdateProfile | src/state/authStore.ts:113-125 | No effect when signed out. Otherwise the user is merged; the first directory entry with the user's id, and only that one, becomes the merged record; a directory without the id is unchanged. |
| AuthStore.Partialize | src/state/authStore.ts:127-134 | Only the user and the signed-in flag are stored. |
| AuthStore.Restart | src/state/authStore.ts:17-49 | A restart restores the stored session over the seeded directory. |
| AuthStore.RegistrationForgottenOnRestart | src/state/authStore.ts:96 | A registered account survives a restart as the session, but the directory forgets it, so the email can register again. |
| TimelineChart.CeilDays | src/components/charts/TimelineChart.tsx:21 | The day count is within one day of the exact span, positive iff the span is, and negative zero only for a span in (−1 day, 0). |
| TimelineChart.Quotient | src/components/charts/TimelineChart.tsx:55 | Finite iff the divisor is nonzero; NaN iff both are zero. |
| TimelineChart.TotalDays | src/components/charts/TimelineChart.tsx:21 | Positive iff the project ends after it starts, and within one day of its length. |
| TimelineChart.Position | src/components/charts/TimelineChart.tsx:53-56 | The offset is always in [0, 100] except NaN, which happens iff both the project and the date's offset are zero days. |
| TimelineChart.PositionAtStart | src/components/charts/TimelineChart.tsx:53-56 | An item starting with the project sits at 0. |
| TimelineChart.PositionAtEnd | src/components/charts/TimelineChart.tsx:53-56 | An item starting at the project's end sits at 100. |
| TimelineChart.PositionMonotone | src/components/charts/TimelineChart.tsx:53-56 | A later start is never further left. |
| TimelineChart.Width | src/components/charts/TimelineChart.tsx:58-61 | The width is at least 2 or +Infinity, except NaN iff both the project and the item have zero days. |
| TimelineChart.WidthProportional | src/components/charts/TimelineChart.tsx:58-61 | Above the 2% floor the width is duration × 100 / total days. |
| TimelineChart.WidthUncapped | src/components/charts/TimelineChart.tsx:58-61 | An item at least twice the project's length is at least 200% wide. |
| TimelineChart.WidthInfiniteWhenProjectEmpty | src/components/charts/TimelineChart.tsx:58-61 | In a zero-length project a positive-length item is infinitely wide. |
| TimelineChart.StatusColor | src/components/charts/TimelineChart.tsx:23-36 | Gray iff the status is neither completed, in progress nor delayed. |
| TimelineChart.StatusIcon | src/components/charts/TimelineChart.tsx:38-51 | The ellipse iff the status is none of the four declared ones. |
| TimelineChart.StatusesDistinguished | src/components/charts/TimelineChart.tsx:23-51 | The four declared statuses get pairwise different colours and icons. |
| TimelineChart.ItemBar | src/components/charts/TimelineChart.tsx:80-112 | The bar sits at the item's start date's position and is as wide as the item's duration, in the status's colour with the status's icon. Half opacity iff pending. The colour is gray iff the status has no colour of its own. The offset is in [0, 100] unless NaN, and a finite width is at least 2. |
| TimelineChart.WholeProjectBar | src/components/charts/TimelineChart.tsx:53-112 | An item spanning a non-empty project exactly starts at offset 0 and is 100% wide. |
| ProjectsScreen.FilteredProjects | src/screens/main/ProjectsScreen.tsx:17-22 | An order-preserving sublist holding a project iff its lowercased name or location contains the lowercased query and the status matches the chip, as many times as the input holds it. |
| ProjectsScreen.VisibleProjects | src/screens/main/ProjectsScreen.tsx:15-22 | Nothing when signed out; otherwise exactly the user's matching projects, in store order, each as many times as the store holds it. |
| ProjectsScreen.EmptyQueryKeepsAll | src/screens/main/ProjectsScreen.tsx:17-22 | An empty query with "All" keeps every project. |
| ProjectsScreen.QueryCaseIgnored | src/screens/main/ProjectsScreen.tsx:18-19 | Lower-casing the query does not change the list. |
| ProjectsScreen.StatusChipNarrows | src/screens/main/ProjectsScreen.tsx:17-22 | A status chip gives the "All" list filtered to that status. |
| ProjectsScreen.TypeIcon | src/screens/main/ProjectsScreen.tsx:32-47 | home iff residential, business iff commercial, construct iff infrastructure, build iff industrial. |
| ProjectsScreen.StatusBadge | src/screens/main/ProjectsScreen.tsx:49-64 | The gray default iff the status is estimation or approved. |
| ProjectsScreen.StatusBadgesDistinct | src/screens/main/ProjectsScreen.tsx:49-64 | Statuses with a case of their own have badges different from every other status. |
| Scan.SectionText | src/services/aiEstimationService.ts:227 | A section is found iff its header occurs; its text is the span that starts after the leftmost header, its optional `s` and the separators after them, and ends at the first stop or the end of the text. |
| Scan.SectionSpanUnique | src/services/aiEstimationService.ts:227 | At most one span fits that description, so the captured text is determined. |
| Scan.LeadingAmount | src/services/aiEstimationService.ts:198 | A captured amount is a non-empty run of digits and commas. |
| Scan.LeadingAmountLeftmost | src/services/aiEstimationService.ts:198 | The amount is what the leftmost position starting an amount captures; None iff no position starts one. |
| Scan.LeadingAmountNone | src/services/aiEstimationService.ts:198 | There is no leading amount iff the reply holds no digit and no comma. |
| Scan.CountedWord | src/services/aiEstimationService.ts:199-200 | A captured count is a non-empty run of digits. |
| Scan.CountedWordLeftmost | src/services/aiEstimationService.ts:199-200 | The count is the leftmost digit run followed by the word; None iff no position matches. |
| Scan.NoCountWithoutDigits | src/services/aiEstimationService.ts:199-200 | A reply with no digit holds no count. |
| Scan.LabelledFigure | src/services/aiEstimationService.ts:203-206 | A captured figure is non-empty, all digits (and commas where allowed). |
| Scan.LabelledFigureLeftmost | src/services/aiEstimationService.ts:203-206 | The figure is what the leftmost matching position captures; None iff no position matches. |
| Scan.NoFigureWithoutDigits | src/services/aiEstimationService.ts:203-206 | A reply with no digit and no comma holds no labelled figure. |
| Scan.RemoveCommasDigits | src/services/aiEstimationService.ts:208 | Removing commas from a digit-and-comma run leaves digits, empty iff the run was all commas. |
| Scan.ParseRunAsWritten | src/services/aiEstimationService.ts:208 | `parseInt` of the comma-free run is NaN iff the run is all commas. |
| Scan.FigureValue | src/services/aiEstimationService.ts:213-216 | A capture gives a value iff it holds a digit; the value is non-negative and equals the source's number. |
| Sections.Items | src/services/aiEstimationService.ts:229-233 | The first `cap` of the long pieces (all of them when there are fewer), in order: each trimmed, separator-free and longer than the minimum. |
| Sections.ItemsOrDefault | src/services/aiEstimationService.ts:228-245 | No section, or a section without a long piece, gives the defaults; otherwise the first `cap` long pieces of the section. |
| Sections.ItemsOfJoinedLines | src/services/aiEstimationService.ts:229-233 | Items inverts joining clean long-enough lines with newlines. |
| Falsy.OrNumber | src/services/aiEstimationService.ts:52-53 | A present nonzero value is kept; a missing or zero one gives the default. |
| Falsy.OrWhole | src/services/aiEstimationService.ts:140-142 | A present nonzero whole number is kept; a missing or zero one gives the default. |
| Falsy.OrText | src/services/aiEstimationService.ts:97-99 | A present non-empty string is kept; a missing or empty one gives the default. |
| Falsy.OrValue | src/services/riskAnalysisService.ts:129-130 | Any present array is kept, even an empty one; a missing one gives the default. |

## Left out

- The prompts, the chat-service calls and `JSON.parse`: modelled by their outcomes (`Upstream.Reply`, `Upstream.Parsed`). The text a model returns is arbitrary input.
- Floating point: all arithmetic is on exact reals or integers. `toFixed`, `toLocaleString` and `toLocaleDateString` formatting is not modelled.
- `Date.now()` and `new Date()`: one `now` per operation. When an operation reads the clock twice (a project's `createdAt` and `updatedAt`), both readings are taken as equal.
- Two creations in the same millisecond get the same id. The model keeps that behaviour and does not assume ids are unique.
- `Math.random()`: each draw is an input in [0, 1). The model does not say how draws are produced.
- The one-second simulated delay in `login`/`register` and the intermediate `isLoading: true` are not modelled, only the state each settles in.
- React rendering, navigation, the text inputs and the progress-bar overlay of the timeline chart are not modelled.
- The status chips' labels and colours (src/screens/main/ProjectsScreen.tsx:24-30) are not modelled; the chip chosen is the `StatusFilter` input.
- Update objects whose fields are present but `undefined` are not modelled: a `Partial<T>` field is either absent or a value.
- The `default` branches of switches over a closed union (`getBaseRateByType`, `getProjectTypeIcon`) and the `|| riskTemplates.technical` lookups cannot be reached by a well-typed value and have no counterpart.
- `getDefaultRiskDescription` and `getDefaultMitigation` are modelled as plain lookups without contracts.
- The weather assessment's `riskLevel` from a reply is kept only when it is one of low, medium or high. Any other string is not representable.
- Comparison.Variance: requires a nonzero AI figure, because the source divides without a guard and yields Infinity or NaN for 0. That case is not modelled.
- Comparison.CalculateVariance: requires every AI figure to be nonzero, for the same reason.
- Comparison.CalculateAccuracy: requires every AI figure to be nonzero. A reply reading "0 days" or "Equipment: 0" does give a zero figure; the app then averages Infinity or NaN variances into a NaN accuracy, which the model does not represent.
- Comparison.HandleCompare: requires every AI figure to be nonzero, for the same reason as `CalculateAccuracy`; the NaN accuracy the app shows for a zero figure is not modelled.
- Estimation.FallbackCost: states bounds and not the formula itself; the formula is stated by `Estimation.CostPerSquareFoot` and the `Estimation.AustinExample` instance.
- Estimation.ParseEstimation: uses the corrected reading of comma-only captures (see Findings); the as-written readings are `Estimation.ParseCostAsWritten` for the cost and `Estimation.PartAsWritten` for each part.
- Estimation.FigureOr: gives the fallback for a capture of commas alone, where the source's `parseInt("")` gives NaN (see Findings).
- Estimation.LocationMultiplier: lower-cases the location on ASCII letters only, where `toLowerCase` also folds other letters, such as the Kelvin sign U+212A to "k"; "NEW YOR\u212A" gets 1.0 in the model and 1.4 in the app. The same holds for `Estimation.LocationTiering` and `Estimation.FirstTierFirst`.
- ProjectsScreen.FilteredProjects: folds case on ASCII letters only, where `toLowerCase` folds every letter; a query "zürich" does not find a project named "ZÜRICH" in the model, but does in the app.
- ProjectsScreen.VisibleProjects: inherits the ASCII-only case folding of `FilteredProjects`.
- Sections.Items: measures an item's length in Unicode scalar values, where `item.length` counts UTF-16 code units; an item with characters outside the Basic Multilingual Plane can pass the length test in the app and fail it in the model.
- RiskAnalysis.AnalyzeSpecificRisk: reads the probability and impact of a reply as whole numbers and its status as one of the four declared statuses. The app keeps any JSON value there (a probability of 0.45 gives a score of 0, an unknown status string is stored as is); those replies are not representable.
- Estimation.WorkforceFromJson: reads a crew's `skillType` and `availability` as one of the declared skill types and availability statuses; the app stores any other string in the reply as given, which is not representable.
- Estimation.MaterialFromJson: reads a material's category as one of the declared categories; the app stores any other string as given, which is not representable. The item's `quantity` is dropped, as in the app.
- ProjectStore.PersistRoundTrip: treats storage as lossless for the persisted collections. The app's JSON storage has no reviver, so after a restart every `Date` comes back as an ISO string and a NaN figure as `null`; the model does not represent that change of type.
- AuthStore.Restart: as for the project store, the restored user's `createdAt` comes back as a string in the app; the model keeps it a date.

## Findings

| source | as written | input that shows it | evidently intended | confidence | as-written member | corrected member |
|---|---|---|---|---|---|---|
| src/services/aiEstimationService.ts:198-208 | The leading-cost pattern `\$?([\d,]+…)` is unanchored and accepts a run of commas alone. `parseInt("")` then makes the estimated cost NaN. | A reply reading "Costs, about $5": the first match is the comma after "Costs". | A capture without a digit counts as no figure, so the cost falls back to the table cost. | not executed | Estimation.ParseCostAsWritten, Estimation.CommaBeforeFigure | Estimation.ParseCost, Estimation.CorrectedCostAgrees |
| src/services/aiEstimationService.ts:203-216 | The four labelled patterns `label[:\s]*\$?([\d,]+)` also accept a run of commas alone, and `parseInt("")` then makes that part NaN. | "Materials, 5": the materials pattern matches at the start and captures the comma after "Materials". | A labelled capture without a digit counts as no figure, so the part is the rounded share of the cost. | not executed | Estimation.PartAsWritten, Estimation.MaterialsCommaCapture | Estimation.PartOr, Estimation.CorrectedPartAgrees |
| src/components/comparison/EstimateComparisonTool.tsx:272 | The row icon's colour tests the signed variance, so any underestimate is green. | A variance of −20%: alert icon and red text, but a green icon. | The colour follows the magnitude, like the icon and the text. | not executed | Comparison.RowIconColorAsWritten, Comparison.UnderestimateShownGreen | Comparison.RowIconColor, Comparison.RowIconColorAgreesAbove |
