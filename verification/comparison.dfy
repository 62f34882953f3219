/** The arithmetic of the estimate comparison tool
    (src/components/comparison/EstimateComparisonTool.tsx): the percentage
    variance of a manual estimate against the AI estimate, field by field, the
    accuracy score derived from it, and the colour, icon and insight tiers the
    screen shows for them. */
module Comparison {
  import opened Wrappers
  import opened Numeric
  import opened Construction
  import opened Falsy

  /** The figures a user types in. `notes` plays no part in the comparison. */
  datatype ManualEstimate = ManualEstimate(
    totalCost: real,
    materials: real,
    labor: real,
    equipment: real,
    overhead: real,
    timeline: real,
    notes: string)

  /** The form's starting state: every figure 0, no notes. */
  const BlankManualEstimate := ManualEstimate(0.0, 0.0, 0.0, 0.0, 0.0, 0.0, "")

  /** `parseFloat(text) || 0` (`parseInt` for the timeline): an entry that
      does not parse (`None`) or parses to 0 is stored as 0. */
  function EnteredFigure(parsed: Option<real>): (r: real)
    ensures parsed.Some? ==> r == parsed.value
    ensures parsed.None? ==> r == 0.0
  {
    OrNumber(parsed, 0.0)
  }

  /** The six signed percentage variances, one per compared field. */
  datatype Variances = Variances(
    totalCost: real,
    materials: real,
    labor: real,
    equipment: real,
    overhead: real,
    timeline: real)

  /** `((manual - ai) / ai) * 100`. */
  function Variance(manual: real, ai: real): (r: real)
    requires ai != 0.0
    ensures r == 0.0 <==> manual == ai
    ensures ai > 0.0 ==> (r > 0.0 <==> manual > ai)
    ensures ai > 0.0 ==> (r < 0.0 <==> manual < ai)
  {
    (manual - ai) / ai * 100.0
  }

  /** A variance reads back as the manual figure that produced it. */
  lemma VarianceRoundTrip(ai: real, v: real)
    requires ai != 0.0
    ensures Variance(ai + ai * v / 100.0, ai) == v
  {
    assert (ai + ai * v / 100.0 - ai) / ai == v / 100.0;
  }

  /** The AI figures the variances divide by are all nonzero. */
  predicate Comparable(ai: EstimationResponse) {
    && ai.estimatedCost != 0
    && ai.costBreakdown.materials != 0
    && ai.costBreakdown.labor != 0
    && ai.costBreakdown.equipment != 0
    && ai.costBreakdown.overhead != 0
    && ai.timeline != 0
  }

  /** `calculateVariance`: each manual figure against its AI counterpart. */
  function CalculateVariance(ai: EstimationResponse, manual: ManualEstimate): (v: Variances)
    requires Comparable(ai)
    ensures v.totalCost == Variance(manual.totalCost, ai.estimatedCost as real)
    ensures v.materials == Variance(manual.materials, ai.costBreakdown.materials as real)
    ensures v.labor == Variance(manual.labor, ai.costBreakdown.labor as real)
    ensures v.equipment == Variance(manual.equipment, ai.costBreakdown.equipment as real)
    ensures v.overhead == Variance(manual.overhead, ai.costBreakdown.overhead as real)
    ensures v.timeline == Variance(manual.timeline, ai.timeline as real)
  {
    Variances(
      Variance(manual.totalCost, ai.estimatedCost as real),
      Variance(manual.materials, ai.costBreakdown.materials as real),
      Variance(manual.labor, ai.costBreakdown.labor as real),
      Variance(manual.equipment, ai.costBreakdown.equipment as real),
      Variance(manual.overhead, ai.costBreakdown.overhead as real),
      Variance(manual.timeline, ai.timeline as real))
  }

  /** The mean absolute variance. */
  function MeanAbsVariance(v: Variances): (r: real)
    ensures r >= 0.0
  {
    (Abs(v.totalCost) + Abs(v.materials) + Abs(v.labor) + Abs(v.equipment) + Abs(v.overhead) + Abs(v.timeline)) / 6.0
  }

  /** Every variance is zero. */
  predicate AllZero(v: Variances) {
    v.totalCost == 0.0 && v.materials == 0.0 && v.labor == 0.0
    && v.equipment == 0.0 && v.overhead == 0.0 && v.timeline == 0.0
  }

  /** `Math.max(0, 100 - avgVariance)`: a score in 0..100 that is 100 exactly
      when no field differs. */
  function AccuracyOf(v: Variances): (r: real)
    ensures 0.0 <= r <= 100.0
    ensures r == 100.0 <==> AllZero(v)
  {
    Max(0.0, 100.0 - Abs(MeanAbsVariance(v)))
  }

  /** Larger variances never score better. */
  lemma AccuracyAntitone(v: Variances, w: Variances)
    requires Abs(v.totalCost) <= Abs(w.totalCost) && Abs(v.materials) <= Abs(w.materials)
    requires Abs(v.labor) <= Abs(w.labor) && Abs(v.equipment) <= Abs(w.equipment)
    requires Abs(v.overhead) <= Abs(w.overhead) && Abs(v.timeline) <= Abs(w.timeline)
    ensures AccuracyOf(w) <= AccuracyOf(v)
  {
    assert MeanAbsVariance(v) <= MeanAbsVariance(w);
  }

  /** `calculateAccuracy`. */
  function CalculateAccuracy(ai: EstimationResponse, manual: ManualEstimate): (r: real)
    requires Comparable(ai)
    ensures 0.0 <= r <= 100.0
  {
    AccuracyOf(CalculateVariance(ai, manual))
  }

  /** The figures of an estimate that a manual estimate is compared against. */
  predicate Matches(ai: EstimationResponse, manual: ManualEstimate) {
    && manual.totalCost == ai.estimatedCost as real
    && manual.materials == ai.costBreakdown.materials as real
    && manual.labor == ai.costBreakdown.labor as real
    && manual.equipment == ai.costBreakdown.equipment as real
    && manual.overhead == ai.costBreakdown.overhead as real
    && manual.timeline == ai.timeline as real
  }

  /** The score is 100 exactly when the manual estimate repeats every AI
      figure. */
  lemma PerfectAccuracyIffMatch(ai: EstimationResponse, manual: ManualEstimate)
    requires Comparable(ai)
    ensures CalculateAccuracy(ai, manual) == 100.0 <==> Matches(ai, manual)
  {
    var v := CalculateVariance(ai, manual);
    assert AllZero(v) <==> Matches(ai, manual);
  }

  /** What `handleCompare` hands to its callback. */
  datatype ComparisonResult = ComparisonResult(
    aiEstimate: EstimationResponse,
    manualEstimate: ManualEstimate,
    variance: Variances,
    accuracy: real)

  /** `handleCompare`: the estimates with their variances and accuracy. */
  function HandleCompare(ai: EstimationResponse, manual: ManualEstimate): (r: ComparisonResult)
    requires Comparable(ai)
    ensures r.aiEstimate == ai && r.manualEstimate == manual
    ensures r.variance == CalculateVariance(ai, manual)
    ensures 0.0 <= r.accuracy <= 100.0
    ensures r.accuracy == 100.0 <==> Matches(ai, manual)
  {
    PerfectAccuracyIffMatch(ai, manual);
    ComparisonResult(ai, manual, CalculateVariance(ai, manual), CalculateAccuracy(ai, manual))
  }

  // ---------------------------------------------------------------------------
  // Presentation tiers

  /** How close one field is: under 5% either way, under 15%, or further. */
  datatype Closeness = Close | Near | Far

  /** The tier `getVarianceColor` and `getVarianceIcon` both use: by the
      absolute variance. */
  function VarianceCloseness(v: real): (r: Closeness)
    ensures r == Close <==> -5.0 < v < 5.0
    ensures r == Near <==> (5.0 <= v < 15.0 || -15.0 < v <= -5.0)
    ensures r == Far <==> (v >= 15.0 || v <= -15.0)
  {
    if Abs(v) < 5.0 then Close else if Abs(v) < 15.0 then Near else Far
  }

  /** `getVarianceColor`: green within 5% either way, yellow within 15%,
      red beyond. */
  function VarianceColor(v: real): (r: string)
    ensures r == "text-green-600" <==> -5.0 < v < 5.0
    ensures r == "text-yellow-600" <==> (5.0 <= v < 15.0 || -15.0 < v <= -5.0)
    ensures r == "text-red-600" <==> (v >= 15.0 || v <= -15.0)
  {
    match VarianceCloseness(v)
    case Close => "text-green-600"
    case Near => "text-yellow-600"
    case Far => "text-red-600"
  }

  /** `getVarianceIcon`: the icon always tells the same story as the colour. */
  function VarianceIcon(v: real): (r: string)
    ensures r == "checkmark-circle" <==> VarianceColor(v) == "text-green-600"
    ensures r == "warning" <==> VarianceColor(v) == "text-yellow-600"
    ensures r == "alert-circle" <==> VarianceColor(v) == "text-red-600"
  {
    match VarianceCloseness(v)
    case Close => "checkmark-circle"
    case Near => "warning"
    case Far => "alert-circle"
  }

  /** The hex colour of each tier, as the rows' icons use them. */
  function ClosenessHex(c: Closeness): string {
    match c
    case Close => "#10b981"
    case Near => "#f59e0b"
    case Far => "#ef4444"
  }

  /** The row icon's colour exactly as written: tiered by the SIGNED variance
      (`item.variance < 5 ? ... : item.variance < 15 ? ...`), unlike the icon
      and the text beside it. */
  function RowIconColorAsWritten(v: real): (r: string)
    ensures v < 5.0 ==> r == ClosenessHex(Close)
    ensures 5.0 <= v < 15.0 ==> r == ClosenessHex(Near)
    ensures v >= 15.0 ==> r == ClosenessHex(Far)
  {
    if v < 5.0 then "#10b981" else if v < 15.0 then "#f59e0b" else "#ef4444"
  }

  /** A manual figure 20% under the AI figure: the row shows a red alert icon
      and red text, but the icon is painted green. */
  lemma UnderestimateShownGreen()
    ensures VarianceIcon(-20.0) == "alert-circle" && VarianceColor(-20.0) == "text-red-600"
    ensures RowIconColorAsWritten(-20.0) == ClosenessHex(Close)
    ensures RowIconColorAsWritten(-20.0) != ClosenessHex(VarianceCloseness(-20.0))
  {
    assert VarianceCloseness(-20.0) == Far;
  }

  /** The row icon's colour tiered like the icon itself, by the absolute
      variance. */
  function RowIconColor(v: real): (r: string)
    ensures r == ClosenessHex(VarianceCloseness(v))
  {
    ClosenessHex(VarianceCloseness(v))
  }

  /** Over- and underestimates of the same size get the same colour. */
  lemma RowIconColorSymmetric(v: real)
    ensures RowIconColor(-v) == RowIconColor(v)
  {
    assert VarianceCloseness(-v) == VarianceCloseness(v);
  }

  /** The colour as written agrees with the intended one exactly for
      variances above -5%. */
  lemma RowIconColorAgreesAbove(v: real)
    ensures RowIconColorAsWritten(v) == RowIconColor(v) <==> v > -5.0
  {
    if v <= -5.0 {
      assert VarianceCloseness(v) != Close;
      assert ClosenessHex(Near) != ClosenessHex(Close) && ClosenessHex(Far) != ClosenessHex(Close);
    }
  }

  /** `item.variance > 0 ? "+" : ""`: the sign shown before a variance. */
  function SignPrefix(v: real): (r: string)
    ensures r == "+" <==> v > 0.0
    ensures r == "" <==> v <= 0.0
  {
    if v > 0.0 then "+" else ""
  }

  /** The accuracy badge: above 80, above 60, or lower. */
  datatype AccuracyTier = Good | Fair | Poor

  function AccuracyBadge(a: real): (r: AccuracyTier)
    ensures r == Good <==> a > 80.0
    ensures r == Fair <==> 60.0 < a <= 80.0
    ensures r == Poor <==> a <= 60.0
  {
    if a > 80.0 then Good else if a > 60.0 then Fair else Poor
  }

  /** The badge's icon, icon colour and text class. */
  function BadgeIcon(t: AccuracyTier): string {
    match t
    case Good => "checkmark-circle"
    case Fair => "warning"
    case Poor => "alert-circle"
  }

  function BadgeColor(t: AccuracyTier): string {
    match t
    case Good => "#10b981"
    case Fair => "#f59e0b"
    case Poor => "#ef4444"
  }

  function BadgeClass(t: AccuracyTier): string {
    match t
    case Good => "text-green-600"
    case Fair => "text-yellow-600"
    case Poor => "text-red-600"
  }

  /** The insight message's four bands. */
  datatype Insight = Excellent | GoodMatch | Moderate | Significant

  function InsightOf(a: real): (r: Insight)
    ensures r == Excellent <==> a > 90.0
    ensures r == GoodMatch <==> 80.0 < a <= 90.0
    ensures r == Moderate <==> 60.0 < a <= 80.0
    ensures r == Significant <==> a <= 60.0
  {
    if a > 90.0 then Excellent else if a > 80.0 then GoodMatch else if a > 60.0 then Moderate else Significant
  }

  function InsightText(i: Insight): string {
    match i
    case Excellent => "Excellent accuracy! The AI estimate closely matches your manual estimate."
    case GoodMatch => "Good accuracy. Minor differences may be due to different assumptions or market data."
    case Moderate => "Moderate accuracy. Consider reviewing the project specifications and market conditions."
    case Significant => "Significant differences detected. Review project details and consider updating AI training data."
  }

  /** The insight refines the badge: its two upper bands are the good badge,
      and the other two match the fair and poor badges. */
  lemma InsightRefinesBadge(a: real)
    ensures InsightOf(a) in {Excellent, GoodMatch} <==> AccuracyBadge(a) == Good
    ensures InsightOf(a) == Moderate <==> AccuracyBadge(a) == Fair
    ensures InsightOf(a) == Significant <==> AccuracyBadge(a) == Poor
  {
  }

  /** When every field is within 5% the score exceeds 95, so the insight is
      "excellent". */
  lemma AllCloseIsExcellent(v: Variances)
    requires VarianceCloseness(v.totalCost) == Close && VarianceCloseness(v.materials) == Close
    requires VarianceCloseness(v.labor) == Close && VarianceCloseness(v.equipment) == Close
    requires VarianceCloseness(v.overhead) == Close && VarianceCloseness(v.timeline) == Close
    ensures AccuracyOf(v) > 95.0
    ensures InsightOf(AccuracyOf(v)) == Excellent
  {
    assert MeanAbsVariance(v) < 5.0;
  }
}
