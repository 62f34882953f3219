/** The rule-based layer of the risk service
    (src/services/riskAnalysisService.ts): risk scores, the fallback risk
    catalogue and per-category templates, the reading of a model reply into a
    risk assessment, the mitigation plan and the weather assessment. The model
    call is an injected `Reply` or `Parsed` value, `Date.now()` an injected
    instant and `Math.random()` injected draws in [0, 1). */
module RiskAnalysis {
  import opened Wrappers
  import opened Numeric
  import opened Text
  import opened Seqs
  import opened Scan
  import opened Sections
  import opened Construction
  import opened Upstream
  import opened Falsy

  // ---------------------------------------------------------------------------
  // Scores

  /** `Math.round(probability * impact / 100)`. For percentages the score is
      itself a percentage, no larger than either factor. */
  function RiskScore(probability: int, impact: int): (r: int)
    ensures 0 <= probability && 0 <= impact ==> 0 <= r
    ensures 0 <= probability <= 100 && 0 <= impact <= 100 ==> r <= probability && r <= impact
  {
    assert 0 <= probability && 0 <= impact ==> 0 <= Round((probability * impact) as real / 100.0) by {
      if 0 <= probability && 0 <= impact {
        ScoreNonNegative(probability, impact);
      }
    }
    assert 0 <= probability <= 100 && 0 <= impact <= 100 ==>
      Round((probability * impact) as real / 100.0) <= probability &&
      Round((probability * impact) as real / 100.0) <= impact by {
      if 0 <= probability <= 100 && 0 <= impact <= 100 {
        ScoreAtMost(probability, impact);
        ScoreAtMost(impact, probability);
      }
    }
    Round((probability * impact) as real / 100.0)
  }

  /** Rounding a product of non-negative factors over 100 stays non-negative. */
  lemma ScoreNonNegative(probability: int, impact: int)
    requires 0 <= probability && 0 <= impact
    ensures 0 <= Round((probability * impact) as real / 100.0)
  {
    assert 0 <= probability * impact;
    RoundMonotone(0.0, (probability * impact) as real / 100.0);
    RoundOfInt(0);
  }

  /** A percentage of `a` rounds to at most `a`. */
  lemma ScoreAtMost(a: int, b: int)
    requires 0 <= a && 0 <= b <= 100
    ensures Round((a * b) as real / 100.0) <= a && Round((b * a) as real / 100.0) <= a
  {
    assert a * b == b * a;
    assert a * b <= a * 100;
    QuotientMonotone((a * b) as real, (a * 100) as real, 100.0);
    RoundMonotone((a * b) as real / 100.0, a as real);
    RoundOfInt(a);
  }

  /** A risk whose stored score is the one its probability and impact give. */
  predicate ScoreConsistent(r: Risk) {
    r.riskScore == RiskScore(r.probability, r.impact)
  }

  // ---------------------------------------------------------------------------
  // The fallback catalogue

  /** `generateFallbackRisks`: four fixed risks with hand-written scores. */
  const FallbackRisks: seq<Risk> := [
    Risk("risk_weather_1", Weather, "Potential weather delays during construction season",
      65, 40, 26, "Schedule critical outdoor work during favorable weather windows", Identified),
    Risk("risk_supply_2", SupplyChain, "Material price volatility and availability issues",
      45, 70, 32, "Secure material contracts early and maintain supplier relationships", Monitoring),
    Risk("risk_workforce_3", Workforce, "Skilled labor shortage in specialized trades",
      55, 60, 33, "Pre-book qualified contractors and maintain backup options", Identified),
    Risk("risk_financial_4", Financial, "Budget overrun due to scope changes",
      40, 85, 34, "Implement strict change order process and maintain contingency fund", Identified)
  ]

  /** The hand-written scores of the catalogue agree with the formula. */
  lemma FallbackRisksConsistent()
    ensures |FallbackRisks| == 4
    ensures forall k :: 0 <= k < 4 ==> ScoreConsistent(FallbackRisks[k])
  {
    assert Round(26.0) == 26 by { RoundOfInt(26); }
    assert Round(31.5) == 32;
    assert Round(33.0) == 33 by { RoundOfInt(33); }
    assert Round(34.0) == 34 by { RoundOfInt(34); }
    assert (65 * 40) as real / 100.0 == 26.0;
    assert (45 * 70) as real / 100.0 == 31.5;
    assert (55 * 60) as real / 100.0 == 33.0;
    assert (40 * 85) as real / 100.0 == 34.0;
  }

  /** The sum of the scores, `risks.reduce((sum, r) => sum + r.riskScore, 0)`. */
  function ScoreSum(risks: seq<Risk>): int
    decreases |risks|
  {
    if risks == [] then 0 else risks[0].riskScore + ScoreSum(risks[1..])
  }

  /** Scores between `lo` and `hi` sum to between `n * lo` and `n * hi`. */
  lemma {:induction false} ScoreSumWithin(risks: seq<Risk>, lo: int, hi: int)
    requires forall k :: 0 <= k < |risks| ==> lo <= risks[k].riskScore <= hi
    ensures |risks| * lo <= ScoreSum(risks) <= |risks| * hi
    decreases |risks|
  {
    if risks != [] {
      var n := |risks| - 1;
      assert forall k :: 0 <= k < n ==> risks[1..][k] == risks[k + 1];
      ScoreSumWithin(risks[1..], lo, hi);
      assert |risks| * lo == n * lo + lo && |risks| * hi == n * hi + hi;
    }
  }

  /** The overall score: the rounded mean of the risk scores, or 50 for an
      empty list. */
  function OverallScore(risks: seq<Risk>): (r: int)
    ensures risks == [] ==> r == 50
  {
    if |risks| > 0 then Round(ScoreSum(risks) as real / |risks| as real) else 50
  }

  /** The mean risk score lies between the smallest and the largest. */
  lemma MeanScoreWithin(risks: seq<Risk>, lo: int, hi: int)
    requires |risks| > 0
    requires forall k :: 0 <= k < |risks| ==> lo <= risks[k].riskScore <= hi
    ensures lo as real <= ScoreSum(risks) as real / |risks| as real <= hi as real
  {
    ScoreSumWithin(risks, lo, hi);
    ProductAsReal(|risks|, lo);
    ProductAsReal(|risks|, hi);
    MeanWithin(ScoreSum(risks) as real, |risks| as real, lo as real, hi as real);
  }

  /** The overall score lies between the smallest and the largest risk score. */
  lemma OverallWithin(risks: seq<Risk>, lo: int, hi: int)
    requires |risks| > 0
    requires forall k :: 0 <= k < |risks| ==> lo <= risks[k].riskScore <= hi
    ensures lo <= OverallScore(risks) <= hi
  {
    MeanScoreWithin(risks, lo, hi);
    var mean := ScoreSum(risks) as real / |risks| as real;
    RoundMonotone(lo as real, mean);
    RoundMonotone(mean, hi as real);
    RoundOfInt(lo);
    RoundOfInt(hi);
  }

  /** Dividing `n * lo <= sum <= n * hi` by a positive `n`. */
  lemma MeanWithin(sum: real, n: real, lo: real, hi: real)
    requires n > 0.0
    requires n * lo <= sum <= n * hi
    ensures lo <= sum / n <= hi
  {
    assert sum / n * n == sum;
  }

  /** The fallback assessment's overall score: (26 + 32 + 33 + 34) / 4 rounds to 31. */
  lemma FallbackOverallScore()
    ensures OverallScore(FallbackRisks) == 31
  {
    assert ScoreSum(FallbackRisks) == 125;
    assert 125.0 / 4.0 == 31.25;
  }

  // ---------------------------------------------------------------------------
  // Per-category templates and defaults

  /** A `riskTemplates` entry. */
  datatype Template = Template(desc: string, prob: int, impact: int)

  function RiskTemplate(c: RiskCategory): (t: Template)
    ensures 25 <= t.prob <= 60 && 45 <= t.impact <= 90
  {
    match c
    case Weather => Template("Weather-related construction delays", 60, 45)
    case SupplyChain => Template("Material supply and pricing issues", 50, 65)
    case Workforce => Template("Labor availability and skill challenges", 55, 60)
    case Regulatory => Template("Permit and regulatory compliance risks", 35, 75)
    case Financial => Template("Budget and financial management risks", 45, 80)
    case Technical => Template("Technical and design complexity risks", 40, 70)
    case Safety => Template("Workplace safety and accident risks", 30, 90)
    case Environmental => Template("Environmental compliance and impact risks", 25, 85)
  }

  /** `getDefaultRiskDescription`. */
  function DefaultDescription(c: RiskCategory): string
  {
    match c
    case Weather => "Seasonal weather conditions may impact construction timeline"
    case SupplyChain => "Material availability and pricing volatility risks"
    case Workforce => "Skilled labor availability and productivity challenges"
    case Regulatory => "Permit approval and regulatory compliance requirements"
    case Financial => "Budget management and cost control challenges"
    case Technical => "Technical complexity and design implementation risks"
    case Safety => "Workplace safety and accident prevention requirements"
    case Environmental => "Environmental compliance and impact management"
  }

  /** `getDefaultMitigation`. */
  function DefaultMitigation(c: RiskCategory): string
  {
    match c
    case Weather => "Monitor weather forecasts and schedule weather-sensitive work appropriately"
    case SupplyChain => "Establish reliable supplier relationships and maintain material inventory buffers"
    case Workforce => "Pre-qualify contractors and maintain backup labor resources"
    case Regulatory => "Submit permits early and maintain regular communication with authorities"
    case Financial => "Implement strict budget controls and maintain adequate contingency reserves"
    case Technical => "Conduct thorough design reviews and maintain technical expertise on team"
    case Safety => "Implement comprehensive safety protocols and regular training programs"
    case Environmental => "Ensure environmental compliance and implement monitoring procedures"
  }

  /** `risk_${category}_${Date.now()}`. */
  function RiskId(c: RiskCategory, now: nat): string {
    "risk_" + CategoryName(c) + "_" + DecimalString(now)
  }

  /** Risks of different categories made at the same instant have different ids. */
  lemma RiskIdInjective(c: RiskCategory, d: RiskCategory, now: nat)
    requires RiskId(c, now) == RiskId(d, now)
    ensures c == d
  {
    var tail := "_" + DecimalString(now);
    assert RiskId(c, now) == "risk_" + CategoryName(c) + tail;
    assert RiskId(d, now) == "risk_" + CategoryName(d) + tail;
    CancelAround("risk_", CategoryName(c), CategoryName(d), tail);
    CategoryNameInjective(c, d);
  }

  /** `generateFallbackRisk`: the category's template, scored by the formula,
      with the category's default mitigation. */
  function FallbackRisk(c: RiskCategory, now: nat): (r: Risk)
    ensures r.category == c && r.id == RiskId(c, now) && r.status == Identified
    ensures ScoreConsistent(r)
    ensures 25 <= r.probability <= 60 && 45 <= r.impact <= 90
    ensures 0 <= r.riskScore <= 60
    ensures r.mitigation == DefaultMitigation(c)
  {
    var t := RiskTemplate(c);
    Risk(RiskId(c, now), c, t.desc, t.prob, t.impact, RiskScore(t.prob, t.impact), DefaultMitigation(c), Identified)
  }

  // ---------------------------------------------------------------------------
  // Reading a reply

  /** The categories in the order `extractRisksFromContent` visits them. */
  const Categories: seq<RiskCategory> :=
    [Weather, SupplyChain, Workforce, Regulatory, Financial, Technical, Safety, Environmental]

  /** The stop patterns of every category section: all eight category names
      (`_` standing for `\s*`, as in `category.replace("_", "\\s*")`). */
  const CategoryPatterns: seq<string> :=
    ["weather", "supply_chain", "workforce", "regulatory", "financial", "technical", "safety", "environmental"]

  /** The position of a category in `Categories`. */
  function CategoryIndex(c: RiskCategory): (i: nat)
    ensures i < |Categories| && Categories[i] == c
  {
    match c
    case Weather => 0
    case SupplyChain => 1
    case Workforce => 2
    case Regulatory => 3
    case Financial => 4
    case Technical => 5
    case Safety => 6
    case Environmental => 7
  }

  /** The text of a category's section: from its leftmost mention, after any
      colons and white space, up to the next mention of any category. */
  function CategorySection(content: string, c: RiskCategory): (r: Option<string>)
    ensures r.None? <==> forall q :: 0 <= q <= |content| ==> !MatchesAt(content, q, CategoryName(c))
  {
    SectionText(content, CategoryName(c), false, CategoryPatterns)
  }

  /** The two `Math.random()` draws a category may consume: probability first,
      then impact. */
  datatype RiskDraw = RiskDraw(probability: real, impact: real)

  predicate ValidDraw(d: RiskDraw) {
    0.0 <= d.probability < 1.0 && 0.0 <= d.impact < 1.0
  }

  /** `40 + Math.floor(draw * 40)`. */
  function Sample(draw: real): (r: int)
    requires 0.0 <= draw < 1.0
    ensures 40 <= r <= 79
  {
    40 + (draw * 40.0).Floor
  }

  /** Every value of 40..79 is drawn for some draw. */
  lemma SampleOnto(n: int)
    requires 40 <= n <= 79
    ensures Sample((n - 40) as real / 40.0) == n
  {
    var d := (n - 40) as real / 40.0;
    assert d * 40.0 == (n - 40) as real;
  }

  /** A count after a label inside a section, or a fallback. */
  function LabelledCount(section: string, key: string, fallback: int): (r: int)
    ensures LabelledFigure(section, key, false, false, false).None? ==> r == fallback
    ensures LabelledFigure(section, key, false, false, false).Some? ==>
      r == DigitsValue(LabelledFigure(section, key, false, false, false).value)
  {
    match LabelledFigure(section, key, false, false, false)
    case None => fallback
    case Some(d) => DigitsValue(d)
  }

  /** A trimmed sub-section of a category section, or a default text. */
  function SubsectionOr(section: string, header: string, stops: seq<string>, fallback: string): (r: string)
    ensures SectionText(section, header, false, stops).None? ==> r == fallback
    ensures SectionText(section, header, false, stops).Some? ==> IsTrimOf(r, SectionText(section, header, false, stops).value)
  {
    match SectionText(section, header, false, stops)
    case None => fallback
    case Some(t) => Trim(t)
  }

  /** The three figures of a section risk. */
  datatype Figures = Figures(probability: int, impact: int, score: int)

  /** The figures read from one category's section:
      - probability: the count after "probability", else 40..79 at random;
      - impact: the count after "impact", else 40..79 at random;
      - score: the count after "score" (optionally "risk score"), kept even
        when it disagrees with the formula; else the formula.
      `(?:risk\s*)?score[:\s]*(\d+)` captures the same digits as the leftmost
      `score[:\s]*(\d+)`: a match that begins at "risk" reaches its "score"
      through letters and spaces, where no other "score" can begin. */
  function SectionFigures(section: string, d: RiskDraw): (f: Figures)
    requires ValidDraw(d)
    ensures var m := LabelledFigure(section, "probability", false, false, false);
      && (m.None? ==> 40 <= f.probability <= 79)
      && (m.Some? ==> f.probability == DigitsValue(m.value))
    ensures var m := LabelledFigure(section, "impact", false, false, false);
      && (m.None? ==> 40 <= f.impact <= 79)
      && (m.Some? ==> f.impact == DigitsValue(m.value))
    ensures var m := LabelledFigure(section, "score", false, false, false);
      && (m.None? ==> f.score == RiskScore(f.probability, f.impact))
      && (m.Some? ==> f.score == DigitsValue(m.value))
    ensures 0 <= f.probability && 0 <= f.impact && 0 <= f.score
  {
    var p := LabelledCount(section, "probability", Sample(d.probability));
    var i := LabelledCount(section, "impact", Sample(d.impact));
    Figures(p, i, LabelledCount(section, "score", RiskScore(p, i)))
  }

  /** The description and the mitigation read from one category's section:
      the trimmed text after "description" up to "probability", "impact" or
      "mitigation", and the trimmed text after "mitigation" up to "status";
      each the category default when its label is missing. */
  function SectionTexts(c: RiskCategory, section: string): (t: (string, string))
    ensures var desc := SectionText(section, "description", false, ["probability", "impact", "mitigation"]);
      && (desc.None? ==> t.0 == DefaultDescription(c))
      && (desc.Some? ==> IsTrimOf(t.0, desc.value))
    ensures var mit := SectionText(section, "mitigation", false, ["status"]);
      && (mit.None? ==> t.1 == DefaultMitigation(c))
      && (mit.Some? ==> IsTrimOf(t.1, mit.value))
  {
    (SubsectionOr(section, "description", ["probability", "impact", "mitigation"], DefaultDescription(c)),
     SubsectionOr(section, "mitigation", ["status"], DefaultMitigation(c)))
  }

  /** The risk read from one category's section: its figures and texts, the
      category's id, status identified. */
  function SectionRisk(c: RiskCategory, section: string, d: RiskDraw, now: nat): (r: Risk)
    requires ValidDraw(d)
    ensures r.category == c && r.id == RiskId(c, now) && r.status == Identified
    ensures var f := SectionFigures(section, d);
      r.probability == f.probability && r.impact == f.impact && r.riskScore == f.score
    ensures (r.description, r.mitigation) == SectionTexts(c, section)
  {
    var f := SectionFigures(section, d);
    var t := SectionTexts(c, section);
    Risk(RiskId(c, now), c, t.0, f.probability, f.impact, f.score, t.1, Identified)
  }

  /** The risk of one category, present exactly when the reply mentions it. */
  function CategoryRisk(content: string, c: RiskCategory, d: RiskDraw, now: nat): (r: Option<Risk>)
    requires ValidDraw(d)
    ensures r.Some? <==> CategorySection(content, c).Some?
    ensures r.Some? ==> r.value == SectionRisk(c, CategorySection(content, c).value, d, now)
  {
    match CategorySection(content, c)
    case None => None
    case Some(section) => Some(SectionRisk(c, section, d, now))
  }

  /** The categories of `risks` appear in strictly increasing category order. */
  predicate InCategoryOrder(risks: seq<Risk>) {
    forall k, l :: 0 <= k < l < |risks| ==> CategoryIndex(risks[k].category) < CategoryIndex(risks[l].category)
  }

  /** Some risk of `risks` has category `c`. */
  predicate HasCategory(risks: seq<Risk>, c: RiskCategory) {
    exists k :: 0 <= k < |risks| && risks[k].category == c
  }

  /** A way of reading each category's risk, if any, off a reply: every risk
      read has the category it was read for and is newly identified. */
  predicate ReadsOwnCategory(read: RiskCategory -> Option<Risk>) {
    forall c :: read(c).Some? ==> read(c).value.category == c && read(c).value.status == Identified
  }

  /** A risk of category `from` in front of risks of later categories keeps
      the category order. */
  lemma PrependInOrder(risk: Risk, rest: seq<Risk>, from: nat)
    requires CategoryIndex(risk.category) == from
    requires forall k :: 0 <= k < |rest| ==> from + 1 <= CategoryIndex(rest[k].category)
    requires InCategoryOrder(rest)
    ensures forall k :: 1 <= k < |[risk] + rest| ==> ([risk] + rest)[k] == rest[k - 1]
    ensures forall k :: 0 <= k < |[risk] + rest| ==> from <= CategoryIndex(([risk] + rest)[k].category)
    ensures InCategoryOrder([risk] + rest)
  {
  }

  /** The `forEach` over the categories from position `from` on: the risks
      `read` finds, in category order. */
  function RisksFrom(read: RiskCategory -> Option<Risk>, from: nat): (r: seq<Risk>)
    requires from <= |Categories|
    requires ReadsOwnCategory(read)
    ensures |r| <= |Categories| - from
    ensures forall k :: 0 <= k < |r| ==> from <= CategoryIndex(r[k].category)
    ensures forall k :: 0 <= k < |r| ==> read(r[k].category) == Some(r[k])
    ensures InCategoryOrder(r)
    decreases |Categories| - from
  {
    if from == |Categories| then []
    else
      var rest := RisksFrom(read, from + 1);
      match read(Categories[from])
      case None => rest
      case Some(risk) =>
        PrependInOrder(risk, rest, from);
        [risk] + rest
  }

  /** Every category `read` finds, from position `from` on, has its risk in
      the list. */
  lemma {:induction false} RisksFromComplete(read: RiskCategory -> Option<Risk>, from: nat, c: RiskCategory)
    requires from <= CategoryIndex(c)
    requires ReadsOwnCategory(read)
    requires read(c).Some?
    ensures HasCategory(RisksFrom(read, from), c)
    decreases |Categories| - from
  {
    if from == CategoryIndex(c) {
      RisksFromHead(read, c);
    } else {
      RisksFromComplete(read, from + 1, c);
      RisksFromTail(read, from, c);
    }
  }

  /** A category `read` finds heads the list that starts at its position. */
  lemma RisksFromHead(read: RiskCategory -> Option<Risk>, c: RiskCategory)
    requires ReadsOwnCategory(read)
    requires read(c).Some?
    ensures HasCategory(RisksFrom(read, CategoryIndex(c)), c)
  {
    assert Categories[CategoryIndex(c)] == c;
    assert RisksFrom(read, CategoryIndex(c))[0].category == c;
  }

  /** What the list from `from + 1` holds, the list from `from` holds. */
  lemma RisksFromTail(read: RiskCategory -> Option<Risk>, from: nat, c: RiskCategory)
    requires from < |Categories|
    requires ReadsOwnCategory(read)
    requires HasCategory(RisksFrom(read, from + 1), c)
    ensures HasCategory(RisksFrom(read, from), c)
  {
    var rest := RisksFrom(read, from + 1);
    var k :| 0 <= k < |rest| && rest[k].category == c;
    var r := RisksFrom(read, from);
    if read(Categories[from]).Some? {
      assert r[k + 1] == rest[k];
    } else {
      assert r == rest;
    }
  }

  /** A list of identified risks is not the catalogue, which holds a
      monitored one. */
  lemma IdentifiedNotFallback(risks: seq<Risk>)
    requires forall k :: 0 <= k < |risks| ==> risks[k].status == Identified
    ensures risks != FallbackRisks
  {
    assert FallbackRisks[1].status == Monitoring;
  }

  /** The fallback catalogue lists its categories in category order. */
  lemma FallbackInCategoryOrder()
    ensures 0 < |FallbackRisks| <= |Categories|
    ensures InCategoryOrder(FallbackRisks)
  {
    assert CategoryIndex(FallbackRisks[0].category) == 0;
    assert CategoryIndex(FallbackRisks[1].category) == 1;
    assert CategoryIndex(FallbackRisks[2].category) == 2;
    assert CategoryIndex(FallbackRisks[3].category) == 4;
  }

  /** An empty walk over the categories means `read` finds nothing at all. */
  lemma NothingFound(read: RiskCategory -> Option<Risk>)
    requires ReadsOwnCategory(read)
    requires RisksFrom(read, 0) == []
    ensures forall c :: read(c).None?
  {
    forall c | read(c).Some?
      ensures false
    {
      RisksFromComplete(read, 0, c);
    }
  }

  /** The risks `read` finds over all categories; the fallback catalogue
      exactly when it finds none. */
  function CollectRisks(read: RiskCategory -> Option<Risk>): (r: seq<Risk>)
    requires ReadsOwnCategory(read)
    ensures 0 < |r| <= |Categories|
    ensures InCategoryOrder(r)
    ensures r == FallbackRisks <==> forall c :: read(c).None?
    ensures r == FallbackRisks || forall k :: 0 <= k < |r| ==> read(r[k].category) == Some(r[k])
  {
    var found := RisksFrom(read, 0);
    if found == [] then
      NothingFound(read);
      FallbackInCategoryOrder();
      FallbackRisks
    else
      assert !forall c :: read(c).None? by {
        assert read(found[0].category).Some?;
      }
      IdentifiedNotFallback(found);
      found
  }

  /** Every category `read` finds has its risk among the collected ones. */
  lemma CollectComplete(read: RiskCategory -> Option<Risk>, c: RiskCategory)
    requires ReadsOwnCategory(read)
    requires read(c).Some?
    ensures HasCategory(CollectRisks(read), c)
  {
    RisksFromComplete(read, 0, c);
  }

  /** How `extractRisksFromContent` reads one category off a reply, each
      category consuming its own draws. */
  function ReadCategory(content: string, draws: seq<RiskDraw>, now: nat): (read: RiskCategory -> Option<Risk>)
    requires |draws| == |Categories|
    requires forall k :: 0 <= k < |draws| ==> ValidDraw(draws[k])
    ensures ReadsOwnCategory(read)
    ensures forall c :: read(c) == CategoryRisk(content, c, draws[CategoryIndex(c)], now)
  {
    c => CategoryRisk(content, c, draws[CategoryIndex(c)], now)
  }

  /** `extractRisksFromContent`: one risk per mentioned category, in category
      order, each read off its section; the fallback catalogue when no
      category is mentioned. */
  function ExtractCategoryRisks(content: string, draws: seq<RiskDraw>, now: nat): (r: seq<Risk>)
    requires |draws| == |Categories|
    requires forall k :: 0 <= k < |draws| ==> ValidDraw(draws[k])
    ensures 0 < |r| <= |Categories|
    ensures InCategoryOrder(r)
  {
    CollectRisks(ReadCategory(content, draws, now))
  }

  /** The fallback catalogue is returned exactly when no category is
      mentioned. */
  lemma FallbackIffUnmentioned(content: string, draws: seq<RiskDraw>, now: nat)
    requires |draws| == |Categories|
    requires forall k :: 0 <= k < |draws| ==> ValidDraw(draws[k])
    ensures ExtractCategoryRisks(content, draws, now) == FallbackRisks <==>
      forall c :: CategorySection(content, c).None?
  {
    var read := ReadCategory(content, draws, now);
    assert CollectRisks(read) == FallbackRisks <==> forall c :: read(c).None?;
    assert forall c :: read(c).None? <==> CategorySection(content, c).None?;
  }

  /** Otherwise each extracted risk is what its own category's section reads
      as. */
  lemma ExtractedFromSections(content: string, draws: seq<RiskDraw>, now: nat)
    requires |draws| == |Categories|
    requires forall k :: 0 <= k < |draws| ==> ValidDraw(draws[k])
    ensures var r := ExtractCategoryRisks(content, draws, now);
      r == FallbackRisks || forall k :: 0 <= k < |r| ==>
        CategoryRisk(content, r[k].category, draws[CategoryIndex(r[k].category)], now) == Some(r[k])
  {
    var read := ReadCategory(content, draws, now);
    var r := CollectRisks(read);
    if r != FallbackRisks {
      forall k | 0 <= k < |r|
        ensures CategoryRisk(content, r[k].category, draws[CategoryIndex(r[k].category)], now) == Some(r[k])
      {
        assert read(r[k].category) == Some(r[k]);
      }
    }
  }

  /** Every category the reply mentions has its risk among the extracted ones. */
  lemma ExtractedComplete(content: string, draws: seq<RiskDraw>, now: nat, c: RiskCategory)
    requires |draws| == |Categories|
    requires forall k :: 0 <= k < |draws| ==> ValidDraw(draws[k])
    requires CategorySection(content, c).Some?
    ensures HasCategory(ExtractCategoryRisks(content, draws, now), c)
  {
    CollectComplete(ReadCategory(content, draws, now), c);
  }

  /** Extracted risks carry pairwise distinct ids, the fallback catalogue's
      included. */
  lemma ExtractedIdsDistinct(content: string, draws: seq<RiskDraw>, now: nat)
    requires |draws| == |Categories|
    requires forall j :: 0 <= j < |draws| ==> ValidDraw(draws[j])
    ensures var r := ExtractCategoryRisks(content, draws, now);
      forall k, l :: 0 <= k < l < |r| ==> r[k].id != r[l].id
  {
    var read := ReadCategory(content, draws, now);
    var r := CollectRisks(read);
    if r == FallbackRisks {
      FallbackIdsDistinct();
    } else {
      forall k | 0 <= k < |r|
        ensures r[k].id == RiskId(r[k].category, now)
      {
        IdOfRead(content, draws, now, r[k]);
      }
      OrderedIdsDistinct(r, now);
    }
  }

  /** Risks in category order, each with its category's id for one instant,
      have pairwise distinct ids. */
  lemma OrderedIdsDistinct(r: seq<Risk>, now: nat)
    requires InCategoryOrder(r)
    requires forall k :: 0 <= k < |r| ==> r[k].id == RiskId(r[k].category, now)
    ensures forall k, l :: 0 <= k < l < |r| ==> r[k].id != r[l].id
  {
    forall k, l | 0 <= k < l < |r|
      ensures r[k].id != r[l].id
    {
      if r[k].id == r[l].id {
        RiskIdInjective(r[k].category, r[l].category, now);
      }
    }
  }

  /** The fallback catalogue's ids are pairwise distinct. */
  lemma FallbackIdsDistinct()
    ensures forall k, l :: 0 <= k < l < |FallbackRisks| ==> FallbackRisks[k].id != FallbackRisks[l].id
  {
    var ids := [FallbackRisks[0].id, FallbackRisks[1].id, FallbackRisks[2].id, FallbackRisks[3].id];
    assert |ids[0]| == 14 && |ids[1]| == 13 && |ids[2]| == 16 && |ids[3]| == 16;
    assert ids[2][5] != ids[3][5];
  }

  /** A risk read off a reply has the id of its category. */
  lemma IdOfRead(content: string, draws: seq<RiskDraw>, now: nat, risk: Risk)
    requires |draws| == |Categories|
    requires forall j :: 0 <= j < |draws| ==> ValidDraw(draws[j])
    requires ReadCategory(content, draws, now)(risk.category) == Some(risk)
    ensures risk.id == RiskId(risk.category, now)
  {
  }

  /** `getFallbackRecommendations`. */
  const FallbackRecommendations: seq<string> := [
    "Implement comprehensive project monitoring and reporting systems",
    "Maintain adequate contingency reserves for unforeseen circumstances",
    "Establish clear communication protocols with all stakeholders",
    "Conduct regular risk assessment reviews throughout project lifecycle",
    "Develop and maintain strong supplier and contractor relationships",
    "Ensure proper insurance coverage for identified risks"
  ]

  /** `extractRecommendationsFromContent`: the items of the text after
      "recommendation(s)" up to "critical" or "success", longer than 15
      characters, at most six; else the six default recommendations. */
  function ExtractRecommendations(content: string): (r: seq<string>)
    ensures 0 < |r| <= 6
    ensures r == FallbackRecommendations || forall k :: 0 <= k < |r| ==> |r[k]| > 15 && CleanPiece(r[k])
    ensures (forall q :: 0 <= q <= |content| ==> !MatchesAt(content, q, "recommendation")) ==> r == FallbackRecommendations
    ensures var sec := SectionText(content, "recommendation", true, ["critical", "success"]);
      sec.Some? && LongPieces(sec.value, 15) != [] ==> r == Take(LongPieces(sec.value, 15), 6)
    ensures var sec := SectionText(content, "recommendation", true, ["critical", "success"]);
      sec.Some? && LongPieces(sec.value, 15) == [] ==> r == FallbackRecommendations
  {
    ItemsOrDefault(SectionText(content, "recommendation", true, ["critical", "success"]), 15, 6, FallbackRecommendations)
  }

  /** `parseRiskAssessmentResponse`: the extracted risks, their overall score
      and the extracted recommendations. */
  function ParseRiskAssessment(content: string, project: Project, draws: seq<RiskDraw>, now: nat): (r: AssessmentDraft)
    requires |draws| == |Categories|
    requires forall k :: 0 <= k < |draws| ==> ValidDraw(draws[k])
    ensures r.projectId == project.id
    ensures r.risks == ExtractCategoryRisks(content, draws, now) && |r.risks| > 0
    ensures r.overallRiskScore == OverallScore(r.risks)
    ensures r.recommendations == ExtractRecommendations(content)
  {
    var risks := ExtractCategoryRisks(content, draws, now);
    AssessmentDraft(project.id, risks, OverallScore(risks), ExtractRecommendations(content))
  }

  /** `generateFallbackRiskAssessment`: the catalogue, scored 31, with the
      default recommendations. */
  function FallbackAssessment(project: Project): (r: AssessmentDraft)
    ensures r.projectId == project.id && r.risks == FallbackRisks
    ensures r.overallRiskScore == 31
    ensures r.recommendations == FallbackRecommendations
  {
    FallbackOverallScore();
    AssessmentDraft(project.id, FallbackRisks, OverallScore(FallbackRisks), FallbackRecommendations)
  }

  /** `generateRiskAssessment`: the parsed reply, or the fallback when the call
      fails. Either way there is at least one risk and the overall score is the
      rounded mean of their scores. */
  function GenerateRiskAssessment(project: Project, reply: Reply, draws: seq<RiskDraw>, now: nat): (r: AssessmentDraft)
    requires |draws| == |Categories|
    requires forall k :: 0 <= k < |draws| ==> ValidDraw(draws[k])
    ensures reply.CallFailed? ==> r == FallbackAssessment(project)
    ensures reply.Replied? ==> r == ParseRiskAssessment(reply.content, project, draws, now)
    ensures |r.risks| > 0 && r.overallRiskScore == OverallScore(r.risks)
    ensures 0 < |r.recommendations| <= 6
  {
    match reply
    case CallFailed =>
      FallbackOverallScore();
      FallbackAssessment(project)
    case Replied(content) => ParseRiskAssessment(content, project, draws, now)
  }

  // ---------------------------------------------------------------------------
  // A single category, the mitigation plan and the weather assessment

  /** The fields `analyzeSpecificRisk` reads from the parsed reply. */
  datatype RiskJson = RiskJson(
    description: Option<string>,
    probability: Option<int>,
    impact: Option<int>,
    mitigation: Option<string>,
    status: Option<RiskStatus>)

  /** The risk read from a decoded reply: each field the reply carries with a
      truthy value is kept, and a missing or falsy one (`0`, `""`) takes its
      default; the score is computed from the probability and impact used. */
  predicate DecodedRisk(c: RiskCategory, j: RiskJson, now: nat, r: Risk) {
    && r.id == "risk_" + DecimalString(now) && r.category == c
    && WholeOr(j.probability, 50, r.probability) && WholeOr(j.impact, 50, r.impact)
    && r.riskScore == RiskScore(r.probability, r.impact)
    && TextOr(j.description, CategoryName(c) + " risk analysis", r.description)
    && TextOr(j.mitigation, "Standard mitigation strategies apply", r.mitigation)
    && Spread(j.status, Identified, r.status)
  }

  /** `analyzeSpecificRisk`: the parsed risk, a missing or zero probability or
      impact reading as 50 and the score computed from the values used; the
      category's template risk when the call or the parse fails. */
  function AnalyzeSpecificRisk(c: RiskCategory, reply: Parsed<RiskJson>, now: nat): (r: Risk)
    ensures r.category == c && ScoreConsistent(r)
    ensures r.probability != 0 && r.impact != 0
    ensures !reply.Decoded? ==> r == FallbackRisk(c, now)
    ensures reply.Decoded? ==> r.id == "risk_" + DecimalString(now)
    ensures reply.Decoded? ==> DecodedRisk(c, reply.value, now, r)
  {
    match reply
    case Decoded(j) =>
      var p := OrWhole(j.probability, 50);
      var i := OrWhole(j.impact, 50);
      Risk(
        "risk_" + DecimalString(now),
        c,
        OrText(j.description, CategoryName(c) + " risk analysis"),
        p,
        i,
        RiskScore(p, i),
        OrText(j.mitigation, "Standard mitigation strategies apply"),
        OrValue(j.status, Identified))
    case _ =>
      var r := FallbackRisk(c, now);
      assert r.probability >= 25 && r.impact >= 45;
      r
  }

  /** A risk written out as the JSON object the reply would carry. */
  function RiskAsJson(r: Risk): RiskJson {
    RiskJson(Some(r.description), Some(r.probability), Some(r.impact), Some(r.mitigation), Some(r.status))
  }

  /** A reply that spells out a risk with truthy fields is read back as that
      risk, given the id of the moment and a consistent score. */
  lemma AnalyzeSpecificRiskRoundTrip(r: Risk, now: nat)
    requires r.probability != 0 && r.impact != 0 && r.description != [] && r.mitigation != []
    requires r.id == "risk_" + DecimalString(now) && ScoreConsistent(r)
    ensures AnalyzeSpecificRisk(r.category, Decoded(RiskAsJson(r)), now) == r
  {
  }

  /** `getFallbackMitigationStrategies`. */
  const FallbackMitigationStrategies: seq<string> := [
    "Implement weekly risk review meetings with project team",
    "Maintain 15% budget contingency for unforeseen costs",
    "Establish backup suppliers for critical materials",
    "Create detailed weather monitoring and response procedures",
    "Develop workforce contingency plans with backup contractors",
    "Implement strict change order approval processes"
  ]

  /** `generateMitigationPlan`: every item of the whole reply longer than 20
      characters, at most eight; the six default strategies when none is
      left or the call fails. */
  function MitigationPlan(reply: Reply): (r: seq<string>)
    ensures 0 < |r| <= 8
    ensures reply.CallFailed? ==> r == FallbackMitigationStrategies
    ensures r == FallbackMitigationStrategies || forall k :: 0 <= k < |r| ==> |r[k]| > 20 && CleanPiece(r[k])
    ensures reply.Replied? && LongPieces(reply.content, 20) != [] ==> r == Take(LongPieces(reply.content, 20), 8)
    ensures reply.Replied? && LongPieces(reply.content, 20) == [] ==> r == FallbackMitigationStrategies
  {
    match reply
    case CallFailed => FallbackMitigationStrategies
    case Replied(content) => ItemsOrDefault(Some(content), 20, 8, FallbackMitigationStrategies)
  }

  /** A reply that lists up to eight clean strategies of more than 20
      characters, one per line, is taken as the plan unchanged. */
  lemma MitigationPlanRoundTrip(lines: seq<string>)
    requires 1 <= |lines| <= 8
    requires forall k :: 0 <= k < |lines| ==> |lines[k]| > 20 && CleanPiece(lines[k])
    ensures MitigationPlan(Replied(JoinLines(lines))) == lines
  {
    ItemsOfJoinedLines(lines, 20, 8);
  }

  datatype RiskLevel = Low | Medium | High

  datatype WeatherAssessment = WeatherAssessment(
    riskLevel: RiskLevel,
    seasonalFactors: seq<string>,
    recommendations: seq<string>)

  /** The fields `assessWeatherRisk` reads from the parsed reply. */
  datatype WeatherJson = WeatherJson(
    riskLevel: Option<RiskLevel>,
    seasonalFactors: Option<seq<string>>,
    recommendations: Option<seq<string>>)

  /** `getFallbackWeatherAssessment`. */
  const FallbackWeather: WeatherAssessment := WeatherAssessment(
    Medium,
    ["Seasonal temperature variations", "Precipitation patterns", "Wind conditions"],
    ["Monitor weather forecasts daily", "Schedule outdoor work during favorable conditions",
     "Maintain weather protection equipment"])

  /** `assessWeatherRisk`: the parsed assessment with one-line defaults for
      missing lists and "medium" for a missing level; a present list is kept
      even when empty, since an array is truthy. The fallback when the call or
      the parse fails is a medium risk with three factors and three
      recommendations. */
  function AssessWeatherRisk(reply: Parsed<WeatherJson>): (r: WeatherAssessment)
    ensures !reply.Decoded? ==> r == FallbackWeather
    ensures !reply.Decoded? ==> r.riskLevel == Medium && |r.seasonalFactors| == 3 && |r.recommendations| == 3
    ensures reply.Decoded? ==> Spread(reply.value.riskLevel, Medium, r.riskLevel)
    ensures reply.Decoded? && reply.value.seasonalFactors.None? ==> r.seasonalFactors == ["Seasonal weather variations"]
    ensures reply.Decoded? && reply.value.seasonalFactors.Some? ==> r.seasonalFactors == reply.value.seasonalFactors.value
    ensures reply.Decoded? && reply.value.recommendations.None? ==> r.recommendations == ["Monitor weather forecasts regularly"]
    ensures reply.Decoded? && reply.value.recommendations.Some? ==> r.recommendations == reply.value.recommendations.value
  {
    match reply
    case Decoded(j) =>
      WeatherAssessment(
        OrValue(j.riskLevel, Medium),
        OrValue(j.seasonalFactors, ["Seasonal weather variations"]),
        OrValue(j.recommendations, ["Monitor weather forecasts regularly"]))
    case _ => FallbackWeather
  }
}
