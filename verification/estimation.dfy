/** The rule-based layer of the estimation service
    (src/services/aiEstimationService.ts): the fallback estimate computed from
    lookup tables, the reading of a model reply into an estimate, and the
    fallback material and workforce lists. The model call itself is an
    injected `Reply`; `Math.random` draws are injected reals in [0, 1). */
module Estimation {
  import opened Wrappers
  import opened Numeric
  import opened Text
  import opened Scan
  import opened Sections
  import opened Construction
  import opened Upstream
  import opened Falsy

  // ---------------------------------------------------------------------------
  // Lookup tables

  /** Dollars per square foot by project type (`getBaseRateByType`). The
      service's `default: 150` is unreachable for a well-typed request. */
  function BaseRate(t: ProjectType): (r: int)
    ensures r in {120, 150, 180, 200, 250, 300}
    ensures t.ResidentialRenovation? || t.CommercialRenovation? ==> r < 200
  {
    match t
    case ResidentialNew => 150
    case ResidentialRenovation => 120
    case CommercialNew => 200
    case CommercialRenovation => 180
    case Infrastructure => 300
    case Industrial => 250
  }

  /** Days per thousand square feet by project type (`getTimelineMultiplier`). */
  function TimelineMultiplier(t: ProjectType): (r: int)
    ensures r in {30, 45, 60, 75, 90}
  {
    match t
    case ResidentialNew => 45
    case ResidentialRenovation => 30
    case CommercialNew => 60
    case CommercialRenovation => 45
    case Infrastructure => 90
    case Industrial => 75
  }

  /** A location tier: the multiplier that applies when any of its places is
      mentioned. */
  datatype Tier = Tier(multiplier: real, places: seq<string>)

  const Tier1Places: seq<string> := ["new york", "san francisco", "los angeles"]
  const Tier2Places: seq<string> := ["chicago", "boston", "seattle"]
  const Tier3Places: seq<string> := ["texas", "florida", "arizona"]

  /** The tiers in the order `getLocationMultiplier` tests them. */
  const LocationTiers: seq<Tier> := [Tier(1.4, Tier1Places), Tier(1.2, Tier2Places), Tier(0.9, Tier3Places)]

  /** `text` mentions one of `places`: `places.some(p => text.includes(p))`. */
  predicate MentionsAny(text: string, places: seq<string>) {
    exists k :: 0 <= k < |places| && Contains(text, places[k])
  }

  /** The index of the first tier with a mentioned place, if any. */
  function FirstTier(text: string, tiers: seq<Tier>): (r: Option<nat>)
    ensures r.Some? ==> r.value < |tiers|
    decreases |tiers|
  {
    if tiers == [] then None
    else if MentionsAny(text, tiers[0].places) then Some(0)
    else
      match FirstTier(text, tiers[1..])
      case None => None
      case Some(i) => Some(i + 1)
  }

  /** The tier found is the first with a mentioned place: earlier tiers
      mention none, and there is none only when no tier matches. */
  lemma {:induction false} FirstTierFirst(text: string, tiers: seq<Tier>)
    ensures var r := FirstTier(text, tiers);
      && (r.Some? ==> MentionsAny(text, tiers[r.value].places))
      && (r.Some? ==> forall j :: 0 <= j < r.value ==> !MentionsAny(text, tiers[j].places))
      && (r.None? ==> forall j :: 0 <= j < |tiers| ==> !MentionsAny(text, tiers[j].places))
    decreases |tiers|
  {
    if tiers != [] && !MentionsAny(text, tiers[0].places) {
      FirstTierFirst(text, tiers[1..]);
      assert forall j :: 1 <= j < |tiers| ==> tiers[j] == tiers[1..][j - 1];
    }
  }

  /** `getLocationMultiplier`: the lower-cased location is tested against the
      three tiers in order, and the first tier with a mentioned place decides. */
  function LocationMultiplier(location: string): (r: real)
    ensures r in {1.4, 1.2, 0.9, 1.0}
  {
    match FirstTier(Lower(location), LocationTiers)
    case Some(i) => LocationTiers[i].multiplier
    case None => 1.0
  }

  /** Which multiplier a location gets: 1.4 iff it mentions a 1.4 place; 1.2
      iff it mentions no 1.4 place but a 1.2 place; 0.9 iff it mentions only
      a 0.9 place; otherwise 1.0. */
  lemma LocationTiering(location: string)
    ensures var r := LocationMultiplier(location);
      var text := Lower(location);
      && (r == 1.4 <==> MentionsAny(text, Tier1Places))
      && (r == 1.2 <==> !MentionsAny(text, Tier1Places) && MentionsAny(text, Tier2Places))
      && (r == 0.9 <==> !MentionsAny(text, Tier1Places) && !MentionsAny(text, Tier2Places) && MentionsAny(text, Tier3Places))
      && (r == 1.0 <==> !MentionsAny(text, Tier1Places) && !MentionsAny(text, Tier2Places) && !MentionsAny(text, Tier3Places))
  {
    var tiers := LocationTiers;
    FirstTierFirst(Lower(location), tiers);
    assert tiers[0] == Tier(1.4, Tier1Places) && tiers[1] == Tier(1.2, Tier2Places) && tiers[2] == Tier(0.9, Tier3Places);
    match FirstTier(Lower(location), tiers)
    case Some(i) =>
      assert i == 0 || i == 1 || i == 2;
    case None =>
  }

  /** The tiering ignores ASCII case. */
  lemma LocationCaseInsensitive(location: string)
    ensures LocationMultiplier(Lower(location)) == LocationMultiplier(location)
  {
    LowerIdempotent(location);
  }

  /** The first matching tier wins: "New York, Texas" mentions both a 1.4
      place and a 0.9 place, and gets 1.4. */
  lemma FirstTierWins(location: string)
    requires location == "New York, Texas"
    ensures LocationMultiplier(location) == 1.4
  {
    var ny := Lower(location);
    forall k | 0 <= k < 8 ensures ny[k] == "new york"[k] {
      assert ny[k] == LowerChar(location[k]);
    }
    assert ny[..8] == "new york";
    ContainsAt(ny, "new york", 0);
    assert Contains(ny, Tier1Places[0]);
    LocationTiering(location);
  }

  /** A text mentions none of `places` when each place has a character, its
      entry in `witnesses`, that the text lacks. */
  lemma NotMentioned(text: string, places: seq<string>, witnesses: string)
    requires |witnesses| == |places|
    requires forall k :: 0 <= k < |places| ==> witnesses[k] in places[k] && witnesses[k] !in text
    ensures !MentionsAny(text, places)
  {
    forall k | 0 <= k < |places|
      ensures !Contains(text, places[k])
    {
      MissingCharNotContained(text, places[k], witnesses[k]);
    }
  }

  /** Lower-casing "Austin, Texas". */
  lemma LowerAustin(location: string)
    requires location == "Austin, Texas"
    ensures Lower(location) == "austin, texas"
  {
    var austin := Lower(location);
    forall k | 0 <= k < 13 ensures austin[k] == "austin, texas"[k] {
      assert austin[k] == LowerChar(location[k]);
    }
  }

  /** "austin, texas" mentions Texas. */
  lemma MentionsTexas(text: string)
    requires text == "austin, texas"
    ensures MentionsAny(text, Tier3Places)
  {
    assert text[8..13] == "texas";
    ContainsAt(text, "texas", 8);
    assert Contains(text, Tier3Places[0]);
  }

  /** "austin, texas" mentions no 1.4 or 1.2 place. */
  lemma AustinOutsideTopTiers(text: string)
    requires text == "austin, texas"
    ensures !MentionsAny(text, Tier1Places) && !MentionsAny(text, Tier2Places)
  {
    NotMentioned(text, Tier1Places, "wfl");
    NotMentioned(text, Tier2Places, "hbl");
  }

  /** "Austin, Texas" mentions no 1.4 or 1.2 place, only Texas: it gets 0.9. */
  lemma AustinTexasTier(location: string)
    requires location == "Austin, Texas"
    ensures LocationMultiplier(location) == 0.9
  {
    LowerAustin(location);
    AustinOutsideTopTiers(Lower(location));
    MentionsTexas(Lower(location));
    LocationTiering(location);
  }

  /** "denver" mentions no listed place. */
  lemma DenverUnlisted(text: string)
    requires text == "denver"
    ensures !MentionsAny(text, Tier1Places) && !MentionsAny(text, Tier2Places) && !MentionsAny(text, Tier3Places)
  {
    NotMentioned(text, Tier1Places, "wfl");
    NotMentioned(text, Tier2Places, "hbt");
    NotMentioned(text, Tier3Places, "tfz");
  }

  /** A location that mentions no listed place gets 1.0. */
  lemma UnlistedLocation(location: string)
    requires location == "denver"
    ensures LocationMultiplier(location) == 1.0
  {
    LowerUnchanged(location);
    DenverUnlisted(Lower(location));
    LocationTiering(location);
  }

  /** `getSizeMultiplier`: economies of scale above 5000 and 10000 square
      feet, a premium below 1000. */
  function SizeMultiplier(size: real): (r: real)
    ensures r in {0.85, 0.9, 1.0, 1.2}
    ensures r == 0.85 <==> size > 10000.0
    ensures r == 0.9 <==> 5000.0 < size <= 10000.0
    ensures r == 1.0 <==> 1000.0 <= size <= 5000.0
    ensures r == 1.2 <==> size < 1000.0
  {
    if size > 10000.0 then 0.85
    else if size > 5000.0 then 0.9
    else if size < 1000.0 then 1.2
    else 1.0
  }

  /** A larger project never has a larger size multiplier, and the thresholds
      are strict: exactly 10000 and 5000 square feet fall in the lower band. */
  lemma SizeMultiplierAntitone(a: real, b: real)
    requires a <= b
    ensures SizeMultiplier(b) <= SizeMultiplier(a)
    ensures SizeMultiplier(10000.0) == 0.9 && SizeMultiplier(5000.0) == 1.0 && SizeMultiplier(1000.0) == 1.0
  {
  }

  // ---------------------------------------------------------------------------
  // The fallback estimate

  /** The cost per square foot the fallback charges. */
  function CostPerSquareFoot(req: EstimationRequest): (f: real)
    ensures 91.8 <= f <= 504.0
  {
    var base := BaseRate(req.projectType) as real;
    var loc := LocationMultiplier(req.location);
    var sm := SizeMultiplier(req.size);
    RateBounds(base, loc, sm);
    base * loc * sm
  }

  /** The extremes of the three factors bound their product. */
  lemma RateBounds(base: real, loc: real, sm: real)
    requires 120.0 <= base <= 300.0 && 0.9 <= loc <= 1.4 && 0.85 <= sm <= 1.2
    ensures 108.0 <= base * loc <= 420.0
    ensures 91.8 <= base * loc * sm <= 504.0
  {
    assert 120.0 * 0.9 <= base * 0.9 <= base * loc;
    assert base * loc <= base * 1.4 <= 300.0 * 1.4;
    assert 108.0 * 0.85 <= base * loc * 0.85 <= base * loc * sm;
    assert base * loc * sm <= base * loc * 1.2 <= 420.0 * 1.2;
  }

  /** `calculateFallbackCost`: `Math.round(size * baseRate * locationMultiplier
      * sizeMultiplier)`. For a non-negative size it is a non-negative whole
      number of dollars between 91.8 and 504 dollars per square foot. */
  function FallbackCost(req: EstimationRequest): (r: int)
    ensures req.size >= 0.0 ==> 0 <= r
    ensures req.size >= 0.0 ==> req.size * 91.8 - 0.5 < r as real <= req.size * 504.0 + 0.5
  {
    RoundedCost(req.size, CostPerSquareFoot(req))
  }

  /** `Math.round(size * rate)` for a rate between the fallback's extremes. */
  function RoundedCost(size: real, rate: real): (r: int)
    requires 91.8 <= rate <= 504.0
    ensures r == Round(size * rate)
    ensures size >= 0.0 ==> 0 <= r
    ensures size >= 0.0 ==> size * 91.8 - 0.5 < r as real <= size * 504.0 + 0.5
  {
    ScaleBetween(size, rate, 91.8, 504.0);
    if size >= 0.0 then
      RoundWithin(size * rate, size * 91.8, size * 504.0);
      Round(size * rate)
    else
      Round(size * rate)
  }

  /** Scaling a factor known to lie between two bounds by a non-negative size. */
  lemma ScaleBetween(size: real, f: real, lo: real, hi: real)
    requires lo <= f <= hi
    ensures size >= 0.0 ==> size * lo <= size * f <= size * hi
  {
    if size >= 0.0 {
      assert size * (f - lo) >= 0.0;
      assert size * (hi - f) >= 0.0;
    }
  }

  /** The small-project premium makes the fallback cost jump down at 1000
      square feet: 999 square feet cost more than 1000. */
  lemma CostNotMonotoneInSize(kind: ProjectType, location: string, specs: string, timeline: string)
    ensures
      var small := EstimationRequest(kind, 999.0, location, specs, timeline, None);
      var large := EstimationRequest(kind, 1000.0, location, specs, timeline, None);
      FallbackCost(small) > FallbackCost(large)
  {
    var small := EstimationRequest(kind, 999.0, location, specs, timeline, None);
    var large := EstimationRequest(kind, 1000.0, location, specs, timeline, None);
    var rate := BaseRate(kind) as real * LocationMultiplier(location);
    CostPerSquareFootFactors(small);
    CostPerSquareFootFactors(large);
    assert SizeMultiplier(999.0) == 1.2 && SizeMultiplier(1000.0) == 1.0;
    PremiumJump(rate);
  }

  /** The fallback rate is the product of its three factors, the first two at
      least 108 dollars together. */
  lemma CostPerSquareFootFactors(req: EstimationRequest)
    ensures CostPerSquareFoot(req) == BaseRate(req.projectType) as real * LocationMultiplier(req.location) * SizeMultiplier(req.size)
    ensures BaseRate(req.projectType) as real * LocationMultiplier(req.location) >= 108.0
  {
    RateBounds(BaseRate(req.projectType) as real, LocationMultiplier(req.location), SizeMultiplier(req.size));
  }

  /** At a rate of at least 108 dollars, 999 square feet at the 1.2 premium
      round to more than 1000 square feet without it. */
  lemma PremiumJump(rate: real)
    requires rate >= 108.0
    ensures Round(999.0 * (rate * 1.2)) > Round(1000.0 * (rate * 1.0))
  {
    assert 999.0 * (rate * 1.2) - 1000.0 * (rate * 1.0) == rate * 198.8;
    RoundApart(999.0 * (rate * 1.2), 1000.0 * (rate * 1.0));
  }

  /** `calculateFallbackTimeline`: `Math.round(size / 1000 * multiplier)` days,
      between 30 and 90 days per thousand square feet. */
  function FallbackTimeline(req: EstimationRequest): (r: int)
    ensures req.size >= 0.0 ==> 0 <= Round(req.size * 0.03) <= r <= Round(req.size * 0.09)
  {
    var m := TimelineMultiplier(req.projectType) as real;
    var days := req.size / 1000.0 * m;
    assert req.size >= 0.0 ==> 0 <= Round(req.size * 0.03) <= Round(days) <= Round(req.size * 0.09) by {
      if req.size >= 0.0 {
        assert req.size * 0.03 <= days <= req.size * 0.09;
        RoundMonotone(req.size * 0.03, days);
        RoundMonotone(days, req.size * 0.09);
        RoundMonotone(0.0, req.size * 0.03);
        RoundOfInt(0);
      }
    }
    Round(days)
  }

  /** `Math.round(cost * share)`. */
  function Share(cost: int, share: real): int {
    Round(cost as real * share)
  }

  /** The breakdown derived from a total: four independently rounded shares of
      47, 33, 12 and 8 percent. */
  function DerivedBreakdown(cost: int): (b: CostBreakdown)
    ensures cost >= 0 ==> b.materials >= 0 && b.labor >= 0 && b.equipment >= 0 && b.overhead >= 0
    ensures cost >= 0 ==> b.overhead <= b.equipment <= b.labor <= b.materials <= cost
  {
    var b := CostBreakdown(Share(cost, 0.47), Share(cost, 0.33), Share(cost, 0.12), Share(cost, 0.08));
    assert cost >= 0 ==> 0 <= b.overhead <= b.equipment <= b.labor <= b.materials <= cost by {
      if cost >= 0 {
        var c := cost as real;
        RoundMonotone(c * 0.08, c * 0.12);
        RoundMonotone(c * 0.12, c * 0.33);
        RoundMonotone(c * 0.33, c * 0.47);
        RoundMonotone(c * 0.47, c);
        RoundMonotone(0.0, c * 0.08);
        RoundOfInt(cost);
        RoundOfInt(0);
      }
    }
    b
  }

  /** The sum of the four parts of a breakdown. */
  function PartsTotal(b: CostBreakdown): int {
    b.materials + b.labor + b.equipment + b.overhead
  }

  /** The shares sum to the whole, but each is rounded on its own: the parts
      of a derived breakdown add up to the total give or take one dollar, and
      both directions happen (50 gives parts summing to 51, 1 gives 0). */
  lemma {:induction false} BreakdownDrift(cost: int)
    ensures -1 <= PartsTotal(DerivedBreakdown(cost)) - cost <= 1
  {
    var c := cost as real;
    var b := DerivedBreakdown(cost);
    assert c * 0.47 + c * 0.33 + c * 0.12 + c * 0.08 == c;
    var o := b.overhead;
    // A sum two above the total needs every share rounded up by exactly one
    // half, the overhead share among them: 8 * cost + 50 == 100 * o, which
    // parity forbids.
    assert o as real != c * 0.08 + 0.5;
  }

  /** Witnesses that the derived parts miss the total in both directions. */
  lemma BreakdownDriftExamples()
    ensures PartsTotal(DerivedBreakdown(50)) == 51
    ensures PartsTotal(DerivedBreakdown(1)) == 0
  {
    assert Round(50.0 * 0.47) == 24;
    assert Round(50.0 * 0.33) == 17;
    assert Round(50.0 * 0.12) == 6;
    assert Round(50.0 * 0.08) == 4;
    assert Round(1.0 * 0.47) == 0;
    assert Round(1.0 * 0.33) == 0;
    assert Round(1.0 * 0.12) == 0;
    assert Round(1.0 * 0.08) == 0;
  }

  const FallbackAssumptions: seq<string> := [
    "Standard construction materials and methods",
    "Normal weather conditions during construction",
    "Adequate skilled workforce availability",
    "No major regulatory or permit delays"
  ]

  const FallbackRecommendations: seq<string> := [
    "Consider bulk material purchasing for cost savings",
    "Schedule critical path activities early",
    "Maintain 10% contingency for unforeseen costs"
  ]

  const FallbackRiskFactors: seq<string> := [
    "Weather delays during construction season",
    "Material price volatility",
    "Skilled labor availability"
  ]

  /** `generateFallbackEstimation`: the table-driven estimate, confidence 75,
      and fixed lists of four assumptions, three recommendations and three
      risks. Its cost is exactly what `calculateFallbackCost` computes, so the
      two fallback paths never disagree. */
  function FallbackEstimation(req: EstimationRequest): (r: EstimationResponse)
    ensures r.estimatedCost == FallbackCost(req) && r.timeline == FallbackTimeline(req)
    ensures r.costBreakdown == DerivedBreakdown(r.estimatedCost)
    ensures -1 <= PartsTotal(r.costBreakdown) - r.estimatedCost <= 1
    ensures r.confidence == 75
    ensures |r.assumptions| == 4 && |r.recommendations| == 3 && |r.risks| == 3
  {
    var cost := FallbackCost(req);
    BreakdownDrift(cost);
    EstimationResponse(
      cost,
      DerivedBreakdown(cost),
      FallbackTimeline(req),
      75,
      FallbackAssumptions,
      FallbackRecommendations,
      FallbackRiskFactors)
  }

  /** The worked example of a 2000 square-foot new house in Austin, Texas:
      the Texas tier applies, so the cost is 2000 * 150 * 0.9 * 1.0. */
  lemma AustinExample(req: EstimationRequest)
    requires req.projectType == ResidentialNew && req.size == 2000.0 && req.location == "Austin, Texas"
    ensures FallbackCost(req) == 270000 && FallbackTimeline(req) == 90
  {
    AustinTexasTier(req.location);
    assert CostPerSquareFoot(req) == 135.0;
    RoundOfInt(270000);
    assert req.size * CostPerSquareFoot(req) == 270000 as real;
    assert 2000.0 / 1000.0 * 45.0 == 90 as real;
    RoundOfInt(90);
  }

  // ---------------------------------------------------------------------------
  // Reading a reply

  const DefaultAssumptions: seq<string> := [
    "Standard construction materials and methods",
    "Normal weather conditions during construction",
    "Adequate skilled workforce availability",
    "No major regulatory or permit delays",
    "Site is accessible and prepared for construction",
    "Current market prices remain stable"
  ]

  const DefaultRecommendations: seq<string> := [
    "Secure material contracts early to lock in pricing",
    "Schedule critical path activities during favorable weather",
    "Maintain 10-15% contingency budget for unforeseen costs",
    "Pre-qualify and book skilled contractors in advance",
    "Implement regular progress monitoring and cost tracking"
  ]

  const DefaultRiskFactors: seq<string> := [
    "Weather delays during construction season",
    "Material price volatility and supply chain disruptions",
    "Skilled labor shortages in specialized trades",
    "Permit approval delays or requirement changes",
    "Site conditions different from initial assessment"
  ]

  /** `extractAssumptions`: the items of the text after "assumption(s)", up
      to "recommendation" or "risk"; longer than 10 characters, at most six;
      else the six default assumptions. */
  function ExtractAssumptions(content: string): (r: seq<string>)
    ensures 0 < |r| <= 6
    ensures r == DefaultAssumptions || forall k :: 0 <= k < |r| ==> |r[k]| > 10 && CleanPiece(r[k])
    ensures (forall q :: 0 <= q <= |content| ==> !MatchesAt(content, q, "assumption")) ==> r == DefaultAssumptions
    ensures var sec := SectionText(content, "assumption", true, ["recommendation", "risk"]);
      sec.Some? && LongPieces(sec.value, 10) != [] ==> r == Take(LongPieces(sec.value, 10), 6)
    ensures var sec := SectionText(content, "assumption", true, ["recommendation", "risk"]);
      sec.Some? && LongPieces(sec.value, 10) == [] ==> r == DefaultAssumptions
  {
    ItemsOrDefault(SectionText(content, "assumption", true, ["recommendation", "risk"]), 10, 6, DefaultAssumptions)
  }

  /** `extractRecommendations`: as `ExtractAssumptions`, for the text after
      "recommendation(s)" up to "risk" or "assumption"; at most five. */
  function ExtractRecommendations(content: string): (r: seq<string>)
    ensures 0 < |r| <= 5
    ensures r == DefaultRecommendations || forall k :: 0 <= k < |r| ==> |r[k]| > 10 && CleanPiece(r[k])
    ensures (forall q :: 0 <= q <= |content| ==> !MatchesAt(content, q, "recommendation")) ==> r == DefaultRecommendations
    ensures var sec := SectionText(content, "recommendation", true, ["risk", "assumption"]);
      sec.Some? && LongPieces(sec.value, 10) != [] ==> r == Take(LongPieces(sec.value, 10), 5)
    ensures var sec := SectionText(content, "recommendation", true, ["risk", "assumption"]);
      sec.Some? && LongPieces(sec.value, 10) == [] ==> r == DefaultRecommendations
  {
    ItemsOrDefault(SectionText(content, "recommendation", true, ["risk", "assumption"]), 10, 5, DefaultRecommendations)
  }

  /** `extractRisks`: the items of everything after the first "risk(s)"; at
      most five, else the five default risks. */
  function ExtractRisks(content: string): (r: seq<string>)
    ensures 0 < |r| <= 5
    ensures r == DefaultRiskFactors || forall k :: 0 <= k < |r| ==> |r[k]| > 10 && CleanPiece(r[k])
    ensures (forall q :: 0 <= q <= |content| ==> !MatchesAt(content, q, "risk")) ==> r == DefaultRiskFactors
    ensures var sec := SectionText(content, "risk", true, []);
      sec.Some? && LongPieces(sec.value, 10) != [] ==> r == Take(LongPieces(sec.value, 10), 5)
    ensures var sec := SectionText(content, "risk", true, []);
      sec.Some? && LongPieces(sec.value, 10) == [] ==> r == DefaultRiskFactors
  {
    ItemsOrDefault(SectionText(content, "risk", true, []), 10, 5, DefaultRiskFactors)
  }

  /** A joined list starts with its first line. */
  lemma JoinLinesHead(lines: seq<string>)
    requires |lines| >= 1 && |lines[0]| > 0
    ensures |JoinLines(lines)| > 0 && JoinLines(lines)[0] == lines[0][0]
  {
  }

  /** "Risks" is found at the very start of "Risks: " + body. */
  lemma RisksHeaderAtStart(body: string)
    ensures HeaderAt("Risks: " + body, "risk") == Some(Hit(0, 4))
  {
    var text := "Risks: " + body;
    assert text[..7] == "Risks: ";
    assert MatchEnd(text, 4, "") == Some(4);
    assert MatchEnd(text, 3, "k") == Some(4);
    assert MatchEnd(text, 2, "sk") == Some(4);
    assert MatchEnd(text, 1, "isk") == Some(4);
    assert MatchEnd(text, 0, "risk") == Some(4);
  }

  /** The risks section of "Risks: " + body is the whole body. */
  lemma RisksSectionOf(body: string)
    requires |body| > 0 && !IsSeparator(body[0])
    ensures SectionText("Risks: " + body, "risk", true, []) == Some(body)
  {
    var text := "Risks: " + body;
    RisksHeaderAtStart(body);
    assert text[4] == 's' && text[5] == ':' && text[6] == ' ' && text[7] == body[0];
    assert Optional(text, 4, 's') == 5;
    var j := SkipWhile(text, 5, IsSeparator);
    assert j == 7;
    assert !AnyStopAt(text, StopPosition(text, 7, []), []);
    assert Section(text, "risk", true, []) == Some(Span(7, |text|));
    assert text[7..|text|] == body;
    assert SectionText(text, "risk", true, []) == Some(text[7..|text|]);
  }

  /** A "Risks:" heading followed by a bulleted list of up to five clean,
      long-enough lines is read back as exactly those lines. */
  lemma ExtractRisksRoundTrip(lines: seq<string>)
    requires 1 <= |lines| <= 5
    requires forall k :: 0 <= k < |lines| ==> |lines[k]| > 10 && CleanPiece(lines[k])
    requires !IsSeparator(lines[0][0])
    ensures ExtractRisks("Risks: " + JoinLines(lines)) == lines
  {
    JoinLinesHead(lines);
    RisksSectionOf(JoinLines(lines));
    ItemsOfJoinedLines(lines, 10, 5);
  }

  /** A figure read from the reply, with the fallback value when the pattern
      finds none. */
  function FigureOr(capture: Option<string>, fallback: int): (r: int)
    requires capture.Some? ==> forall k :: 0 <= k < |capture.value| ==> IsDigitOrComma(capture.value[k])
    ensures FigureValue(capture).None? ==> r == fallback
    ensures FigureValue(capture).Some? ==> r == FigureValue(capture).value && r >= 0
  {
    FigureValue(capture).GetOr(fallback)
  }

  /** A count read from the reply (`parseInt` of a digit run), or a fallback. */
  function CountOr(capture: Option<string>, fallback: int): (r: int)
    requires capture.Some? ==> AllDigits(capture.value)
    ensures capture.None? ==> r == fallback
    ensures capture.Some? ==> r >= 0 && r == DigitsValue(capture.value)
  {
    match capture
    case None => fallback
    case Some(d) => DigitsValue(d)
  }

  /** The estimated cost, corrected: the value of the leading amount, or the
      table cost when the reply holds no amount with a digit in it. */
  function ParseCost(content: string, req: EstimationRequest): (r: int)
    ensures FigureValue(LeadingAmount(content)).Some? ==> r == FigureValue(LeadingAmount(content)).value
    ensures FigureValue(LeadingAmount(content)).None? ==> r == FallbackCost(req)
  {
    FigureOr(LeadingAmount(content), FallbackCost(req))
  }

  /** One part of the breakdown, corrected: the figure after the part's label
      (`label s? [:\s]* \$? [\d,]+`), or the rounded `pct` share of the cost
      when the label carries no figure with a digit in it. */
  function PartOr(content: string, key: string, plural: bool, cost: int, pct: real): (r: int)
    ensures var f := FigureValue(LabelledFigure(content, key, plural, true, true));
      && (f.Some? ==> r == f.value)
      && (f.None? ==> r == Share(cost, pct))
  {
    FigureOr(LabelledFigure(content, key, plural, true, true), Share(cost, pct))
  }

  /** The cost breakdown read from a reply: "material(s)" or 47% of the cost,
      "labor" or 33%, "equipment" or 12%, "overhead" or 8%. */
  function ParseBreakdown(content: string, cost: int): (r: CostBreakdown)
    ensures var f := FigureValue(LabelledFigure(content, "material", true, true, true));
      (f.Some? ==> r.materials == f.value) && (f.None? ==> r.materials == Share(cost, 0.47))
    ensures var f := FigureValue(LabelledFigure(content, "labor", false, true, true));
      (f.Some? ==> r.labor == f.value) && (f.None? ==> r.labor == Share(cost, 0.33))
    ensures var f := FigureValue(LabelledFigure(content, "equipment", false, true, true));
      (f.Some? ==> r.equipment == f.value) && (f.None? ==> r.equipment == Share(cost, 0.12))
    ensures var f := FigureValue(LabelledFigure(content, "overhead", false, true, true));
      (f.Some? ==> r.overhead == f.value) && (f.None? ==> r.overhead == Share(cost, 0.08))
  {
    CostBreakdown(
      PartOr(content, "material", true, cost, 0.47),
      PartOr(content, "labor", false, cost, 0.33),
      PartOr(content, "equipment", false, cost, 0.12),
      PartOr(content, "overhead", false, cost, 0.08))
  }

  /** `parseEstimationResponse`, with comma-only captures corrected (a capture
      holding no digit counts as no figure):
      - cost: the first `$`-optional run of digits and commas in the reply,
        else the fallback cost;
      - each part: the figure after its label, else the rounded share of the
        cost;
      - timeline: the count before "day", else the fallback timeline;
      - confidence: the count before "confidence" (an optional `%` between),
        not clamped, else 85;
      - the three lists: read from their sections. */
  function ParseEstimation(content: string, req: EstimationRequest): (r: EstimationResponse)
    ensures r.estimatedCost == ParseCost(content, req)
    ensures r.costBreakdown == ParseBreakdown(content, r.estimatedCost)
    ensures CountedWord(content, "day", false).None? ==> r.timeline == FallbackTimeline(req)
    ensures CountedWord(content, "day", false).Some? ==> r.timeline == DigitsValue(CountedWord(content, "day", false).value)
    ensures CountedWord(content, "confidence", true).None? ==> r.confidence == 85
    ensures CountedWord(content, "confidence", true).Some? ==> r.confidence == DigitsValue(CountedWord(content, "confidence", true).value)
    ensures r.assumptions == ExtractAssumptions(content)
    ensures r.recommendations == ExtractRecommendations(content)
    ensures r.risks == ExtractRisks(content)
  {
    var cost := ParseCost(content, req);
    EstimationResponse(
      cost,
      ParseBreakdown(content, cost),
      CountOr(CountedWord(content, "day", false), FallbackTimeline(req)),
      CountOr(CountedWord(content, "confidence", true), 85),
      ExtractAssumptions(content),
      ExtractRecommendations(content),
      ExtractRisks(content))
  }

  /** A reply without a single digit or comma yields the fallback figures,
      with the parse path's default confidence of 85 instead of 75. */
  lemma DigitFreeReply(content: string, req: EstimationRequest)
    requires forall k :: 0 <= k < |content| ==> !IsDigitOrComma(content[k])
    ensures var r := ParseEstimation(content, req);
      && r.estimatedCost == FallbackCost(req)
      && r.costBreakdown == DerivedBreakdown(FallbackCost(req))
      && r.timeline == FallbackTimeline(req)
      && r.confidence == 85
  {
    LeadingAmountNone(content);
    NoFigureWithoutDigits(content, "material", true, true, true);
    NoFigureWithoutDigits(content, "labor", false, true, true);
    NoFigureWithoutDigits(content, "equipment", false, true, true);
    NoFigureWithoutDigits(content, "overhead", false, true, true);
    NoCountWithoutDigits(content, "day", false);
    NoCountWithoutDigits(content, "confidence", true);
  }

  /** The word "confidence" starts at index 5 of "150% confidence". */
  lemma ConfidenceWordAt(text: string)
    requires text == "150% confidence"
    ensures MatchesAt(text, 5, "confidence")
  {
    var word := "confidence";
    forall k | 0 <= k < |word|
      ensures word[k] != '_' && LowerChar(text[5 + k]) == word[k]
    {
    }
    MatchEndLetters(text, 5, word);
  }

  /** "150% confidence" holds the count 150 before "confidence". */
  lemma CountedConfidence(text: string)
    requires text == "150% confidence"
    ensures CountedWord(text, "confidence", true) == Some("150")
  {
    assert IsDigit(text[0]) && IsDigit(text[1]) && IsDigit(text[2]) && !IsDigit(text[3]);
    assert SkipWhile(text, 0, IsDigit) == 3;
    assert text[0..3] == "150";
    assert RunAt(text, 0, IsDigit) == Some("150");
    assert IsSpace(text[4]) && !IsSpace(text[5]);
    assert SkipWhile(text, 4, IsSpace) == 5;
    ConfidenceWordAt(text);
    assert CountedAt(text, 0, "confidence", true) == Some("150");
  }

  /** The parsed confidence is taken as written, never clamped to 100. */
  lemma ConfidenceNotClamped(content: string, req: EstimationRequest)
    requires content == "150% confidence"
    ensures ParseEstimation(content, req).confidence == 150
  {
    CountedConfidence(content);
    assert DigitsValue("150") == 150 by {
      assert "150"[..2] == "15";
      assert "15"[..1] == "1";
      assert "1"[..0] == "";
    }
  }

  /** `parseInt(costMatch[1].replace(/,/g, ""))` as the service computes the
      cost: `NaN` when the leading match captured only commas. */
  function ParseCostAsWritten(content: string, req: EstimationRequest): (r: JsNumber)
    ensures LeadingAmount(content).None? ==> r == Num(FallbackCost(req))
    ensures r.NaN? <==> LeadingAmount(content).Some? && forall k :: 0 <= k < |LeadingAmount(content).value| ==> LeadingAmount(content).value[k] == ','
  {
    match LeadingAmount(content)
    case None => Num(FallbackCost(req))
    case Some(run) => ParseRunAsWritten(run)
  }

  /** The leading-amount pattern is unanchored, so a comma in the prose before
      any figure is captured on its own and the service's cost becomes `NaN`. */
  lemma CommaBeforeFigure(text: string, req: EstimationRequest)
    requires text == "Costs, about $5"
    ensures ParseCostAsWritten(text, req) == NaN
    ensures ParseEstimation(text, req).estimatedCost == FallbackCost(req)
  {
    CommaLeads(text);
    assert ParseRunAsWritten(",") == NaN;
  }

  /** The leftmost amount of "Costs, about $5" is the lone comma. */
  lemma CommaLeads(text: string)
    requires text == "Costs, about $5"
    ensures LeadingAmount(text) == Some(",")
  {
    forall q | 0 <= q < 5
      ensures AmountAt(text, q).None?
    {
      assert SkipWhile(text, q, IsDigitOrComma) == q;
    }
    assert SkipWhile(text, 5, IsDigitOrComma) == 6;
    assert text[5..6] == ",";
    assert AmountAt(text, 5) == Some(",");
    LeadingAmountLeftmost(text);
  }

  /** The corrected reading agrees with the service wherever the service yields
      a number, and falls back to the table cost exactly where it yields `NaN`. */
  lemma CorrectedCostAgrees(content: string, req: EstimationRequest)
    ensures ParseCostAsWritten(content, req).Num? ==>
      ParseEstimation(content, req).estimatedCost == ParseCostAsWritten(content, req).n
    ensures ParseCostAsWritten(content, req).NaN? ==>
      ParseEstimation(content, req).estimatedCost == FallbackCost(req)
  {
  }

  /** One part of the breakdown as the service computes it: `parseInt` of the
      labelled capture with its commas dropped, `NaN` when the capture held
      only commas; without a capture, `Math.round(cost * pct)`, which is `NaN`
      when the cost is. */
  function PartAsWritten(content: string, key: string, plural: bool, cost: JsNumber, pct: real): (r: JsNumber)
    ensures var c := LabelledFigure(content, key, plural, true, true);
      r.NaN? <==> (c.Some? && forall k :: 0 <= k < |c.value| ==> c.value[k] == ',') || (c.None? && cost.NaN?)
    ensures LabelledFigure(content, key, plural, true, true).None? && cost.Num? ==> r == Num(Share(cost.n, pct))
  {
    match LabelledFigure(content, key, plural, true, true)
    case Some(run) => ParseRunAsWritten(run)
    case None => if cost.NaN? then NaN else Num(Share(cost.n, pct))
  }

  /** In "Materials, 5" the materials pattern matches at the start and its
      unanchored run captures the comma alone, so the service's materials part
      is `NaN`; the corrected part is the share of the cost. */
  lemma MaterialsCommaCapture(text: string, cost: int)
    requires text == "Materials, 5"
    ensures PartAsWritten(text, "material", true, Num(cost), 0.47) == NaN
    ensures PartOr(text, "material", true, cost, 0.47) == Share(cost, 0.47)
  {
    MaterialsCapture(text, "material");
    assert ParseRunAsWritten(",") == NaN;
  }

  /** The leftmost match of the materials pattern in "Materials, 5" is at the
      start, and its run is the comma. */
  lemma MaterialsCapture(text: string, key: string)
    requires text == "Materials, 5" && key == "material"
    ensures LabelledFigure(text, key, true, true, true) == Some(",")
  {
    forall k | 0 <= k < |key|
      ensures key[k] != '_' && LowerChar(text[k]) == key[k]
    {
    }
    MatchEndLetters(text, 0, key);
    assert Optional(text, 8, 's') == 9;
    assert SkipWhile(text, 9, IsSeparator) == 9;
    assert SkipWhile(text, 9, IsDigitOrComma) == 10;
    assert text[9..10] == ",";
    assert LabelledAt(text, 0, key, true, true, true) == Some(",");
  }

  /** The corrected part agrees with the service's wherever the service yields a
      number for it, given the same cost. */
  lemma CorrectedPartAgrees(content: string, key: string, plural: bool, cost: int, pct: real)
    ensures PartAsWritten(content, key, plural, Num(cost), pct).Num? ==>
      PartOr(content, key, plural, cost, pct) == PartAsWritten(content, key, plural, Num(cost), pct).n
  {
  }

  /** `generateEstimation`: the reply is parsed; a failed call falls back to
      the rule-based estimate. Either way every list is non-empty. */
  function GenerateEstimation(req: EstimationRequest, reply: Reply): (r: EstimationResponse)
    ensures reply.CallFailed? ==> r == FallbackEstimation(req) && r.confidence == 75
    ensures reply.Replied? ==> r == ParseEstimation(reply.content, req)
    ensures 0 < |r.assumptions| <= 6 && 0 < |r.recommendations| <= 5 && 0 < |r.risks| <= 5
  {
    match reply
    case CallFailed => FallbackEstimation(req)
    case Replied(content) => ParseEstimation(content, req)
  }

  // ---------------------------------------------------------------------------
  // Market conditions, materials and workforce

  /** The fields the market analysis reads from the parsed reply. */
  datatype MarketJson = MarketJson(
    materialCostMultiplier: Option<real>,
    laborCostMultiplier: Option<real>,
    marketInsights: Option<seq<string>>)

  datatype MarketConditions = MarketConditions(
    materialCostMultiplier: real,
    laborCostMultiplier: real,
    marketInsights: seq<string>)

  /** `analyzeMarketConditions`: the parsed multipliers, each defaulting to
      1.0 when missing or zero; a failed call or unparsable reply yields
      neutral multipliers and a one-line note saying which. */
  function AnalyzeMarketConditions(reply: Parsed<MarketJson>): (r: MarketConditions)
    ensures r.materialCostMultiplier != 0.0 && r.laborCostMultiplier != 0.0
    ensures !reply.Decoded? ==> r.materialCostMultiplier == 1.0 && r.laborCostMultiplier == 1.0
    ensures reply.RequestFailed? ==> r.marketInsights == ["Market analysis unavailable"]
    ensures reply.Unparsable? ==> r.marketInsights == ["Unable to parse market analysis"]
    ensures reply.Decoded? ==> NumberOr(reply.value.materialCostMultiplier, 1.0, r.materialCostMultiplier)
    ensures reply.Decoded? ==> NumberOr(reply.value.laborCostMultiplier, 1.0, r.laborCostMultiplier)
    ensures reply.Decoded? ==> Spread(reply.value.marketInsights, ["Market analysis unavailable"], r.marketInsights)
  {
    match reply
    case RequestFailed => MarketConditions(1.0, 1.0, ["Market analysis unavailable"])
    case Unparsable => MarketConditions(1.0, 1.0, ["Unable to parse market analysis"])
    case Decoded(j) =>
      MarketConditions(
        OrNumber(j.materialCostMultiplier, 1.0),
        OrNumber(j.laborCostMultiplier, 1.0),
        OrValue(j.marketInsights, ["Market analysis unavailable"]))
  }

  /** `material_${index}` / `workforce_${index}`. */
  function IndexedId(prefix: string, index: nat): (r: string)
    ensures |r| > |prefix| && r[..|prefix|] == prefix
  {
    prefix + DecimalString(index)
  }

  /** Ids built from the same prefix and different indices differ. */
  lemma IndexedIdInjective(prefix: string, i: nat, j: nat)
    requires IndexedId(prefix, i) == IndexedId(prefix, j)
    ensures i == j
  {
    var a := IndexedId(prefix, i);
    assert a[|prefix|..] == DecimalString(i);
    assert IndexedId(prefix, j)[|prefix|..] == DecimalString(j);
    DecimalInjective(i, j);
  }

  /** One row of the fallback material table. */
  datatype BaseMaterial = BaseMaterial(name: string, category: MaterialCategory, unit: string, basePrice: real)

  const BaseMaterials: seq<BaseMaterial> := [
    BaseMaterial("Concrete", Concrete, "cubic yard", 120.0),
    BaseMaterial("Rebar", Steel, "ton", 800.0),
    BaseMaterial("Lumber", Lumber, "board foot", 2.5),
    BaseMaterial("Electrical Wire", Electrical, "linear foot", 1.2),
    BaseMaterial("PVC Pipe", Plumbing, "linear foot", 3.5),
    BaseMaterial("Roofing Shingles", Roofing, "square", 150.0)
  ]

  /** The two `Math.random()` draws a fallback material consumes, in order:
      the price jitter, then the lead time. */
  datatype MaterialDraw = MaterialDraw(price: real, lead: real)

  predicate ValidDraw(d: MaterialDraw) {
    0.0 <= d.price < 1.0 && 0.0 <= d.lead < 1.0
  }

  /** One fallback material: the base price jittered by -10% to +10%, and a
      lead time of 7 plus up to 13 days. */
  function FallbackMaterial(index: nat, m: BaseMaterial, d: MaterialDraw): (r: Material)
    requires ValidDraw(d) && m.basePrice > 0.0
    ensures r.id == IndexedId("material_", index) && r.name == m.name && r.basePrice == m.basePrice
    ensures 0.9 * m.basePrice <= r.currentPrice < 1.1 * m.basePrice
    ensures 7 <= r.leadTime <= 20
    ensures r.availability == Available && r.priceHistory == [] && r.supplier.None?
  {
    var lead := (d.lead * 14.0).Floor;
    assert 0 <= lead <= 13;
    assert m.basePrice * (0.9 + d.price * 0.2) < 1.1 * m.basePrice by {
      assert d.price * 0.2 < 0.2;
    }
    Material(
      IndexedId("material_", index), m.name, m.category, m.unit, m.basePrice,
      m.basePrice * (0.9 + d.price * 0.2), None, Available, 7 + lead, [])
  }

  /** `generateFallbackMaterialList`: the six base materials, in order, each
      priced within 10% of its base price and available in 7 to 20 days. */
  function FallbackMaterials(draws: seq<MaterialDraw>): (r: seq<Material>)
    requires |draws| == |BaseMaterials|
    requires forall k :: 0 <= k < |draws| ==> ValidDraw(draws[k])
    ensures |r| == 6
    ensures forall k :: 0 <= k < 6 ==>
      && r[k].id == IndexedId("material_", k)
      && r[k].name == BaseMaterials[k].name
      && 0.9 * BaseMaterials[k].basePrice <= r[k].currentPrice < 1.1 * BaseMaterials[k].basePrice
      && 7 <= r[k].leadTime <= 20
  {
    seq(6, k requires 0 <= k < 6 => FallbackMaterial(k, BaseMaterials[k], draws[k]))
  }

  /** The fields `generateMaterialList` reads from each parsed item. The
      category is kept only when it names a known category. */
  datatype MaterialJson = MaterialJson(
    name: Option<string>,
    category: Option<MaterialCategory>,
    unit: Option<string>,
    basePrice: Option<real>,
    currentPrice: Option<real>,
    supplier: Option<string>,
    leadTime: Option<int>)

  /** One parsed material with its `||` defaults. */
  function MaterialFromJson(index: nat, m: MaterialJson): (r: Material)
    ensures r.id == IndexedId("material_", index)
    ensures r.name != [] && r.unit != [] && r.leadTime != 0
    ensures m.currentPrice.None? && m.basePrice.Some? ==> r.currentPrice == r.basePrice
    ensures r.availability == Available && r.priceHistory == []
    ensures TextOr(m.name, "Unknown Material", r.name) && TextOr(m.unit, "unit", r.unit)
    ensures Spread(m.category, OtherMaterial, r.category)
    ensures NumberOr(m.basePrice, 0.0, r.basePrice) && NumberOr(m.currentPrice, r.basePrice, r.currentPrice)
    ensures r.supplier == m.supplier && WholeOr(m.leadTime, 7, r.leadTime)
  {
    Material(
      IndexedId("material_", index),
      OrText(m.name, "Unknown Material"),
      OrValue(m.category, OtherMaterial),
      OrText(m.unit, "unit"),
      OrNumber(m.basePrice, 0.0),
      OrNumber(m.currentPrice, OrNumber(m.basePrice, 0.0)),
      m.supplier,
      Available,
      OrWhole(m.leadTime, 7),
      [])
  }

  /** `generateMaterialList`: the parsed list, mapped item by item; a failed
      call or unparsable reply falls back to the six base materials. */
  function GenerateMaterialList(reply: Parsed<seq<MaterialJson>>, draws: seq<MaterialDraw>): (r: seq<Material>)
    requires |draws| == |BaseMaterials|
    requires forall k :: 0 <= k < |draws| ==> ValidDraw(draws[k])
    ensures !reply.Decoded? ==> r == FallbackMaterials(draws)
    ensures reply.Decoded? ==> |r| == |reply.value|
    ensures reply.Decoded? ==> forall k :: 0 <= k < |r| ==> r[k] == MaterialFromJson(k, reply.value[k])
    ensures forall k :: 0 <= k < |r| ==> r[k].id == IndexedId("material_", k)
  {
    match reply
    case Decoded(items) => seq(|items|, k requires 0 <= k < |items| => MaterialFromJson(k, items[k]))
    case _ => FallbackMaterials(draws)
  }

  /** A material as a reply spells it out. */
  function MaterialAsJson(m: Material): MaterialJson {
    MaterialJson(Some(m.name), Some(m.category), Some(m.unit), Some(m.basePrice), Some(m.currentPrice),
                 m.supplier, Some(m.leadTime))
  }

  /** A material the parsed branch can produce at position `k`: its id is
      `material_k`, no field is one `||` would replace, and it is available
      with no price history. */
  predicate ReadableMaterial(k: nat, m: Material) {
    && m.id == IndexedId("material_", k)
    && m.name != [] && m.unit != [] && m.basePrice != 0.0 && m.currentPrice != 0.0 && m.leadTime != 0
    && m.availability == Available && m.priceHistory == []
  }

  /** Spelling a list of such materials out as a reply and generating the
      list from it gives the list back. */
  lemma MaterialListRoundTrip(ms: seq<Material>, draws: seq<MaterialDraw>)
    requires |draws| == |BaseMaterials|
    requires forall k :: 0 <= k < |draws| ==> ValidDraw(draws[k])
    requires forall k :: 0 <= k < |ms| ==> ReadableMaterial(k, ms[k])
    ensures GenerateMaterialList(Decoded(seq(|ms|, k requires 0 <= k < |ms| => MaterialAsJson(ms[k]))), draws) == ms
  {
    var items := seq(|ms|, k requires 0 <= k < |ms| => MaterialAsJson(ms[k]));
    var r := GenerateMaterialList(Decoded(items), draws);
    forall k | 0 <= k < |ms| ensures r[k] == ms[k] {
      assert r[k] == MaterialFromJson(k, items[k]);
    }
  }

  /** Material ids are pairwise distinct. */
  lemma MaterialIdsDistinct(reply: Parsed<seq<MaterialJson>>, draws: seq<MaterialDraw>, i: nat, j: nat)
    requires |draws| == |BaseMaterials|
    requires forall k :: 0 <= k < |draws| ==> ValidDraw(draws[k])
    requires i < j < |GenerateMaterialList(reply, draws)|
    ensures GenerateMaterialList(reply, draws)[i].id != GenerateMaterialList(reply, draws)[j].id
  {
    if IndexedId("material_", i) == IndexedId("material_", j) {
      IndexedIdInjective("material_", i, j);
    }
  }

  /** One row of the fallback workforce table. */
  datatype BaseWorker = BaseWorker(skillType: SkillType, requiredCount: int, duration: int, hourlyRate: real)

  const BaseWorkforce: seq<BaseWorker> := [
    BaseWorker(GeneralLabor, 4, 60, 25.0),
    BaseWorker(Carpenter, 2, 45, 35.0),
    BaseWorker(Electrician, 1, 20, 45.0),
    BaseWorker(Plumber, 1, 15, 42.0)
  ]

  /** `generateFallbackWorkforceRequirements`: the four fixed crews for the
      placeholder project "temp", eight workers in all. */
  function FallbackWorkforce(): (r: seq<WorkforceRequirement>)
    ensures |r| == 4
    ensures forall k :: 0 <= k < 4 ==>
      && r[k].id == IndexedId("workforce_", k)
      && r[k].projectId == "temp"
      && r[k].skillType == BaseWorkforce[k].skillType
      && r[k].requiredCount == BaseWorkforce[k].requiredCount
      && r[k].availability == Available
    ensures r[0].requiredCount + r[1].requiredCount + r[2].requiredCount + r[3].requiredCount == 8
  {
    seq(4, k requires 0 <= k < 4 =>
      var w := BaseWorkforce[k];
      WorkforceRequirement(IndexedId("workforce_", k), "temp", w.skillType, w.requiredCount, w.duration, w.hourlyRate, Available))
  }

  /** The fields `generateWorkforceRequirements` reads from each parsed item. */
  datatype WorkforceJson = WorkforceJson(
    skillType: Option<SkillType>,
    requiredCount: Option<int>,
    duration: Option<int>,
    hourlyRate: Option<real>,
    availability: Option<AvailabilityStatus>)

  /** One parsed crew with its `||` defaults: general labour, one worker,
      30 days, 25 an hour, available. */
  function WorkforceFromJson(index: nat, w: WorkforceJson): (r: WorkforceRequirement)
    ensures r.id == IndexedId("workforce_", index) && r.projectId == "temp"
    ensures r.requiredCount != 0 && r.duration != 0 && r.hourlyRate != 0.0
    ensures Spread(w.skillType, GeneralLabor, r.skillType) && WholeOr(w.requiredCount, 1, r.requiredCount)
    ensures WholeOr(w.duration, 30, r.duration) && NumberOr(w.hourlyRate, 25.0, r.hourlyRate)
    ensures Spread(w.availability, Available, r.availability)
  {
    WorkforceRequirement(
      IndexedId("workforce_", index),
      "temp",
      OrValue(w.skillType, GeneralLabor),
      OrWhole(w.requiredCount, 1),
      OrWhole(w.duration, 30),
      OrNumber(w.hourlyRate, 25.0),
      OrValue(w.availability, Available))
  }

  /** `generateWorkforceRequirements`: the parsed crews, or the fixed four. */
  function GenerateWorkforce(reply: Parsed<seq<WorkforceJson>>): (r: seq<WorkforceRequirement>)
    ensures !reply.Decoded? ==> r == FallbackWorkforce()
    ensures reply.Decoded? ==> |r| == |reply.value|
    ensures reply.Decoded? ==> forall k :: 0 <= k < |r| ==> r[k] == WorkforceFromJson(k, reply.value[k])
    ensures forall k :: 0 <= k < |r| ==> r[k].projectId == "temp" && r[k].requiredCount != 0
  {
    match reply
    case Decoded(items) => seq(|items|, k requires 0 <= k < |items| => WorkforceFromJson(k, items[k]))
    case _ => FallbackWorkforce()
  }

  /** A crew as a reply spells it out. */
  function WorkforceAsJson(w: WorkforceRequirement): WorkforceJson {
    WorkforceJson(Some(w.skillType), Some(w.requiredCount), Some(w.duration), Some(w.hourlyRate), Some(w.availability))
  }

  /** A crew the parsed branch can produce at position `k`: its id is
      `workforce_k`, it belongs to "temp", and no figure is one `||` would
      replace. */
  predicate ReadableCrew(k: nat, w: WorkforceRequirement) {
    && w.id == IndexedId("workforce_", k) && w.projectId == "temp"
    && w.requiredCount != 0 && w.duration != 0 && w.hourlyRate != 0.0
  }

  /** Spelling a list of such crews out as a reply and generating the
      requirements from it gives the list back. */
  lemma WorkforceRoundTrip(ws: seq<WorkforceRequirement>)
    requires forall k :: 0 <= k < |ws| ==> ReadableCrew(k, ws[k])
    ensures GenerateWorkforce(Decoded(seq(|ws|, k requires 0 <= k < |ws| => WorkforceAsJson(ws[k])))) == ws
  {
    var items := seq(|ws|, k requires 0 <= k < |ws| => WorkforceAsJson(ws[k]));
    var r := GenerateWorkforce(Decoded(items));
    forall k | 0 <= k < |ws| ensures r[k] == ws[k] {
      assert r[k] == WorkforceFromJson(k, items[k]);
    }
  }
}
