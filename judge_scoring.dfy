/**
 * The rule-based scoring engine of aiJudge.js (`calculateScores` and its
 * helpers): two factor-by-factor scores clamped to [20, 95], a six-tier
 * verdict ladder, an investor signal, strengths and next steps.
 */
module JudgeScoring {
  import opened Text
  import opened Seqs
  import opened JudgeTypes
  import JudgeResearch
  import LocalScorer
  import Assembler

  type Strength = LocalScorer.Strength
  type NextStep = LocalScorer.NextStep
  type ScoreSection = Assembler.ScoreSection
  type Rating = Assembler.Rating
  type Summary = Assembler.Summary

  /** What one scoring factor contributes: the points added and the reasons and improvements pushed. */
  datatype Factor = Factor(points: int, reasons: seq<string>, improvements: seq<string>)

  /** `reasons.slice(0, 3).join('. ') + '.'` and `improvements.slice(0, 2).join('. ') || fallback`, around the clamped score. */
  function Section(score: int, reasons: seq<string>, improvements: seq<string>, fallback: string): ScoreSection {
    Assembler.ScoreSection(LocalScorer.Clamp(20, 95, score), Join(Take(reasons, 3), ". ") + ".",
                           LocalScorer.Or(Join(Take(improvements, 2), ". "), fallback))
  }

  // The reasons and improvements the factors push.
  const AI_REASON := "AI/ML integration adds strong innovation factor"
  const DIFFERENTIATION_REASON := "Clear differentiation claimed"
  const INCREMENTAL_REASON := "Incremental improvement over existing solutions"
  const USP_IMPROVEMENT := "Articulate a clearer unique selling proposition"
  const QUANTIFIED_REASON := "Well-defined problem with quantified impact"
  const CLEAR_PROBLEM_REASON := "Clear problem statement"
  const QUANTIFY_IMPROVEMENT := "Quantify the problem with specific metrics"
  const PROTOTYPE_REASON := "Working prototype demonstrated"
  const PROGRESS_REASON := "Technical progress shown"
  const LINKS_IMPROVEMENT := "Add GitHub repo or demo video to boost credibility"
  const NICHE_IMPROVEMENT := "Focus on a specific niche to differentiate"
  const MODERATE_REASON := "Moderate competition in the space"
  const LIMITED_REASON := "Limited direct competition identified"
  const IDEA_IMPROVEMENT := "Expand your core idea description"
  const AUDIENCE_REASON := "Well-defined target audience"
  const TARGET_REASON := "Clear target market identified"
  const AUDIENCE_IMPROVEMENT := "Be more specific about your target customer"
  const PRICING_REASON := "Clear monetization strategy with pricing"
  const REVENUE_REASON := "Viable revenue model identified"
  const PRICING_IMPROVEMENT := "Define specific pricing and revenue model"
  const LARGE_MARKET_REASON := "Large addressable market claimed"
  const MARKET_SIZE_REASON := "Reasonable market size"
  const TAM_IMPROVEMENT := "Research and include TAM/SAM estimates"
  const TEAM_REASON := "Experienced team background"
  const TEAM_IMPROVEMENT := "Highlight team experience and domain expertise"
  const GROWTH_REASON := "Market showing positive growth trends"
  const PIVOT_IMPROVEMENT := "Consider pivoting to growing market segments"

  // ----- calculateInnovationScore -----

  /** Factor 1: the competitive advantage's claims, first match wins. */
  function AdvantageFactor(competitiveAdvantage: string): (f: Factor)
    ensures 3 <= f.points <= 15
  {
    var a := LowerStr(competitiveAdvantage);
    if Contains(a, "ai") || Contains(a, "machine learning") || Contains(a, "ml") then
      Factor(15, [AI_REASON], [])
    else if Contains(a, "unique") || Contains(a, "first") || Contains(a, "only") then
      Factor(12, [DIFFERENTIATION_REASON], [])
    else if Contains(a, "better") || Contains(a, "faster") || Contains(a, "cheaper") then
      Factor(8, [INCREMENTAL_REASON], [])
    else
      Factor(3, [], [USP_IMPROVEMENT])
  }

  /** Factor 2: problem clarity; "quantified" means "hours", "$" or "%" in a statement over 100 characters. */
  function ProblemFactor(problem: string): (f: Factor)
    ensures 5 <= f.points <= 15
  {
    if JsLength(problem) > 100 && (Contains(problem, "hours") || Contains(problem, "$") || Contains(problem, "%")) then
      Factor(15, [QUANTIFIED_REASON], [])
    else if JsLength(problem) > 50 then
      Factor(10, [CLEAR_PROBLEM_REASON], [])
    else
      Factor(5, [], [QUANTIFY_IMPROVEMENT])
  }

  /** Factor 3: a link counts when it is longer than 10 characters. */
  function TechnicalFactor(githubLink: string, demoVideoLink: string): (f: Factor)
    ensures 0 <= f.points <= 10
  {
    var hasGithub := JsLength(githubLink) > 10;
    var hasDemo := JsLength(demoVideoLink) > 10;
    if hasGithub && hasDemo then Factor(10, [PROTOTYPE_REASON], [])
    else if hasGithub || hasDemo then Factor(6, [PROGRESS_REASON], [])
    else Factor(0, [], [LINKS_IMPROVEMENT])
  }

  /** `Crowded market with ${competitorCount}+ established competitors` */
  function CrowdedReason(competitorCount: nat): string {
    "Crowded market with " + NatToString(competitorCount) + "+ established competitors"
  }

  /** Factor 4: the competition-density penalty. */
  function CompetitionFactor(competitorCount: nat): (f: Factor)
    ensures -10 <= f.points <= 5
  {
    if competitorCount >= 5 then
      Factor(-10, [CrowdedReason(competitorCount)],
             [NICHE_IMPROVEMENT])
    else if competitorCount >= 3 then
      Factor(-5, [MODERATE_REASON], [])
    else
      Factor(5, [LIMITED_REASON], [])
  }

  /** Factor 5: the length of the idea description. */
  function IdeaFactor(coreIdea: string): (f: Factor)
    ensures 0 <= f.points <= 8
  {
    if 80 < JsLength(coreIdea) <= 150 then Factor(8, [], [])
    else if JsLength(coreIdea) > 40 then Factor(5, [], [])
    else Factor(0, [], [IDEA_IMPROVEMENT])
  }

  const INNOVATION_FALLBACK := "Continue building and iterating on your unique approach."

  /** The innovation section: base 50 plus the five factors, in factor order. */
  function InnovationOf(p: Project, r: Research): ScoreSection {
    var f1 := AdvantageFactor(p.competitiveAdvantage);
    var f2 := ProblemFactor(p.problemStatement);
    var f3 := TechnicalFactor(p.githubLink, p.demoVideoLink);
    var f4 := CompetitionFactor(|r.competitorsFound|);
    var f5 := IdeaFactor(p.coreIdea);
    Section(50 + f1.points + f2.points + f3.points + f4.points + f5.points,
            f1.reasons + f2.reasons + f3.reasons + f4.reasons + f5.reasons,
            f1.improvements + f2.improvements + f3.improvements + f4.improvements + f5.improvements,
            INNOVATION_FALLBACK)
  }

  /** Factor 1 of `calculateInnovationScore`: its branches update the three accumulators. */
  method ScoreAdvantage(score0: int, reasons0: seq<string>, improvements0: seq<string>, competitiveAdvantage: string)
    returns (score: int, reasons: seq<string>, improvements: seq<string>)
    ensures var f := AdvantageFactor(competitiveAdvantage);
      score == score0 + f.points && reasons == reasons0 + f.reasons && improvements == improvements0 + f.improvements
  {
    score, reasons, improvements := score0, reasons0, improvements0;
    var advantage := LowerStr(competitiveAdvantage);
    if Contains(advantage, "ai") || Contains(advantage, "machine learning") || Contains(advantage, "ml") {
      score := score + 15;
      reasons := reasons + [AI_REASON];
    } else if Contains(advantage, "unique") || Contains(advantage, "first") || Contains(advantage, "only") {
      score := score + 12;
      reasons := reasons + [DIFFERENTIATION_REASON];
    } else if Contains(advantage, "better") || Contains(advantage, "faster") || Contains(advantage, "cheaper") {
      score := score + 8;
      reasons := reasons + [INCREMENTAL_REASON];
    } else {
      score := score + 3;
      improvements := improvements + [USP_IMPROVEMENT];
    }
  }

  /** Factor 2 of `calculateInnovationScore`: its branches update the three accumulators. */
  method ScoreProblem(score0: int, reasons0: seq<string>, improvements0: seq<string>, problemStatement: string)
    returns (score: int, reasons: seq<string>, improvements: seq<string>)
    ensures var f := ProblemFactor(problemStatement);
      score == score0 + f.points && reasons == reasons0 + f.reasons && improvements == improvements0 + f.improvements
  {
    score, reasons, improvements := score0, reasons0, improvements0;
    var problem := problemStatement;
    if JsLength(problem) > 100 && (Contains(problem, "hours") || Contains(problem, "$") || Contains(problem, "%")) {
      score := score + 15;
      reasons := reasons + [QUANTIFIED_REASON];
    } else if JsLength(problem) > 50 {
      score := score + 10;
      reasons := reasons + [CLEAR_PROBLEM_REASON];
    } else {
      score := score + 5;
      improvements := improvements + [QUANTIFY_IMPROVEMENT];
    }
  }

  /** Factor 3 of `calculateInnovationScore`: its branches update the three accumulators. */
  method ScoreTechnical(score0: int, reasons0: seq<string>, improvements0: seq<string>, githubLink: string, demoVideoLink: string)
    returns (score: int, reasons: seq<string>, improvements: seq<string>)
    ensures var f := TechnicalFactor(githubLink, demoVideoLink);
      score == score0 + f.points && reasons == reasons0 + f.reasons && improvements == improvements0 + f.improvements
  {
    score, reasons, improvements := score0, reasons0, improvements0;
    var hasGithub := JsLength(githubLink) > 10;
    var hasDemo := JsLength(demoVideoLink) > 10;
    if hasGithub && hasDemo {
      score := score + 10;
      reasons := reasons + [PROTOTYPE_REASON];
    } else if hasGithub || hasDemo {
      score := score + 6;
      reasons := reasons + [PROGRESS_REASON];
    } else {
      improvements := improvements + [LINKS_IMPROVEMENT];
    }
  }

  /** Factor 4 of `calculateInnovationScore`: its branches update the three accumulators. */
  method ScoreCompetition(score0: int, reasons0: seq<string>, improvements0: seq<string>, competitorCount: nat)
    returns (score: int, reasons: seq<string>, improvements: seq<string>)
    ensures var f := CompetitionFactor(competitorCount);
      score == score0 + f.points && reasons == reasons0 + f.reasons && improvements == improvements0 + f.improvements
  {
    score, reasons, improvements := score0, reasons0, improvements0;
    if competitorCount >= 5 {
      score := score - 10;
      reasons := reasons + [CrowdedReason(competitorCount)];
      improvements := improvements + [NICHE_IMPROVEMENT];
    } else if competitorCount >= 3 {
      score := score - 5;
      reasons := reasons + [MODERATE_REASON];
    } else {
      score := score + 5;
      reasons := reasons + [LIMITED_REASON];
    }
  }

  /** Factor 5 of `calculateInnovationScore`: its branches update the three accumulators. */
  method ScoreIdea(score0: int, reasons0: seq<string>, improvements0: seq<string>, coreIdea: string)
    returns (score: int, reasons: seq<string>, improvements: seq<string>)
    ensures var f := IdeaFactor(coreIdea);
      score == score0 + f.points && reasons == reasons0 + f.reasons && improvements == improvements0 + f.improvements
  {
    score, reasons, improvements := score0, reasons0, improvements0;
    var idea := coreIdea;
    if JsLength(idea) > 80 && JsLength(idea) <= 150 {
      score := score + 8;
    } else if JsLength(idea) > 40 {
      score := score + 5;
    } else {
      improvements := improvements + [IDEA_IMPROVEMENT];
    }
  }

  /** `calculateInnovationScore`: `score`, `reasons` and `improvements` updated factor by factor. */
  method CalculateInnovationScore(p: Project, r: Research) returns (s: ScoreSection)
    ensures s == InnovationOf(p, r)
    ensures 48 <= s.score <= 95
  {
    var score := 50;
    var reasons: seq<string> := [];
    var improvements: seq<string> := [];
    score, reasons, improvements := ScoreAdvantage(score, reasons, improvements, p.competitiveAdvantage);
    assert reasons == AdvantageFactor(p.competitiveAdvantage).reasons && improvements == AdvantageFactor(p.competitiveAdvantage).improvements;
    score, reasons, improvements := ScoreProblem(score, reasons, improvements, p.problemStatement);
    score, reasons, improvements := ScoreTechnical(score, reasons, improvements, p.githubLink, p.demoVideoLink);
    score, reasons, improvements := ScoreCompetition(score, reasons, improvements, |r.competitorsFound|);
    score, reasons, improvements := ScoreIdea(score, reasons, improvements, p.coreIdea);
    score := LocalScorer.Clamp(20, 95, score);
    s := Assembler.ScoreSection(score, Join(Take(reasons, 3), ". ") + ".",
                                LocalScorer.Or(Join(Take(improvements, 2), ". "), INNOVATION_FALLBACK));
  }


  // ----- calculateMarketScore -----

  /** Factor 1: the length of the target-audience description. */
  function AudienceFactor(targetAudience: string): (f: Factor)
    ensures 5 <= f.points <= 15
  {
    var audience := LowerStr(targetAudience);
    if JsLength(audience) > 100 then Factor(15, [AUDIENCE_REASON], [])
    else if JsLength(audience) > 50 then Factor(10, [TARGET_REASON], [])
    else Factor(5, [], [AUDIENCE_IMPROVEMENT])
  }

  /** Factor 2: the business model's revenue words, first match wins. */
  function RevenueFactor(businessModel: string): (f: Factor)
    ensures 3 <= f.points <= 18
  {
    var model := LowerStr(businessModel);
    if Contains(model, "$") || Contains(model, "subscription") || Contains(model, "saas") then
      Factor(18, [PRICING_REASON], [])
    else if Contains(model, "freemium") || Contains(model, "ads") || Contains(model, "commission") then
      Factor(12, [REVENUE_REASON], [])
    else if JsLength(model) > 20 then Factor(8, [], [])
    else Factor(3, [], [PRICING_IMPROVEMENT])
  }

  /** Factor 3: the claimed market size ("" when absent). */
  function MarketSizeFactor(marketSize: string): (f: Factor)
    ensures 0 <= f.points <= 15
  {
    var size := LowerStr(marketSize);
    if Contains(size, "b") || Contains(size, "billion") then Factor(15, [LARGE_MARKET_REASON], [])
    else if Contains(size, "m") || Contains(size, "million") then Factor(10, [MARKET_SIZE_REASON], [])
    else if JsLength(size) > 0 then Factor(7, [], [])
    else Factor(0, [], [TAM_IMPROVEMENT])
  }

  /** Factor 4: team experience ("" when absent). */
  function TeamFactor(teamExperience: string): (f: Factor)
    ensures 0 <= f.points <= 10
  {
    var team := LowerStr(teamExperience);
    if Contains(team, "year") || Contains(team, "founder") || Contains(team, "experience") then
      Factor(10, [TEAM_REASON], [])
    else if JsLength(team) > 30 then Factor(5, [], [])
    else Factor(0, [], [TEAM_IMPROVEMENT])
  }

  /** Factor 5: the market-trend bonus or penalty read from the research's growth message. */
  function TrendFactor(marketGrowth: string): (f: Factor)
    ensures -5 <= f.points <= 8
  {
    var trend := LowerStr(marketGrowth);
    if Contains(trend, "strong") || Contains(trend, "growing") || Contains(trend, "explosive") then
      Factor(8, [GROWTH_REASON], [])
    else if Contains(trend, "stable") then Factor(3, [], [])
    else if Contains(trend, "declin") || Contains(trend, "shrink") then
      Factor(-5, [], [PIVOT_IMPROVEMENT])
    else Factor(0, [], [])
  }

  const MARKET_FALLBACK := "Continue validating market demand through customer interviews."

  /** The market section: base 50 plus the five factors, in factor order. */
  function MarketOf(p: Project, r: Research): ScoreSection {
    var f1 := AudienceFactor(p.targetAudience);
    var f2 := RevenueFactor(p.businessModel);
    var f3 := MarketSizeFactor(p.marketSize);
    var f4 := TeamFactor(p.teamExperience);
    var f5 := TrendFactor(r.marketGrowth);
    Section(50 + f1.points + f2.points + f3.points + f4.points + f5.points,
            f1.reasons + f2.reasons + f3.reasons + f4.reasons + f5.reasons,
            f1.improvements + f2.improvements + f3.improvements + f4.improvements + f5.improvements,
            MARKET_FALLBACK)
  }

  /** Factor 1 of `calculateMarketScore`: its branches update the three accumulators. */
  method ScoreAudience(score0: int, reasons0: seq<string>, improvements0: seq<string>, targetAudience: string)
    returns (score: int, reasons: seq<string>, improvements: seq<string>)
    ensures var f := AudienceFactor(targetAudience);
      score == score0 + f.points && reasons == reasons0 + f.reasons && improvements == improvements0 + f.improvements
  {
    score, reasons, improvements := score0, reasons0, improvements0;
    var audience := LowerStr(targetAudience);
    if JsLength(audience) > 100 {
      score := score + 15;
      reasons := reasons + [AUDIENCE_REASON];
    } else if JsLength(audience) > 50 {
      score := score + 10;
      reasons := reasons + [TARGET_REASON];
    } else {
      score := score + 5;
      improvements := improvements + [AUDIENCE_IMPROVEMENT];
    }
  }

  /** Factor 2 of `calculateMarketScore`: its branches update the three accumulators. */
  method ScoreRevenue(score0: int, reasons0: seq<string>, improvements0: seq<string>, businessModel: string)
    returns (score: int, reasons: seq<string>, improvements: seq<string>)
    ensures var f := RevenueFactor(businessModel);
      score == score0 + f.points && reasons == reasons0 + f.reasons && improvements == improvements0 + f.improvements
  {
    score, reasons, improvements := score0, reasons0, improvements0;
    var model := LowerStr(businessModel);
    if Contains(model, "$") || Contains(model, "subscription") || Contains(model, "saas") {
      score := score + 18;
      reasons := reasons + [PRICING_REASON];
    } else if Contains(model, "freemium") || Contains(model, "ads") || Contains(model, "commission") {
      score := score + 12;
      reasons := reasons + [REVENUE_REASON];
    } else if JsLength(model) > 20 {
      score := score + 8;
    } else {
      score := score + 3;
      improvements := improvements + [PRICING_IMPROVEMENT];
    }
  }

  /** Factor 3 of `calculateMarketScore`: its branches update the three accumulators. */
  method ScoreMarketSize(score0: int, reasons0: seq<string>, improvements0: seq<string>, marketSize: string)
    returns (score: int, reasons: seq<string>, improvements: seq<string>)
    ensures var f := MarketSizeFactor(marketSize);
      score == score0 + f.points && reasons == reasons0 + f.reasons && improvements == improvements0 + f.improvements
  {
    score, reasons, improvements := score0, reasons0, improvements0;
    var size := LowerStr(marketSize);
    if Contains(size, "b") || Contains(size, "billion") {
      score := score + 15;
      reasons := reasons + [LARGE_MARKET_REASON];
    } else if Contains(size, "m") || Contains(size, "million") {
      score := score + 10;
      reasons := reasons + [MARKET_SIZE_REASON];
    } else if JsLength(size) > 0 {
      score := score + 7;
    } else {
      improvements := improvements + [TAM_IMPROVEMENT];
    }
  }

  /** Factor 4 of `calculateMarketScore`: its branches update the three accumulators. */
  method ScoreTeam(score0: int, reasons0: seq<string>, improvements0: seq<string>, teamExperience: string)
    returns (score: int, reasons: seq<string>, improvements: seq<string>)
    ensures var f := TeamFactor(teamExperience);
      score == score0 + f.points && reasons == reasons0 + f.reasons && improvements == improvements0 + f.improvements
  {
    score, reasons, improvements := score0, reasons0, improvements0;
    var team := LowerStr(teamExperience);
    if Contains(team, "year") || Contains(team, "founder") || Contains(team, "experience") {
      score := score + 10;
      reasons := reasons + [TEAM_REASON];
    } else if JsLength(team) > 30 {
      score := score + 5;
    } else {
      improvements := improvements + [TEAM_IMPROVEMENT];
    }
  }

  /** Factor 5 of `calculateMarketScore`: its branches update the three accumulators. */
  method ScoreTrend(score0: int, reasons0: seq<string>, improvements0: seq<string>, marketGrowth: string)
    returns (score: int, reasons: seq<string>, improvements: seq<string>)
    ensures var f := TrendFactor(marketGrowth);
      score == score0 + f.points && reasons == reasons0 + f.reasons && improvements == improvements0 + f.improvements
  {
    score, reasons, improvements := score0, reasons0, improvements0;
    var trend := LowerStr(marketGrowth);
    if Contains(trend, "strong") || Contains(trend, "growing") || Contains(trend, "explosive") {
      score := score + 8;
      reasons := reasons + [GROWTH_REASON];
    } else if Contains(trend, "stable") {
      score := score + 3;
    } else if Contains(trend, "declin") || Contains(trend, "shrink") {
      score := score - 5;
      improvements := improvements + [PIVOT_IMPROVEMENT];
    }
  }

  /** `calculateMarketScore`: `score`, `reasons` and `improvements` updated factor by factor. */
  method CalculateMarketScore(p: Project, r: Research) returns (s: ScoreSection)
    ensures s == MarketOf(p, r)
    ensures 53 <= s.score <= 95
  {
    var score := 50;
    var reasons: seq<string> := [];
    var improvements: seq<string> := [];
    score, reasons, improvements := ScoreAudience(score, reasons, improvements, p.targetAudience);
    assert reasons == AudienceFactor(p.targetAudience).reasons && improvements == AudienceFactor(p.targetAudience).improvements;
    score, reasons, improvements := ScoreRevenue(score, reasons, improvements, p.businessModel);
    score, reasons, improvements := ScoreMarketSize(score, reasons, improvements, p.marketSize);
    score, reasons, improvements := ScoreTeam(score, reasons, improvements, p.teamExperience);
    score, reasons, improvements := ScoreTrend(score, reasons, improvements, r.marketGrowth);
    score := LocalScorer.Clamp(20, 95, score);
    s := Assembler.ScoreSection(score, Join(Take(reasons, 3), ". ") + ".",
                                LocalScorer.Or(Join(Take(improvements, 2), ". "), MARKET_FALLBACK));
  }

  // ----- properties of the two scores -----

  /**
   * Both scores stay inside the [20, 95] clamp; in fact the lower clamp
   * never binds: innovation is at least 48 and market at least 53.  Every
   * section's reasoning ends with "." and its improvements are never empty.
   */
  lemma ScoreBounds(p: Project, r: Research)
    ensures 48 <= InnovationOf(p, r).score <= 95
    ensures 53 <= MarketOf(p, r).score <= 95
    ensures InnovationOf(p, r).improvements != "" && MarketOf(p, r).improvements != ""
    ensures var t := InnovationOf(p, r).reasoning; t != "" && t[|t| - 1] == '.'
    ensures var t := MarketOf(p, r).reasoning; t != "" && t[|t| - 1] == '.'
  {
  }

  /**
   * Exactly one competition tier applies: five or more competitors cost 10
   * points (and push the niche improvement), three or four cost 5, fewer
   * than three add 5.
   */
  lemma CompetitionTiers(n: nat)
    ensures CompetitionFactor(n).points == -10 <==> n >= 5
    ensures CompetitionFactor(n).points == -5 <==> 3 <= n < 5
    ensures CompetitionFactor(n).points == 5 <==> n < 3
    ensures NICHE_IMPROVEMENT in CompetitionFactor(n).improvements <==> n >= 5
  {
  }

  /** Finding more competitors never raises the innovation score, other inputs equal. */
  lemma MoreCompetitorsNeverRaiseInnovation(p: Project, r1: Research, r2: Research)
    requires |r1.competitorsFound| <= |r2.competitorsFound|
    ensures InnovationOf(p, r2).score <= InnovationOf(p, r1).score
  {
  }

  /**
   * The market-size tiers are decided by single letters: "billion" contains
   * "b" and "million" contains "m", so any size text with a "b" (as in
   * "about") earns 15 points, and otherwise any with an "m" earns 10.
   */
  lemma MarketSizeLetters(marketSize: string)
    ensures var size := LowerStr(marketSize);
      (MarketSizeFactor(marketSize).points == 15 <==> 'b' in size) &&
      (MarketSizeFactor(marketSize).points == 10 <==> 'b' !in size && 'm' in size) &&
      (MarketSizeFactor(marketSize).points == 0 <==> marketSize == "")
  {
    var size := LowerStr(marketSize);
    ContainsChar(size, 'b');
    ContainsChar(size, 'm');
    if Contains(size, "billion") {
      ContainsMembers(size, "billion");
      assert "billion"[0] == 'b';
    }
    if Contains(size, "million") {
      ContainsMembers(size, "million");
      assert "million"[1] == 'i' && "million"[0] == 'm';
    }
  }

  // ----- getVerdict and getInvestorSignal -----

  /** The six verdicts of the judge's `getVerdict`, best first. */
  const JUDGE_VERDICTS: seq<string> :=
    ["EXCEPTIONAL", "STRONG POTENTIAL", "PROMISING", "NEEDS WORK", "EARLY STAGE", "RETHINK APPROACH"]

  /** The rung of the ladder a score reaches (0 is best). */
  function JudgeTier(score: int): (t: nat)
    ensures t < |JUDGE_VERDICTS|
  {
    if score >= 85 then 0 else if score >= 75 then 1 else if score >= 65 then 2
    else if score >= 55 then 3 else if score >= 45 then 4 else 5
  }

  function GetVerdict(score: int): (v: string)
    ensures v in JUDGE_VERDICTS
  {
    if score >= 85 then "EXCEPTIONAL"
    else if score >= 75 then "STRONG POTENTIAL"
    else if score >= 65 then "PROMISING"
    else if score >= 55 then "NEEDS WORK"
    else if score >= 45 then "EARLY STAGE"
    else "RETHINK APPROACH"
  }

  /** The verdict is the rung of a monotone six-tier ladder at 85/75/65/55/45. */
  lemma VerdictLadder(s: int, t: int)
    ensures GetVerdict(s) == JUDGE_VERDICTS[JudgeTier(s)]
    ensures GetVerdict(s) == "EXCEPTIONAL" <==> s >= 85
    ensures GetVerdict(s) == "STRONG POTENTIAL" <==> 75 <= s < 85
    ensures GetVerdict(s) == "PROMISING" <==> 65 <= s < 75
    ensures GetVerdict(s) == "NEEDS WORK" <==> 55 <= s < 65
    ensures GetVerdict(s) == "EARLY STAGE" <==> 45 <= s < 55
    ensures GetVerdict(s) == "RETHINK APPROACH" <==> s < 45
    ensures s <= t ==> JudgeTier(t) <= JudgeTier(s)
  {
  }

  /** `getInvestorSignal(overall, innovation, market)`. */
  function GetInvestorSignal(overall: int, innovation: int, market: int): (signal: string)
    ensures signal == "HIGH" || signal == "MEDIUM" || signal == "LOW"
    ensures signal == "HIGH" <==> overall >= 75 && innovation >= 70 && market >= 70
    ensures signal == "MEDIUM" ==> overall >= 60 && (innovation >= 70 || market >= 70)
    ensures overall < 60 ==> signal == "LOW"
  {
    if overall >= 75 && innovation >= 70 && market >= 70 then "HIGH"
    else if overall >= 60 && (innovation >= 70 || market >= 70) then "MEDIUM"
    else "LOW"
  }

  // ----- generateStrengths -----

  const STRONG_INNOVATION := LocalScorer.Strength("Strong Innovation", "Your approach shows clear differentiation from existing solutions")
  const SOLID_MARKET := LocalScorer.Strength("Solid Market Opportunity", "Target market is well-defined with clear monetization path")
  const VALUE_PROPOSITION := LocalScorer.Strength("Clear Value Proposition", "Well-articulated competitive advantage")
  const PROOF_OF_EXECUTION := LocalScorer.Strength("Proof of Execution", "Technical progress demonstrated with working artifacts")
  const EXPERIENCED_TEAM := LocalScorer.Strength("Experienced Team", "Team background adds credibility to execution")
  const DEFINED_PRICING := LocalScorer.Strength("Defined Pricing", "Clear revenue model with specific pricing")
  const PROBLEM_AWARENESS := LocalScorer.Strength("Problem Awareness", "Shows understanding of customer pain points")

  /** The six conditional strengths that apply, in rule order. */
  function ConditionalStrengths(p: Project, innovationScore: int, marketScore: int): seq<Strength> {
    var none: seq<Strength> := [];
    var s1 := if innovationScore >= 70 then none + [STRONG_INNOVATION] else none;
    var s2 := if marketScore >= 70 then s1 + [SOLID_MARKET] else s1;
    var s3 := if JsLength(p.competitiveAdvantage) > 100 then s2 + [VALUE_PROPOSITION] else s2;
    var s4 := if p.githubLink != "" || p.demoVideoLink != "" then s3 + [PROOF_OF_EXECUTION] else s3;
    var s5 := if JsLength(p.teamExperience) > 30 then s4 + [EXPERIENCED_TEAM] else s4;
    if Contains(p.businessModel, "$") then s5 + [DEFINED_PRICING] else s5
  }

  /** What `generateStrengths` returns. */
  function StrengthsOf(p: Project, innovationScore: int, marketScore: int): seq<Strength> {
    var c := ConditionalStrengths(p, innovationScore, marketScore);
    Take(c + (if |c| < 3 then [PROBLEM_AWARENESS] else []), 5)
  }

  /** The six `if (...) strengths.push(...)` rules of `generateStrengths`, in order. */
  method CollectStrengths(p: Project, innovationScore: int, marketScore: int) returns (strengths: seq<Strength>)
    ensures strengths == ConditionalStrengths(p, innovationScore, marketScore)
  {
    strengths := [];
    if innovationScore >= 70 {
      strengths := strengths + [STRONG_INNOVATION];
    }
    if marketScore >= 70 {
      strengths := strengths + [SOLID_MARKET];
    }
    if JsLength(p.competitiveAdvantage) > 100 {
      strengths := strengths + [VALUE_PROPOSITION];
    }
    if p.githubLink != "" || p.demoVideoLink != "" {
      strengths := strengths + [PROOF_OF_EXECUTION];
    }
    if JsLength(p.teamExperience) > 30 {
      strengths := strengths + [EXPERIENCED_TEAM];
    }
    if Contains(p.businessModel, "$") {
      strengths := strengths + [DEFINED_PRICING];
    }
  }

  /** `generateStrengths`: the conditional strengths, the fallback when fewer than three, the first five. */
  method GenerateStrengths(p: Project, innovationScore: int, marketScore: int) returns (strengths: seq<Strength>)
    ensures strengths == StrengthsOf(p, innovationScore, marketScore)
  {
    strengths := CollectStrengths(p, innovationScore, marketScore);
    if |strengths| < 3 {
      strengths := strengths + [PROBLEM_AWARENESS];
    }
    strengths := Take(strengths, 5);
  }


  /**
   * One to five strengths: the conditional ones that fit, in rule order,
   * and 'Problem Awareness' exactly when fewer than three conditional ones
   * applied.
   */
  lemma StrengthsShape(p: Project, innovationScore: int, marketScore: int)
    ensures var c := ConditionalStrengths(p, innovationScore, marketScore);
      var r := StrengthsOf(p, innovationScore, marketScore);
      1 <= |r| <= 5 &&
      (PROBLEM_AWARENESS in r <==> |c| < 3) &&
      Take(c, 5) <= r &&
      (|c| < 3 ==> r == c + [PROBLEM_AWARENESS])
  {
    var c := ConditionalStrengths(p, innovationScore, marketScore);
    assert PROBLEM_AWARENESS !in c;
    if |c| >= 3 {
      assert forall x :: x in Take(c, 5) ==> x in c;
    }
  }

  // ----- generateNextSteps -----

  const DIFFERENTIATOR_STEP := LocalScorer.NextStep("URGENT", "Strengthen your unique differentiator", "Could boost innovation score by 15-20 points")
  const INTERVIEWS_STEP := LocalScorer.NextStep("URGENT", "Conduct 10 customer discovery interviews", "Will validate market demand and refine positioning")
  const MVP_STEP := LocalScorer.NextStep("URGENT", "Build and share a working MVP or prototype", "Adds credibility and demonstrates execution ability")
  const TAM_STEP := LocalScorer.NextStep("NICE", "Research and document TAM/SAM/SOM", "Strengthens investor pitch and market positioning")
  const TEAM_STEP := LocalScorer.NextStep("NICE", "Document team background and relevant experience", "Builds trust with investors and partners")
  const MATRIX_STEP := LocalScorer.NextStep("NICE", "Create a competitive analysis matrix", "Shows strategic awareness and helps refine positioning")

  /** The URGENT steps that apply, in rule order. */
  function UrgentSteps(p: Project, innovationScore: int, marketScore: int): seq<NextStep> {
    var none: seq<NextStep> := [];
    var s1 := if innovationScore < 65 then none + [DIFFERENTIATOR_STEP] else none;
    var s2 := if marketScore < 65 then s1 + [INTERVIEWS_STEP] else s1;
    if p.githubLink == "" && p.demoVideoLink == "" then s2 + [MVP_STEP] else s2
  }

  /** The NICE steps that apply after `urgent`, in rule order; the analysis matrix always applies. */
  function WithNiceSteps(p: Project, urgent: seq<NextStep>): seq<NextStep> {
    var s4 := if p.marketSize == "" then urgent + [TAM_STEP] else urgent;
    var s5 := if p.teamExperience == "" then s4 + [TEAM_STEP] else s4;
    s5 + [MATRIX_STEP]
  }

  /** What `generateNextSteps` returns. */
  function NextStepsOf(p: Project, innovationScore: int, marketScore: int): seq<NextStep> {
    Take(WithNiceSteps(p, UrgentSteps(p, innovationScore, marketScore)), 4)
  }

  /** The three URGENT rules of `generateNextSteps`, in order. */
  method CollectUrgentSteps(p: Project, innovationScore: int, marketScore: int) returns (steps: seq<NextStep>)
    ensures steps == UrgentSteps(p, innovationScore, marketScore)
  {
    steps := [];
    if innovationScore < 65 {
      steps := steps + [DIFFERENTIATOR_STEP];
    }
    if marketScore < 65 {
      steps := steps + [INTERVIEWS_STEP];
    }
    if p.githubLink == "" && p.demoVideoLink == "" {
      steps := steps + [MVP_STEP];
    }
  }

  /** `generateNextSteps`: the URGENT steps, then the NICE ones, then the first four. */
  method GenerateNextSteps(p: Project, innovationScore: int, marketScore: int) returns (steps: seq<NextStep>)
    ensures steps == NextStepsOf(p, innovationScore, marketScore)
  {
    steps := CollectUrgentSteps(p, innovationScore, marketScore);
    if p.marketSize == "" {
      steps := steps + [TAM_STEP];
    }
    if p.teamExperience == "" {
      steps := steps + [TEAM_STEP];
    }
    steps := steps + [MATRIX_STEP];
    steps := Take(steps, 4);
  }


  /**
   * One to four steps; the URGENT ones come first and all of them are kept
   * (there are at most three), so the last step is always a NICE one.
   */
  lemma NextStepsShape(p: Project, innovationScore: int, marketScore: int)
    ensures var u := UrgentSteps(p, innovationScore, marketScore);
      var r := NextStepsOf(p, innovationScore, marketScore);
      1 <= |r| <= 4 && u <= r && |u| < |r| &&
      (forall k :: 0 <= k < |r| ==> (r[k].priority == "URGENT" <==> k < |u|)) &&
      (forall k :: 0 <= k < |r| ==> (r[k].priority == "NICE" <==> k >= |u|))
  {
    var u := UrgentSteps(p, innovationScore, marketScore);
    var n := WithNiceSteps(p, []);
    assert forall k :: 0 <= k < |u| ==> u[k].priority == "URGENT";
    assert forall k :: 0 <= k < |n| ==> n[k].priority == "NICE";
    var all := WithNiceSteps(p, u);
    assert all == u + n;
    assert forall k :: 0 <= k < |all| ==> (all[k].priority == "URGENT" <==> k < |u|) by {
      forall k | 0 <= k < |all| ensures all[k].priority == "URGENT" <==> k < |u| {
        if k >= |u| {
          assert all[k] == n[k - |u|];
        }
      }
    }
  }

  // ----- generateSummary and calculateScores -----

  function GenerateSummary(p: Project): Summary {
    Assembler.Summary(p.coreIdea, p.targetAudience, p.problemStatement, p.businessModel, p.competitiveAdvantage)
  }

  /** The object `calculateScores` returns. */
  datatype JudgeEvaluation = JudgeEvaluation(
    projectTitle: string,
    summary: Summary,
    strengths: seq<Strength>,
    innovationScore: ScoreSection,
    marketPotentialScore: ScoreSection,
    overallRating: Rating,
    nextSteps: seq<NextStep>,
    webResearch: Research)

  /** `Competing against ${competitorsFound.slice(0, 3).join(', ') || 'various players'} in this space` */
  function CompetitiveContext(competitorsFound: seq<string>): string {
    "Competing against " + LocalScorer.Or(Join(Take(competitorsFound, 3), ", "), "various players") + " in this space"
  }

  /** `calculateScores` once the two score sections are computed. */
  function Assemble(p: Project, r: Research, innovation: ScoreSection, market: ScoreSection): JudgeEvaluation {
    var overall := Assembler.RoundHalf(innovation.score + market.score);
    JudgeEvaluation(
      p.projectTitle, GenerateSummary(p),
      StrengthsOf(p, innovation.score, market.score),
      innovation, market,
      Assembler.Rating(overall, GetVerdict(overall), CompetitiveContext(r.competitorsFound),
                       GetInvestorSignal(overall, innovation.score, market.score)),
      NextStepsOf(p, innovation.score, market.score),
      r)
  }

  /** What `calculateScores(projectData, webResearch)` returns. */
  function ScoresOf(p: Project, r: Research): JudgeEvaluation {
    Assemble(p, r, InnovationOf(p, r), MarketOf(p, r))
  }

  /**
   * The overall score is the rounded mean of the two scores, so it lies
   * between them; with the score ranges it lies in [51, 95], the verdict is
   * its rung on the ladder and is never 'RETHINK APPROACH', and a HIGH signal
   * comes only with 'EXCEPTIONAL' or 'STRONG POTENTIAL'.
   */
  lemma OverallShape(i: int, m: int)
    requires 48 <= i <= 95 && 53 <= m <= 95
    ensures var o := Assembler.RoundHalf(i + m);
      i + m <= 2 * o <= i + m + 1 &&
      (i <= o <= m || m <= o <= i) &&
      51 <= o <= 95 &&
      GetVerdict(o) == JUDGE_VERDICTS[JudgeTier(o)] &&
      GetVerdict(o) != "RETHINK APPROACH" &&
      (GetInvestorSignal(o, i, m) == "HIGH" ==> GetVerdict(o) == "EXCEPTIONAL" || GetVerdict(o) == "STRONG POTENTIAL")
  {
    var o := Assembler.RoundHalf(i + m);
    VerdictLadder(o, o);
  }

  /**
   * What `calculateScores` promises once the sections are in range: the
   * overall rating as above, one to five strengths, one to four next steps,
   * and the URGENT step for each score under 65.
   */
  lemma AssembleShape(p: Project, r: Research, innovation: ScoreSection, market: ScoreSection)
    requires 48 <= innovation.score <= 95 && 53 <= market.score <= 95
    ensures var e := Assemble(p, r, innovation, market);
      var i := innovation.score;
      var m := market.score;
      var o := e.overallRating.score;
      i + m <= 2 * o <= i + m + 1 && 51 <= o <= 95 &&
      e.overallRating.verdict == JUDGE_VERDICTS[JudgeTier(o)] &&
      e.overallRating.verdict != "RETHINK APPROACH" &&
      (e.overallRating.investorSignal == "HIGH" ==>
         e.overallRating.verdict == "EXCEPTIONAL" || e.overallRating.verdict == "STRONG POTENTIAL") &&
      1 <= |e.strengths| <= 5 && 1 <= |e.nextSteps| <= 4 &&
      (i < 65 ==> DIFFERENTIATOR_STEP in e.nextSteps) &&
      (m < 65 ==> INTERVIEWS_STEP in e.nextSteps)
  {
    var i := innovation.score;
    var m := market.score;
    OverallShape(i, m);
    StrengthsShape(p, i, m);
    NextStepsShape(p, i, m);
    UrgentStepsPresent(p, i, m);
  }

  /** For every project and research, the sections are in range, so `AssembleShape` applies. */
  lemma ScoresShape(p: Project, r: Research)
    ensures var e := ScoresOf(p, r);
      48 <= e.innovationScore.score <= 95 && 53 <= e.marketPotentialScore.score <= 95 &&
      e.overallRating.verdict != "RETHINK APPROACH" &&
      1 <= |e.strengths| <= 5 && 1 <= |e.nextSteps| <= 4
  {
    ScoreBounds(p, r);
    AssembleShape(p, r, InnovationOf(p, r), MarketOf(p, r));
  }

  /** A score under 65 brings its URGENT step into the returned steps. */
  lemma UrgentStepsPresent(p: Project, innovationScore: int, marketScore: int)
    ensures innovationScore < 65 ==> DIFFERENTIATOR_STEP in NextStepsOf(p, innovationScore, marketScore)
    ensures marketScore < 65 ==> INTERVIEWS_STEP in NextStepsOf(p, innovationScore, marketScore)
  {
    var u := UrgentSteps(p, innovationScore, marketScore);
    NextStepsShape(p, innovationScore, marketScore);
    var r := NextStepsOf(p, innovationScore, marketScore);
    if innovationScore < 65 {
      assert u[0] == DIFFERENTIATOR_STEP;
      assert r[0] == u[0];
    }
    if marketScore < 65 {
      var k := if innovationScore < 65 then 1 else 0;
      assert u[k] == INTERVIEWS_STEP;
      assert r[k] == u[k];
    }
  }

  /**
   * The smallest submission `server.js` accepts: each of the six required
   * fields is one character and the four optional fields are empty.
   */
  const MINIMAL_PROJECT := Project("x", "x", "x", "x", "x", "x", "", "", "", "")

  /** No word other than "x" itself occurs in "x". */
  lemma NotInX(w: string)
    requires w != [] && w != "x"
    ensures !Contains("x", w)
  {
    forall i | 0 <= i <= 1
      ensures !IsPrefix(w, "x"[i..])
    {
      if i == 0 && |w| == 1 {
        assert "x"[i..][..1] == "x";
      }
    }
  }

  /**
   * With fewer than three competitors the minimal project scores 63 for
   * innovation: 50 + 3 + 5 + 0 + 5 + 0.
   */
  lemma MinimalInnovation(r: Research)
    requires |r.competitorsFound| < 3
    ensures InnovationOf(MINIMAL_PROJECT, r).score == 63
  {
    assert LowerStr("x") == "x";
    NotInX("ai");
    NotInX("machine learning");
    NotInX("ml");
    NotInX("unique");
    NotInX("first");
    NotInX("only");
    NotInX("better");
    NotInX("faster");
    NotInX("cheaper");
    assert AdvantageFactor("x").points == 3;
    assert JsLength("x") == 1 by { assert "x"[..0] == []; }
  }

  /**
   * With the stable growth message the minimal project scores 61 for market:
   * 50 + 5 + 3 + 0 + 0 + 3.
   */
  lemma MinimalMarket(r: Research)
    requires r.marketGrowth == JudgeResearch.STABLE_MESSAGE
    ensures MarketOf(MINIMAL_PROJECT, r).score == 61
  {
    assert LowerStr("x") == "x";
    assert JsLength("x") == 1 by { assert "x"[..0] == []; }
    NotInX("$");
    NotInX("subscription");
    NotInX("saas");
    NotInX("freemium");
    NotInX("ads");
    NotInX("commission");
    assert RevenueFactor("x").points == 3;
    EmptyMarketSize();
    EmptyTeam();
    StableTrend();
  }

  /** No market size earns nothing. */
  lemma EmptyMarketSize()
    ensures MarketSizeFactor("").points == 0
  {
    assert LowerStr("") == "";
    assert !Contains("", "b");
    assert !Contains("", "billion");
    assert !Contains("", "m");
    assert !Contains("", "million");
  }

  /** No team experience earns nothing. */
  lemma EmptyTeam()
    ensures TeamFactor("").points == 0
  {
    assert LowerStr("") == "";
    assert !Contains("", "year");
    assert !Contains("", "founder");
    assert !Contains("", "experience");
  }

  /**
   * The stable message earns the 3-point trend bonus: it has no growth word
   * (no `g`, so neither "strong" nor "growing"; no `x`, so not "explosive")
   * and contains "stable".
   */
  lemma StableTrend()
    ensures TrendFactor(JudgeResearch.STABLE_MESSAGE).points == 3
  {
    JudgeResearch.StableMessageLetters();
    StableWordsTrend(JudgeResearch.STABLE_MESSAGE);
  }

  /** Any message with "stable" at index 15 and no `g` or `x` in either case. */
  lemma StableWordsTrend(m: string)
    requires |m| >= 21 && m[15..21] == "stable"
    requires 'g' !in m && 'G' !in m && 'x' !in m && 'X' !in m
    ensures TrendFactor(m).points == 3
  {
    var t := LowerStr(m);
    LowerAbsent(m, 'g');
    LowerAbsent(m, 'x');
    AbsentCharNoContains(t, "strong", 'g');
    AbsentCharNoContains(t, "growing", 'g');
    AbsentCharNoContains(t, "explosive", 'x');
    assert t[15..21] == m[15..21];
    ContainsSlice(t, 15, 21);
  }

  /**
   * Although `generateStrengths` is commented as always returning at least
   * three strengths, the minimal project gets one whenever the research
   * found fewer than three competitors and reads the market as stable, as
   * it does when every search answers nothing (`SilentSearchResearch`):
   * innovation 63 and market 61 leave only 'Problem Awareness'.
   */
  lemma MinimalProjectHasOneStrength(r: Research)
    requires |r.competitorsFound| < 3 && r.marketGrowth == JudgeResearch.STABLE_MESSAGE
    ensures ScoresOf(MINIMAL_PROJECT, r).strengths == [PROBLEM_AWARENESS]
  {
    MinimalInnovation(r);
    MinimalMarket(r);
    MinimalStrengths();
  }

  /** With innovation 63 and market 61, no conditional strength applies to the minimal project. */
  lemma MinimalStrengths()
    ensures StrengthsOf(MINIMAL_PROJECT, 63, 61) == [PROBLEM_AWARENESS]
  {
    NotInX("$");
    assert ConditionalStrengths(MINIMAL_PROJECT, 63, 61) == [];
  }
}
