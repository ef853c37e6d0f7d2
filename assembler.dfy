/**
 * `buildResult` and `getVerdict` of `VibeClubAgent`: the final evaluation
 * record, assembled from the submission, the analysis (a model's reply or the
 * local fallback), the compiled signals and the query log.
 */
module Assembler {
  import opened Wrappers
  import opened Text
  import opened Seqs
  import opened Records
  import opened Signals
  import opened Planner
  import opened LocalScorer

  /** The five verdicts of `getVerdict`, best first. */
  const VERDICTS: seq<string> := ["EXCEPTIONAL", "STRONG POTENTIAL", "PROMISING", "NEEDS WORK", "EARLY STAGE"]

  /** The position on the ladder a score reaches (0 is best). */
  function Tier(score: int): (t: nat)
    ensures t < |VERDICTS|
  {
    if score >= 80 then 0 else if score >= 70 then 1 else if score >= 60 then 2 else if score >= 50 then 3 else 4
  }

  /** `getVerdict(score)`, the same ladder in both editions. */
  function GetVerdict(score: int): (v: string)
    ensures v in VERDICTS
  {
    if score >= 80 then "EXCEPTIONAL"
    else if score >= 70 then "STRONG POTENTIAL"
    else if score >= 60 then "PROMISING"
    else if score >= 50 then "NEEDS WORK"
    else "EARLY STAGE"
  }

  /**
   * The verdict is the rung of the ladder the score reaches: rung k is given
   * exactly to the scores between its threshold and the one above it, and a
   * higher score never gets a lower verdict.
   */
  lemma GetVerdictLadder(s: int, t: int)
    ensures GetVerdict(s) == VERDICTS[Tier(s)]
    ensures GetVerdict(s) == "EXCEPTIONAL" <==> s >= 80
    ensures GetVerdict(s) == "STRONG POTENTIAL" <==> 70 <= s < 80
    ensures GetVerdict(s) == "PROMISING" <==> 60 <= s < 70
    ensures GetVerdict(s) == "NEEDS WORK" <==> 50 <= s < 60
    ensures GetVerdict(s) == "EARLY STAGE" <==> s < 50
    ensures s <= t ==> Tier(t) <= Tier(s)
  {
  }

  datatype ScoreSection = ScoreSection(score: int, reasoning: string, improvements: string)
  datatype Rating = Rating(score: int, verdict: string, competitiveContext: string, investorSignal: string)
  datatype Summary = Summary(whatItIs: string, whoItsFor: string, problemSolved: string,
                             businessModel: string, competitiveEdge: string)
  /**
   * The `webResearch` block. The fields held in an `Option` exist in the
   * agent.js edition only and are `None` in the api/evaluate.js edition;
   * `totalSearches` is named `totalSearchQueries` in agent.js.
   */
  datatype WebResearch = WebResearch(
    competitorsFound: seq<string>, marketGrowth: string, marketSizeValidation: Option<string>,
    trendSignals: Option<seq<string>>, existingProductsFound: nat,
    productHuntMatches: Option<nat>, githubMatches: Option<nat>,
    totalSearches: nat, totalResultsAnalyzed: Option<nat>, searchSource: string)
  /** agent.js only. */
  datatype SearchStats = SearchStats(totalQueries: nat, totalResults: nat, uniqueSources: nat, searchLog: seq<LogEntry>)

  datatype Evaluation = Evaluation(
    projectTitle: string,
    summary: Summary,
    strengths: seq<Strength>,
    concerns: seq<Concern>,
    innovation: ScoreSection,
    market: ScoreSection,
    overall: Rating,
    nextSteps: seq<NextStep>,
    webResearch: WebResearch,
    searchStats: Option<SearchStats>)

  /** `reply?.score || 50`: an absent reply, an absent score and a score of 0 all become 50. */
  function ScoreOr50(reply: Option<ScoreReply>): (s: int)
    ensures s != 0
    ensures (reply.Some? && reply.value.score.Some? && reply.value.score.value != 0) ==> s == reply.value.score.value
    ensures !(reply.Some? && reply.value.score.Some? && reply.value.score.value != 0) ==> s == 50
  {
    match reply
    case Some(r) => if r.score.Some? && r.score.value != 0 then r.score.value else 50
    case None => 50
  }

  /** `reply?.field || d` for the two strings of a score reply. */
  function ReasoningOr(reply: Option<ScoreReply>, d: string): string {
    if reply.Some? then Or(reply.value.reasoning, d) else d
  }

  function ImprovementsOr(reply: Option<ScoreReply>, d: string): string {
    if reply.Some? then Or(reply.value.improvements, d) else d
  }

  /** `Math.round(x / 2)` for an integer `x`: halves round towards positive infinity. */
  function RoundHalf(x: int): (r: int)
    ensures x <= 2 * r <= x + 1
  {
    (x + 1) / 2
  }

  /** The literal defaults of each edition. */
  function BusinessModelDefault(e: Edition): string { if e == Standalone then "Nog te bepalen" else "TBD" }
  function EdgeDefault(e: Edition): string { if e == Standalone then "Zie research" else "See research" }
  function ReasoningDefault(e: Edition): string { if e == Standalone then "Zie breakdown" else "See breakdown" }
  function ImprovementsDefault(e: Edition): string { if e == Standalone then "Zie aanbevelingen" else "See recommendations" }
  function FiguresDefault(e: Edition): string { if e == Standalone then "Zie resultaten" else "See results" }
  function TrendDefault(e: Edition): string { if e == Standalone then "neutraal" else "neutral" }
  function ContextWords(e: Edition): string { if e == Standalone then " concurrenten gevonden in " else " competitors found in " }

  function SearchSource(serperConfigured: bool): string {
    if serperConfigured then "Google (Serper)" else "DuckDuckGo"
  }

  /** `new Set(this.allResults.map(r => r.source)).size`. */
  function UniqueSources(results: seq<Tagged>): nat {
    |set k | 0 <= k < |results| :: results[k].result.source|
  }

  /**
   * `buildResult(projectData, analysis, compiled, industry)`, with
   * `this.searchLog`, `this.allResults` and whether a Serper key is set
   * passed in.
   */
  function BuildResult(e: Edition, p: Submission, a: Analysis, c: Compiled, industry: string,
                       log: seq<LogEntry>, results: seq<Tagged>, serperConfigured: bool): (r: Evaluation)
    ensures r.innovation.score == ScoreOr50(a.innovation) && r.market.score == ScoreOr50(a.market)
    ensures r.innovation.score + r.market.score <= 2 * r.overall.score <= r.innovation.score + r.market.score + 1
    ensures a.verdict != "" ==> r.overall.verdict == a.verdict
    ensures a.verdict == "" ==> r.overall.verdict == GetVerdict(r.overall.score)
    ensures r.overall.investorSignal == Or(a.investorSignal, "MEDIUM")
    ensures r.webResearch.totalSearches == |log|
    ensures r.searchStats.Some? <==> e == Standalone
    ensures r.searchStats.Some? ==> r.searchStats.value.totalQueries == |log| &&
                                    r.searchStats.value.searchLog == log &&
                                    r.searchStats.value.totalResults == |results|
    ensures r.webResearch.competitorsFound ==
              if a.competitorsFound.Some? then a.competitorsFound.value else Take(c.competitors.companies, 10)
    ensures r.webResearch.existingProductsFound == |c.exactMatch.results|
    ensures e == Standalone ==>
              r.webResearch.marketSizeValidation == Some(Or(a.marketSizeFound, FirstOr(c.marketSize.numbers, "Nader onderzoek nodig"))) &&
              r.webResearch.trendSignals == Some(c.trends.keywords) &&
              r.webResearch.productHuntMatches == Some(|c.startups.productHunt|) &&
              r.webResearch.githubMatches == Some(|c.startups.github|) &&
              r.webResearch.totalResultsAnalyzed == Some(|results|)
    ensures e == Serverless ==>
              r.webResearch.marketSizeValidation.None? && r.webResearch.trendSignals.None? &&
              r.webResearch.productHuntMatches.None? && r.webResearch.githubMatches.None? &&
              r.webResearch.totalResultsAnalyzed.None?
    ensures r.summary.businessModel == Or(p.businessModel, BusinessModelDefault(e))
    ensures r.strengths == a.strengths.GetOr([]) && r.concerns == a.concerns.GetOr([])
    ensures r.nextSteps == a.nextSteps.GetOr([])
  {
    var innovationScore := ScoreOr50(a.innovation);
    var marketScore := ScoreOr50(a.market);
    var overallScore := RoundHalf(innovationScore + marketScore);
    var numbers := c.marketSize.numbers;
    Evaluation(
      p.projectTitle,
      Summary(p.coreIdea, p.targetAudience, p.coreIdea, Or(p.businessModel, BusinessModelDefault(e)),
              Or(a.competitorComparison, EdgeDefault(e))),
      a.strengths.GetOr([]),
      a.concerns.GetOr([]),
      ScoreSection(innovationScore, ReasoningOr(a.innovation, ReasoningDefault(e)),
                   ImprovementsOr(a.innovation, ImprovementsDefault(e))),
      ScoreSection(marketScore, ReasoningOr(a.market, ReasoningDefault(e)),
                   ImprovementsOr(a.market, ImprovementsDefault(e))),
      Rating(overallScore, Or(a.verdict, GetVerdict(overallScore)),
             NatToString(|c.competitors.companies|) + ContextWords(e) + industry,
             Or(a.investorSignal, "MEDIUM")),
      a.nextSteps.GetOr([]),
      WebResearch(
        if a.competitorsFound.Some? then a.competitorsFound.value else Take(c.competitors.companies, 10),
        FirstOr(numbers, FiguresDefault(e)) + " - " + Or(Join(c.trends.keywords, ", "), TrendDefault(e)),
        if e == Standalone
        then Some(Or(a.marketSizeFound, FirstOr(numbers, "Nader onderzoek nodig")))
        else None,
        if e == Standalone then Some(c.trends.keywords) else None,
        |c.exactMatch.results|,
        if e == Standalone then Some(|c.startups.productHunt|) else None,
        if e == Standalone then Some(|c.startups.github|) else None,
        |log|,
        if e == Standalone then Some(|results|) else None,
        SearchSource(serperConfigured)),
      if e == Standalone then Some(SearchStats(|log|, |results|, UniqueSources(results), log)) else None)
  }

  /** The overall score lies between the two sub-scores it averages. */
  lemma OverallBetween(e: Edition, p: Submission, a: Analysis, c: Compiled, industry: string,
                       log: seq<LogEntry>, results: seq<Tagged>, serperConfigured: bool)
    ensures var r := BuildResult(e, p, a, c, industry, log, results, serperConfigured);
      var lo := if r.innovation.score <= r.market.score then r.innovation.score else r.market.score;
      var hi := if r.innovation.score <= r.market.score then r.market.score else r.innovation.score;
      lo <= r.overall.score <= hi
  {
  }

  /** A reply scoring innovation 0 is read as 50, exactly like a reply without a score. */
  lemma ZeroScoreReadAsFifty(reply: ScoreReply)
    requires reply.score == Some(0)
    ensures ScoreOr50(Some(reply)) == ScoreOr50(None) == 50
  {
  }
}
