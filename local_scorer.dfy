/**
 * `localAnalysis`, the deterministic fallback used when no language model is
 * configured or its call fails, and the shape of the analysis record that
 * `buildResult` consumes. The scoring rules are the same in both editions;
 * the wording of the record and its strengths list differ.
 */
module LocalScorer {
  import opened Wrappers
  import opened Text
  import opened Seqs
  import opened Signals
  import opened Planner

  /** `{score, reasoning, improvements}`; "" stands for an absent string. */
  datatype ScoreReply = ScoreReply(score: Option<int>, reasoning: string, improvements: string)
  datatype Strength = Strength(title: string, description: string)
  datatype Concern = Concern(issue: string, suggestion: string)
  datatype NextStep = NextStep(priority: string, action: string, impact: string)

  /**
   * The fields of an analysis that `buildResult` reads. A model's reply may
   * lack any of them, hence the options; "" stands for an absent string.
   */
  datatype Analysis = Analysis(
    innovation: Option<ScoreReply>,
    market: Option<ScoreReply>,
    competitorsFound: Option<seq<string>>,
    marketSizeFound: string,
    competitorComparison: string,
    strengths: Option<seq<Strength>>,
    concerns: Option<seq<Concern>>,
    nextSteps: Option<seq<NextStep>>,
    verdict: string,
    investorSignal: string)

  /** `s || d` for a string. */
  function Or(s: string, d: string): (r: string)
    ensures r == s || r == d
    ensures r == "" ==> d == ""
  {
    if s == "" then d else s
  }

  /** `xs[0] || d`. */
  function FirstOr(xs: seq<string>, d: string): string {
    if xs == [] then d else Or(xs[0], d)
  }

  function Clamp(lo: int, hi: int, x: int): (r: int)
    requires lo <= hi
    ensures lo <= r <= hi
    ensures lo <= x <= hi ==> r == x
  {
    if x < lo then lo else if x > hi then hi else x
  }

  /** The trend words `localAnalysis` counts as growth. */
  const GROWTH_WORDS: seq<string> := ["growing", "booming", "expanding", "emerging"]

  predicate IsGrowing(keywords: seq<string>) {
    exists k :: 0 <= k < |keywords| && keywords[k] in GROWTH_WORDS
  }

  /** `n.toLowerCase().includes('billion') || n.toLowerCase().includes('b')`, for some figure. */
  predicate HasLargeMarket(numbers: seq<string>) {
    exists k :: 0 <= k < |numbers| &&
      (Contains(LowerStr(numbers[k]), "billion") || Contains(LowerStr(numbers[k]), "b"))
  }

  /** The one innovation bonus chosen by the number of distinct competitor names. */
  function CompetitorBonus(n: nat): int {
    if n == 0 then 25 else if n < 3 then 20 else if n < 6 then 12 else 5
  }

  /** The innovation score `localAnalysis` computes: base 50 plus bonuses, clamped to [25, 90]. */
  function LocalInnovation(n: nat, similar: nat, aiIdea: bool): int {
    Clamp(25, 90, 50 + CompetitorBonus(n) + (if similar < 3 then 10 else 0) + (if aiIdea then 18 else 0))
  }

  function MarketDataBonus(hasData: bool, large: bool): int {
    if !hasData then 0 else if large then 25 else 15
  }

  /** The market score `localAnalysis` computes: base 50 plus bonuses, clamped to [25, 90]. */
  function LocalMarket(hasData: bool, large: bool, growing: bool, n: nat, priced: bool): int {
    Clamp(25, 90, 50 + MarketDataBonus(hasData, large) + (if growing then 10 else 0) +
                  (if n < 5 then 15 else 0) + (if priced then 20 else 0))
  }

  /** The inputs `localAnalysis` derives from the submission and the compiled signals. */
  datatype Inputs = Inputs(
    numCompetitors: nat, hasMarketData: bool, hasLargeMarket: bool, isGrowing: bool,
    similar: nat, aiIdea: bool, priced: bool)

  function InputsOf(p: Submission, c: Compiled): Inputs {
    Inputs(|c.competitors.companies|, |c.marketSize.numbers| > 0, HasLargeMarket(c.marketSize.numbers),
           IsGrowing(c.trends.keywords), |c.startups.productHunt| + |c.startups.github|,
           Contains(LowerStr(p.coreIdea), "ai"), Contains(p.businessModel, "$"))
  }

  function InnovationOf(x: Inputs): int {
    LocalInnovation(x.numCompetitors, x.similar, x.aiIdea)
  }

  function MarketOf(x: Inputs): int {
    LocalMarket(x.hasMarketData, x.hasLargeMarket, x.isGrowing, x.numCompetitors, x.priced)
  }

  /** Both editions: 'STRONG POTENTIAL' / 'MEDIUM' at a sum of 140 or more, else 'PROMISING' / 'LOW'. */
  function LocalVerdict(innovation: int, market: int): string {
    if innovation + market >= 140 then "STRONG POTENTIAL" else "PROMISING"
  }

  function LocalSignal(innovation: int, market: int): string {
    if innovation + market >= 140 then "MEDIUM" else "LOW"
  }

  /** The record `localAnalysis` returns, in the wording of each edition. */
  function LocalAnalysisOf(e: Edition, p: Submission, c: Compiled, totalResults: nat): Analysis {
    var x := InputsOf(p, c);
    Report(e, x, c, totalResults, InnovationOf(x), MarketOf(x))
  }

  /** The returned object literal, once the two scores are known. */
  function Report(e: Edition, x: Inputs, c: Compiled, totalResults: nat, i: int, m: int): (a: Analysis)
    ensures a.innovation.Some? && a.innovation.value.score == Some(i)
    ensures a.market.Some? && a.market.value.score == Some(m)
  {
    var n := x.numCompetitors;
    var companies := c.competitors.companies;
    var numbers := c.marketSize.numbers;
    if e == Standalone then
      Analysis(
        Some(ScoreReply(Some(i), NatToString(n) + " concurrenten, " + NatToString(x.similar) + " vergelijkbare projecten",
                        "Versterk differentiatie")),
        Some(ScoreReply(Some(m), FirstOr(numbers, "Markt") + " met " + (if x.isGrowing then "groei" else "stabiele") + " trend",
                        "Valideer met klanten")),
        Some(Take(companies, 10)),
        FirstOr(numbers, "Niet specifiek gevonden"),
        NatToString(n) + " concurrenten gevonden: " + Join(Take(companies, 4), ", "),
        Some([Strength("Research gedaan", NatToString(totalResults) + " datapunten geanalyseerd")] +
             (if n < 5 then [Strength("Beperkte concurrentie", NatToString(n) + " directe concurrenten")] else [])),
        Some(if n > 5 then [Concern("Drukke markt", "Focus op niche")] else []),
        Some([NextStep("URGENT", "Interview klanten", "Valideert vraag"),
              NextStep("URGENT", "Bouw MVP", "Bewijst executie")]),
        LocalVerdict(i, m), LocalSignal(i, m))
    else
      Analysis(
        Some(ScoreReply(Some(i), NatToString(n) + " competitors found", "Strengthen differentiation")),
        Some(ScoreReply(Some(m), "Market " + (if x.isGrowing then "growing" else "stable"), "Validate with customers")),
        Some(Take(companies, 10)),
        FirstOr(numbers, "Not found"),
        NatToString(n) + " competitors found",
        Some([Strength("Research done", NatToString(totalResults) + " data points analyzed")]),
        Some(if n > 5 then [Concern("Crowded market", "Focus on niche")] else []),
        Some([NextStep("URGENT", "Interview customers", "Validates demand"),
              NextStep("URGENT", "Build MVP", "Proves execution")]),
        LocalVerdict(i, m), LocalSignal(i, m))
  }

  /**
   * The scoring half of `localAnalysis`: both scores start at 50, receive
   * their bonuses with `+=`, and are clamped to [25, 90].
   */
  method LocalScores(x: Inputs) returns (innovationScore: int, marketScore: int)
    ensures innovationScore == InnovationOf(x) && marketScore == MarketOf(x)
    ensures 55 <= innovationScore <= 90 && 50 <= marketScore <= 90
  {
    var numCompetitors := x.numCompetitors;
    innovationScore := 50;
    marketScore := 50;

    if numCompetitors == 0 {
      innovationScore := innovationScore + 25;
    } else if numCompetitors < 3 {
      innovationScore := innovationScore + 20;
    } else if numCompetitors < 6 {
      innovationScore := innovationScore + 12;
    } else {
      innovationScore := innovationScore + 5;
    }
    if x.similar < 3 {
      innovationScore := innovationScore + 10;
    }
    if x.aiIdea {
      innovationScore := innovationScore + 18;
    }

    if x.hasMarketData {
      marketScore := marketScore + (if x.hasLargeMarket then 25 else 15);
    }
    if x.isGrowing {
      marketScore := marketScore + 10;
    }
    if numCompetitors < 5 {
      marketScore := marketScore + 15;
    }
    if x.priced {
      marketScore := marketScore + 20;
    }

    innovationScore := Clamp(25, 90, innovationScore);
    marketScore := Clamp(25, 90, marketScore);
    LocalScoresBounds(x);
  }

  /**
   * `localAnalysis(projectData, compiled, industry)`, with `this.allResults.length`
   * passed as `totalResults`.
   */
  method LocalAnalysis(e: Edition, p: Submission, c: Compiled, totalResults: nat) returns (a: Analysis)
    ensures a == LocalAnalysisOf(e, p, c, totalResults)
    ensures a.innovation.Some? && a.innovation.value.score.Some? && a.market.Some? && a.market.value.score.Some?
    ensures 55 <= a.innovation.value.score.value <= 90 && 50 <= a.market.value.score.value <= 90
  {
    var x := InputsOf(p, c);
    var innovationScore, marketScore := LocalScores(x);
    a := Report(e, x, c, totalResults, innovationScore, marketScore);
  }

  /**
   * The scores stay inside [25, 90]; in fact the lower clamp never binds:
   * innovation is at least 55 (the smallest tier bonus is 5) and market at least 50.
   */
  lemma LocalScoresBounds(x: Inputs)
    ensures 55 <= InnovationOf(x) <= 90
    ensures 50 <= MarketOf(x) <= 90
    ensures 25 <= InnovationOf(x) && 25 <= MarketOf(x)
  {
  }

  /** Exactly one tier bonus applies, and it is the one of the competitor-count band. */
  lemma CompetitorBonusTiers(n: nat)
    ensures CompetitorBonus(n) in {25, 20, 12, 5}
    ensures CompetitorBonus(n) == 25 <==> n == 0
    ensures CompetitorBonus(n) == 20 <==> 1 <= n <= 2
    ensures CompetitorBonus(n) == 12 <==> 3 <= n <= 5
    ensures CompetitorBonus(n) == 5 <==> n >= 6
  {
  }

  /** More competitors never raise either score, other inputs being equal. */
  lemma {:induction false} MoreCompetitorsNeverHelp(x: Inputs, n: nat)
    requires x.numCompetitors <= n
    ensures InnovationOf(x.(numCompetitors := n)) <= InnovationOf(x)
    ensures MarketOf(x.(numCompetitors := n)) <= MarketOf(x)
  {
    assert CompetitorBonus(n) <= CompetitorBonus(x.numCompetitors);
  }

  /** Each bonus condition can only raise the score it feeds. */
  lemma BonusesMonotone(x: Inputs)
    ensures InnovationOf(x.(aiIdea := false)) <= InnovationOf(x.(aiIdea := true))
    ensures MarketOf(x.(isGrowing := false)) <= MarketOf(x.(isGrowing := true))
    ensures MarketOf(x.(priced := false)) <= MarketOf(x.(priced := true))
    ensures MarketOf(x.(hasMarketData := false)) <= MarketOf(x.(hasMarketData := true))
  {
  }

  /**
   * In both editions the verdict is 'STRONG POTENTIAL' and the signal 'MEDIUM'
   * exactly when the two scores sum to 140 or more, and 'PROMISING' / 'LOW'
   * otherwise; the concerns list is non-empty exactly when more than five
   * distinct competitor names were found, and the company list is capped at ten.
   */
  lemma LocalAnalysisVerdict(e: Edition, p: Submission, c: Compiled, totalResults: nat)
    ensures var a := LocalAnalysisOf(e, p, c, totalResults);
      var sum := a.innovation.value.score.value + a.market.value.score.value;
      a.innovation.Some? && a.innovation.value.score.Some? && a.market.Some? && a.market.value.score.Some? &&
      (a.verdict == "STRONG POTENTIAL" <==> sum >= 140) &&
      (a.investorSignal == "MEDIUM" <==> sum >= 140) &&
      (a.verdict == "PROMISING" <==> sum < 140) &&
      (a.investorSignal == "LOW" <==> sum < 140) &&
      a.concerns.Some? && (a.concerns.value != [] <==> |c.competitors.companies| > 5) &&
      a.competitorsFound.Some? && |a.competitorsFound.value| <= 10 &&
      a.competitorsFound.value <= c.competitors.companies
  {
  }

  /**
   * The strengths list: agent.js reports the research and, with fewer than
   * five distinct competitor names, limited competition; api/evaluate.js
   * always reports only the research.
   */
  lemma LocalAnalysisStrengths(e: Edition, p: Submission, c: Compiled, totalResults: nat)
    ensures var a := LocalAnalysisOf(e, p, c, totalResults);
      a.strengths.Some? && 1 <= |a.strengths.value| <= 2 &&
      (|a.strengths.value| == 2 <==> e == Standalone && |c.competitors.companies| < 5) &&
      a.nextSteps.Some? && |a.nextSteps.value| == 2 &&
      forall k :: 0 <= k < |a.nextSteps.value| ==> a.nextSteps.value[k].priority == "URGENT"
  {
  }
}
