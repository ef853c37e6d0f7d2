/**
 * The records of the rule-based judge in aiJudge.js: the submitted project,
 * a DuckDuckGo instant-answer response, and the web-research summary that
 * the scoring rules read.
 */
module JudgeTypes {

  /**
   * The project fields the judge reads; "" stands for an absent optional
   * field (`marketSize`, `teamExperience`, `githubLink`, `demoVideoLink`).
   */
  datatype Project = Project(
    projectTitle: string,
    coreIdea: string,
    problemStatement: string,
    targetAudience: string,
    businessModel: string,
    competitiveAdvantage: string,
    marketSize: string,
    teamExperience: string,
    githubLink: string,
    demoVideoLink: string)

  /** `{abstract, topics}` (the `abstract` field is `summaryText` here) of a search response; a topic without `Text` is "". */
  datatype SearchAnswer = SearchAnswer(summaryText: string, topics: seq<string>)

  /** The `research` object of `conductWebResearch`, which the scoring rules read as `webResearch`. */
  datatype Research = Research(
    competitorsFound: seq<string>,
    marketGrowth: string,
    marketSizeValidation: string,
    similarProducts: seq<string>,
    industryTrends: string)
}
