/**
 * The query planner of `VibeClubAgent` (agent.js, and its copy in
 * api/evaluate.js): keyword extraction, industry detection with
 * first-match-wins precedence, and the seven phases of category-tagged
 * queries that `evaluate` issues.
 *
 * The two files differ only in constants, so each planner function takes the
 * `Edition` whose constants it uses.
 */
module Planner {
  import opened Text
  import opened Seqs
  import opened Records

  /** Which copy of the agent: agent.js (`Standalone`) or api/evaluate.js (`Serverless`). */
  datatype Edition = Standalone | Serverless

  /**
   * The submission fields the agent reads; the empty string stands for an
   * absent field, since the agent only ever tests them for truthiness.
   */
  datatype Submission = Submission(
    projectTitle: string,
    coreIdea: string,
    problemSolved: string,
    targetAudience: string,
    uniqueApproach: string,
    businessModel: string)

  const STANDALONE_STOPWORDS: seq<string> :=
    ["the", "a", "an", "and", "or", "for", "to", "in", "on", "with", "that", "this", "is", "are",
     "de", "het", "een", "en", "van", "voor"]

  const SERVERLESS_STOPWORDS: seq<string> :=
    ["the", "a", "an", "and", "or", "for", "to", "in", "on", "with", "that", "this", "is", "are"]

  function Stopwords(e: Edition): seq<string> {
    if e == Standalone then STANDALONE_STOPWORDS else SERVERLESS_STOPWORDS
  }

  /** The words `extractKeywords` keeps: longer than 3, not a stopword, the first 4. */
  function KeywordList(e: Edition, text: string): seq<string> {
    Take(FilterWords(Split(KeywordText(text), IsSpace), 3, Stopwords(e)), 4)
  }

  /** `extractKeywords(text)`: the kept words joined by single spaces. */
  function ExtractKeywords(e: Edition, text: string): string {
    Join(KeywordList(e, text), " ")
  }

  /**
   * The first four of the words that pass the filter (all of them when fewer
   * pass), each longer than three characters, made of lower-case
   * letters and digits only, not a stopword, in the order they occur in the
   * text (duplicates are kept); the returned string splits back into exactly
   * these words.
   */
  lemma KeywordsShape(e: Edition, text: string)
    ensures var ws := KeywordList(e, text);
      var all := FilterWords(Split(KeywordText(text), IsSpace), 3, Stopwords(e));
      |ws| == (if |all| < 4 then |all| else 4) &&
      (forall k :: 0 <= k < |ws| ==>
         |ws[k]| > 3 && ws[k] !in Stopwords(e) &&
         forall c :: c in ws[k] ==> IsLower(c) || IsDigit(c)) &&
      ws <= all &&
      (ws == [] ==> ExtractKeywords(e, text) == "") &&
      (ws != [] ==> Split(ExtractKeywords(e, text), IsSpace) == ws)
  {
    var t := KeywordText(text);
    var all := FilterWords(Split(t, IsSpace), 3, Stopwords(e));
    var ws := KeywordList(e, text);
    SplitTokens(t, IsSpace);
    forall k | 0 <= k < |ws| ensures IsToken(ws[k], IsSpace) && forall c :: c in ws[k] ==> IsLower(c) || IsDigit(c) {
      assert ws[k] == all[k];
      assert ws[k] in Split(t, IsSpace);
      forall c | c in ws[k] ensures IsLower(c) || IsDigit(c) {
        assert c in t;
      }
    }
    if ws != [] {
      SplitJoin(ws, IsSpace);
    }
  }

  /** One industry rule: `/p1|p2|.../.test(t)` and the label it returns. */
  datatype Rule = Rule(patterns: seq<string>, industry: string)

  const DEFAULT_INDUSTRY := "SaaS/Technology"

  const INDUSTRY_RULES: seq<Rule> := [
    Rule(["ai", "gpt", "machine", "automat", "intelligent"], "AI/ML"),
    Rule(["financ", "pay", "bank", "crypto", "invest", "money"], "Fintech"),
    Rule(["health", "fit", "medic", "wellness", "doctor"], "Healthtech"),
    Rule(["learn", "education", "course", "train", "student"], "Edtech"),
    Rule(["shop", "store", "ecommerce", "retail", "sell"], "E-commerce"),
    Rule(["task", "project", "productiv", "work", "team"], "Productivity"),
    Rule(["social", "community", "network", "connect"], "Social"),
    Rule(["video", "content", "creator", "media"], "Creator Economy"),
    Rule(["game", "gaming", "play"], "Gaming"),
    Rule(["food", "restaurant", "delivery"], "FoodTech")
  ]

  /** agent.js has all ten rules; api/evaluate.js stops after the first six. */
  function IndustryRules(e: Edition): seq<Rule> {
    if e == Standalone then INDUSTRY_RULES else INDUSTRY_RULES[..6]
  }

  predicate RuleMatches(r: Rule, t: string) {
    exists k :: 0 <= k < |r.patterns| && Contains(t, r.patterns[k])
  }

  /** The chain of `if (...) return label;` tests, in order. */
  function FirstLabel(rules: seq<Rule>, t: string, dflt: string): string
    decreases |rules|
  {
    if rules == [] then dflt
    else if RuleMatches(rules[0], t) then rules[0].industry
    else FirstLabel(rules[1..], t, dflt)
  }

  /** `detectIndustry(text)`. */
  function DetectIndustry(e: Edition, text: string): string {
    FirstLabel(IndustryRules(e), LowerStr(text), DEFAULT_INDUSTRY)
  }

  /**
   * First match wins: the label is that of the first rule with a matching
   * pattern, every earlier rule failing; with no matching rule it is the default.
   */
  lemma {:induction false} FirstLabelIsFirstMatch(rules: seq<Rule>, t: string, dflt: string)
    ensures (exists k :: 0 <= k < |rules| && RuleMatches(rules[k], t) &&
               (forall j :: 0 <= j < k ==> !RuleMatches(rules[j], t)) &&
               FirstLabel(rules, t, dflt) == rules[k].industry)
         || ((forall k :: 0 <= k < |rules| ==> !RuleMatches(rules[k], t)) &&
               FirstLabel(rules, t, dflt) == dflt)
    decreases |rules|
  {
    if rules != [] && !RuleMatches(rules[0], t) {
      FirstLabelIsFirstMatch(rules[1..], t, dflt);
      if exists k :: 0 <= k < |rules[1..]| && RuleMatches(rules[1..][k], t) &&
           (forall j :: 0 <= j < k ==> !RuleMatches(rules[1..][j], t)) &&
           FirstLabel(rules[1..], t, dflt) == rules[1..][k].industry {
        var k :| 0 <= k < |rules[1..]| && RuleMatches(rules[1..][k], t) &&
           (forall j :: 0 <= j < k ==> !RuleMatches(rules[1..][j], t)) &&
           FirstLabel(rules[1..], t, dflt) == rules[1..][k].industry;
        assert RuleMatches(rules[k + 1], t);
        forall j | 0 <= j < k + 1 ensures !RuleMatches(rules[j], t) {
          if j > 0 { assert rules[j] == rules[1..][j - 1]; }
        }
      } else {
        forall k | 0 <= k < |rules| ensures !RuleMatches(rules[k], t) {
          if k > 0 { assert rules[k] == rules[1..][k - 1]; }
        }
      }
    }
  }

  /**
   * Cutting the rule list after `n` rules keeps the label when one of the first
   * `n` rules matches, and gives the default otherwise.
   */
  lemma {:induction false} FirstLabelPrefix(rules: seq<Rule>, n: nat, t: string, dflt: string)
    requires n <= |rules|
    ensures (exists k :: 0 <= k < n && RuleMatches(rules[k], t)) ==>
              FirstLabel(rules[..n], t, dflt) == FirstLabel(rules, t, dflt)
    ensures (forall k :: 0 <= k < n ==> !RuleMatches(rules[k], t)) ==>
              FirstLabel(rules[..n], t, dflt) == dflt
    decreases n
  {
    if n > 0 {
      assert rules[..n][0] == rules[0];
      assert rules[..n][1..] == rules[1..][..n - 1];
      FirstLabelPrefix(rules[1..], n - 1, t, dflt);
      if !RuleMatches(rules[0], t) {
        if exists k :: 0 <= k < n && RuleMatches(rules[k], t) {
          var k :| 0 <= k < n && RuleMatches(rules[k], t);
          assert k > 0 && RuleMatches(rules[1..][k - 1], t);
        }
        forall k | 0 <= k < n - 1 && !RuleMatches(rules[k + 1], t) ensures !RuleMatches(rules[1..][k], t) {
        }
      }
    }
  }

  /**
   * The api/evaluate.js detector agrees with the agent.js one whenever one of
   * the first six rules matches, and otherwise answers "SaaS/Technology" where
   * agent.js may still answer Social, Creator Economy, Gaming or FoodTech.
   */
  lemma EditionsAgreeOnIndustry(text: string)
    ensures var t := LowerStr(text);
      (exists k :: 0 <= k < 6 && RuleMatches(INDUSTRY_RULES[k], t)) ==>
        DetectIndustry(Serverless, text) == DetectIndustry(Standalone, text)
    ensures var t := LowerStr(text);
      (forall k :: 0 <= k < 6 ==> !RuleMatches(INDUSTRY_RULES[k], t)) ==>
        DetectIndustry(Serverless, text) == DEFAULT_INDUSTRY
  {
    FirstLabelPrefix(INDUSTRY_RULES, 6, LowerStr(text), DEFAULT_INDUSTRY);
  }

  /** Any text containing "ai" — "email" and "train" included — is AI/ML, in both editions. */
  lemma AiSubstringWins(e: Edition, text: string)
    requires Contains(LowerStr(text), "ai")
    ensures DetectIndustry(e, text) == "AI/ML"
  {
    assert INDUSTRY_RULES[0].patterns[0] == "ai";
    assert RuleMatches(IndustryRules(e)[0], LowerStr(text));
  }

  /** A word with no other trigger, "email", is still classed as AI/ML. */
  lemma EmailIsAi(e: Edition)
    ensures DetectIndustry(e, "email") == "AI/ML"
  {
    assert LowerStr("email") == "email";
    assert IsPrefix("ai", "email"[2..]);
    AiSubstringWins(e, "email");
  }

  /** One phase: a list of query strings, all tagged with one category. */
  datatype Batch = Batch(category: string, queries: seq<string>)

  /** The phase list of `evaluate`, with the keywords and industry it derives. */
  function Plan(e: Edition, p: Submission): seq<Batch> {
    var problem := if p.problemSolved != "" then p.problemSolved else p.coreIdea;
    Phases(p, DetectIndustry(e, p.coreIdea), ExtractKeywords(e, p.coreIdea), ExtractKeywords(e, problem))
  }

  /** The seven literal query batches, filled in from the submission and the derived strings. */
  function Phases(p: Submission, industry: string, keywords: string, problemKeywords: string): seq<Batch> {
    var idea := p.coreIdea;
    var audience := p.targetAudience;
    [ Batch(COMPETITORS, [idea + " competitors", idea + " alternatives 2024",
                          "best " + keywords + " tools apps", keywords + " vs comparison"]),
      Batch(EXACT_MATCH, ["\"" + p.projectTitle + "\" startup", "\"" + idea + "\"",
                          keywords + " app startup product"]),
      Batch(MARKET_SIZE, [industry + " market size 2024", industry + " TAM SAM SOM",
                          audience + " market opportunity billion", industry + " industry revenue 2024"]),
      Batch(TRENDS, [industry + " trends 2024 2025", industry + " growth forecast",
                     industry + " future outlook emerging"]),
      Batch(STARTUPS, ["site:producthunt.com " + keywords, "site:github.com " + keywords,
                       keywords + " YC startup funding"]),
      Batch(PROBLEM, [audience + " problems challenges pain points", "why " + keywords + " important needed",
                      problemKeywords + " solution market need"])
    ] +
    (if p.uniqueApproach != "" then
       [Batch(UNIQUENESS, [p.uniqueApproach + " " + keywords, p.uniqueApproach + " technology innovation"])]
     else [])
  }

  /** The number of queries a phase list issues. */
  function QueryCount(plan: seq<Batch>): nat
    decreases |plan|
  {
    if plan == [] then 0 else |plan[0].queries| + QueryCount(plan[1..])
  }

  /**
   * `evaluate` issues 20 queries, or 22 when a unique approach is given, in
   * the fixed category order of the seven phases.
   */
  lemma PlanShape(e: Edition, p: Submission)
    ensures var plan := Plan(e, p);
      QueryCount(plan) == (if p.uniqueApproach != "" then 22 else 20) &&
      |plan| == (if p.uniqueApproach != "" then 7 else 6) &&
      forall k :: 0 <= k < |plan| ==> plan[k].category == CATEGORIES[k]
  {
    var problem := if p.problemSolved != "" then p.problemSolved else p.coreIdea;
    PhasesShape(p, DetectIndustry(e, p.coreIdea), ExtractKeywords(e, p.coreIdea), ExtractKeywords(e, problem));
  }

  lemma PhasesShape(p: Submission, industry: string, keywords: string, problemKeywords: string)
    ensures var plan := Phases(p, industry, keywords, problemKeywords);
      QueryCount(plan) == (if p.uniqueApproach != "" then 22 else 20) &&
      |plan| == (if p.uniqueApproach != "" then 7 else 6) &&
      forall k :: 0 <= k < |plan| ==> plan[k].category == CATEGORIES[k]
  {
    var plan := Phases(p, industry, keywords, problemKeywords);
    var p5 := plan[1..][1..][1..][1..][1..];
    var tail := p5[1..];
    assert tail == (if p.uniqueApproach != "" then [plan[6]] else []);
    if p.uniqueApproach != "" {
      assert tail[1..] == [];
    }
    assert QueryCount(tail) == (if p.uniqueApproach != "" then 2 else 0);
    assert QueryCount(p5) == 3 + QueryCount(tail);
    assert QueryCount(plan[1..][1..][1..][1..]) == 3 + QueryCount(p5);
    assert QueryCount(plan[1..][1..][1..]) == 3 + QueryCount(plan[1..][1..][1..][1..]);
    assert QueryCount(plan[1..][1..]) == 4 + QueryCount(plan[1..][1..][1..]);
    assert QueryCount(plan[1..]) == 3 + QueryCount(plan[1..][1..]);
  }
}
