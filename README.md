# VibeClub evaluation pipeline in Dafny

This project models the deterministic core of the VibeClub startup evaluator. It has two pipelines.

**The power-search agent, `VibeClubAgent`.** It comes in two editions.
- `Standalone` is agent.js, with Dutch wording. `Serverless` is api/evaluate.js, with English wording.
- The two editions differ in constants (the keyword stoplist, the number of industry rules, and the wording and defaults of `localAnalysis` and `buildResult`) and in the fields of the result: `searchStats`, and the `webResearch` fields `marketSizeValidation`, `trendSignals`, `productHuntMatches`, `githubMatches` and `totalResultsAnalyzed`, exist in agent.js only.
- What it does:
  - Derives an industry and keywords from the idea (`Planner`).
  - Issues 20 or 22 queries in six or seven category batches.
  - Keeps a query log and the category-tagged results in its fields (`Agent.VibeClubAgent`).
  - Folds the results into per-category signals: company names, money and percentage figures, trend words, Product Hunt and GitHub hits, and validation flags (`Signals`, `Patterns`).
  - Scores the submission locally when no language-model reply is available (`LocalScorer`).
  - Assembles the final evaluation (`Assembler`).
- `Handler` is the POST path of the serverless function. It reports the falsy required fields, or else evaluates the body with a fresh agent.

**The rule-based judge of aiJudge.js.**
- It extracts competitor names, industry, keywords and a trend message from a DuckDuckGo instant answer, or falls back to a keyword table (`JudgeResearch`).
- It then scores the project with five innovation factors and five market factors, each score clamped to [20, 95] (`JudgeScoring`).
- From the two scores it derives:
  - the overall score, the mean rounded half-up;
  - a six-rung verdict ladder and an investor signal;
  - up to five strengths and up to four next steps.

**What is a parameter.** The environment enters the model in three ways.
- The search provider is a function `search` from a query to its result list.
- The language model's reply is an `Option<Analysis>`. `None` stands for "no key" or "the call or parse failed"; then `localAnalysis` is used.
- The judge's web research is a `Research` value.

An absent text field is the empty string, since the JavaScript code only tests fields for truthiness. Lower-casing is ASCII. Every length threshold on free text counts UTF-16 code units, as JavaScript's `.length` does (`Text.JsLength`), so a character outside the Basic Multilingual Plane counts twice. Length tests on words that are ASCII by construction (keywords after the `[^a-z0-9\s]` filter, capitalised-word matches) use the character count, which is the same there.

**Proved properties.** Among them:
- the query count is 20 or 22;
- every tagged result comes from its own batch;
- the compiled buckets partition the results;
- company names are well-formed and deduplicated;
- every regex match splits into the parts its regular expression demands (`Patterns.Shaped`);
- local scores stay within [55, 90] and [50, 90], so the lower clamp of 25 never binds;
- judge scores stay within [48, 95] and [53, 95], so the verdict is never 'RETHINK APPROACH';
- first-match industry detection;
- the exact missing-fields report.

`JudgeScoring.MinimalProjectHasOneStrength` shows that the smallest submission server.js accepts (each required field one character, the optional fields empty) gets exactly one strength when the research finds fewer than three competitors and reads the market as stable, which is what `conductWebResearch` produces when every search answers nothing (`JudgeResearch.SilentSearchResearch`). This contradicts the comment "Always have at least 3 strengths" (aiJudge.js:644): the code adds only one item when fewer than three apply.

Two behaviours of the code that bound what can be proved:
- `buildResult` keeps a language-model score as it is, without clamping; only a score of 0 or a missing score reads as 50 (agent.js:697-698). `Assembler.ScoreOr50` models this, so the score bounds hold only on the local path (`Agent.OfflineScores`).
- The serverless edition checks only the first six industry rules. `Planner.EditionsAgreeOnIndustry` states when the two editions agree.

## Model

| member | source | states |
|---|---|---|
| Agent.VibeClubAgent.constructor | agent.js:41-51 | a new agent starts with an empty result list and an empty query log |
| Agent.VibeClubAgent.ExecuteSearch | agent.js:205-228 | appends one log entry (query, category, result count) and the query's results tagged with category and query; nothing else changes |
| Agent.VibeClubAgent.PowerSearch | agent.js:196-200 | runs the queries in order: the log and results grow by exactly the per-query entries, in query order |
| Agent.VibeClubAgent.CompileResults | agent.js:328-419 | the compiled signals are the fold of the accumulated results |
| Agent.Dispatch | agent.js:363-413 | one iteration of the category switch updates the compiled signals as the fold step does |
| Agent.VibeClubAgent.RunPhases | agent.js:84-169 | running the phase batches appends the plan's log and tagged results |
| Agent.VibeClubAgent.Evaluate | agent.js:56-191 | resets the accumulators, issues 22 queries with a unique approach and 20 without, and returns the evaluation of the plan's results |
| Agent.LogOfShape | agent.js:196-215 | a batch logs exactly one entry per query, with that query's category and result count |
| Agent.ResultsOfTagged | agent.js:218-222 | every appended result carries the batch category and one of its queries and is among that query's results; their number is the sum of the logged counts |
| Agent.PlanLogShape | agent.js:84-169 | the whole run logs one entry per planned query, and every result is tagged with the category and a query of the batch it came from |
| Agent.LocalResultScores | agent.js:609-699 | on the local path innovation is in [55, 90], market in [50, 90] and overall in [53, 90]; 'STRONG POTENTIAL' exactly when the sum is at least 140 (then overall >= 70), otherwise 'PROMISING' with overall <= 70; signal 'MEDIUM' exactly with 'STRONG POTENTIAL' |
| Agent.OfflineScores | agent.js:447-449 | with no language-model reply, the whole evaluation has those same score bounds, verdict and signal |
| Agent.OfflineSearchCount | api/evaluate.js:551 | the reported number of searches is 22 with a unique approach and 20 without |
| Records.TagAll | agent.js:218-222 | tags every result of a query, one for one and in order, with the category and the query |
| Text.JsLength | aiJudge.js:434 | `.length` counts UTF-16 code units: between the character count and twice it |
| Text.JsLengthAppend | agent.js:376 | the length of a concatenation is the sum of the lengths |
| Text.JsLengthBmp | aiJudge.js:248 | inside the Basic Multilingual Plane the length is the character count |
| Text.JsLengthLower | aiJudge.js:502 | lower-casing keeps the length |
| Text.FilterWordsComplete | agent.js:776 | a word is kept exactly when it occurs in the input, is long enough and is not a stopword |
| Text.FilterWordsSnoc | agent.js:776 | the kept words come in input order |
| Planner.KeywordsShape | agent.js:772-776 | the first four filtered words, or all of them when fewer pass; each longer than three characters, lower-case alphanumeric, not a stopword, in text order; the joined string splits back into them |
| Planner.FirstLabelIsFirstMatch | agent.js:778-791 | the industry is the label of the first rule with a matching pattern, every earlier rule failing, or the default when none matches |
| Planner.FirstLabelPrefix | api/evaluate.js:565-574 | checking a prefix of the rules gives the full answer when a rule of the prefix matches, and the default otherwise |
| Planner.EditionsAgreeOnIndustry | api/evaluate.js:565-574 | both editions report the same industry when one of the six shared rules matches; otherwise the serverless one reports the default |
| Planner.AiSubstringWins | agent.js:780 | any text containing "ai" anywhere is AI/ML in both editions |
| Planner.EmailIsAi | agent.js:780 | "email" is classified AI/ML because it contains "ai" |
| Planner.PlanShape | agent.js:84-169 | six batches and 20 queries, or seven and 22 with a unique approach, tagged with the categories in phase order |
| Planner.PhasesShape | api/evaluate.js:102-161 | the same counts and category order for any derived industry and keywords |
| Signals.ExtractCompanyNames | agent.js:424-442 | the loop over split words collects the names its specification function gives |
| Signals.Clean | agent.js:431 | stripping non-alphanumerics leaves only alphanumerics, never lengthens, and keeps an alphanumeric first character |
| Signals.NameOfShape | agent.js:430-437 | a kept word is a 3..19-character capitalised candidate whose cleaned form is the name, and the name is not excluded |
| Signals.CompanyNamesShape | api/evaluate.js:324-341 | every extracted name is well-formed and is the cleaned form of a delimiter-free word of the title |
| Signals.FoldCompetitors | agent.js:367-372 | the competitor bucket holds exactly the competitor results, and the names are the deduplicated names of their titles in first-seen order |
| Signals.FoldExactMatch | api/evaluate.js:287-290 | exact-match results are selected, and `found` holds exactly when one of them has combined text longer than 50 |
| Signals.FoldMarketSize | agent.js:379-386 | market-size results are selected, and numbers and growth are the money and percent matches of their texts, in order |
| Signals.FoldTrends | api/evaluate.js:298-303 | trend results are selected, and keywords are the vocabulary words each text contains, result by result |
| Signals.FoldStartups | api/evaluate.js:304-308 | startup results are selected, and the Product Hunt and GitHub lists are those whose URL contains the marker |
| Signals.FoldProblem | api/evaluate.js:309-312 | problem results are selected, and validated exactly when one snippet is longer than 100 |
| Signals.FoldUniqueness | api/evaluate.js:313-316 | uniqueness results are selected, and validated exactly when there is at least one |
| Signals.CompileCharacterised | agent.js:363-416 | every bucket of `compileResults` characterised at once; the company list has no duplicates, and count is the number of distinct names |
| Signals.BucketsPartition | agent.js:363-414 | the seven buckets and the unrecognised results partition the result list |
| Signals.WordsFoundShape | agent.js:392-394 | a vocabulary word is reported exactly when the text contains it, at most once |
| Signals.TrendWordsShape | api/evaluate.js:300-302 | the trend keywords of one text are the vocabulary words it contains, without duplicates |
| Signals.WithUrlMembers | agent.js:399-400 | the URL filter keeps exactly the results whose URL contains the marker |
| Patterns.MoneyAtShaped | agent.js:382 | a money match splits as `$`, a non-empty run of digits, commas and dots, then a run of spaces, then one of the six units ignoring case, which ends the match |
| Patterns.PercentAtShaped | agent.js:385 | a percent match splits as a non-empty digit run, then at most one `.` followed by a non-empty digit run, then a run of spaces, then a final `%` |
| Patterns.CapWordAtShaped | aiJudge.js:189 | a topic match splits as a capital, a non-empty lower-case run, then optionally one `.` and a non-empty lower-case run; no word character touches it on either side |
| Patterns.AllMatchesSound | agent.js:382-386 | every global match has its pattern's split shape above and occurs in the text |
| Patterns.PercentRejectsInnerSpace | agent.js:385 | "1 2.%" has no percent split: the digit run comes first and whole, before any spaces |
| Patterns.MoneyRejectsInnerSpace | agent.js:382 | "$1 2 ,B" has no money split: spaces only follow the whole amount run |
| LocalScorer.LocalScores | agent.js:615-639 | the scoring branches compute the specified scores, and they land in [55, 90] and [50, 90] |
| LocalScorer.LocalAnalysis | api/evaluate.js:451-510 | the returned analysis carries both scores, in range |
| LocalScorer.LocalScoresBounds | agent.js:638-639 | innovation is in [55, 90] and market in [50, 90] for all inputs, so the lower clamp never binds |
| LocalScorer.CompetitorBonusTiers | agent.js:619-622 | the competitor bonus is 25, 20, 12 or 5 for 0, 1-2, 3-5 and 6+ names |
| LocalScorer.MoreCompetitorsNeverHelp | agent.js:619-635 | more competitor names never raise either score |
| LocalScorer.BonusesMonotone | agent.js:624-636 | an AI idea, growth words, priced model and market figures never lower a score |
| LocalScorer.LocalAnalysisVerdict | agent.js:641-690 | verdict and signal follow the sum threshold 140 in both directions; a concern exactly when more than five names; at most ten competitors reported, a prefix of the names |
| LocalScorer.LocalAnalysisStrengths | agent.js:676-686 | one strength, or two in the standalone edition with fewer than five names; two URGENT next steps |
| Assembler.GetVerdict | agent.js:793-799 | the verdict is one of the five labels |
| Assembler.GetVerdictLadder | api/evaluate.js:576-582 | each label corresponds exactly to its score band, and a higher score never yields a lower rung |
| Assembler.ScoreOr50 | agent.js:697-698 | a present non-zero reply score is kept; a missing or zero one reads as 50 |
| Assembler.RoundHalf | agent.js:699 | Math.round of a half: x <= 2r <= x + 1 |
| Assembler.BuildResult | agent.js:696-765 | overall score is the rounded mean; reply verdict, signal and lists are kept or defaulted; the search statistics, market-size validation, trend signals, Product Hunt and GitHub counts and the analysed-result count exist exactly in the standalone edition and carry the compiled values; competitors default to the first ten names |
| Assembler.OverallBetween | api/evaluate.js:515 | the overall score lies between the two section scores |
| Assembler.ZeroScoreReadAsFifty | agent.js:697 | a reply score of 0 is treated like a missing one, as 50 |
| Handler.MissingFromExact | api/evaluate.js:57 | the filter reports exactly the falsy fields, each once, in list order |
| Handler.MissingFieldsExact | api/evaluate.js:56-64 | the missing list is empty exactly when title, idea and audience are all truthy |
| Handler.Handle | api/evaluate.js:52-70 | 400 with the missing fields exactly when one is falsy; otherwise 200 with the serverless evaluation of the body |
| JudgeResearch.AddEach | aiJudge.js:180 | adding names to the insertion-ordered set one by one gives the set union in first-seen order |
| JudgeResearch.ScanDatabase | aiJudge.js:178-182 | the table loop adds the competitors of every keyword the idea contains, in table order |
| JudgeResearch.TopicMatches | aiJudge.js:189-195 | of the first three capitalised matches, those longer than two characters and not excluded are kept |
| JudgeResearch.ScanTopics | aiJudge.js:185-199 | the topic loop adds each topic's kept matches in order |
| JudgeResearch.ExtractCompetitorNames | aiJudge.js:110-203 | the returned list is the first five distinct names, without duplicates |
| JudgeResearch.DatabaseNamesMembers | aiJudge.js:178-182 | every table name comes from an entry whose keyword the idea contains |
| JudgeResearch.KeepNamesMembers | aiJudge.js:191-195 | every kept match is longer than two characters and not excluded |
| JudgeResearch.TopicNamesMembers | aiJudge.js:185-199 | every topic name is a capitalised-word match of one of the topics |
| JudgeResearch.CompetitorNamesShape | aiJudge.js:110-203 | at most five distinct names, each from a matching table entry or a topic match |
| JudgeResearch.GroupNamesMembers | aiJudge.js:282-311 | no group names exactly when no group matches; every name is from a matching group |
| JudgeResearch.FallbackShape | aiJudge.js:277-319 | one to five distinct names; the placeholder alone exactly when no keyword group matches; otherwise every name from a matched group |
| JudgeResearch.FallbackFromShape | aiJudge.js:313-318 | the same for any table whose groups are non-empty and never name the placeholder |
| JudgeResearch.JudgeKeywordsShape | aiJudge.js:324-334 | the first four distinct filtered words, or all of them when fewer pass; each longer than two characters, lower-case alphanumeric, not stopwords, in order of first occurrence; the string splits back into them |
| JudgeResearch.KeywordListShape | aiJudge.js:327-333 | the same for any stopword list |
| JudgeResearch.ExtractIndustry | aiJudge.js:339-362 | the lower-casing wrapper returns the first-match industry |
| JudgeResearch.ScanIndustries | aiJudge.js:352-361 | the nested loops return the label of the first industry with a matching keyword, or the default |
| JudgeResearch.JudgeIndustryFirstMatch | aiJudge.js:340-361 | the first matching industry wins; any text containing "app" is "saas" |
| JudgeResearch.ExtractTrends | aiJudge.js:247-259 | the message is one of the three fixed messages |
| JudgeResearch.ExtractTrendsCases | aiJudge.js:248-258 | growth words win over decline words; an abstract of 20 characters or fewer, or no response, reads as stable |
| JudgeScoring.AdvantageFactor | aiJudge.js:416-430 | the advantage factor adds 3..15 points |
| JudgeScoring.ProblemFactor | aiJudge.js:432-443 | the problem factor adds 5..15 points |
| JudgeScoring.TechnicalFactor | aiJudge.js:445-456 | the technical factor adds 0..10 points |
| JudgeScoring.CompetitionFactor | aiJudge.js:458-470 | the competition factor adds -10..5 points |
| JudgeScoring.IdeaFactor | aiJudge.js:472-480 | the idea factor adds 0..8 points |
| JudgeScoring.ScoreAdvantage | aiJudge.js:416-430 | the branches add the factor's points, reasons and improvements to the accumulators |
| JudgeScoring.ScoreProblem | aiJudge.js:432-443 | likewise for problem clarity |
| JudgeScoring.ScoreTechnical | aiJudge.js:445-456 | likewise for technical depth |
| JudgeScoring.ScoreCompetition | aiJudge.js:458-470 | likewise for competition density |
| JudgeScoring.ScoreIdea | aiJudge.js:472-480 | likewise for idea description |
| JudgeScoring.CalculateInnovationScore | aiJudge.js:411-490 | the innovation section is specified by the five factors and lies in [48, 95] |
| JudgeScoring.AudienceFactor | aiJudge.js:500-511 | the audience factor adds 5..15 points |
| JudgeScoring.RevenueFactor | aiJudge.js:513-526 | the revenue factor adds 3..18 points |
| JudgeScoring.MarketSizeFactor | aiJudge.js:528-540 | the market-size factor adds 0..15 points |
| JudgeScoring.TeamFactor | aiJudge.js:542-551 | the team factor adds 0..10 points |
| JudgeScoring.TrendFactor | aiJudge.js:553-563 | the trend factor adds -5..8 points |
| JudgeScoring.ScoreAudience | aiJudge.js:500-511 | the branches add the factor's points, reasons and improvements to the accumulators |
| JudgeScoring.ScoreRevenue | aiJudge.js:513-526 | likewise for the business model |
| JudgeScoring.ScoreMarketSize | aiJudge.js:528-540 | likewise for market size |
| JudgeScoring.ScoreTeam | aiJudge.js:542-551 | likewise for team experience |
| JudgeScoring.ScoreTrend | aiJudge.js:553-563 | likewise for the market trend |
| JudgeScoring.CalculateMarketScore | aiJudge.js:495-573 | the market section is specified by the five factors and lies in [53, 95] |
| JudgeScoring.ScoreBounds | aiJudge.js:483-489 | innovation is in [48, 95] and market in [53, 95], so the clamp at 20 never binds; improvements are non-empty and reasoning ends with a period |
| JudgeScoring.CompetitionTiers | aiJudge.js:458-470 | -10 exactly at 5+ competitors, -5 at 3-4, +5 under 3; the niche improvement exactly at 5+ |
| JudgeScoring.MoreCompetitorsNeverRaiseInnovation | aiJudge.js:458-470 | more competitors never raise the innovation score |
| JudgeScoring.MarketSizeLetters | aiJudge.js:528-540 | 15 points exactly when the size mentions 'b', 10 when 'm' but not 'b', 0 exactly when it is empty |
| JudgeScoring.GetVerdict | aiJudge.js:578-585 | the verdict is one of the six labels |
| JudgeScoring.VerdictLadder | aiJudge.js:578-585 | each label corresponds exactly to its band (85/75/65/55/45), and the ladder is monotone |
| JudgeScoring.GetInvestorSignal | aiJudge.js:590-594 | HIGH exactly when overall >= 75 and both scores >= 70; MEDIUM needs overall >= 60 and one score >= 70; LOW under 60 |
| JudgeScoring.CollectStrengths | aiJudge.js:600-642 | the conditional rules push their strengths in rule order |
| JudgeScoring.GenerateStrengths | aiJudge.js:599-653 | the strengths are the conditional ones plus 'Problem Awareness' when fewer than three, cut to five |
| JudgeScoring.StrengthsShape | aiJudge.js:644-652 | one to five strengths; 'Problem Awareness' exactly when fewer than three conditional ones applied; the first five conditional ones are kept |
| JudgeScoring.CollectUrgentSteps | aiJudge.js:659-684 | the three URGENT rules push their steps in order |
| JudgeScoring.GenerateNextSteps | aiJudge.js:658-709 | the steps are the URGENT ones, then the NICE ones, cut to four |
| JudgeScoring.NextStepsShape | aiJudge.js:658-709 | one to four steps; every URGENT step is kept and precedes every NICE step; at least one NICE step |
| JudgeScoring.UrgentStepsPresent | aiJudge.js:659-676 | a score under 65 always brings its URGENT step into the result |
| JudgeScoring.OverallShape | aiJudge.js:376-380 | overall is the half-up mean, between the two scores, in [51, 95]; its verdict is never 'RETHINK APPROACH'; HIGH only with 'EXCEPTIONAL' or 'STRONG POTENTIAL' |
| JudgeScoring.AssembleShape | aiJudge.js:368-406 | the rating follows the overall score; one to five strengths; one to four steps, including the URGENT step of each score under 65 |
| JudgeScoring.ScoresShape | aiJudge.js:368-406 | for every project and research: scores in range, never 'RETHINK APPROACH', one to five strengths, one to four steps |
| JudgeResearch.DatabaseNamesShortIdea | aiJudge.js:178-182 | an idea shorter than every keyword matches no table entry |
| JudgeResearch.SilentSearchResearch | aiJudge.js:27-57 | with every search answering nothing and a one-character idea, the research has no competitors and the stable growth message |
| JudgeScoring.StableTrend | aiJudge.js:553-563 | the stable message earns the 3-point trend bonus |
| JudgeScoring.MinimalInnovation | aiJudge.js:411-490 | the minimal accepted submission scores 63 for innovation when fewer than three competitors were found |
| JudgeScoring.MinimalMarket | aiJudge.js:495-573 | and 61 for market when the market reads as stable |
| JudgeScoring.MinimalStrengths | aiJudge.js:599-653 | with those scores its only strength is 'Problem Awareness' |
| JudgeScoring.MinimalProjectHasOneStrength | aiJudge.js:644 | `calculateScores` can return a single strength for an accepted submission, despite the "at least 3" comment |

## Left out

- Search providers (`search`, `searchGoogle`): network I/O. The result list per query is the parameter `search`; a failed call is an empty list.
- The language-model path (`deepAnalysis`, `buildSearchContext`, the prompts, the JSON parse and the fence stripping): a foreign call. Its reply, or `None` for every failure, is the parameter `llm`.
- `conductWebResearch`, `extractMarketSize` and `extractSimilarProducts` in aiJudge.js: network I/O. `evaluateProject` is then `calculateScores` on that research, so the research is the `Research` parameter of `JudgeScoring.ScoresOf`. Its catch-path defaults are not modelled.
- The `sleep` pacing, timestamps in the log, console output, CORS headers, the OPTIONS and non-POST branches, and the 500 catch of the handler.
- server.js, app.js, speech.js and transcribe.js: outside the evaluation core.
- Assembler.ScoreOr50: a language-model reply score is taken to be an integer (`Option<int>`). The reply is parsed JSON, so a fractional score (72.5) or a string score is possible; neither is modelled, and `Assembler.RoundHalf`, the overall-score bounds of `Assembler.BuildResult` and `Assembler.OverallBetween` are stated for integer scores only.
- JavaScript values that are not strings where strings are expected: `undefined` titles and snippets, non-string body fields (`Handler.SubmissionOf` reads them as ""), and NaN. Lower-casing is ASCII only.
- Display-only fields: the `thinking` texts, the `researchSummary` details, the scoring breakdowns, the recommendation, and the competitor details and comparisons.
- Agent.OfflineScores: the score bounds are proved only when there is no language-model reply, because `buildResult` does not clamp a reply's scores.
- Patterns.AllMatchesSound: states soundness only. Every reported match has its regular expression's split shape and occurs in the text; that the scan reports every leftmost non-overlapping match is how `Patterns.ScanFrom` is written, not a proved property.
- JudgeScoring.TrendFactor: its range -5..8 is stated for any research. By reading the text, the -5 branch is dead on the `extractTrends` path: the declining-market message "Market showing signs of maturation - differentiation crucial" (aiJudge.js:253-254) contains neither "declin" nor "shrink" (aiJudge.js:560), so a shrinking market scores 0 rather than the penalty. This is not proved; the substring refutation on that literal is left out.
