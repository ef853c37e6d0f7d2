/**
 * The `VibeClubAgent` orchestrator: it runs the phase list of queries,
 * accumulating the query log and the tagged results in its fields, compiles
 * the results into signals, and assembles the evaluation.
 *
 * The search provider is the function `search` (the result list it returns
 * for a query) and the language model's reply is `llm` (None when no key is
 * configured or the call fails, in which case `localAnalysis` is used).
 */
module Agent {
  import opened Wrappers
  import opened Text
  import opened Seqs
  import opened Records
  import opened Patterns
  import opened Signals
  import opened Planner
  import opened LocalScorer
  import opened Assembler

  type Search = string -> seq<SearchResult>

  /** The log entries `powerSearch(queries, category)` appends. */
  function LogOf(queries: seq<string>, category: string, search: Search): seq<LogEntry>
    decreases |queries|
  {
    if queries == [] then []
    else
      var q := queries[|queries| - 1];
      LogOf(queries[..|queries| - 1], category, search) + [LogEntry(q, category, |search(q)|)]
  }

  /** The tagged results `powerSearch(queries, category)` appends. */
  function ResultsOf(queries: seq<string>, category: string, search: Search): seq<Tagged>
    decreases |queries|
  {
    if queries == [] then []
    else
      var q := queries[|queries| - 1];
      ResultsOf(queries[..|queries| - 1], category, search) + TagAll(search(q), category, q)
  }

  /** The query log after running every phase of `plan` in order. */
  function PlanLog(plan: seq<Batch>, search: Search): seq<LogEntry>
    decreases |plan|
  {
    if plan == [] then []
    else
      var b := plan[|plan| - 1];
      PlanLog(plan[..|plan| - 1], search) + LogOf(b.queries, b.category, search)
  }

  /** The accumulated results after running every phase of `plan` in order. */
  function PlanResults(plan: seq<Batch>, search: Search): seq<Tagged>
    decreases |plan|
  {
    if plan == [] then []
    else
      var b := plan[|plan| - 1];
      PlanResults(plan[..|plan| - 1], search) + ResultsOf(b.queries, b.category, search)
  }
  /** One more batch adds its own log entries and results. */
  lemma PlanStep(plan: seq<Batch>, i: nat, search: Search)
    requires i < |plan|
    ensures PlanLog(plan[..i + 1], search) == PlanLog(plan[..i], search) + LogOf(plan[i].queries, plan[i].category, search)
    ensures PlanResults(plan[..i + 1], search) == PlanResults(plan[..i], search) + ResultsOf(plan[i].queries, plan[i].category, search)
  {
    assert plan[..i + 1][..i] == plan[..i];
  }


  /** The sum of `resultsCount` over a log. */
  function TotalCount(log: seq<LogEntry>): nat
    decreases |log|
  {
    if log == [] then 0 else TotalCount(log[..|log| - 1]) + log[|log| - 1].resultsCount
  }

  /** What `evaluate(projectData)` returns. */
  function EvaluationOf(e: Edition, p: Submission, search: Search, llm: Option<Analysis>,
                        serperConfigured: bool): Evaluation
  {
    var plan := Plan(e, p);
    var results := PlanResults(plan, search);
    var compiled := Compile(results);
    var analysis := if llm.Some? then llm.value else LocalAnalysisOf(e, p, compiled, |results|);
    BuildResult(e, p, analysis, compiled, DetectIndustry(e, p.coreIdea), PlanLog(plan, search), results,
                serperConfigured)
  }

  /** One iteration of the `forEach` in `compileResults`, on the record built so far. */
  method Dispatch(compiled: Compiled, r: Tagged) returns (next: Compiled)
    ensures next == Step(compiled, r)
  {
    var text := CombinedText(r.result);
    next := compiled;
    if r.category == COMPETITORS {
      var companies := ExtractCompanyNames(r.result.title);
      var names := compiled.competitors.companies;
      var j := 0;
      while j < |companies|
        invariant 0 <= j <= |companies|
        invariant names == AddAll(compiled.competitors.companies, companies[..j])
      {
        if companies[j] !in names {
          names := names + [companies[j]];
        }
        AddAllSnoc(compiled.competitors.companies, companies, j);
        j := j + 1;
      }
      assert companies[..|companies|] == companies;
      next := compiled.(competitors := compiled.competitors.(results := compiled.competitors.results + [r],
                                                              companies := names));
    } else if r.category == EXACT_MATCH {
      var found := compiled.exactMatch.found;
      if JsLength(text) > 50 {
        found := true;
      }
      next := compiled.(exactMatch := ExactMatchSignals(compiled.exactMatch.results + [r], found));
    } else if r.category == MARKET_SIZE {
      var numbers := AllMatches(Money, text);
      var growth := AllMatches(Percent, text);
      next := compiled.(marketSize := MarketSizeSignals(compiled.marketSize.results + [r],
                                                        compiled.marketSize.numbers + numbers,
                                                        compiled.marketSize.growth + growth));
    } else if r.category == TRENDS {
      var keywords := compiled.trends.keywords;
      var k := 0;
      while k < |TREND_VOCABULARY|
        invariant 0 <= k <= |TREND_VOCABULARY|
        invariant keywords == compiled.trends.keywords + WordsFound(TREND_VOCABULARY[..k], text)
      {
        var kw := TREND_VOCABULARY[k];
        if Contains(text, kw) {
          keywords := keywords + [kw];
        }
        assert TREND_VOCABULARY[..k + 1][..k] == TREND_VOCABULARY[..k];
        k := k + 1;
      }
      assert TREND_VOCABULARY[..|TREND_VOCABULARY|] == TREND_VOCABULARY;
      next := compiled.(trends := TrendSignals(compiled.trends.results + [r], keywords));
    } else if r.category == STARTUPS {
      var productHunt := compiled.startups.productHunt;
      var github := compiled.startups.github;
      if Contains(r.result.url, PRODUCT_HUNT) {
        productHunt := productHunt + [r];
      }
      if Contains(r.result.url, GITHUB) {
        github := github + [r];
      }
      next := compiled.(startups := StartupSignals(compiled.startups.results + [r], productHunt, github));
    } else if r.category == PROBLEM {
      var validated := compiled.problem.validated;
      if JsLength(r.result.snippet) > 100 {
        validated := true;
      }
      next := compiled.(problem := ValidationSignals(compiled.problem.results + [r], validated));
    } else if r.category == UNIQUENESS {
      var results := compiled.uniqueness.results + [r];
      var validated := compiled.uniqueness.validated;
      if |results| < 3 {
        validated := true;
      }
      next := compiled.(uniqueness := ValidationSignals(results, validated));
    }
  }

  class VibeClubAgent {
    /** Which file's constants this agent uses. */
    const edition: Edition
    /** Whether `SERPER_API_KEY` is set; it only selects the `searchSource` label. */
    const serperConfigured: bool
    var allResults: seq<Tagged>
    var searchLog: seq<LogEntry>

    constructor(edition: Edition, serperConfigured: bool)
      ensures this.edition == edition && this.serperConfigured == serperConfigured
      ensures allResults == [] && searchLog == []
    {
      this.edition := edition;
      this.serperConfigured := serperConfigured;
      allResults := [];
      searchLog := [];
    }

    /**
     * `executeSearch(query, category)`: one log entry recording the query,
     * its category and the number of results, then every result, tagged with
     * the category and the query, appended in order.
     */
    method ExecuteSearch(query: string, category: string, search: Search)
      modifies this
      ensures searchLog == old(searchLog) + [LogEntry(query, category, |search(query)|)]
      ensures allResults == old(allResults) + TagAll(search(query), category, query)
    {
      var results := search(query);
      searchLog := searchLog + [LogEntry(query, category, |results|)];
      var i := 0;
      while i < |results|
        invariant 0 <= i <= |results|
        invariant searchLog == old(searchLog) + [LogEntry(query, category, |results|)]
        invariant allResults == old(allResults) + TagAll(results[..i], category, query)
      {
        allResults := allResults + [Tagged(results[i], category, query)];
        assert TagAll(results[..i + 1], category, query) == TagAll(results[..i], category, query) + [Tagged(results[i], category, query)];
        i := i + 1;
      }
      assert results[..|results|] == results;
    }

    /** `powerSearch(queries, category)`: `executeSearch` on each query in turn. */
    method PowerSearch(queries: seq<string>, category: string, search: Search)
      modifies this
      ensures searchLog == old(searchLog) + LogOf(queries, category, search)
      ensures allResults == old(allResults) + ResultsOf(queries, category, search)
    {
      var i := 0;
      while i < |queries|
        invariant 0 <= i <= |queries|
        invariant searchLog == old(searchLog) + LogOf(queries[..i], category, search)
        invariant allResults == old(allResults) + ResultsOf(queries[..i], category, search)
      {
        var q := queries[i];
        ExecuteSearch(q, category, search);
        assert queries[..i + 1][..i] == queries[..i] && queries[..i + 1][i] == q;
        assert LogOf(queries[..i + 1], category, search) ==
          LogOf(queries[..i], category, search) + [LogEntry(q, category, |search(q)|)];
        assert ResultsOf(queries[..i + 1], category, search) ==
          ResultsOf(queries[..i], category, search) + TagAll(search(q), category, q);
        SeqAssoc(old(searchLog), LogOf(queries[..i], category, search), [LogEntry(q, category, |search(q)|)]);
        SeqAssoc(old(allResults), ResultsOf(queries[..i], category, search), TagAll(search(q), category, q));
        i := i + 1;
      }
      assert queries[..|queries|] == queries;
    }

    /** `compileResults()`: one pass over `allResults`, then the company count. */
    method CompileResults() returns (compiled: Compiled)
      ensures compiled == Compile(allResults)
    {
      compiled := EMPTY;
      var i := 0;
      while i < |allResults|
        invariant 0 <= i <= |allResults|
        invariant compiled == Fold(allResults[..i])
      {
        compiled := Dispatch(compiled, allResults[i]);
        assert allResults[..i + 1][..i] == allResults[..i];
        i := i + 1;
      }
      assert allResults[..|allResults|] == allResults;
      compiled := compiled.(competitors := compiled.competitors.(count := |compiled.competitors.companies|));
    }

    /** The `powerSearch` calls of `evaluate`, one per phase, in order. */
    method RunPhases(plan: seq<Batch>, search: Search)
      modifies this
      ensures searchLog == old(searchLog) + PlanLog(plan, search)
      ensures allResults == old(allResults) + PlanResults(plan, search)
    {
      var i := 0;
      while i < |plan|
        invariant 0 <= i <= |plan|
        invariant searchLog == old(searchLog) + PlanLog(plan[..i], search)
        invariant allResults == old(allResults) + PlanResults(plan[..i], search)
      {
        var b := plan[i];
        PowerSearch(b.queries, b.category, search);
        PlanStep(plan, i, search);
        SeqAssoc(old(searchLog), PlanLog(plan[..i], search), LogOf(b.queries, b.category, search));
        SeqAssoc(old(allResults), PlanResults(plan[..i], search), ResultsOf(b.queries, b.category, search));
        i := i + 1;
      }
      assert plan[..|plan|] == plan;
    }

    /**
     * `evaluate(projectData)`: both accumulators are reset, every phase is
     * searched in order, the results are compiled, analysed (by the model's
     * reply or locally) and assembled.
     */
    method Evaluate(p: Submission, search: Search, llm: Option<Analysis>) returns (r: Evaluation)
      modifies this
      ensures searchLog == PlanLog(Plan(edition, p), search)
      ensures allResults == PlanResults(Plan(edition, p), search)
      ensures |searchLog| == (if p.uniqueApproach != "" then 22 else 20)
      ensures r == EvaluationOf(edition, p, search, llm, serperConfigured)
    {
      allResults := [];
      searchLog := [];
      var industry := DetectIndustry(edition, p.coreIdea);
      var plan := Plan(edition, p);
      RunPhases(plan, search);
      assert searchLog == PlanLog(plan, search);
      assert allResults == PlanResults(plan, search);
      var compiled := CompileResults();
      var analysis: Analysis;
      if llm.Some? {
        analysis := llm.value;
      } else {
        analysis := LocalAnalysis(edition, p, compiled, |allResults|);
      }
      r := BuildResult(edition, p, analysis, compiled, industry, searchLog, allResults, serperConfigured);
      PlanLogShape(plan, search);
      PlanShape(edition, p);
    }
  }

  // ----- properties of the accumulator -----

  /** One log entry per query, in query order, each with the query's category. */
  lemma {:induction false} LogOfShape(queries: seq<string>, category: string, search: Search)
    ensures |LogOf(queries, category, search)| == |queries|
    ensures forall k :: 0 <= k < |queries| ==>
      LogOf(queries, category, search)[k] == LogEntry(queries[k], category, |search(queries[k])|)
    decreases |queries|
  {
    if queries != [] {
      LogOfShape(queries[..|queries| - 1], category, search);
    }
  }

  /** Every accumulated result carries the batch's category and one of its queries. */
  lemma {:induction false} ResultsOfTagged(queries: seq<string>, category: string, search: Search)
    ensures forall t :: t in ResultsOf(queries, category, search) ==>
      t.category == category && t.query in queries && t.result in search(t.query)
    ensures |ResultsOf(queries, category, search)| == TotalCount(LogOf(queries, category, search))
    decreases |queries|
  {
    if queries != [] {
      var init, q := queries[..|queries| - 1], queries[|queries| - 1];
      ResultsOfTagged(init, category, search);
      forall t | t in TagAll(search(q), category, q)
        ensures t.category == category && t.query == q && t.result in search(q)
      {
        var k :| 0 <= k < |TagAll(search(q), category, q)| && TagAll(search(q), category, q)[k] == t;
      }
      assert forall x :: x in init ==> x in queries;
    }
  }

  lemma {:induction false} TotalCountAppend(a: seq<LogEntry>, b: seq<LogEntry>)
    ensures TotalCount(a + b) == TotalCount(a) + TotalCount(b)
    decreases |b|
  {
    if b == [] {
      assert a + b == a;
    } else {
      assert (a + b)[..|a + b| - 1] == a + b[..|b| - 1];
      TotalCountAppend(a, b[..|b| - 1]);
    }
  }

  lemma {:induction false} QueryCountSnoc(plan: seq<Batch>, b: Batch)
    ensures QueryCount(plan + [b]) == QueryCount(plan) + |b.queries|
    decreases |plan|
  {
    if plan == [] {
      assert ([] + [b])[1..] == [];
    } else {
      assert (plan + [b])[1..] == plan[1..] + [b];
      QueryCountSnoc(plan[1..], b);
    }
  }

  /**
   * The log has one entry per planned query, and the results counted in the
   * log are exactly the results accumulated, each tagged with the category
   * and a query of the phase it came from.
   */
  lemma {:induction false} PlanLogShape(plan: seq<Batch>, search: Search)
    ensures |PlanLog(plan, search)| == QueryCount(plan)
    ensures |PlanResults(plan, search)| == TotalCount(PlanLog(plan, search))
    ensures forall t :: t in PlanResults(plan, search) ==>
      exists k :: 0 <= k < |plan| && t.category == plan[k].category && t.query in plan[k].queries
    decreases |plan|
  {
    if plan != [] {
      var init, b := plan[..|plan| - 1], plan[|plan| - 1];
      assert plan == init + [b];
      PlanLogShape(init, search);
      LogOfShape(b.queries, b.category, search);
      ResultsOfTagged(b.queries, b.category, search);
      QueryCountSnoc(init, b);
      TotalCountAppend(PlanLog(init, search), LogOf(b.queries, b.category, search));
      forall t | t in PlanResults(plan, search)
        ensures exists k :: 0 <= k < |plan| && t.category == plan[k].category && t.query in plan[k].queries
      {
        if t in PlanResults(init, search) {
          var k :| 0 <= k < |init| && t.category == init[k].category && t.query in init[k].queries;
          assert plan[k] == init[k];
        } else {
          assert t in ResultsOf(b.queries, b.category, search);
          assert plan[|plan| - 1] == b;
        }
      }
    }
  }

  /**
   * The result `buildResult` assembles from `localAnalysis`: innovation in
   * [55, 90], market in [50, 90], overall in [53, 90]; its verdict is
   * 'STRONG POTENTIAL' exactly when the two scores sum to 140 or more, in
   * which case the overall score is at least 70.
   */
  lemma LocalResultScores(e: Edition, p: Submission, c: Compiled, totalResults: nat, industry: string,
                          log: seq<LogEntry>, results: seq<Tagged>, serperConfigured: bool)
    ensures var r := BuildResult(e, p, LocalAnalysisOf(e, p, c, totalResults), c, industry, log, results,
                                 serperConfigured);
      55 <= r.innovation.score <= 90 && 50 <= r.market.score <= 90 &&
      53 <= r.overall.score <= 90 &&
      (r.overall.verdict == "STRONG POTENTIAL" <==> r.innovation.score + r.market.score >= 140) &&
      (r.overall.verdict == "STRONG POTENTIAL" ==> r.overall.score >= 70) &&
      (r.overall.verdict != "STRONG POTENTIAL" ==> r.overall.verdict == "PROMISING" && r.overall.score <= 70) &&
      (r.overall.investorSignal == "MEDIUM" <==> r.overall.verdict == "STRONG POTENTIAL")
  {
    LocalAnalysisVerdict(e, p, c, totalResults);
    LocalScoresBounds(InputsOf(p, c));
  }

  /** Without a language model, the evaluation's scores are those `LocalResultScores` describes. */
  lemma OfflineScores(e: Edition, p: Submission, search: Search, serperConfigured: bool)
    ensures var r := EvaluationOf(e, p, search, None, serperConfigured);
      55 <= r.innovation.score <= 90 && 50 <= r.market.score <= 90 &&
      53 <= r.overall.score <= 90 &&
      (r.overall.verdict == "STRONG POTENTIAL" <==> r.innovation.score + r.market.score >= 140) &&
      (r.overall.verdict == "STRONG POTENTIAL" ==> r.overall.score >= 70) &&
      (r.overall.verdict != "STRONG POTENTIAL" ==> r.overall.verdict == "PROMISING" && r.overall.score <= 70) &&
      (r.overall.investorSignal == "MEDIUM" <==> r.overall.verdict == "STRONG POTENTIAL")
  {
    var plan := Plan(e, p);
    var results := PlanResults(plan, search);
    var c := Compile(results);
    var industry := DetectIndustry(e, p.coreIdea);
    assert EvaluationOf(e, p, search, None, serperConfigured) ==
      BuildResult(e, p, LocalAnalysisOf(e, p, c, |results|), c, industry, PlanLog(plan, search), results,
                  serperConfigured);
    LocalResultScores(e, p, c, |results|, industry, PlanLog(plan, search), results, serperConfigured);
  }

  /** Whatever the search returns, the evaluation reports 20 queries, or 22 with a unique approach. */
  lemma OfflineSearchCount(e: Edition, p: Submission, search: Search, llm: Option<Analysis>, serperConfigured: bool)
    ensures EvaluationOf(e, p, search, llm, serperConfigured).webResearch.totalSearches ==
            (if p.uniqueApproach != "" then 22 else 20)
  {
    var plan := Plan(e, p);
    PlanLogShape(plan, search);
    PlanShape(e, p);
  }
}
