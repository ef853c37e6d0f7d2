/**
 * The signal compiler of `VibeClubAgent` (`compileResults` and
 * `extractCompanyNames`, identical in agent.js and api/evaluate.js), as a
 * specification: `Step` is what one iteration of the single pass does to
 * the compiled record, `Compile` is the whole pass, and the lemmas below say
 * what the pass computes bucket by bucket.
 */
module Signals {
  import opened Wrappers
  import opened Text
  import opened Seqs
  import opened Patterns
  import opened Records

  // ----- company names -----

  /** The capitalised words `extractCompanyNames` never reports. */
  const EXCLUDED_NAMES: seq<string> := [
    "The", "And", "For", "How", "What", "Best", "Top", "New", "Your",
    "Why", "Are", "This", "That", "With", "From", "Can", "Will", "All",
    "Get", "Find", "See", "Our", "Most", "More", "One", "Way", "Use"]

  /** The characters of `/[\s\-\|:,\/]+/`, on which a title is split into words. */
  predicate IsNameDelim(c: char) {
    IsSpace(c) || c == '-' || c == '|' || c == ':' || c == ',' || c == '/'
  }

  /** `word.replace(/[^a-zA-Z0-9]/g, '')`. */
  function Clean(w: string): (r: string)
    ensures |r| <= |w|
    ensures forall k :: 0 <= k < |r| ==> IsAlnum(r[k])
    ensures w != [] && IsAlnum(w[0]) ==> r != [] && r[0] == w[0]
    decreases |w|
  {
    if w == [] then [] else (if IsAlnum(w[0]) then [w[0]] else []) + Clean(w[1..])
  }

  /** The test a word must pass before it is cleaned: length 3 to 19, starting with A-Z. */
  predicate IsCandidate(w: string) {
    2 < JsLength(w) < 20 && IsUpper(w[0])
  }

  /** What one split word contributes: its cleaned form, unless excluded or too short. */
  function NameOf(w: string): Option<string> {
    if IsCandidate(w) && Clean(w) !in EXCLUDED_NAMES && |Clean(w)| > 2 then Some(Clean(w)) else None
  }

  function NamesFrom(words: seq<string>): seq<string>
    decreases |words|
  {
    if words == [] then []
    else
      var last := words[|words| - 1];
      NamesFrom(words[..|words| - 1]) + (if NameOf(last).Some? then [NameOf(last).value] else [])
  }

  /** The names `extractCompanyNames(title)` returns, in order, duplicates kept. */
  function CompanyNames(title: string): seq<string> {
    NamesFrom(Split(title, IsNameDelim))
  }

  method ExtractCompanyNames(text: string) returns (names: seq<string>)
    ensures names == CompanyNames(text)
  {
    var words := Split(text, IsNameDelim);
    names := [];
    var i := 0;
    while i < |words|
      invariant 0 <= i <= |words|
      invariant names == NamesFrom(words[..i])
    {
      var word := words[i];
      if JsLength(word) > 2 && JsLength(word) < 20 && IsUpper(word[0]) {
        var clean := Clean(word);
        if clean !in EXCLUDED_NAMES && |clean| > 2 {
          names := names + [clean];
        }
      }
      assert words[..i + 1][..i] == words[..i];
      i := i + 1;
    }
    assert words[..|words|] == words;
  }

  lemma {:induction false} NamesFromShape(words: seq<string>)
    ensures forall n :: n in NamesFrom(words) ==> exists w :: w in words && NameOf(w) == Some(n)
    decreases |words|
  {
    if words != [] {
      var init := words[..|words| - 1];
      NamesFromShape(init);
      forall n | n in NamesFrom(words) ensures exists w :: w in words && NameOf(w) == Some(n) {
        if n in NamesFrom(init) {
          var w :| w in init && NameOf(w) == Some(n);
          assert w in words;
        } else {
          assert words[|words| - 1] in words;
        }
      }
    }
  }

  /**
   * Every reported name is 3 to 19 alphanumeric characters starting with an
   * upper-case letter, is not an excluded word, and is the cleaned form of a
   * delimiter-free word of the title that started with A-Z and had length 3 to 19.
   */
  lemma NameOfShape(w: string, n: string)
    requires NameOf(w) == Some(n)
    ensures IsCandidate(w) && Clean(w) == n
    ensures 2 < |n| < 20 && IsUpper(n[0]) && n !in EXCLUDED_NAMES
  {
    assert IsAlnum(w[0]);
  }

  /** `w` is a delimiter-free word that passed the candidate test and cleans to `n`. */
  predicate CleanedFrom(n: string, w: string) {
    IsCandidate(w) && Clean(w) == n && forall c :: c in w ==> !IsNameDelim(c)
  }

  /** A reported name: 3 to 19 alphanumeric characters, upper-case first, not excluded. */
  predicate WellFormedName(n: string) {
    2 < |n| < 20 && IsUpper(n[0]) && (forall k :: 0 <= k < |n| ==> IsAlnum(n[k])) && n !in EXCLUDED_NAMES
  }

  /**
   * Every reported name is well formed and is the cleaned form of one of the
   * delimiter-free words the title splits into.
   */
  lemma CompanyNamesShape(title: string)
    ensures forall n :: n in CompanyNames(title) ==>
      WellFormedName(n) && exists w :: w in Split(title, IsNameDelim) && CleanedFrom(n, w)
  {
    var words := Split(title, IsNameDelim);
    NamesFromShape(words);
    forall n | n in CompanyNames(title)
      ensures WellFormedName(n) && exists w :: w in words && CleanedFrom(n, w)
    {
      var w :| w in words && NameOf(w) == Some(n);
      NameOfShape(w, n);
      assert forall c :: c in w ==> !IsNameDelim(c) by {
        SplitTokens(title, IsNameDelim);
      }
      assert CleanedFrom(n, w);
    }
  }

  // ----- the compiled record -----

  datatype CompetitorSignals = CompetitorSignals(results: seq<Tagged>, companies: seq<string>, count: nat)
  datatype ExactMatchSignals = ExactMatchSignals(results: seq<Tagged>, found: bool)
  datatype MarketSizeSignals = MarketSizeSignals(results: seq<Tagged>, numbers: seq<string>, growth: seq<string>)
  datatype TrendSignals = TrendSignals(results: seq<Tagged>, keywords: seq<string>)
  datatype StartupSignals = StartupSignals(results: seq<Tagged>, productHunt: seq<Tagged>, github: seq<Tagged>)
  datatype ValidationSignals = ValidationSignals(results: seq<Tagged>, validated: bool)

  datatype Compiled = Compiled(
    competitors: CompetitorSignals,
    exactMatch: ExactMatchSignals,
    marketSize: MarketSizeSignals,
    trends: TrendSignals,
    startups: StartupSignals,
    problem: ValidationSignals,
    uniqueness: ValidationSignals)

  const EMPTY: Compiled := Compiled(
    CompetitorSignals([], [], 0), ExactMatchSignals([], false), MarketSizeSignals([], [], []),
    TrendSignals([], []), StartupSignals([], [], []), ValidationSignals([], false), ValidationSignals([], false))

  /** `` `${r.title} ${r.snippet}`.toLowerCase() `` */
  function CombinedText(r: SearchResult): (t: string)
    ensures |t| == |r.title| + 1 + |r.snippet|
  {
    LowerStr(r.title + " " + r.snippet)
  }

  const TREND_VOCABULARY: seq<string> := ["growing", "declining", "emerging", "booming", "shrinking", "expanding"]

  function WordsFound(vocab: seq<string>, text: string): seq<string>
    decreases |vocab|
  {
    if vocab == [] then []
    else
      var kw := vocab[|vocab| - 1];
      WordsFound(vocab[..|vocab| - 1], text) + (if Contains(text, kw) then [kw] else [])
  }

  /** The vocabulary words `text.includes`, in vocabulary order. */
  function TrendWords(text: string): seq<string> {
    WordsFound(TREND_VOCABULARY, text)
  }

  const PRODUCT_HUNT := "producthunt"
  const GITHUB := "github"

  /*
   * One iteration of the `forEach` in `compileResults`. agent.js switches on
   * the tag; since the seven tags are distinct at most one bucket update below
   * changes anything, so the switch is written as one update per bucket, each
   * a no-op for results with another tag.
   */

  function CompetitorsStep(b: CompetitorSignals, r: Tagged): CompetitorSignals {
    if r.category == COMPETITORS then
      b.(results := b.results + [r], companies := AddAll(b.companies, CompanyNames(r.result.title)))
    else b
  }

  function ExactMatchStep(b: ExactMatchSignals, r: Tagged): ExactMatchSignals {
    if r.category == EXACT_MATCH then
      ExactMatchSignals(b.results + [r], b.found || JsLength(CombinedText(r.result)) > 50)
    else b
  }

  function MarketSizeStep(b: MarketSizeSignals, r: Tagged): MarketSizeSignals {
    if r.category == MARKET_SIZE then
      var text := CombinedText(r.result);
      MarketSizeSignals(b.results + [r], b.numbers + AllMatches(Money, text), b.growth + AllMatches(Percent, text))
    else b
  }

  function TrendsStep(b: TrendSignals, r: Tagged): TrendSignals {
    if r.category == TRENDS then
      TrendSignals(b.results + [r], b.keywords + TrendWords(CombinedText(r.result)))
    else b
  }

  function StartupsStep(b: StartupSignals, r: Tagged): StartupSignals {
    if r.category == STARTUPS then
      StartupSignals(b.results + [r],
                     b.productHunt + (if Contains(r.result.url, PRODUCT_HUNT) then [r] else []),
                     b.github + (if Contains(r.result.url, GITHUB) then [r] else []))
    else b
  }

  function ProblemStep(b: ValidationSignals, r: Tagged): ValidationSignals {
    if r.category == PROBLEM then
      ValidationSignals(b.results + [r], b.validated || JsLength(r.result.snippet) > 100)
    else b
  }

  function UniquenessStep(b: ValidationSignals, r: Tagged): ValidationSignals {
    if r.category == UNIQUENESS then
      var results := b.results + [r];
      ValidationSignals(results, b.validated || |results| < 3)
    else b
  }

  function Step(c: Compiled, r: Tagged): Compiled {
    Compiled(CompetitorsStep(c.competitors, r), ExactMatchStep(c.exactMatch, r),
             MarketSizeStep(c.marketSize, r), TrendsStep(c.trends, r), StartupsStep(c.startups, r),
             ProblemStep(c.problem, r), UniquenessStep(c.uniqueness, r))
  }

  /** The loop of `compileResults` over the first results. */
  function Fold(rs: seq<Tagged>): Compiled
    decreases |rs|
  {
    if rs == [] then EMPTY else Step(Fold(rs[..|rs| - 1]), rs[|rs| - 1])
  }

  /** `compileResults()`: the loop, then `count = companies.size`. */
  function Compile(rs: seq<Tagged>): Compiled {
    var c := Fold(rs);
    c.(competitors := c.competitors.(count := |c.competitors.companies|))
  }

  // ----- independent descriptions of each bucket -----

  /** The results tagged `cat`, in input order. */
  function Select(rs: seq<Tagged>, cat: string): seq<Tagged>
    decreases |rs|
  {
    if rs == [] then []
    else Select(rs[..|rs| - 1], cat) + (if rs[|rs| - 1].category == cat then [rs[|rs| - 1]] else [])
  }

  /** The results whose tag is none of the seven categories. */
  function Unrecognised(rs: seq<Tagged>): seq<Tagged>
    decreases |rs|
  {
    if rs == [] then []
    else Unrecognised(rs[..|rs| - 1]) + (if rs[|rs| - 1].category !in CATEGORIES then [rs[|rs| - 1]] else [])
  }

  /** The results whose url contains `marker`, in order. */
  function WithUrl(rs: seq<Tagged>, marker: string): seq<Tagged>
    decreases |rs|
  {
    if rs == [] then []
    else WithUrl(rs[..|rs| - 1], marker) + (if Contains(rs[|rs| - 1].result.url, marker) then [rs[|rs| - 1]] else [])
  }

  /** All names from all titles, in order, duplicates kept. */
  function NamesOf(rs: seq<Tagged>): seq<string>
    decreases |rs|
  {
    if rs == [] then [] else NamesOf(rs[..|rs| - 1]) + CompanyNames(rs[|rs| - 1].result.title)
  }

  /** All matches of `p` in all combined texts, in order. */
  function MatchesOf(p: Pattern, rs: seq<Tagged>): seq<string>
    decreases |rs|
  {
    if rs == [] then [] else MatchesOf(p, rs[..|rs| - 1]) + AllMatches(p, CombinedText(rs[|rs| - 1].result))
  }

  /** All trend words of all combined texts, in order. */
  function TrendsOf(rs: seq<Tagged>): seq<string>
    decreases |rs|
  {
    if rs == [] then [] else TrendsOf(rs[..|rs| - 1]) + TrendWords(CombinedText(rs[|rs| - 1].result))
  }

  lemma SelectMembers(rs: seq<Tagged>, cat: string)
    ensures forall r :: r in Select(rs, cat) <==> r in rs && r.category == cat
  {
    if rs != [] {
      SelectMembers(rs[..|rs| - 1], cat);
      assert rs == rs[..|rs| - 1] + [rs[|rs| - 1]];
    }
  }

  /** The snoc step of every description above. */
  lemma SelectSnoc(rs: seq<Tagged>, r: Tagged, cat: string)
    ensures Select(rs + [r], cat) == Select(rs, cat) + (if r.category == cat then [r] else [])
    ensures WithUrl(rs + [r], cat) == WithUrl(rs, cat) + (if Contains(r.result.url, cat) then [r] else [])
    ensures NamesOf(rs + [r]) == NamesOf(rs) + CompanyNames(r.result.title)
    ensures MatchesOf(Money, rs + [r]) == MatchesOf(Money, rs) + AllMatches(Money, CombinedText(r.result))
    ensures MatchesOf(Percent, rs + [r]) == MatchesOf(Percent, rs) + AllMatches(Percent, CombinedText(r.result))
    ensures TrendsOf(rs + [r]) == TrendsOf(rs) + TrendWords(CombinedText(r.result))
  {
    assert (rs + [r])[..|rs|] == rs;
  }

  lemma {:induction false} FoldCompetitors(rs: seq<Tagged>)
    ensures Fold(rs).competitors.results == Select(rs, COMPETITORS)
    ensures Fold(rs).competitors.companies == Dedup(NamesOf(Select(rs, COMPETITORS)))
    decreases |rs|
  {
    if rs != [] {
      var init, r := rs[..|rs| - 1], rs[|rs| - 1];
      assert rs == init + [r];
      FoldCompetitors(init);
      SelectSnoc(init, r, COMPETITORS);
      if r.category == COMPETITORS {
        SelectSnoc(Select(init, COMPETITORS), r, COMPETITORS);
        AddAllAppend([], NamesOf(Select(init, COMPETITORS)), CompanyNames(r.result.title));
      }
    }
  }

  lemma {:induction false} FoldExactMatch(rs: seq<Tagged>)
    ensures Fold(rs).exactMatch.results == Select(rs, EXACT_MATCH)
    ensures Fold(rs).exactMatch.found <==>
              exists r :: r in Select(rs, EXACT_MATCH) && JsLength(CombinedText(r.result)) > 50
    decreases |rs|
  {
    if rs != [] {
      var init, r := rs[..|rs| - 1], rs[|rs| - 1];
      assert rs == init + [r];
      FoldExactMatch(init);
      SelectSnoc(init, r, EXACT_MATCH);
    }
  }

  lemma {:induction false} FoldMarketSize(rs: seq<Tagged>)
    ensures Fold(rs).marketSize.results == Select(rs, MARKET_SIZE)
    ensures Fold(rs).marketSize.numbers == MatchesOf(Money, Select(rs, MARKET_SIZE))
    ensures Fold(rs).marketSize.growth == MatchesOf(Percent, Select(rs, MARKET_SIZE))
    decreases |rs|
  {
    if rs != [] {
      var init, r := rs[..|rs| - 1], rs[|rs| - 1];
      assert rs == init + [r];
      FoldMarketSize(init);
      SelectSnoc(init, r, MARKET_SIZE);
      if r.category == MARKET_SIZE {
        SelectSnoc(Select(init, MARKET_SIZE), r, MARKET_SIZE);
      }
    }
  }

  lemma {:induction false} FoldTrends(rs: seq<Tagged>)
    ensures Fold(rs).trends.results == Select(rs, TRENDS)
    ensures Fold(rs).trends.keywords == TrendsOf(Select(rs, TRENDS))
    decreases |rs|
  {
    if rs != [] {
      var init, r := rs[..|rs| - 1], rs[|rs| - 1];
      assert rs == init + [r];
      FoldTrends(init);
      SelectSnoc(init, r, TRENDS);
      if r.category == TRENDS {
        SelectSnoc(Select(init, TRENDS), r, TRENDS);
      }
    }
  }

  lemma {:induction false} FoldStartups(rs: seq<Tagged>)
    ensures Fold(rs).startups.results == Select(rs, STARTUPS)
    ensures Fold(rs).startups.productHunt == WithUrl(Select(rs, STARTUPS), PRODUCT_HUNT)
    ensures Fold(rs).startups.github == WithUrl(Select(rs, STARTUPS), GITHUB)
    decreases |rs|
  {
    if rs != [] {
      var init, r := rs[..|rs| - 1], rs[|rs| - 1];
      assert rs == init + [r];
      FoldStartups(init);
      SelectSnoc(init, r, STARTUPS);
      if r.category == STARTUPS {
        SelectSnoc(Select(init, STARTUPS), r, PRODUCT_HUNT);
        SelectSnoc(Select(init, STARTUPS), r, GITHUB);
      }
    }
  }

  lemma {:induction false} FoldProblem(rs: seq<Tagged>)
    ensures Fold(rs).problem.results == Select(rs, PROBLEM)
    ensures Fold(rs).problem.validated <==>
              exists r :: r in Select(rs, PROBLEM) && JsLength(r.result.snippet) > 100
    decreases |rs|
  {
    if rs != [] {
      var init, r := rs[..|rs| - 1], rs[|rs| - 1];
      assert rs == init + [r];
      FoldProblem(init);
      SelectSnoc(init, r, PROBLEM);
    }
  }

  lemma {:induction false} FoldUniqueness(rs: seq<Tagged>)
    ensures Fold(rs).uniqueness.results == Select(rs, UNIQUENESS)
    ensures Fold(rs).uniqueness.validated <==> Select(rs, UNIQUENESS) != []
    decreases |rs|
  {
    if rs != [] {
      var init, r := rs[..|rs| - 1], rs[|rs| - 1];
      assert rs == init + [r];
      FoldUniqueness(init);
      SelectSnoc(init, r, UNIQUENESS);
    }
  }

  /**
   * What the single pass computes: every bucket holds exactly the results
   * tagged with its category, in input order; the company list is the
   * duplicate-free, insertion-ordered list of the names of all competitor
   * titles and `count` is its length, the number of distinct names; the money
   * and percentage figures and trend words are those of the bucket's texts,
   * in order; the ProductHunt and GitHub lists are the startup results whose
   * url contains "producthunt" or "github"; `exactMatch.found` and
   * `problem.validated` hold iff some result of their bucket is long enough;
   * and `uniqueness.validated` holds iff any uniqueness result exists, since
   * the `< 3` test passes at the first one and the flag is never reset.
   */
  lemma CompileCharacterised(rs: seq<Tagged>)
    ensures var c := Compile(rs);
      c.competitors.results == Select(rs, COMPETITORS) &&
      c.competitors.companies == Dedup(NamesOf(Select(rs, COMPETITORS))) &&
      NoDup(c.competitors.companies) &&
      c.competitors.count == |c.competitors.companies| &&
      c.competitors.count == |set n | n in NamesOf(Select(rs, COMPETITORS))| &&
      c.exactMatch.results == Select(rs, EXACT_MATCH) &&
      (c.exactMatch.found <==> exists r :: r in Select(rs, EXACT_MATCH) && JsLength(CombinedText(r.result)) > 50) &&
      c.marketSize.results == Select(rs, MARKET_SIZE) &&
      c.marketSize.numbers == MatchesOf(Money, Select(rs, MARKET_SIZE)) &&
      c.marketSize.growth == MatchesOf(Percent, Select(rs, MARKET_SIZE)) &&
      c.trends.results == Select(rs, TRENDS) &&
      c.trends.keywords == TrendsOf(Select(rs, TRENDS)) &&
      c.startups.results == Select(rs, STARTUPS) &&
      c.startups.productHunt == WithUrl(Select(rs, STARTUPS), PRODUCT_HUNT) &&
      c.startups.github == WithUrl(Select(rs, STARTUPS), GITHUB) &&
      c.problem.results == Select(rs, PROBLEM) &&
      (c.problem.validated <==> exists r :: r in Select(rs, PROBLEM) && JsLength(r.result.snippet) > 100) &&
      c.uniqueness.results == Select(rs, UNIQUENESS) &&
      (c.uniqueness.validated <==> Select(rs, UNIQUENESS) != [])
  {
    FoldCompetitors(rs);
    FoldExactMatch(rs);
    FoldMarketSize(rs);
    FoldTrends(rs);
    FoldStartups(rs);
    FoldProblem(rs);
    FoldUniqueness(rs);
    DedupCard(NamesOf(Select(rs, COMPETITORS)));
  }

  /**
   * Results with any other tag are dropped: the seven buckets together with
   * the unrecognised results account for every input result exactly once.
   */
  lemma {:induction false} BucketsPartition(rs: seq<Tagged>)
    ensures |Select(rs, COMPETITORS)| + |Select(rs, EXACT_MATCH)| + |Select(rs, MARKET_SIZE)| +
            |Select(rs, TRENDS)| + |Select(rs, STARTUPS)| + |Select(rs, PROBLEM)| +
            |Select(rs, UNIQUENESS)| + |Unrecognised(rs)| == |rs|
    ensures forall r :: r in Unrecognised(rs) <==> r in rs && r.category !in CATEGORIES
    decreases |rs|
  {
    if rs != [] {
      var init, r := rs[..|rs| - 1], rs[|rs| - 1];
      assert rs == init + [r];
      BucketsPartition(init);
    }
  }

  /**
   * The trend words found in one text are the vocabulary words it contains,
   * each once, in vocabulary order.
   */
  lemma {:induction false} WordsFoundShape(vocab: seq<string>, text: string)
    ensures forall w :: w in WordsFound(vocab, text) <==> w in vocab && Contains(text, w)
    ensures NoDup(vocab) ==> NoDup(WordsFound(vocab, text))
    decreases |vocab|
  {
    if vocab != [] {
      var init, kw := vocab[..|vocab| - 1], vocab[|vocab| - 1];
      assert vocab == init + [kw];
      WordsFoundShape(init, text);
      if NoDup(vocab) {
        assert kw !in init by {
          forall k | 0 <= k < |init| ensures init[k] != kw { assert vocab[k] == init[k]; }
        }
      }
    }
  }

  lemma TrendWordsShape(text: string)
    ensures forall w :: w in TrendWords(text) <==> w in TREND_VOCABULARY && Contains(text, w)
    ensures NoDup(TrendWords(text))
  {
    WordsFoundShape(TREND_VOCABULARY, text);
  }

  /** The ProductHunt and GitHub lists only hold startup results, in their order. */
  lemma {:induction false} WithUrlMembers(rs: seq<Tagged>, marker: string)
    ensures forall r :: r in WithUrl(rs, marker) <==> r in rs && Contains(r.result.url, marker)
    ensures |WithUrl(rs, marker)| <= |rs|
    decreases |rs|
  {
    if rs != [] {
      var init, r := rs[..|rs| - 1], rs[|rs| - 1];
      assert rs == init + [r];
      WithUrlMembers(init, marker);
    }
  }
}
