/**
 * The records the research pipeline passes between its stages: a search
 * provider's result, the same result once the orchestrator has tagged it
 * with its category and query, and one entry of the query log.
 */
module Records {

  /** One result as the search provider returns it (`{title, snippet, url, source}`). */
  datatype SearchResult = SearchResult(title: string, snippet: string, url: string, source: string)

  /** A result after `executeSearch` has set `r.category` and `r.query` on it. */
  datatype Tagged = Tagged(result: SearchResult, category: string, query: string)

  /** `{query, category, resultsCount}`; the timestamp is not modelled. */
  datatype LogEntry = LogEntry(query: string, category: string, resultsCount: nat)

  const COMPETITORS := "competitors"
  const EXACT_MATCH := "exact_match"
  const MARKET_SIZE := "market_size"
  const TRENDS := "trends"
  const STARTUPS := "startups"
  const PROBLEM := "problem"
  const UNIQUENESS := "uniqueness"

  /** The seven category tags the signal compiler dispatches on. */
  const CATEGORIES: seq<string> := [COMPETITORS, EXACT_MATCH, MARKET_SIZE, TRENDS, STARTUPS, PROBLEM, UNIQUENESS]

  /** `results.forEach(r => { r.category = category; r.query = query; })`. */
  function TagAll(results: seq<SearchResult>, category: string, query: string): (r: seq<Tagged>)
    ensures |r| == |results|
    ensures forall k :: 0 <= k < |r| ==> r[k] == Tagged(results[k], category, query)
  {
    seq(|results|, k requires 0 <= k < |results| => Tagged(results[k], category, query))
  }
}
