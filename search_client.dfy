/** The search step: the query built from the focus keyword, and
    `perform_search`, which turns an exception of the search service into
    text. The service itself is outside the model: what it does with a query
    arrives as a SearchOutcome. */
module SearchClient {
  import opened Wrappers

  const QuerySuffix: string := " - Principali risultati di ricerca e snippet"
  const SearchErrorMarker: string := "Errore nella ricerca: "

  /** The query is the keyword followed by the fixed suffix. */
  function SearchQuery(keyword: string): (query: string)
    ensures keyword <= query && query[|keyword|..] == QuerySuffix
  {
    keyword + QuerySuffix
  }

  /** The keyword a query was built from, if it was built by SearchQuery. */
  function KeywordOf(query: string): Option<string>
  {
    if |QuerySuffix| <= |query| && query[|query| - |QuerySuffix|..] == QuerySuffix
    then Some(query[..|query| - |QuerySuffix|])
    else None
  }

  /** The keyword can be read back from its query, so different keywords give different queries. */
  lemma KeywordOfQuery(keyword: string)
    ensures KeywordOf(SearchQuery(keyword)) == Some(keyword)
  {
    var q := SearchQuery(keyword);
    assert q[|q| - |QuerySuffix|..] == QuerySuffix;
    assert q[..|q| - |QuerySuffix|] == keyword;
  }

  /** Conversely, every text that KeywordOf accepts is the query of the keyword it reads. */
  lemma QueryOfKeyword(query: string)
    requires KeywordOf(query).Some?
    ensures SearchQuery(KeywordOf(query).value) == query
  {
    var k := |query| - |QuerySuffix|;
    assert query == query[..k] + query[k..];
  }

  /** What `search.run(query)` did: returned a text, or raised an exception with this message. */
  datatype SearchOutcome = Returned(text: string) | Raised(message: string)

  /** `perform_search`: the returned text as it is, or the error marker
      followed by the exception's message; it never fails. */
  function PerformSearch(outcome: SearchOutcome): (r: string)
    ensures outcome.Returned? ==> r == outcome.text
    ensures outcome.Raised? ==> SearchErrorMarker <= r && r[|SearchErrorMarker|..] == outcome.message
  {
    match outcome
    case Returned(text) => text
    case Raised(message) => SearchErrorMarker + message
  }

  /** A failed search cannot be told apart from a search that returned the
      same words: the failure is surfaced as content, not as a distinct value. */
  lemma SearchFailureIsPlainText(message: string)
    ensures PerformSearch(Raised(message)) == PerformSearch(Returned(SearchErrorMarker + message))
  {
  }
}
