# SEO keyword-research app: a verified model of its deterministic core

The application is a single Streamlit script (`SEO_App.py`). It takes a focus keyword and an
optional site URL. It runs a web search for the keyword and a light audit of the site's page.
Then it hands three tasks to a crew of language-model agents, one after the other: keyword
analysis, SEO strategy and summary. Each later task's description has the earlier reports
appended to it.

Almost everything in the script is user interface or a call to an outside service. This
project models the part that is plain, deterministic string logic:

- `SiteAuditor` (`site_auditor.dfy`): `perform_site_audit` over an abstract page. The page is
  an optional title string, a list of meta tags (name and content, each optional) and the
  elements in document order (tag and text). A failed fetch arrives as its exception message.
  The result is `Error(message)` or `Audit(title, metaDescription, headings)`, so the two
  dictionary shapes can never mix.
- `ReportFormatter` (`report_formatter.dfy`): `format_site_audit`. A parser of the text block
  is its inverse. It shows that the three labels, their order and the separators determine
  the fields.
- `SearchClient` (`search_client.dfy`): the search query built from the keyword, and
  `perform_search`, which turns an exception of the search service into text.
- `Prompts` (`prompts.dfy`): `audit_string` and the three task descriptions, with their exact
  literals. Python turns the line breaks inside triple-quoted strings into `"\n"`. The line
  "…per migliorare il posizionamento " keeps its trailing space.
- `PipelineRunner` (`pipeline_runner.dfy`): `get_task_output` and the run block.
  - `Task` is a class whose `description` is changed in place.
  - `Session` is one execution of the script. It holds the values computed at load time, the
    three tasks, the stage (Analysis → Strategy → Summary → Done), the progress value, the
    list of descriptions handed to the crew, and the captured reports.
  - `Pipeline` is the same run written as a pure function, and its contract states what the
    run promises. `Session.Execute` is proved equal to it.
- `Text` (`text.dfy`): Python's `str.strip()`, whose white space is exactly what
  `str.isspace()` accepts. Also `', '.join`, a split on `", "` as the join's inverse, and
  first-index searches. `Wrappers` (`wrappers.dfy`) holds `Option`.

The outside services are parameters:
- `search: string -> SearchOutcome` is the Serper wrapper. It returns a text or raises with
  a message.
- `fetcher: string -> Fetch` is `requests.get` followed by BeautifulSoup.
- `llm: string -> Option<string>` is the crew with its model. It maps a task description to
  that task's raw output, which may be missing.

In these places the code does something a reader may not expect, and the model follows the code:
- The search (`SEO_App.py:168-169`) and the site audit (`SEO_App.py:172-176`) run every time
  the script runs, outside the button and keyword checks. An empty keyword therefore still
  causes a search for `" - Principali risultati di ricerca e snippet"`. It only keeps the
  three stages from starting. The `Session` constructor performs both unconditionally for
  this reason.
- Only a missing task output falls back to `"No data available."`, through the
  `AttributeError` at `SEO_App.py:263-267`. An exception raised by `crew.kickoff()` is not
  caught.
- A title or meta content made only of white space is not empty, so it passes the truthiness
  test. It then strips to `""` instead of falling back to the placeholder
  (`SEO_App.py:50`, `SEO_App.py:53`). `TitleOf` and `MetaDescriptionOf` keep this behaviour.
- A failed search gives text that cannot be told apart from a search that returned the same
  words (`SearchFailureIsPlainText`). An empty headings list formats exactly like a list
  holding one empty heading. Headings that contain `", "` cannot be recovered from the
  joined line. `ParseFormatted` states its hypotheses for these reasons.

A Dafny function always gives the same result for the same argument. So formatting the same
audit twice gives identical text without any lemma.

## Model

| member | source | states |
|---|---|---|
| `Text.Strip` | SEO_App.py:50-55 | the stripped text has no white space (in the sense of Python's `isspace`) at either end |
| `Text.StripRemovesOnlySpace` | SEO_App.py:50-55 | every text is white space, then its stripped form, then white space: strip removes nothing else |
| `Text.StripRecovers` | SEO_App.py:50-55 | a text without white space at its ends, surrounded by any white space, strips back to itself: strip is the unique such decomposition |
| `Text.StripKeepsStripped` | SEO_App.py:50-55 | a text without white space at its ends is unchanged by strip |
| `Text.StripIdempotent` | SEO_App.py:50-55 | stripping twice equals stripping once |
| `Text.Join` | SEO_App.py:66 | `', '.join`: the first piece leads the text, and the length is that of all the pieces plus one separator between each two; its inverse is stated by `JoinSplit` and `SplitJoin` |
| `Text.JoinSplit` | SEO_App.py:66 | joining the pieces of a split on ", " gives the original text back, for every text |
| `Text.SplitJoin` | SEO_App.py:66 | splitting a ", "-join of a non-empty list of pieces without ", " gives the list back |
| `SiteAuditor.TitleOf` | SEO_App.py:50 | the stripped title when the page has a title string that is not empty, else "Titolo non trovato" |
| `SiteAuditor.FindDescription` | SEO_App.py:52 | the index of the first meta tag whose name is "description"; none exactly when no tag has that name |
| `SiteAuditor.MetaDescriptionOf` | SEO_App.py:52-53 | the stripped content of the first description tag when that content exists and is not empty, else "Meta description non trovata"; later description tags are ignored |
| `SiteAuditor.Headings` | SEO_App.py:55 | at most one entry per element, each without white space at its ends |
| `SiteAuditor.HeadingsAppend` | SEO_App.py:55 | the headings of a concatenation are the headings of the first part followed by those of the second (document order) |
| `SiteAuditor.HeadingAt` | SEO_App.py:55 | every h1, h2 or h3 element contributes exactly its stripped text, right after the entries of the elements before it; nothing is dropped or deduplicated |
| `SiteAuditor.HeadingFrom` | SEO_App.py:55 | every entry of the headings list is the stripped text of some h1, h2 or h3 element |
| `SiteAuditor.NoHeadings` | SEO_App.py:55 | a page without h1, h2 or h3 elements has an empty headings list |
| `SiteAuditor.HeadingsCount` | SEO_App.py:55 | the headings list has exactly one entry per h1, h2 or h3 element of the page (its length is the number of heading positions) |
| `SiteAuditor.HeadingsInDocumentOrder` | SEO_App.py:55 | a page with an h1, a paragraph, an h2 and another h1 gives the stripped texts of the three heading elements, in document order, for every text |
| `SiteAuditor.PerformSiteAudit` | SEO_App.py:41-57 | the record is an error exactly when the fetch failed, carrying its message; otherwise it is the title, meta description and headings of the page |
| `ReportFormatter.FormatSiteAudit` | SEO_App.py:59-68 | an error record gives "Errore durante l'analisi del sito: " followed by exactly its message; an audit's text starts with the title line and the "Meta Description: " label |
| `ReportFormatter.ParseFormatted` | SEO_App.py:63-68 | the formatted audit reads back as its title, meta description and headings, in that fixed label order, when the title and meta description hold no line break, no heading holds ", " and the headings are not a single empty one |
| `ReportFormatter.ParseErrorSentence` | SEO_App.py:61-62 | the error sentence never reads as an audit |
| `ReportFormatter.FormatShapesDiffer` | SEO_App.py:59-68 | an error record and an audit never format to the same text |
| `ReportFormatter.FormatWithoutHeadings` | SEO_App.py:63-68 | with no headings the block ends with "Headings: " and nothing after it |
| `SearchClient.SearchQuery` | SEO_App.py:168 | the query is the keyword followed by " - Principali risultati di ricerca e snippet" |
| `SearchClient.KeywordOfQuery` | SEO_App.py:168 | the keyword is read back from its query, so different keywords give different queries |
| `SearchClient.QueryOfKeyword` | SEO_App.py:168 | every text read as a query is the query of the keyword read from it |
| `SearchClient.PerformSearch` | SEO_App.py:29-34 | a returned text passes through unchanged; an exception gives "Errore nella ricerca: " followed by exactly its message, never a failure |
| `SearchClient.SearchFailureIsPlainText` | SEO_App.py:29-34 | a failed search yields the same text as a search that returned the marker and the message |
| `Prompts.AuditString` | SEO_App.py:171-176 | with a URL, the formatted audit of the page fetched from that URL |
| `Prompts.AuditStringNoUrl` | SEO_App.py:171-176 | the audit text is "Nessun URL fornito per l'audit del sito." if and only if the URL is empty |
| `Prompts.AnalysisDescription` | SEO_App.py:180-195 | the description of the analysis task starts with its fixed opening, and holds the keyword, the search results and the audit text verbatim, in that order, each at a fixed place; its exact length is stated |
| `Prompts.AnalysisLiterals` | SEO_App.py:180-195 | the fixed texts between the keyword, the search results and the audit text, and the closing list of requests, sit at their places in the analysis description; with `AnalysisDescription` this fixes the whole text |
| `Prompts.StrategyDescription` | SEO_App.py:210-219 | the base description of the strategy task starts with the fixed opening of the source, which includes the trailing space on its first line, followed by the keyword verbatim; its exact length is stated |
| `Prompts.StrategyLiterals` | SEO_App.py:210-219 | the fixed closing text (the rest of the sentence and the list of details) follows the keyword; with `StrategyDescription` this fixes the whole text |
| `PipelineRunner.TaskOutput` | SEO_App.py:263-267 | the task's raw output when it has one, else "No data available." |
| `PipelineRunner.FinalText` | SEO_App.py:307-308 | `final_text` is "Report di Analisi SEO:\n", the analysis report, "\n\nStrategia SEO:\n", the strategy report and a closing "\n\n", each part at its fixed place, with nothing else (the exact length is stated) |
| `PipelineRunner.StrategyPrompt` | SEO_App.py:300 | the strategy description is its base text, then "\n\nReport di Analisi SEO:\n", then the whole analysis report, with nothing else (the exact length is stated) |
| `PipelineRunner.SummaryPrompt` | SEO_App.py:307-309 | the summary description is its base text, then "\n\nReport Completo:\n", then exactly `final_text`, and nothing after it (the exact length is stated); so it holds the analysis report and then the strategy report, verbatim, after their headings |
| `PipelineRunner.Pipeline` | SEO_App.py:292-312 | exactly three kickoffs, analysis first; each report is the output of its own stage's description or the placeholder; the strategy description is exactly `StrategyPrompt` of its base and the analysis report, the summary description is exactly `SummaryPrompt` of its base and both reports, and `final_text` is exactly `FinalText` of the two reports. The contracts of those three functions fix each of these texts completely |
| `PipelineRunner.Task.constructor` | SEO_App.py:179-247 | a task starts with its description and no output |
| `PipelineRunner.Session.constructor` | SEO_App.py:167-247 | loading the script searches for the built query, computes the audit text and creates three distinct tasks with their base descriptions, at stage Analysis. The summary task's base is the constant `Prompts.SummaryDescription`, the literal of lines 233-239, the same for every keyword |
| `PipelineRunner.Session.RunAnalysis` | SEO_App.py:292-296 | the analysis task alone is kicked off with its unchanged description and its report captured; the other tasks and the later stages' fields are untouched |
| `PipelineRunner.Session.RunStrategy` | SEO_App.py:298-303 | the strategy description becomes its old text plus the analysis report under its heading, then the strategy task alone is kicked off with that description; the summary task and the summary stage's fields are untouched |
| `PipelineRunner.Session.RunSummary` | SEO_App.py:305-320 | the summary description becomes its old text plus "Report Completo:" and both reports under their headings, then the summary task alone is kicked off and its output captured |
| `PipelineRunner.Session.Execute` | SEO_App.py:286-312 | with an empty keyword nothing runs and no object changes; otherwise the three stages run in order to Done, and the descriptions handed to the crew and the reports are exactly those of `Pipeline` |
| `PipelineRunner.NoUrlScenario` | SEO_App.py:171-188 | keyword "packaging sostenibile" without URL: the audit text is the fixed sentence, it appears in the analysis description, and the run reaches the end |
| `PipelineRunner.SearchFailureScenario` | SEO_App.py:29-34 | a search that raises gives the error marker and the message as search results. That text appears in the analysis description, and the run still reaches the end |

## Left out

- The Streamlit interface is not modelled: page configuration, styled markdown, the two text inputs, the button, the expanders and the tabs (`SEO_App.py:14-17`, `73-105`, `272-281`, `317-338`). It is presentation only. Pressing the button is the call to `Session.Execute`. The warning for a missing keyword is modelled only as "not started". The progress bar is kept as the number it was last set to.
- Reading the API keys from the secrets and setting environment variables (`SEO_App.py:19-24`) is process configuration.
- The Serper wrapper, `requests.get` with its 10-second timeout, `raise_for_status` and BeautifulSoup are outside code and network I/O. They are the parameters `search` and `fetcher`. How the HTML parser picks the title string, computes `get_text()` and lower-cases tag names is the parser's own behaviour. `str(e)` is given as the message text.
- The crewai agents, the crew and the ChatOpenAI model (`SEO_App.py:37`, `114-161`, `255-261`) are a foreign, nondeterministic framework. They are the opaque function `llm` from a description to an optional output. The model therefore ignores the personas, the `expected_output` texts (`SEO_App.py:196-204`, `220-227`, `240-245`), the agents' memory between kickoffs, and the iteration and temperature settings. An exception raised by `kickoff` would end the source's run. The model's `llm` always returns.
- `datetime.now()` (`SEO_App.py:107`) reads the wall clock, and its value is never used.
- The `.get` defaults in `format_site_audit` (`SEO_App.py:64-66`) are not modelled. An audit record always has all three keys, so those defaults are never used.
- `ReportFormatter.FormatSiteAudit`: for an audit, its own contract fixes only how the text starts. The complete three-line layout is stated by `ParseFormatted`, under the hypotheses listed there.
