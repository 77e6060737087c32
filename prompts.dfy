/** The texts the script builds before any task runs: `audit_string` and the
    descriptions of the three tasks. Python turns the line breaks of the
    triple-quoted literals into "\n"; every non-blank line inside them is
    indented by four spaces. */
module Prompts {
  import opened Text
  import opened SiteAuditor
  import opened ReportFormatter

  const NoUrlMessage: string := "Nessun URL fornito per l'audit del sito."

  /** `audit_string`: the fixed sentence when no URL was entered, else the
      formatted audit of the page fetched from that URL. `fetcher` stands for
      `requests.get` and the HTML parser together. */
  function AuditString(siteUrl: string, fetcher: string -> Fetch): (r: string)
    ensures siteUrl != "" ==> r == FormatSiteAudit(PerformSiteAudit(fetcher(siteUrl)))
  {
    if siteUrl == "" then NoUrlMessage else FormatSiteAudit(PerformSiteAudit(fetcher(siteUrl)))
  }

  /** The fixed sentence appears exactly when no URL was entered: no audit,
      successful or not, formats to it. */
  lemma AuditStringNoUrl(siteUrl: string, fetcher: string -> Fetch)
    ensures AuditString(siteUrl, fetcher) == NoUrlMessage <==> siteUrl == ""
  {
    if siteUrl != "" {
      var audit := PerformSiteAudit(fetcher(siteUrl));
      var text := FormatSiteAudit(audit);
      assert text[0] == (if audit.Error? then 'E' else 'T');
      assert NoUrlMessage[0] == 'N';
    }
  }

  const AnalysisOpening: string :=
    "\n    Il SEO Keyword Analyst deve raccogliere informazioni chiave sui risultati di ricerca per la keyword:\n    '"
  const AnalysisSearchHeading: string :=
    "'\n\n    Risultati di Google Serper (snippet):\n    "
  const AnalysisAuditHeading: string :=
    "\n\n    Inoltre, deve analizzare il sito fornito:\n    "
  const AnalysisClosing: string :=
    "\n\n    Richiedi di includere nel report:\n"
    + "    - Principali query correlate (keyword simili o \"people also ask\")\n"
    + "    - Analisi di snippet e meta tag (se disponibili)\n"
    + "    - Struttura dei contenuti (titoli, heading, formati)\n"
    + "    - Eventuali opportunità o gap di contenuto non coperto\n    "

  /** The description of the keyword-analysis task: the keyword, the search
      results and the audit text, verbatim and in that order, each at a
      fixed place between the literal parts. */
  function AnalysisDescription(keyword: string, searchResults: string, auditString: string): (d: string)
    ensures var atSearch := |AnalysisOpening| + |keyword| + |AnalysisSearchHeading|;
      var atAudit := atSearch + |searchResults| + |AnalysisAuditHeading|;
      && AnalysisOpening <= d
      && OccursAt(d, keyword, |AnalysisOpening|)
      && OccursAt(d, searchResults, atSearch)
      && OccursAt(d, auditString, atAudit)
      && |d| == atAudit + |auditString| + |AnalysisClosing|
  {
    OccursInTemplate(AnalysisOpening, keyword, AnalysisSearchHeading, searchResults,
                     AnalysisAuditHeading, auditString, AnalysisClosing);
    AnalysisOpening + keyword + AnalysisSearchHeading + searchResults + AnalysisAuditHeading + auditString + AnalysisClosing
  }

  /** The literal parts of the analysis description sit between the
      keyword, the search results and the audit text. */
  lemma AnalysisLiterals(keyword: string, searchResults: string, auditString: string)
    ensures var d := AnalysisDescription(keyword, searchResults, auditString);
      var atSearch := |AnalysisOpening| + |keyword| + |AnalysisSearchHeading|;
      var atAudit := atSearch + |searchResults| + |AnalysisAuditHeading|;
      && OccursAt(d, AnalysisSearchHeading, |AnalysisOpening| + |keyword|)
      && OccursAt(d, AnalysisAuditHeading, atSearch + |searchResults|)
      && OccursAt(d, AnalysisClosing, atAudit + |auditString|)
  {
    OccursInTemplate(AnalysisOpening, keyword, AnalysisSearchHeading, searchResults,
                     AnalysisAuditHeading, auditString, AnalysisClosing);
  }

  const StrategyOpening: string :=
    "\n    Il SEO Strategist, basandosi sul report del SEO Keyword Analyst, deve proporre 3-4 strategie concrete per migliorare il posizionamento \n"
    + "    della keyword '"
  const StrategyClosing: string :=
    "' e ottimizzare i contenuti.\n\n"
    + "    Dettagli richiesti:\n"
    + "    - Tipologie di contenuti da creare (blog post, landing page, FAQ)\n"
    + "    - Ottimizzazioni on-page (titoli, meta description, heading)\n"
    + "    - Potenziali link building o collaborazioni\n"
    + "    - Suggerimenti di struttura e formattazione\n    "

  /** The base description of the strategy task, before the analysis report
      is appended: the keyword, verbatim, between the fixed opening and
      closing texts. */
  function StrategyDescription(keyword: string): (d: string)
    ensures StrategyOpening <= d
    ensures OccursAt(d, keyword, |StrategyOpening|)
    ensures |d| == |StrategyOpening| + |keyword| + |StrategyClosing|
  {
    OccursInMiddle(StrategyOpening, keyword, StrategyClosing);
    StrategyOpening + keyword + StrategyClosing
  }

  /** The closing text of the strategy description follows the keyword;
      with `StrategyDescription` this fixes the whole text. */
  lemma StrategyLiterals(keyword: string)
    ensures OccursAt(StrategyDescription(keyword), StrategyClosing, |StrategyOpening| + |keyword|)
  {
    OccursInMiddle(StrategyOpening, keyword, StrategyClosing);
  }

  /** The base description of the summary task, before the reports are appended. */
  const SummaryDescription: string :=
    "\n    Il Summary Agent deve raccogliere le uscite dei task di Analisi SEO e Strategie,\n"
    + "    e produrre un riepilogo finale che evidenzi:\n"
    + "    - Le principali keyword e query correlate\n"
    + "    - Le strategie proposte e i relativi potenziali impatti\n"
    + "    - Un elenco di raccomandazioni chiave e prossimi step\n    "
}
