/** The run block of the script: when the button is pressed with a focus
    keyword, the three tasks are handed to the crew one at a time, each
    later task's description having the earlier reports appended to it in
    place. The crew and its language model are one opaque function `llm`
    from a task description to the task's output, which may be missing. */
module PipelineRunner {
  import opened Wrappers
  import opened Text
  import opened SiteAuditor
  import opened SearchClient
  import opened Prompts

  const NoData: string := "No data available."

  /** `get_task_output`: the raw text of the task's output, or the
      placeholder when the task has no output. */
  function TaskOutput(output: Option<string>): (r: string)
    ensures output.Some? ==> r == output.value
    ensures output.None? ==> r == NoData
  {
    output.GetOr(NoData)
  }

  const AnalysisHeader: string := "Report di Analisi SEO:\n"
  const StrategyHeader: string := "Strategia SEO:\n"
  const CompleteHeader: string := "Report Completo:\n"

  /** `final_text`: the analysis report and then the strategy report,
      verbatim, each under its heading and followed by a blank line. */
  function FinalText(analysisReport: string, strategyReport: string): (r: string)
    ensures AnalysisHeader <= r
    ensures OccursAt(r, analysisReport, |AnalysisHeader|)
    ensures OccursAt(r, "\n\n" + StrategyHeader, |AnalysisHeader| + |analysisReport|)
    ensures OccursAt(r, strategyReport, |AnalysisHeader| + |analysisReport| + 2 + |StrategyHeader|)
    ensures OccursAt(r, "\n\n", |r| - 2)
    ensures |r| == |AnalysisHeader| + |analysisReport| + 2 + |StrategyHeader| + |strategyReport| + 2
  {
    OccursInPair(AnalysisHeader, analysisReport, "\n\n", StrategyHeader, strategyReport, "\n\n");
    var r := AnalysisHeader + analysisReport + "\n\n" + StrategyHeader + strategyReport + "\n\n";
    assert r[..|AnalysisHeader|] == AnalysisHeader;
    assert r[..|AnalysisHeader| + |analysisReport| + 2 + |StrategyHeader|]
      == AnalysisHeader + analysisReport + ("\n\n" + StrategyHeader);
    r
  }

  /** The strategy description once the analysis report is appended: it keeps
      its base text and ends with the whole analysis report, verbatim. */
  function StrategyPrompt(base: string, analysisReport: string): (p: string)
    ensures base <= p
    ensures OccursAt(p, "\n\n" + AnalysisHeader, |base|)
    ensures OccursAt(p, analysisReport, |base| + 2 + |AnalysisHeader|)
    ensures |p| == |base| + 2 + |AnalysisHeader| + |analysisReport|
  {
    var heading := "\n\n" + AnalysisHeader;
    var tail := heading + analysisReport;
    SplitConcat(base, tail);
    SplitConcat(heading, analysisReport);
    OccursAfterPrefix(base, tail, heading, 0);
    OccursAfterPrefix(base, tail, analysisReport, |heading|);
    base + tail
  }

  /** The summary description once both reports are appended: it keeps its
      base text and holds both reports verbatim, the analysis report before
      the strategy report. */
  function SummaryPrompt(base: string, analysisReport: string, strategyReport: string): (p: string)
    ensures base <= p
    ensures OccursAt(p, "\n\n" + CompleteHeader, |base|)
    ensures OccursAt(p, FinalText(analysisReport, strategyReport), |base| + 2 + |CompleteHeader|)
    ensures |p| == |base| + 2 + |CompleteHeader| + |FinalText(analysisReport, strategyReport)|
    ensures OccursAt(p, analysisReport, |base| + 2 + |CompleteHeader| + |AnalysisHeader|)
    ensures OccursAt(p, strategyReport,
      |base| + 2 + |CompleteHeader| + |AnalysisHeader| + |analysisReport| + 2 + |StrategyHeader|)
  {
    var heading := "\n\n" + CompleteHeader;
    var final := FinalText(analysisReport, strategyReport);
    var tail := heading + final;
    SplitConcat(base, tail);
    SplitConcat(heading, final);
    OccursAfterPrefix(base, tail, heading, 0);
    OccursAfterPrefix(base, tail, final, |heading|);
    OccursAfterPrefix(heading, final, analysisReport, |AnalysisHeader|);
    OccursAfterPrefix(heading, final, strategyReport, |AnalysisHeader| + |analysisReport| + 2 + |StrategyHeader|);
    OccursAfterPrefix(base, tail, analysisReport, |heading| + |AnalysisHeader|);
    OccursAfterPrefix(base, tail, strategyReport,
      |heading| + |AnalysisHeader| + |analysisReport| + 2 + |StrategyHeader|);
    base + tail
  }

  /** What a started run hands to the crew and captures, as a value. */
  datatype Transcript = Transcript(
    prompts: seq<string>,
    analysisReport: string,
    strategyReport: string,
    finalText: string,
    summaryReport: string)

  /** The three stages in order. There are exactly three kickoffs, analysis
      first; each report is the output of its own stage's description, or the
      placeholder when there is none, so the summary stage is always reached;
      every later description is its base text with the full reports of the
      earlier stages appended, as `StrategyPrompt` and `SummaryPrompt` state. */
  function Pipeline(analysisPrompt: string, strategyBase: string, summaryBase: string,
                    llm: string -> Option<string>): (t: Transcript)
    ensures |t.prompts| == 3
    ensures t.prompts[0] == analysisPrompt
    ensures t.analysisReport == TaskOutput(llm(t.prompts[0]))
    ensures t.strategyReport == TaskOutput(llm(t.prompts[1]))
    ensures t.summaryReport == TaskOutput(llm(t.prompts[2]))
    ensures t.prompts[1] == StrategyPrompt(strategyBase, t.analysisReport)
    ensures t.prompts[2] == SummaryPrompt(summaryBase, t.analysisReport, t.strategyReport)
    ensures t.finalText == FinalText(t.analysisReport, t.strategyReport)
    ensures strategyBase <= t.prompts[1] && summaryBase <= t.prompts[2]
  {
    var analysisReport := TaskOutput(llm(analysisPrompt));
    var strategyPrompt := StrategyPrompt(strategyBase, analysisReport);
    var strategyReport := TaskOutput(llm(strategyPrompt));
    var summaryPrompt := SummaryPrompt(summaryBase, analysisReport, strategyReport);
    var t := Transcript([analysisPrompt, strategyPrompt, summaryPrompt], analysisReport, strategyReport,
                        FinalText(analysisReport, strategyReport), TaskOutput(llm(summaryPrompt)));
    assert t.prompts[0] == analysisPrompt && t.prompts[1] == strategyPrompt && t.prompts[2] == summaryPrompt;
    assert t.analysisReport == analysisReport && t.strategyReport == strategyReport;
    t
  }

  /** One task of the crew. Its description is changed in place by the run. */
  class Task {
    var description: string
    var output: Option<string>

    constructor (description: string)
      ensures this.description == description && output == None
    {
      this.description := description;
      output := None;
    }
  }

  /** Where the run is: the stage to run next, or Done. */
  datatype Stage = Analysis | Strategy | Summary | Done

  /** One execution of the script: the values it computes at load time, the
      three tasks, and what the run block records. */
  class Session {
    const keyword: string
    const query: string
    const searchResults: string
    const auditString: string
    const llm: string -> Option<string>
    const analysis: Task
    const strategy: Task
    const summary: Task
    /** The descriptions the three tasks are created with. */
    const analysisBase: string
    const strategyBase: string
    const summaryBase: string

    var stage: Stage
    var progress: nat
    /** The description of each task handed to the crew, in the order of the kickoffs. */
    var kickoffs: seq<string>
    var analysisReport: string
    var strategyReport: string
    var finalText: string
    var summaryReport: string

    /** The state after each stage, as the run block leaves it. */
    ghost predicate Valid()
      reads this, analysis, strategy, summary
    {
      && analysis != strategy && analysis != summary && strategy != summary
      && analysis.description == analysisBase
      && match stage
         case Analysis =>
           && kickoffs == [] && progress == 0
           && analysis.output == None
           && strategy.description == strategyBase && strategy.output == None
           && summary.description == summaryBase && summary.output == None
         case Strategy =>
           && kickoffs == [analysis.description] && progress == 10
           && analysis.output == llm(analysis.description)
           && analysisReport == TaskOutput(analysis.output)
           && strategy.description == strategyBase && strategy.output == None
           && summary.description == summaryBase && summary.output == None
         case Summary =>
           && kickoffs == [analysis.description, strategy.description] && progress == 50
           && analysis.output == llm(analysis.description)
           && analysisReport == TaskOutput(analysis.output)
           && strategy.description == StrategyPrompt(strategyBase, analysisReport)
           && strategy.output == llm(strategy.description)
           && strategyReport == TaskOutput(strategy.output)
           && summary.description == summaryBase && summary.output == None
         case Done =>
           && kickoffs == [analysis.description, strategy.description, summary.description]
           && progress == 100
           && analysis.output == llm(analysis.description)
           && analysisReport == TaskOutput(analysis.output)
           && strategy.description == StrategyPrompt(strategyBase, analysisReport)
           && strategy.output == llm(strategy.description)
           && strategyReport == TaskOutput(strategy.output)
           && finalText == FinalText(analysisReport, strategyReport)
           && summary.description == SummaryPrompt(summaryBase, analysisReport, strategyReport)
           && summary.output == llm(summary.description)
           && summaryReport == TaskOutput(summary.output)
    }

    /** The script up to the button: the search, the audit when a URL was
        entered, and the three tasks. `search` stands for the search service,
        `fetcher` for the page fetch and parse. */
    constructor (keyword: string, siteUrl: string, search: string -> SearchOutcome,
                 fetcher: string -> Fetch, llm: string -> Option<string>)
      ensures Valid() && stage == Analysis
      ensures fresh(analysis) && fresh(strategy) && fresh(summary)
      ensures this.keyword == keyword && this.llm == llm
      ensures query == SearchQuery(keyword)
      ensures searchResults == PerformSearch(search(query))
      ensures auditString == AuditString(siteUrl, fetcher)
      ensures analysisBase == AnalysisDescription(keyword, searchResults, auditString)
      ensures strategyBase == StrategyDescription(keyword)
      ensures summaryBase == SummaryDescription
    {
      var q := SearchQuery(keyword);
      var results := PerformSearch(search(q));
      var audit := AuditString(siteUrl, fetcher);
      var analysisText := AnalysisDescription(keyword, results, audit);
      var strategyText := StrategyDescription(keyword);
      this.keyword := keyword;
      this.llm := llm;
      query := q;
      searchResults := results;
      auditString := audit;
      analysisBase := analysisText;
      strategyBase := strategyText;
      summaryBase := SummaryDescription;
      analysis := new Task(analysisText);
      strategy := new Task(strategyText);
      summary := new Task(SummaryDescription);
      stage := Analysis;
      progress := 0;
      kickoffs := [];
      analysisReport, strategyReport, finalText, summaryReport := "", "", "", "";
    }

    /** Step 1: the analysis task alone is kicked off and its report captured. */
    method RunAnalysis()
      requires Valid() && stage == Analysis
      modifies this, analysis
      ensures Valid() && stage == Strategy
      ensures analysis.description == old(analysis.description)
      ensures kickoffs == [analysis.description]
      ensures analysisReport == TaskOutput(llm(analysis.description))
      ensures strategyReport == old(strategyReport) && finalText == old(finalText)
      ensures summaryReport == old(summaryReport)
    {
      progress := 10;
      kickoffs := kickoffs + [analysis.description];
      analysis.output := llm(analysis.description);
      analysisReport := TaskOutput(analysis.output);
      stage := Strategy;
    }

    /** Step 2: the analysis report is appended to the strategy description,
        then the strategy task alone is kicked off and its report captured. */
    method RunStrategy()
      requires Valid() && stage == Strategy
      modifies this, strategy
      ensures Valid() && stage == Summary
      ensures strategy.description == StrategyPrompt(old(strategy.description), analysisReport)
      ensures kickoffs == old(kickoffs) + [strategy.description]
      ensures analysisReport == old(analysisReport)
      ensures strategyReport == TaskOutput(llm(strategy.description))
      ensures finalText == old(finalText) && summaryReport == old(summaryReport)
    {
      progress := 50;
      strategy.description := strategy.description + ("\n\n" + AnalysisHeader + analysisReport);
      kickoffs := kickoffs + [strategy.description];
      strategy.output := llm(strategy.description);
      strategyReport := TaskOutput(strategy.output);
      stage := Summary;
    }

    /** Step 3: both reports are assembled and appended to the summary
        description, then the summary task alone is kicked off. */
    method RunSummary()
      requires Valid() && stage == Summary
      modifies this, summary
      ensures Valid() && stage == Done
      ensures summary.description ==
        SummaryPrompt(old(summary.description), analysisReport, strategyReport)
      ensures kickoffs == old(kickoffs) + [summary.description]
      ensures analysisReport == old(analysisReport) && strategyReport == old(strategyReport)
      ensures summaryReport == TaskOutput(llm(summary.description))
    {
      progress := 80;
      finalText := AnalysisHeader + analysisReport + "\n\n";
      finalText := finalText + StrategyHeader + strategyReport + "\n\n";
      summary.description := summary.description + ("\n\n" + CompleteHeader + finalText);
      kickoffs := kickoffs + [summary.description];
      summary.output := llm(summary.description);
      progress := 100;
      summaryReport := TaskOutput(summary.output);
      stage := Done;
    }

    /** The button press: without a keyword nothing runs and nothing changes;
        with one, the three stages run in order to the end, and what they
        saw and produced is exactly the Pipeline transcript. */
    method Execute() returns (started: bool)
      requires Valid() && stage == Analysis
      modifies this, analysis, strategy, summary
      ensures Valid()
      ensures started <==> keyword != ""
      ensures !started ==> unchanged(this) && unchanged(analysis) && unchanged(strategy) && unchanged(summary)
      ensures started ==> stage == Done
      ensures started ==>
        var t := Pipeline(analysisBase, strategyBase, summaryBase, llm);
        && kickoffs == t.prompts
        && analysisReport == t.analysisReport
        && strategyReport == t.strategyReport
        && finalText == t.finalText
        && summaryReport == t.summaryReport
    {
      if keyword == "" {
        started := false;
        return;
      }
      started := true;
      RunAnalysis();
      RunStrategy();
      RunSummary();
    }
  }

  /** Keyword "packaging sostenibile" and no URL: the fixed sentence stands
      for the audit in the analysis description, and the run reaches the
      summary whatever the search service and the crew do. */
  method NoUrlScenario(search: string -> SearchOutcome, fetcher: string -> Fetch,
                       llm: string -> Option<string>)
    returns (auditString: string, analysisPrompt: string, finished: bool)
    ensures auditString == NoUrlMessage
    ensures exists at :: OccursAt(analysisPrompt, NoUrlMessage, at)
    ensures finished
  {
    var session := new Session("packaging sostenibile", "", search, fetcher, llm);
    auditString := session.auditString;
    analysisPrompt := session.analysis.description;
    assert OccursAt(analysisPrompt, NoUrlMessage,
      |AnalysisOpening| + |session.keyword| + |AnalysisSearchHeading| + |session.searchResults| + |AnalysisAuditHeading|);
    var started := session.Execute();
    finished := session.stage == Done;
  }

  /** A search that raises: its message reaches the analysis description
      behind the error marker, and the run still reaches the summary. */
  method SearchFailureScenario(keyword: string, message: string, siteUrl: string,
                               fetcher: string -> Fetch, llm: string -> Option<string>)
    returns (searchResults: string, analysisPrompt: string, finished: bool)
    requires keyword != ""
    ensures SearchErrorMarker <= searchResults && searchResults[|SearchErrorMarker|..] == message
    ensures exists at :: OccursAt(analysisPrompt, searchResults, at)
    ensures finished
  {
    var session := new Session(keyword, siteUrl, _ => Raised(message), fetcher, llm);
    searchResults := session.searchResults;
    analysisPrompt := session.analysis.description;
    assert OccursAt(analysisPrompt, searchResults, |AnalysisOpening| + |keyword| + |AnalysisSearchHeading|);
    var started := session.Execute();
    finished := session.stage == Done;
  }
}
