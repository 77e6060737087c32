/** `format_site_audit`: the audit record as the text block handed to the
    analysis task. A parser of that text block is given as its inverse, to
    state that the labels, their order and the separators determine the fields. */
module ReportFormatter {
  import opened Wrappers
  import opened Text
  import opened SiteAuditor

  const ErrorPrefix: string := "Errore durante l'analisi del sito: "
  const TitleLabel: string := "Titolo: "
  const MetaLabel: string := "Meta Description: "
  const HeadingsLabel: string := "Headings: "

  /** An error record becomes the error sentence ending in its message; an
      audit becomes three labelled lines, title first and headings last. */
  function FormatSiteAudit(audit: SiteAudit): (r: string)
    ensures audit.Error? ==> ErrorPrefix <= r && r[|ErrorPrefix|..] == audit.message
    ensures audit.Audit? ==> TitleLabel + audit.title + "\n" + MetaLabel <= r
  {
    match audit
    case Error(message) => ErrorPrefix + message
    case Audit(title, meta, headings) =>
      TitleLabel + title + "\n" + MetaLabel + meta + "\n" + HeadingsLabel + Join(headings, Sep)
  }

  /** The three fields read back from a formatted audit. */
  datatype Report = Report(title: string, metaDescription: string, headings: seq<string>)

  /** Reads one line that starts with `caption`: the field up to the first
      line break, and the text after that line break. */
  function ReadField(caption: string, s: string): Option<(string, string)>
  {
    if !(caption <= s) then None
    else
      var after := s[|caption|..];
      match FindChar(after, '\n')
      case None => None
      case Some(i) => Some((after[..i], after[i + 1..]))
  }

  /** Reads the headings line: none when it is empty, else its pieces between ", ". */
  function ReadHeadings(line: string): seq<string>
  {
    if line == "" then [] else Split(line)
  }

  /** Reads a text block of the shape FormatSiteAudit produces for an audit:
      the title line, the meta description line, then the headings. */
  function ParseReport(s: string): Option<Report>
  {
    match ReadField(TitleLabel, s)
    case None => None
    case Some((title, rest)) =>
      match ReadField(MetaLabel, rest)
      case None => None
      case Some((meta, rest)) =>
        if HeadingsLabel <= rest then Some(Report(title, meta, ReadHeadings(rest[|HeadingsLabel|..])))
        else None
  }

  /** One labelled line followed by the rest of the text. */
  function Line(caption: string, field: string, rest: string): string {
    caption + field + "\n" + rest
  }

  /** A labelled line whose field holds no line break is read back exactly. */
  lemma ReadLine(caption: string, field: string, rest: string)
    requires '\n' !in field
    ensures ReadField(caption, Line(caption, field, rest)) == Some((field, rest))
  {
    var s := Line(caption, field, rest);
    assert caption <= s;
    var after := s[|caption|..];
    assert after == field + ['\n'] + rest;
    FindCharAfter(field, '\n', rest);
    assert after[..|field|] == field;
    assert after[|field| + 1..] == rest;
  }

  /** The headings line gives back the headings, under the conditions of ParseFormatted. */
  lemma ReadJoinedHeadings(headings: seq<string>)
    requires forall k :: 0 <= k < |headings| ==> NoSep(headings[k])
    requires headings != [""]
    ensures ReadHeadings(Join(headings, Sep)) == headings
  {
    if headings != [] {
      var joined := Join(headings, Sep);
      if |headings| > 1 {
        assert |joined| >= |Sep|;
      } else {
        assert joined == headings[0];
      }
      SplitJoin(headings);
    }
  }

  /** The formatted audit can be read back field by field, as long as the
      title and the meta description hold no line break, no heading holds the
      separator ", " and the headings are not one single empty heading (which
      prints like no heading at all). */
  lemma ParseFormatted(title: string, meta: string, headings: seq<string>)
    requires '\n' !in title && '\n' !in meta
    requires forall k :: 0 <= k < |headings| ==> NoSep(headings[k])
    requires headings != [""]
    ensures ParseReport(FormatSiteAudit(Audit(title, meta, headings))) == Some(Report(title, meta, headings))
  {
    var line3 := HeadingsLabel + Join(headings, Sep);
    var tail := Line(MetaLabel, meta, line3);
    assert FormatSiteAudit(Audit(title, meta, headings)) == Line(TitleLabel, title, tail);
    ReadLine(TitleLabel, title, tail);
    ReadLine(MetaLabel, meta, line3);
    assert line3[|HeadingsLabel|..] == Join(headings, Sep);
    ReadJoinedHeadings(headings);
  }

  /** The error sentence is never read as an audit. */
  lemma ParseErrorSentence(message: string)
    ensures ParseReport(FormatSiteAudit(Error(message))) == None
  {
    var s := FormatSiteAudit(Error(message));
    assert s[0] == 'E';
  }

  /** An error record and an audit never format to the same text. */
  lemma FormatShapesDiffer(error: SiteAudit, audit: SiteAudit)
    requires error.Error? && audit.Audit?
    ensures FormatSiteAudit(error) != FormatSiteAudit(audit)
  {
    assert FormatSiteAudit(error)[0] == 'E';
    assert FormatSiteAudit(audit)[0] == 'T';
  }

  /** An audit without headings ends with the bare label "Headings: ". */
  lemma FormatWithoutHeadings(title: string, meta: string)
    ensures FormatSiteAudit(Audit(title, meta, [])) == TitleLabel + title + "\n" + MetaLabel + meta + "\nHeadings: "
  {
  }
}
