/** `perform_site_audit`: from a fetched page to the audit record. The HTTP
    request and the HTML parser are outside the model: the page arrives as an
    abstract document, or the fetch arrives as the message of its exception. */
module SiteAuditor {
  import opened Wrappers
  import opened Text

  /** A `<meta>` tag: its `name` and `content` attributes, either may be absent. */
  datatype MetaTag = MetaTag(name: Option<string>, content: Option<string>)

  /** An element of the page, in document order: its tag name (lower case, as
      the HTML parser reports it) and its text content (`get_text()`). */
  datatype Element = Element(tag: string, text: string)

  /** The parsed page, reduced to what the audit looks at. `title` is the
      single string of the first `<title>` tag, None when there is no such
      tag or it does not hold exactly one string. `metas` and `elements` are
      in document order. */
  datatype Document = Document(title: Option<string>, metas: seq<MetaTag>, elements: seq<Element>)

  /** What `requests.get(url, timeout=10)` followed by `raise_for_status()`
      gives: the parsed page, or the text of the exception raised. */
  datatype Fetch = Fetched(page: Document) | FetchFailed(reason: string)

  /** The dictionary returned by `perform_site_audit`: either only the key
      `error`, or only the keys `title`, `meta_description` and `headings`. */
  datatype SiteAudit =
    | Error(message: string)
    | Audit(title: string, metaDescription: string, headings: seq<string>)

  const TitleFallback: string := "Titolo non trovato"
  const MetaFallback: string := "Meta description non trovata"

  /** The page title: the stripped title string when the page has one that is
      not empty, else the fallback. A title of only white space is not empty,
      so it gives the empty string and not the fallback. */
  function TitleOf(page: Document): (r: string)
    ensures page.title.Some? && page.title.value != "" ==> r == Strip(page.title.value)
    ensures page.title.None? || page.title.value == "" ==> r == TitleFallback
  {
    if page.title.Some? && page.title.value != "" then Strip(page.title.value) else TitleFallback
  }

  predicate IsDescriptionTag(m: MetaTag) {
    m.name == Some("description")
  }

  /** `soup.find("meta", attrs={"name": "description"})`: the index of the
      first meta tag named `description`, if any. */
  function FindDescription(metas: seq<MetaTag>): (r: Option<nat>)
    ensures r.None? ==> forall j :: 0 <= j < |metas| ==> !IsDescriptionTag(metas[j])
    ensures r.Some? ==> r.value < |metas| && IsDescriptionTag(metas[r.value])
    ensures r.Some? ==> forall j :: 0 <= j < r.value ==> !IsDescriptionTag(metas[j])
  {
    if metas == [] then None
    else if IsDescriptionTag(metas[0]) then Some(0)
    else
      match FindDescription(metas[1..])
      case None => None
      case Some(i) => Some(i + 1)
  }

  /** The meta description: the stripped `content` of the first meta tag named
      `description` when that tag has a content that is not empty, else the
      fallback. Later description tags are never consulted. */
  function MetaDescriptionOf(page: Document): (r: string)
    ensures FindDescription(page.metas).None? ==> r == MetaFallback
    ensures forall i :: FindDescription(page.metas) == Some(i) ==>
      var c := page.metas[i].content;
      r == if c.Some? && c.value != "" then Strip(c.value) else MetaFallback
  {
    match FindDescription(page.metas)
    case None => MetaFallback
    case Some(i) =>
      var c := page.metas[i].content;
      if c.Some? && c.value != "" then Strip(c.value) else MetaFallback
  }

  predicate IsHeading(e: Element) {
    e.tag == "h1" || e.tag == "h2" || e.tag == "h3"
  }

  /** `[h.get_text().strip() for h in soup.find_all(['h1', 'h2', 'h3'])]`. */
  function Headings(elements: seq<Element>): (r: seq<string>)
    ensures |r| <= |elements|
    ensures forall k :: 0 <= k < |r| ==> IsStripped(r[k])
  {
    if elements == [] then []
    else if IsHeading(elements[0]) then [Strip(elements[0].text)] + Headings(elements[1..])
    else Headings(elements[1..])
  }

  /** The headings of a page split in two are the headings of the first part
      followed by those of the second: document order is kept. */
  lemma {:induction false} HeadingsAppend(a: seq<Element>, b: seq<Element>)
    ensures Headings(a + b) == Headings(a) + Headings(b)
  {
    if a != [] {
      assert (a + b)[0] == a[0];
      assert (a + b)[1..] == a[1..] + b;
      HeadingsAppend(a[1..], b);
    } else {
      assert a + b == b;
    }
  }

  /** Each heading element contributes exactly its stripped text, at the
      position given by the number of headings before it; no element is
      dropped or merged with another, whatever its level or text. */
  lemma HeadingAt(elements: seq<Element>, i: nat)
    requires i < |elements| && IsHeading(elements[i])
    ensures Headings(elements) ==
      Headings(elements[..i]) + [Strip(elements[i].text)] + Headings(elements[i + 1..])
  {
    assert elements == elements[..i] + elements[i..];
    HeadingsAppend(elements[..i], elements[i..]);
    assert elements[i..][1..] == elements[i + 1..];
  }

  /** The positions of the h1, h2 and h3 elements of a page. */
  ghost function HeadingPositions(elements: seq<Element>): set<int>
  {
    set i | 0 <= i < |elements| && IsHeading(elements[i])
  }

  /** Appending an element adds its position when it is a heading. */
  lemma HeadingPositionsSnoc(front: seq<Element>, e: Element)
    ensures HeadingPositions(front + [e]) ==
      HeadingPositions(front) + (if IsHeading(e) then {|front|} else {})
  {
    var all := front + [e];
    forall i | 0 <= i < |front|
      ensures all[i] == front[i]
    {
    }
  }

  /** A single element gives one heading when it is a heading element and none otherwise. */
  lemma HeadingsOfOne(e: Element)
    ensures |Headings([e])| == if IsHeading(e) then 1 else 0
  {
    assert [e][1..] == [];
  }

  /** There are exactly as many headings as heading elements. */
  lemma {:induction false} HeadingsCount(elements: seq<Element>)
    ensures |Headings(elements)| == |HeadingPositions(elements)|
  {
    if elements == [] {
      assert HeadingPositions(elements) == {};
    } else {
      var n := |elements| - 1;
      var front := elements[..n];
      assert elements == front + [elements[n]];
      HeadingsAppend(front, [elements[n]]);
      HeadingsOfOne(elements[n]);
      HeadingsCount(front);
      HeadingPositionsSnoc(front, elements[n]);
      assert n !in HeadingPositions(front);
    }
  }

  /** Each entry of the headings list is the stripped text of some heading element. */
  lemma {:induction false} HeadingFrom(elements: seq<Element>, k: nat)
    requires k < |Headings(elements)|
    ensures exists i :: 0 <= i < |elements| && IsHeading(elements[i]) && Headings(elements)[k] == Strip(elements[i].text)
  {
    if IsHeading(elements[0]) && k == 0 {
      assert Headings(elements)[0] == Strip(elements[0].text);
    } else {
      var k' := if IsHeading(elements[0]) then k - 1 else k;
      assert Headings(elements)[k] == Headings(elements[1..])[k'];
      HeadingFrom(elements[1..], k');
      var i :| 0 <= i < |elements[1..]| && IsHeading(elements[1..][i]) && Headings(elements[1..])[k'] == Strip(elements[1..][i].text);
      assert elements[1..][i] == elements[i + 1];
    }
  }

  /** Without heading elements the list is empty; it is never padded. */
  lemma {:induction false} NoHeadings(elements: seq<Element>)
    requires forall i :: 0 <= i < |elements| ==> !IsHeading(elements[i])
    ensures Headings(elements) == []
  {
    if elements != [] {
      NoHeadings(elements[1..]);
    }
  }

  /** `perform_site_audit`: a failed fetch gives the error record and nothing
      else; a fetched page gives the three extracted fields and no error. */
  function PerformSiteAudit(fetch: Fetch): (r: SiteAudit)
    ensures r.Error? <==> fetch.FetchFailed?
    ensures fetch.FetchFailed? ==> r.message == fetch.reason
    ensures fetch.Fetched? ==>
      && r.title == TitleOf(fetch.page)
      && r.metaDescription == MetaDescriptionOf(fetch.page)
      && r.headings == Headings(fetch.page.elements)
  {
    match fetch
    case FetchFailed(reason) => Error(reason)
    case Fetched(page) => Audit(TitleOf(page), MetaDescriptionOf(page), Headings(page.elements))
  }

  /** A page with an h1, an h2 and another h1 gives their texts in that order. */
  lemma HeadingsInDocumentOrder(a: string, b: string, c: string, other: string)
    ensures Headings([Element("h1", a), Element("p", other), Element("h2", b), Element("h1", c)])
      == [Strip(a), Strip(b), Strip(c)]
  {
    var page := [Element("h1", a), Element("p", other), Element("h2", b), Element("h1", c)];
    var last := [Element("h1", c)];
    assert Headings(last) == [Strip(c)] by { assert last[1..] == []; }
    assert Headings([Element("h2", b)] + last) == [Strip(b), Strip(c)] by { assert ([Element("h2", b)] + last)[1..] == last; }
    assert Headings([Element("p", other), Element("h2", b)] + last) == [Strip(b), Strip(c)];
    assert page == [Element("h1", a)] + ([Element("p", other), Element("h2", b)] + last);
  }
}
