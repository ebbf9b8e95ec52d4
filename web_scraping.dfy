/** The website summarizer: shaping what was extracted from a fetched page, cleaning the
    language model's reply into key points, and the fetch-failure short-circuit.
    Fetching, HTML parsing and regular-expression matching are done by foreign code; their
    results are inputs here (a `Page`, the fetched HTML as an option). */
module WebScraping {
  import opened Python

  /** A `<meta name="description">` tag, with its `content` attribute if it has one. */
  datatype MetaTag = MetaTag(content: Option<string>)

  /** An element of the parsed page: its tag name, its `.string` (the text of its one
      text child, if it has exactly one) and its `get_text(strip=True)`. */
  datatype Element = Element(name: string, ownString: Option<string>, text: string)

  /** What the parser and the two regular expressions make of one page, in document order. */
  datatype Page = Page(
    descriptionMeta: Option<MetaTag>,  // soup.find("meta", attrs={"name": "description"})
    paragraphs: seq<string>,           // get_text(strip=True) of every <p>
    elements: seq<Element>,            // every element of the page
    emailMatches: seq<string>,         // re.findall of the e-mail pattern over the HTML
    phoneMatches: seq<string>)         // re.findall of the phone pattern over the HTML

  /** The record `extract_text_and_contacts` returns. */
  datatype Extracted = Extracted(
    metaDescription: string,
    mainText: string,
    emails: seq<string>,
    phones: seq<string>,
    newsUpdates: seq<string>)

  /** The result of `scrape_website_and_summarize`: an error record, or the full result. */
  datatype Scrape =
    | FetchFailed(error: string)
    | Scraped(companyName: Value, url: Value, extracted: Extracted, keyPoints: seq<string>)

  const MaxParagraphs: nat := 20
  const MaxNews: nat := 3

  /** The characters `line.strip("•- ")` removes. */
  const BulletMarkers: set<char> := {'\U{2022}', '-', ' '}

  /** The key points returned when no language-model key is configured. */
  const StubKeyPoints: seq<string> := [
    "Example key point 1 about the business",
    "Example key point 2 about the business",
    "Example key point 3 about the business"
  ]

  // ---------------------------------------------------------------- extraction

  /** ASCII lower-casing, as `re.I` applies it to the letters of the news pattern. */
  function LowerAscii(c: char): char {
    if 'A' <= c <= 'Z' then (c as int - 'A' as int + 'a' as int) as char else c
  }

  /** `word` (lower case) occurs in `s` at `i`, ignoring case. */
  predicate OccursAtIgnoringCase(s: string, word: string, i: nat) {
    i + |word| <= |s| && forall k :: 0 <= k < |word| ==> LowerAscii(s[i + k]) == word[k]
  }

  /** `re.compile(r"news|update", re.I)` finds a match somewhere in `s`. */
  predicate MentionsNews(s: string) {
    exists i: nat :: i <= |s| && (OccursAtIgnoringCase(s, "news", i) || OccursAtIgnoringCase(s, "update", i))
  }

  /** `soup.find_all(["section", "div"], string=...)` selects this element. */
  predicate IsNewsSection(e: Element) {
    && (e.name == "section" || e.name == "div")
    && e.ownString.Some?
    && MentionsNews(e.ownString.value)
  }

  /** The texts of the selected sections, in document order: what the loop at
      web_scraping.py:56-58 accumulates. */
  function NewsSections(elements: seq<Element>): (texts: seq<string>)
    ensures |texts| <= |elements|
    ensures forall t :: t in texts ==> exists e :: e in elements && IsNewsSection(e) && e.text == t
  {
    if elements == [] then []
    else
      var rest := NewsSections(elements[1..]);
      if IsNewsSection(elements[0]) then [elements[0].text] + rest else rest
  }

  /** Every selected element's text is collected: with the other direction, stated by
      `NewsSections` itself, the collection holds exactly the selected elements' texts. */
  lemma {:induction false} NewsSectionsComplete(elements: seq<Element>, e: Element)
    requires e in elements && IsNewsSection(e)
    ensures e.text in NewsSections(elements)
  {
    if elements[0] != e {
      NewsSectionsComplete(elements[1..], e);
    }
  }

  /** Selecting sections commutes with concatenating pages: the selection keeps document order. */
  lemma {:induction false} NewsSectionsAppend(a: seq<Element>, b: seq<Element>)
    ensures NewsSections(a + b) == NewsSections(a) + NewsSections(b)
  {
    if a != [] {
      assert (a + b)[0] == a[0] && (a + b)[1..] == a[1..] + b;
      NewsSectionsAppend(a[1..], b);
      if IsNewsSection(a[0]) {
        assert [a[0].text] + (NewsSections(a[1..]) + NewsSections(b))
            == ([a[0].text] + NewsSections(a[1..])) + NewsSections(b);
      }
    } else {
      assert a + b == b;
    }
  }

  /** What `extract_text_and_contacts` promises about its record for `page`: the meta
      description ("" without the tag or its `content`), the main text made of it and the
      first paragraphs, each matched contact once, and the first news texts in order. */
  predicate ExtractionOf(page: Page, e: Extracted) {
    && (page.descriptionMeta.None? ==> e.metaDescription == "")
    && (page.descriptionMeta.Some? ==>
          e.metaDescription == match page.descriptionMeta.value.content
                               case Some(c) => c
                               case None => "")
    && e.mainText == e.metaDescription + "\n" + Join("\n", Take(page.paragraphs, MaxParagraphs))
    && NoDuplicates(e.emails)
    && (forall x :: x in e.emails ==> x in page.emailMatches) && (forall x :: x in page.emailMatches ==> x in e.emails)
    && NoDuplicates(e.phones)
    && (forall x :: x in e.phones ==> x in page.phoneMatches) && (forall x :: x in page.phoneMatches ==> x in e.phones)
    && |e.newsUpdates| <= MaxNews
    && e.newsUpdates == Take(NewsSections(page.elements), MaxNews)
  }

  /** `extract_text_and_contacts`, given what the parser and the regular expressions found. */
  method ExtractTextAndContacts(page: Page) returns (e: Extracted)
    ensures ExtractionOf(page, e)
  {
    var metaDescription := "";
    if page.descriptionMeta.Some? {
      metaDescription := match page.descriptionMeta.value.content
                         case Some(c) => c
                         case None => "";
    }
    var textBlob := metaDescription + "\n" + Join("\n", Take(page.paragraphs, MaxParagraphs));

    var newsSections: seq<string> := [];
    var i := 0;
    while i < |page.elements|
      invariant 0 <= i <= |page.elements|
      invariant newsSections == NewsSections(page.elements[..i])
    {
      var section := page.elements[i];
      NewsSectionsAppend(page.elements[..i], [section]);
      assert page.elements[..i + 1] == page.elements[..i] + [section];
      if IsNewsSection(section) {
        newsSections := newsSections + [section.text];
      }
      i := i + 1;
    }
    assert page.elements[..i] == page.elements;

    e := Extracted(metaDescription, textBlob, Distinct(page.emailMatches),
                   Distinct(page.phoneMatches), Take(newsSections, MaxNews));
  }

  // ---------------------------------------------------------------- summarization

  /** Neither end of `point` is a bullet marker. */
  predicate NoMarkerEnds(point: string) {
    point != [] ==> point[0] !in BulletMarkers && point[|point| - 1] !in BulletMarkers
  }

  /** A marker-stripped line has no marker at either end. */
  lemma StripNoMarkerEnds(line: string)
    ensures NoMarkerEnds(Strip(line, BulletMarkers))
  {
  }

  /** `[line.strip("•- ") for line in lines if line.strip()]`. */
  function CleanLines(lines: seq<string>): (points: seq<string>)
    ensures |points| <= |lines|
    ensures forall k :: 0 <= k < |points| ==> NoMarkerEnds(points[k])
  {
    if lines == [] then []
    else
      var rest := CleanLines(lines[1..]);
      if Strip(lines[0], Whitespace) != "" then
        var point := Strip(lines[0], BulletMarkers);
        StripNoMarkerEnds(lines[0]);
        [point] + rest
      else rest
  }

  /** Cleaning adds no line break: the key points of lines are lines. */
  lemma {:induction false} CleanLinesNoLineBreak(lines: seq<string>)
    requires forall k :: 0 <= k < |lines| ==> NoLineBreak(lines[k])
    ensures forall k :: 0 <= k < |CleanLines(lines)| ==> NoLineBreak(CleanLines(lines)[k])
  {
    if lines != [] {
      CleanLinesNoLineBreak(lines[1..]);
      StripNoLineBreak(lines[0], BulletMarkers);
    }
  }

  /** One key point per line: cleaning a text line by line keeps the lines' order. */
  lemma {:induction false} CleanLinesAppend(a: seq<string>, b: seq<string>)
    ensures CleanLines(a + b) == CleanLines(a) + CleanLines(b)
  {
    if a != [] {
      assert (a + b)[0] == a[0] && (a + b)[1..] == a[1..] + b;
      CleanLinesAppend(a[1..], b);
      var point := Strip(a[0], BulletMarkers);
      if Strip(a[0], Whitespace) != "" {
        assert [point] + (CleanLines(a[1..]) + CleanLines(b))
            == ([point] + CleanLines(a[1..])) + CleanLines(b);
      }
    } else {
      assert a + b == b;
    }
  }

  /** A blank line (whitespace only) gives no key point; any other line gives exactly one,
      and a line made only of markers (such as "- ") gives the empty key point. */
  lemma CleanLine(line: string)
    ensures (forall k :: 0 <= k < |line| ==> line[k] in Whitespace) ==> CleanLines([line]) == []
    ensures (exists k :: 0 <= k < |line| && line[k] !in Whitespace) ==>
      CleanLines([line]) == [Strip(line, BulletMarkers)]
    ensures ((exists k :: 0 <= k < |line| && line[k] !in Whitespace) &&
             (forall k :: 0 <= k < |line| ==> line[k] in BulletMarkers)) ==> CleanLines([line]) == [""]
  {
    assert [line][1..] == [];
  }

  /** The key points made of a reply's stripped text: `content.splitlines()`, then
      `CleanLines`. Each key point is one line of the reply, without bullet markers at
      either end. */
  function KeyPointsOfText(content: string): (points: seq<string>)
    ensures |points| <= |SplitLines(content)|
    ensures forall k :: 0 <= k < |points| ==> NoLineBreak(points[k]) && NoMarkerEnds(points[k])
  {
    CleanLinesNoLineBreak(SplitLines(content));
    CleanLines(SplitLines(content))
  }

  /** `generate_key_points_with_ai`, with the model's reply given. The stub does not look at
      the reply; a service failure propagates. */
  function GenerateKeyPoints(openAiKey: bool, reply: Completion): (r: Outcome<seq<string>>)
    ensures !openAiKey ==> r == Returned(StubKeyPoints)
    ensures openAiKey ==> (r.Raised? <==> ReplyText(reply).Raised?)
    ensures openAiKey && r.Returned? ==> r.value == KeyPointsOfText(ReplyText(reply).value)
  {
    if !openAiKey then Returned(StubKeyPoints)
    else
      match ReplyText(reply)
      case Raised(err) => Raised(err)
      case Returned(content) => Returned(KeyPointsOfText(content))
  }

  /** The contact clause of the summary prompt. */
  function ContactClause(e: Extracted): (clause: string)
    ensures clause != "" <==> e.emails != [] || e.phones != []
  {
    if e.emails != [] || e.phones != [] then
      "Contact info found: emails=" + Repr(List(Strs(e.emails))) + ", phones=" + Repr(List(Strs(e.phones))) + "."
    else ""
  }

  /** The news clause of the summary prompt. */
  function NewsClause(e: Extracted): (clause: string)
    ensures clause != "" <==> e.newsUpdates != []
  {
    if e.newsUpdates != [] then "Recent updates/news: " + Repr(List(Strs(e.newsUpdates))) + "." else ""
  }

  /** A list of Python strings. */
  function Strs(texts: seq<string>): (vs: seq<Value>)
    ensures |vs| == |texts|
  {
    seq(|texts|, k requires 0 <= k < |texts| => Str(texts[k]))
  }

  // ---------------------------------------------------------------- pipeline step

  /** `if not html`: no page, or an empty one. */
  predicate HtmlMissing(html: Option<string>) {
    html.None? || html.value == ""
  }

  /** `HtmlMissing` is Python's falsiness of the fetched text, with `None` for no page. */
  lemma HtmlMissingIsFalsy(html: Option<string>)
    ensures HtmlMissing(html) <==> !Truthy(match html case None => Null case Some(text) => Str(text))
  {
  }

  /** `scrape_website_and_summarize`, with `fetch_html`'s result, the parsed page and the
      model's reply given. A missing page yields only the error record: nothing is
      extracted or summarized, so the result depends on the URL alone. */
  method ScrapeWebsiteAndSummarize(url: Value, companyName: Value, html: Option<string>, page: Page,
                                   openAiKey: bool, reply: Completion)
    returns (r: Outcome<Scrape>)
    ensures HtmlMissing(html) ==> r == Returned(FetchFailed("Could not fetch " + PyStr(url)))
    ensures !HtmlMissing(html) ==> (r.Raised? <==> GenerateKeyPoints(openAiKey, reply).Raised?)
    ensures !HtmlMissing(html) && r.Returned? ==>
      && r.value.Scraped?
      && r.value.companyName == companyName
      && r.value.url == url
      && r.value.keyPoints == GenerateKeyPoints(openAiKey, reply).value
      && ExtractionOf(page, r.value.extracted)
  {
    if HtmlMissing(html) {
      return Returned(FetchFailed("Could not fetch " + PyStr(url)));
    }
    var extracted := ExtractTextAndContacts(page);
    var summary := GenerateKeyPoints(openAiKey, reply);
    if summary.Raised? {
      return Raised(summary.error);
    }
    r := Returned(Scraped(companyName, url, extracted, summary.value));
  }
}
