/**
 * `scrapeSourceHtml`: fetch a source's listing page and turn every element the `item`
 * selector matches into a listing. The HTTP request and the DOM are outside the model:
 * the web is a function from URL to a fetched page or a failure, and a page is, for each
 * item selector, the sequence of matched elements, each with the text and the `href` its
 * descendants yield per selector.
 */
module HtmlScraper {
  import opened Wrappers
  import opened Text
  import opened Records
  import opened Queries

  /** `ScrapedInternshipDTO`. */
  datatype ScrapedItem = ScrapedItem(
    title: string,
    description: string,
    location: string,
    companyName: Option<string>,
    applyUrl: Option<string>)

  /**
   * One matched element: `$el.find(sel).text()` per selector (absent means no match, whose
   * text is ""), and `$el.find(sel).attr("href")` per selector (absent means undefined).
   */
  datatype ItemNode = ItemNode(texts: map<string, string>, hrefs: map<string, string>)

  /** A fetched page: the elements each selector matches, in document order. */
  datatype Page = Page(matches: map<string, seq<ItemNode>>)

  datatype Fetch = Fetched(page: Page) | FetchFailed(message: string)

  /** `axios.get(url)`. */
  type Web = string -> Fetch

  const MissingSelectorsMessage: string := "Scrape source is missing required selectors: 'item' and/or 'title'"
  const DefaultLocation: string := "Not specified"

  function TextOf(node: ItemNode, selector: string): string {
    if selector in node.texts then node.texts[selector] else ""
  }

  function HrefOf(node: ItemNode, selector: string): Option<string> {
    if selector in node.hrefs then Some(node.hrefs[selector]) else None
  }

  function Matches(page: Page, selector: string): seq<ItemNode> {
    if selector in page.matches then page.matches[selector] else []
  }

  /** `(source.selectors || {})[key]`. */
  function Selector(source: ScrapeSource, key: string): Option<string> {
    if source.selectors.Some? && key in source.selectors.value then Some(source.selectors.value[key]) else None
  }

  /** The page requested: the base URL, followed by the list path when one is set. */
  function TargetUrl(source: ScrapeSource): (url: string)
    ensures StartsWith(url, source.baseUrl)
    ensures Given(source.listPath) ==> url == source.baseUrl + source.listPath.value
    ensures !Given(source.listPath) ==> url == source.baseUrl
  {
    if Given(source.listPath) then source.baseUrl + source.listPath.value else source.baseUrl
  }

  predicate HasRequiredSelectors(source: ScrapeSource) {
    Given(Selector(source, "item")) && Given(Selector(source, "title"))
  }

  /** A relative link is resolved against the base URL with one trailing "/" removed. */
  function ResolveLink(baseUrl: string, href: string): (url: string)
    ensures StartsWith(href, "http") ==> url == href
    ensures !StartsWith(href, "http") ==> url == StripTrailingSlash(baseUrl) + href
  {
    if StartsWith(href, "http") then href else StripTrailingSlash(baseUrl) + href
  }

  function LinkOf(source: ScrapeSource, node: ItemNode): (r: Option<string>)
    ensures r.Some? <==> Given(Selector(source, "link")) && Given(HrefOf(node, Selector(source, "link").value))
  {
    var link := Selector(source, "link");
    if Given(link) then
      var href := HrefOf(node, link.value);
      if Given(href) then Some(ResolveLink(source.baseUrl, href.value)) else None
    else None
  }

  /** `${title}${companyName ? ` at ${companyName}` : ""} - ${location}`. */
  function Describe(title: string, companyName: Option<string>, location: string): (d: string)
    ensures StartsWith(d, title)
    ensures |d| >= |title| + |location| + 3 && d[|d| - |location| - 3..] == " - " + location
    ensures Given(companyName) ==> d[|title|..|d| - |location| - 3] == " at " + companyName.value
    ensures !Given(companyName) ==> |d| == |title| + |location| + 3
  {
    title + (if Given(companyName) then " at " + companyName.value else "") + " - " + location
  }

  function TitleOf(source: ScrapeSource, node: ItemNode): string {
    var sel := Selector(source, "title");
    if Given(sel) then Trim(TextOf(node, sel.value)) else ""
  }

  /** The body of the `.each` callback: the listing one element yields, or None when it is skipped. */
  function ExtractItem(source: ScrapeSource, node: ItemNode): (r: Option<ScrapedItem>)
    ensures r.None? <==> TitleOf(source, node) == ""
    ensures r.Some? ==> r.value.title == TitleOf(source, node) && r.value.title != "" && IsTrimmed(r.value.title)
  {
    var title := TitleOf(source, node);
    if title == "" then None
    else
      var loc := Selector(source, "location");
      var company := Selector(source, "company");
      var location := if Given(loc) then Trim(TextOf(node, loc.value)) else DefaultLocation;
      var companyName := if Given(company) then Some(Trim(TextOf(node, company.value))) else None;
      Some(ScrapedItem(title, Describe(title, companyName, location), location, companyName, LinkOf(source, node)))
  }

  /** What each element yields, element by element. */
  function ExtractEach(source: ScrapeSource, nodes: seq<ItemNode>): (r: seq<Option<ScrapedItem>>)
    ensures |r| == |nodes|
    ensures forall i :: 0 <= i < |nodes| ==> r[i] == ExtractItem(source, nodes[i])
  {
    seq(|nodes|, i requires 0 <= i < |nodes| => ExtractItem(source, nodes[i]))
  }

  /** The listings a sequence of elements yields, in element order. */
  function ExtractAll(source: ScrapeSource, nodes: seq<ItemNode>): seq<ScrapedItem> {
    Somes(ExtractEach(source, nodes))
  }

  /** `scrapeSourceHtml(source)`, as a value. */
  function Scrape(source: ScrapeSource, web: Web): Result<seq<ScrapedItem>> {
    if !HasRequiredSelectors(source) then Failure(MissingSelectorsMessage)
    else
      match web(TargetUrl(source))
      case FetchFailed(message) => Failure(message)
      case Fetched(page) => Success(ExtractAll(source, Matches(page, Selector(source, "item").value)))
  }

  /** `scrapeSourceHtml`: the `.each` loop pushes one listing per element with a title. */
  method ScrapeSourceHtml(source: ScrapeSource, web: Web) returns (r: Result<seq<ScrapedItem>>)
    ensures r == Scrape(source, web)
  {
    var itemSelector := Selector(source, "item");
    var titleSelector := Selector(source, "title");
    if !Given(itemSelector) || !Given(titleSelector) {
      return Failure(MissingSelectorsMessage);
    }
    var response := web(TargetUrl(source));
    if response.FetchFailed? {
      return Failure(response.message);
    }
    var nodes := Matches(response.page, itemSelector.value);
    ghost var each := ExtractEach(source, nodes);
    var results: seq<ScrapedItem> := [];
    var i := 0;
    while i < |nodes|
      invariant 0 <= i <= |nodes|
      invariant results == Somes(each[..i])
    {
      var item := ExtractItem(source, nodes[i]);
      SomesOfPrefix(each, i);
      if item.Some? {
        results := results + [item.value];
      }
      i := i + 1;
    }
    assert each[..i] == each;
    return Success(results);
  }

  // ---- properties ----

  /** Without truthy `item` and `title` selectors the call fails with the same error whatever the web would answer. */
  lemma MissingSelectorsFailBeforeFetch(source: ScrapeSource, web: Web)
    requires !HasRequiredSelectors(source)
    ensures Scrape(source, web) == Failure(MissingSelectorsMessage)
  {
  }

  /**
   * The fields of the listing an element yields: the location is the trimmed text of the
   * `location` selector when one is set (possibly empty) and "Not specified" otherwise; the
   * company name is present exactly when a `company` selector is set; the link follows
   * ResolveLink; the description is built from title, company and location.
   */
  lemma ExtractItemFields(source: ScrapeSource, node: ItemNode)
    requires ExtractItem(source, node).Some?
    ensures var r := ExtractItem(source, node).value; var loc := Selector(source, "location");
            r.location == (if Given(loc) then Trim(TextOf(node, loc.value)) else DefaultLocation)
    ensures var r := ExtractItem(source, node).value; var company := Selector(source, "company");
            r.companyName == (if Given(company) then Some(Trim(TextOf(node, company.value))) else None)
    ensures var r := ExtractItem(source, node).value;
            r.applyUrl == LinkOf(source, node) && r.description == Describe(r.title, r.companyName, r.location)
  {
  }

  /**
   * The output has at most one listing per element, each with a non-empty trimmed title,
   * and lists exactly the elements with such a title, in element order: the k-th listing
   * is the one the k-th such element yields.
   */
  lemma ExtractAllKeepsOrder(source: ScrapeSource, nodes: seq<ItemNode>)
    ensures var r := ExtractAll(source, nodes);
            && |r| <= |nodes|
            && (forall k :: 0 <= k < |r| ==> r[k].title != "" && IsTrimmed(r[k].title))
    ensures var idx := SomeIndices(ExtractEach(source, nodes));
            && |ExtractAll(source, nodes)| == |idx|
            && (forall k :: 0 <= k < |idx| ==> idx[k] < |nodes| && ExtractAll(source, nodes)[k] == ExtractItem(source, nodes[idx[k]]).value)
            && (forall k, l :: 0 <= k < l < |idx| ==> idx[k] < idx[l])
            && (forall i :: 0 <= i < |nodes| && TitleOf(source, nodes[i]) != "" ==> i in idx)
  {
    var each := ExtractEach(source, nodes);
    SomesAtIndices(each);
  }

  /** A successful scrape returns the listings of the elements the `item` selector matches on the target page. */
  lemma ScrapeSuccess(source: ScrapeSource, web: Web)
    requires Scrape(source, web).Success?
    ensures HasRequiredSelectors(source) && web(TargetUrl(source)).Fetched?
    ensures var nodes := Matches(web(TargetUrl(source)).page, Selector(source, "item").value);
            Scrape(source, web).value == ExtractAll(source, nodes)
  {
  }
}
