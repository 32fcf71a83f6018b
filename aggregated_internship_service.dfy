/**
 * `getAggregatedInternships`: one page of the internal internships followed by the live
 * listings of every enabled external source (HTML sources first, then API providers),
 * merged into one shape and filtered once more on title and location. The enabled
 * sources are read from the source table in table order; the sources are awaited
 * together, so one failing source rejects the whole call.
 */
module AggregatedInternshipService {
  import opened Wrappers
  import opened Text
  import opened Queries
  import opened ObjectIds
  import opened Records
  import opened Database
  import opened HtmlScraper
  import opened ApiJobProvider
  import opened InternshipService
  import opened ScrapingService

  /** `AggregatedInternshipDTO`; an API listing may lack a title. */
  datatype AggItem = AggItem(
    title: Option<string>,
    description: string,
    location: string,
    companyName: Option<string>,
    applyUrl: Option<string>,
    source: string,
    internalId: Option<string>)

  datatype AggParams = AggParams(
    q: Option<string>,
    location: Option<string>,
    mode: Option<string>,
    kind: Option<string>,
    page: Option<int>,
    limit: Option<int>)

  /** `{ items, total, page, limit }`. */
  datatype AggPage = AggPage(items: seq<AggItem>, total: nat, page: int, limit: int)

  const InternalSourceName: string := "nextstep-db"
  /** What `undefined.toLowerCase()` throws when a listing without a title meets a `q` filter. */
  const MissingTitleMessage: string := "Cannot read properties of undefined (reading 'toLowerCase')"

  /** The mapping of an internal internship: no company, no external link, its id kept for applying. */
  function FromInternship(i: Internship): (r: AggItem)
    ensures r.title == Some(i.title) && r.description == i.description && r.location == i.location
    ensures r.source == InternalSourceName && r.internalId == Some(FormatObjectId(i.id))
    ensures r.companyName.None? && r.applyUrl.None?
  {
    AggItem(Some(i.title), i.description, i.location, None, None, InternalSourceName, Some(FormatObjectId(i.id)))
  }

  function FromScraped(item: ScrapedItem, name: string): (r: AggItem)
    ensures r.title == Some(item.title) && r.description == item.description && r.location == item.location
    ensures r.companyName == item.companyName && r.applyUrl == item.applyUrl
    ensures r.source == name && r.internalId.None?
  {
    AggItem(Some(item.title), item.description, item.location, item.companyName, item.applyUrl, name, None)
  }

  function FromApi(item: ApiListing, name: string): (r: AggItem)
    ensures r.title == item.title && r.description == item.description && r.location == item.location
    ensures r.companyName == item.companyName && r.applyUrl == item.applyUrl
    ensures r.source == name && r.internalId.None?
  {
    AggItem(item.title, item.description, item.location, item.companyName, item.applyUrl, name, None)
  }

  function MapInternal(items: seq<Internship>): (r: seq<AggItem>)
    ensures |r| == |items| && forall k :: 0 <= k < |r| ==> r[k] == FromInternship(items[k])
  {
    seq(|items|, k requires 0 <= k < |items| => FromInternship(items[k]))
  }

  function MapScraped(items: seq<ScrapedItem>, name: string): (r: seq<AggItem>)
    ensures |r| == |items| && forall k :: 0 <= k < |r| ==> r[k] == FromScraped(items[k], name)
  {
    seq(|items|, k requires 0 <= k < |items| => FromScraped(items[k], name))
  }

  function MapApi(items: seq<ApiListing>, name: string): (r: seq<AggItem>)
    ensures |r| == |items| && forall k :: 0 <= k < |r| ==> r[k] == FromApi(items[k], name)
  {
    seq(|items|, k requires 0 <= k < |items| => FromApi(items[k], name))
  }

  /** The listings one HTML source contributes: `livePreviewScrape` re-reads it by its id. */
  function HtmlBatch(sources: seq<ScrapeSource>, source: ScrapeSource, web: Web): Result<seq<AggItem>> {
    var scraped := LivePreviewScrape(sources, FormatObjectId(source.id), web);
    if scraped.Failure? then Failure(scraped.error) else Success(MapScraped(scraped.value, source.name))
  }

  /** The listings one API source contributes. */
  function ApiBatch(source: ScrapeSource, env: Env, client: ApiClient): Result<seq<AggItem>> {
    var fetched := FetchJobs(source, env, client);
    if fetched.Failure? then Failure(fetched.error) else Success(MapApi(fetched.value, source.name))
  }

  /** `Promise.all` followed by `.flat()`, one batch at a time: the first rejection in order wins. */
  function Combine(acc: Result<seq<AggItem>>, next: Result<seq<AggItem>>): (r: Result<seq<AggItem>>)
    ensures acc.Failure? ==> r == acc
    ensures acc.Success? && next.Failure? ==> r == Failure(next.error)
    ensures acc.Success? && next.Success? ==> r == Success(acc.value + next.value)
  {
    if acc.Failure? then acc else if next.Failure? then Failure(next.error) else Success(acc.value + next.value)
  }

  function JoinAll(batches: seq<Result<seq<AggItem>>>): Result<seq<AggItem>> {
    if batches == [] then Success([])
    else Combine(JoinAll(batches[..|batches| - 1]), batches[|batches| - 1])
  }

  predicate IsEnabled(s: ScrapeSource) { s.enabled }
  predicate IsHtml(s: ScrapeSource) { s.providerType == Html }
  predicate IsApi(s: ScrapeSource) { s.providerType == Api }

  function HtmlSources(sources: seq<ScrapeSource>): seq<ScrapeSource> {
    Filter(Filter(sources, IsEnabled), IsHtml)
  }

  function ApiSources(sources: seq<ScrapeSource>): seq<ScrapeSource> {
    Filter(Filter(sources, IsEnabled), IsApi)
  }

  /** One batch per enabled HTML source, in table order. */
  function HtmlBatches(sources: seq<ScrapeSource>, web: Web): (r: seq<Result<seq<AggItem>>>)
    ensures |r| == |HtmlSources(sources)|
    ensures forall k :: 0 <= k < |r| ==> r[k] == HtmlBatch(sources, HtmlSources(sources)[k], web)
  {
    var html := HtmlSources(sources);
    seq(|html|, k requires 0 <= k < |html| => HtmlBatch(sources, html[k], web))
  }

  /** One batch per enabled API source, in table order. */
  function ApiBatches(sources: seq<ScrapeSource>, env: Env, client: ApiClient): (r: seq<Result<seq<AggItem>>>)
    ensures |r| == |ApiSources(sources)|
    ensures forall k :: 0 <= k < |r| ==> r[k] == ApiBatch(ApiSources(sources)[k], env, client)
  {
    var api := ApiSources(sources);
    seq(|api|, k requires 0 <= k < |api| => ApiBatch(api[k], env, client))
  }

  /** Every external listing, HTML sources first, each source's listings together and in order. */
  function External(sources: seq<ScrapeSource>, web: Web, env: Env, client: ApiClient): Result<seq<AggItem>> {
    Combine(JoinAll(HtmlBatches(sources, web)), JoinAll(ApiBatches(sources, env, client)))
  }

  /** The final `.filter`: `q` against the title only, `location` against the location, both ignoring case. */
  predicate Keep(q: Option<string>, location: Option<string>, item: AggItem) {
    && (Given(q) ==> item.title.Some? && ContainsIgnoringCase(item.title.value, q.value))
    && (Given(location) ==> ContainsIgnoringCase(item.location, location.value))
  }

  function Keeper(q: Option<string>, location: Option<string>): AggItem -> bool {
    item => Keep(q, location, item)
  }

  predicate HasUntitled(items: seq<AggItem>) {
    exists k :: 0 <= k < |items| && items[k].title.None?
  }

  function FinalFilter(items: seq<AggItem>, q: Option<string>, location: Option<string>): (r: Result<seq<AggItem>>)
    ensures r.Failure? <==> Given(q) && HasUntitled(items)
    ensures r.Success? ==> forall k :: 0 <= k < |r.value| ==> Keep(q, location, r.value[k])
    ensures r.Success? ==> forall x :: x in items && Keep(q, location, x) ==> x in r.value
    ensures !Given(q) && !Given(location) ==> r == Success(items)
  {
    if Given(q) && HasUntitled(items) then Failure(MissingTitleMessage)
    else
      FilterMembers(items, Keeper(q, location));
      if !Given(q) && !Given(location) then
        FilterAllKept(items, Keeper(q, location));
        Success(Filter(items, Keeper(q, location)))
      else Success(Filter(items, Keeper(q, location)))
  }

  function DbFilters(p: AggParams): ListFilters {
    ListFilters(p.q, p.location, p.mode, p.kind, Some(p.page.GetOr(DefaultPage)), Some(p.limit.GetOr(DefaultLimit)))
  }

  /** Everything before the final filter: the internal page, then the external listings. */
  function Merged(internships: seq<Internship>, sources: seq<ScrapeSource>, p: AggParams, web: Web, env: Env, client: ApiClient): Result<seq<AggItem>> {
    match ListInternships(internships, DbFilters(p))
    case Failure(e) => Failure(e)
    case Success(db) =>
      match External(sources, web, env, client)
      case Failure(e) => Failure(e)
      case Success(ext) => Success(MapInternal(db.items) + ext)
  }

  /** `getAggregatedInternships(params)`. */
  function Aggregate(internships: seq<Internship>, sources: seq<ScrapeSource>, p: AggParams, web: Web, env: Env, client: ApiClient): Result<AggPage> {
    match Merged(internships, sources, p, web, env, client)
    case Failure(e) => Failure(e)
    case Success(all) =>
      match FinalFilter(all, p.q, p.location)
      case Failure(e) => Failure(e)
      case Success(items) => Success(AggPage(items, |items|, p.page.GetOr(DefaultPage), p.limit.GetOr(DefaultLimit)))
  }

  /** The service: the internal page, then one batch per HTML source and per API source, joined in that order. */
  method GetAggregatedInternships(db: Db, p: AggParams, web: Web, env: Env, client: ApiClient) returns (r: Result<AggPage>)
    ensures r == Aggregate(db.internships, db.sources, p, web, env, client)
  {
    var dbResult := ListInternships(db.internships, DbFilters(p));
    if dbResult.Failure? {
      return Failure(dbResult.error);
    }
    var htmlResults := CollectHtml(db.sources, web);
    var apiResults := CollectApi(db.sources, env, client);
    var external := Combine(htmlResults, apiResults);
    if external.Failure? {
      return Failure(external.error);
    }
    var filtered := FinalFilter(MapInternal(dbResult.value.items) + external.value, p.q, p.location);
    if filtered.Failure? {
      return Failure(filtered.error);
    }
    return Success(AggPage(filtered.value, |filtered.value|, p.page.GetOr(DefaultPage), p.limit.GetOr(DefaultLimit)));
  }

  /** The first `for` loop: one scrape per enabled HTML source, in table order. */
  method CollectHtml(sources: seq<ScrapeSource>, web: Web) returns (r: Result<seq<AggItem>>)
    ensures r == JoinAll(HtmlBatches(sources, web))
  {
    var html := HtmlSources(sources);
    ghost var batches := HtmlBatches(sources, web);
    r := Success([]);
    var i := 0;
    while i < |html|
      invariant 0 <= i <= |html|
      invariant r == JoinAll(batches[..i])
    {
      assert batches[..i + 1][..i] == batches[..i];
      r := Combine(r, HtmlBatch(sources, html[i], web));
      i := i + 1;
    }
    assert batches[..i] == batches;
  }

  /** The second `for` loop: one request per enabled API source, in table order. */
  method CollectApi(sources: seq<ScrapeSource>, env: Env, client: ApiClient) returns (r: Result<seq<AggItem>>)
    ensures r == JoinAll(ApiBatches(sources, env, client))
  {
    var api := ApiSources(sources);
    ghost var batches := ApiBatches(sources, env, client);
    r := Success([]);
    var j := 0;
    while j < |api|
      invariant 0 <= j <= |api|
      invariant r == JoinAll(batches[..j])
    {
      assert batches[..j + 1][..j] == batches[..j];
      r := Combine(r, ApiBatch(api[j], env, client));
      j := j + 1;
    }
    assert batches[..j] == batches;
  }

  // ---- properties ----

  /** `total` is the number of returned items, and page and limit are echoed with their defaults 1 and 10. */
  lemma AggregateCounts(internships: seq<Internship>, sources: seq<ScrapeSource>, p: AggParams, web: Web, env: Env, client: ApiClient)
    requires Aggregate(internships, sources, p, web, env, client).Success?
    ensures var r := Aggregate(internships, sources, p, web, env, client).value;
            && r.total == |r.items|
            && r.page == (if p.page.Some? then p.page.value else 1)
            && r.limit == (if p.limit.Some? then p.limit.value else 10)
  {
  }

  /** Every returned item's title contains `q` and its location contains `location`, ignoring case; an absent or empty filter accepts all. */
  lemma AggregateFilterSound(internships: seq<Internship>, sources: seq<ScrapeSource>, p: AggParams, web: Web, env: Env, client: ApiClient)
    requires Aggregate(internships, sources, p, web, env, client).Success?
    ensures var r := Aggregate(internships, sources, p, web, env, client).value;
            forall k :: 0 <= k < |r.items| ==>
              && (Given(p.q) ==> r.items[k].title.Some? && ContainsIgnoringCase(r.items[k].title.value, p.q.value))
              && (Given(p.location) ==> ContainsIgnoringCase(r.items[k].location, p.location.value))
    ensures var r := Aggregate(internships, sources, p, web, env, client).value;
            var all := Merged(internships, sources, p, web, env, client).value;
            && (forall x :: x in all && Keep(p.q, p.location, x) ==> x in r.items)
            && (!Given(p.q) && !Given(p.location) ==> r.items == all)
  {
    var all := Merged(internships, sources, p, web, env, client).value;
    var items := FinalFilter(all, p.q, p.location).value;
    assert forall k :: 0 <= k < |items| ==> Keep(p.q, p.location, items[k]);
  }

  /** Before the final filter, the items are the internal page, then the HTML sources' listings, then the API sources'. */
  lemma MergedOrder(internships: seq<Internship>, sources: seq<ScrapeSource>, p: AggParams, web: Web, env: Env, client: ApiClient,
                    page: InternshipPage, html: seq<AggItem>, api: seq<AggItem>)
    requires ListInternships(internships, DbFilters(p)) == Success(page)
    requires JoinAll(HtmlBatches(sources, web)) == Success(html)
    requires JoinAll(ApiBatches(sources, env, client)) == Success(api)
    ensures Merged(internships, sources, p, web, env, client) == Success(MapInternal(page.items) + html + api)
  {
    assert External(sources, web, env, client) == Success(html + api);
    ConcatAssociative(MapInternal(page.items), html, api);
  }

  /** The result is an order-preserving selection from the merged items. */
  lemma AggregateOrder(internships: seq<Internship>, sources: seq<ScrapeSource>, p: AggParams, web: Web, env: Env, client: ApiClient)
    requires Aggregate(internships, sources, p, web, env, client).Success?
    ensures Merged(internships, sources, p, web, env, client).Success?
    ensures IsSubsequence(Aggregate(internships, sources, p, web, env, client).value.items, Merged(internships, sources, p, web, env, client).value)
  {
    var all := Merged(internships, sources, p, web, env, client).value;
    FilterIsSubsequence(all, Keeper(p.q, p.location));
  }

  /** Joined batches succeed exactly when every batch succeeds: one failing batch rejects them all. */
  lemma {:induction false} JoinAllSucceeds(batches: seq<Result<seq<AggItem>>>)
    ensures JoinAll(batches).Success? <==> forall k :: 0 <= k < |batches| ==> batches[k].Success?
  {
    if batches != [] {
      var front := batches[..|batches| - 1];
      JoinAllSucceeds(front);
      assert forall k :: 0 <= k < |front| ==> front[k] == batches[k];
    }
  }

  lemma JoinAllFailure(batches: seq<Result<seq<AggItem>>>, k: nat)
    requires k < |batches| && batches[k].Failure?
    ensures JoinAll(batches).Failure?
  {
    JoinAllSucceeds(batches);
  }

  /** One failing enabled source, HTML or API, rejects every external listing: there is no per-source isolation. */
  lemma OneFailingSourceRejectsAll(sources: seq<ScrapeSource>, web: Web, env: Env, client: ApiClient, s: ScrapeSource)
    requires s in sources && s.enabled
    requires (s.providerType == Html && HtmlBatch(sources, s, web).Failure?) || (s.providerType == Api && ApiBatch(s, env, client).Failure?)
    ensures External(sources, web, env, client).Failure?
  {
    var htmlJoined := JoinAll(HtmlBatches(sources, web));
    var apiJoined := JoinAll(ApiBatches(sources, env, client));
    assert External(sources, web, env, client) == Combine(htmlJoined, apiJoined);
    if s.providerType == Html {
      FailingHtmlSource(sources, web, s);
    } else {
      FailingApiSource(sources, env, client, s);
    }
  }

  lemma FailingHtmlSource(sources: seq<ScrapeSource>, web: Web, s: ScrapeSource)
    requires s in sources && s.enabled && s.providerType == Html && HtmlBatch(sources, s, web).Failure?
    ensures JoinAll(HtmlBatches(sources, web)).Failure?
  {
    OnlyEnabledSources(sources);
    var html := HtmlSources(sources);
    var k :| 0 <= k < |html| && html[k] == s;
    JoinAllFailure(HtmlBatches(sources, web), k);
  }

  lemma FailingApiSource(sources: seq<ScrapeSource>, env: Env, client: ApiClient, s: ScrapeSource)
    requires s in sources && s.enabled && s.providerType == Api && ApiBatch(s, env, client).Failure?
    ensures JoinAll(ApiBatches(sources, env, client)).Failure?
  {
    OnlyEnabledSources(sources);
    var api := ApiSources(sources);
    var k :| 0 <= k < |api| && api[k] == s;
    JoinAllFailure(ApiBatches(sources, env, client), k);
  }

  /** A failure of the external listings fails the whole call, even when internal internships matched. */
  lemma ExternalFailureFailsAggregate(internships: seq<Internship>, sources: seq<ScrapeSource>, p: AggParams, web: Web, env: Env, client: ApiClient)
    requires External(sources, web, env, client).Failure?
    ensures Aggregate(internships, sources, p, web, env, client).Failure?
  {
  }

  /** Only enabled sources are scraped or called, each according to its provider type. */
  lemma OnlyEnabledSources(sources: seq<ScrapeSource>)
    ensures forall s :: s in HtmlSources(sources) <==> s in sources && s.enabled && s.providerType == Html
    ensures forall s :: s in ApiSources(sources) <==> s in sources && s.enabled && s.providerType == Api
  {
    FilterMembers(sources, IsEnabled);
    FilterMembers(Filter(sources, IsEnabled), IsHtml);
    FilterMembers(Filter(sources, IsEnabled), IsApi);
  }

  /**
   * With a `q` filter, an internal internship whose title lacks `q` is never returned, even
   * when the database query matched it through its description.
   */
  lemma DescriptionOnlyMatchDropped(internships: seq<Internship>, sources: seq<ScrapeSource>, p: AggParams, web: Web, env: Env, client: ApiClient, i: Internship)
    requires Given(p.q) && !ContainsIgnoringCase(i.title, p.q.value)
    requires Aggregate(internships, sources, p, web, env, client).Success?
    ensures FromInternship(i) !in Aggregate(internships, sources, p, web, env, client).value.items
  {
    AggregateFilterSound(internships, sources, p, web, env, client);
  }

  /** A listing without a title makes a `q` filter throw, so the whole call fails. */
  lemma UntitledListingWithQueryFails(internships: seq<Internship>, sources: seq<ScrapeSource>, p: AggParams, web: Web, env: Env, client: ApiClient)
    requires Merged(internships, sources, p, web, env, client).Success?
    requires Given(p.q) && HasUntitled(Merged(internships, sources, p, web, env, client).value)
    ensures Aggregate(internships, sources, p, web, env, client) == Failure(MissingTitleMessage)
  {
  }

  /** When ids are unique and within the ObjectId range, an HTML source's batch is exactly its own scrape. */
  lemma HtmlBatchScrapesItself(sources: seq<ScrapeSource>, s: ScrapeSource, web: Web)
    requires s in sources && s.id < IdBound()
    requires forall j, k :: 0 <= j < k < |sources| ==> sources[j].id != sources[k].id
    ensures LivePreviewScrape(sources, FormatObjectId(s.id), web) == Scrape(s, web)
  {
    ParseFormat(s.id);
    var found := GetScrapeSourceById(sources, FormatObjectId(s.id));
    assert found.Some?;
  }
}
