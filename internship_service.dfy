/**
 * `listInternships` and `getInternshipById`: the public internship list. A query keeps
 * the open internships that match the optional free-text, location, mode and type
 * filters; the result is that set sorted newest first and cut to one page.
 */
module InternshipService {
  import opened Wrappers
  import opened Text
  import opened Queries
  import opened ObjectIds
  import opened Records
  import opened Paging

  /** The query string the controller passes on; `page` and `limit` may be absent. */
  datatype ListFilters = ListFilters(
    q: Option<string>,
    location: Option<string>,
    mode: Option<string>,
    kind: Option<string>,
    page: Option<int>,
    limit: Option<int>)

  /** `{ items, total, page, limit, totalPages }`. */
  datatype InternshipPage = InternshipPage(items: seq<Internship>, total: nat, page: int, limit: int, totalPages: JsNumber)

  const DefaultPage: int := 1
  const DefaultLimit: int := 10

  /** The Mongo filter object: `status: "open"` plus one condition per truthy filter. */
  datatype Query = Query(q: Option<string>, location: Option<string>, mode: Option<string>, kind: Option<string>)

  function BuildQuery(f: ListFilters): Query {
    Query(Truthy(f.q), Truthy(f.location), Truthy(f.mode), Truthy(f.kind))
  }

  /** Whether a document satisfies the filter; `new RegExp(q, "i")` is read as a case-insensitive substring match. */
  predicate MatchesQuery(query: Query, i: Internship) {
    && i.status == Open
    && (query.q.Some? ==> ContainsIgnoringCase(i.title, query.q.value) || ContainsIgnoringCase(i.description, query.q.value))
    && (query.location.Some? ==> ContainsIgnoringCase(i.location, query.location.value))
    && (query.mode.Some? ==> ModeName(i.mode) == query.mode.value)
    && (query.kind.Some? ==> KindName(i.kind) == query.kind.value)
  }

  /** The filters a listing must pass, stated on the raw filters: absent or empty ones accept everything. */
  predicate MatchesFilters(f: ListFilters, i: Internship) {
    && i.status == Open
    && (Given(f.q) ==> ContainsIgnoringCase(i.title, f.q.value) || ContainsIgnoringCase(i.description, f.q.value))
    && (Given(f.location) ==> ContainsIgnoringCase(i.location, f.location.value))
    && (Given(f.mode) ==> ModeName(i.mode) == f.mode.value)
    && (Given(f.kind) ==> KindName(i.kind) == f.kind.value)
  }

  function Matcher(query: Query): Internship -> bool {
    i => MatchesQuery(query, i)
  }

  function PostedAt(i: Internship): int {
    i.postedAt
  }

  /** `find(query).sort({ postedAt: -1 })`. */
  function Matching(table: seq<Internship>, query: Query): seq<Internship> {
    SortDesc(Filter(table, Matcher(query)), PostedAt)
  }

  /** The built query selects exactly the open internships that pass every given filter. */
  lemma BuildQueryMeaning(f: ListFilters, i: Internship)
    ensures MatchesQuery(BuildQuery(f), i) <==> MatchesFilters(f, i)
  {
  }

  /** The sorted result holds exactly the matching internships of the table, newest first, each once per occurrence. */
  lemma MatchingContents(table: seq<Internship>, f: ListFilters)
    ensures var r := Matching(table, BuildQuery(f));
            && (forall i :: i in r <==> i in table && MatchesFilters(f, i))
            && |r| == |Filter(table, Matcher(BuildQuery(f)))|
            && SortedDesc(r, PostedAt)
  {
    var m := Filter(table, Matcher(BuildQuery(f)));
    FilterMembers(table, Matcher(BuildQuery(f)));
    SortDescMembers(m, PostedAt);
  }

  /** `listInternships(filters)`. */
  function ListInternships(table: seq<Internship>, f: ListFilters): Result<InternshipPage> {
    var page := f.page.GetOr(DefaultPage);
    var limit := f.limit.GetOr(DefaultLimit);
    var all := Matching(table, BuildQuery(f));
    match Window(all, Skip(page, limit), limit)
    case Failure(e) => Failure(e)
    case Success(items) => Success(InternshipPage(items, |all|, page, limit, TotalPages(|all|, limit)))
  }

  /** `getInternshipById(id)`: null for a malformed id, else the internship with that id, if any. */
  function GetInternshipById(table: seq<Internship>, id: string): (r: Option<Internship>)
    ensures !IsValidObjectId(id) ==> r.None?
    ensures r.Some? ==> r.value in table && IsValidObjectId(id) && r.value.id == ParseObjectId(id).value
    ensures IsValidObjectId(id) && (exists k :: 0 <= k < |table| && table[k].id == ParseObjectId(id).value) ==> r.Some?
  {
    match ParseObjectId(id)
    case None => None
    case Some(key) => FindFirst(table, (i: Internship) => i.id == key)
  }

  // ---- properties ----

  /**
   * A page holds only open internships of the table that match every given filter,
   * newest first, at most `limit` of them (when it is positive), taken in order from
   * offset (page - 1) * limit of the full matching list.
   */
  lemma ListInternshipsItems(table: seq<Internship>, f: ListFilters)
    requires ListInternships(table, f).Success?
    ensures var r := ListInternships(table, f).value;
            var all := Matching(table, BuildQuery(f));
            var skip := Skip(f.page.GetOr(DefaultPage), f.limit.GetOr(DefaultLimit));
            && (forall k :: 0 <= k < |r.items| ==> r.items[k] in table && MatchesFilters(f, r.items[k]))
            && SortedDesc(r.items, PostedAt)
            && (f.limit.GetOr(DefaultLimit) > 0 ==> |r.items| <= f.limit.GetOr(DefaultLimit))
            && (skip >= |all| ==> r.items == [])
            && (skip < |all| ==> IsPrefix(r.items, all[skip..]))
  {
    var r := ListInternships(table, f).value;
    var all := Matching(table, BuildQuery(f));
    var skip := Skip(f.page.GetOr(DefaultPage), f.limit.GetOr(DefaultLimit));
    MatchingContents(table, f);
    if skip < |all| {
      SortedSlice(all, PostedAt, skip, r.items);
      assert forall k :: 0 <= k < |r.items| ==> r.items[k] in all;
    }
  }
  /**
   * The page is exactly the slice of the matching internships, newest first, that starts at
   * (page - 1) * limit and holds the limit's worth of them, or all that remain when fewer do.
   */
  lemma ListInternshipsPage(table: seq<Internship>, f: ListFilters)
    requires ListInternships(table, f).Success?
    ensures var r := ListInternships(table, f).value;
            var all := Matching(table, BuildQuery(f));
            var skip := Skip(f.page.GetOr(DefaultPage), f.limit.GetOr(DefaultLimit));
            && (skip < |all| ==> r.items == all[skip..skip + PageSize(|all| - skip, f.limit.GetOr(DefaultLimit))])
            && (skip >= |all| ==> r.items == [])
  {
    var all := Matching(table, BuildQuery(f));
    var skip := Skip(f.page.GetOr(DefaultPage), f.limit.GetOr(DefaultLimit));
    if skip < |all| {
      WindowIsSlice(all, skip, f.limit.GetOr(DefaultLimit));
    }
  }


  /** `total` counts every matching open internship whatever the page; page and limit are echoed; totalPages is ceil(total / limit). */
  lemma ListInternshipsCounts(table: seq<Internship>, f: ListFilters)
    requires ListInternships(table, f).Success?
    ensures var r := ListInternships(table, f).value;
            && r.total == |Filter(table, Matcher(BuildQuery(f)))|
            && r.page == f.page.GetOr(DefaultPage) && r.limit == f.limit.GetOr(DefaultLimit)
            && r.totalPages == TotalPages(r.total, r.limit)
  {
    MatchingContents(table, f);
  }

  /** The query fails, as MongoDB does, exactly when the computed offset is negative. */
  lemma NegativeOffsetFails(table: seq<Internship>, f: ListFilters)
    ensures ListInternships(table, f).Failure? <==> Skip(f.page.GetOr(DefaultPage), f.limit.GetOr(DefaultLimit)) < 0
  {
  }

  /** `total` and `totalPages` do not depend on which page is asked for. */
  lemma TotalIndependentOfPage(table: seq<Internship>, f: ListFilters, page: int)
    requires ListInternships(table, f).Success?
    requires ListInternships(table, f.(page := Some(page))).Success?
    ensures ListInternships(table, f.(page := Some(page))).value.total == ListInternships(table, f).value.total
    ensures ListInternships(table, f.(page := Some(page))).value.totalPages == ListInternships(table, f).value.totalPages
  {
    assert BuildQuery(f.(page := Some(page))) == BuildQuery(f);
  }
}
