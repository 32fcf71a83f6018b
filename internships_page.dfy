/**
 * `Internships.tsx`: the student-facing listing page. While the aggregated endpoint is not
 * wired in, a search filters the mock listings by keyword and location; each card shows an
 * apply label chosen from the listing's links; applying to an internal listing posts the
 * application and remembers the id once the post succeeds.
 */
module InternshipsPage {
  import opened Wrappers
  import opened Text
  import opened Queries
  import opened MockInternships

  /** `AggregatedInternship`: the optional fields are `Option`s. */
  datatype Listing = Listing(
    id: Option<string>,
    title: string,
    description: string,
    location: string,
    companyName: Option<string>,
    applyUrl: Option<string>,
    source: string,
    internalId: Option<string>)

  /** A generated mock listing as the page sees it. */
  function FromMock(m: MockInternship): (l: Listing)
    ensures l.title == m.title && l.location == m.location && l.description == m.Description()
    ensures l.applyUrl == Some(m.applyUrl) && l.internalId == m.internalId
  {
    Listing(Some(m.id), m.title, m.Description(), m.location, Some(m.companyName), Some(m.applyUrl),
            m.source, m.internalId)
  }

  /** The 200 mock listings, in generation order. */
  function MockListings(): (r: seq<Listing>)
    ensures |r| == MockCount
  {
    seq(MockCount, i requires 0 <= i < MockCount => FromMock(MockList()[i]))
  }

  // ---- fetchData (mock filter) ----

  /** `matchKeyword`: an empty query matches; otherwise the title or the description contains it, ignoring case. */
  predicate MatchesKeyword(l: Listing, q: string) {
    q == "" || ContainsIgnoringCase(l.title, q) || ContainsIgnoringCase(l.description, q)
  }

  /** `matchLocation`: an empty location matches; otherwise the listing's location contains it, ignoring case. */
  predicate MatchesLocation(l: Listing, location: string) {
    location == "" || ContainsIgnoringCase(l.location, location)
  }

  function Keeper(q: string, location: string): Listing -> bool {
    (l: Listing) => MatchesKeyword(l, q) && MatchesLocation(l, location)
  }

  /** `items.filter(...)`: the listings both filters keep, in their original order. */
  function FetchData(items: seq<Listing>, q: string, location: string): (r: seq<Listing>)
    ensures |r| <= |items|
    ensures forall k :: 0 <= k < |r| ==> MatchesKeyword(r[k], q) && MatchesLocation(r[k], location)
  {
    Filter(items, Keeper(q, location))
  }

  /** A search over the mock listings, as the page runs it. */
  function FetchMock(q: string, location: string): (r: seq<Listing>)
    ensures |r| <= MockCount
  {
    FetchData(MockListings(), q, location)
  }

  // ---- card labels ----

  const ExternalLabel: string := "Apply on external site"
  const DirectLabel: string := "Apply directly via NextStep"
  const ComingSoonLabel: string := "Application flow coming soon"

  /** `!!i.internalId`: the internal apply button is shown iff the listing has a non-empty internal id. */
  predicate CanApplyInternally(l: Listing) {
    Given(l.internalId)
  }

  /** `applied`: the listing's internal id is among the ids applied to in this session. */
  predicate Applied(l: Listing, appliedIds: seq<string>) {
    Given(l.internalId) && l.internalId.value in appliedIds
  }

  /** The source tag: an external link wins over an internal id, and with neither the flow is announced as coming. */
  function ApplyLabel(l: Listing): (r: string)
    ensures r == ExternalLabel <==> Given(l.applyUrl)
    ensures r == DirectLabel <==> !Given(l.applyUrl) && CanApplyInternally(l)
    ensures r == ComingSoonLabel <==> !Given(l.applyUrl) && !CanApplyInternally(l)
  {
    if Given(l.applyUrl) then ExternalLabel
    else if CanApplyInternally(l) then DirectLabel
    else ComingSoonLabel
  }

  const AppliedText: string := "Applied"
  const ApplyingText: string := "Applying..."
  const ApplyText: string := "Apply on NextStep"

  /** Whether the internal button is disabled: while its own apply is in flight, or once applied. */
  predicate ButtonDisabled(l: Listing, applyingId: Option<string>, appliedIds: seq<string>) {
    (applyingId.Some? && l.internalId == applyingId) || Applied(l, appliedIds)
  }

  /** The internal button's text: "Applied" wins over "Applying...", which wins over the call to action. */
  function ButtonText(l: Listing, applyingId: Option<string>, appliedIds: seq<string>): (r: string)
    ensures r == AppliedText <==> Applied(l, appliedIds)
    ensures r == ApplyingText <==> !Applied(l, appliedIds) && applyingId.Some? && l.internalId == applyingId
    ensures r != ApplyText <==> ButtonDisabled(l, applyingId, appliedIds)
  {
    if Applied(l, appliedIds) then AppliedText
    else if applyingId.Some? && l.internalId == applyingId then ApplyingText
    else ApplyText
  }

  // ---- handleApply ----

  /** What `api.post("/applications/<id>/apply")` came back with: success, or a failure with the server's message if any. */
  datatype PostOutcome = Posted | Rejected(message: Option<string>)

  const ApplySuccessMessage: string := "Application submitted successfully."
  const ApplyFailureMessage: string := "Failed to submit application."

  /** `setAppliedIds(prev => [...prev, internalId])`, run only when the post succeeded. */
  function AppliedAfter(prev: seq<string>, internalId: string, outcome: PostOutcome): (r: seq<string>)
    ensures internalId in r <==> internalId in prev || outcome.Posted?
    ensures forall x :: x != internalId ==> (x in r <==> x in prev)
    ensures outcome.Rejected? ==> r == prev
  {
    if outcome.Posted? then prev + [internalId] else prev
  }

  /** The apply error shown after a failed post: the server's message, or the fallback when it sent none. */
  function ApplyErrorText(outcome: PostOutcome): (r: Option<string>)
    ensures outcome.Posted? ==> r.None?
    ensures outcome.Rejected? ==> r.Some? && r.value != ""
    ensures outcome.Rejected? && Given(outcome.message) ==> r == outcome.message
    ensures outcome.Rejected? && !Given(outcome.message) ==> r == Some(ApplyFailureMessage)
  {
    match outcome
    case Posted => None
    case Rejected(message) => Some(OrElse(message, ApplyFailureMessage))
  }

  /** The page's apply state: the ids applied to, the id in flight, and the two notices. */
  class ApplyState {
    var appliedIds: seq<string>
    var applyingId: Option<string>
    var applyError: Option<string>
    var applySuccess: Option<string>

    constructor ()
      ensures appliedIds == [] && applyingId.None? && applyError.None? && applySuccess.None?
    {
      appliedIds := [];
      applyingId := None;
      applyError := None;
      applySuccess := None;
    }

    /**
     * `handleApply(internalId)` once the post has settled: the id is remembered only on
     * success, exactly one notice is set, and nothing is left in flight.
     */
    method HandleApply(internalId: string, outcome: PostOutcome)
      modifies this
      ensures appliedIds == AppliedAfter(old(appliedIds), internalId, outcome)
      ensures applyError == ApplyErrorText(outcome)
      ensures applySuccess == (if outcome.Posted? then Some(ApplySuccessMessage) else None)
      ensures applyingId.None?
    {
      applyingId := Some(internalId);
      applyError := None;
      applySuccess := None;
      match outcome {
        case Posted =>
          appliedIds := appliedIds + [internalId];
          applySuccess := Some(ApplySuccessMessage);
        case Rejected(message) =>
          applyError := Some(OrElse(message, ApplyFailureMessage));
      }
      applyingId := None;
    }

    /** The timer callback three seconds later: both notices are cleared, nothing else changes. */
    method ClearNotices()
      modifies this`applyError, this`applySuccess
      ensures applyError.None? && applySuccess.None?
    {
      applyError := None;
      applySuccess := None;
    }
  }

  // ---- properties ----

  /** A listing is kept iff it was among the items and matches both the keyword and the location. */
  lemma KeptIff(items: seq<Listing>, q: string, location: string, l: Listing)
    ensures l in FetchData(items, q, location) <==> l in items && MatchesKeyword(l, q) && MatchesLocation(l, location)
  {
    FilterMembers(items, Keeper(q, location));
  }

  /** With an empty query and an empty location every item is kept, in order. */
  lemma EmptySearchKeepsAll(items: seq<Listing>)
    ensures FetchData(items, "", "") == items
  {
    FilterAllKept(items, Keeper("", ""));
  }

  /** A location filter only removes listings: whatever a search with a location keeps, the keyword alone keeps too. */
  lemma SearchNarrows(items: seq<Listing>, q: string, location: string, l: Listing)
    requires l in FetchData(items, q, location)
    ensures l in FetchData(items, q, "")
  {
    KeptIff(items, q, location, l);
    KeptIff(items, q, "", l);
  }

  /** After a successful apply the card reads "Applied" and its button is disabled. */
  lemma AppliedAfterSuccess(l: Listing, prev: seq<string>, applyingId: Option<string>)
    requires CanApplyInternally(l)
    ensures var ids := AppliedAfter(prev, l.internalId.value, Posted);
            Applied(l, ids) && ButtonText(l, applyingId, ids) == AppliedText && ButtonDisabled(l, applyingId, ids)
  {
  }

  /** A failed apply leaves an unapplied listing open to another attempt once nothing is in flight. */
  lemma RetryAfterFailure(l: Listing, prev: seq<string>, message: Option<string>)
    requires CanApplyInternally(l) && !Applied(l, prev)
    ensures var ids := AppliedAfter(prev, l.internalId.value, Rejected(message));
            !Applied(l, ids) && ButtonText(l, None, ids) == ApplyText
  {
  }

  /** Every mock listing links to an external site and cannot be applied to internally. */
  lemma MockListingsExternal(i: nat)
    requires i < MockCount
    ensures ApplyLabel(MockListings()[i]) == ExternalLabel
    ensures !CanApplyInternally(MockListings()[i])
  {
    ExternalOnly(i);
  }
}
