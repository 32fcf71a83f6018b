/**
 * The scrape-source registry and its job and log queries (`scraping.service.ts`):
 * create, list and update sources, look one up, list a source's jobs and a job's logs,
 * queue a run, and scrape a source without storing anything.
 */
module ScrapingService {
  import opened Wrappers
  import opened Json
  import opened Queries
  import opened ObjectIds
  import opened Records
  import opened Database
  import opened HtmlScraper

  /** The request body of a create or update; absent fields are not sent. */
  datatype SourceInput = SourceInput(
    name: Option<string>,
    baseUrl: Option<string>,
    listPath: Option<string>,
    selectors: Option<map<string, string>>,
    enabled: Option<bool>,
    frequencyMinutes: Option<int>,
    providerType: Option<ProviderType>,
    apiConfig: Option<ApiConfig>)

  const InvalidSourceIdMessage: string := "Invalid source id"
  const SourceNotFoundMessage: string := "Scrape source not found"
  const InvalidJobIdMessage: string := "Invalid job id"
  const JobListLimit: nat := 20

  /** Mongoose's `required` validator on the schema's two required paths, reported in schema order. */
  function RequiredError(data: SourceInput): (r: Option<string>)
    ensures r.None? <==> Given(data.name) && Given(data.baseUrl)
  {
    ValidationError("ScrapeSource", (if Given(data.name) then [] else ["name"]) + (if Given(data.baseUrl) then [] else ["baseUrl"]))
  }

  predicate HasName(sources: seq<ScrapeSource>, name: string) {
    exists k :: 0 <= k < |sources| && sources[k].name == name
  }

  /** No two stored sources share a name (the unique index on `name`). */
  predicate UniqueNames(sources: seq<ScrapeSource>) {
    forall j, k :: 0 <= j < k < |sources| ==> sources[j].name != sources[k].name
  }

  /** Every stored id is below the id counter, so a new document's id is fresh. */
  predicate IdsBelow(sources: seq<ScrapeSource>, nextId: Id) {
    forall k :: 0 <= k < |sources| ==> sources[k].id < nextId
  }

  /** The document `ScrapeSource.create(data)` stores: the schema defaults fill the absent fields. */
  function NewSource(data: SourceInput, id: Id, now: Time): (s: ScrapeSource)
    requires data.name.Some? && data.baseUrl.Some?
    ensures s.id == id && s.createdAt == now && s.lastRunAt.None?
    ensures s.name == data.name.value && s.baseUrl == data.baseUrl.value
    ensures s.enabled == data.enabled.GetOr(true)
    ensures s.frequencyMinutes == data.frequencyMinutes.GetOr(DefaultFrequencyMinutes)
    ensures s.providerType == data.providerType.GetOr(Html)
    ensures s.listPath == data.listPath && s.selectors == data.selectors && s.apiConfig == data.apiConfig
  {
    ScrapeSource(id, data.name.value, data.baseUrl.value, data.listPath, data.selectors,
      data.enabled.GetOr(true), data.frequencyMinutes.GetOr(DefaultFrequencyMinutes), None,
      data.providerType.GetOr(Html), data.apiConfig, now)
  }

  /** Why a create is refused, if it is: validation first, then the unique index. */
  function CreateError(sources: seq<ScrapeSource>, data: SourceInput): (r: Option<string>)
    ensures r.None? <==> Given(data.name) && Given(data.baseUrl) && !HasName(sources, data.name.value)
  {
    var required := RequiredError(data);
    if required.Some? then required
    else if HasName(sources, data.name.value) then Some(DuplicateKeyMessage)
    else None
  }

  /** `createScrapeSource(data)`. */
  method CreateScrapeSource(db: Db, data: SourceInput, now: Time) returns (r: Result<ScrapeSource>)
    modifies db`sources, db`nextId
    ensures CreateError(old(db.sources), data).Some? ==>
      r == Failure(CreateError(old(db.sources), data).value) && db.sources == old(db.sources) && db.nextId == old(db.nextId)
    ensures CreateError(old(db.sources), data).None? ==>
      && r == Success(NewSource(data, old(db.nextId), now))
      && db.sources == old(db.sources) + [r.value]
      && db.nextId == old(db.nextId) + 1
  {
    var error := CreateError(db.sources, data);
    if error.Some? {
      return Failure(error.value);
    }
    var source := NewSource(data, db.nextId, now);
    db.sources := db.sources + [source];
    db.nextId := db.nextId + 1;
    return Success(source);
  }

  function CreatedAt(s: ScrapeSource): int {
    s.createdAt
  }

  /** `listScrapeSources()`: every source, newest first. */
  function ListScrapeSources(sources: seq<ScrapeSource>): (r: seq<ScrapeSource>)
    ensures multiset(r) == multiset(sources)
    ensures SortedDesc(r, CreatedAt)
  {
    SortDesc(sources, CreatedAt)
  }

  function SourceWithId(key: Id): ScrapeSource -> bool {
    (s: ScrapeSource) => s.id == key
  }

  /** `getScrapeSourceById(id)`: null for a malformed id, else the source with that id, if any. */
  function GetScrapeSourceById(sources: seq<ScrapeSource>, id: string): (r: Option<ScrapeSource>)
    ensures !IsValidObjectId(id) ==> r.None?
    ensures r.Some? ==> IsValidObjectId(id) && r.value in sources && r.value.id == ParseObjectId(id).value
    ensures IsValidObjectId(id) && (exists k :: 0 <= k < |sources| && sources[k].id == ParseObjectId(id).value) ==> r.Some?
  {
    match ParseObjectId(id)
    case None => None
    case Some(key) => FindFirst(sources, SourceWithId(key))
  }

  /** The `$set` of an update: every supplied field replaces the stored one. */
  function ApplyUpdate(s: ScrapeSource, data: SourceInput): ScrapeSource {
    s.(name := data.name.GetOr(s.name),
       baseUrl := data.baseUrl.GetOr(s.baseUrl),
       listPath := if data.listPath.Some? then data.listPath else s.listPath,
       selectors := if data.selectors.Some? then data.selectors else s.selectors,
       enabled := data.enabled.GetOr(s.enabled),
       frequencyMinutes := data.frequencyMinutes.GetOr(s.frequencyMinutes),
       providerType := data.providerType.GetOr(s.providerType),
       apiConfig := if data.apiConfig.Some? then data.apiConfig else s.apiConfig)
  }

  /** Another stored source (not at index `k`) already has the name the update would set. */
  predicate NameTakenByOther(sources: seq<ScrapeSource>, k: nat, data: SourceInput) {
    data.name.Some? && exists j :: 0 <= j < |sources| && j != k && sources[j].name == data.name.value
  }

  /** `updateScrapeSource(id, data)` on the table: the error, or the updated source and its index. */
  function UpdateTarget(sources: seq<ScrapeSource>, id: string, data: SourceInput): (r: Result<nat>)
    ensures r.Success? ==> r.value < |sources| && IsValidObjectId(id) && sources[r.value].id == ParseObjectId(id).value
  {
    match ParseObjectId(id)
    case None => Failure(InvalidSourceIdMessage)
    case Some(key) =>
      var k := FirstIndex(sources, SourceWithId(key));
      if k == -1 then Failure(SourceNotFoundMessage)
      else if NameTakenByOther(sources, k, data) then Failure(DuplicateKeyMessage)
      else Success(k)
  }

  /** `updateScrapeSource(id, data)`: `findByIdAndUpdate(id, { $set: data }, { new: true })`. */
  method UpdateScrapeSource(db: Db, id: string, data: SourceInput) returns (r: Result<ScrapeSource>)
    modifies db`sources
    ensures UpdateTarget(old(db.sources), id, data).Failure? ==>
      r == Failure(UpdateTarget(old(db.sources), id, data).error) && db.sources == old(db.sources)
    ensures UpdateTarget(old(db.sources), id, data).Success? ==>
      var k := UpdateTarget(old(db.sources), id, data).value;
      && r == Success(ApplyUpdate(old(db.sources)[k], data))
      && db.sources == old(db.sources)[k := r.value]
  {
    var target := UpdateTarget(db.sources, id, data);
    if target.Failure? {
      return Failure(target.error);
    }
    var updated := ApplyUpdate(db.sources[target.value], data);
    db.sources := db.sources[target.value := updated];
    return Success(updated);
  }

  function JobCreatedAt(j: ScrapeJob): int {
    j.createdAt
  }

  function JobOfSource(key: Id): ScrapeJob -> bool {
    (j: ScrapeJob) => j.sourceId == key
  }

  /** `listScrapeJobsForSource(sourceId)`: that source's 20 newest jobs. */
  function ListScrapeJobsForSource(jobs: seq<ScrapeJob>, sourceId: string): Result<seq<ScrapeJob>> {
    match ParseObjectId(sourceId)
    case None => Failure(InvalidSourceIdMessage)
    case Some(key) => Success(Take(SortDesc(Filter(jobs, JobOfSource(key)), JobCreatedAt), JobListLimit))
  }

  function LogTimestampDesc(l: ScrapeLog): int {
    -(l.timestamp as int)
  }

  function LogOfJob(key: Id): ScrapeLog -> bool {
    (l: ScrapeLog) => l.jobId == key
  }

  /** `getScrapeLogsForJob(jobId)`: that job's logs, oldest first (a descending sort on the negated timestamp). */
  function GetScrapeLogsForJob(logs: seq<ScrapeLog>, jobId: string): Result<seq<ScrapeLog>> {
    match ParseObjectId(jobId)
    case None => Failure(InvalidJobIdMessage)
    case Some(key) => Success(SortDesc(Filter(logs, LogOfJob(key)), LogTimestampDesc))
  }

  /** The error `triggerScrapeNow` and `livePreviewScrape` raise, or the source they act on. */
  function FindSource(sources: seq<ScrapeSource>, sourceId: string): (r: Result<ScrapeSource>)
    ensures r.Success? <==> GetScrapeSourceById(sources, sourceId).Some?
    ensures r.Success? ==> r.value == GetScrapeSourceById(sources, sourceId).value
    ensures r.Failure? ==> r.error == if IsValidObjectId(sourceId) then SourceNotFoundMessage else InvalidSourceIdMessage
  {
    if !IsValidObjectId(sourceId) then Failure(InvalidSourceIdMessage)
    else
      match GetScrapeSourceById(sources, sourceId)
      case None => Failure(SourceNotFoundMessage)
      case Some(s) => Success(s)
  }

  /**
   * `triggerScrapeNow(sourceId)`: queue one job for an existing source. The run it starts
   * without awaiting is a separate call of `ScrapingJob.RunScrapeJob`.
   */
  method TriggerScrapeNow(db: Db, sourceId: string, now: Time) returns (r: Result<ScrapeJob>)
    modifies db`jobs, db`nextId
    ensures FindSource(db.sources, sourceId).Failure? ==>
      r == Failure(FindSource(db.sources, sourceId).error) && db.jobs == old(db.jobs) && db.nextId == old(db.nextId)
    ensures FindSource(db.sources, sourceId).Success? ==>
      && r == Success(ScrapeJob(old(db.nextId), FindSource(db.sources, sourceId).value.id, Queued, None, None, None, now))
      && db.jobs == old(db.jobs) + [r.value]
      && db.nextId == old(db.nextId) + 1
  {
    var source := FindSource(db.sources, sourceId);
    if source.Failure? {
      return Failure(source.error);
    }
    var job := ScrapeJob(db.nextId, source.value.id, Queued, None, None, None, now);
    db.jobs := db.jobs + [job];
    db.nextId := db.nextId + 1;
    return Success(job);
  }

  /** `livePreviewScrape(sourceId)`: the HTML scraper's answer for a stored source; nothing is written. */
  function LivePreviewScrape(sources: seq<ScrapeSource>, sourceId: string, web: Web): Result<seq<ScrapedItem>> {
    match FindSource(sources, sourceId)
    case Failure(e) => Failure(e)
    case Success(source) => Scrape(source, web)
  }

  // ---- properties ----

  /** A source created without the optional fields is enabled, runs every 1440 minutes and is an HTML source. */
  lemma CreateDefaults(data: SourceInput, id: Id, now: Time)
    requires Given(data.name) && Given(data.baseUrl)
    requires data.enabled.None? && data.frequencyMinutes.None? && data.providerType.None?
    ensures var s := NewSource(data, id, now);
            s.enabled && s.frequencyMinutes == 1440 && s.providerType == Html
  {
  }

  /** A successful create keeps names unique and ids below the counter. */
  lemma CreateKeepsInvariants(sources: seq<ScrapeSource>, nextId: Id, data: SourceInput, now: Time)
    requires UniqueNames(sources) && IdsBelow(sources, nextId)
    requires CreateError(sources, data).None?
    ensures UniqueNames(sources + [NewSource(data, nextId, now)])
    ensures IdsBelow(sources + [NewSource(data, nextId, now)], nextId + 1)
  {
  }

  /** An update changes only the supplied fields: an absent field, the id, the creation time and the last run stay. */
  lemma UpdateOnlySuppliedFields(s: ScrapeSource, data: SourceInput)
    ensures var u := ApplyUpdate(s, data);
            && u.id == s.id && u.createdAt == s.createdAt && u.lastRunAt == s.lastRunAt
            && (data.name.None? ==> u.name == s.name) && (data.name.Some? ==> u.name == data.name.value)
            && (data.baseUrl.None? ==> u.baseUrl == s.baseUrl) && (data.baseUrl.Some? ==> u.baseUrl == data.baseUrl.value)
            && (data.listPath.None? ==> u.listPath == s.listPath) && (data.listPath.Some? ==> u.listPath == data.listPath)
            && (data.selectors.None? ==> u.selectors == s.selectors) && (data.selectors.Some? ==> u.selectors == data.selectors)
            && (data.enabled.None? ==> u.enabled == s.enabled) && (data.enabled.Some? ==> u.enabled == data.enabled.value)
            && (data.frequencyMinutes.None? ==> u.frequencyMinutes == s.frequencyMinutes)
            && (data.frequencyMinutes.Some? ==> u.frequencyMinutes == data.frequencyMinutes.value)
            && (data.providerType.None? ==> u.providerType == s.providerType)
            && (data.providerType.Some? ==> u.providerType == data.providerType.value)
            && (data.apiConfig.None? ==> u.apiConfig == s.apiConfig) && (data.apiConfig.Some? ==> u.apiConfig == data.apiConfig)
  {
  }

  /** An update with no fields leaves the source as it was. */
  lemma EmptyUpdateIsIdentity(s: ScrapeSource)
    ensures ApplyUpdate(s, SourceInput(None, None, None, None, None, None, None, None)) == s
  {
  }

  /** A successful update keeps names unique and ids below the counter; every other source is unchanged. */
  lemma UpdateKeepsInvariants(sources: seq<ScrapeSource>, nextId: Id, id: string, data: SourceInput)
    requires UniqueNames(sources) && IdsBelow(sources, nextId)
    requires UpdateTarget(sources, id, data).Success?
    ensures var k := UpdateTarget(sources, id, data).value;
            var after := sources[k := ApplyUpdate(sources[k], data)];
            && UniqueNames(after) && IdsBelow(after, nextId)
            && forall j :: 0 <= j < |sources| && j != k ==> after[j] == sources[j]
  {
  }

  /** An update fails on a malformed id and on an id no source has. */
  lemma UpdateFailures(sources: seq<ScrapeSource>, id: string, data: SourceInput)
    ensures !IsValidObjectId(id) ==> UpdateTarget(sources, id, data) == Failure(InvalidSourceIdMessage)
    ensures IsValidObjectId(id) && (forall k :: 0 <= k < |sources| ==> sources[k].id != ParseObjectId(id).value) ==>
              UpdateTarget(sources, id, data) == Failure(SourceNotFoundMessage)
  {
  }

  /**
   * The source's 20 newest jobs, newest first: as many as it has, up to 20, each one of
   * its own, and none of those left out newer than any shown.
   */
  lemma ListJobsProperties(jobs: seq<ScrapeJob>, sourceId: string)
    requires IsValidObjectId(sourceId)
    ensures ListScrapeJobsForSource(jobs, sourceId).Success?
    ensures var r := ListScrapeJobsForSource(jobs, sourceId).value; var key := ParseObjectId(sourceId).value;
            && NewestOf(r, jobs, JobOfSource(key), JobCreatedAt, JobListLimit)
            && (forall k :: 0 <= k < |r| ==> r[k].sourceId == key)
  {
    Newest(jobs, JobOfSource(ParseObjectId(sourceId).value), JobCreatedAt, JobListLimit);
  }

  /** A source with at most 20 jobs gets all of them. */
  lemma ListJobsComplete(jobs: seq<ScrapeJob>, sourceId: string)
    requires IsValidObjectId(sourceId)
    requires |Filter(jobs, JobOfSource(ParseObjectId(sourceId).value))| <= JobListLimit
    ensures ListScrapeJobsForSource(jobs, sourceId).Success?
    ensures var r := ListScrapeJobsForSource(jobs, sourceId).value; var key := ParseObjectId(sourceId).value;
            multiset(r) == multiset(Filter(jobs, JobOfSource(key)))
  {
  }

  /** A job's logs are exactly that job's entries of the log table, oldest first. */
  lemma LogsProperties(logs: seq<ScrapeLog>, jobId: string)
    requires IsValidObjectId(jobId)
    ensures GetScrapeLogsForJob(logs, jobId).Success?
    ensures var r := GetScrapeLogsForJob(logs, jobId).value; var key := ParseObjectId(jobId).value;
            && multiset(r) == multiset(Filter(logs, LogOfJob(key)))
            && (forall l :: l in r <==> l in logs && l.jobId == key)
            && (forall i, j :: 0 <= i < j < |r| ==> r[i].timestamp <= r[j].timestamp)
  {
    var key := ParseObjectId(jobId).value;
    var r := GetScrapeLogsForJob(logs, jobId).value;
    FilterMembers(logs, LogOfJob(key));
    SortDescMembers(Filter(logs, LogOfJob(key)), LogTimestampDesc);
    assert forall i, j :: 0 <= i < j < |r| ==> LogTimestampDesc(r[i]) >= LogTimestampDesc(r[j]);
  }

  /** The preview of a stored source is exactly what the HTML scraper returns for it, whatever its provider type. */
  lemma PreviewUsesHtmlScraper(sources: seq<ScrapeSource>, sourceId: string, web: Web)
    requires GetScrapeSourceById(sources, sourceId).Some?
    ensures LivePreviewScrape(sources, sourceId, web) == Scrape(GetScrapeSourceById(sources, sourceId).value, web)
  {
  }

  /** A preview of a malformed or unknown id fails before anything is fetched. */
  lemma PreviewFailures(sources: seq<ScrapeSource>, sourceId: string, web: Web)
    requires GetScrapeSourceById(sources, sourceId).None?
    ensures LivePreviewScrape(sources, sourceId, web) ==
            Failure(if IsValidObjectId(sourceId) then SourceNotFoundMessage else InvalidSourceIdMessage)
  {
  }
}
