/**
 * `runScrapeJob(jobId)`: one run of a queued scrape job. The job goes to "running", the
 * source is scraped with the HTML scraper, one internship per listing is inserted, the
 * source's `lastRunAt` is set and the job ends "completed"; any error on the way ends it
 * "failed" with the error's message. Every step is logged. One clock reading `now` stands
 * for every `new Date()` of the run; new documents and ObjectIds take fresh ids from the
 * database counter in the order they are created.
 */
module ScrapingJob {
  import opened Wrappers
  import opened Text
  import opened Queries
  import opened ObjectIds
  import opened Records
  import opened Database
  import opened HtmlScraper

  /** The tables a run reads and writes. */
  datatype JobTables = JobTables(
    sources: seq<ScrapeSource>,
    jobs: seq<ScrapeJob>,
    logs: seq<ScrapeLog>,
    internships: seq<Internship>,
    nextId: Id)

  const SourceNotFoundMessage: string := "Scrape source not found"
  const CompletedMessage: string := "Scrape job completed"
  const FailedMessage: string := "Scrape job failed"
  const ScrapedDuration: int := 3

  function StartedMessage(name: string): string {
    "Started scraping for source: " + name
  }

  function InsertedMessage(count: nat, name: string): string {
    "Inserted " + NatToString(count) + " internships from " + name
  }

  function JobWithId(key: Id): ScrapeJob -> bool {
    (j: ScrapeJob) => j.id == key
  }

  function SourceWithId(key: Id): ScrapeSource -> bool {
    (s: ScrapeSource) => s.id == key
  }

  /** `ScrapeLog.create(...)`: one entry appended, with the next id. */
  function AppendLog(t: JobTables, jobId: Id, level: LogLevel, message: string, meta: LogMeta, now: Time): (r: JobTables)
    ensures |r.logs| == |t.logs| + 1 && r.logs[..|t.logs|] == t.logs
    ensures var entry := r.logs[|t.logs|];
            && entry.id == t.nextId && entry.jobId == jobId && entry.level == level
            && entry.message == message && entry.meta == meta && entry.timestamp == now
    ensures r.nextId == t.nextId + 1
    ensures r.sources == t.sources && r.jobs == t.jobs && r.internships == t.internships
  {
    t.(logs := t.logs + [ScrapeLog(t.nextId, jobId, level, message, meta, now)], nextId := t.nextId + 1)
  }

  /**
   * The document inserted for one listing: `createdBy` is a freshly made ObjectId and the
   * document's own id the next one. `needsReview` is not a path of the internship schema,
   * so it is not stored.
   */
  function ToInternship(item: ScrapedItem, id: Id, now: Time): Internship {
    Internship(id + 1, item.title, item.description, if item.location == "" then DefaultLocation else item.location,
      Remote, InternshipKind, Some(ScrapedDuration), [], Some(id), Scraped, item.applyUrl, now, Open)
  }

  /** `scrapedList.map(...)`: one document per listing, in order, two ids each. */
  function ToInternships(items: seq<ScrapedItem>, firstId: Id, now: Time): (docs: seq<Internship>)
    ensures |docs| == |items|
    ensures forall k :: 0 <= k < |items| ==> docs[k] == ToInternship(items[k], firstId + 2 * k, now)
  {
    seq(|items|, k requires 0 <= k < |items| => ToInternship(items[k], firstId + 2 * k, now))
  }

  /** The catch block: the job is marked failed with the message and one error entry is logged. */
  function FailJob(t: JobTables, k: nat, message: string, now: Time): (r: JobTables)
    requires k < |t.jobs|
    ensures |r.jobs| == |t.jobs| && |r.sources| == |t.sources|
  {
    var failed := t.jobs[k].(status := Failed, finishedAt := Some(now), errorMessage := Some(message));
    AppendLog(t.(jobs := t.jobs[k := failed]), failed.id, Error, FailedMessage, ErrorMeta(message), now)
  }

  /** The rest of the try block once the listings are in hand. */
  function CompleteJob(t: JobTables, k: nat, ks: nat, items: seq<ScrapedItem>, now: Time): (r: JobTables)
    requires k < |t.jobs| && ks < |t.sources|
    ensures |r.jobs| == |t.jobs| && |r.sources| == |t.sources|
  {
    var source := t.sources[ks];
    var docs := ToInternships(items, t.nextId, now);
    var t1 := t.(internships := t.internships + docs, nextId := t.nextId + 2 * |docs|);
    var t2 := AppendLog(t1, t.jobs[k].id, Info, InsertedMessage(|docs|, source.name), CountMeta(|docs|), now);
    var t3 := t2.(sources := t2.sources[ks := source.(lastRunAt := Some(now))]);
    var t4 := t3.(jobs := t3.jobs[k := t3.jobs[k].(status := Completed, finishedAt := Some(now))]);
    AppendLog(t4, t.jobs[k].id, Info, CompletedMessage, NoMeta, now)
  }

  /** The job a run acts on: the first with the given id, or -1 for a malformed or unknown id. */
  function TargetJob(t: JobTables, jobId: string): (k: int)
    ensures -1 <= k < |t.jobs|
    ensures k == -1 <==> !IsValidObjectId(jobId) || forall j :: 0 <= j < |t.jobs| ==> t.jobs[j].id != ParseObjectId(jobId).value
    ensures k >= 0 ==> t.jobs[k].id == ParseObjectId(jobId).value
  {
    match ParseObjectId(jobId)
    case None => -1
    case Some(key) => FirstIndex(t.jobs, JobWithId(key))
  }

  /** The source a job reads: the first with the job's `sourceId`, or -1. */
  function JobSource(t: JobTables, k: nat): (ks: int)
    requires k < |t.jobs|
    ensures -1 <= ks < |t.sources|
    ensures ks == -1 <==> forall s :: 0 <= s < |t.sources| ==> t.sources[s].id != t.jobs[k].sourceId
    ensures ks >= 0 ==> t.sources[ks].id == t.jobs[k].sourceId
  {
    FirstIndex(t.sources, SourceWithId(t.jobs[k].sourceId))
  }

  /** `job.status = "running"; job.startedAt = new Date(); await job.save()`. */
  function MarkRunning(t: JobTables, k: nat, now: Time): (r: JobTables)
    requires k < |t.jobs|
    ensures |r.jobs| == |t.jobs|
    ensures r.jobs[k].status == Running && r.jobs[k].startedAt == Some(now)
    ensures var job, before := r.jobs[k], t.jobs[k];
            && job.id == before.id && job.sourceId == before.sourceId && job.finishedAt == before.finishedAt
            && job.errorMessage == before.errorMessage && job.createdAt == before.createdAt
    ensures forall j :: 0 <= j < |t.jobs| && j != k ==> r.jobs[j] == t.jobs[j]
    ensures r.sources == t.sources && r.logs == t.logs && r.internships == t.internships && r.nextId == t.nextId
  {
    t.(jobs := t.jobs[k := t.jobs[k].(status := Running, startedAt := Some(now))])
  }

  /** From the "Started" entry on, given what the scraper answered. */
  function Proceed(t: JobTables, k: nat, ks: nat, outcome: Result<seq<ScrapedItem>>, now: Time): (r: JobTables)
    requires k < |t.jobs| && ks < |t.sources|
    ensures |r.jobs| == |t.jobs| && |r.sources| == |t.sources|
  {
    var source := t.sources[ks];
    var t1 := AppendLog(t, t.jobs[k].id, Info, StartedMessage(source.name), SourceMeta(FormatObjectId(source.id)), now);
    match outcome
    case Failure(e) => FailJob(t1, k, e, now)
    case Success(items) => CompleteJob(t1, k, ks, items, now)
  }

  /** `runScrapeJob(jobId)` on the tables. */
  function RunJob(t: JobTables, jobId: string, web: Web, now: Time): (r: JobTables)
    ensures |r.jobs| == |t.jobs| && |r.sources| == |t.sources|
  {
    var k := TargetJob(t, jobId);
    if k == -1 then t
    else
      var t1 := MarkRunning(t, k, now);
      var ks := JobSource(t, k);
      if ks == -1 then FailJob(t1, k, SourceNotFoundMessage, now)
      else Proceed(t1, k, ks, Scrape(t.sources[ks], web), now)
  }

  function TablesOf(db: Db): JobTables
    reads db
  {
    JobTables(db.sources, db.jobs, db.logs, db.internships, db.nextId)
  }

  /** `runScrapeJob(jobId)`: each step writes the table it changes, in the order of the source. */
  method RunScrapeJob(db: Db, jobId: string, web: Web, now: Time)
    modifies db`sources, db`jobs, db`logs, db`internships, db`nextId
    ensures TablesOf(db) == RunJob(old(TablesOf(db)), jobId, web, now)
  {
    var k := TargetJob(TablesOf(db), jobId);
    if k == -1 {
      return;
    }
    ghost var t0 := TablesOf(db);
    var ks := JobSource(TablesOf(db), k);
    db.jobs := db.jobs[k := db.jobs[k].(status := Running, startedAt := Some(now))];
    assert TablesOf(db) == MarkRunning(t0, k, now);
    if ks == -1 {
      MarkFailed(db, k, SourceNotFoundMessage, now);
      return;
    }
    var source := db.sources[ks];
    AddLog(db, db.jobs[k].id, Info, StartedMessage(source.name), SourceMeta(FormatObjectId(source.id)), now);
    var scraped := ScrapeSourceHtml(source, web);
    if scraped.Failure? {
      MarkFailed(db, k, scraped.error, now);
    } else {
      InsertAndComplete(db, k, ks, scraped.value, now);
    }
  }

  method AddLog(db: Db, jobId: Id, level: LogLevel, message: string, meta: LogMeta, now: Time)
    modifies db`logs, db`nextId
    ensures TablesOf(db) == AppendLog(old(TablesOf(db)), jobId, level, message, meta, now)
  {
    db.logs := db.logs + [ScrapeLog(db.nextId, jobId, level, message, meta, now)];
    db.nextId := db.nextId + 1;
  }

  /** The catch block. */
  method MarkFailed(db: Db, k: nat, message: string, now: Time)
    requires k < |db.jobs|
    modifies db`jobs, db`logs, db`nextId
    ensures TablesOf(db) == FailJob(old(TablesOf(db)), k, message, now)
  {
    db.jobs := db.jobs[k := db.jobs[k].(status := Failed, finishedAt := Some(now), errorMessage := Some(message))];
    AddLog(db, db.jobs[k].id, Error, FailedMessage, ErrorMeta(message), now);
  }

  /** `insertMany` (skipped when there is nothing to insert), the "Inserted" entry, `lastRunAt`, "completed". */
  method InsertAndComplete(db: Db, k: nat, ks: nat, items: seq<ScrapedItem>, now: Time)
    requires k < |db.jobs| && ks < |db.sources|
    modifies db`sources, db`jobs, db`logs, db`internships, db`nextId
    ensures TablesOf(db) == CompleteJob(old(TablesOf(db)), k, ks, items, now)
  {
    var source := db.sources[ks];
    var id := db.jobs[k].id;
    var docs := ToInternships(items, db.nextId, now);
    if |docs| > 0 {
      db.internships := db.internships + docs;
      db.nextId := db.nextId + 2 * |docs|;
    } else {
      assert db.internships + docs == db.internships;
    }
    AddLog(db, id, Info, InsertedMessage(|docs|, source.name), CountMeta(|docs|), now);
    db.sources := db.sources[ks := source.(lastRunAt := Some(now))];
    db.jobs := db.jobs[k := db.jobs[k].(status := Completed, finishedAt := Some(now))];
    AddLog(db, id, Info, CompletedMessage, NoMeta, now);
  }

  // ---- properties ----

  /** A malformed job id, or one no job has, changes nothing. */
  lemma UnknownJobChangesNothing(t: JobTables, jobId: string, web: Web, now: Time)
    requires !IsValidObjectId(jobId) || forall k :: 0 <= k < |t.jobs| ==> t.jobs[k].id != ParseObjectId(jobId).value
    ensures RunJob(t, jobId, web, now) == t
  {
  }

  /** The source a run scrapes: -1 unless the job and its source exist. */
  function TargetSource(t: JobTables, jobId: string): (ks: int)
    ensures -1 <= ks < |t.sources|
    ensures ks >= 0 ==> TargetJob(t, jobId) >= 0 && ks == JobSource(t, TargetJob(t, jobId))
  {
    var k := TargetJob(t, jobId);
    if k < 0 then -1 else JobSource(t, k)
  }

  /** Nothing but the target job, the log, the internships, one source and the counter can change, and those only grow or keep their shape. */
  predicate AppendsOnly(t: JobTables, r: JobTables, k: nat) {
    && |r.jobs| == |t.jobs| && |r.sources| == |t.sources|
    && IsPrefix(t.logs, r.logs) && IsPrefix(t.internships, r.internships)
    && r.nextId >= t.nextId
    && (forall j :: 0 <= j < |t.jobs| && j != k ==> r.jobs[j] == t.jobs[j])
    && (k < |t.jobs| ==> r.jobs[k].id == t.jobs[k].id && r.jobs[k].sourceId == t.jobs[k].sourceId && r.jobs[k].createdAt == t.jobs[k].createdAt)
  }

  lemma FailJobAppendsOnly(t: JobTables, k: nat, message: string, now: Time)
    requires k < |t.jobs|
    ensures AppendsOnly(t, FailJob(t, k, message, now), k)
  {
  }

  lemma {:induction false} ProceedAppendsOnly(t: JobTables, k: nat, ks: nat, outcome: Result<seq<ScrapedItem>>, now: Time)
    requires k < |t.jobs| && ks < |t.sources|
    ensures AppendsOnly(t, Proceed(t, k, ks, outcome, now), k)
  {
    var source := t.sources[ks];
    var t1 := AppendLog(t, t.jobs[k].id, Info, StartedMessage(source.name), SourceMeta(FormatObjectId(source.id)), now);
    if outcome.Failure? {
      FailJobAppendsOnly(t1, k, outcome.error, now);
    }
  }

  /**
   * Whatever happens, logs and internships are only appended to, no job other than the
   * target changes, and the target keeps its id, its source and its creation time.
   */
  lemma RunJobAppendsOnly(t: JobTables, jobId: string, web: Web, now: Time)
    ensures AppendsOnly(t, RunJob(t, jobId, web, now), if TargetJob(t, jobId) >= 0 then TargetJob(t, jobId) else |t.jobs|)
  {
    var k := TargetJob(t, jobId);
    if k >= 0 {
      var t1 := MarkRunning(t, k, now);
      var ks := JobSource(t, k);
      if ks == -1 {
        FailJobAppendsOnly(t1, k, SourceNotFoundMessage, now);
      } else {
        ProceedAppendsOnly(t1, k, ks, Scrape(t.sources[ks], web), now);
      }
    }
  }

  /** A job whose source is gone fails with "Scrape source not found": one error entry, and no "Started" entry. */
  lemma MissingSourceFails(t: JobTables, jobId: string, web: Web, now: Time)
    requires TargetJob(t, jobId) >= 0
    requires forall s :: 0 <= s < |t.sources| ==> t.sources[s].id != t.jobs[TargetJob(t, jobId)].sourceId
    ensures var r := RunJob(t, jobId, web, now); var k := TargetJob(t, jobId);
            && r.jobs[k].status == Failed
            && r.jobs[k].startedAt == Some(now) && r.jobs[k].finishedAt == Some(now)
            && r.jobs[k].errorMessage == Some(SourceNotFoundMessage)
            && r.logs == t.logs + [ScrapeLog(t.nextId, t.jobs[k].id, Error, FailedMessage, ErrorMeta(SourceNotFoundMessage), now)]
            && r.internships == t.internships && r.sources == t.sources
  {
  }

  /** A run on an existing job with an existing source marks the job running and proceeds with the HTML scraper's answer. */
  lemma RunJobProceeds(t: JobTables, jobId: string, web: Web, now: Time)
    requires TargetSource(t, jobId) >= 0
    ensures var k := TargetJob(t, jobId); var ks := TargetSource(t, jobId);
            RunJob(t, jobId, web, now) == Proceed(MarkRunning(t, k, now), k, ks, Scrape(t.sources[ks], web), now)
  {
  }

  /** What follows a failed scrape: the "Started" entry, then the catch block. */
  lemma ProceedFails(t: JobTables, k: nat, ks: nat, e: string, now: Time)
    requires k < |t.jobs| && ks < |t.sources|
    ensures var r := Proceed(MarkRunning(t, k, now), k, ks, Failure(e), now); var source := t.sources[ks];
            && r.jobs[k] == t.jobs[k].(status := Failed, startedAt := Some(now), finishedAt := Some(now), errorMessage := Some(e))
            && r.logs == t.logs + [ScrapeLog(t.nextId, t.jobs[k].id, Info, StartedMessage(source.name), SourceMeta(FormatObjectId(source.id)), now),
                                   ScrapeLog(t.nextId + 1, t.jobs[k].id, Error, FailedMessage, ErrorMeta(e), now)]
            && r.internships == t.internships && r.sources == t.sources
  {
  }

  /**
   * When scraping the source fails, the job ends "failed" with the scraper's message after
   * a "Started" entry and one error entry; no internship is inserted and the source keeps
   * its `lastRunAt`.
   */
  lemma ScrapeFailureFails(t: JobTables, jobId: string, web: Web, now: Time, e: string)
    requires TargetSource(t, jobId) >= 0
    requires Scrape(t.sources[TargetSource(t, jobId)], web) == Failure(e)
    ensures var r := RunJob(t, jobId, web, now); var k := TargetJob(t, jobId); var source := t.sources[TargetSource(t, jobId)];
            && r.jobs[k] == t.jobs[k].(status := Failed, startedAt := Some(now), finishedAt := Some(now), errorMessage := Some(e))
            && r.logs == t.logs + [ScrapeLog(t.nextId, t.jobs[k].id, Info, StartedMessage(source.name), SourceMeta(FormatObjectId(source.id)), now),
                                   ScrapeLog(t.nextId + 1, t.jobs[k].id, Error, FailedMessage, ErrorMeta(e), now)]
            && r.internships == t.internships && r.sources == t.sources
  {
    RunJobProceeds(t, jobId, web, now);
    ProceedFails(t, TargetJob(t, jobId), TargetSource(t, jobId), e, now);
  }

  /** An API source without `item` and `title` selectors always ends "failed": the run never calls the API adapter. */
  lemma ApiSourceWithoutSelectorsFails(t: JobTables, jobId: string, web: Web, now: Time)
    requires TargetSource(t, jobId) >= 0
    requires t.sources[TargetSource(t, jobId)].providerType == Api
    requires !HasRequiredSelectors(t.sources[TargetSource(t, jobId)])
    ensures var r := RunJob(t, jobId, web, now); var k := TargetJob(t, jobId);
            r.jobs[k].status == Failed && r.jobs[k].errorMessage == Some(MissingSelectorsMessage)
  {
    MissingSelectorsFailBeforeFetch(t.sources[TargetSource(t, jobId)], web);
    ScrapeFailureFails(t, jobId, web, now, MissingSelectorsMessage);
  }

  /** What follows a successful scrape: the documents, the three entries, `lastRunAt` and "completed". */
  lemma ProceedSucceeds(t: JobTables, k: nat, ks: nat, items: seq<ScrapedItem>, now: Time)
    requires k < |t.jobs| && ks < |t.sources|
    ensures var r := Proceed(MarkRunning(t, k, now), k, ks, Success(items), now);
            && r.jobs[k] == t.jobs[k].(status := Completed, startedAt := Some(now), finishedAt := Some(now))
            && r.internships == t.internships + ToInternships(items, t.nextId + 1, now)
            && r.sources == t.sources[ks := t.sources[ks].(lastRunAt := Some(now))]
    ensures var r := Proceed(MarkRunning(t, k, now), k, ks, Success(items), now); var source := t.sources[ks]; var id := t.jobs[k].id;
            r.logs == t.logs + [
                 ScrapeLog(t.nextId, id, Info, StartedMessage(source.name), SourceMeta(FormatObjectId(source.id)), now),
                 ScrapeLog(t.nextId + 1 + 2 * |items|, id, Info, InsertedMessage(|items|, source.name), CountMeta(|items|), now),
                 ScrapeLog(t.nextId + 2 + 2 * |items|, id, Info, CompletedMessage, NoMeta, now)]
  {
  }

  /**
   * A successful scrape completes the job: it is "completed" with both instants set, one
   * document per listing is appended in listing order, the source's `lastRunAt` is now,
   * and exactly the three entries "Started …", "Inserted <n> …" and "Scrape job completed"
   * are logged, in that order.
   */
  lemma ScrapeSuccessCompletes(t: JobTables, jobId: string, web: Web, now: Time, items: seq<ScrapedItem>)
    requires TargetSource(t, jobId) >= 0
    requires Scrape(t.sources[TargetSource(t, jobId)], web) == Success(items)
    ensures var r := RunJob(t, jobId, web, now); var k := TargetJob(t, jobId); var ks := TargetSource(t, jobId);
            && r.jobs[k] == t.jobs[k].(status := Completed, startedAt := Some(now), finishedAt := Some(now))
            && r.internships == t.internships + ToInternships(items, t.nextId + 1, now)
            && r.sources == t.sources[ks := t.sources[ks].(lastRunAt := Some(now))]
    ensures var r := RunJob(t, jobId, web, now); var source := t.sources[TargetSource(t, jobId)]; var id := t.jobs[TargetJob(t, jobId)].id;
            r.logs == t.logs + [
                 ScrapeLog(t.nextId, id, Info, StartedMessage(source.name), SourceMeta(FormatObjectId(source.id)), now),
                 ScrapeLog(t.nextId + 1 + 2 * |items|, id, Info, InsertedMessage(|items|, source.name), CountMeta(|items|), now),
                 ScrapeLog(t.nextId + 2 + 2 * |items|, id, Info, CompletedMessage, NoMeta, now)]
  {
    RunJobProceeds(t, jobId, web, now);
    ProceedSucceeds(t, TargetJob(t, jobId), TargetSource(t, jobId), items, now);
  }

  /**
   * Every inserted document is an open, remote, three-month internship marked as scraped,
   * with no skills, a title, description and location that are never empty, and the
   * listing's link as its external apply URL.
   */
  lemma InsertedDocumentsShape(items: seq<ScrapedItem>, firstId: Id, now: Time)
    requires forall k :: 0 <= k < |items| ==> items[k].title != "" && items[k].description != ""
    ensures var docs := ToInternships(items, firstId, now);
            forall k :: 0 <= k < |docs| ==>
              && docs[k].status == Open && docs[k].mode == Remote && docs[k].kind == InternshipKind
              && docs[k].durationInMonths == Some(3) && docs[k].skills == [] && docs[k].origin == Scraped
              && docs[k].postedAt == now && docs[k].title == items[k].title && docs[k].description == items[k].description
              && docs[k].location != "" && (items[k].location != "" ==> docs[k].location == items[k].location)
              && docs[k].externalApplyUrl == items[k].applyUrl
  {
  }

  /** The listings the HTML scraper returns satisfy the schema's required paths, so inserting them cannot fail validation. */
  lemma ScrapedListingsInsertable(source: ScrapeSource, web: Web)
    requires Scrape(source, web).Success?
    ensures forall k :: 0 <= k < |Scrape(source, web).value| ==>
              Scrape(source, web).value[k].title != "" && Scrape(source, web).value[k].description != ""
  {
    var items := Scrape(source, web).value;
    ScrapeSuccess(source, web);
    var nodes := Matches(web(TargetUrl(source)).page, Selector(source, "item").value);
    ExtractAllKeepsOrder(source, nodes);
    forall k | 0 <= k < |items|
      ensures items[k].title != "" && items[k].description != ""
    {
      var idx := SomeIndices(ExtractEach(source, nodes));
      ExtractItemFields(source, nodes[idx[k]]);
    }
  }
}
