/**
 The scrape-job tables and the effect of one worker result on them, as functions on values.
 The class in ScrapeDatabase.dfy performs the same statements in place and is proved equal to these.
 */
module ScrapeTables {
  import opened Common
  import opened SourceIngest

  type JobId = string
  type ResultKey = (JobId, FeedId)

  datatype ResultStatus = Success | NotModified | Error
  datatype QueueKind = CheckQueue | IngestQueue | ErrorQueue
  datatype JobStatus = Queued | Processing | Completed | CompletedWithErrors | Failed
  datatype DbError = ForeignKeyViolation

  datatype Payload = Payload(
    jobId: JobId,
    feedId: FeedId,
    status: ResultStatus,
    errorMessage: Option<string>,
    newEtag: Option<string>,
    newLastUpdate: Option<Instant>,
    fetchprotection: int,
    sources: seq<SourceItem>)

  /** A result message as the consumer sees it: the payload and the stream it came from. */
  datatype Delivery = Delivery(kind: QueueKind, payload: Payload)

  datatype Job = Job(ingest: bool, feedCount: nat, status: JobStatus)

  datatype ResultRow = ResultRow(
    status: ResultStatus,
    queueKind: QueueKind,
    errorMessage: Option<string>,
    fetchprotection: int,
    newEtag: Option<string>,
    newLastUpdate: Option<Instant>)

  datatype Scraping = Scraping(
    fetchprotection: int,
    lastUpdate: Option<Instant>,
    etag: Option<string>,
    errorNbr: nat,
    errorMsg: Option<string>)

  datatype Tables = Tables(
    feeds: set<FeedId>,
    jobs: map<JobId, Job>,
    jobFeeds: set<ResultKey>,
    results: map<ResultKey, ResultRow>,
    scraping: map<FeedId, Scraping>,
    articles: SourceTables)

  function KeyOf(d: Delivery): ResultKey {
    (d.payload.jobId, d.payload.feedId)
  }

  function RowOf(d: Delivery): ResultRow {
    var p := d.payload;
    ResultRow(p.status, d.kind, p.errorMessage, p.fetchprotection, p.newEtag, p.newLastUpdate)
  }

  // --- Aggregates over the result table ---

  function JobResults(results: map<ResultKey, ResultRow>, jobId: JobId): set<ResultKey> {
    set k | k in results.Keys && k.0 == jobId
  }

  function JobResultsWith(results: map<ResultKey, ResultRow>, jobId: JobId, status: ResultStatus): set<ResultKey> {
    set k | k in results.Keys && k.0 == jobId && results[k].status == status
  }

  function FeedErrors(results: map<ResultKey, ResultRow>, feedId: FeedId): set<ResultKey> {
    set k | k in results.Keys && k.1 == feedId && results[k].status == Error
  }

  /** The status a job has when `processed` of its `feedCount` feeds are recorded, `errors` of them failed. */
  function StatusOf(feedCount: nat, processed: nat, errors: nat): JobStatus {
    if feedCount == 0 then Completed
    else if processed == 0 then Queued
    else if processed < feedCount then Processing
    else if errors > 0 then CompletedWithErrors
    else Completed
  }

  function RefreshedStatus(t: Tables, jobId: JobId): JobStatus
    requires jobId in t.jobs
  {
    StatusOf(t.jobs[jobId].feedCount, |JobResults(t.results, jobId)|, |JobResultsWith(t.results, jobId, Error)|)
  }

  // --- The statements of one transaction ---

  /** The inner result says whether a row was inserted. */
  function InsertJobResultIfNew(t: Tables, d: Delivery): Result<(Tables, bool), DbError> {
    if d.payload.jobId !in t.jobs || KeyOf(d) in t.results then Ok((t, false))
    else if d.payload.feedId !in t.feeds then Err(ForeignKeyViolation)
    else Ok((t.(results := t.results[KeyOf(d) := RowOf(d)]), true))
  }

  function NextScraping(prior: Option<Scraping>, p: Payload): Scraping {
    var isError := p.status == Error;
    var errorMsg := if isError then p.errorMessage else None;
    match prior
    case None =>
      Scraping(p.fetchprotection, p.newLastUpdate, p.newEtag, if isError then 1 else 0, errorMsg)
    case Some(s) =>
      Scraping(p.fetchprotection, p.newLastUpdate.Coalesce(s.lastUpdate), p.newEtag.Coalesce(s.etag),
               if isError then s.errorNbr + 1 else s.errorNbr, errorMsg)
  }

  function ScrapingOf(t: Tables, feedId: FeedId): Option<Scraping> {
    if feedId in t.scraping then Some(t.scraping[feedId]) else None
  }

  function UpsertFeedScrapingState(t: Tables, p: Payload): Result<Tables, DbError> {
    if p.feedId !in t.feeds then Err(ForeignKeyViolation)
    else Ok(t.(scraping := t.scraping[p.feedId := NextScraping(ScrapingOf(t, p.feedId), p)]))
  }

  function UpsertSourcesForFeed(t: Tables, p: Payload): Result<Tables, DbError> {
    if p.status != Success || p.sources == [] then Ok(t)
    else if p.feedId !in t.feeds then Err(ForeignKeyViolation)
    else Ok(t.(articles := UpsertSources(t.articles, p.feedId, p.sources)))
  }

  function RefreshJobStatus(t: Tables, jobId: JobId): Tables {
    if jobId !in t.jobs then t
    else t.(jobs := t.jobs[jobId := t.jobs[jobId].(status := RefreshedStatus(t, jobId))])
  }

  function PersistWorkerResult(t: Tables, d: Delivery): Result<(Tables, bool), DbError> {
    match InsertJobResultIfNew(t, d)
    case Err(e) => Err(e)
    case Ok((t1, isNew)) =>
      if !isNew then Ok((t1, false))
      else
        match UpsertFeedScrapingState(t1, d.payload)
        case Err(e) => Err(e)
        case Ok(t2) =>
          match (if d.kind == IngestQueue then UpsertSourcesForFeed(t2, d.payload) else Ok(t2))
          case Err(e) => Err(e)
          case Ok(t3) => Ok((RefreshJobStatus(t3, d.payload.jobId), true))
  }

  /** The committed tables after one delivery: a failed transaction is rolled back. */
  function Consume(t: Tables, d: Delivery): Tables {
    match PersistWorkerResult(t, d)
    case Ok((t', _)) => t'
    case Err(_) => t
  }

  // --- What one delivery does ---

  /** The delivery records a new row: its job is known, its key unused, and its feed still exists. */
  predicate Records(t: Tables, d: Delivery) {
    d.payload.jobId in t.jobs && KeyOf(d) !in t.results && d.payload.feedId in t.feeds
  }

  /**
   A transaction fails exactly on a new key whose feed is gone, and it changes the tables exactly
   when it records a row; then the row, the feed's counter and the job's status change together.
   */
  lemma PersistOutcome(t: Tables, d: Delivery)
    ensures PersistWorkerResult(t, d).Err? <==>
            d.payload.jobId in t.jobs && KeyOf(d) !in t.results && d.payload.feedId !in t.feeds
    ensures Consume(t, d) != t <==> Records(t, d)
    ensures PersistWorkerResult(t, d).Ok? ==> PersistWorkerResult(t, d).value.1 == Records(t, d)
    ensures Records(t, d) ==>
              var t' := Consume(t, d);
              && t'.results == t.results[KeyOf(d) := RowOf(d)]
              && t'.scraping == t.scraping[d.payload.feedId := NextScraping(ScrapingOf(t, d.payload.feedId), d.payload)]
              && t'.jobs == t.jobs[d.payload.jobId := t.jobs[d.payload.jobId].(status := RefreshedStatus(t', d.payload.jobId))]
              && t'.feeds == t.feeds && t'.jobFeeds == t.jobFeeds
              && t'.articles == (if d.kind == IngestQueue && d.payload.status == Success
                                 then UpsertSources(t.articles, d.payload.feedId, d.payload.sources) else t.articles)
  {
  }

  /** Adding one row moves exactly the aggregates of its own job and feed. */
  lemma AggregatesAfterInsert(results: map<ResultKey, ResultRow>, key: ResultKey, row: ResultRow)
    requires key !in results
    ensures forall j :: JobResults(results[key := row], j)
                     == JobResults(results, j) + (if key.0 == j then {key} else {})
    ensures forall j, s :: JobResultsWith(results[key := row], j, s)
                        == JobResultsWith(results, j, s) + (if key.0 == j && row.status == s then {key} else {})
    ensures forall f :: FeedErrors(results[key := row], f)
                     == FeedErrors(results, f) + (if key.1 == f && row.status == Error then {key} else {})
  {
  }

  // --- Error counters ---

  function ErrorNbr(t: Tables, feedId: FeedId): nat {
    if feedId in t.scraping then t.scraping[feedId].errorNbr else 0
  }

  /** `error_nbr` moves in step with the number of recorded error rows of the feed. */
  lemma CounterFollowsRows(t: Tables, d: Delivery, feedId: FeedId)
    ensures ErrorNbr(Consume(t, d), feedId) - |FeedErrors(Consume(t, d).results, feedId)|
         == ErrorNbr(t, feedId) - |FeedErrors(t.results, feedId)|
  {
    PersistOutcome(t, d);
    if Records(t, d) {
      ErrorsAfterInsert(t.results, KeyOf(d), RowOf(d), feedId);
    }
  }

  lemma ErrorsAfterInsert(results: map<ResultKey, ResultRow>, key: ResultKey, row: ResultRow, feedId: FeedId)
    requires key !in results
    ensures |FeedErrors(results[key := row], feedId)|
         == |FeedErrors(results, feedId)| + (if key.1 == feedId && row.status == Error then 1 else 0)
  {
    AggregatesAfterInsert(results, key, row);
    assert key !in FeedErrors(results, feedId);
  }

  // --- The two read views ---

  /** Counters of the status endpoint. */
  datatype StatusRead = StatusRead(status: JobStatus, total: nat, processed: nat, success: nat, notModified: nat, error: nat)

  function GetStatusRead(t: Tables, jobId: JobId): Option<StatusRead> {
    if jobId !in t.jobs then None
    else Some(StatusRead(t.jobs[jobId].status, t.jobs[jobId].feedCount,
                         |JobResults(t.results, jobId)|,
                         |JobResultsWith(t.results, jobId, Success)|,
                         |JobResultsWith(t.results, jobId, NotModified)|,
                         |JobResultsWith(t.results, jobId, Error)|))
  }

  /** The feed listing of a job: each feed with its result, or nothing while it is pending. */
  function GetFeedReads(t: Tables, jobId: JobId): map<FeedId, Option<ResultRow>> {
    map k | k in t.jobFeeds && k.0 == jobId :: k.1 := if k in t.results then Some(t.results[k]) else None
  }

  lemma {:induction false} SameSize(keys: set<ResultKey>, feeds: set<FeedId>, jobId: JobId)
    requires forall k :: k in keys ==> k.0 == jobId && k.1 in feeds
    requires forall f :: f in feeds ==> (jobId, f) in keys
    ensures |keys| == |feeds|
  {
    if keys != {} {
      var k :| k in keys;
      assert (jobId, k.1) == k;
      SameSize(keys - {k}, feeds - {k.1}, jobId);
    } else {
      assert feeds == {};
    }
  }

  function RecordedFeeds(listing: map<FeedId, Option<ResultRow>>): set<FeedId> {
    set f | f in listing && listing[f].Some?
  }

  function RecordedFeedsWith(listing: map<FeedId, Option<ResultRow>>, status: ResultStatus): set<FeedId> {
    set f | f in listing && listing[f].Some? && listing[f].value.status == status
  }

  /** Every feed of the job is listed, with its row or as pending. */
  lemma ListingIs(t: Tables, jobId: JobId, feedId: FeedId)
    ensures feedId in GetFeedReads(t, jobId) <==> (jobId, feedId) in t.jobFeeds
    ensures feedId in GetFeedReads(t, jobId) ==>
              GetFeedReads(t, jobId)[feedId] == if (jobId, feedId) in t.results then Some(t.results[(jobId, feedId)]) else None
  {
    if feedId in GetFeedReads(t, jobId) {
      var k :| k in t.jobFeeds && k.0 == jobId && k.1 == feedId;
      assert k == (jobId, feedId);
    }
    if (jobId, feedId) in t.jobFeeds {
      assert (jobId, feedId).0 == jobId && (jobId, feedId).1 == feedId;
    }
  }

  lemma FeedReadsMirrorRows(t: Tables, jobId: JobId, status: ResultStatus)
    requires forall k :: k in t.results ==> k in t.jobFeeds
    ensures |RecordedFeeds(GetFeedReads(t, jobId))| == |JobResults(t.results, jobId)|
    ensures |RecordedFeedsWith(GetFeedReads(t, jobId), status)| == |JobResultsWith(t.results, jobId, status)|
  {
    var listing := GetFeedReads(t, jobId);
    forall k | k in t.results && k.0 == jobId ensures k.1 in listing && listing[k.1] == Some(t.results[k]) {
      assert k in t.jobFeeds;
    }
    SameSize(JobResults(t.results, jobId), RecordedFeeds(listing), jobId);
    SameSize(JobResultsWith(t.results, jobId, status), RecordedFeedsWith(listing, status), jobId);
  }

  /** The two views agree: the non-pending feed rows are exactly the processed ones, split over the three statuses. */
  lemma ViewsAgree(t: Tables, jobId: JobId)
    requires jobId in t.jobs
    requires forall k :: k in t.results ==> k in t.jobFeeds
    ensures var read := GetStatusRead(t, jobId).value;
            var listing := GetFeedReads(t, jobId);
            && read.processed == read.success + read.notModified + read.error
            && read.processed == |RecordedFeeds(listing)|
            && read.success == |RecordedFeedsWith(listing, Success)|
            && read.notModified == |RecordedFeedsWith(listing, NotModified)|
            && read.error == |RecordedFeedsWith(listing, Error)|
  {
    assert JobResults(t.results, jobId)
        == JobResultsWith(t.results, jobId, Success) + JobResultsWith(t.results, jobId, NotModified)
           + JobResultsWith(t.results, jobId, Error);
    FeedReadsMirrorRows(t, jobId, Success);
    FeedReadsMirrorRows(t, jobId, NotModified);
    FeedReadsMirrorRows(t, jobId, Error);
  }

  // --- The feed listing in its order ---

  /** One line of the listing; a feed without a result is pending. */
  datatype FeedRead = FeedRead(feedId: FeedId, result: Option<ResultRow>)

  /** The lines are the job's feeds by ascending id, each once, with its result. */
  ghost predicate IsListing(rows: seq<FeedRead>, listing: map<FeedId, Option<ResultRow>>) {
    && (forall i, j :: 0 <= i < j < |rows| ==> rows[i].feedId < rows[j].feedId)
    && (forall i :: 0 <= i < |rows| ==> rows[i].feedId in listing && listing[rows[i].feedId] == rows[i].result)
    && (forall f :: f in listing ==> exists i :: 0 <= i < |rows| && rows[i].feedId == f)
  }

  lemma {:induction false} LeastFeed(feeds: set<FeedId>) returns (least: FeedId)
    requires feeds != {}
    ensures least in feeds && forall f :: f in feeds ==> least <= f
  {
    var x: FeedId :| x in feeds;
    least := x;
    if feeds != {x} {
      var m := LeastFeed(feeds - {x});
      least := if x < m then x else m;
      assert forall f :: f in feeds ==> f == x || f in feeds - {x};
    }
  }

  /** The lines written while the feeds `remaining` are still to come. */
  ghost predicate ListingSoFar(rows: seq<FeedRead>, listing: map<FeedId, Option<ResultRow>>, remaining: set<FeedId>) {
    && remaining <= listing.Keys
    && IsListing(rows, listing - remaining)
    && forall i, f :: 0 <= i < |rows| && f in remaining ==> rows[i].feedId < f
  }

  lemma ListingNext(rows: seq<FeedRead>, listing: map<FeedId, Option<ResultRow>>, remaining: set<FeedId>, least: FeedId)
    requires ListingSoFar(rows, listing, remaining)
    requires least in remaining && forall f :: f in remaining ==> least <= f
    ensures ListingSoFar(rows + [FeedRead(least, listing[least])], listing, remaining - {least})
  {
    var longer := rows + [FeedRead(least, listing[least])];
    assert longer[|rows|].feedId == least;
    forall f | f in listing - (remaining - {least}) ensures exists i :: 0 <= i < |longer| && longer[i].feedId == f {
      if f != least {
        assert f in listing - remaining;
        var i :| 0 <= i < |rows| && rows[i].feedId == f;
        assert longer[i].feedId == f;
      }
    }
  }
}
