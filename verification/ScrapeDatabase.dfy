/**
 The db_manager session: each statement updates its table in place, a result message is one
 transaction, and the message is acknowledged only after its commit.
 */
module ScrapeDatabase {
  import opened Common
  import opened SourceIngest
  import opened ScrapeTables

  const CHECK_STREAM := "rss_check_results"
  const INGEST_STREAM := "rss_ingest_results"
  const ERROR_STREAM := "error_feeds_parsing"

  function ResolveQueueKind(streamName: string): QueueKind {
    if streamName == CHECK_STREAM then CheckQueue
    else if streamName == INGEST_STREAM then IngestQueue
    else if streamName == ERROR_STREAM then ErrorQueue
    else ErrorQueue
  }

  /** The stored row says what the payload says, and which stream it came from. */
  predicate RowSays(row: ResultRow, streamName: string, p: Payload) {
    && row.status == p.status && row.errorMessage == p.errorMessage && row.fetchprotection == p.fetchprotection
    && row.newEtag == p.newEtag && row.newLastUpdate == p.newLastUpdate
    && row.queueKind == (if streamName == "rss_check_results" then CheckQueue
                         else if streamName == "rss_ingest_results" then IngestQueue
                         else ErrorQueue)
  }

  /** A message is new to the tables: its job is known and has no row for its feed. */
  predicate IsNew(t: Tables, p: Payload) {
    p.jobId in t.jobs && (p.jobId, p.feedId) !in t.results
  }

  /** Every article of the payload is stored and linked to the feed. */
  ghost predicate AllIngested(t: SourceTables, p: Payload) {
    forall k :: 0 <= k < |p.sources| ==> Ingested(t, p.feedId, p.sources[k])
  }

  /** What an accepted message leaves, from the name of its stream. */
  lemma StreamDecides(t: Tables, streamName: string, p: Payload)
    requires PersistWorkerResult(t, Delivery(ResolveQueueKind(streamName), p)).Ok?
    ensures var t' := Consume(t, Delivery(ResolveQueueKind(streamName), p));
            && (IsNew(t, p) ==> (p.jobId, p.feedId) in t'.results && RowSays(t'.results[(p.jobId, p.feedId)], streamName, p))
            && (!IsNew(t, p) ==> t' == t)
            && (streamName != "rss_ingest_results" || p.status != Success ==> t'.articles == t.articles)
            && (streamName == "rss_ingest_results" && p.status == Success && IsNew(t, p) && ValidSources(t.articles) ==>
                  AllIngested(t'.articles, p))
  {
    PersistOutcome(t, Delivery(ResolveQueueKind(streamName), p));
    if ValidSources(t.articles) {
      forall k | 0 <= k < |p.sources| ensures Ingested(UpsertSources(t.articles, p.feedId, p.sources), p.feedId, p.sources[k]) {
        UpsertSourcesIngestsAll(t.articles, p.feedId, p.sources, k);
      }
    }
  }

  class Database {
    var feeds: set<FeedId>
    var jobs: map<JobId, Job>
    var jobFeeds: set<ResultKey>
    var results: map<ResultKey, ResultRow>
    var scraping: map<FeedId, Scraping>
    var articles: SourceTables
    /** What other sessions see, and what a rollback returns to. */
    var committed: Tables

    constructor (t: Tables)
      ensures Current() == t && committed == t
    {
      feeds, jobs, jobFeeds, results := t.feeds, t.jobs, t.jobFeeds, t.results;
      scraping, articles, committed := t.scraping, t.articles, t;
    }

    function Current(): Tables
      reads this
    {
      Tables(feeds, jobs, jobFeeds, results, scraping, articles)
    }

    method InsertJobResultIfNew(d: Delivery) returns (inserted: Result<bool, DbError>)
      modifies this`results
      ensures match ScrapeTables.InsertJobResultIfNew(old(Current()), d)
              case Ok((t, isNew)) => Current() == t && inserted == Ok(isNew)
              case Err(e) => Current() == old(Current()) && inserted == Err(e)
    {
      if d.payload.jobId !in jobs || KeyOf(d) in results {
        return Ok(false);
      }
      if d.payload.feedId !in feeds {
        return Err(ForeignKeyViolation);
      }
      results := results[KeyOf(d) := RowOf(d)];
      return Ok(true);
    }

    method UpsertFeedScrapingState(p: Payload) returns (outcome: Result<(), DbError>)
      modifies this`scraping
      ensures match ScrapeTables.UpsertFeedScrapingState(old(Current()), p)
              case Ok(t) => Current() == t && outcome == Ok(())
              case Err(e) => Current() == old(Current()) && outcome == Err(e)
    {
      if p.feedId !in feeds {
        return Err(ForeignKeyViolation);
      }
      var isError := p.status == Error;
      var errorMsg := if isError then p.errorMessage else None;
      if p.feedId !in scraping {
        scraping := scraping[p.feedId :=
          Scraping(p.fetchprotection, p.newLastUpdate, p.newEtag, if isError then 1 else 0, errorMsg)];
      } else {
        var stored := scraping[p.feedId];
        scraping := scraping[p.feedId := stored.(
          fetchprotection := p.fetchprotection,
          lastUpdate := p.newLastUpdate.Coalesce(stored.lastUpdate),
          etag := p.newEtag.Coalesce(stored.etag),
          errorNbr := if isError then stored.errorNbr + 1 else stored.errorNbr,
          errorMsg := errorMsg)];
      }
      return Ok(());
    }

    method UpsertSourcesForFeed(p: Payload) returns (outcome: Result<(), DbError>)
      modifies this`articles
      ensures match ScrapeTables.UpsertSourcesForFeed(old(Current()), p)
              case Ok(t) => Current() == t && outcome == Ok(())
              case Err(e) => outcome == Err(e)
    {
      if p.status != Success {
        return Ok(());
      }
      ghost var before := articles;
      var i := 0;
      while i < |p.sources|
        invariant 0 <= i <= |p.sources|
        invariant articles == UpsertSources(before, p.feedId, p.sources[..i])
        invariant i > 0 ==> p.feedId in feeds
      {
        assert p.sources[..i + 1][..i] == p.sources[..i];
        articles := UpsertSource(articles, p.feedId, p.sources[i]);
        if p.feedId !in feeds {
          return Err(ForeignKeyViolation);
        }
        i := i + 1;
      }
      assert p.sources[..i] == p.sources;
      return Ok(());
    }

    method RefreshJobStatus(jobId: JobId)
      modifies this`jobs
      ensures Current() == ScrapeTables.RefreshJobStatus(old(Current()), jobId)
    {
      if jobId !in jobs {
        return;
      }
      var processed := |set k | k in results.Keys && k.0 == jobId|;
      var errors := |set k | k in results.Keys && k.0 == jobId && results[k].status == Error|;
      var status;
      if jobs[jobId].feedCount == 0 {
        status := Completed;
      } else if processed == 0 {
        status := Queued;
      } else if processed < jobs[jobId].feedCount {
        status := Processing;
      } else if errors > 0 {
        status := CompletedWithErrors;
      } else {
        status := Completed;
      }
      jobs := jobs[jobId := jobs[jobId].(status := status)];
    }

    method PersistWorkerResult(d: Delivery) returns (isNew: Result<bool, DbError>)
      modifies this`results, this`scraping, this`articles, this`jobs
      ensures match ScrapeTables.PersistWorkerResult(old(Current()), d)
              case Ok((t, b)) => Current() == t && isNew == Ok(b)
              case Err(e) => isNew == Err(e)
    {
      isNew := InsertJobResultIfNew(d);
      if isNew != Ok(true) {
        return;
      }
      var outcome := UpsertFeedScrapingState(d.payload);
      if outcome.Err? {
        return Err(outcome.error);
      }
      if d.kind == IngestQueue {
        outcome := UpsertSourcesForFeed(d.payload);
        if outcome.Err? {
          return Err(outcome.error);
        }
      }
      RefreshJobStatus(d.payload.jobId);
    }

    /** The feed listing of a job, by ascending feed id. */
    method ListScrapeJobFeedReads(jobId: JobId) returns (rows: seq<FeedRead>)
      ensures IsListing(rows, GetFeedReads(Current(), jobId))
    {
      rows := [];
      ghost var listing := GetFeedReads(Current(), jobId);
      var remaining: set<FeedId> := set k | k in jobFeeds && k.0 == jobId :: k.1;
      assert remaining == listing.Keys;
      while remaining != {}
        invariant ListingSoFar(rows, listing, remaining)
        decreases |remaining|
      {
        ghost var first := LeastFeed(remaining);
        var least :| least in remaining && forall f :: f in remaining ==> least <= f;
        ListingNext(rows, listing, remaining, least);
        rows := rows + [FeedRead(least, if (jobId, least) in results then Some(results[(jobId, least)]) else None)];
        remaining := remaining - {least};
      }
      assert listing - {} == listing;
    }

    method Commit()
      modifies this`committed
      ensures committed == Current()
    {
      committed := Current();
    }

    method Rollback()
      modifies this
      ensures committed == old(committed) && Current() == committed
    {
      feeds, jobs, jobFeeds, results := committed.feeds, committed.jobs, committed.jobFeeds, committed.results;
      scraping, articles := committed.scraping, committed.articles;
    }

    /**
     One message.  `payload` is absent when validation failed; `commitFails` stands for every error
     of the database beyond the foreign keys.  An acknowledged valid message has its effect
     committed, and a message that is not acknowledged has left no trace.
     */
    method ProcessResultMessage(streamName: string, payload: Option<Payload>, commitFails: bool)
      returns (acked: bool)
      requires Current() == committed
      modifies this
      ensures Current() == committed
      ensures payload.None? ==> acked && committed == old(committed)
      ensures payload.Some? ==>
                var d := Delivery(ResolveQueueKind(streamName), payload.value);
                && acked == (!commitFails && ScrapeTables.PersistWorkerResult(old(committed), d).Ok?)
                && committed == (if acked then Consume(old(committed), d) else old(committed))
      ensures payload.Some? && acked && IsNew(old(committed), payload.value) ==>
                var p := payload.value;
                (p.jobId, p.feedId) in committed.results && RowSays(committed.results[(p.jobId, p.feedId)], streamName, p)
      ensures payload.Some? && (streamName != "rss_ingest_results" || payload.value.status != Success) ==>
                committed.articles == old(committed.articles)
      ensures payload.Some? && acked && streamName == "rss_ingest_results" && payload.value.status == Success
              && IsNew(old(committed), payload.value) && ValidSources(old(committed.articles)) ==>
                AllIngested(committed.articles, payload.value)
    {
      if payload.None? {
        return true;
      }
      var isNew := PersistWorkerResult(Delivery(ResolveQueueKind(streamName), payload.value));
      if isNew.Err? || commitFails {
        Rollback();
        return false;
      }
      StreamDecides(committed, streamName, payload.value);
      Commit();
      return true;
    }
  }
}
