# RSS pipeline: a verified model

This project models the RSS pipeline of backend, worker and db_manager and proves what its parts
guarantee. Code that changes things step by step is written as methods over classes, fields and loops and proved
equal to a specification on values; the theorems are then about that specification. What several
processes do together is a step system whose runs are all interleavings.

- **Result tables** (`ScrapeTables`, `ScrapeDatabase`, `SourceIngest`, `OrderIndependence`): the
  transaction of one worker result, the message step around it, and any sequence of redelivered,
  reordered messages.
- **Pipeline** (`Pipeline`, `PipelineInvariants`, `PipelineTheorems`, `PipelineKinds`, `PipelineFindings`): creating and
  publishing jobs, lost replies, duplicate results, roll-backs, acknowledgements, new and deleted
  feeds, in any interleaving. `Enqueue` and `WorkerQueue` are the backend call and the worker's message step;
  the former is shown to be a run of the step system, the latter justifies its guards.
- **Scheduling** (`Scheduling`, `RoundRobinLaws`, `MixByIds`, `RateLimiter`): the company mixer, the batches, and
  the semaphore whose permits return a second later.
- **Partitions** (`Repartition`): the weekly repartitioning of the two linked tables.
- **Page rows and images** (`RowBuffers`, `RowPacker`, `RowPackerLaws`, `ImageChoice`, `ImageObservations`, `Normalize`): the two-buffer row packer, the
  image candidates with their index, and the de-duplicating filter.
- **Catalog** (`CatalogSync`, `CatalogLaws`, `CatalogRuns`, `CatalogClaims`, `CatalogCompanies`, `CatalogDatabase`): the reconcile in a
  session that does not flush by itself, with both sides of every row.
- **Lock** (`JobLock`): the local and advisory locks over threads of many processes.

## Where the code does less than one might expect

Each of these is proved with a concrete run or state, next to the exact condition under which the
code does what is wanted.

- A job whose publish reply is lost can be processed to the end and then be stored as `failed`
  (`PipelineFindings.LostReplyFailsCompletedJob`); a finished status is lost exactly there
  (`FinishedIsLostOnlyToMarking`), and can be lost exactly while that failure is unrecorded (`FinishedCanBeLostIff`).
- Repartitioning deletes links when a weekly link partition refers to a source of the default
  partition (`Repartition.UnpairedRunLosesLink`, `LinksAreKeptIff`). Rows dated at the epoch leave the default when the
  epoch's week has a partition (`EpochRowLeavesDefault`, `DefaultKeepsEpochRows`).
- One article whose URL exceeds 1000 characters makes the normalisation of a whole feed fail
  (`Normalize.LongUrlFailsFeed`, `NormalizeFeedSources`).
- A catalog run can delete a feed that an earlier file of the run moved to another company, because
  the move is not flushed (`CatalogRuns.TakeoverLosesFeed`); one file is exact if and only if the session flushes on
  the way or no ownership is stale (`CatalogLaws.ReconcileIsExact`), and a run if and only if no claim meets its
  old owner's file before a flush (`CatalogClaims.RunIsExactIff`).
- Syncing a catalog with an empty image twice changes the company: it is created with an empty icon and updated to
  none (`CatalogLaws.EmptyIconChangesCompany`, `SecondSyncChangesNothing`).
- The lock's documentation says it prevents concurrent execution of a job. The code leaves the local
  lock locked for good when closing the lock connection raises (`JobLock.CloseFailureLeaks`, `LockableIffClosed`), admits a second
  process when the connection dies (`JobLock.DeadConnectionAdmitsTwo`), and keeps the advisory lock with the pooled
  connection when the unlock fails (`JobLock.LostUnlockBlocks`, `PooledConnectionHoldsTwice`, `LostUnlockStaysLocked`).

## Environment

The clock, the network and the failures of calls are parameters or steps: which publish replies
arrive, whether a commit succeeds, which results a fetch yields, when a connection dies. Timestamps are
microseconds since the epoch in UTC, and the rate limiter's clock counts seconds. Ids come from sequences and are never reused.

## Model

| member | source | states |
|---|---|---|
| `ScrapeTables.PersistOutcome` | `db-manager/app/services/result_persistence_service.py:14-34` | One result transaction fails exactly when the key is new, the job is known and the feed is gone; otherwise it changes the tables exactly when it records a row, and then row, feed state, job status and articles change together. |
| `ScrapeTables.AggregatesAfterInsert` | `db-manager/app/clients/database/rss_scraping_db_client.py:129-142` | One new row moves exactly the counts of its own job, status and feed. |
| `ScrapeTables.CounterFollowsRows` | `db-manager/app/clients/database/rss_scraping_db_client.py:84-95` | `error_nbr` of every feed moves in step with the number of its recorded error rows. |
| `ScrapeTables.ViewsAgree` | `backend/app/clients/database/rss/rss_scrape_job_database_client.py:132-205` | The status view and the feed listing of a job agree: non-pending feeds are the processed ones, split over the three result statuses. |
| `ScrapeDatabase.Database.InsertJobResultIfNew` | `db-manager/app/clients/database/rss_scraping_db_client.py:9-57` | In place: inserts the row iff the job exists and the key is unused; a missing feed violates the foreign key. |
| `ScrapeDatabase.Database.UpsertFeedScrapingState` | `db-manager/app/clients/database/rss_scraping_db_client.py:60-107` | In place: the upsert with its coalescing columns, the error count and the error text, or the foreign key error. |
| `ScrapeDatabase.Database.UpsertSourcesForFeed` | `db-manager/app/clients/database/source_ingest_db_client.py:13-74` | The loop over the payload ends in the folded upsert of all its sources, and does nothing unless the status is success. |
| `ScrapeDatabase.Database.RefreshJobStatus` | `db-manager/app/clients/database/rss_scraping_db_client.py:110-167` | Writes the status computed from feed count, processed and error rows; an unknown job is left alone. |
| `ScrapeDatabase.Database.PersistWorkerResult` | `db-manager/app/services/result_persistence_service.py:14-34` | The four statements in order have the effect of the transaction function, and report whether the row was new. |
| `ScrapeDatabase.Database.ProcessResultMessage` | `db-manager/app/services/result_consumer_service.py:48-83` | Commit and acknowledge, or roll back and do not acknowledge; an invalid payload is acknowledged and changes nothing. By the name of the stream: the stored row's fields and kind, and that exactly new successes of the ingest stream have their articles ingested. |
| `ScrapeTables.ListingIs` | `backend/app/clients/database/rss/rss_scrape_job_database_client.py:175-205` | Every feed of the job is listed, with its row or as pending. |
| `ScrapeDatabase.Database.ListScrapeJobFeedReads` | `backend/app/clients/database/rss/rss_scrape_job_database_client.py:170-205` | The listing has each feed of the job once, by ascending id, with its result or pending. |
| `ScrapeDatabase.StreamDecides` | `db-manager/app/domain/result_mapping_domain.py:4-11` | What an accepted message leaves, from the name of its stream alone. |
| `OrderIndependence.EachKeyTakesEffectOnce` | `db-manager/app/services/result_persistence_service.py:20-34` | In any delivery sequence at most one delivery of a (job, feed) key changes anything. |
| `OrderIndependence.CountersFollowRows` | `db-manager/app/clients/database/rss_scraping_db_client.py:84-95` | Over any delivery sequence a feed's `error_nbr` rises by exactly the error rows recorded for it. |
| `OrderIndependence.RunRows` | `db-manager/app/clients/database/rss_scraping_db_client.py:9-57` | The rows after a run are the old ones plus one row for every recordable key, taken from one of its messages. |
| `OrderIndependence.RunJob` | `db-manager/app/clients/database/rss_scraping_db_client.py:110-167` | A job row after a run is the old one, or the old one with the status computed from the rows. |
| `OrderIndependence.DeliveryOrderIsIrrelevant` | `db-manager/app/clients/database/rss_scraping_db_client.py:9-167` | Any order and any repetition of the same messages end in the same rows, error counters and job rows, when equal keys record equal rows. |
| `OrderIndependence.RecordsIffFirst` | `db-manager/app/clients/database/rss_scraping_db_client.py:37-42` | A message in the middle of a run records a row iff it is the first of its key and could be recorded at the start. |
| `OrderIndependence.ScrapingReflectsRun` | `db-manager/app/clients/database/rss_scraping_db_client.py:84-95` | After any run a feed's fetch protection and error text are those of the last effective payload, and etag and last update are the last ones given. |
| `SourceIngest.UpsertSourceKeepsKeys` | `db-manager/app/clients/database/source_ingest_db_client.py:21-74` | One upsert keeps (url, published_at) and id unique and links resolved, loses no text, and stores and links the item. |
| `SourceIngest.UpsertSourcesKeepsKeys` | `db-manager/app/clients/database/source_ingest_db_client.py:13-74` | The same over a whole payload; summary, author and image never return to null. |
| `SourceIngest.UpsertSourcesIngestsAll` | `db-manager/app/clients/database/source_ingest_db_client.py:21-74` | Every item of a payload ends stored under its key and linked to the feed. |
| `SourceIngest.StoredRowFolds` | `db-manager/app/clients/database/source_ingest_db_client.py:41-46` | A stored row ends with the last title and the last non-null texts of the matching items. |
| `SourceIngest.ReplayChangesNothing` | `db-manager/app/clients/database/source_ingest_db_client.py:13-74` | Replaying a payload right after it changes no row and no link. |
| `SourceIngest.ItemIsStoredUnderItsDate` | `db-manager/app/clients/database/source_ingest_db_client.py:77-82` | An item ends stored and linked under its own date, or under the start of 1970 without one. |
| `SourceIngest.UpsertInItemsTerms` | `db-manager/app/clients/database/source_ingest_db_client.py:21-47` | A new item is added with exactly its texts; a known one takes the title and the given texts; no other row changes. |
| `SourceIngest.OneLinkIsAdded` | `db-manager/app/clients/database/source_ingest_db_client.py:61-74` | The only link an item adds is the feed's, to the row of the item's URL and date. |
| `PipelineTheorems.InvIsKept` | `db-manager/app/services/result_consumer_service.py:68-83` | Every step of backend, worker and db_manager keeps the whole invariant. |
| `PipelineTheorems.ReachableHolds` | `worker-rss-scrapper/app/services/scrape_job_service.py:81-165` | Every interleaving from an initial world satisfies the invariant. |
| `PipelineTheorems.RowsAndCounters` | `db-manager/app/clients/database/rss_scraping_db_client.py:28-43` | In every reachable world rows belong to planned feeds, there are at most `feed_count` of them, and every `error_nbr` equals the recorded error rows. |
| `PipelineTheorems.ViewsAgreeAlways` | `backend/app/clients/database/rss/rss_scrape_job_database_client.py:132-205` | In every reachable world the read views agree, the total is the plan's number of feeds, the processed count is at most that, and the status is what these counts mean while no failure was recorded and the feeds exist. |
| `PipelineTheorems.PublishedIsPrefix` | `backend/app/services/rss/rss_scrape_job_service.py:116-128` | What was published is a prefix of the planned batches, and flattened a prefix of the mixed feed list. |
| `PipelineTheorems.UnpublishedNeverCompletes` | `db-manager/app/clients/database/rss_scraping_db_client.py:128-153` | A job with a planned feed that never reached the stream never has a finished status. |
| `PipelineTheorems.QuiescentJobIsComplete` | `worker-rss-scrapper/app/services/scrape_job_service.py:96-111` | When publishing ended well, the feeds still exist and everything is acknowledged, each feed has its one row and the job is completed, with errors iff some row is an error. |
| `PipelineTheorems.SecondPersistChangesNothing` | `db-manager/app/services/result_persistence_service.py:20-26` | After a message was persisted, no later message with its key changes the tables, whatever ran in between. |
| `PipelineTheorems.StatusMovesForward` | `db-manager/app/clients/database/rss_scraping_db_client.py:144-159` | No step but the recording of a publish failure moves a status back or changes a finished job. |
| `PipelineTheorems.StoredStatusIsComputed` | `db-manager/app/clients/database/rss_scraping_db_client.py:144-167` | Without recorded failure and deletion the stored status is the function of the counts; `failed` implies a recorded failure. |
| `PipelineTheorems.RunExtendsArticles` | `db-manager/app/clients/database/source_ingest_db_client.py:41-46` | In every run articles keep id and key, and a text that was set stays set. |
| `PipelineKinds.KindsFit` | `worker-rss-scrapper/app/services/scrape_job_service.py:158-165` | In every reachable world requests carry their job's purpose, and results and stored rows the stream of their status and job. |
| `PipelineFindings.FinishedIsLostOnlyToMarking` | `backend/app/services/rss/rss_scrape_job_service.py:136-141` | A finished job loses its status iff the step is the marking of a publish failure. |
| `PipelineFindings.FinishedIsPublished` | `backend/app/services/rss/rss_scrape_job_service.py:116-128` | A finished job has every planned batch in the stream. |
| `PipelineFindings.FinishedCanBeLostIff` | `backend/app/services/rss/rss_scrape_job_service.py:119-141` | Before any step: a finished job can lose its status iff its publish loop raised and that is not recorded yet; all batches are in the stream then. |
| `PipelineFindings.FailedIsLostOnlyToRecording` | `db-manager/app/clients/database/rss_scraping_db_client.py:144-159` | A failed job loses that status iff a result is recorded for it. |
| `PipelineFindings.LostReplyFailsCompletedJob` | `backend/app/services/rss/rss_scrape_job_service.py:116-131` | A concrete run: the publish reply is lost, the job completes, and the backend then stores `failed`. |
| `Enqueue.Backend.PublishBatches` | `backend/app/services/rss/rss_scrape_job_service.py:119-131` | The loop leaves in the stream exactly the batches before the first raising call, plus that one if only its reply was lost. |
| `Enqueue.Backend.EnqueueRssScrapeJob` | `backend/app/services/rss/rss_scrape_job_service.py:82-141` | Commit before publish; final tables, stream and result for every outcome of the commits and publish calls, and the whole call is a run of the pipeline steps. |
| `Enqueue.DeliveredIs` | `backend/app/services/rss/rss_scrape_job_service.py:120-131` | The stream holds the batches before the first raising call, and that one iff only its reply was lost. |
| `Enqueue.PublishedIsFirstFailure` | `backend/app/services/rss/rss_scrape_job_service.py:120-131` | The loop stops at the first publish call that raises. |
| `WorkerQueue.Worker.PublishPayload` | `worker-rss-scrapper/app/clients/queue/redis_queue_client.py:118-168` | With one retry over a fresh client: how many copies are stored, whether the call succeeds, and whether a client is left open. |
| `WorkerQueue.PublishOutcomes` | `worker-rss-scrapper/app/clients/queue/redis_queue_client.py:139-157` | Success with one or two copies and failure with zero to two are exactly the possible outcomes of a publish. |
| `WorkerQueue.FeedIsInOnePool` | `worker-rss-scrapper/app/services/scrape_job_service.py:168-179` | Every feed of a request is in exactly one place of exactly one company pool. |
| `WorkerQueue.PoolsAreCompanies` | `worker-rss-scrapper/app/services/scrape_job_service.py:168-179` | Two feeds share a pool iff they are of the same company, by their ids. |
| `WorkerQueue.ResultIsReport` | `worker-rss-scrapper/app/services/scrape_job_service.py:155-165` | An error result is for the error stream, any other for the ingest stream iff the job ingests, else for the check stream. |
| `WorkerQueue.Worker.ProcessCompanyFeedPool` | `worker-rss-scrapper/app/services/scrape_job_service.py:114-165` | A pool reports each of its feeds, and succeeds iff every publish does. |
| `WorkerQueue.Worker.ProcessJobMessage` | `worker-rss-scrapper/app/services/scrape_job_service.py:81-111` | A valid request is acknowledged iff every feed's result was published, and the streams gain exactly the pools' reports, each of one of the job's feeds and in the stream of its status; an invalid message is acknowledged and reports nothing. |
| `Scheduling.RoundRobinIsPermutation` | `backend/app/services/rss/rss_scrape_job_service.py:159-183` | The round-robin order is a permutation of the positions ordered by rank within the company, then first appearance of the company. |
| `Scheduling.RoundRobinIsClosedForm` | `backend/app/services/rss/rss_scrape_job_service.py:165-183` | An order is the round robin iff it is that sorted permutation. |
| `MixByIds.KeysAreCompanies` | `backend/app/services/rss/rss_scrape_job_service.py:186-189` | Two feeds share a key iff both have the same positive company id, or neither has one and they are the same feed. |
| `MixByIds.MixFollowsIds` | `backend/app/services/rss/rss_scrape_job_service.py:159-189` | In terms of company and feed ids alone: a feed stands before another only if fewer earlier feeds are of its company, or equally many and its company appears first. |
| `MixByIds.LoneFeedsComeFirst` | `backend/app/services/rss/rss_scrape_job_service.py:173-189` | A feed without a company comes before every feed that is not the first of its company. |
| `Scheduling.GroupByCompany` | `backend/app/services/rss/rss_scrape_job_service.py:165-171` | The queues hold each company's feeds in input order, companies in order of first appearance. |
| `Scheduling.TakeRound` | `backend/app/services/rss/rss_scrape_job_service.py:176-182` | One round takes the next feed of every company that has one. |
| `Scheduling.MixFeedsByCompany` | `backend/app/services/rss/rss_scrape_job_service.py:159-183` | The loop ends and returns exactly the closed form. |
| `RoundRobinLaws.MixKeepsCompanyOrder` | `backend/app/services/rss/rss_scrape_job_service.py:173-183` | Each company's feeds keep their input order. |
| `RoundRobinLaws.MixIsFair` | `backend/app/services/rss/rss_scrape_job_service.py:173-183` | In every prefix a company with feeds left trails no other by more than one. |
| `RoundRobinLaws.NeighboursShareOnlyAtTheEnd` | `backend/app/services/rss/rss_scrape_job_service.py:173-183` | Two neighbours share a company only if all later feeds are of that company too. |
| `RoundRobinLaws.BatchesAreTheSplit` | `backend/app/services/rss/rss_scrape_job_service.py:144-156` | The batches are the only split with nothing lost, full batches but for the last, none empty. |
| `RoundRobinLaws.IterFeedBatches` | `backend/app/services/rss/rss_scrape_job_service.py:144-156` | The generator loop yields exactly that split. |
| `RateLimiter.CompanyRateLimiter.constructor` | `worker-rss-scrapper/app/services/scrape_job_service.py:30-31` | A limiter starts with all its permits. |
| `RateLimiter.CompanyRateLimiter.TryAcquire` | `worker-rss-scrapper/app/services/scrape_job_service.py:33-34` | A permit is granted iff the counter is positive. |
| `RateLimiter.CompanyRateLimiter.Proceed` | `worker-rss-scrapper/app/services/scrape_job_service.py:35` | The release timer is set when the coroutine proceeds. |
| `RateLimiter.CompanyRateLimiter.RunTimers` | `worker-rss-scrapper/app/services/scrape_job_service.py:35` | Exactly the due timers fire, each gives back one permit, and none is due afterwards. |
| `RateLimiter.AllPermitsReturn` | `worker-rss-scrapper/app/services/scrape_job_service.py:33-35` | With nobody waking and every start a second old, all permits are back. |
| `RateLimiter.FiringIsARun` | `worker-rss-scrapper/app/services/scrape_job_service.py:35` | Firing the due timers is a run of the worker's steps, one for each timer. |
| `RateLimiter.StepKeepsInv` | `worker-rss-scrapper/app/services/scrape_job_service.py:182-192` | Permits free, handed out and waiting for their timer always add up to the limit, and starts `limit` places apart are a second apart. |
| `RateLimiter.CrowdedWindow` | `worker-rss-scrapper/app/services/scrape_job_service.py:29-35` | More than c starts in a window contain two starts c places apart. |
| `RateLimiter.RateIsBounded` | `worker-rss-scrapper/app/services/scrape_job_service.py:29-45` | In every run a company starts at most N feeds in any half-open second and at most k*N in any k seconds. |
| `RateLimiter.LimiterSeesAllStarts` | `worker-rss-scrapper/app/services/scrape_job_service.py:182-192` | No limiter is ever replaced: its list holds every start of its company since the process began. |
| `RateLimiter.StartsAreBounded` | `worker-rss-scrapper/app/services/scrape_job_service.py:29-45` | The same bound on the start times of the run itself, over all jobs that share the limiter table. |
| `Repartition.RunOutcome` | `backend/app/clients/database/sources/manage_source_partitions_db_cli.py:23-51` | From every valid store a run succeeds, keeps every source, drops exactly the links the cascade loses, and adds the missing weeks. |
| `Repartition.LinksAreKeptIff` | `backend/app/clients/database/sources/manage_source_partitions_db_cli.py:92-94` | All links survive iff no link outside the default refers to a source inside it. |
| `Repartition.PairedRunConserves` | `backend/app/clients/database/sources/manage_source_partitions_db_cli.py:23-51` | With paired weekly ranges both tables are conserved and the ranges stay paired. |
| `Repartition.UnpairedRunLosesLink` | `backend/app/clients/database/sources/manage_source_partitions_db_cli.py:92-94` | A concrete unpaired store whose run deletes a link. |
| `Repartition.LateSourcesAreRouted` | `backend/app/clients/database/sources/manage_source_partitions_db_cli.py:97-122` | Afterwards a source later than the epoch lies in the partition of its week and in no other. |
| `Repartition.LateLinksAreRouted` | `backend/app/clients/database/sources/manage_source_partitions_db_cli.py:209-223` | Afterwards a link later than the epoch that was not lost lies in the partition of its week and in no other. |
| `Repartition.EpochRowLeavesDefault` | `backend/app/clients/database/sources/manage_source_partitions_db_cli.py:105-109` | A concrete paired store whose epoch row leaves the default, because a source is dated later in that week. |
| `Repartition.DefaultKeepsEpochRows` | `backend/app/clients/database/sources/manage_source_partitions_db_cli.py:105-109` | What stays in the default is exactly what is not later than the epoch and whose week has no partition. |
| `Repartition.SecondRunCreatesNothing` | `backend/app/clients/database/sources/manage_source_partitions_db_cli.py:153-177` | A second run lists the same weeks and creates no partition. |
| `Repartition.WeekIsMondayToMonday` | `backend/app/clients/database/sources/manage_source_partitions_db_cli.py:97-130` | A week runs from a Monday to the next in UTC. |
| `Repartition.CreateIsSafe` | `backend/app/clients/database/sources/manage_source_partitions_db_cli.py:153-177` | A partition is created iff there is none and the default holds no row of its week, and moves no row. |
| `Repartition.KeysAfterRun` | `backend/app/clients/database/sources/manage_source_partitions_db_cli.py:188-223` | After a run every link has its source by id and date, and both unique keys hold. |
| `Repartition.RestoreKeepsKeys` | `backend/app/clients/database/sources/manage_source_partitions_db_cli.py:191-203` | The insert keeps both keys unique and what is stored, and leaves no buffered key missing. |
| `Repartition.NextIdFollows` | `backend/app/clients/database/sources/manage_source_partitions_db_cli.py:226-237` | The next id is above every stored one and follows the largest, and is one for an empty table. |
| `Repartition.MondaysDoNotOverlap` | `backend/app/clients/database/sources/manage_source_partitions_db_cli.py:129-130` | Two week ranges are equal or disjoint. |
| `Repartition.SourcePartitions.ClearDefaultPartitions` | `backend/app/clients/database/sources/manage_source_partitions_db_cli.py:92-94` | Both deletes, with the cascade into the weekly link partitions. |
| `Repartition.SourcePartitions.ListWeekStarts` | `backend/app/clients/database/sources/manage_source_partitions_db_cli.py:97-122` | Exactly the weeks of sources later than the epoch, ascending. |
| `Repartition.SourcePartitions.CreateWeeklyPartitionPair` | `backend/app/clients/database/sources/manage_source_partitions_db_cli.py:125-177` | Creates what is missing of the pair, and fails if the default holds a row of the week. |
| `Repartition.SourcePartitions.CreateWeeklyPartitions` | `backend/app/clients/database/sources/manage_source_partitions_db_cli.py:34-39` | The creation loop and its two counters. |
| `Repartition.SourcePartitions.InsertSource` | `backend/app/clients/database/sources/manage_source_partitions_db_cli.py:191-203` | One row of the insert: a taken primary key skips it, a taken URL is an error, otherwise it goes to the partition of its date. |
| `Repartition.SourcesNext` | `backend/app/clients/database/sources/manage_source_partitions_db_cli.py:191-203` | Row by row the insert reaches the set-wise result, or the error the whole buffer has. |
| `Repartition.SourcePartitions.RestoreSourcesFromBuffer` | `backend/app/clients/database/sources/manage_source_partitions_db_cli.py:188-206` | In any order of the rows: the unstored sources are inserted, or the buffer clashes on a URL. |
| `Repartition.SourcePartitions.InsertSourceFeed` | `backend/app/clients/database/sources/manage_source_partitions_db_cli.py:212-220` | One link of the insert: skipped if it is there, an error without its source. |
| `Repartition.SourcePartitions.RestoreSourceFeedsFromBuffer` | `backend/app/clients/database/sources/manage_source_partitions_db_cli.py:209-223` | In any order of the links: the missing ones are inserted, or one of them has no source. |
| `Repartition.SourcePartitions.SyncSourcesSequence` | `backend/app/clients/database/sources/manage_source_partitions_db_cli.py:226-237` | The next id is above every id, and one on an empty table. |
| `Repartition.SourcePartitions.RepartitionDefaultSources` | `backend/app/clients/database/sources/manage_source_partitions_db_cli.py:23-51` | The imperative run equals the specified one, with its five report counters. |
| `RowBuffers.FlushFullRows` | `frontend-admin/src/app/sources/page.tsx:302-320` | The flush loop ends and equals its recursive form. |
| `RowBuffers.FlushRemainingBuffer` | `frontend-admin/src/app/sources/page.tsx:296-300` | What is left is cut into chunks, in order. |
| `RowPacker.ItemStep` | `frontend-admin/src/app/sources/page.tsx:323-333` | After one item never both buffers are full, and flushing keeps the pass invariant. |
| `RowPacker.OrderedSourceRows` | `frontend-admin/src/app/sources/page.tsx:288-351` | The rows are a packing: full rows of one kind ordered by their last item, then at most one short row per kind, and each kind spells out its items in input order. |
| `RowPackerLaws.RowCount` | `frontend-admin/src/app/sources/page.tsx:288-351` | A packing has ceil(b/c) + ceil(p/c) rows. |
| `RowPackerLaws.EveryItemOnce` | `frontend-admin/src/app/sources/page.tsx:323-351` | Every item is shown exactly once and nothing else is. |
| `RowPackerLaws.KindKeepsOrder` | `frontend-admin/src/app/sources/page.tsx:323-333` | Within a row and over later rows of its kind, items keep their order on the page. |
| `RowPackerLaws.RowIsUniform` | `frontend-admin/src/app/sources/page.tsx:323-333` | Every row is non-empty, not too long, and of one kind. |
| `RowPackerLaws.RowsAreOrdered` | `frontend-admin/src/app/sources/page.tsx:335-351` | Only the last two rows can be short, one of each kind, in the order of their first items; full rows are in the order of their last. |
| `RowPackerLaws.PackingIsUnique` | `frontend-admin/src/app/sources/page.tsx:288-351` | Items and column count determine every row. |
| `RowPackerLaws.FullCountIsQuotient` | `frontend-admin/src/app/sources/page.tsx:302-320` | The number of full rows of a kind is the integer quotient. |
| `ImageChoice.MaxDimension` | `worker-rss-scrapper/app/domain/rss_parse_domain.py:297-304` | Returns the largest positive value given. |
| `ImageChoice.LargestIsMaximum` | `worker-rss-scrapper/app/domain/rss_parse_domain.py:297-304` | It is one of the given positive values and no smaller than any, absent iff there is none. |
| `ImageChoice.LargestOfParts` | `worker-rss-scrapper/app/domain/rss_parse_domain.py:194-205` | Merging maxima step by step gives the maximum of everything seen. |
| `ImageChoice.ExtractImageDimensionsFromQuery` | `worker-rss-scrapper/app/domain/rss_parse_domain.py:258-270` | The largest width and height parameters of the URL. |
| `ImageChoice.ImageCollector.Note` | `worker-rss-scrapper/app/domain/rss_parse_domain.py:187-205` | One URL is merged into its candidate or listed last; list and index keep representing all sightings. |
| `ImageChoice.ImageCollector.AppendImageCandidate` | `worker-rss-scrapper/app/domain/rss_parse_domain.py:178-220` | With its recursion over the srcset, the collector has seen exactly the flattened sightings. |
| `ImageChoice.Relisted` | `worker-rss-scrapper/app/domain/rss_parse_domain.py:194-202` | A URL seen again changes its own sizes only. |
| `ImageChoice.Listed` | `worker-rss-scrapper/app/domain/rss_parse_domain.py:203-205` | A new URL is appended with its own sizes. |
| `ImageChoice.ChooseBest` | `worker-rss-scrapper/app/domain/rss_parse_domain.py:164-175` | The first candidate with the largest (width, height) among those with a width, else the first. |
| `ImageObservations.CandidateWidth` | `worker-rss-scrapper/app/domain/rss_parse_domain.py:188-205` | A candidate's width is the largest that any observation, srcset piece or URL parameter gives its URL, and absent iff none is positive. |
| `ImageObservations.CandidateHeight` | `worker-rss-scrapper/app/domain/rss_parse_domain.py:188-205` | The same for its height, which a srcset shares with its observation. |
| `ImageObservations.CandidateIffObserved` | `worker-rss-scrapper/app/domain/rss_parse_domain.py:187-220` | A URL has a candidate iff it is observed. |
| `ImageObservations.CandidatesFollowObservations` | `worker-rss-scrapper/app/domain/rss_parse_domain.py:187-220` | The candidates are in the order in which their URLs are first observed, the observation's own before its srcset. |
| `ImageObservations.ChoiceIsWidest` | `worker-rss-scrapper/app/domain/rss_parse_domain.py:164-175` | With any width known the widest candidate is chosen, then the highest, then the first; without one the first; of none none. |
| `ImageChoice.ExtractEntryImageUrl` | `worker-rss-scrapper/app/domain/rss_parse_domain.py:134-175` | The choice is the specified one over one candidate per distinct URL, each with its maximal sizes. |
| `ImageChoice.ChoiceIsUnique` | `worker-rss-scrapper/app/domain/rss_parse_domain.py:167-175` | The specification of the choice admits one result. |
| `ImageChoice.WidthsAreCounted` | `worker-rss-scrapper/app/domain/rss_parse_domain.py:188-205` | No observed width exceeds its candidate's width. |
| `ImageChoice.HeightsAreCounted` | `worker-rss-scrapper/app/domain/rss_parse_domain.py:188-205` | No observed height exceeds its candidate's height. |
| `ImageChoice.UrlsAreSighted` | `worker-rss-scrapper/app/domain/rss_parse_domain.py:188-205` | A URL is listed iff some observation has it. |
| `Normalize.NormalizeFeedSources` | `worker-rss-scrapper/app/domain/rss_normalize_domain.py:11-37` | The loop fails iff some eligible entry's URL exceeds the article schema, and otherwise returns the articles of exactly the surviving entries in order. |
| `Normalize.RefusedIffSurvivorTooLong` | `worker-rss-scrapper/app/schemas/feed_source_schema.py:9` | It fails iff an article of the specified list has an overlong URL. |
| `Normalize.LongUrlFailsFeed` | `worker-rss-scrapper/app/schemas/feed_source_schema.py:9` | A concrete feed in which one overlong URL takes a good article along. |
| `Normalize.ArticleCarriesEntry` | `worker-rss-scrapper/app/domain/rss_normalize_domain.py:26-35` | An article carries its entry's title, URL, date, summary, author and image, is dated 2026 or later, and no earlier entry of its URL qualifies. |
| `Normalize.FirstDayOf2026` | `worker-rss-scrapper/app/domain/rss_normalize_domain.py:8` | The bound is 20454 days after the epoch. |
| `Normalize.SurvivorsAreAll` | `worker-rss-scrapper/app/domain/rss_normalize_domain.py:15-27` | Every first eligible entry of a URL survives. |
| `Normalize.SurvivorsAreAscending` | `worker-rss-scrapper/app/domain/rss_normalize_domain.py:15-27` | Survivors are listed in input order, and each is the first eligible entry of its URL. |
| `Normalize.EligibleUrlIsKept` | `worker-rss-scrapper/app/domain/rss_normalize_domain.py:20-25` | An ineligible earlier duplicate never hides an eligible entry's URL. |
| `Normalize.UrlsAreUnique` | `worker-rss-scrapper/app/domain/rss_normalize_domain.py:20-24` | No URL comes out twice. |
| `CatalogLaws.ReconcileIsExactAt` | `backend/app/services/rss/rss_sync_service.py:67-125` | For each URL: one file leaves ownership right iff the session flushed on the way or the URL's ownership was not stale. |
| `CatalogLaws.ReconcileIsExact` | `backend/app/clients/database/rss/utils_rss_feeds_db_cli.py:81-99` | The same for all URLs at once, as a condition on the state and the file before the call. |
| `CatalogLaws.FlushedReconcileIsExact` | `backend/app/services/rss/rss_sync_service.py:67-125` | From a flushed session the company owns exactly its catalog's URLs, and nobody else's unlisted feed is touched. |
| `CatalogLaws.ListedRow` | `backend/app/clients/database/rss/utils_rss_feeds_db_cli.py:10-64` | A listed feed ends with its last entry's fields, the company, the largest protection, and keeps its id. |
| `CatalogLaws.MaxProtectionIsMaximum` | `backend/app/clients/database/rss/utils_rss_feeds_db_cli.py:39-43` | That protection is in 0..2, bounds the old value and every entry, and is one of them. |
| `CatalogLaws.UnlistedAfter` | `backend/app/clients/database/rss/utils_rss_feeds_db_cli.py:86-97` | An unlisted feed is deleted iff the side the deletion sees is the company's, and keeps its object otherwise. |
| `CatalogLaws.ProtectionNeverDrops` | `backend/app/clients/database/rss/utils_rss_feeds_db_cli.py:39-43` | A feed's protection never drops across a sync. |
| `CatalogLaws.SecondSyncChangesNothing` | `backend/app/services/rss/rss_sync_service.py:96-125` | Syncing the same file again changes no feed, link, protection, tag or id, and no company iff the first sync found it or its icon is not empty. |
| `CatalogLaws.EmptyIconChangesCompany` | `backend/app/clients/database/rss/rss_company_db_cli.py:42-70` | A concrete catalog with an empty image whose second sync changes the company's icon. |
| `CatalogRuns.PlanKeepsSound` | `backend/app/clients/database/rss/utils_rss_feeds_db_cli.py:10-64` | Every file keeps ids unique and below the sequence, owners existing and protections in range. |
| `CatalogRuns.RunAppliesPlans` | `backend/app/services/rss/rss_sync_service.py:53-58` | A run without error applies its files' plans in order. |
| `CatalogRuns.FileIsExact` | `backend/app/services/rss/rss_sync_service.py:53-58` | In a run without takeovers every file reconciles its company exactly. |
| `CatalogRuns.RunIsExact` | `backend/app/services/rss/rss_sync_service.py:53-59` | After such a run every synced company owns exactly its catalog's URLs. |
| `CatalogRuns.RunLeavesOthers` | `backend/app/services/rss/rss_sync_service.py:53-59` | Feeds nobody listed and no synced company owned are as before. |
| `CatalogClaims.ClaimFate` | `backend/app/clients/database/rss/utils_rss_feeds_db_cli.py:86-97` | A feed claimed by one file is deleted by a later one iff that file is of the company that still owns it in the database and nothing was flushed in between. |
| `CatalogClaims.RunIsExactIff` | `backend/app/services/rss/rss_sync_service.py:53-59` | With one file per company and no URL listed twice, a company ends a run with exactly its catalog's feeds iff none of its claims is lost. |
| `CatalogClaims.ExactFilesAgree` | `backend/app/services/rss/rss_sync_service.py:53-59` | No run is exact for two files that share a URL but not a company, or a company but not the URLs. |
| `CatalogClaims.LostToOldOwner` | `backend/app/clients/database/rss/utils_rss_feeds_db_cli.py:86-97` | Claims are lost only to companies that owned the feed when the run started. |
| `CatalogClaims.PlanKeepsProtection` | `backend/app/clients/database/rss/utils_rss_feeds_db_cli.py:38-43` | One file: a feed that stays keeps its id and its protection does not drop; a new feed has a new id. |
| `CatalogClaims.RunKeepsProtection` | `backend/app/clients/database/rss/utils_rss_feeds_db_cli.py:38-43` | Over a run of any files, the protection of a feed that survives under its id never drops and stays in 0..2. |
| `CatalogRuns.TakeoverLosesFeed` | `backend/app/clients/database/rss/utils_rss_feeds_db_cli.py:86-97` | A concrete two-file run in which an unflushed takeover deletes the claimed feed. |
| `CatalogCompanies.CompanyAfterFile` | `backend/app/clients/database/rss/rss_company_db_cli.py:20-73` | A file's company gets its details, an empty icon as none if it existed, and stays enabled or disabled; a new company is enabled. |
| `CatalogCompanies.OtherCompanyAfterFile` | `backend/app/clients/database/rss/rss_company_db_cli.py:20-73` | No file touches another company. |
| `CatalogCompanies.RunKeepsEnabled` | `backend/app/clients/database/rss/rss_company_db_cli.py:56-73` | No run enables or disables a company that existed. |
| `CatalogCompanies.RunEnablesNew` | `backend/app/clients/database/rss/rss_company_db_cli.py:42-50` | A company that a run creates is enabled. |
| `CatalogCompanies.LastFileDescribes` | `backend/app/clients/database/rss/rss_company_db_cli.py:56-73` | After a run a company is as the last file that reconciled it says. |
| `CatalogCompanies.RunLeavesCompany` | `backend/app/clients/database/rss/rss_company_db_cli.py:20-73` | A company no file reconciles is as before. |
| `CatalogCompanies.CatalogDescribesCompany` | `backend/app/services/rss/rss_sync_service.py:85-94` | The company of a readable file carries the catalog's host, country, language, protection and image. |
| `CatalogCompanies.FileFailsIff` | `backend/app/services/rss/rss_sync_service.py:67-112` | Exactly which files fail, in terms of path, image, company name, URLs and tags. |
| `CatalogCompanies.MissingFileRemoves` | `backend/app/services/rss/rss_sync_service.py:75-83` | A missing file removes exactly the feeds of the company its path names. |
| `CatalogCompanies.ListedFeedFollowsCatalog` | `backend/app/services/rss/rss_sync_service.py:96-119` | A listed feed ends with its last entry's section, state, trust and tags under the catalog's company, and keeps its id. |
| `CatalogCompanies.ListedFeedProtection` | `backend/app/clients/database/rss/utils_rss_feeds_db_cli.py:35-43` | Its protection is at least its old one and every entry's, and is one of them; an entry without one counts with the catalog's. |
| `CatalogCompanies.TagsAfterFile` | `backend/app/clients/database/rss/rss_tags_db_cli.py:9-34` | The stored tags are the old ones and those of the entries. |
| `CatalogCompanies.EntryFlushesOthers` | `backend/app/clients/database/rss/utils_rss_feeds_db_cli.py:31-33` | One entry flushes the other feeds iff its URL or one of its tags is new. |
| `CatalogCompanies.EntryOwnRow` | `backend/app/clients/database/rss/utils_rss_feeds_db_cli.py:31-64` | A new feed reaches the database without its company; a known one is as it was there, unless a new tag flushed it. |
| `CatalogDatabase.Session.GetOrCreateTags` | `backend/app/clients/database/rss/rss_tags_db_cli.py:9-34` | Missing tags are added, and only then the session flushes, which fails iff one of them is too long for the column. |
| `CatalogDatabase.Session.GetOrCreateCompany` | `backend/app/clients/database/rss/rss_company_db_cli.py:20-73` | An existing company gets the catalog's metadata, an empty icon as none; a missing one is added with a flush, unless its name is too long for the column. |
| `CatalogDatabase.Session.ListRssFeedsByUrls` | `backend/app/clients/database/rss/get_rss_feeds_db_cli.py:37-50` | The given URLs that have a feed. |
| `CatalogDatabase.Session.UpsertFeed` | `backend/app/clients/database/rss/utils_rss_feeds_db_cli.py:10-45` | The whole session state after the upsert; an insert never meets an existing URL. |
| `CatalogDatabase.Session.LinkCompanyToFeed` | `backend/app/clients/database/rss/utils_rss_feeds_db_cli.py:48-64` | The link is set on the object only, and reported iff it changed. |
| `CatalogDatabase.Session.DeleteCompanyFeedsNotInUrls` | `backend/app/clients/database/rss/utils_rss_feeds_db_cli.py:81-99` | Deletes, and counts, exactly the rows the flushed side shows as surplus. |
| `CatalogDatabase.Session.SyncEntry` | `backend/app/services/rss/rss_sync_service.py:110-119` | One round of the entry loop: tags, upsert and link, or a failure of the tags. |
| `CatalogDatabase.Session.SyncEntries` | `backend/app/services/rss/rss_sync_service.py:104-119` | The entry loop with its dictionary of known feeds fails iff some new tag is too long, and otherwise equals the fold. |
| `CatalogDatabase.Session.SyncCatalogFile` | `backend/app/services/rss/rss_sync_service.py:67-125` | One file: its error, or the specified state. |
| `CatalogDatabase.Session.SyncRssCatalog` | `backend/app/services/rss/rss_sync_service.py:52-64` | All files are committed, or on any error the database is as it was, the id sequence aside. |
| `JobLock.InvKept` | `backend/app/utils/job_lock.py:70-100` | Every step of every thread keeps the lock invariant. |
| `JobLock.LockIds` | `backend/app/utils/job_lock.py:18-22` | The three job names have different advisory locks, and no other name has one. |
| `JobLock.AcquireSucceedsIff` | `backend/app/utils/job_lock.py:76-79` | A thread gets in iff nobody of its process is inside for the name and its lock was not leaked. |
| `JobLock.BodyIsEnteredBy` | `backend/app/utils/job_lock.py:81-91` | The body is entered without an advisory lock for other names or without Postgres, else only by being granted it. |
| `JobLock.TryLockSucceedsIff` | `backend/app/utils/job_lock.py:55-60` | The advisory lock is granted iff no other connection holds it. |
| `JobLock.OnePerProcess` | `backend/app/utils/job_lock.py:76-79` | At most one thread of a process is in the body for a name. |
| `JobLock.OneOverall` | `backend/app/utils/job_lock.py:85-91` | At most one thread overall is in the body for a name with an advisory lock while the lock connections live. |
| `JobLock.LocalLockIsFreed` | `backend/app/utils/job_lock.py:92-100` | A local lock is locked iff a thread of its process is inside or an exit leaked it. |
| `JobLock.LockableIffClosed` | `backend/app/utils/job_lock.py:98-100` | With everybody outside, a name can be locked again iff no exit's `close` raised. |
| `JobLock.LeakIsForever` | `backend/app/utils/job_lock.py:76-79` | Once leaked, no thread of that process gets in for that name again. |
| `JobLock.AdvisoryIsFreed` | `backend/app/utils/job_lock.py:93-99` | Unless an unlock or the reply of a lock request was lost, everybody outside means every advisory lock is free. |
| `JobLock.LostUnlockStaysLocked` | `backend/app/utils/job_lock.py:93-97` | After a holder's unlock attempt its advisory lock is still locked iff the attempt failed or the connection held it more than once. |
| `JobLock.CloseFailureLeaks` | `backend/app/utils/job_lock.py:92-100` | A concrete run: `close` raises, everybody is outside, and the local lock stays locked. |
| `JobLock.LostUnlockBlocks` | `backend/app/utils/job_lock.py:93-99` | A concrete run: the unlock fails, everybody is outside, and a thread of another process is turned away. |
| `JobLock.PooledConnectionHoldsTwice` | `backend/app/utils/job_lock.py:55-60` | A concrete run: after a failed unlock the same pooled connection is granted the lock a second time. |
| `JobLock.DeadConnectionAdmitsTwo` | `backend/app/utils/job_lock.py:85-91` | A concrete run: after the first holder's connection died, two processes are in the body. |

## Left out

- HTTP fetching, headers, tokens, environment parsing, logging, routers, React rendering, migrations: input and output, or one-branch logic.
- XML, HTML and date parsing, URL query splitting: the image model takes observations (URL, sizes, srcset pieces) and the parsed parameters of a URL; text stripping and HTML unescaping have happened before.
- Liveness: a message that was delivered but not acknowledged is never read again by this code, so nothing is stated about eventual processing.
- Invalid messages in the pipeline's step system; the single message step covers them.
- The order inside a stream: the step system lets any undelivered message be delivered next, which covers the streams' own order.
- OrderIndependence.DeliveryOrderIsIrrelevant: etag, last update, error text, fetch protection and article texts are last-writer-wins and therefore not part of it; `OrderIndependence.ScrapingReflectsRun` says which writer wins.
- PipelineTheorems.StatusMovesForward: the recording of a publish failure is excluded, because it does overwrite a finished status; the exact condition is `PipelineFindings.FinishedIsLostOnlyToMarking`.
- RateLimiter.RateIsBounded: bounds feed starts; one start may issue up to three HTTP requests.
- Fairness of the semaphore's waiting queue: any waiting coroutine may be next, which only adds runs.
- WorkerQueue.Worker.ProcessJobMessage: does not model concurrency inside one message, because the pipeline's step system interleaves the publishes of all feeds; `WorkerQueue` handles pools and feeds one after the other; after a failed publish the real tasks of other feeds keep running, as here, and the message is not acknowledged.
- The closing of a failed Redis client, whose errors are ignored.
- Column types of sources and feeds other than those named: overlong values are an error of the transaction; title and text contents are opaque.
- Repartition.SourcePartitions.RestoreSourcesFromBuffer: takes the buffer to be free of double primary keys, as the default partition it was filled from is; the whole run asks the same of that partition.
- Partitions whose bounds are not week-aligned, and a `published_at` that is null: the column forbids the latter.
- Catalog: the column widths of anything but company names, URLs and tags; tag lists, hosts, countries and languages are already normalised, names and images already stripped. Feeds are identified by their unique URL, with the id as a field, and lookups by id go through the URL.
- CatalogRuns.RunIsExact: needs that no file lists a feed owned by a later file's company and that files do not share companies or URLs; `CatalogRuns.TakeoverLosesFeed` shows why, and `CatalogClaims.RunIsExactIff` is the exact condition.
- CatalogDatabase.Session.SyncRssCatalog: a run with no changed files and the repository update before it are not modelled beyond the empty list; the id sequence does not go back on a roll-back.
- JobLock: the context manager is a step system rather than a method, because its point is the interleaving; the table of locks is a set of locked keys, and the guard around its lookup is one atomic step.
- The frontend's column count is at least one, as the layout computation guarantees; measuring it is not modelled.
