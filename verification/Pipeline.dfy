/**
 The scrape-job pipeline as a step system: backend, worker and db_manager over one database, one
 request stream and the result streams.  Every interleaving of the steps below is a run; messages
 may be duplicated, results may fail to publish or to persist, and feeds may be deleted at any time.
 */
module Pipeline {
  import opened Common
  import opened SourceIngest
  import opened ScrapeTables
  import opened Scheduling
  import opened RoundRobinLaws

  datatype Request = Request(jobId: JobId, ingest: bool, feeds: seq<Feed>)

  /** What a job was created with: the feed list of the endpoint call and the batch size. */
  datatype Plan = Plan(feeds: seq<Feed>, batchSize: int)

  /** Progress of the publish loop: batches not yet in the stream; `broken` after a publish error. */
  datatype Publisher = Publisher(rest: seq<seq<Feed>>, broken: bool, marked: bool)

  /** Consumer-side life of one result message.  A rolled-back message is never read again. */
  datatype Stage = Taken | RolledBack | Committed | Acked

  datatype World = World(
    tables: Tables,
    /** Every feed id the id sequence has handed out; ids are never reused. */
    knownFeeds: set<FeedId>,
    plans: map<JobId, Plan>,
    publishers: map<JobId, Publisher>,
    requests: seq<Request>,
    requestsTaken: set<nat>,
    requestsAcked: set<nat>,
    /** Pairs (request, feed) whose result publish returned normally. */
    confirmed: set<(nat, FeedId)>,
    results: seq<Delivery>,
    stages: map<nat, Stage>)

  datatype Step =
    | CreateJob(jobId: JobId, ingest: bool, plan: Plan)
    | PublishBatch(jobId: JobId)
      /** The stream stored the batch, but the reply was lost and the call raised. */
    | LoseReply(jobId: JobId)
      /** The batch never reached the stream and the call raised. */
    | FailPublish(jobId: JobId)
    | MarkFailed(jobId: JobId)
    | TakeRequest(request: nat)
      /** One retry after a lost reply stores the result twice. */
    | PublishResult(request: nat, feed: Feed, outcome: Payload, copies: nat)
      /** Both attempts raised; zero, one or two copies are in the stream all the same. */
    | FailResult(request: nat, feed: Feed, outcome: Payload, copies: nat)
    | AckRequest(request: nat)
    | TakeResult(result: nat)
    | PersistResult(result: nat)
    | RollBackResult(result: nat)
    | AckResult(result: nat)
    | AddFeed(feedId: FeedId, fetchprotection: int)
    | DeleteFeed(feedId: FeedId)

  function Ids(feeds: seq<Feed>): set<FeedId> {
    set x | x in feeds :: x.feedId
  }

  function PlannedBatches(plan: Plan): seq<seq<Feed>> {
    Batches(Mixed(plan.feeds), plan.batchSize)
  }

  /** The stream a result goes to. */
  function StreamFor(ingest: bool, status: ResultStatus): QueueKind {
    if status == Error then ErrorQueue else if ingest then IngestQueue else CheckQueue
  }

  function Copies(d: Delivery, n: nat): seq<Delivery> {
    seq(n, _ => d)
  }

  // --- Effects on the tables that are not a worker result ---

  function InsertJob(t: Tables, jobId: JobId, ingest: bool, feeds: seq<Feed>): Tables {
    t.(jobs := t.jobs[jobId := Job(ingest, |feeds|, if feeds == [] then Completed else Queued)],
       jobFeeds := t.jobFeeds + (set x | x in feeds :: (jobId, x.feedId)))
  }

  function SetStatus(t: Tables, jobId: JobId, status: JobStatus): Tables
    requires jobId in t.jobs
  {
    t.(jobs := t.jobs[jobId := t.jobs[jobId].(status := status)])
  }

  function InsertFeed(t: Tables, feedId: FeedId, fetchprotection: int): Tables {
    t.(feeds := t.feeds + {feedId},
       scraping := t.scraping[feedId := Scraping(fetchprotection, None, None, 0, None)])
  }

  /** Deleting a feed cascades to its job entries, results, scraping state and source links. */
  function CascadeFeed(t: Tables, feedId: FeedId): Tables {
    t.(feeds := t.feeds - {feedId},
       jobFeeds := (set k | k in t.jobFeeds && k.1 != feedId),
       results := (map k | k in t.results && k.1 != feedId :: t.results[k]),
       scraping := t.scraping - {feedId},
       articles := t.articles.(links := (set l | l in t.articles.links && l.feedId != feedId)))
  }

  // --- The step system ---

  ghost predicate CanPublish(w: World, jobId: JobId) {
    jobId in w.publishers && !w.publishers[jobId].broken && w.publishers[jobId].rest != []
  }

  ghost predicate CanReport(w: World, i: nat, feed: Feed, outcome: Payload) {
    && i < |w.requests| && i in w.requestsTaken && i !in w.requestsAcked
    && feed in w.requests[i].feeds
    && outcome.jobId == w.requests[i].jobId && outcome.feedId == feed.feedId
  }

  ghost predicate InStage(w: World, k: nat, stage: Stage) {
    k < |w.results| && k in w.stages && w.stages[k] == stage
  }

  ghost predicate Enabled(w: World, step: Step) {
    match step
    case CreateJob(j, _, plan) =>
      j !in w.tables.jobs && DistinctIds(plan.feeds) && Ids(plan.feeds) <= w.tables.feeds
    case PublishBatch(j) => CanPublish(w, j)
    case LoseReply(j) => CanPublish(w, j)
    case FailPublish(j) => CanPublish(w, j)
    case MarkFailed(j) => j in w.publishers && j in w.tables.jobs && w.publishers[j].broken && !w.publishers[j].marked
    case TakeRequest(i) => i < |w.requests| && i !in w.requestsTaken
    case PublishResult(i, feed, outcome, copies) => CanReport(w, i, feed, outcome) && 1 <= copies <= 2
    case FailResult(i, feed, outcome, copies) => CanReport(w, i, feed, outcome) && copies <= 2
    case AckRequest(i) =>
      && i < |w.requests| && i in w.requestsTaken && i !in w.requestsAcked
      && forall x :: x in w.requests[i].feeds ==> (i, x.feedId) in w.confirmed
    case TakeResult(k) => k < |w.results| && k !in w.stages
    case PersistResult(k) => InStage(w, k, Taken) && PersistWorkerResult(w.tables, w.results[k]).Ok?
    case RollBackResult(k) => InStage(w, k, Taken)
    case AckResult(k) => InStage(w, k, Committed)
    case AddFeed(f, _) => f !in w.knownFeeds
    case DeleteFeed(f) => f in w.tables.feeds
  }

  function Send(w: World, jobId: JobId, broken: bool): World
    requires jobId in w.publishers && w.publishers[jobId].rest != [] && jobId in w.tables.jobs
  {
    var p := w.publishers[jobId];
    w.(requests := w.requests + [Request(jobId, w.tables.jobs[jobId].ingest, p.rest[0])],
       publishers := w.publishers[jobId := p.(rest := p.rest[1..], broken := broken)])
  }

  function Report(w: World, i: nat, outcome: Payload, copies: nat): World
    requires i < |w.requests|
  {
    var d := Delivery(StreamFor(w.requests[i].ingest, outcome.status), outcome);
    w.(results := w.results + Copies(d, copies))
  }

  /** Publishers only exist for jobs in the table. */
  ghost predicate Typed(w: World) {
    w.publishers.Keys <= w.tables.jobs.Keys
  }

  ghost function Apply(w: World, step: Step): World
    requires Typed(w) && Enabled(w, step)
  {
    match step
    case CreateJob(j, ingest, plan) =>
      w.(tables := InsertJob(w.tables, j, ingest, plan.feeds),
         plans := w.plans[j := plan],
         publishers := w.publishers[j := Publisher(PlannedBatches(plan), false, false)])
    case PublishBatch(j) => Send(w, j, false)
    case LoseReply(j) => Send(w, j, true)
    case FailPublish(j) => w.(publishers := w.publishers[j := w.publishers[j].(broken := true)])
    case MarkFailed(j) =>
      w.(tables := SetStatus(w.tables, j, Failed),
         publishers := w.publishers[j := w.publishers[j].(marked := true)])
    case TakeRequest(i) => w.(requestsTaken := w.requestsTaken + {i})
    case PublishResult(i, feed, outcome, copies) =>
      Report(w, i, outcome, copies).(confirmed := w.confirmed + {(i, feed.feedId)})
    case FailResult(i, feed, outcome, copies) => Report(w, i, outcome, copies)
    case AckRequest(i) => w.(requestsAcked := w.requestsAcked + {i})
    case TakeResult(k) => w.(stages := w.stages[k := Taken])
    case PersistResult(k) =>
      w.(tables := Consume(w.tables, w.results[k]), stages := w.stages[k := Committed])
    case RollBackResult(k) => w.(stages := w.stages[k := RolledBack])
    case AckResult(k) => w.(stages := w.stages[k := Acked])
    case AddFeed(f, fetchprotection) =>
      w.(tables := InsertFeed(w.tables, f, fetchprotection), knownFeeds := w.knownFeeds + {f})
    case DeleteFeed(f) => w.(tables := CascadeFeed(w.tables, f))
  }

  /** No job yet; the feed tables and the article tables may be filled. */
  ghost predicate Initial(w: World) {
    && w.tables.feeds <= w.knownFeeds
    && w.tables.jobs == map[] && w.tables.jobFeeds == {} && w.tables.results == map[]
    && w.tables.scraping.Keys <= w.tables.feeds
    && (forall f :: f in w.tables.scraping ==> w.tables.scraping[f].errorNbr == 0)
    && ValidSources(w.tables.articles)
    && (forall l :: l in w.tables.articles.links ==> l.feedId in w.tables.feeds)
    && w.plans == map[] && w.publishers == map[] && w.requests == [] && w.results == []
    && w.requestsTaken == {} && w.requestsAcked == {} && w.confirmed == {} && w.stages == map[]
  }
}
