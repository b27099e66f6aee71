/** The invariants of the pipeline, and that every step keeps them. */
module PipelineInvariants {
  import opened Common
  import opened SourceIngest
  import opened ScrapeTables
  import opened Scheduling
  import opened RoundRobinLaws
  import opened Pipeline

  // --- Vocabulary ---

  /** The batches of a job that are in the request stream, in stream order. */
  function Sent(requests: seq<Request>, jobId: JobId): seq<seq<Feed>> {
    if requests == [] then []
    else
      var last := requests[|requests| - 1];
      Sent(requests[..|requests| - 1], jobId) + if last.jobId == jobId then [last.feeds] else []
  }

  /** Some request in the stream asks for this feed of this job. */
  ghost predicate Requested(requests: seq<Request>, key: ResultKey) {
    exists i :: 0 <= i < |requests| && requests[i].jobId == key.0 && key.1 in Ids(requests[i].feeds)
  }

  /** Some result message carries this key. */
  ghost predicate Reported(results: seq<Delivery>, key: ResultKey) {
    exists k :: 0 <= k < |results| && KeyOf(results[k]) == key
  }

  /** No further message can change anything for this key: its row is there or its feed is gone. */
  predicate Settled(t: Tables, key: ResultKey) {
    key in t.results || key.1 !in t.feeds
  }

  predicate Finished(status: JobStatus) {
    status == Completed || status == CompletedWithErrors
  }

  /** All feeds the job was created with still exist. */
  predicate Alive(t: Tables, plan: Plan) {
    Ids(plan.feeds) <= t.feeds
  }

  // --- Invariants, each over the components it speaks of ---

  ghost predicate PlansHold(t: Tables, known: set<FeedId>, plans: map<JobId, Plan>, publishers: map<JobId, Publisher>) {
    && t.jobs.Keys == plans.Keys == publishers.Keys
    && t.feeds <= known
    && forall j :: j in plans ==> PlanHolds(t.jobs[j], known, plans[j], publishers[j])
  }

  ghost predicate PlanHolds(job: Job, known: set<FeedId>, plan: Plan, publisher: Publisher) {
    && DistinctIds(plan.feeds)
    && Ids(plan.feeds) <= known
    && job.feedCount == |plan.feeds|
    && (publisher.marked ==> publisher.broken)
  }

  /** Job entries are the planned feeds that still exist, and every row belongs to an entry. */
  ghost predicate RowsBelong(t: Tables, plans: map<JobId, Plan>) {
    && (forall k :: k in t.jobFeeds <==> k.0 in plans && k.1 in Ids(plans[k.0].feeds) && k.1 in t.feeds)
    && t.results.Keys <= t.jobFeeds
    && t.scraping.Keys <= t.feeds
  }

  ghost predicate ArticlesHold(t: Tables) {
    && ValidSources(t.articles)
    && forall l :: l in t.articles.links ==> l.feedId in t.feeds
  }

  /** What is in the stream and what is still to send make up the planned batches. */
  ghost predicate RequestsHold(requests: seq<Request>, plans: map<JobId, Plan>, publishers: map<JobId, Publisher>) {
    && (forall i :: 0 <= i < |requests| ==> requests[i].jobId in plans)
    && (forall j :: j in publishers ==> j in plans && AllBatches(requests, j, publishers[j].rest, PlannedBatches(plans[j])))
  }

  ghost predicate AllBatches(requests: seq<Request>, jobId: JobId, rest: seq<seq<Feed>>, all: seq<seq<Feed>>) {
    Sent(requests, jobId) + rest == all
  }

  ghost predicate ReportsHold(requests: seq<Request>, acked: set<nat>, confirmed: set<(nat, FeedId)>, results: seq<Delivery>) {
    && (forall k :: 0 <= k < |results| ==> Requested(requests, KeyOf(results[k])))
    && (forall c :: c in confirmed ==> c.0 < |requests| && Reported(results, (requests[c.0].jobId, c.1)))
    && (forall i :: i in acked ==>
          i < |requests| && forall x :: x in requests[i].feeds ==> (i, x.feedId) in confirmed)
  }

  ghost predicate RowsHold(t: Tables, results: seq<Delivery>, stages: map<nat, Stage>) {
    && (forall key :: key in t.results ==> Reported(results, key))
    && (forall k :: k in stages ==>
          k < |results|
          && (stages[k] == Committed || stages[k] == Acked ==> Settled(t, KeyOf(results[k]))))
  }

  ghost predicate CountersHold(t: Tables) {
    forall f :: ErrorNbr(t, f) == |FeedErrors(t.results, f)|
  }

  ghost predicate StatusHolds(t: Tables, requests: seq<Request>, jobId: JobId, plan: Plan, publisher: Publisher)
    requires jobId in t.jobs
  {
    var status := t.jobs[jobId].status;
    && (status == Failed ==> publisher.marked)
    && (Alive(t, plan) && status != Failed ==> status == RefreshedStatus(t, jobId))
    && (Finished(status) ==> Covered(t, requests, jobId, plan))
  }

  /** Every planned feed has been requested, and no message can add a row for it any more. */
  ghost predicate Covered(t: Tables, requests: seq<Request>, jobId: JobId, plan: Plan) {
    forall x :: x in plan.feeds ==> Requested(requests, (jobId, x.feedId)) && Settled(t, (jobId, x.feedId))
  }

  ghost predicate Shape(w: World) {
    PlansHold(w.tables, w.knownFeeds, w.plans, w.publishers)
  }

  ghost predicate StatusesHold(w: World)
    requires Shape(w)
  {
    forall j :: j in w.plans ==> StatusHolds(w.tables, w.requests, j, w.plans[j], w.publishers[j])
  }

  ghost predicate Inv(w: World) {
    && Shape(w)
    && RowsBelong(w.tables, w.plans)
    && ArticlesHold(w.tables)
    && RequestsHold(w.requests, w.plans, w.publishers)
    && ReportsHold(w.requests, w.requestsAcked, w.confirmed, w.results)
    && RowsHold(w.tables, w.results, w.stages)
    && CountersHold(w.tables)
    && StatusesHold(w)
  }

  lemma InitialHolds(w: World)
    requires Initial(w)
    ensures Inv(w)
  {
  }

  // --- Requests and planned feeds ---

  lemma {:induction false} FlattenHas<T>(batches: seq<seq<T>>, x: T)
    ensures x in Flatten(batches) <==> exists b :: b in batches && x in b
  {
    if batches != [] {
      FlattenHas(batches[1..], x);
      assert batches == [batches[0]] + batches[1..];
    }
  }

  lemma MixedHas(feeds: seq<Feed>, x: Feed)
    ensures x in Mixed(feeds) <==> x in feeds
  {
    RoundRobinIsPermutation(feeds);
    if x in feeds {
      var i :| 0 <= i < |feeds| && feeds[i] == x;
      var a := MixedPosition(feeds, i);
      MixedAt(feeds, a);
    }
    if x in Mixed(feeds) {
      var a :| 0 <= a < |Mixed(feeds)| && Mixed(feeds)[a] == x;
      MixedAt(feeds, a);
    }
  }

  lemma PlannedHas(plan: Plan, x: Feed)
    ensures x in plan.feeds <==> exists b :: b in PlannedBatches(plan) && x in b
  {
    BatchesSplit(Mixed(plan.feeds), plan.batchSize);
    FlattenHas(PlannedBatches(plan), x);
    MixedHas(plan.feeds, x);
  }

  lemma {:induction false} SentHas(requests: seq<Request>, jobId: JobId, batch: seq<Feed>)
    ensures batch in Sent(requests, jobId) <==>
            exists i :: 0 <= i < |requests| && requests[i].jobId == jobId && requests[i].feeds == batch
  {
    if requests != [] {
      var n := |requests| - 1;
      SentHas(requests[..n], jobId, batch);
      if i :| 0 <= i < |requests| && requests[i].jobId == jobId && requests[i].feeds == batch {
        assert i < n ==> requests[..n][i] == requests[i];
      }
      if i :| 0 <= i < n && requests[..n][i].jobId == jobId && requests[..n][i].feeds == batch {
        assert requests[i] == requests[..n][i];
      }
    }
  }

  /** Every requested key names a planned feed of its job. */
  lemma RequestedIsPlanned(requests: seq<Request>, plans: map<JobId, Plan>, publishers: map<JobId, Publisher>, key: ResultKey)
    requires RequestsHold(requests, plans, publishers) && publishers.Keys == plans.Keys && Requested(requests, key)
    ensures key.0 in plans && key.1 in Ids(plans[key.0].feeds)
  {
    var i :| 0 <= i < |requests| && requests[i].jobId == key.0 && key.1 in Ids(requests[i].feeds);
    var x :| x in requests[i].feeds && x.feedId == key.1;
    SentHas(requests, key.0, requests[i].feeds);
    assert AllBatches(requests, key.0, publishers[key.0].rest, PlannedBatches(plans[key.0]));
    assert requests[i].feeds in PlannedBatches(plans[key.0]);
    PlannedHas(plans[key.0], x);
  }

  /** Once nothing is left to send, every planned feed has been requested. */
  lemma PlannedIsRequested(requests: seq<Request>, plans: map<JobId, Plan>, publishers: map<JobId, Publisher>,
                           jobId: JobId, x: Feed) returns (i: nat)
    requires RequestsHold(requests, plans, publishers)
    requires jobId in publishers && publishers[jobId].rest == []
    requires jobId in plans && x in plans[jobId].feeds
    ensures i < |requests| && requests[i].jobId == jobId && x in requests[i].feeds
  {
    PlannedHas(plans[jobId], x);
    assert AllBatches(requests, jobId, [], PlannedBatches(plans[jobId]));
    assert Sent(requests, jobId) + [] == Sent(requests, jobId);
    var b :| b in PlannedBatches(plans[jobId]) && x in b;
    SentHas(requests, jobId, b);
    i :| 0 <= i < |requests| && requests[i].jobId == jobId && requests[i].feeds == b;
  }

  // --- Each part is kept ---

  lemma KeepsShape(w: World, step: Step)
    requires Shape(w) && Enabled(w, step)
    ensures Shape(Apply(w, step))
  {
    var w' := Apply(w, step);
    KeepsKeys(w, step);
    forall j | j in w'.plans ensures PlanHolds(w'.tables.jobs[j], w'.knownFeeds, w'.plans[j], w'.publishers[j]) {
      if j in w.plans {
        KeepsPlan(w, step, j);
      }
    }
  }

  lemma KeepsKeys(w: World, step: Step)
    requires Typed(w) && Enabled(w, step)
    requires w.tables.feeds <= w.knownFeeds && w.plans.Keys == w.publishers.Keys == w.tables.jobs.Keys
    ensures var w' := Apply(w, step);
            && w'.tables.feeds <= w'.knownFeeds && w'.plans.Keys == w'.publishers.Keys == w'.tables.jobs.Keys
            && (forall j :: j in w'.plans && j !in w.plans ==> step.CreateJob? && step.jobId == j)
  {
    if step.PersistResult? {
      PersistOutcome(w.tables, w.results[step.result]);
    }
  }

  lemma KeepsPlan(w: World, step: Step, j: JobId)
    requires Typed(w) && Enabled(w, step) && j in w.plans && j in w.publishers && j in w.tables.jobs
    requires PlanHolds(w.tables.jobs[j], w.knownFeeds, w.plans[j], w.publishers[j])
    ensures var w' := Apply(w, step);
            j in w'.plans && j in w'.publishers && j in w'.tables.jobs
            && PlanHolds(w'.tables.jobs[j], w'.knownFeeds, w'.plans[j], w'.publishers[j])
  {
    if step.PersistResult? {
      PersistOutcome(w.tables, w.results[step.result]);
    }
  }

  lemma PersistRowsBelong(t: Tables, plans: map<JobId, Plan>, d: Delivery)
    requires RowsBelong(t, plans) && KeyOf(d).0 in plans && KeyOf(d).1 in Ids(plans[KeyOf(d).0].feeds)
    ensures RowsBelong(Consume(t, d), plans)
  {
    PersistOutcome(t, d);
  }

  lemma InsertJobRowsBelong(t: Tables, plans: map<JobId, Plan>, jobId: JobId, ingest: bool, plan: Plan)
    requires RowsBelong(t, plans) && jobId !in plans && Ids(plan.feeds) <= t.feeds
    ensures RowsBelong(InsertJob(t, jobId, ingest, plan.feeds), plans[jobId := plan])
  {
    var t', plans' := InsertJob(t, jobId, ingest, plan.feeds), plans[jobId := plan];
    forall k ensures k in t'.jobFeeds <==> k.0 in plans' && k.1 in Ids(plans'[k.0].feeds) && k.1 in t'.feeds {
      if k.0 == jobId && k.1 in Ids(plan.feeds) {
        var x :| x in plan.feeds && x.feedId == k.1;
        assert k == (jobId, x.feedId);
      }
    }
  }

  lemma InsertFeedRowsBelong(t: Tables, plans: map<JobId, Plan>, known: set<FeedId>, feedId: FeedId, prot: int)
    requires RowsBelong(t, plans) && feedId !in known && forall j :: j in plans ==> Ids(plans[j].feeds) <= known
    ensures RowsBelong(InsertFeed(t, feedId, prot), plans)
  {
  }

  lemma CascadeRowsBelong(t: Tables, plans: map<JobId, Plan>, feedId: FeedId)
    requires RowsBelong(t, plans)
    ensures RowsBelong(CascadeFeed(t, feedId), plans)
  {
  }

  lemma PlansAreKnown(w: World)
    requires Shape(w)
    ensures forall j :: j in w.plans ==> Ids(w.plans[j].feeds) <= w.knownFeeds
  {
    forall j | j in w.plans ensures Ids(w.plans[j].feeds) <= w.knownFeeds {
      assert PlanHolds(w.tables.jobs[j], w.knownFeeds, w.plans[j], w.publishers[j]);
    }
  }

  lemma KeepsRowsBelong(w: World, step: Step)
    requires Shape(w) && RowsBelong(w.tables, w.plans) && Enabled(w, step)
    requires step.PersistResult? ==>
               var key := KeyOf(w.results[step.result]); key.0 in w.plans && key.1 in Ids(w.plans[key.0].feeds)
    ensures RowsBelong(Apply(w, step).tables, Apply(w, step).plans)
  {
    if !ChangesRows(step) {
      RowsAreUntouched(w, step);
      SameRowsBelong(w.tables, Apply(w, step).tables, w.plans);
    } else {
      KeepsChangedRows(w, step);
    }
  }

  lemma KeepsChangedRows(w: World, step: Step)
    requires Shape(w) && RowsBelong(w.tables, w.plans) && Enabled(w, step) && ChangesRows(step)
    requires step.PersistResult? ==>
               var key := KeyOf(w.results[step.result]); key.0 in w.plans && key.1 in Ids(w.plans[key.0].feeds)
    ensures RowsBelong(Apply(w, step).tables, Apply(w, step).plans)
  {
    match step
    case CreateJob(j, ingest, plan) => InsertJobRowsBelong(w.tables, w.plans, j, ingest, plan);
    case PersistResult(k) => PersistRowsBelong(w.tables, w.plans, w.results[k]);
    case AddFeed(f, prot) =>
      PlansAreKnown(w);
      InsertFeedRowsBelong(w.tables, w.plans, w.knownFeeds, f, prot);
    case DeleteFeed(f) => CascadeRowsBelong(w.tables, w.plans, f);
  }

  predicate ChangesRows(step: Step) {
    step.CreateJob? || step.PersistResult? || step.AddFeed? || step.DeleteFeed?
  }

  lemma RowsAreUntouched(w: World, step: Step)
    requires Typed(w) && Enabled(w, step) && !ChangesRows(step)
    ensures var t, t' := w.tables, Apply(w, step).tables;
            && t'.feeds == t.feeds && t'.jobFeeds == t.jobFeeds && t'.results == t.results && t'.scraping == t.scraping
            && Apply(w, step).plans == w.plans
  {
  }

  lemma SameRowsBelong(t: Tables, t': Tables, plans: map<JobId, Plan>)
    requires RowsBelong(t, plans) && t'.feeds == t.feeds && t'.jobFeeds == t.jobFeeds && t'.results == t.results
             && t'.scraping == t.scraping
    ensures RowsBelong(t', plans)
  {
  }

  lemma {:induction false} UpsertSourcesLinksFeed(t: SourceTables, feedId: FeedId, items: seq<SourceItem>)
    ensures forall l :: l in UpsertSources(t, feedId, items).links ==> l in t.links || l.feedId == feedId
  {
    if items != [] {
      UpsertSourcesLinksFeed(t, feedId, items[..|items| - 1]);
    }
  }

  lemma KeepsArticles(w: World, step: Step)
    requires Shape(w) && ArticlesHold(w.tables) && Enabled(w, step)
    ensures ArticlesHold(Apply(w, step).tables)
  {
    match step
    case PersistResult(k) => PersistKeepsArticles(w.tables, w.results[k]);
    case DeleteFeed(f) => CascadeKeepsArticles(w.tables, f);
    case _ =>
      ArticlesAreUntouched(w, step);
      SameArticlesHold(w.tables, Apply(w, step).tables);
  }

  lemma ArticlesAreUntouched(w: World, step: Step)
    requires Typed(w) && Enabled(w, step) && !step.PersistResult? && !step.DeleteFeed?
    ensures Apply(w, step).tables.articles == w.tables.articles && w.tables.feeds <= Apply(w, step).tables.feeds
  {
  }

  lemma SameArticlesHold(t: Tables, t': Tables)
    requires ArticlesHold(t) && t'.articles == t.articles && t.feeds <= t'.feeds
    ensures ArticlesHold(t')
  {
  }

  lemma PersistKeepsArticles(t: Tables, d: Delivery)
    requires ArticlesHold(t)
    ensures ArticlesHold(Consume(t, d))
  {
    PersistOutcome(t, d);
    UpsertSourcesKeepsKeys(t.articles, d.payload.feedId, d.payload.sources);
    UpsertSourcesLinksFeed(t.articles, d.payload.feedId, d.payload.sources);
  }

  lemma CascadeKeepsArticles(t: Tables, feedId: FeedId)
    requires ArticlesHold(t)
    ensures ArticlesHold(CascadeFeed(t, feedId))
  {
  }

  lemma {:induction false} SentAppend(requests: seq<Request>, request: Request, jobId: JobId)
    ensures Sent(requests + [request], jobId)
         == Sent(requests, jobId) + if request.jobId == jobId then [request.feeds] else []
  {
    assert (requests + [request])[..|requests|] == requests;
  }

  lemma {:induction false} SentOfUnknownJob(requests: seq<Request>, jobId: JobId)
    requires forall i :: 0 <= i < |requests| ==> requests[i].jobId != jobId
    ensures Sent(requests, jobId) == []
  {
    if requests != [] {
      SentOfUnknownJob(requests[..|requests| - 1], jobId);
    }
  }

  lemma OwnBatchSent(requests: seq<Request>, request: Request, rest: seq<seq<Feed>>, all: seq<seq<Feed>>)
    requires AllBatches(requests, request.jobId, rest, all) && rest != [] && request.feeds == rest[0]
    ensures AllBatches(requests + [request], request.jobId, rest[1..], all)
  {
    SentAppend(requests, request, request.jobId);
    assert Sent(requests, request.jobId) + [rest[0]] + rest[1..] == Sent(requests, request.jobId) + rest;
  }

  lemma OtherBatchSent(requests: seq<Request>, request: Request, jobId: JobId, rest: seq<seq<Feed>>, all: seq<seq<Feed>>)
    requires AllBatches(requests, jobId, rest, all) && request.jobId != jobId
    ensures AllBatches(requests + [request], jobId, rest, all)
  {
    SentAppend(requests, request, jobId);
    assert Sent(requests, jobId) + [] == Sent(requests, jobId);
  }

  lemma SendKeepsRequests(w: World, jobId: JobId, broken: bool)
    requires Typed(w) && RequestsHold(w.requests, w.plans, w.publishers) && CanPublish(w, jobId)
    ensures var w' := Send(w, jobId, broken); RequestsHold(w'.requests, w'.plans, w'.publishers)
  {
    var p := w.publishers[jobId];
    SentKeepsRequests(w.requests, w.plans, w.publishers, Request(jobId, w.tables.jobs[jobId].ingest, p.rest[0]),
                      p.(rest := p.rest[1..], broken := broken));
  }

  lemma SentKeepsRequests(requests: seq<Request>, plans: map<JobId, Plan>, publishers: map<JobId, Publisher>,
                          request: Request, after: Publisher)
    requires RequestsHold(requests, plans, publishers) && request.jobId in publishers
    requires var rest := publishers[request.jobId].rest;
             rest != [] && request.feeds == rest[0] && after.rest == rest[1..]
    ensures RequestsHold(requests + [request], plans, publishers[request.jobId := after])
  {
    var requests', publishers' := requests + [request], publishers[request.jobId := after];
    forall j | j in publishers' ensures j in plans && AllBatches(requests', j, publishers'[j].rest, PlannedBatches(plans[j])) {
      SentKeepsBatches(requests, publishers, request, after, j, PlannedBatches(plans[j]));
    }
  }

  lemma SentKeepsBatches(requests: seq<Request>, publishers: map<JobId, Publisher>, request: Request, after: Publisher,
                         j: JobId, all: seq<seq<Feed>>)
    requires request.jobId in publishers && j in publishers
    requires var rest := publishers[request.jobId].rest;
             rest != [] && request.feeds == rest[0] && after.rest == rest[1..]
    requires AllBatches(requests, j, publishers[j].rest, all)
    ensures AllBatches(requests + [request], j, publishers[request.jobId := after][j].rest, all)
  {
    if j == request.jobId {
      OwnBatchSent(requests, request, publishers[j].rest, all);
    } else {
      OtherBatchSent(requests, request, j, publishers[j].rest, all);
    }
  }

  lemma CreateKeepsRequests(requests: seq<Request>, plans: map<JobId, Plan>, publishers: map<JobId, Publisher>,
                            jobId: JobId, plan: Plan)
    requires RequestsHold(requests, plans, publishers) && jobId !in plans
    ensures RequestsHold(requests, plans[jobId := plan], publishers[jobId := Publisher(PlannedBatches(plan), false, false)])
  {
    SentOfUnknownJob(requests, jobId);
    assert [] + PlannedBatches(plan) == PlannedBatches(plan);
  }

  lemma SameRestKeepsRequests(requests: seq<Request>, plans: map<JobId, Plan>,
                              before: map<JobId, Publisher>, after: map<JobId, Publisher>)
    requires RequestsHold(requests, plans, before)
    requires before.Keys == after.Keys && forall j :: j in before ==> after[j].rest == before[j].rest
    ensures RequestsHold(requests, plans, after)
  {
    forall j | j in after ensures AllBatches(requests, j, after[j].rest, PlannedBatches(plans[j])) {
      assert AllBatches(requests, j, before[j].rest, PlannedBatches(plans[j]));
    }
  }

  predicate MovesRequests(step: Step) {
    step.CreateJob? || step.PublishBatch? || step.LoseReply?
  }

  lemma OtherStepsSendNothing(w: World, step: Step)
    requires Typed(w) && Enabled(w, step) && !MovesRequests(step)
    ensures var w' := Apply(w, step);
            && w'.requests == w.requests && w'.plans == w.plans && w'.publishers.Keys == w.publishers.Keys
            && forall j :: j in w.publishers ==> w'.publishers[j].rest == w.publishers[j].rest
  {
  }

  lemma KeepsRequests(w: World, step: Step)
    requires Typed(w) && w.plans.Keys == w.tables.jobs.Keys && Enabled(w, step)
    requires RequestsHold(w.requests, w.plans, w.publishers)
    ensures var w' := Apply(w, step); RequestsHold(w'.requests, w'.plans, w'.publishers)
  {
    if step.CreateJob? {
      CreateKeepsRequests(w.requests, w.plans, w.publishers, step.jobId, step.plan);
    } else if step.PublishBatch? {
      SendKeepsRequests(w, step.jobId, false);
    } else if step.LoseReply? {
      SendKeepsRequests(w, step.jobId, true);
    } else {
      OtherStepsSendNothing(w, step);
      SameRestKeepsRequests(w.requests, w.plans, w.publishers, Apply(w, step).publishers);
    }
  }

  lemma RequestedIsKept(requests: seq<Request>, more: seq<Request>, key: ResultKey)
    requires requests <= more && Requested(requests, key)
    ensures Requested(more, key)
  {
    var i :| 0 <= i < |requests| && requests[i].jobId == key.0 && key.1 in Ids(requests[i].feeds);
    assert more[i] == requests[i];
  }

  lemma ReportedIsKept(results: seq<Delivery>, more: seq<Delivery>, key: ResultKey)
    requires results <= more && Reported(results, key)
    ensures Reported(more, key)
  {
    var k :| 0 <= k < |results| && KeyOf(results[k]) == key;
    assert more[k] == results[k];
  }

  /** Requests and result messages are only ever appended. */
  lemma StreamsGrow(w: World, step: Step)
    requires Typed(w) && Enabled(w, step)
    ensures w.requests <= Apply(w, step).requests
    ensures w.results <= Apply(w, step).results
  {
  }

  lemma GrownRequestsKeepReports(requests: seq<Request>, more: seq<Request>, acked: set<nat>,
                                 confirmed: set<(nat, FeedId)>, results: seq<Delivery>)
    requires ReportsHold(requests, acked, confirmed, results) && requests <= more
    ensures ReportsHold(more, acked, confirmed, results)
  {
    forall k | 0 <= k < |results| ensures Requested(more, KeyOf(results[k])) {
      RequestedIsKept(requests, more, KeyOf(results[k]));
    }
    assert forall i :: 0 <= i < |requests| ==> more[i] == requests[i];
  }

  lemma ReportKeepsReports(w: World, i: nat, feed: Feed, outcome: Payload, copies: nat)
    requires ReportsHold(w.requests, w.requestsAcked, w.confirmed, w.results) && CanReport(w, i, feed, outcome)
    ensures var w' := Report(w, i, outcome, copies);
            && ReportsHold(w'.requests, w'.requestsAcked, w'.confirmed, w'.results)
            && (copies > 0 ==> Reported(w'.results, (w.requests[i].jobId, feed.feedId)))
  {
    var w' := Report(w, i, outcome, copies);
    var key := (w.requests[i].jobId, feed.feedId);
    forall k | |w.results| <= k < |w'.results| ensures KeyOf(w'.results[k]) == key {}
    assert feed.feedId in Ids(w.requests[i].feeds);
    forall c | c in w.confirmed ensures Reported(w'.results, (w.requests[c.0].jobId, c.1)) {
      ReportedIsKept(w.results, w'.results, (w.requests[c.0].jobId, c.1));
    }
    if copies > 0 {
      assert KeyOf(w'.results[|w.results|]) == key;
    }
  }

  lemma KeepsReports(w: World, step: Step)
    requires Shape(w) && ReportsHold(w.requests, w.requestsAcked, w.confirmed, w.results) && Enabled(w, step)
    ensures var w' := Apply(w, step); ReportsHold(w'.requests, w'.requestsAcked, w'.confirmed, w'.results)
  {
    var w' := Apply(w, step);
    match step
    case PublishBatch(_) => GrownRequestsKeepReports(w.requests, w'.requests, w.requestsAcked, w.confirmed, w.results);
    case LoseReply(_) => GrownRequestsKeepReports(w.requests, w'.requests, w.requestsAcked, w.confirmed, w.results);
    case PublishResult(i, feed, outcome, copies) => ReportKeepsReports(w, i, feed, outcome, copies);
    case FailResult(i, feed, outcome, copies) => ReportKeepsReports(w, i, feed, outcome, copies);
    case _ =>
  }

  // --- Settled keys stay settled ---

  /** Only a deletion removes a row, and then the feed is gone for good. */
  lemma SettledIsKept(w: World, step: Step, key: ResultKey)
    requires Typed(w) && Enabled(w, step)
    requires Settled(w.tables, key) && key.1 in w.knownFeeds
    ensures Settled(Apply(w, step).tables, key)
  {
    if step.PersistResult? {
      PersistOutcome(w.tables, w.results[step.result]);
    }
  }

  lemma PersistSettles(t: Tables, d: Delivery)
    requires PersistWorkerResult(t, d).Ok? && d.payload.jobId in t.jobs
    ensures Settled(Consume(t, d), KeyOf(d))
  {
    PersistOutcome(t, d);
  }

  lemma RowsStayReported(w: World, step: Step)
    requires Typed(w) && RowsHold(w.tables, w.results, w.stages) && Enabled(w, step)
    ensures var w' := Apply(w, step); forall key :: key in w'.tables.results ==> Reported(w'.results, key)
  {
    var w' := Apply(w, step);
    StreamsGrow(w, step);
    forall key | key in w'.tables.results ensures Reported(w'.results, key) {
      if key in w.tables.results {
        ReportedIsKept(w.results, w'.results, key);
      } else {
        PersistOutcome(w.tables, w.results[step.result]);
        assert KeyOf(w.results[step.result]) == key;
      }
    }
  }

  lemma KeepsRows(w: World, step: Step)
    requires Typed(w) && RowsHold(w.tables, w.results, w.stages) && Enabled(w, step)
    requires forall k :: 0 <= k < |w.results| ==>
               KeyOf(w.results[k]).0 in w.tables.jobs && KeyOf(w.results[k]).1 in w.knownFeeds
    ensures var w' := Apply(w, step); RowsHold(w'.tables, w'.results, w'.stages)
  {
    var w' := Apply(w, step);
    StreamsGrow(w, step);
    RowsStayReported(w, step);
    forall k | k in w'.stages && (w'.stages[k] == Committed || w'.stages[k] == Acked)
      ensures Settled(w'.tables, KeyOf(w'.results[k]))
    {
      if step.PersistResult? && k == step.result {
        PersistSettles(w.tables, w.results[k]);
      } else {
        SettledIsKept(w, step, KeyOf(w.results[k]));
      }
    }
  }

  lemma CascadeKeepsCounter(t: Tables, feedId: FeedId, f: FeedId)
    requires ErrorNbr(t, f) == |FeedErrors(t.results, f)|
    ensures ErrorNbr(CascadeFeed(t, feedId), f) == |FeedErrors(CascadeFeed(t, feedId).results, f)|
  {
    var t' := CascadeFeed(t, feedId);
    if f == feedId {
      assert FeedErrors(t'.results, f) == {};
    } else {
      assert FeedErrors(t'.results, f) == FeedErrors(t.results, f);
    }
  }

  lemma KeepsCounters(w: World, step: Step)
    requires Shape(w) && RowsBelong(w.tables, w.plans) && CountersHold(w.tables) && Enabled(w, step)
    ensures CountersHold(Apply(w, step).tables)
  {
    var t' := Apply(w, step).tables;
    forall f ensures ErrorNbr(t', f) == |FeedErrors(t'.results, f)| {
      match step
      case PersistResult(k) => CounterFollowsRows(w.tables, w.results[k], f);
      case DeleteFeed(g) => CascadeKeepsCounter(w.tables, g, f);
      case AddFeed(g, _) =>
        if f == g {
          assert FeedErrors(w.tables.results, f) == {};
        }
      case _ =>
    }
  }

  // --- Status ---

  lemma {:induction false} DistinctIdsCount(feeds: seq<Feed>)
    requires DistinctIds(feeds)
    ensures |Ids(feeds)| == |feeds|
  {
    if feeds != [] {
      var n := |feeds| - 1;
      DistinctIdsCount(feeds[..n]);
      assert forall x :: x in feeds <==> x in feeds[..n] || x == feeds[n];
      assert Ids(feeds) == Ids(feeds[..n]) + {feeds[n].feedId};
      assert feeds[n].feedId !in Ids(feeds[..n]);
    }
  }

  function JobKeys(jobId: JobId, ids: set<FeedId>): set<ResultKey> {
    set f | f in ids :: (jobId, f)
  }

  lemma {:induction false} JobKeysCount(jobId: JobId, ids: set<FeedId>)
    ensures |JobKeys(jobId, ids)| == |ids|
  {
    SameSize(JobKeys(jobId, ids), ids, jobId);
  }

  lemma {:induction false} SubsetSize<T>(a: set<T>, b: set<T>)
    requires a <= b
    ensures |a| <= |b| && (|a| == |b| ==> a == b)
  {
    if a != {} {
      var x :| x in a;
      SubsetSize(a - {x}, b - {x});
    }
  }

  /** Rows never outnumber the planned feeds, and reach that number exactly when every planned feed has its row. */
  lemma ProcessedBound(t: Tables, plans: map<JobId, Plan>, jobId: JobId)
    requires RowsBelong(t, plans) && jobId in plans && DistinctIds(plans[jobId].feeds)
    ensures |JobResults(t.results, jobId)| <= |plans[jobId].feeds|
    ensures |JobResults(t.results, jobId)| == |plans[jobId].feeds| <==>
            JobResults(t.results, jobId) == JobKeys(jobId, Ids(plans[jobId].feeds))
  {
    var keys, ids := JobResults(t.results, jobId), Ids(plans[jobId].feeds);
    DistinctIdsCount(plans[jobId].feeds);
    JobKeysCount(jobId, ids);
    forall k | k in keys ensures k in JobKeys(jobId, ids) {
      assert k in t.jobFeeds;
      assert k == (jobId, k.1);
    }
    SubsetSize(keys, JobKeys(jobId, ids));
  }
}
