/** Status progress, the induction over runs, and what holds of every run of the pipeline. */
module PipelineTheorems {
  import opened Common
  import opened SourceIngest
  import opened ScrapeTables
  import opened Scheduling
  import opened RoundRobinLaws
  import opened Pipeline
  import opened PipelineInvariants

  // --- Status ---

  lemma CoveredIsKept(w: World, step: Step, jobId: JobId, plan: Plan)
    requires Typed(w) && Enabled(w, step)
    requires Covered(w.tables, w.requests, jobId, plan) && Ids(plan.feeds) <= w.knownFeeds
    ensures Covered(Apply(w, step).tables, Apply(w, step).requests, jobId, plan)
  {
    var w' := Apply(w, step);
    StreamsGrow(w, step);
    forall x | x in plan.feeds
      ensures Requested(w'.requests, (jobId, x.feedId)) && Settled(w'.tables, (jobId, x.feedId))
    {
      assert x.feedId in Ids(plan.feeds);
      RequestedIsKept(w.requests, w'.requests, (jobId, x.feedId));
      SettledIsKept(w, step, (jobId, x.feedId));
    }
  }

  /** A refreshed status is final only when every planned feed has its row. */
  lemma RefreshedFinishedIsCovered(t: Tables, plans: map<JobId, Plan>, requests: seq<Request>, jobId: JobId)
    requires RowsBelong(t, plans) && jobId in plans && jobId in t.jobs
    requires DistinctIds(plans[jobId].feeds) && t.jobs[jobId].feedCount == |plans[jobId].feeds|
    requires forall key :: key in t.results ==> Requested(requests, key)
    requires Finished(RefreshedStatus(t, jobId))
    ensures Covered(t, requests, jobId, plans[jobId])
  {
    var plan := plans[jobId];
    ProcessedBound(t, plans, jobId);
    forall x | x in plan.feeds ensures (jobId, x.feedId) in t.results {
      assert x.feedId in Ids(plan.feeds);
      assert (jobId, x.feedId) in JobKeys(jobId, Ids(plan.feeds));
      assert (jobId, x.feedId) in JobResults(t.results, jobId);
    }
  }

  lemma PersistKeepsStatus(t: Tables, plans: map<JobId, Plan>, requests: seq<Request>, d: Delivery,
                           jobId: JobId, publisher: Publisher)
    requires jobId in t.jobs && jobId in plans && StatusHolds(t, requests, jobId, plans[jobId], publisher)
    requires RowsBelong(Consume(t, d), plans)
    requires DistinctIds(plans[jobId].feeds) && t.jobs[jobId].feedCount == |plans[jobId].feeds|
    requires Requested(requests, KeyOf(d)) && forall key :: key in t.results ==> Requested(requests, key)
    ensures jobId in Consume(t, d).jobs && StatusHolds(Consume(t, d), requests, jobId, plans[jobId], publisher)
  {
    PersistOutcome(t, d);
    if Records(t, d) {
      var t' := Consume(t, d);
      if d.payload.jobId == jobId {
        if Finished(RefreshedStatus(t', jobId)) {
          RefreshedFinishedIsCovered(t', plans, requests, jobId);
        }
      } else {
        AggregatesAfterInsert(t.results, KeyOf(d), RowOf(d));
        assert JobResults(t'.results, jobId) == JobResults(t.results, jobId);
        assert JobResultsWith(t'.results, jobId, Error) == JobResultsWith(t.results, jobId, Error);
      }
    }
  }

  lemma CascadeKeepsStatus(t: Tables, plans: map<JobId, Plan>, requests: seq<Request>, feedId: FeedId,
                           jobId: JobId, publisher: Publisher)
    requires jobId in t.jobs && jobId in plans && StatusHolds(t, requests, jobId, plans[jobId], publisher)
    requires RowsBelong(t, plans)
    ensures StatusHolds(CascadeFeed(t, feedId), requests, jobId, plans[jobId], publisher)
  {
    var t' := CascadeFeed(t, feedId);
    if Alive(t', plans[jobId]) {
      assert feedId !in Ids(plans[jobId].feeds);
      assert JobResults(t'.results, jobId) == JobResults(t.results, jobId);
      assert JobResultsWith(t'.results, jobId, Error) == JobResultsWith(t.results, jobId, Error);
    }
  }

  lemma StatusIgnoresOthers(t: Tables, t': Tables, requests: seq<Request>, more: seq<Request>,
                            jobId: JobId, plan: Plan, before: Publisher, after: Publisher)
    requires jobId in t.jobs && jobId in t'.jobs && t'.jobs[jobId] == t.jobs[jobId] && t'.results == t.results
    requires Alive(t', plan) ==> Alive(t, plan)
    requires before.marked ==> after.marked
    requires Covered(t, requests, jobId, plan) ==> Covered(t', more, jobId, plan)
    requires StatusHolds(t, requests, jobId, plan, before)
    ensures StatusHolds(t', more, jobId, plan, after)
  {
  }

  lemma RowsAreRequested(w: World)
    requires ReportsHold(w.requests, w.requestsAcked, w.confirmed, w.results)
    requires RowsHold(w.tables, w.results, w.stages)
    ensures forall key :: key in w.tables.results ==> Requested(w.requests, key)
  {
    forall key | key in w.tables.results ensures Requested(w.requests, key) {
      var k :| 0 <= k < |w.results| && KeyOf(w.results[k]) == key;
    }
  }

  ghost predicate StatusContext(w: World, jobId: JobId) {
    && Typed(w) && jobId in w.plans && jobId in w.publishers
    && PlanHolds(w.tables.jobs[jobId], w.knownFeeds, w.plans[jobId], w.publishers[jobId])
    && RowsBelong(w.tables, w.plans)
    && StatusHolds(w.tables, w.requests, jobId, w.plans[jobId], w.publishers[jobId])
  }

  lemma KeepsStatus(w: World, step: Step, jobId: JobId)
    requires StatusContext(w, jobId) && w.tables.feeds <= w.knownFeeds && Enabled(w, step)
    requires forall key :: key in w.tables.results ==> Requested(w.requests, key)
    requires step.PersistResult? ==> Requested(w.requests, KeyOf(w.results[step.result]))
                                     && RowsBelong(Consume(w.tables, w.results[step.result]), w.plans)
    ensures var w' := Apply(w, step);
            jobId in w'.plans && jobId in w'.publishers && jobId in w'.tables.jobs
            && StatusHolds(w'.tables, w'.requests, jobId, w'.plans[jobId], w'.publishers[jobId])
  {
    var w' := Apply(w, step);
    var plan := w.plans[jobId];
    if step.PersistResult? {
      PersistKeepsStatus(w.tables, w.plans, w.requests, w.results[step.result], jobId, w.publishers[jobId]);
    } else if step.DeleteFeed? {
      CascadeKeepsStatus(w.tables, w.plans, w.requests, step.feedId, jobId, w.publishers[jobId]);
    } else if step.MarkFailed? && step.jobId == jobId {
    } else {
      if Covered(w.tables, w.requests, jobId, plan) {
        CoveredIsKept(w, step, jobId, plan);
      }
      StatusIgnoresOthers(w.tables, w'.tables, w.requests, w'.requests, jobId, plan,
                          w.publishers[jobId], w'.publishers[jobId]);
    }
  }

  lemma NewJobStatus(w: World, jobId: JobId, ingest: bool, plan: Plan)
    requires RowsBelong(w.tables, w.plans) && jobId !in w.plans
    ensures var t' := InsertJob(w.tables, jobId, ingest, plan.feeds);
            StatusHolds(t', w.requests, jobId, plan, Publisher(PlannedBatches(plan), false, false))
  {
    var t' := InsertJob(w.tables, jobId, ingest, plan.feeds);
    forall k | k in t'.results ensures k.0 != jobId {
      assert k in w.tables.jobFeeds;
    }
    assert JobResults(t'.results, jobId) == {};
  }

  lemma KeepsOldStatus(w: World, step: Step, jobId: JobId)
    requires Inv(w) && Enabled(w, step) && jobId in w.plans
    requires RowsBelong(Apply(w, step).tables, Apply(w, step).plans)
    ensures var w' := Apply(w, step);
            jobId in w'.plans && jobId in w'.publishers && jobId in w'.tables.jobs
            && StatusHolds(w'.tables, w'.requests, jobId, w'.plans[jobId], w'.publishers[jobId])
  {
    RowsAreRequested(w);
    StatusFacts(w, jobId);
    KeepsStatus(w, step, jobId);
  }

  lemma KeepsNewStatus(w: World, step: Step, jobId: JobId)
    requires Typed(w) && w.plans.Keys == w.tables.jobs.Keys && RowsBelong(w.tables, w.plans) && Enabled(w, step)
    requires jobId !in w.plans && jobId in Apply(w, step).plans
    ensures var w' := Apply(w, step);
            jobId in w'.publishers && jobId in w'.tables.jobs
            && StatusHolds(w'.tables, w'.requests, jobId, w'.plans[jobId], w'.publishers[jobId])
  {
    assert step.CreateJob? && step.jobId == jobId;
    NewJobStatus(w, jobId, step.ingest, step.plan);
  }

  lemma KeepsStatuses(w: World, step: Step)
    requires Inv(w) && Enabled(w, step)
    requires Shape(Apply(w, step)) && RowsBelong(Apply(w, step).tables, Apply(w, step).plans)
    ensures StatusesHold(Apply(w, step))
  {
    var w' := Apply(w, step);
    forall j | j in w'.plans
      ensures StatusHolds(w'.tables, w'.requests, j, w'.plans[j], w'.publishers[j])
    {
      if j in w.plans {
        KeepsOldStatus(w, step, j);
      } else {
        KeepsNewStatus(w, step, j);
      }
    }
  }

  lemma StatusFacts(w: World, jobId: JobId)
    requires Inv(w) && jobId in w.plans
    ensures StatusContext(w, jobId)
  {
  }

  lemma MessageIsPlanned(w: World, k: nat)
    requires Inv(w) && k < |w.results|
    ensures var key := KeyOf(w.results[k]);
            key.0 in w.plans && key.0 in w.tables.jobs && key.1 in Ids(w.plans[key.0].feeds) && key.1 in w.knownFeeds
  {
    RequestedIsPlanned(w.requests, w.plans, w.publishers, KeyOf(w.results[k]));
    PlansAreKnown(w);
  }

  /** Every step of every actor keeps the whole invariant. */
  lemma InvIsKept(w: World, step: Step)
    requires Inv(w) && Enabled(w, step)
    ensures Inv(Apply(w, step))
  {
    forall k | 0 <= k < |w.results|
      ensures KeyOf(w.results[k]).0 in w.tables.jobs && KeyOf(w.results[k]).1 in w.knownFeeds
    {
      MessageIsPlanned(w, k);
    }
    if step.PersistResult? {
      MessageIsPlanned(w, step.result);
    }
    KeepsShape(w, step);
    KeepsRowsBelong(w, step);
    KeepsArticles(w, step);
    KeepsRequests(w, step);
    KeepsReports(w, step);
    KeepsRows(w, step);
    KeepsCounters(w, step);
    KeepsStatuses(w, step);
  }

  // --- Runs ---

  /** `w'` is where the steps lead from `w`, each of them enabled when it is taken. */
  ghost predicate Run(w: World, steps: seq<Step>, w': World)
    decreases |steps|
  {
    if steps == [] then w' == w
    else Typed(w) && Enabled(w, steps[0]) && Run(Apply(w, steps[0]), steps[1..], w')
  }

  lemma Chain(w: World, step: Step, steps: seq<Step>, end: World)
    requires Typed(w) && Enabled(w, step) && Run(Apply(w, step), steps, end)
    ensures Run(w, [step] + steps, end)
  {
    assert ([step] + steps)[1..] == steps;
  }

  lemma {:induction false} RunsCompose(w: World, steps: seq<Step>, mid: World, more: seq<Step>, end: World)
    requires Run(w, steps, mid) && Run(mid, more, end)
    ensures Run(w, steps + more, end)
    decreases |steps|
  {
    if steps == [] {
      assert steps + more == more;
    } else {
      RunsCompose(Apply(w, steps[0]), steps[1..], mid, more, end);
      Chain(w, steps[0], steps[1..] + more, end);
      assert [steps[0]] + (steps[1..] + more) == steps + more;
    }
  }

  ghost predicate Reachable(w: World) {
    exists start, steps :: Initial(start) && Run(start, steps, w)
  }

  lemma {:induction false} RunKeepsInv(w: World, steps: seq<Step>, w': World)
    requires Inv(w) && Run(w, steps, w')
    ensures Inv(w')
    decreases |steps|
  {
    if steps != [] {
      InvIsKept(w, steps[0]);
      RunKeepsInv(Apply(w, steps[0]), steps[1..], w');
    }
  }

  /** Every interleaving, from every initial world, stays inside the invariant. */
  lemma ReachableHolds(w: World)
    requires Reachable(w)
    ensures Inv(w)
  {
    var start, steps :| Initial(start) && Run(start, steps, w);
    InitialHolds(start);
    RunKeepsInv(start, steps, w);
  }

  // --- What every run guarantees ---

  /**
   Rows only for planned feeds, never more of them than the job's feed count, and for every feed an
   error counter equal to the number of its recorded error rows.
   */
  lemma RowsAndCounters(w: World, jobId: JobId, feedId: FeedId)
    requires Reachable(w) && jobId in w.tables.jobs
    ensures jobId in w.plans
    ensures forall k :: k in JobResults(w.tables.results, jobId) ==> k.1 in Ids(w.plans[jobId].feeds)
    ensures |JobResults(w.tables.results, jobId)| <= w.tables.jobs[jobId].feedCount
    ensures ErrorNbr(w.tables, feedId) == |FeedErrors(w.tables.results, feedId)|
  {
    ReachableHolds(w);
    StatusFacts(w, jobId);
    ProcessedBound(w.tables, w.plans, jobId);
  }

  /**
   In every reachable world the two read endpoints tell the same story about a job: its plan's number
   of feeds, and the status these numbers mean while no publish failure was recorded and all its feeds
   exist.
   */
  lemma ViewsAgreeAlways(w: World, jobId: JobId)
    requires Reachable(w) && jobId in w.tables.jobs
    ensures jobId in w.plans && jobId in w.publishers
    ensures var read := GetStatusRead(w.tables, jobId).value;
            && read.total == |w.plans[jobId].feeds|
            && (read.status == Failed ==> w.publishers[jobId].marked)
            && (Alive(w.tables, w.plans[jobId]) && !w.publishers[jobId].marked ==>
                  read.status == (if read.total == 0 then Completed
                                  else if read.processed == 0 then Queued
                                  else if read.processed < read.total then Processing
                                  else if read.error > 0 then CompletedWithErrors
                                  else Completed))
    ensures var read := GetStatusRead(w.tables, jobId).value;
            var listing := GetFeedReads(w.tables, jobId);
            && read.processed == read.success + read.notModified + read.error
            && read.processed == |RecordedFeeds(listing)| <= read.total
            && read.error == |RecordedFeedsWith(listing, Error)|
  {
    RowsAndCounters(w, jobId, 0);
    ReachableHolds(w);
    StatusFacts(w, jobId);
    StoredStatusIsComputed(w, jobId);
    ViewsAgree(w.tables, jobId);
  }

  /** What has been published is a prefix of the mixed list, cut into the planned batches. */
  lemma PublishedIsPrefix(w: World, jobId: JobId)
    requires Reachable(w) && jobId in w.tables.jobs
    ensures jobId in w.plans
    ensures Sent(w.requests, jobId) <= PlannedBatches(w.plans[jobId])
    ensures Flatten(Sent(w.requests, jobId)) <= Mixed(w.plans[jobId].feeds)
  {
    ReachableHolds(w);
    var sent, rest, all := Sent(w.requests, jobId), w.publishers[jobId].rest, PlannedBatches(w.plans[jobId]);
    assert AllBatches(w.requests, jobId, rest, all);
    FlattenAppend(sent, rest);
    BatchesSplit(Mixed(w.plans[jobId].feeds), w.plans[jobId].batchSize);
  }

  /** Never published, never complete: one planned feed missing from the stream keeps the job unfinished. */
  lemma UnpublishedNeverCompletes(w: World, jobId: JobId, x: Feed)
    requires Reachable(w) && jobId in w.plans && x in w.plans[jobId].feeds
    requires !Requested(w.requests, (jobId, x.feedId))
    ensures jobId in w.tables.jobs && !Finished(w.tables.jobs[jobId].status)
  {
    ReachableHolds(w);
    StatusFacts(w, jobId);
  }

  /**
   Quiescence: the publish loop ended without an error, the job's feeds still exist, and all its
   requests and results are acknowledged.  Then every feed has exactly its one row, and the job is
   complete, with errors exactly if some row is an error.
   */
  lemma QuiescentJobIsComplete(w: World, jobId: JobId)
    requires Reachable(w) && jobId in w.plans && jobId in w.publishers
    requires w.publishers[jobId].rest == [] && !w.publishers[jobId].broken
    requires Alive(w.tables, w.plans[jobId])
    requires forall i :: 0 <= i < |w.requests| && w.requests[i].jobId == jobId ==> i in w.requestsAcked
    requires forall k: nat :: k < |w.results| && KeyOf(w.results[k]).0 == jobId ==> InStage(w, k, Acked)
    ensures JobResults(w.tables.results, jobId) == JobKeys(jobId, Ids(w.plans[jobId].feeds))
    ensures jobId in w.tables.jobs
    ensures w.tables.jobs[jobId].status
         == if JobResultsWith(w.tables.results, jobId, Error) != {} then CompletedWithErrors else Completed
  {
    ReachableHolds(w);
    StatusFacts(w, jobId);
    forall x | x in w.plans[jobId].feeds ensures (jobId, x.feedId) in w.tables.results {
      var i := PlannedIsRequested(w.requests, w.plans, w.publishers, jobId, x);
      AckedFeedIsReported(w.requests, w.requestsAcked, w.confirmed, w.results, i, x);
      var k :| 0 <= k < |w.results| && KeyOf(w.results[k]) == (jobId, x.feedId);
      assert InStage(w, k, Acked);
      assert x.feedId in Ids(w.plans[jobId].feeds);
    }
    CompleteRows(w.tables, w.plans, jobId);
  }

  lemma AckedFeedIsReported(requests: seq<Request>, acked: set<nat>, confirmed: set<(nat, FeedId)>,
                            results: seq<Delivery>, i: nat, x: Feed)
    requires ReportsHold(requests, acked, confirmed, results)
    requires i < |requests| && i in acked && x in requests[i].feeds
    ensures Reported(results, (requests[i].jobId, x.feedId))
  {
    assert (i, x.feedId) in confirmed;
  }

  lemma CompleteRows(t: Tables, plans: map<JobId, Plan>, jobId: JobId)
    requires RowsBelong(t, plans) && jobId in plans && DistinctIds(plans[jobId].feeds)
    requires jobId in t.jobs && t.jobs[jobId].feedCount == |plans[jobId].feeds|
    requires forall x :: x in plans[jobId].feeds ==> (jobId, x.feedId) in t.results
    ensures JobResults(t.results, jobId) == JobKeys(jobId, Ids(plans[jobId].feeds))
    ensures RefreshedStatus(t, jobId)
         == if JobResultsWith(t.results, jobId, Error) != {} then CompletedWithErrors else Completed
  {
    var keys, all := JobResults(t.results, jobId), JobKeys(jobId, Ids(plans[jobId].feeds));
    forall k | k in all ensures k in keys {
      var x :| x in plans[jobId].feeds && x.feedId == k.1;
    }
    ProcessedBound(t, plans, jobId);
    forall k | k in keys ensures k in all {
      assert k in t.jobFeeds;
      assert k == (jobId, k.1);
    }
    assert JobResultsWith(t.results, jobId, Error) <= keys;
    if t.jobs[jobId].feedCount == 0 {
      assert keys == {};
    }
  }

  // --- Exactly once, over whole runs ---

  lemma {:induction false} RunKeepsSettled(w: World, steps: seq<Step>, w': World, key: ResultKey)
    requires Inv(w) && Run(w, steps, w') && Settled(w.tables, key) && key.1 in w.knownFeeds
    ensures Settled(w'.tables, key)
    decreases |steps|
  {
    if steps != [] {
      InvIsKept(w, steps[0]);
      SettledIsKept(w, steps[0], key);
      RunKeepsSettled(Apply(w, steps[0]), steps[1..], w', key);
    }
  }

  /**
   Once a message has been persisted, no later message with the same key changes anything, whatever
   happens in between: other messages, feed deletions, failed publishes, new jobs.
   */
  lemma SecondPersistChangesNothing(w: World, k: nat, steps: seq<Step>, later: World, again: nat)
    requires Reachable(w) && Enabled(w, PersistResult(k)) && Typed(w)
    requires Run(Apply(w, PersistResult(k)), steps, later)
    requires Enabled(later, PersistResult(again)) && KeyOf(later.results[again]) == KeyOf(w.results[k])
    ensures Typed(later) && Apply(later, PersistResult(again)).tables == later.tables
  {
    ReachableHolds(w);
    MessageIsPlanned(w, k);
    InvIsKept(w, PersistResult(k));
    PersistSettles(w.tables, w.results[k]);
    var next := Apply(w, PersistResult(k));
    RunKeepsSettled(next, steps, later, KeyOf(w.results[k]));
    RunKeepsInv(next, steps, later);
    PersistOutcome(later.tables, later.results[again]);
  }

  // --- Status progress ---

  function Progress(status: JobStatus): nat {
    match status
    case Queued => 0
    case Processing => 1
    case Completed => 2
    case CompletedWithErrors => 2
    case Failed => 0
  }

  lemma PersistMovesForward(t: Tables, plan: Plan, requests: seq<Request>, d: Delivery, jobId: JobId)
    requires jobId in t.jobs && t.jobs[jobId].feedCount == |plan.feeds|
    requires d.payload.jobId == jobId ==> d.payload.feedId in Ids(plan.feeds)
    requires Finished(t.jobs[jobId].status) ==> Covered(t, requests, jobId, plan)
    ensures jobId in Consume(t, d).jobs
    ensures Progress(t.jobs[jobId].status) <= Progress(Consume(t, d).jobs[jobId].status)
    ensures Finished(t.jobs[jobId].status) ==> Consume(t, d).jobs[jobId] == t.jobs[jobId]
  {
    PersistOutcome(t, d);
    if Records(t, d) && d.payload.jobId == jobId {
      assert KeyOf(d) in JobResults(Consume(t, d).results, jobId);
      assert |JobResults(Consume(t, d).results, jobId)| > 0;
    }
  }

  lemma StepMovesForward(w: World, step: Step, jobId: JobId)
    requires StatusContext(w, jobId) && Enabled(w, step) && step != MarkFailed(jobId)
    requires step.PersistResult? ==>
               var key := KeyOf(w.results[step.result]); key.0 == jobId ==> key.1 in Ids(w.plans[jobId].feeds)
    ensures jobId in Apply(w, step).tables.jobs
    ensures Progress(w.tables.jobs[jobId].status) <= Progress(Apply(w, step).tables.jobs[jobId].status)
    ensures Finished(w.tables.jobs[jobId].status) ==>
              Apply(w, step).tables.jobs[jobId].status == w.tables.jobs[jobId].status
  {
    if step.PersistResult? {
      PersistMovesForward(w.tables, w.plans[jobId], w.requests, w.results[step.result], jobId);
    }
  }

  /**
   A job's status only moves forward, and a finished job keeps its status, under every step but the
   marking of a failed publish; feed deletions included.
   */
  lemma StatusMovesForward(w: World, step: Step, jobId: JobId)
    requires Reachable(w) && jobId in w.tables.jobs && Enabled(w, step) && Typed(w)
    requires step != MarkFailed(jobId)
    ensures var before, after := w.tables.jobs[jobId].status, Apply(w, step).tables.jobs[jobId].status;
            && Progress(before) <= Progress(after)
            && (Finished(before) ==> after == before)
  {
    ReachableHolds(w);
    StatusFacts(w, jobId);
    if step.PersistResult? {
      MessageIsPlanned(w, step.result);
    }
    StepMovesForward(w, step, jobId);
  }

  /**
   The stored status is exactly the function of the counts as long as no publish failure was
   recorded and the job's feeds exist; and `failed` is stored only after a recorded failure.
   */
  lemma StoredStatusIsComputed(w: World, jobId: JobId)
    requires Reachable(w) && jobId in w.tables.jobs && jobId in w.plans && jobId in w.publishers
    ensures w.tables.jobs[jobId].status == Failed ==> w.publishers[jobId].marked
    ensures Alive(w.tables, w.plans[jobId]) && !w.publishers[jobId].marked ==>
              w.tables.jobs[jobId].status == RefreshedStatus(w.tables, jobId)
  {
    ReachableHolds(w);
    StatusFacts(w, jobId);
  }

  /** Texts of an article never return to null, and articles keep their id and key, in every run. */
  ghost predicate ArticlesExtend(a: SourceTables, b: SourceTables) {
    && |a.sources| <= |b.sources|
    && forall i :: 0 <= i < |a.sources| ==> RowExtends(a.sources[i], b.sources[i])
  }

  lemma StepExtendsArticles(w: World, step: Step)
    requires Typed(w) && ValidSources(w.tables.articles) && Enabled(w, step)
    ensures ArticlesExtend(w.tables.articles, Apply(w, step).tables.articles)
  {
    if step.PersistResult? {
      var d := w.results[step.result];
      PersistOutcome(w.tables, d);
      UpsertSourcesKeepsKeys(w.tables.articles, d.payload.feedId, d.payload.sources);
    }
  }

  lemma {:induction false} RunExtendsArticles(w: World, steps: seq<Step>, w': World)
    requires Inv(w) && Run(w, steps, w')
    ensures ValidSources(w'.tables.articles) && ArticlesExtend(w.tables.articles, w'.tables.articles)
    decreases |steps|
  {
    if steps != [] {
      InvIsKept(w, steps[0]);
      StepExtendsArticles(w, steps[0]);
      var next := Apply(w, steps[0]);
      RunExtendsArticles(next, steps[1..], w');
      forall i | 0 <= i < |w.tables.articles.sources|
        ensures RowExtends(w.tables.articles.sources[i], w'.tables.articles.sources[i])
      {
        assert RowExtends(w.tables.articles.sources[i], next.tables.articles.sources[i]);
        assert RowExtends(next.tables.articles.sources[i], w'.tables.articles.sources[i]);
      }
    }
  }
}
