/**
 Where `failed` and the finished statuses are not terminal: exactly which steps leave them, and a
 run in which a fully processed job ends as `failed`.
 */
module PipelineFindings {
  import opened Common
  import opened SourceIngest
  import opened ScrapeTables
  import opened Scheduling
  import opened RoundRobinLaws
  import opened MixByIds
  import opened Pipeline
  import opened PipelineInvariants
  import opened PipelineTheorems

  /** A finished job loses its status exactly when the publisher records a failure for it. */
  lemma FinishedIsLostOnlyToMarking(w: World, step: Step, jobId: JobId)
    requires Reachable(w) && jobId in w.tables.jobs && Enabled(w, step) && Typed(w)
    requires Finished(w.tables.jobs[jobId].status)
    ensures Apply(w, step).tables.jobs[jobId].status != w.tables.jobs[jobId].status <==> step == MarkFailed(jobId)
  {
    if step != MarkFailed(jobId) {
      StatusMovesForward(w, step, jobId);
    }
  }

  lemma SentOrLeft(sent: seq<Feed>, rest: seq<Feed>, x: Feed, y: Feed)
    requires DistinctIds(sent + rest) && x in sent && y in rest
    ensures x.feedId != y.feedId
  {
    var a :| 0 <= a < |sent| && sent[a] == x;
    var b :| 0 <= b < |rest| && rest[b] == y;
    assert (sent + rest)[a] == x && (sent + rest)[|sent| + b] == y;
  }

  lemma BatchesAreFilled(plan: Plan, k: nat)
    requires k < |PlannedBatches(plan)|
    ensures PlannedBatches(plan)[k] != []
  {
    BatchesSplit(Mixed(plan.feeds), plan.batchSize);
  }

  /** A feed still to be sent has not been requested. */
  lemma LeftIsNotRequested(requests: seq<Request>, plan: Plan, rest: seq<seq<Feed>>, jobId: JobId) returns (y: Feed)
    requires AllBatches(requests, jobId, rest, PlannedBatches(plan)) && rest != [] && DistinctIds(plan.feeds)
    ensures y in plan.feeds && !Requested(requests, (jobId, y.feedId))
  {
    var sent := Sent(requests, jobId);
    assert (sent + rest)[|sent|] == rest[0];
    BatchesAreFilled(plan, |sent|);
    y := rest[0][0];
    assert rest[0] in PlannedBatches(plan) && y in rest[0];
    PlannedHas(plan, y);
    FlattenAppend(sent, rest);
    BatchesSplit(Mixed(plan.feeds), plan.batchSize);
    MixedIdsAreDistinct(plan.feeds);
    FlattenHas(rest, y);
    forall i | 0 <= i < |requests| && requests[i].jobId == jobId ensures y.feedId !in Ids(requests[i].feeds) {
      SentHas(requests, jobId, requests[i].feeds);
      forall x | x in requests[i].feeds ensures x.feedId != y.feedId {
        FlattenHas(sent, x);
        SentOrLeft(Flatten(sent), Flatten(rest), x, y);
      }
    }
  }

  /** A finished job has every batch in the stream. */
  lemma FinishedIsPublished(w: World, jobId: JobId)
    requires Reachable(w) && jobId in w.tables.jobs && Finished(w.tables.jobs[jobId].status)
    ensures Typed(w) && jobId in w.plans && jobId in w.publishers
    ensures w.publishers[jobId].rest == [] && Sent(w.requests, jobId) == PlannedBatches(w.plans[jobId])
  {
    ReachableHolds(w);
    StatusFacts(w, jobId);
    assert AllBatches(w.requests, jobId, w.publishers[jobId].rest, PlannedBatches(w.plans[jobId]));
    if w.publishers[jobId].rest != [] {
      var y := LeftIsNotRequested(w.requests, w.plans[jobId], w.publishers[jobId].rest, jobId);
    }
  }

  /** The step is possible and takes the job's status away. */
  ghost predicate Overwrites(w: World, step: Step, jobId: JobId)
    requires Typed(w) && jobId in w.tables.jobs
  {
    Enabled(w, step) && jobId in Apply(w, step).tables.jobs
    && Apply(w, step).tables.jobs[jobId].status != w.tables.jobs[jobId].status
  }

  /**
   Before any step: a finished job can lose its status if and only if its publish loop raised and the
   failure is not recorded yet.  Every batch is in the stream then, so only a lost reply can be the cause.
   */
  lemma FinishedCanBeLostIff(w: World, jobId: JobId)
    requires Reachable(w) && jobId in w.tables.jobs && Finished(w.tables.jobs[jobId].status)
    ensures Typed(w) && jobId in w.publishers && w.publishers[jobId].rest == []
    ensures (exists step :: Overwrites(w, step, jobId)) <==> w.publishers[jobId].broken && !w.publishers[jobId].marked
  {
    FinishedIsPublished(w, jobId);
    MarkingOverwrites(w, jobId);
    if step :| Overwrites(w, step, jobId) {
      OverwriteIsMarking(w, step, jobId);
    }
  }

  lemma MarkingOverwrites(w: World, jobId: JobId)
    requires Typed(w) && jobId in w.tables.jobs && jobId in w.publishers && Finished(w.tables.jobs[jobId].status)
    ensures w.publishers[jobId].broken && !w.publishers[jobId].marked ==> Overwrites(w, MarkFailed(jobId), jobId)
  {
  }

  lemma OverwriteIsMarking(w: World, step: Step, jobId: JobId)
    requires Reachable(w) && Typed(w) && jobId in w.tables.jobs && jobId in w.publishers
    requires Finished(w.tables.jobs[jobId].status) && Overwrites(w, step, jobId)
    ensures w.publishers[jobId].broken && !w.publishers[jobId].marked
  {
    FinishedIsLostOnlyToMarking(w, step, jobId);
  }

  /** A failed job gets its computed status back exactly when a result is recorded for it. */
  lemma FailedIsLostOnlyToRecording(t: Tables, d: Delivery, jobId: JobId)
    requires jobId in t.jobs && t.jobs[jobId].status == Failed
    ensures jobId in Consume(t, d).jobs
    ensures Consume(t, d).jobs[jobId].status != Failed <==> Records(t, d) && d.payload.jobId == jobId
  {
    PersistOutcome(t, d);
  }

  // --- One feed, one batch, one lost reply ---

  const FEED := Feed(1, None)
  const JOB := "job"
  const OUTCOME := Payload(JOB, 1, NotModified, None, None, None, 1, [])

  ghost function Start(): World {
    World(Tables({1}, map[], {}, map[], map[], SourceTables([], {}, 1)), {1},
          map[], map[], [], {}, {}, {}, [], map[])
  }

  lemma OneBatch()
    ensures PlannedBatches(Plan([FEED], 50)) == [[FEED]]
  {
    RoundRobinIsPermutation([FEED]);
    assert Mixed([FEED]) == [FEED];
  }

  lemma OneRowCompletes(t: Tables)
    requires t.jobs == map[JOB := Job(true, 1, Queued)] && t.results == map[] && 1 in t.feeds
    ensures JOB in Consume(t, Delivery(IngestQueue, OUTCOME)).jobs
    ensures Consume(t, Delivery(IngestQueue, OUTCOME)).jobs[JOB].status == Completed
  {
    var d := Delivery(IngestQueue, OUTCOME);
    PersistOutcome(t, d);
    var results := Consume(t, d).results;
    assert JobResults(results, JOB) == {(JOB, 1)};
    assert JobResultsWith(results, JOB, Error) == {};
  }

  const SENT := Publisher([], true, false)

  ghost function Jobs(status: JobStatus): Tables {
    Start().tables.(jobs := map[JOB := Job(true, 1, status)], jobFeeds := {(JOB, 1)})
  }

  /** After the lost reply: the batch is in the stream although the publish call raised. */
  ghost function Lost(): World {
    World(Jobs(Queued), {1}, map[JOB := Plan([FEED], 50)], map[JOB := SENT],
          [Request(JOB, true, [FEED])], {}, {}, {}, [], map[])
  }

  /** The worker has published the feed's result, and db_manager has read it. */
  ghost function Delivered(): World {
    Lost().(requestsTaken := {0}, confirmed := {(0, 1)},
            results := [Delivery(IngestQueue, OUTCOME)], stages := map[0 := Taken])
  }

  lemma ToLost()
    ensures Run(Start(), [CreateJob(JOB, true, Plan([FEED], 50)), LoseReply(JOB)], Lost())
  {
    OneBatch();
    assert Ids([FEED]) == {1} by { assert FEED in [FEED]; }
    var created := Apply(Start(), CreateJob(JOB, true, Plan([FEED], 50)));
    assert created.tables == Jobs(Queued);
    var lost := Apply(created, LoseReply(JOB));
    assert lost.requests == [Request(JOB, true, [FEED])];
    assert created.publishers[JOB].rest == [[FEED]] && [[FEED]][1..] == [];
    assert lost.publishers[JOB] == SENT;
    assert lost.publishers == map[JOB := SENT];
    assert lost == Lost();
    Chain(created, LoseReply(JOB), [], Lost());
    Chain(Start(), CreateJob(JOB, true, Plan([FEED], 50)), [LoseReply(JOB)], Lost());
  }

  lemma ToDelivered()
    ensures Run(Lost(), [TakeRequest(0), PublishResult(0, FEED, OUTCOME, 1), TakeResult(0)], Delivered())
  {
    var taken := Apply(Lost(), TakeRequest(0));
    var published := Apply(taken, PublishResult(0, FEED, OUTCOME, 1));
    assert published.results == [Delivery(IngestQueue, OUTCOME)];
    assert Apply(published, TakeResult(0)) == Delivered();
    Chain(published, TakeResult(0), [], Delivered());
    Chain(taken, PublishResult(0, FEED, OUTCOME, 1), [TakeResult(0)], Delivered());
    Chain(Lost(), TakeRequest(0), [PublishResult(0, FEED, OUTCOME, 1), TakeResult(0)], Delivered());
  }

  /**
   The reply to the only publish is lost, the worker and db_manager finish the job, and then the
   backend still records its publish error over the completed status.
   */
  lemma LostReplyFailsCompletedJob() returns (w: World)
    ensures Reachable(w) && Typed(w) && JOB in w.tables.jobs && w.tables.jobs[JOB].status == Completed
    ensures Enabled(w, MarkFailed(JOB)) && Apply(w, MarkFailed(JOB)).tables.jobs[JOB].status == Failed
  {
    w := ToCompleted();
    ToLost();
    ToDelivered();
    RunsCompose(Lost(), [TakeRequest(0), PublishResult(0, FEED, OUTCOME, 1), TakeResult(0)], Delivered(),
                [PersistResult(0)], w);
    RunsCompose(Start(), [CreateJob(JOB, true, Plan([FEED], 50)), LoseReply(JOB)], Lost(),
                [TakeRequest(0), PublishResult(0, FEED, OUTCOME, 1), TakeResult(0)] + [PersistResult(0)], w);
    StartIsInitial();
  }

  lemma StartIsInitial()
    ensures Initial(Start())
  {
  }

  lemma ToCompleted() returns (w: World)
    ensures Run(Delivered(), [PersistResult(0)], w)
    ensures Typed(w) && JOB in w.tables.jobs && w.tables.jobs[JOB].status == Completed
    ensures Enabled(w, MarkFailed(JOB)) && Apply(w, MarkFailed(JOB)).tables.jobs[JOB].status == Failed
  {
    OneRowCompletes(Delivered().tables);
    PersistOutcome(Delivered().tables, Delivered().results[0]);
    w := Apply(Delivered(), PersistResult(0));
    Chain(Delivered(), PersistResult(0), [], w);
  }
}
