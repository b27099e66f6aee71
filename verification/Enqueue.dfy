/**
 The backend call that creates a scrape job, commits it, and only then publishes its batches.
 Its effects on the tables and on the request stream are shown to be a run of the pipeline's steps.
 */
module Enqueue {
  import opened Common
  import opened ScrapeTables
  import opened Scheduling
  import opened RoundRobinLaws
  import opened Pipeline
  import opened PipelineTheorems

  /** What becomes of one publish call; the last two raise. */
  datatype Reply = Stored | StoredUnanswered | NotStored

  datatype EnqueueError = CommitError | PublishError

  /** How many batches are published before the first one whose call raises. */
  function Published(replies: seq<Reply>): nat {
    if replies == [] || replies[0] != Stored then 0 else 1 + Published(replies[1..])
  }

  /** How many batches the stream holds in the end. */
  function Delivered(replies: seq<Reply>): nat {
    var n := Published(replies);
    if n < |replies| && replies[n] == StoredUnanswered then n + 1 else n
  }

  lemma {:induction false} PublishedIsFirstFailure(replies: seq<Reply>, k: nat)
    requires k <= |replies| && forall i :: 0 <= i < k ==> replies[i] == Stored
    ensures k <= Published(replies) <= |replies|
    ensures k < |replies| && replies[k] != Stored ==> Published(replies) == k
  {
    if k > 0 {
      PublishedIsFirstFailure(replies[1..], k - 1);
    } else {
      PublishedInRange(replies);
    }
  }

  lemma {:induction false} PublishedInRange(replies: seq<Reply>)
    ensures Published(replies) <= |replies|
  {
    if replies != [] {
      PublishedInRange(replies[1..]);
    }
  }

  /** If publish `k` is the first to raise, the stream holds the earlier batches, and that one iff only its reply was lost. */
  lemma DeliveredIs(replies: seq<Reply>, k: nat)
    requires k <= |replies| && forall i :: 0 <= i < k ==> replies[i] == Stored
    requires k < |replies| ==> replies[k] != Stored
    ensures Delivered(replies) == if k < |replies| && replies[k] == StoredUnanswered then k + 1 else k
  {
    PublishedIsFirstFailure(replies, k);
  }

  lemma {:induction false} RequestIs(jobId: JobId, ingest: bool, batches: seq<seq<Feed>>, k: nat)
    requires k < |batches|
    ensures |RequestsFor(jobId, ingest, batches)| == |batches|
    ensures RequestsFor(jobId, ingest, batches)[k] == Request(jobId, ingest, batches[k])
  {
    RequestsCount(jobId, ingest, batches);
    RequestsCount(jobId, ingest, batches[..|batches| - 1]);
    if k < |batches| - 1 {
      RequestIs(jobId, ingest, batches[..|batches| - 1], k);
    }
  }

  lemma {:induction false} RequestsCount(jobId: JobId, ingest: bool, batches: seq<seq<Feed>>)
    ensures |RequestsFor(jobId, ingest, batches)| == |batches|
  {
    if batches != [] {
      RequestsCount(jobId, ingest, batches[..|batches| - 1]);
    }
  }

  function RequestsFor(jobId: JobId, ingest: bool, batches: seq<seq<Feed>>): seq<Request> {
    if batches == [] then []
    else RequestsFor(jobId, ingest, batches[..|batches| - 1]) + [Request(jobId, ingest, batches[|batches| - 1])]
  }

  /** The stream after the first `k` batches of a job. */
  function Sent(before: seq<Request>, jobId: JobId, ingest: bool, batches: seq<seq<Feed>>, k: nat): seq<Request>
    requires k <= |batches|
  {
    before + RequestsFor(jobId, ingest, batches[..k])
  }

  lemma SentNext(before: seq<Request>, jobId: JobId, ingest: bool, batches: seq<seq<Feed>>, k: nat)
    requires k < |batches|
    ensures Sent(before, jobId, ingest, batches, k + 1)
         == Sent(before, jobId, ingest, batches, k) + [Request(jobId, ingest, batches[k..][0])]
    ensures batches[k..] != [] && batches[k..][0] == batches[k] && batches[k..][1..] == batches[k + 1..]
  {
    assert batches[..k + 1][..k] == batches[..k];
  }

  lemma SentIs(before: seq<Request>, jobId: JobId, ingest: bool, batches: seq<seq<Feed>>, n: nat)
    requires n <= |batches|
    ensures |Sent(before, jobId, ingest, batches, n)| == |before| + n
    ensures forall k :: 0 <= k < n ==>
              Sent(before, jobId, ingest, batches, n)[|before| + k] == Request(jobId, ingest, batches[k])
  {
    RequestsCount(jobId, ingest, batches[..n]);
    forall k | 0 <= k < n
      ensures Sent(before, jobId, ingest, batches, n)[|before| + k] == Request(jobId, ingest, batches[k])
    {
      RequestIs(jobId, ingest, batches[..n], k);
    }
  }

  ghost predicate Reaches(w: World, w': World) {
    exists steps :: Run(w, steps, w')
  }

  lemma ReachesStep(w: World, m: World, step: Step)
    requires Reaches(w, m) && Typed(m) && Enabled(m, step)
    ensures Reaches(w, Apply(m, step))
  {
    var steps :| Run(w, steps, m);
    assert Run(Apply(m, step), [step][1..], Apply(m, step));
    RunsCompose(w, steps, m, [step], Apply(m, step));
  }

  /** The world while the publish loop has `rest` left. */
  ghost predicate Publishing(w: World, jobId: JobId, ingest: bool, rest: seq<seq<Feed>>, tables: Tables, requests: seq<Request>) {
    && Typed(w) && w.tables == tables && w.requests == requests
    && jobId in w.publishers && w.publishers[jobId] == Publisher(rest, false, false)
    && jobId in tables.jobs && tables.jobs[jobId].ingest == ingest
  }

  lemma Created(w: World, jobId: JobId, ingest: bool, plan: Plan) returns (w': World)
    requires Typed(w) && Enabled(w, CreateJob(jobId, ingest, plan))
    ensures Reaches(w, w')
    ensures Publishing(w', jobId, ingest, PlannedBatches(plan), InsertJob(w.tables, jobId, ingest, plan.feeds), w.requests)
  {
    assert Run(w, [], w);
    ReachesStep(w, w, CreateJob(jobId, ingest, plan));
    w' := Apply(w, CreateJob(jobId, ingest, plan));
  }

  lemma BatchSent(w0: World, w: World, jobId: JobId, ingest: bool, rest: seq<seq<Feed>>, tables: Tables, requests: seq<Request>)
    returns (w': World)
    requires Reaches(w0, w) && Publishing(w, jobId, ingest, rest, tables, requests) && rest != []
    ensures Reaches(w0, w')
    ensures Publishing(w', jobId, ingest, rest[1..], tables, requests + [Request(jobId, ingest, rest[0])])
  {
    ReachesStep(w0, w, PublishBatch(jobId));
    w' := Apply(w, PublishBatch(jobId));
  }

  /** The world after a publish call raised, before the failure is recorded. */
  ghost predicate Raised(w: World, jobId: JobId, tables: Tables, requests: seq<Request>) {
    && Typed(w) && w.tables == tables && w.requests == requests
    && jobId in w.publishers && w.publishers[jobId].broken && !w.publishers[jobId].marked && jobId in tables.jobs
  }

  lemma PublishRaised(w0: World, w: World, jobId: JobId, ingest: bool, rest: seq<seq<Feed>>, tables: Tables,
                      requests: seq<Request>, stored: bool) returns (w': World)
    requires Reaches(w0, w) && Publishing(w, jobId, ingest, rest, tables, requests) && rest != []
    ensures Reaches(w0, w')
    ensures Raised(w', jobId, tables, requests + if stored then [Request(jobId, ingest, rest[0])] else [])
  {
    var raised := if stored then LoseReply(jobId) else FailPublish(jobId);
    ReachesStep(w0, w, raised);
    w' := Apply(w, raised);
  }

  lemma Marked(w0: World, w: World, jobId: JobId, tables: Tables, requests: seq<Request>) returns (w': World)
    requires Reaches(w0, w) && Raised(w, jobId, tables, requests)
    ensures Reaches(w0, w') && w'.requests == requests && w'.tables == SetStatus(tables, jobId, Failed)
  {
    ReachesStep(w0, w, MarkFailed(jobId));
    w' := Apply(w, MarkFailed(jobId));
  }

  lemma DeliveredInRange(replies: seq<Reply>)
    ensures Published(replies) <= Delivered(replies) <= |replies|
  {
    PublishedInRange(replies);
  }

  class Backend {
    var tables: Tables
    var requests: seq<Request>

    /** The publish loop; it stops at the first call that raises. */
    method PublishBatches(jobId: JobId, ingest: bool, batches: seq<seq<Feed>>, replies: seq<Reply>, ghost w0: World, ghost w: World)
      returns (published: bool, ghost w': World)
      requires |replies| == |batches|
      requires Reaches(w0, w) && Publishing(w, jobId, ingest, batches, tables, requests)
      modifies this`requests
      ensures Reaches(w0, w') && Delivered(replies) <= |batches|
      ensures requests == Sent(old(requests), jobId, ingest, batches, Delivered(replies))
      ensures published <==> Published(replies) == |replies|
      ensures if published then Publishing(w', jobId, ingest, [], tables, requests) else Raised(w', jobId, tables, requests)
    {
      w' := w;
      DeliveredInRange(replies);
      assert batches[0..] == batches;
      for k := 0 to |batches|
        invariant forall i :: 0 <= i < k ==> replies[i] == Stored
        invariant requests == Sent(old(requests), jobId, ingest, batches, k)
        invariant Reaches(w0, w') && Publishing(w', jobId, ingest, batches[k..], tables, requests)
      {
        PublishedIsFirstFailure(replies, k);
        SentNext(old(requests), jobId, ingest, batches, k);
        if replies[k] == Stored {
          w' := BatchSent(w0, w', jobId, ingest, batches[k..], tables, requests);
          requests := requests + [Request(jobId, ingest, batches[k])];
        } else {
          w' := PublishRaised(w0, w', jobId, ingest, batches[k..], tables, requests, replies[k] == StoredUnanswered);
          if replies[k] == StoredUnanswered {
            requests := requests + [Request(jobId, ingest, batches[k])];
          }
          return false, w';
        }
      }
      PublishedIsFirstFailure(replies, |batches|);
      published := true;
    }

    /**
     `replies` tells what each publish call meets; `commits` and `marks` whether the two commits
     succeed.  An unanswered batch may be in the stream although the job is marked failed.
     */
    method EnqueueRssScrapeJob(jobId: JobId, ingest: bool, plan: Plan, commits: bool, replies: seq<Reply>, marks: bool,
                               ghost world: World)
      returns (result: Result<JobStatus, EnqueueError>, ghost world': World)
      requires world.tables == tables && world.requests == requests && Typed(world)
      requires Enabled(world, CreateJob(jobId, ingest, plan))
      requires |replies| == |PlannedBatches(plan)|
      modifies this
      ensures world'.tables == tables && world'.requests == requests && Reaches(world, world')
      ensures !commits ==> result == Err(CommitError) && tables == old(tables) && requests == old(requests)
      ensures commits ==>
                && Delivered(replies) <= |PlannedBatches(plan)|
                && requests == Sent(old(requests), jobId, ingest, PlannedBatches(plan), Delivered(replies))
      ensures commits ==>
                && jobId in tables.jobs && tables.jobs[jobId].ingest == ingest
                && tables.jobs[jobId].feedCount == |plan.feeds|
                && forall f :: (jobId, f) in tables.jobFeeds <==>
                     (jobId, f) in old(tables.jobFeeds) || exists x :: x in plan.feeds && x.feedId == f
      ensures commits ==>
                && |requests| == |old(requests)| + Delivered(replies)
                && forall k :: 0 <= k < Delivered(replies) ==>
                     requests[|old(requests)| + k] == Request(jobId, ingest, PlannedBatches(plan)[k])
      ensures commits && Published(replies) == |replies| ==>
                && result == Ok(if plan.feeds == [] then Completed else Queued)
                && tables == InsertJob(old(tables), jobId, ingest, plan.feeds)
                && tables.jobs[jobId].status == (if |plan.feeds| == 0 then Completed else Queued)
      ensures commits && Published(replies) != |replies| ==>
                var inserted := InsertJob(old(tables), jobId, ingest, plan.feeds);
                && result == Err(PublishError)
                && tables == (if marks then SetStatus(inserted, jobId, Failed) else inserted)
                && tables.jobs[jobId].status == (if marks then Failed else Queued)
    {
      if !commits {
        assert Run(world, [], world);
        return Err(CommitError), world;
      }
      world' := Created(world, jobId, ingest, plan);
      tables := InsertJob(tables, jobId, ingest, plan.feeds);
      var mixed := MixFeedsByCompany(plan.feeds);
      var batches := IterFeedBatches(mixed, plan.batchSize);
      var published;
      published, world' := PublishBatches(jobId, ingest, batches, replies, world, world');
      SentIs(old(requests), jobId, ingest, batches, Delivered(replies));
      if published {
        return Ok(if plan.feeds == [] then Completed else Queued), world';
      }
      if marks {
        world' := Marked(world, world', jobId, tables, requests);
        tables := SetStatus(tables, jobId, Failed);
      }
      result := Err(PublishError);
    }
  }
}
