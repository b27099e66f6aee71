/**
 The worker's side of the queues: publishing with one retry over a connection that may lose replies,
 and a request message whose feeds are pooled by company, reported, and only then acknowledged.
 */
module WorkerQueue {
  import opened Common
  import opened ScrapeTables
  import opened Scheduling
  import opened Pipeline
  import opened MixByIds

  const MAX_ATTEMPTS: nat := 2

  /** What the network and the server make of one attempt. */
  datatype Attempt =
    | Replied      // stored, and the reply arrived
    | ReplyLost    // stored, but the connection broke before the reply
    | NotSent      // the connection broke before the server stored anything
    | Refused      // the server answered with an error

  /** Copies left in the stream by trying until an answer arrives. */
  function Landed(attempts: seq<Attempt>): nat {
    if attempts == [] then 0
    else match attempts[0]
      case Replied => 1
      case Refused => 0
      case ReplyLost => 1 + Landed(attempts[1..])
      case NotSent => Landed(attempts[1..])
  }

  /** The call returns normally. */
  predicate Succeeds(attempts: seq<Attempt>) {
    attempts != [] && (attempts[0] == Replied || (attempts[0] != Refused && Succeeds(attempts[1..])))
  }

  predicate Answered(attempts: seq<Attempt>) {
    attempts != [] && (attempts[0] == Replied || attempts[0] == Refused || Answered(attempts[1..]))
  }

  /** The possible results of a publish are exactly those the pipeline's publish steps allow. */
  lemma PublishOutcomes(ok: bool, copies: nat)
    ensures (exists attempts :: |attempts| == MAX_ATTEMPTS && Succeeds(attempts) == ok && Landed(attempts) == copies)
       <==> copies <= 2 && (ok ==> 1 <= copies)
  {
    if attempts :| |attempts| == MAX_ATTEMPTS && Succeeds(attempts) == ok && Landed(attempts) == copies {
      assert attempts == [attempts[0], attempts[1]];
      TwoAttempts(attempts[0], attempts[1]);
    }
    if copies <= 2 && (ok ==> 1 <= copies) {
      var attempts := if ok then if copies == 1 then [Replied, Replied] else [ReplyLost, Replied]
                      else if copies == 0 then [Refused, Refused]
                      else if copies == 1 then [ReplyLost, Refused] else [ReplyLost, ReplyLost];
      TwoAttempts(attempts[0], attempts[1]);
      assert |attempts| == MAX_ATTEMPTS && Succeeds(attempts) == ok && Landed(attempts) == copies;
    }
  }

  lemma TwoAttempts(a: Attempt, b: Attempt)
    ensures Succeeds([a, b]) <==> a == Replied || (a != Refused && b == Replied)
    ensures Answered([a, b]) <==> a == Replied || a == Refused || b == Replied || b == Refused
    ensures Landed([a, b]) == (if a == Replied || a == ReplyLost then 1 else 0)
                              + (if (a == ReplyLost || a == NotSent) && (b == Replied || b == ReplyLost) then 1 else 0)
  {
    assert [a, b][1..] == [b] && [b][1..] == [];
    assert Landed([b]) == if b == Replied || b == ReplyLost then 1 else 0;
    assert Succeeds([b]) <==> b == Replied;
    assert Answered([b]) <==> b == Replied || b == Refused;
  }

  // --- A request's feeds ---

  /** Feeds of one company, in request order, for every company. */
  ghost function Pools(feeds: seq<Feed>): seq<seq<Feed>> {
    GroupsOfFeeds(feeds);
    seq(|Groups(feeds)|, p requires 0 <= p < |Groups(feeds)| => Pick(feeds, Groups(feeds)[p]))
  }

  /** Every feed of the request is in exactly one place of exactly one pool. */
  lemma FeedIsInOnePool(feeds: seq<Feed>, i: nat) returns (p: nat, r: nat)
    requires i < |feeds|
    ensures p < |Groups(feeds)| && r < |Groups(feeds)[p]| && Groups(feeds)[p][r] == i
    ensures p < |Pools(feeds)| && r < |Pools(feeds)[p]| && Pools(feeds)[p][r] == feeds[i]
    ensures forall q, t :: 0 <= q < |Groups(feeds)| && 0 <= t < |Groups(feeds)[q]| && Groups(feeds)[q][t] == i ==>
              q == p && t == r
  {
    p := CompanyOfFeed(feeds, i);
    r := Rank(feeds, i);
    RankIsTurn(feeds, i);
    forall q, t | 0 <= q < |Groups(feeds)| && 0 <= t < |Groups(feeds)[q]| && Groups(feeds)[q][t] == i
      ensures q == p && t == r
    {
      OnePlace(feeds, q, t, p);
    }
  }

  lemma OnePlace(feeds: seq<Feed>, q: nat, t: nat, p: nat)
    requires q < |Groups(feeds)| && t < |Groups(feeds)[q]| && Groups(feeds)[q][t] < |feeds|
    requires p < |CompanyOrder(feeds)| && CompanyOrder(feeds)[p] == ResolveCompanyKey(feeds[Groups(feeds)[q][t]])
    ensures q == p && t == Rank(feeds, Groups(feeds)[q][t])
  {
    var key := CompanyOrder(feeds)[q];
    assert Groups(feeds)[q] == Turns(feeds, key);
    TurnHasRank(feeds, key, t);
    if q < p {
      CompaniesAreDistinct(feeds, q, p);
    } else if p < q {
      CompaniesAreDistinct(feeds, p, q);
    }
  }

  /** Two feeds share a pool exactly if they are of the same company. */
  lemma PoolsAreCompanies(feeds: seq<Feed>, i: nat, j: nat)
    requires i < |feeds| && j < |feeds|
    ensures (exists p :: 0 <= p < |Groups(feeds)| && i in Groups(feeds)[p] && j in Groups(feeds)[p])
       <==> SameCompany(feeds[i], feeds[j])
  {
    var p, r := FeedIsInOnePool(feeds, i);
    var q, t := FeedIsInOnePool(feeds, j);
    KeysAreCompanies(feeds[i], feeds[j]);
    assert Groups(feeds)[p] == Turns(feeds, CompanyOrder(feeds)[p]);
    assert Groups(feeds)[q] == Turns(feeds, CompanyOrder(feeds)[q]);
    if p < q {
      CompaniesAreDistinct(feeds, p, q);
    } else if q < p {
      CompaniesAreDistinct(feeds, q, p);
    }
  }

  /** The environment: what fetching a feed yields, and what publishing its result meets. */
  datatype Environment = Environment(fetch: Feed -> Payload, network: Feed -> seq<Attempt>)

  ghost predicate Realistic(env: Environment, feeds: seq<Feed>) {
    forall x :: x in feeds ==> |env.network(x)| == MAX_ATTEMPTS
  }

  function ResultOf(env: Environment, job: Request, feed: Feed): Delivery {
    var outcome := env.fetch(feed).(jobId := job.jobId, feedId := feed.feedId);
    Delivery(StreamFor(job.ingest, outcome.status), outcome)
  }

  /** What the feeds' results leave in the streams, in processing order. */
  function Reports(env: Environment, job: Request, feeds: seq<Feed>): seq<Delivery> {
    if feeds == [] then []
    else
      var n := |feeds| - 1;
      Reports(env, job, feeds[..n]) + Copies(ResultOf(env, job, feeds[n]), Landed(env.network(feeds[n])))
  }

  /**
   A result is of its feed and job; an error is for the error stream, and any other result for the
   ingest stream if the job ingests, else for the check stream.
   */
  predicate IsReport(job: Request, feed: Feed, d: Delivery) {
    && d.payload.jobId == job.jobId && d.payload.feedId == feed.feedId
    && (d.payload.status == Error <==> d.kind == ErrorQueue)
    && (d.payload.status != Error && job.ingest <==> d.kind == IngestQueue)
    && (d.payload.status != Error && !job.ingest <==> d.kind == CheckQueue)
  }

  lemma ResultIsReport(env: Environment, job: Request, feed: Feed)
    ensures IsReport(job, feed, ResultOf(env, job, feed))
    ensures ResultOf(env, job, feed).payload.status == env.fetch(feed).status
  {
  }

  /** Everything the feeds' results leave in the streams is the report of one of them. */
  lemma {:induction false} ReportsAreOfFeeds(env: Environment, job: Request, feeds: seq<Feed>, k: nat)
    requires k < |Reports(env, job, feeds)|
    ensures exists x :: x in feeds && IsReport(job, x, Reports(env, job, feeds)[k])
  {
    var n := |feeds| - 1;
    var before := Reports(env, job, feeds[..n]);
    if k < |before| {
      ReportsAreOfFeeds(env, job, feeds[..n], k);
      var x :| x in feeds[..n] && IsReport(job, x, before[k]);
      assert x in feeds;
    } else {
      ResultIsReport(env, job, feeds[n]);
      assert Reports(env, job, feeds)[k] == ResultOf(env, job, feeds[n]);
      assert feeds[n] in feeds;
    }
  }

  lemma {:induction false} ReportsConcat(env: Environment, job: Request, xs: seq<Feed>, ys: seq<Feed>)
    ensures Reports(env, job, xs + ys) == Reports(env, job, xs) + Reports(env, job, ys)
  {
    if ys == [] {
      assert xs + ys == xs;
    } else {
      var n := |ys| - 1;
      ReportsConcat(env, job, xs, ys[..n]);
      assert (xs + ys)[..|xs + ys| - 1] == xs + ys[..n];
    }
  }

  lemma ReportsNext(env: Environment, job: Request, feeds: seq<Feed>, k: nat)
    requires k < |feeds|
    ensures Reports(env, job, feeds[..k + 1])
         == Reports(env, job, feeds[..k]) + Copies(ResultOf(env, job, feeds[k]), Landed(env.network(feeds[k])))
  {
    assert feeds[..k + 1][..k] == feeds[..k];
  }

  lemma PoolsNext(feeds: seq<Feed>, p: nat)
    requires p < |Pools(feeds)|
    ensures Flatten(Pools(feeds)[..p + 1]) == Flatten(Pools(feeds)[..p]) + Pools(feeds)[p]
  {
    assert Pools(feeds)[..p + 1] == Pools(feeds)[..p] + [Pools(feeds)[p]];
    FlattenAppend(Pools(feeds)[..p], [Pools(feeds)[p]]);
    assert Flatten([Pools(feeds)[p]]) == Pools(feeds)[p] + Flatten<Feed>([]);
  }

  ghost predicate AllSucceed(env: Environment, feeds: seq<Feed>) {
    forall x :: x in feeds ==> Succeeds(env.network(x))
  }

  lemma {:induction false} PooledFeeds(feeds: seq<Feed>, x: Feed)
    ensures x in Flatten(Pools(feeds)) <==> x in feeds
  {
    InFlatten(Pools(feeds), x);
    if x in feeds {
      var i :| 0 <= i < |feeds| && feeds[i] == x;
      var p, r := FeedIsInOnePool(feeds, i);
    }
    if p :| 0 <= p < |Pools(feeds)| && x in Pools(feeds)[p] {
      GroupsOfFeeds(feeds);
    }
  }

  lemma {:induction false} InFlatten<T>(pools: seq<seq<T>>, x: T)
    ensures x in Flatten(pools) <==> exists p :: 0 <= p < |pools| && x in pools[p]
  {
    if pools != [] {
      InFlatten(pools[1..], x);
      assert forall p :: 0 <= p < |pools| - 1 ==> pools[1..][p] == pools[p + 1];
      if p :| 0 <= p < |pools| && x in pools[p] {
        assert p == 0 || pools[1..][p - 1] == pools[p];
      }
    }
  }

  class Worker {
    /** The process-wide client, if one is open. */
    var client: Option<nat>
    var nextClient: nat
    var stream: seq<Delivery>
    var acked: bool

    method GetRedisClient() returns (c: nat)
      modifies this`client, this`nextClient
      ensures client == Some(c)
    {
      if client.None? {
        client := Some(nextClient);
        nextClient := nextClient + 1;
      }
      c := client.value;
    }

    /** One retry with a fresh client after a connection error; any other answer ends the call. */
    method PublishPayload(d: Delivery, attempts: seq<Attempt>) returns (ok: bool)
      requires |attempts| == MAX_ATTEMPTS
      modifies this`client, this`nextClient, this`stream
      ensures stream == old(stream) + Copies(d, Landed(attempts))
      ensures ok == Succeeds(attempts)
      ensures client.Some? <==> Answered(attempts)
    {
      for k := 0 to MAX_ATTEMPTS
        invariant stream + Copies(d, Landed(attempts[k..])) == old(stream) + Copies(d, Landed(attempts))
        invariant Succeeds(attempts[k..]) == Succeeds(attempts)
        invariant Answered(attempts[k..]) == Answered(attempts)
        invariant k > 0 ==> client == None
      {
        var c := GetRedisClient();
        assert attempts[k..][0] == attempts[k] && attempts[k..][1..] == attempts[k + 1..];
        match attempts[k]
        case Replied =>
          stream := stream + [d];
          assert Copies(d, 1) == [d];
          return true;
        case Refused =>
          return false;
        case ReplyLost =>
          assert Copies(d, 1 + Landed(attempts[k + 1..])) == [d] + Copies(d, Landed(attempts[k + 1..]));
          stream := stream + [d];
          client := None;
        case NotSent =>
          client := None;
      }
      ok := false;
    }

    /** All results of one company's pool. */
    method ProcessCompanyFeedPool(env: Environment, job: Request, feeds: seq<Feed>) returns (ok: bool)
      requires Realistic(env, feeds)
      modifies this`client, this`nextClient, this`stream
      ensures stream == old(stream) + Reports(env, job, feeds)
      ensures ok <==> AllSucceed(env, feeds)
    {
      ok := true;
      for k := 0 to |feeds|
        invariant stream == old(stream) + Reports(env, job, feeds[..k])
        invariant ok <==> AllSucceed(env, feeds[..k])
      {
        ReportsNext(env, job, feeds, k);
        assert feeds[..k + 1] == feeds[..k] + [feeds[k]];
        var sent := PublishPayload(ResultOf(env, job, feeds[k]), env.network(feeds[k]));
        ok := ok && sent;
      }
      assert feeds[..|feeds|] == feeds;
    }

    method GroupFeedsByCompany(feeds: seq<Feed>) returns (pools: map<CompanyKey, seq<Feed>>, order: seq<CompanyKey>)
      ensures |order| == |Pools(feeds)|
      ensures forall p :: 0 <= p < |order| ==> order[p] in pools && pools[order[p]] == Pools(feeds)[p]
    {
      pools, order := GroupByCompany(feeds);
      forall p | 0 <= p < |order| ensures order[p] in pools && pools[order[p]] == Pools(feeds)[p] {
        QueueIsPool(feeds, pools, order, p);
      }
    }

    /**
     The message is acknowledged if and only if every feed's result was published; a message that is
     no valid request is acknowledged, too, and reports nothing.
     */
    method ProcessJobMessage(env: Environment, message: Option<Request>)
      requires message.Some? ==> Realistic(env, message.value.feeds)
      requires !acked
      modifies this
      ensures message.None? ==> acked && stream == old(stream)
      ensures message.Some? ==>
                && stream == old(stream) + Reports(env, message.value, Flatten(Pools(message.value.feeds)))
                && (acked <==> AllSucceed(env, message.value.feeds))
      ensures message.Some? ==>
                |old(stream)| <= |stream| && AllReported(message.value, stream[|old(stream)|..])
    {
      if message.None? {
        acked := true;
        return;
      }
      var job := message.value;
      var pools, order := GroupFeedsByCompany(job.feeds);
      var ok := true;
      NoPools(env, job);
      ghost var before := stream;
      for p := 0 to |order|
        invariant stream == before + ReportsUpTo(env, job, p)
        invariant ok <==> SucceedUpTo(env, job, p)
        invariant !acked
      {
        PoolStep(env, job, p, before);
        var done := ProcessCompanyFeedPool(env, job, pools[order[p]]);
        ok := ok && done;
      }
      PoolsEnd(env, job);
      assert stream[|before|..] == Reports(env, job, Flatten(Pools(job.feeds)));
      AllAreReports(env, job);
      if ok {
        acked := true;
      }
    }
  }

  /** Everything that was added is the report of one of the request's feeds. */
  ghost predicate AllReported(job: Request, added: seq<Delivery>) {
    forall k :: 0 <= k < |added| ==> ReportsSome(job, added[k])
  }

  ghost predicate ReportsSome(job: Request, d: Delivery) {
    exists x :: x in job.feeds && IsReport(job, x, d)
  }

  lemma AllAreReports(env: Environment, job: Request)
    ensures AllReported(job, Reports(env, job, Flatten(Pools(job.feeds))))
  {
    var added := Reports(env, job, Flatten(Pools(job.feeds)));
    forall k | 0 <= k < |added| ensures ReportsSome(job, added[k]) {
      ReportsAreOfFeeds(env, job, Flatten(Pools(job.feeds)), k);
      var x :| x in Flatten(Pools(job.feeds)) && IsReport(job, x, added[k]);
      PooledFeeds(job.feeds, x);
    }
  }

  ghost function ReportsUpTo(env: Environment, job: Request, p: nat): seq<Delivery>
    requires p <= |Pools(job.feeds)|
  {
    Reports(env, job, Flatten(Pools(job.feeds)[..p]))
  }

  ghost predicate SucceedUpTo(env: Environment, job: Request, p: nat)
    requires p <= |Pools(job.feeds)|
  {
    AllSucceed(env, Flatten(Pools(job.feeds)[..p]))
  }

  lemma NoPools(env: Environment, job: Request)
    ensures ReportsUpTo(env, job, 0) == [] && SucceedUpTo(env, job, 0)
  {
    assert Pools(job.feeds)[..0] == [];
  }

  lemma PoolStep(env: Environment, job: Request, p: nat, before: seq<Delivery>)
    requires p < |Pools(job.feeds)| && Realistic(env, job.feeds)
    ensures var pool := Pools(job.feeds)[p];
            && Realistic(env, pool)
            && before + ReportsUpTo(env, job, p + 1) == before + ReportsUpTo(env, job, p) + Reports(env, job, pool)
            && (SucceedUpTo(env, job, p + 1) <==> SucceedUpTo(env, job, p) && AllSucceed(env, pool))
  {
    var pools := Pools(job.feeds);
    PoolsNext(job.feeds, p);
    ReportsConcat(env, job, Flatten(pools[..p]), pools[p]);
    PoolIsRealistic(env, job.feeds, p);
    BothSucceed(env, Flatten(pools[..p]), pools[p]);
  }

  lemma BothSucceed(env: Environment, xs: seq<Feed>, ys: seq<Feed>)
    ensures AllSucceed(env, xs + ys) <==> AllSucceed(env, xs) && AllSucceed(env, ys)
  {
    assert forall x :: x in xs || x in ys ==> x in xs + ys;
  }

  lemma PoolIsRealistic(env: Environment, feeds: seq<Feed>, p: nat)
    requires p < |Pools(feeds)| && Realistic(env, feeds)
    ensures Realistic(env, Pools(feeds)[p])
  {
    forall x | x in Pools(feeds)[p] ensures x in feeds {
      InFlatten(Pools(feeds), x);
      PooledFeeds(feeds, x);
    }
  }

  lemma PoolsEnd(env: Environment, job: Request)
    ensures var pools := Pools(job.feeds);
            && ReportsUpTo(env, job, |pools|) == Reports(env, job, Flatten(pools))
            && (SucceedUpTo(env, job, |pools|) <==> AllSucceed(env, job.feeds))
  {
    var feeds := job.feeds;
    assert Pools(feeds)[..|Pools(feeds)|] == Pools(feeds);
    forall x ensures x in Flatten(Pools(feeds)) <==> x in feeds {
      PooledFeeds(feeds, x);
    }
  }

  lemma QueueIsPool(feeds: seq<Feed>, queues: map<CompanyKey, seq<Feed>>, order: seq<CompanyKey>, p: nat)
    requires QueuesHold(feeds, Groups(feeds), order, queues, 0, 0) && p < |order|
    ensures |order| == |Pools(feeds)| && order[p] in queues && queues[order[p]] == Pools(feeds)[p]
  {
    assert QueueHolds(feeds, Groups(feeds), queues[order[p]], p, 0, 0);
    assert Left(Groups(feeds), p, 0, 0) == Groups(feeds)[p];
  }
}
