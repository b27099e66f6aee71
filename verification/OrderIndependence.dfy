/**
 Redelivery and reordering of result messages: every key takes effect at most once, and the
 result rows, the error counters and the job statuses depend only on which messages arrived.
 */
module OrderIndependence {
  import opened Common
  import opened SourceIngest
  import opened ScrapeTables

  function ConsumeAll(t: Tables, ds: seq<Delivery>): Tables {
    if ds == [] then t else Consume(ConsumeAll(t, ds[..|ds| - 1]), ds[|ds| - 1])
  }

  lemma {:induction false} ConsumeAllKeeps(t: Tables, ds: seq<Delivery>)
    ensures var t' := ConsumeAll(t, ds);
            && t'.feeds == t.feeds && t'.jobs.Keys == t.jobs.Keys && t'.jobFeeds == t.jobFeeds
            && (forall k :: k in t.results ==> k in t'.results && t'.results[k] == t.results[k])
            && (forall j :: j in t.jobs ==> t'.jobs[j].feedCount == t.jobs[j].feedCount)
  {
    if ds != [] {
      ConsumeAllKeeps(t, ds[..|ds| - 1]);
      PersistOutcome(ConsumeAll(t, ds[..|ds| - 1]), ds[|ds| - 1]);
    }
  }

  // --- Exactly-once effect ---

  lemma {:induction false} SettledAfter(t: Tables, ds: seq<Delivery>, i: nat)
    requires i < |ds|
    ensures Consume(ConsumeAll(t, ds), ds[i]) == ConsumeAll(t, ds)
  {
    var n := |ds| - 1;
    var mid := ConsumeAll(t, ds[..n]);
    PersistOutcome(mid, ds[n]);
    PersistOutcome(Consume(mid, ds[n]), ds[i]);
    if i < n {
      SettledAfter(t, ds[..n], i);
      PersistOutcome(mid, ds[i]);
    }
  }

  /**
   In any delivery sequence, at most one delivery of a (job, feed) key changes anything at all:
   rows, scraping state, sources, links or job status.
   */
  lemma EachKeyTakesEffectOnce(t: Tables, ds: seq<Delivery>, i: nat, j: nat)
    requires i < j < |ds| && KeyOf(ds[i]) == KeyOf(ds[j])
    requires Consume(ConsumeAll(t, ds[..i]), ds[i]) != ConsumeAll(t, ds[..i])
    ensures Consume(ConsumeAll(t, ds[..j]), ds[j]) == ConsumeAll(t, ds[..j])
  {
    var pre := ds[..j];
    assert pre[i] == ds[i];
    SettledAfter(t, pre, i);
    PersistOutcome(ConsumeAll(t, pre), ds[i]);
    PersistOutcome(ConsumeAll(t, pre), ds[j]);
    PersistOutcome(ConsumeAll(t, ds[..i]), ds[i]);
    ConsumeAllKeeps(t, pre);
    ConsumeAllKeeps(t, ds[..i]);
  }

  /** For every feed, the counter rises by exactly the number of error rows the run recorded. */
  lemma {:induction false} CountersFollowRows(t: Tables, ds: seq<Delivery>, feedId: FeedId)
    ensures ErrorNbr(ConsumeAll(t, ds), feedId) - |FeedErrors(ConsumeAll(t, ds).results, feedId)|
         == ErrorNbr(t, feedId) - |FeedErrors(t.results, feedId)|
  {
    if ds != [] {
      CountersFollowRows(t, ds[..|ds| - 1], feedId);
      CounterFollowsRows(ConsumeAll(t, ds[..|ds| - 1]), ds[|ds| - 1], feedId);
    }
  }

  // --- Order independence ---

  /** The rows after a run: the old ones, and one row per recordable key, taken from some message. */
  ghost predicate RowsOf(t: Tables, ds: seq<Delivery>, results: map<ResultKey, ResultRow>) {
    && (forall k :: k in results <==> k in t.results || exists d :: d in ds && Records(t, d) && KeyOf(d) == k)
    && (forall k :: k in t.results ==> k in results && results[k] == t.results[k])
    && (forall k :: k in results && k !in t.results ==>
          exists d :: d in ds && KeyOf(d) == k && RowOf(d) == results[k])
  }

  lemma {:induction false} RunRows(t: Tables, ds: seq<Delivery>)
    ensures RowsOf(t, ds, ConsumeAll(t, ds).results)
  {
    if ds != [] {
      var n := |ds| - 1;
      RunRows(t, ds[..n]);
      ConsumeAllKeeps(t, ds[..n]);
      var mid, d := ConsumeAll(t, ds[..n]), ds[n];
      PersistOutcome(mid, d);
      var end := Consume(mid, d).results;
      assert forall x :: x in ds <==> x in ds[..n] || x == d;
      forall k ensures k in end <==> k in t.results || exists x :: x in ds && Records(t, x) && KeyOf(x) == k {
        assert k in mid.results <==> k in t.results || exists x :: x in ds[..n] && Records(t, x) && KeyOf(x) == k;
        if k == KeyOf(d) && Records(t, d) { assert k in end; }
      }
    }
  }

  /** A job's row after a run, as a function of the tables before and the result rows after. */
  ghost predicate JobFollowsRows(t: Tables, t': Tables, jobId: JobId)
    requires jobId in t.jobs && jobId in t'.jobs
  {
    t'.jobs[jobId] == if JobResults(t'.results, jobId) == JobResults(t.results, jobId) then t.jobs[jobId]
                      else t.jobs[jobId].(status := RefreshedStatus(t', jobId))
  }

  lemma JobFollowsStep(t: Tables, mid: Tables, d: Delivery, jobId: JobId)
    requires jobId in t.jobs && jobId in mid.jobs && mid.jobs[jobId].feedCount == t.jobs[jobId].feedCount
    requires JobResults(t.results, jobId) <= JobResults(mid.results, jobId)
    requires JobFollowsRows(t, mid, jobId)
    ensures jobId in Consume(mid, d).jobs && JobFollowsRows(t, Consume(mid, d), jobId)
  {
    PersistOutcome(mid, d);
    if Records(mid, d) {
      AggregatesAfterInsert(mid.results, KeyOf(d), RowOf(d));
      var end := Consume(mid, d);
      if d.payload.jobId == jobId {
        assert KeyOf(d) !in JobResults(t.results, jobId);
        assert KeyOf(d) in JobResults(end.results, jobId);
      } else {
        assert JobResults(end.results, jobId) == JobResults(mid.results, jobId);
        assert JobResultsWith(end.results, jobId, Error) == JobResultsWith(mid.results, jobId, Error);
      }
    }
  }

  lemma {:induction false} RunJob(t: Tables, ds: seq<Delivery>, jobId: JobId)
    requires jobId in t.jobs
    ensures jobId in ConsumeAll(t, ds).jobs && JobFollowsRows(t, ConsumeAll(t, ds), jobId)
  {
    if ds != [] {
      var pre := ds[..|ds| - 1];
      RunJob(t, pre, jobId);
      ConsumeAllKeeps(t, pre);
      JobFollowsStep(t, ConsumeAll(t, pre), ds[|ds| - 1], jobId);
    }
  }

  lemma RowsAreDetermined(t: Tables, xs: seq<Delivery>, ys: seq<Delivery>,
                          a: map<ResultKey, ResultRow>, b: map<ResultKey, ResultRow>)
    requires forall d :: d in xs <==> d in ys
    requires forall d, e :: d in xs && e in xs && KeyOf(d) == KeyOf(e) ==> RowOf(d) == RowOf(e)
    requires RowsOf(t, xs, a) && RowsOf(t, ys, b)
    ensures a == b
  {
    forall k | k in a ensures k in b && a[k] == b[k] {
      if k !in t.results {
        var d :| d in xs && KeyOf(d) == k && RowOf(d) == a[k];
        var e :| e in ys && KeyOf(e) == k && RowOf(e) == b[k];
      }
    }
    assert a.Keys == b.Keys;
  }

  /**
   Two runs that deliver the same set of messages, in any order and with any repetition, end with
   the same result rows, error counters and job rows, provided messages with equal keys would
   record equal rows.
   */
  lemma DeliveryOrderIsIrrelevant(t: Tables, xs: seq<Delivery>, ys: seq<Delivery>)
    requires forall d :: d in xs <==> d in ys
    requires forall d, e :: d in xs && e in xs && KeyOf(d) == KeyOf(e) ==> RowOf(d) == RowOf(e)
    ensures ConsumeAll(t, xs).results == ConsumeAll(t, ys).results
    ensures ConsumeAll(t, xs).jobs == ConsumeAll(t, ys).jobs
    ensures forall f :: ErrorNbr(ConsumeAll(t, xs), f) == ErrorNbr(ConsumeAll(t, ys), f)
  {
    RunRows(t, xs);
    RunRows(t, ys);
    RowsAreDetermined(t, xs, ys, ConsumeAll(t, xs).results, ConsumeAll(t, ys).results);
    ConsumeAllKeeps(t, xs);
    ConsumeAllKeeps(t, ys);
    forall j | j in t.jobs ensures ConsumeAll(t, xs).jobs[j] == ConsumeAll(t, ys).jobs[j] {
      RunJob(t, xs, j);
      RunJob(t, ys, j);
    }
    forall f ensures ErrorNbr(ConsumeAll(t, xs), f) == ErrorNbr(ConsumeAll(t, ys), f) {
      CountersFollowRows(t, xs, f);
      CountersFollowRows(t, ys, f);
    }
  }

  // --- The scraping state a run leaves ---

  /** The first message of a key that can be recorded. */
  ghost predicate TakesEffect(t: Tables, ds: seq<Delivery>, i: nat) {
    && i < |ds| && Records(t, ds[i])
    && forall j :: 0 <= j < i ==> KeyOf(ds[j]) != KeyOf(ds[i])
  }

  /** The payloads that take effect on a feed among the first `n` messages, in delivery order. */
  ghost function Effective(t: Tables, ds: seq<Delivery>, n: nat, feedId: FeedId): seq<Payload>
    requires n <= |ds|
  {
    if n == 0 then []
    else
      Effective(t, ds, n - 1, feedId)
      + if TakesEffect(t, ds, n - 1) && ds[n - 1].payload.feedId == feedId then [ds[n - 1].payload] else []
  }

  /** The last value that was given, or the prior one when none was. */
  ghost predicate LastGiven<T>(values: seq<Option<T>>, prior: Option<T>, result: Option<T>) {
    if forall k :: 0 <= k < |values| ==> values[k].None? then result == prior
    else exists k :: 0 <= k < |values| && values[k].Some? && result == values[k]
                     && forall j :: k < j < |values| ==> values[j].None?
  }

  function Etags(ps: seq<Payload>): seq<Option<string>> {
    seq(|ps|, k requires 0 <= k < |ps| => ps[k].newEtag)
  }

  function Updates(ps: seq<Payload>): seq<Option<Instant>> {
    seq(|ps|, k requires 0 <= k < |ps| => ps[k].newLastUpdate)
  }

  /** Protection and error text of the last payload, etag and last update as last given. */
  ghost predicate Reflects(prior: Option<Scraping>, ps: seq<Payload>, state: Option<Scraping>) {
    if ps == [] then state == prior
    else
      var last := ps[|ps| - 1];
      && state.Some?
      && state.value.fetchprotection == last.fetchprotection
      && state.value.errorMsg == (if last.status == Error then last.errorMessage else None)
      && LastGiven(Etags(ps), if prior.Some? then prior.value.etag else None, state.value.etag)
      && LastGiven(Updates(ps), if prior.Some? then prior.value.lastUpdate else None, state.value.lastUpdate)
  }

  lemma LastGivenNext<T>(values: seq<Option<T>>, prior: Option<T>, result: Option<T>, value: Option<T>)
    requires LastGiven(values, prior, result)
    ensures LastGiven(values + [value], prior, value.Coalesce(result))
  {
    var longer := values + [value];
    assert longer[|values|] == value;
    if value.None? && !(forall k :: 0 <= k < |values| ==> values[k].None?) {
      var k :| 0 <= k < |values| && values[k].Some? && result == values[k]
               && forall j :: k < j < |values| ==> values[j].None?;
      assert longer[k].Some? && result == longer[k];
    }
  }

  lemma ReflectsNext(prior: Option<Scraping>, ps: seq<Payload>, state: Option<Scraping>, p: Payload)
    requires Reflects(prior, ps, state)
    ensures Reflects(prior, ps + [p], Some(NextScraping(state, p)))
  {
    var etag := if state.Some? then state.value.etag else None;
    var update := if state.Some? then state.value.lastUpdate else None;
    assert Etags(ps + [p]) == Etags(ps) + [p.newEtag];
    assert Updates(ps + [p]) == Updates(ps) + [p.newLastUpdate];
    LastGivenNext(Etags(ps), if prior.Some? then prior.value.etag else None, etag, p.newEtag);
    LastGivenNext(Updates(ps), if prior.Some? then prior.value.lastUpdate else None, update, p.newLastUpdate);
  }

  /** What a delivery records in the middle of a run is decided by the start and the earlier keys. */
  lemma RecordsIffFirst(t: Tables, ds: seq<Delivery>, i: nat)
    requires i < |ds|
    ensures Records(ConsumeAll(t, ds[..i]), ds[i]) <==> TakesEffect(t, ds, i)
  {
    var mid := ConsumeAll(t, ds[..i]);
    RunRows(t, ds[..i]);
    ConsumeAllKeeps(t, ds[..i]);
    assert forall j :: 0 <= j < i ==> ds[..i][j] == ds[j] && ds[j] in ds[..i];
    assert KeyOf(ds[i]) in mid.results <==>
           KeyOf(ds[i]) in t.results || exists d :: d in ds[..i] && Records(t, d) && KeyOf(d) == KeyOf(ds[i]);
    assert forall j :: 0 <= j < i && KeyOf(ds[j]) == KeyOf(ds[i]) ==> Records(t, ds[j]) == Records(t, ds[i]);
  }

  /** A feed's scraping state after a run reflects the payloads that took effect, the last writer winning. */
  lemma {:induction false} ScrapingReflectsRun(t: Tables, ds: seq<Delivery>, n: nat, feedId: FeedId)
    requires n <= |ds|
    ensures Reflects(ScrapingOf(t, feedId), Effective(t, ds, n, feedId), ScrapingOf(ConsumeAll(t, ds[..n]), feedId))
  {
    if n > 0 {
      var mid, d := ConsumeAll(t, ds[..n - 1]), ds[n - 1];
      ScrapingReflectsRun(t, ds, n - 1, feedId);
      assert ds[..n][..n - 1] == ds[..n - 1];
      assert ConsumeAll(t, ds[..n]) == Consume(mid, d);
      RecordsIffFirst(t, ds, n - 1);
      ScrapingStep(mid, d, feedId);
      var before := Effective(t, ds, n - 1, feedId);
      assert before + [] == before;
      ReflectsNext(ScrapingOf(t, feedId), before, ScrapingOf(mid, feedId), d.payload);
    }
  }

  lemma ScrapingStep(t: Tables, d: Delivery, feedId: FeedId)
    ensures ScrapingOf(Consume(t, d), feedId)
         == if Records(t, d) && d.payload.feedId == feedId then Some(NextScraping(ScrapingOf(t, feedId), d.payload))
            else ScrapingOf(t, feedId)
  {
    PersistOutcome(t, d);
  }
}
