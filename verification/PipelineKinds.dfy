/** Which stream a result travels in, in every run, and what that means for the stored rows. */
module PipelineKinds {
  import opened Common
  import opened ScrapeTables
  import opened Scheduling
  import opened Pipeline
  import opened PipelineTheorems

  /** An error travels in the error stream; any other result follows its job: ingest or check. */
  predicate FitsJob(kind: QueueKind, status: ResultStatus, ingest: bool) {
    if status == Error then kind == ErrorQueue
    else if ingest then kind == IngestQueue
    else kind == CheckQueue
  }

  ghost predicate RequestsFit(w: World) {
    forall i :: 0 <= i < |w.requests| ==> RequestFits(w.tables, w.requests[i])
  }

  predicate RequestFits(t: Tables, r: Request) {
    r.jobId in t.jobs && r.ingest == t.jobs[r.jobId].ingest
  }

  ghost predicate ResultsFit(w: World) {
    forall k :: 0 <= k < |w.results| ==> ResultFits(w.tables, w.results[k])
  }

  predicate ResultFits(t: Tables, d: Delivery) {
    d.payload.jobId in t.jobs && FitsJob(d.kind, d.payload.status, t.jobs[d.payload.jobId].ingest)
  }

  ghost predicate RowsFit(w: World) {
    forall key :: key in w.tables.results ==> RowFits(w.tables, key)
  }

  predicate RowFits(t: Tables, key: ResultKey)
    requires key in t.results
  {
    key.0 in t.jobs && FitsJob(t.results[key].queueKind, t.results[key].status, t.jobs[key.0].ingest)
  }

  /** No step changes what a job was created for, or drops a job. */
  lemma JobsAreKept(w: World, step: Step, jobId: JobId)
    requires Typed(w) && Enabled(w, step) && jobId in w.tables.jobs
    ensures var t' := Apply(w, step).tables;
            jobId in t'.jobs && t'.jobs[jobId].ingest == w.tables.jobs[jobId].ingest
            && t'.jobs[jobId].feedCount == w.tables.jobs[jobId].feedCount
  {
    if step.PersistResult? {
      PersistOutcome(w.tables, w.results[step.result]);
    }
  }

  lemma RequestsStayFit(w: World, step: Step)
    requires Typed(w) && Enabled(w, step) && RequestsFit(w)
    ensures RequestsFit(Apply(w, step))
  {
    var w' := Apply(w, step);
    forall i | 0 <= i < |w'.requests| ensures RequestFits(w'.tables, w'.requests[i]) {
      if i < |w.requests| {
        assert RequestFits(w.tables, w.requests[i]);
        JobsAreKept(w, step, w.requests[i].jobId);
        RequestIsKept(w, step, i);
      } else {
        NewRequestFits(w, step);
      }
    }
  }

  lemma RequestIsKept(w: World, step: Step, i: nat)
    requires Typed(w) && Enabled(w, step) && i < |w.requests|
    ensures i < |Apply(w, step).requests| && Apply(w, step).requests[i] == w.requests[i]
  {
  }

  lemma NewRequestFits(w: World, step: Step)
    requires Typed(w) && Enabled(w, step)
    ensures |Apply(w, step).requests| <= |w.requests| + 1
    ensures |Apply(w, step).requests| > |w.requests| ==>
              RequestFits(Apply(w, step).tables, Apply(w, step).requests[|w.requests|])
  {
  }

  lemma ResultsStayFit(w: World, step: Step)
    requires Typed(w) && Enabled(w, step) && RequestsFit(w) && ResultsFit(w)
    ensures ResultsFit(Apply(w, step))
  {
    var w' := Apply(w, step);
    forall k | 0 <= k < |w'.results| ensures ResultFits(w'.tables, w'.results[k]) {
      if k < |w.results| {
        assert ResultFits(w.tables, w.results[k]);
        JobsAreKept(w, step, w.results[k].payload.jobId);
        ResultIsKept(w, step, k);
      } else {
        NewResultFits(w, step, k);
      }
    }
  }

  lemma ResultIsKept(w: World, step: Step, k: nat)
    requires Typed(w) && Enabled(w, step) && k < |w.results|
    ensures k < |Apply(w, step).results| && Apply(w, step).results[k] == w.results[k]
  {
  }

  lemma NewResultFits(w: World, step: Step, k: nat)
    requires Typed(w) && Enabled(w, step) && RequestsFit(w) && |w.results| <= k < |Apply(w, step).results|
    ensures ResultFits(Apply(w, step).tables, Apply(w, step).results[k])
  {
    assert step.PublishResult? || step.FailResult?;
    assert RequestFits(w.tables, w.requests[step.request]);
  }

  lemma RowsStayFit(w: World, step: Step)
    requires Typed(w) && Enabled(w, step) && ResultsFit(w) && RowsFit(w)
    ensures RowsFit(Apply(w, step))
  {
    var w' := Apply(w, step);
    forall key | key in w'.tables.results ensures RowFits(w'.tables, key) {
      if key in w.tables.results {
        assert RowFits(w.tables, key);
        JobsAreKept(w, step, key.0);
        RowIsKept(w, step, key);
      } else {
        NewRowFits(w, step, key);
      }
    }
  }

  lemma RowIsKept(w: World, step: Step, key: ResultKey)
    requires Typed(w) && Enabled(w, step) && key in w.tables.results && key in Apply(w, step).tables.results
    ensures Apply(w, step).tables.results[key] == w.tables.results[key]
  {
    if step.PersistResult? {
      PersistOutcome(w.tables, w.results[step.result]);
    }
  }

  lemma NewRowFits(w: World, step: Step, key: ResultKey)
    requires Typed(w) && Enabled(w, step) && ResultsFit(w)
    requires key !in w.tables.results && key in Apply(w, step).tables.results
    ensures RowFits(Apply(w, step).tables, key)
  {
    assert step.PersistResult?;
    assert ResultFits(w.tables, w.results[step.result]);
    PersistOutcome(w.tables, w.results[step.result]);
    JobsAreKept(w, step, key.0);
  }

  lemma {:induction false} RunStaysFit(w: World, steps: seq<Step>, w': World)
    requires Run(w, steps, w') && RequestsFit(w) && ResultsFit(w) && RowsFit(w)
    ensures RequestsFit(w') && ResultsFit(w') && RowsFit(w')
    decreases |steps|
  {
    if steps != [] {
      RequestsStayFit(w, steps[0]);
      ResultsStayFit(w, steps[0]);
      RowsStayFit(w, steps[0]);
      RunStaysFit(Apply(w, steps[0]), steps[1..], w');
    }
  }

  /**
   In every reachable world each request carries the purpose its job was created for, each result is in
   the stream of its status and job, and each stored row names that stream.
   */
  lemma KindsFit(w: World)
    requires Reachable(w)
    ensures RequestsFit(w) && ResultsFit(w) && RowsFit(w)
  {
    var start, steps :| Initial(start) && Run(start, steps, w);
    RunStaysFit(start, steps, w);
  }
}
