/** The worker loop of an agent, and its agreement with the worker's steps in the job life cycle. */
module Agent {
  import opened Common
  import opened PGState
  import opened ArtifactStore
  import L = LifeCycle

  datatype RunResult = RunResult(count: int, prefix: string, sha: string, archive: Bytes)

  /** What the outside does to one job: its files, the database download, the query run, and the final upload. */
  datatype Attempt = Attempt(unpacked: bool, fetched: bool, run: Option<RunResult>, uploaded: bool)

  /** What a worker changes: the tables, the bucket, and the results it has sent. */
  datatype Desk = Desk(db: Tables, objects: Objects, sent: seq<AnalyzeResult>)

  predicate Succeeds(objects: Objects, job: AnalyzeJob, a: Attempt) {
    job.queryPackLocation in objects && a.unpacked && a.fetched && a.run.Some? && a.uploaded
  }

  function ResultOf(job: AnalyzeJob, run: RunResult): AnalyzeResult {
    AnalyzeResult(job.spec, Succeeded, run.count, ResultLocation(job.spec), run.prefix, run.sha)
  }

  function FailedResult(job: AnalyzeJob): AnalyzeResult {
    AnalyzeResult(job.spec, Failed, 0, ArtifactLocation("", ""), "", "")
  }

  /** One round of the worker: the status is written before the analysis, the archive saved before the result goes. */
  function Round(d: Desk, job: AnalyzeJob, a: Attempt): Desk {
    var d := d.(db := StoreStatus(d.db, job.spec, InProgress));
    if !Succeeds(d.objects, job, a) then d
    else d.(objects := ObjectSave(d.objects, SaveOp.SaveResult(job.spec, a.run.value.archive)),
            sent := d.sent + [ResultOf(job, a.run.value)])
  }

  function Rounds(d: Desk, work: seq<(AnalyzeJob, Attempt)>): Desk {
    if work == [] then d
    else Round(Rounds(d, work[..|work| - 1]), work[|work| - 1].0, work[|work| - 1].1)
  }

  /** Each result sent has its archive in the bucket, and each job taken is in progress whether it failed or not. */
  lemma {:induction false} RoundsSend(d: Desk, work: seq<(AnalyzeJob, Attempt)>)
    ensures var d' := Rounds(d, work);
            && d.sent <= d'.sent
            && d.objects.Keys <= d'.objects.Keys
            && (forall k :: |d.sent| <= k < |d'.sent| ==>
                  && d'.sent[k].status == Succeeded
                  && d'.sent[k].resultLocation == ResultLocation(d'.sent[k].spec)
                  && d'.sent[k].resultLocation in d'.objects)
            && (forall i :: 0 <= i < |work| ==>
                  work[i].0.spec in d'.db.status && d'.db.status[work[i].0.spec] == InProgress)
  {
    if work != [] {
      var n := |work| - 1;
      RoundsSend(d, work[..n]);
      assert forall i :: 0 <= i < n ==> work[..n][i] == work[i];
    }
  }

  /** The job's pack is in the bucket when its round comes, and none of the stages fails. */
  ghost predicate Passes(d: Desk, work: seq<(AnalyzeJob, Attempt)>, i: nat)
    requires i < |work|
  {
    var job, a := work[i].0, work[i].1;
    && job.queryPackLocation in Rounds(d, work[..i]).objects
    && a.unpacked && a.fetched && a.run.Some? && a.uploaded
  }

  /** Whatever the query found: the archive is saved at the job's location, and one result tells what the run did. */
  lemma PassedJobSends(d: Desk, job: AnalyzeJob, a: Attempt)
    requires job.queryPackLocation in d.objects && a.unpacked && a.fetched && a.run.Some? && a.uploaded
    ensures var run, d' := a.run.value, Round(d, job, a);
            var result := AnalyzeResult(
              job.spec, Succeeded, run.count, ResultLocation(job.spec), run.prefix, run.sha);
            && d'.sent == d.sent + [result]
            && d'.objects == d.objects[ResultLocation(job.spec) := run.archive]
            && d'.db == StoreStatus(d.db, job.spec, InProgress)
  {
  }

  /** With any stage failing, or without its pack, a job leaves its status behind and nothing else. */
  lemma FailedJobSendsNone(d: Desk, job: AnalyzeJob, a: Attempt)
    requires job.queryPackLocation !in d.objects || !a.unpacked || !a.fetched || a.run.None? || !a.uploaded
    ensures Round(d, job, a) == d.(db := StoreStatus(d.db, job.spec, InProgress))
  {
  }

  ghost function Passed(d: Desk, work: seq<(AnalyzeJob, Attempt)>): (passed: seq<bool>)
    ensures |passed| == |work| && forall i :: 0 <= i < |work| ==> passed[i] == Passes(d, work, i)
  {
    seq(|work|, i requires 0 <= i < |work| => Passes(d, work, i))
  }

  /** The true positions among the first n, in order. */
  ghost predicate TrueAt(passed: seq<bool>, n: nat, at: seq<nat>)
    requires n <= |passed|
  {
    && (forall i :: 0 <= i < n && passed[i] ==> i in at)
    && (forall k :: 0 <= k < |at| ==> at[k] < n && passed[at[k]])
    && (forall k, m :: 0 <= k < m < |at| ==> at[k] < at[m])
  }

  lemma TrueNext(passed: seq<bool>, n: nat, at: seq<nat>)
    requires n < |passed| && TrueAt(passed, n, at)
    ensures TrueAt(passed, n + 1, if passed[n] then at + [n] else at)
  {
    if passed[n] {
      var more := at + [n];
      assert more[|at|] == n;
      forall i | 0 <= i < n + 1 && passed[i] ensures i in more {
        assert i < n ==> i in at;
      }
      forall k, m | 0 <= k < m < |more| ensures more[k] < more[m] {
        assert m < |at| ==> at[k] < at[m];
      }
    }
  }

  /** What the desk has sent is what it had sent before, and the results of the jobs at these positions. */
  ghost predicate SentAt(d: Desk, d': Desk, work: seq<(AnalyzeJob, Attempt)>, at: seq<nat>) {
    && |d'.sent| == |d.sent| + |at| && d.sent <= d'.sent
    && forall k :: 0 <= k < |at| ==>
         && at[k] < |work| && work[at[k]].1.run.Some?
         && d'.sent[|d.sent| + k] == ResultOf(work[at[k]].0, work[at[k]].1.run.value)
  }

  lemma SentNext(d: Desk, work: seq<(AnalyzeJob, Attempt)>, n: nat, at: seq<nat>)
    requires n < |work| && SentAt(d, Rounds(d, work[..n]), work, at)
    ensures SentAt(d, Rounds(d, work[..n + 1]), work, if Passes(d, work, n) then at + [n] else at)
  {
    assert work[..n + 1][..n] == work[..n];
    if Passes(d, work, n) {
      PassedJobSends(Rounds(d, work[..n]), work[n].0, work[n].1);
    } else {
      FailedJobSendsNone(Rounds(d, work[..n]), work[n].0, work[n].1);
    }
  }

  lemma {:induction false} SendsUpTo(d: Desk, work: seq<(AnalyzeJob, Attempt)>, n: nat) returns (at: seq<nat>)
    requires n <= |work|
    ensures TrueAt(Passed(d, work), n, at) && SentAt(d, Rounds(d, work[..n]), work, at)
  {
    if n == 0 {
      at := [];
    } else {
      var before := SendsUpTo(d, work, n - 1);
      TrueNext(Passed(d, work), n - 1, before);
      SentNext(d, work, n - 1, before);
      at := if Passed(d, work)[n - 1] then before + [n - 1] else before;
    }
  }

  /** The results sent are one for each job that passes, in the order of the jobs, and none for any other. */
  lemma RoundsSendExactly(d: Desk, work: seq<(AnalyzeJob, Attempt)>) returns (at: seq<nat>)
    ensures TrueAt(Passed(d, work), |work|, at) && SentAt(d, Rounds(d, work), work, at)
  {
    at := SendsUpTo(d, work, |work|);
    assert work[..|work|] == work;
  }

  /** No archive is saved where a pack lies, so a job finds its session's pack whenever it was there at the start. */
  lemma {:induction false} PacksStay(d: Desk, work: seq<(AnalyzeJob, Attempt)>, session: int)
    ensures PackLocation(session) in Rounds(d, work).objects <==> PackLocation(session) in d.objects
    ensures PackLocation(session) in d.objects ==>
              Rounds(d, work).objects[PackLocation(session)] == d.objects[PackLocation(session)]
  {
    if work != [] {
      PacksStay(d, work[..|work| - 1], session);
      PackKeyNeverResultKey(session, work[|work| - 1].0.spec);
    }
  }

  class RunnerAgent {
    const serverState: PGState
    const artifacts: MinIOArtifactStore
    var results: seq<AnalyzeResult>

    constructor (serverState: PGState, artifacts: MinIOArtifactStore)
      ensures this.serverState == serverState && this.artifacts == artifacts && results == []
    {
      this.serverState, this.artifacts, results := serverState, artifacts, [];
    }

    ghost function Data(): Desk
      reads this, serverState, artifacts
    {
      Desk(serverState.Data(), artifacts.objects, results)
    }

    /** A failing job leaves the bucket alone and reports the failure beside a result marked failed. */
    method RunAnalysisJob(job: AnalyzeJob, a: Attempt) returns (result: AnalyzeResult, ok: bool)
      modifies artifacts
      ensures ok <==> Succeeds(old(artifacts.objects), job, a)
      ensures !ok ==> result == FailedResult(job) && artifacts.objects == old(artifacts.objects)
      ensures ok ==> result == ResultOf(job, a.run.value)
      ensures ok ==>
                artifacts.objects
                == ObjectSave(old(artifacts.objects), SaveOp.SaveResult(job.spec, a.run.value.archive))
    {
      result := AnalyzeResult(job.spec, Failed, 0, ArtifactLocation("", ""), "", "");
      var pack := artifacts.GetQueryPack(job.queryPackLocation);
      if pack.None? || !a.unpacked { return result, false; }
      if !a.fetched { return result, false; }
      if a.run.None? { return result, false; }
      if !a.uploaded { return result, false; }
      var location := artifacts.SaveResult(job.spec, a.run.value.archive);
      var run := a.run.value;
      result := AnalyzeResult(job.spec, Succeeded, run.count, location, run.prefix, run.sha);
      ok := true;
    }

    /** `work` lists the jobs the channel yields until the worker is stopped. */
    method RunWorker(work: seq<(AnalyzeJob, Attempt)>)
      modifies this, serverState, artifacts
      ensures Data() == Rounds(old(Data()), work)
    {
      for i := 0 to |work|
        invariant Data() == Rounds(old(Data()), work[..i])
      {
        assert work[..i + 1][..i] == work[..i];
        var job := work[i].0;
        serverState.SetStatus(job.spec, InProgress);
        var result, ok := RunAnalysisJob(job, work[i].1);
        if !ok { continue; }
        results := results + [result];
      }
      assert work[..|work|] == work;
    }
  }

  // ----- The same round as steps of the life cycle

  function RoundEvents(w: nat, job: AnalyzeJob, a: Attempt, ok: bool): seq<L.Event> {
    if ok && a.run.Some?
    then
      var run := a.run.value;
      [L.OfAgent(L.Begin(w)), L.OfAgent(L.Save(w, run.archive, run.count, run.prefix, run.sha))]
    else
      [L.OfAgent(L.Begin(w)), L.OfAgent(L.Fail(w))]
  }

  lemma BeginRuns(s: L.Sys, w: nat, job: AnalyzeJob)
    requires L.IsProc(s, w, L.Worker) && s.procs[w].phase == L.Received(job)
    ensures L.Valid(s, [L.OfAgent(L.Begin(w))])
    ensures var s' := L.After(s, [L.OfAgent(L.Begin(w))]);
            && L.IsProc(s', w, L.Worker) && s'.procs[w].phase == L.Analysing(job)
            && s'.db == StoreStatus(s.db, job.spec, InProgress) && s'.store == s.store
  {
    L.Extend(s, [], L.OfAgent(L.Begin(w)));
    assert [] + [L.OfAgent(L.Begin(w))] == [L.OfAgent(L.Begin(w))];
  }

  /** A worker left alone between taking a job and sending its result does exactly one round of the loop. */
  lemma RoundIsARun(s: L.Sys, w: nat, job: AnalyzeJob, a: Attempt)
    requires L.IsProc(s, w, L.Worker) && s.procs[w].phase == L.Received(job)
    ensures var run := RoundEvents(w, job, a, Succeeds(s.store, job, a));
            var d := Round(Desk(s.db, s.store, []), job, a);
            && L.Valid(s, run)
            && L.After(s, run).db == d.db && L.After(s, run).store == d.objects
            && L.After(s, run).procs[w].phase == if d.sent == [] then L.Idle else L.Sending(d.sent[0])
  {
    var run := RoundEvents(w, job, a, Succeeds(s.store, job, a));
    BeginRuns(s, w, job);
    L.Extend(s, [run[0]], run[1]);
    assert [run[0]] + [run[1]] == run;
  }
}
