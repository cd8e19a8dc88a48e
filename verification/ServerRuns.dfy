/** The handlers' methods are runs of the job life cycle in which nothing else moves, and what they promise lasts. */
module ServerRuns {
  import opened Common
  import opened PGState
  import opened ArtifactStore
  import opened LifeCycle
  import Safety = LifeCycleSafety
  import A = LifeCycleAnswers
  import T = LifeCycleTheorems
  import Server
  import JobSpecToken
  import opened Sums

  // ----- The submission loop

  /** The steps for one repository, the queue taking the job as soon as it is sent. */
  function OneEvents(h: nat): seq<Event> {
    [OfServer(SendJob(h)), OfServer(PublishJob), OfServer(MarkPending(h)),
     OfServer(OpenJob(h)), OfServer(NumberJob(h)), OfServer(ListJob(h))]
  }

  /** The steps that put a job on the queue and begin its transaction, and those that file it. */
  function QueueEvents(h: nat): seq<Event> {
    [OfServer(SendJob(h)), OfServer(PublishJob)] + [OfServer(MarkPending(h)), OfServer(OpenJob(h))]
  }

  function FileEvents(h: nat): seq<Event> {
    [OfServer(NumberJob(h)), OfServer(ListJob(h))]
  }

  lemma OneInTwoParts(run: seq<Event>, h: nat)
    ensures run + OneEvents(h) == (run + QueueEvents(h)) + FileEvents(h)
  {
  }

  function LoopEvents(h: nat, k: nat): seq<Event> {
    if k == 0 then [] else LoopEvents(h, k - 1) + OneEvents(h)
  }

  function JobMsgs(jobs: seq<AnalyzeJob>): multiset<JobMsg> {
    if jobs == [] then multiset{} else JobMsgs(jobs[..|jobs| - 1]) + multiset{Good(jobs[|jobs| - 1])}
  }

  /** The others leave the two connections that adding a job takes. */
  ghost predicate Room(s: Sys, h: nat) {
    h < |s.handlers| && InUse(s) - Connections(s.handlers[h]) + 2 <= MAX_CONNS
  }

  ghost predicate AtStart(s: Sys, h: nat, hd: Handler, at: nat) {
    && hd.Submitting? && at <= |hd.repos| && s.outbox == None
    && Room(s, h) && s.handlers[h] == hd.(at := at, mark := ToSend)
  }

  /** One step of the handler: the tables become `db`, and the handler stands at the next mark. */
  ghost predicate Moved(s: Sys, e: ServerEvent, h: nat, next: Handler, db: Tables, more: multiset<JobMsg>) {
    && ServerEnabled(s, e)
    && var s' := ServerApply(s, e);
       Room(s', h) && s'.handlers[h] == next && s'.db == db && s'.tasks == s.tasks + more
  }

  ghost predicate Stands(s: Sys, h: nat, hd: Handler, at: nat, mark: Mark) {
    hd.Submitting? && at < |hd.repos| && Room(s, h) && s.handlers[h] == hd.(at := at, mark := mark)
  }

  lemma SendMoves(s: Sys, h: nat, hd: Handler, at: nat)
    requires Stands(s, h, hd, at, ToSend) && s.outbox == None
    ensures Moved(s, SendJob(h), h, hd.(at := at, mark := ToMark), s.db, multiset{})
    ensures ServerApply(s, SendJob(h)).outbox == Some(Server.JobOf(h + 1, hd.pack, hd.language, hd.repos[at]))
  {
    SumSet(s.handlers, h, s.handlers[h].(mark := ToMark), Connections);
  }

  lemma PublishMoves(s: Sys, h: nat, hd: Handler, at: nat)
    requires Stands(s, h, hd, at, ToMark) && s.outbox.Some?
    ensures Moved(s, PublishJob, h, hd.(at := at, mark := ToMark), s.db, multiset{Good(s.outbox.value)})
    ensures ServerApply(s, PublishJob).outbox == None
  {
  }

  lemma MarkMoves(s: Sys, h: nat, hd: Handler, at: nat)
    requires Stands(s, h, hd, at, ToMark) && s.outbox == None
    ensures Moved(s, MarkPending(h), h, hd.(at := at, mark := ToBegin),
                  StoreStatus(s.db, JobSpec(h + 1, hd.repos[at]), Pending), multiset{})
    ensures ServerApply(s, MarkPending(h)).outbox == None
  {
    SumSet(s.handlers, h, s.handlers[h].(mark := ToBegin), Connections);
  }

  lemma BeginMoves(s: Sys, h: nat, hd: Handler, at: nat)
    requires Stands(s, h, hd, at, ToBegin) && s.outbox == None
    ensures Moved(s, OpenJob(h), h, hd.(at := at, mark := ToNumber), s.db, multiset{})
    ensures ServerApply(s, OpenJob(h)).outbox == None
  {
    SumSet(s.handlers, h, s.handlers[h].(mark := ToNumber), Connections);
  }

  lemma NumberMoves(s: Sys, h: nat, hd: Handler, at: nat)
    requires Stands(s, h, hd, at, ToNumber) && s.outbox == None
    ensures Moved(s, NumberJob(h), h, hd.(at := at, mark := ToList), NumberRepo(s.db, hd.repos[at]), multiset{})
    ensures ServerApply(s, NumberJob(h)).outbox == None
  {
    SumSet(s.handlers, h, s.handlers[h].(mark := ToList), Connections);
  }

  lemma ListMoves(s: Sys, h: nat, hd: Handler, at: nat)
    requires Stands(s, h, hd, at, ToList) && s.outbox == None
    ensures Moved(s, ListJob(h), h, hd.(at := at + 1, mark := ToSend),
                  InsertJob(s.db, Server.JobOf(h + 1, hd.pack, hd.language, hd.repos[at])), multiset{})
    ensures ServerApply(s, ListJob(h)).outbox == None
  {
    SumSet(s.handlers, h, s.handlers[h].(at := at + 1, mark := ToSend), Connections);
  }

  lemma QueueOne(s: Sys, run: seq<Event>, s0: Sys, h: nat, hd: Handler, at: nat) returns (run': seq<Event>, s': Sys)
    requires Reaches(s, run, s0) && Stands(s0, h, hd, at, ToSend) && s0.outbox == None
    ensures run' == run + [OfServer(SendJob(h)), OfServer(PublishJob)] && Reaches(s, run', s')
    ensures Stands(s', h, hd, at, ToMark) && s'.outbox == None && s'.db == s0.db
    ensures s'.tasks == s0.tasks + multiset{Good(Server.JobOf(h + 1, hd.pack, hd.language, hd.repos[at]))}
  {
    SendMoves(s0, h, hd, at);
    run', s' := Then(s, run, s0, OfServer(SendJob(h)));
    PublishMoves(s', h, hd, at);
    run', s' := Then(s, run', s', OfServer(PublishJob));
  }

  lemma MarkOne(s: Sys, run: seq<Event>, s0: Sys, h: nat, hd: Handler, at: nat) returns (run': seq<Event>, s': Sys)
    requires Reaches(s, run, s0) && Stands(s0, h, hd, at, ToMark) && s0.outbox == None
    ensures run' == run + [OfServer(MarkPending(h)), OfServer(OpenJob(h))] && Reaches(s, run', s')
    ensures Stands(s', h, hd, at, ToNumber) && s'.outbox == None && s'.tasks == s0.tasks
    ensures s'.db == StoreStatus(s0.db, JobSpec(h + 1, hd.repos[at]), Pending)
  {
    MarkMoves(s0, h, hd, at);
    run', s' := Then(s, run, s0, OfServer(MarkPending(h)));
    BeginMoves(s', h, hd, at);
    run', s' := Then(s, run', s', OfServer(OpenJob(h)));
  }

  lemma ListOne(s: Sys, run: seq<Event>, s0: Sys, h: nat, hd: Handler, at: nat) returns (run': seq<Event>, s': Sys)
    requires Reaches(s, run, s0) && Stands(s0, h, hd, at, ToNumber) && s0.outbox == None
    ensures run' == run + FileEvents(h)
    ensures Reaches(s, run', s') && AtStart(s', h, hd, at + 1) && s'.tasks == s0.tasks
    ensures s'.db
         == InsertJob(NumberRepo(s0.db, hd.repos[at]), Server.JobOf(h + 1, hd.pack, hd.language, hd.repos[at]))
  {
    NumberMoves(s0, h, hd, at);
    run', s' := Then(s, run, s0, OfServer(NumberJob(h)));
    ListMoves(s', h, hd, at);
    run', s' := Then(s, run', s', OfServer(ListJob(h)));
  }

  lemma QueueAndMark(s: Sys, run: seq<Event>, s0: Sys, h: nat, hd: Handler, at: nat)
    returns (run': seq<Event>, s': Sys)
    requires Reaches(s, run, s0) && Stands(s0, h, hd, at, ToSend) && s0.outbox == None
    ensures run' == run + QueueEvents(h) && Reaches(s, run', s')
    ensures Stands(s', h, hd, at, ToNumber) && s'.outbox == None
    ensures s'.db == StoreStatus(s0.db, JobSpec(h + 1, hd.repos[at]), Pending)
    ensures s'.tasks == s0.tasks + multiset{Good(Server.JobOf(h + 1, hd.pack, hd.language, hd.repos[at]))}
  {
    var sent, s1 := QueueOne(s, run, s0, h, hd, at);
    run', s' := MarkOne(s, sent, s1, h, hd, at);
  }

  /** Marking, numbering and inserting a job is what the loop of StartAnalyses does to the tables for it. */
  lemma StepsStartOne(db: Tables, job: AnalyzeJob)
    ensures InsertJob(NumberRepo(StoreStatus(db, job.spec, Pending), job.spec.nwo), job) == Server.StartOne(db, job)
  {
  }

  /** One repository: the job is on the queue, and its three rows are in the tables. */
  lemma OneRepository(s: Sys, run: seq<Event>, s0: Sys, h: nat, hd: Handler, at: nat)
    returns (run': seq<Event>, s': Sys)
    requires Reaches(s, run, s0) && AtStart(s0, h, hd, at) && at < |hd.repos|
    ensures run' == run + OneEvents(h) && Reaches(s, run', s') && AtStart(s', h, hd, at + 1)
    ensures var job := Server.JobOf(h + 1, hd.pack, hd.language, hd.repos[at]);
            s'.db == Server.StartOne(s0.db, job) && s'.tasks == s0.tasks + multiset{Good(job)}
  {
    var marked, s1 := QueueAndMark(s, run, s0, h, hd, at);
    run', s' := ListOne(s, marked, s1, h, hd, at);
    OneInTwoParts(run, h);
    StepsStartOne(s0.db, Server.JobOf(h + 1, hd.pack, hd.language, hd.repos[at]));
  }

  /** The tables and the queue once the first k repositories of a request have been submitted. */
  ghost predicate Submitted(s: Sys, s': Sys, h: nat, hd: Handler, k: nat)
    requires hd.Submitting? && k <= |hd.repos|
  {
    var jobs := Server.JobsOf(h + 1, hd.pack, hd.language, hd.repos[..k]);
    s'.db == Server.Started(s.db, jobs) && s'.tasks == s.tasks + JobMsgs(jobs)
  }

  lemma SubmittedNext(s: Sys, s0: Sys, s': Sys, h: nat, hd: Handler, k: nat)
    requires hd.Submitting? && k < |hd.repos| && Submitted(s, s0, h, hd, k)
    requires var job := Server.JobOf(h + 1, hd.pack, hd.language, hd.repos[k]);
             s'.db == Server.StartOne(s0.db, job) && s'.tasks == s0.tasks + multiset{Good(job)}
    ensures Submitted(s, s', h, hd, k + 1)
  {
    var jobs := Server.JobsOf(h + 1, hd.pack, hd.language, hd.repos[..k + 1]);
    assert jobs[..k] == Server.JobsOf(h + 1, hd.pack, hd.language, hd.repos[..k]);
  }

  /**
   * Left alone, and with two connections free, a handler's steps put on the queue and into the tables what the loop of
   * StartAnalyses does.
   */
  lemma {:induction false} SubmissionIsARun(s: Sys, h: nat, hd: Handler, k: nat) returns (s': Sys)
    requires AtStart(s, h, hd, 0) && k <= |hd.repos|
    ensures Reaches(s, LoopEvents(h, k), s') && AtStart(s', h, hd, k) && Submitted(s, s', h, hd, k)
  {
    if k == 0 {
      s' := s;
    } else {
      var s0 := SubmissionIsARun(s, h, hd, k - 1);
      var run: seq<Event>;
      run, s' := OneRepository(s, LoopEvents(h, k - 1), s0, h, hd, k - 1);
      SubmittedNext(s, s0, s', h, hd, k - 1);
    }
  }

  /** Left alone, the recorder's two steps after a hand-over write what one round of ConsumeResults does. */
  lemma RecordingIsARun(s: Sys, r: AnalyzeResult)
    requires s.recorder == Got(r) && Free(s)
    ensures var run := [OfServer(RecordResult), OfServer(RecordStatus)];
            Valid(s, run) && After(s, run).db == Server.RecordOne(s.db, r) && After(s, run).recorder == Waiting
  {
    Extend(s, [], OfServer(RecordResult));
    assert [] + [OfServer(RecordResult)] == [OfServer(RecordResult)];
    Extend(s, [OfServer(RecordResult)], OfServer(RecordStatus));
    assert [OfServer(RecordResult)] + [OfServer(RecordStatus)] == [OfServer(RecordResult), OfServer(RecordStatus)];
  }

  // ----- Promises

  /** In every reachable state an answered session can be answered again, whatever else is going on. */
  lemma AnsweredCanBeAnswered(procs: seq<Proc>, run: seq<Event>, session: int)
    requires AllIdle(procs) && Valid(Init(procs), run) && IsAnswered(After(Init(procs), run), session)
    ensures Server.CanAnswer(After(Init(procs), run).db, After(Init(procs), run).store, session)
  {
    var s := After(Init(procs), run);
    Safety.RunKeeps(procs, run);
    forall js | js in Rows(s.db, session) ensures js in s.db.info && !Server.RowFails(s.db, s.store, js) {
      Safety.AnsweredHasInfo(s, js);
      assert Safety.RowOk(s, js);
    }
  }

  /** What looks at a job in a single state find. */
  ghost function SightsNow(s: Sys, js: JobSpec, id: int): set<A.Sight> {
    {A.StatusSight(s, js, StatusOfListed), A.ResultSight(s, js), A.IdSeen(js.nwo, id)}
    + (if js in s.db.results then {A.DataSight(s, s.db.results[js].resultLocation)} else {})
  }

  /** The row a handler shows when left alone is the one that a request's separate looks make up. */
  lemma ShownRowIsSeen(s: Sys, ids: map<NameWithOwner, int>, row: Row)
    requires row.js.nwo in ids
    ensures Server.RowShows(s.db, s.store, ids, row) <==> A.RowSeen(SightsNow(s, row.js, ids[row.js.nwo]), row)
  {
    var seen, js := SightsNow(s, row.js, ids[row.js.nwo]), row.js;
    if Server.RowShows(s.db, s.store, ids, row) && row.status == Succeeded {
      var r := s.db.results[js];
      assert A.ResultSeen(js, r) in seen && A.DataSeen(r.resultLocation, s.store[r.resultLocation]) in seen;
    }
  }

  ghost predicate Keeps(s: Sys, s': Sys) {
    s.db.results.Keys <= s'.db.results.Keys && s.store.Keys <= s'.store.Keys
  }

  lemma StepKeepsResults(s: Sys, e: Event)
    requires Enabled(s, e) && Safety.Inv(s)
    ensures Keeps(s, Apply(s, e))
  {
    Safety.StepKeeps(s, e);
  }

  lemma LastStepKeeps(procs: seq<Proc>, run: seq<Event>)
    requires AllIdle(procs) && Valid(Init(procs), run) && run != []
    ensures Keeps(After(Init(procs), run[..|run| - 1]), After(Init(procs), run))
  {
    Safety.RunKeeps(procs, run[..|run| - 1]);
    StepKeepsResults(After(Init(procs), run[..|run| - 1]), run[|run| - 1]);
  }

  lemma {:induction false} RunGrows(procs: seq<Proc>, run: seq<Event>, i: nat)
    requires AllIdle(procs) && Valid(Init(procs), run) && i <= |run| && Valid(Init(procs), run[..i])
    ensures Keeps(After(Init(procs), run[..i]), After(Init(procs), run))
  {
    if i == |run| {
      assert run[..i] == run;
    } else {
      var n := |run| - 1;
      assert run[..n][..i] == run[..i];
      RunGrows(procs, run[..n], i);
      LastStepKeeps(procs, run);
    }
  }

  // ----- Downloads

  /** A link that tells what the recorded result of the job says, and leads to the data whose size it tells. */
  ghost predicate LinkOk(s: Sys, js: JobSpec, answer: Server.DownloadOutcome)
    requires answer.Ready?
  {
    && T.Downloadable(s, js)
    && answer.count == s.db.results[js].resultCount
    && answer.sha == s.db.results[js].databaseSha
    && answer.prefix == s.db.results[js].sourceLocationPrefix
    && answer.size == |s.store[ResultLocation(js)]|
    && (JobSpecToken.InRange(js.sessionId) ==>
          && JobSpecToken.DecodeJobSpec(answer.token) == Some(js)
          && Server.Served(s.db, s.store, answer.token) == Some(s.store[ResultLocation(js)]))
  }

  /** The answer tells the status of the job; where that is Succeeded, it is a link to its data. */
  ghost predicate AnswersByStatus(s: Sys, js: JobSpec, answer: Server.DownloadOutcome) {
    match answer
    case DownloadFailed(lookup) => lookup == StatusForDownload && js !in s.db.status
    case NotReady(status) => js in s.db.status && status == s.db.status[js] && status != Succeeded
    case Ready(_, _, _, _, _) => js in s.db.status && s.db.status[js] == Succeeded && LinkOk(s, js, answer)
  }

  lemma ReadyIsLink(s: Sys, js: JobSpec)
    requires T.Downloadable(s, js)
    ensures LinkOk(s, js, Server.ReadyFor(js, s.db.results[js], s.store[ResultLocation(js)]))
  {
    if JobSpecToken.InRange(js.sessionId) {
      JobSpecToken.TokenRoundTrip(js);
    }
  }

  /** In a reachable state a download request is answered by the status alone: nothing is missing behind it. */
  lemma AnnouncedExactly(procs: seq<Proc>, run: seq<Event>, js: JobSpec)
    requires AllIdle(procs) && Valid(Init(procs), run)
    ensures var s := After(Init(procs), run); AnswersByStatus(s, js, Server.Announced(s.db, s.store, js))
  {
    var s := After(Init(procs), run);
    Safety.RunKeeps(procs, run);
    if js in s.db.results {
      T.ResultIsDownloadable(s, js);
      ReadyIsLink(s, js);
    }
  }

  lemma ServedIsDownloadable(s: Sys, js: JobSpec)
    requires JobSpecToken.InRange(js.sessionId) && T.Downloadable(s, js)
    ensures Server.Served(s.db, s.store, JobSpecToken.EncodeJobSpec(js)) == LastSaved(s.past.saves, ResultLocation(js))
  {
    JobSpecToken.TokenRoundTrip(js);
  }

  /**
   * In a reachable state the token of a job with a result leads to the last data saved at its location: for that very
   * job, unless another prints alike.
   */
  lemma ServedIsLastSaved(procs: seq<Proc>, run: seq<Event>, js: JobSpec)
    requires AllIdle(procs) && Valid(Init(procs), run)
    requires JobSpecToken.InRange(js.sessionId) && js in After(Init(procs), run).db.results
    ensures var s := After(Init(procs), run);
            var served := Server.Served(s.db, s.store, JobSpecToken.EncodeJobSpec(js));
            && served.Some?
            && served == LastSaved(s.past.saves, ResultLocation(js))
            && (T.Alone(s, js) ==> served == LastSavedFor(s.past.saves, js))
  {
    var s := After(Init(procs), run);
    Safety.RunKeeps(procs, run);
    T.ResultIsDownloadable(s, js);
    ServedIsDownloadable(s, js);
  }

  /** Some download request for the job has come to its end and handed out a link. */
  ghost predicate Linked(s: Sys, v: nat, js: JobSpec) {
    v < |s.visits| && s.visits[v].at.DownDone? && s.visits[v].at.js == js && s.visits[v].at.data.Some?
  }

  lemma LinkHasResult(procs: seq<Proc>, run: seq<Event>, v: nat, js: JobSpec)
    requires AllIdle(procs) && Valid(Init(procs), run) && Linked(After(Init(procs), run), v, js)
    ensures js in After(Init(procs), run).db.results
  {
    Safety.RunKeeps(procs, run);
    assert Safety.VisitOk(After(Init(procs), run), After(Init(procs), run).visits[v]);
  }

  lemma LinkReads(procs: seq<Proc>, run: seq<Event>, i: nat, v: nat, js: JobSpec)
    requires AllIdle(procs) && Valid(Init(procs), run) && i <= |run| && Valid(Init(procs), run[..i])
    requires Linked(After(Init(procs), run[..i]), v, js)
    ensures T.Downloadable(After(Init(procs), run), js)
  {
    LinkHasResult(procs, run[..i], v, js);
    RunGrows(procs, run, i);
    Safety.RunKeeps(procs, run);
    T.ResultIsDownloadable(After(Init(procs), run), js);
  }

  lemma LinkReadsAt(procs: seq<Proc>, run: seq<Event>, i: nat, j: nat, v: nat, js: JobSpec)
    requires AllIdle(procs) && i <= j <= |run| && Valid(Init(procs), run[..i]) && Valid(Init(procs), run[..j])
    requires Linked(After(Init(procs), run[..i]), v, js)
    ensures T.Downloadable(After(Init(procs), run[..j]), js)
  {
    assert run[..j][..i] == run[..i];
    LinkReads(procs, run[..j], i, v, js);
  }

  /** The result is there at the first read, and the data at the location it carries at the second. */
  ghost predicate Readable(read: Sys, now: Sys, js: JobSpec) {
    && js in read.db.results
    && read.db.results[js].resultLocation in now.store
    && LastSaved(now.past.saves, ResultLocation(js)) == Some(now.store[read.db.results[js].resultLocation])
  }

  lemma DownloadableReads(read: Sys, now: Sys, js: JobSpec)
    requires T.Downloadable(read, js) && T.Downloadable(now, js)
    ensures Readable(read, now, js)
  {
  }

  /** The token of the response that the request has formed from the result it read, and the data behind that. */
  function LinkToken(js: JobSpec, r: AnalyzeResult, data: Bytes): string {
    Server.ReadyFor(js, r, data).token
  }

  lemma TokenServes(s: Sys, js: JobSpec, r: AnalyzeResult, data: Bytes)
    requires T.Downloadable(s, js) && JobSpecToken.InRange(js.sessionId)
    ensures JobSpecToken.DecodeJobSpec(LinkToken(js, r, data)) == Some(js)
    ensures Server.Served(s.db, s.store, LinkToken(js, r, data)) == LastSaved(s.past.saves, ResultLocation(js))
  {
    JobSpecToken.TokenRoundTrip(js);
    ServedIsDownloadable(s, js);
  }

  /**
   * A link handed out by a download request, whose own reads other steps may have come between, never dangles: its
   * token names the job; when it is followed, the result read after j steps is there, and so is, at any later time,
   * the data at the location it carries: the last saved for it. Read at once, that is what serving the token answers.
   */
  lemma LinkNeverDangles(
    procs: seq<Proc>, run: seq<Event>, i: nat, j: nat, v: nat, js: JobSpec, r: AnalyzeResult, data: Bytes)
    requires AllIdle(procs) && Valid(Init(procs), run) && i <= j <= |run| && JobSpecToken.InRange(js.sessionId)
    requires Valid(Init(procs), run[..i]) && Valid(Init(procs), run[..j])
    requires Linked(After(Init(procs), run[..i]), v, js)
    ensures JobSpecToken.DecodeJobSpec(LinkToken(js, r, data)) == Some(js)
    ensures Readable(After(Init(procs), run[..j]), After(Init(procs), run), js)
    ensures var now := After(Init(procs), run);
            && Server.Served(now.db, now.store, LinkToken(js, r, data)).Some?
            && Server.Served(now.db, now.store, LinkToken(js, r, data)) == LastSaved(now.past.saves, ResultLocation(js))
  {
    LinkReadsAt(procs, run, i, j, v, js);
    LinkReads(procs, run, i, v, js);
    DownloadableReads(After(Init(procs), run[..j]), After(Init(procs), run), js);
    TokenServes(After(Init(procs), run), js, r, data);
  }
}
