/** What clients may rely on: the readable consequences of the invariant, for every run of a fresh system. */
module LifeCycleTheorems {
  import opened Common
  import opened PGState
  import opened ArtifactStore
  import opened LifeCycle
  import opened LifeCycleSafety
  import SessionSummary

  // ----- Results behind a status

  /** The job has a recorded successful result, and its location resolves to the last data saved there. */
  ghost predicate Downloadable(s: Sys, js: JobSpec) {
    && js in s.db.results
    && s.db.results[js].spec == js
    && s.db.results[js].status == Succeeded
    && s.db.results[js].resultLocation == ResultLocation(js)
    && ResultLocation(js) in s.store
    && LastSaved(s.past.saves, ResultLocation(js)) == Some(s.store[ResultLocation(js)])
  }

  /** No other job submitted in the same session prints like this one. */
  ghost predicate Alone(s: Sys, js: JobSpec) {
    forall other :: other in s.past.sent && PrintsAlike(other, js) ==> other == js
  }

  predicate PrintsAlike(a: JobSpec, b: JobSpec) {
    a.sessionId == b.sessionId && a.nwo.owner + " " + a.nwo.repo == b.nwo.owner + " " + b.nwo.repo
  }

  lemma TargetAlone(s: Sys, save: SaveOp, js: JobSpec)
    requires Alone(s, js) && (save.SaveResult? ==> save.js in s.past.sent)
    ensures Target(save) == ResultLocation(js) <==> save.SaveResult? && save.js == js
  {
    match save
    case SavePack(n, _) => PackKeyNeverResultKey(n, js);
    case SaveResult(other, _) => ResultKeyEqualIff(other, js);
  }

  lemma OwnIsLast(s: Sys, js: JobSpec)
    requires Remembered(s) && Alone(s, js)
    ensures LastSaved(s.past.saves, ResultLocation(js)) == LastSavedFor(s.past.saves, js)
  {
    forall i | 0 <= i < |s.past.saves|
      ensures Target(s.past.saves[i]) == ResultLocation(js)
         <==> s.past.saves[i].SaveResult? && s.past.saves[i].js == js
    {
      TargetAlone(s, s.past.saves[i], js);
    }
    LastSavedAgrees(s.past.saves, ResultLocation(js), js);
  }

  lemma ResultIsDownloadable(s: Sys, js: JobSpec)
    requires Inv(s) && js in s.db.results
    ensures Downloadable(s, js)
    ensures Alone(s, js) ==> LastSavedFor(s.past.saves, js) == Some(s.store[ResultLocation(js)])
  {
    StoredWasSaved(s, js);
    if Alone(s, js) {
      OwnIsLast(s, js);
    }
  }

  /**
   * A job seen as Succeeded has its result, and the result resolves to the last data saved at its location: for that
   * same job, unless another job of its session prints alike.
   */
  lemma SucceededResolves(procs: seq<Proc>, run: seq<Event>, js: JobSpec)
    requires AllIdle(procs) && Valid(Init(procs), run)
    requires var db := After(Init(procs), run).db; js in db.status && db.status[js] == Succeeded
    ensures var s := After(Init(procs), run);
            && Downloadable(s, js)
            && (Alone(s, js) ==> LastSavedFor(s.past.saves, js) == Some(s.store[ResultLocation(js)]))
  {
    RunKeeps(procs, run);
    ResultIsDownloadable(After(Init(procs), run), js);
  }

  /** No other status ever appears, and none for a job that was not submitted. */
  lemma OnlyThreeStatuses(procs: seq<Proc>, run: seq<Event>, js: JobSpec)
    requires AllIdle(procs) && Valid(Init(procs), run)
    requires js in After(Init(procs), run).db.status
    ensures After(Init(procs), run).db.status[js] in {Pending, InProgress, Succeeded}
    ensures js in After(Init(procs), run).past.sent
  {
    RunKeeps(procs, run);
  }

  /** A job inside a worker finds the query pack that was last saved for its own session. */
  lemma PackInPlace(procs: seq<Proc>, run: seq<Event>, w: nat)
    requires AllIdle(procs) && Valid(Init(procs), run)
    requires var ps := After(Init(procs), run).procs; w < |ps| && (ps[w].phase.Received? || ps[w].phase.Analysing?)
    ensures var s := After(Init(procs), run); var job := s.procs[w].phase.job;
            && job.queryPackLocation == PackLocation(job.spec.sessionId)
            && job.queryPackLocation in s.store
            && LastSaved(s.past.saves, PackLocation(job.spec.sessionId)) == Some(s.store[job.queryPackLocation])
  {
    RunKeeps(procs, run);
    var s := After(Init(procs), run);
    assert PhaseOk(s.procs[w].phase, WorldOf(s));
    BucketKeepsLast(s.past.saves, PackLocation(s.procs[w].phase.job.spec.sessionId));
  }

  // ----- Readers

  /** A request about an answered session, or about a repository id shown for it, never meets a failing lookup. */
  lemma PromisedNeverFails(procs: seq<Proc>, run: seq<Event>, v: nat)
    requires AllIdle(procs) && Valid(Init(procs), run)
    requires v < |After(Init(procs), run).visits|
    ensures var visit := After(Init(procs), run).visits[v];
            visit.at.LookupFailed? ==> !visit.promised && visit.at.lookup in {InfoOf, SpecOf, StatusForDownload}
  {
    RunKeeps(procs, run);
    assert VisitOk(After(Init(procs), run), After(Init(procs), run).visits[v]);
  }

  /** The id in a finished status response leads the download path to the very job it was shown for. */
  lemma ShownIdLeadsBack(procs: seq<Proc>, run: seq<Event>, v: nat, i: nat)
    requires AllIdle(procs) && Valid(Init(procs), run)
    requires var visits := After(Init(procs), run).visits;
             v < |visits| && visits[v].at.StatusDone? && i < |visits[v].at.rows|
    ensures var s := After(Init(procs), run); var row := s.visits[v].at.rows[i];
            && SpecByRepoId(s.db, s.visits[v].at.session, row.repoId) == Some(row.js)
            && row.js in s.db.jobs
            && (row.status == Succeeded ==> Downloadable(s, row.js))
  {
    RunKeeps(procs, run);
    var s := After(Init(procs), run);
    assert VisitOk(s, s.visits[v]);
    var row := s.visits[v].at.rows[i];
    assert RowShown(s, row);
    if row.status == Succeeded {
      ResultIsDownloadable(s, row.js);
    }
  }

  lemma HandedOutWasSaved(s: Sys, js: JobSpec, data: Bytes)
    requires Remembered(s) && Alone(s, js) && SavedUnder(s, js, data)
    ensures SaveOp.SaveResult(js, data) in s.past.saves
  {
    var i :| 0 <= i < |s.past.saves| && Target(s.past.saves[i]) == ResultLocation(js) && s.past.saves[i].data == data;
    TargetAlone(s, s.past.saves[i], js);
  }

  /** Data handed out for a job was saved at its result location, and for that job unless another prints alike. */
  lemma DownloadWasSaved(procs: seq<Proc>, run: seq<Event>, v: nat)
    requires AllIdle(procs) && Valid(Init(procs), run)
    requires var visits := After(Init(procs), run).visits;
             v < |visits| && visits[v].at.DownDone? && visits[v].at.data.Some?
    ensures var s := After(Init(procs), run); var js, data := s.visits[v].at.js, s.visits[v].at.data.value;
            SavedUnder(s, js, data) && (Alone(s, js) ==> SaveOp.SaveResult(js, data) in s.past.saves)
  {
    RunKeeps(procs, run);
    var s := After(Init(procs), run);
    assert VisitOk(s, s.visits[v]);
    if Alone(s, s.visits[v].at.js) {
      HandedOutWasSaved(s, s.visits[v].at.js, s.visits[v].at.data.value);
    }
  }

  // ----- The session summary

  ghost function Overall(s: Sys, session: int): Status {
    SessionSummary.Summary(SessionSummary.StatusesOf(s.db.status, session)).overall
  }

  /** The summary says Succeeded exactly when no status of the session says otherwise. */
  lemma OverallSucceededIff(s: Sys, session: int)
    requires Recorded(s)
    ensures Overall(s, session) == Succeeded
        <==> forall js :: js in s.db.status && js.sessionId == session ==> s.db.status[js] == Succeeded
  {
    var bag := SessionSummary.StatusesOf(s.db.status, session);
    SessionSummary.OverallMeaning(SessionSummary.Summary(bag).counts, bag);
    SessionSummary.StatusesOfHas(s.db.status, session, Pending);
    SessionSummary.StatusesOfHas(s.db.status, session, InProgress);
    forall js | js in s.db.status && js.sessionId == session ensures s.db.status[js] in bag {
      SessionSummary.StatusesOfHas(s.db.status, session, s.db.status[js]);
    }
    forall st | st in bag ensures st in {Pending, InProgress, Succeeded} {
      SessionSummary.StatusesOfHas(s.db.status, session, st);
    }
  }

  ghost predicate AllDownloadable(s: Sys, session: int) {
    forall js :: js in s.db.jobs && js.sessionId == session ==> js in s.db.results
  }

  lemma SucceededSummary(s: Sys, session: int)
    requires Inv(s) && Overall(s, session) == Succeeded
    ensures AllDownloadable(s, session)
  {
    OverallSucceededIff(s, session);
    forall js | js in s.db.jobs && js.sessionId == session ensures js in s.db.results {
      assert RowOk(s, js);
    }
  }

  /** While the summary says Succeeded, every job listed for the session can be downloaded. */
  lemma SummaryMeansDownloadable(procs: seq<Proc>, run: seq<Event>, js: JobSpec)
    requires AllIdle(procs) && Valid(Init(procs), run)
    requires var s := After(Init(procs), run); js in s.db.jobs && Overall(s, js.sessionId) == Succeeded
    ensures Downloadable(After(Init(procs), run), js)
  {
    RunKeeps(procs, run);
    SucceededSummary(After(Init(procs), run), js.sessionId);
    ResultIsDownloadable(After(Init(procs), run), js);
  }

  predicate OfSession(r: Reader) {
    r.ListFirst? || r.FetchInfo? || r.ListAgain? || r.FetchStatus? || r.FetchResult? || r.FetchSize? || r.FetchRepoId?
    || r.FetchSummary? || r.StatusDone? || r.EmptyDone?
  }

  /** What a promised status response said stays true: its session is closed and, if Succeeded, all there. */
  ghost predicate PromiseOk(s: Sys, v: Visit) {
    v.promised && OfSession(v.at) ==>
      && IsAnswered(s, v.at.session)
      && (v.at.StatusDone? && v.at.overall == Succeeded ==> AllDownloadable(s, v.at.session))
  }

  ghost predicate PromisesOk(s: Sys) {
    forall v :: 0 <= v < |s.visits| ==> PromiseOk(s, s.visits[v])
  }

  lemma ResultsListNone(s: Sys, e: ServerEvent)
    requires ServerEnabled(s, e) && TouchesResults(e)
    ensures ServerApply(s, e).db.jobs == s.db.jobs
  {
  }

  lemma RequestListsNone(s: Sys, e: ServerEvent)
    requires ServerEnabled(s, e) && !e.ListJob? && !TouchesResults(e)
    ensures ServerApply(s, e).db.jobs == s.db.jobs
  {
  }

  lemma ListedByHandler(s: Sys, e: ServerEvent, session: int, js: JobSpec)
    requires ServerEnabled(s, e) && e.ListJob? && IsAnswered(s, session) && js.sessionId == session
    ensures js in ServerApply(s, e).db.jobs ==> js in s.db.jobs
  {
    assert e.h != session - 1;
  }

  lemma AgentListsNone(s: Sys, e: AgentEvent)
    requires AgentEnabled(s, e)
    ensures AgentApply(s, e).db.jobs == s.db.jobs
  {
    if e.Begin? || e.Fail? || e.Save? || e.SendResult? || e.PublishResult? || e.LosePublish? {
      WorkerBeside(s, e);
    } else {
      ConsumerBeside(s, e);
    }
  }

  /** An answered session lists no further job. */
  lemma AnsweredIsClosed(s: Sys, e: Event, session: int, js: JobSpec)
    requires Enabled(s, e) && IsAnswered(s, session) && js.sessionId == session
    ensures js in Apply(s, e).db.jobs ==> js in s.db.jobs
  {
    match e
    case OfServer(x) =>
      if x.ListJob? {
        ListedByHandler(s, x, session, js);
      } else if TouchesResults(x) {
        ResultsListNone(s, x);
      } else {
        RequestListsNone(s, x);
      }
    case OfAgent(x) => AgentListsNone(s, x);
    case _ =>
  }

  lemma PromiseGrows(s: Sys, e: Event, v: Visit)
    requires Enabled(s, e) && Grows(s, Apply(s, e)) && PromiseOk(s, v)
    ensures PromiseOk(Apply(s, e), v)
  {
    if v.promised && OfSession(v.at) && v.at.StatusDone? && v.at.overall == Succeeded {
      var s' := Apply(s, e);
      forall js | js in s'.db.jobs && js.sessionId == v.at.session ensures js in s'.db.results {
        AnsweredIsClosed(s, e, v.at.session, js);
      }
    }
  }

  lemma SummaryKeepsPromise(s: Sys, v: Visit)
    requires Inv(s) && PromiseOk(s, v) && v.at.FetchSummary?
    ensures PromiseOk(s, v.(at := NextLook(s, v.at, [])))
  {
    if Overall(s, v.at.session) == Succeeded {
      SucceededSummary(s, v.at.session);
    }
  }

  lemma EarlierKeepsPromise(s: Sys, v: Visit, listing: seq<JobSpec>)
    requires PromiseOk(s, v) && !Finished(v.at) && (Visits(v.at) ==> v.at.todo != []) && !v.at.FetchSummary?
    ensures PromiseOk(s, v.(at := NextLook(s, v.at, listing)))
  {
  }

  lemma LookKeepsPromise(s: Sys, v: Visit, listing: seq<JobSpec>)
    requires Inv(s) && PromiseOk(s, v) && !Finished(v.at) && (Visits(v.at) ==> v.at.todo != [])
    ensures PromiseOk(s, v.(at := NextLook(s, v.at, listing)))
  {
    if v.at.FetchSummary? {
      SummaryKeepsPromise(s, v);
    } else {
      EarlierKeepsPromise(s, v, listing);
    }
  }

  lemma LookKeepsPromises(s: Sys, v: nat, listing: seq<JobSpec>)
    requires ReaderEnabled(s, Look(v, listing)) && Inv(s) && PromisesOk(s)
    ensures PromiseOk(ReaderApply(s, Look(v, listing)), ReaderApply(s, Look(v, listing)).visits[v])
  {
    var e := OfReader(Look(v, listing));
    ReaderGrows(s, Look(v, listing));
    assert PromiseOk(s, s.visits[v]);
    LookKeepsPromise(s, s.visits[v], listing);
    PromiseGrows(s, e, s.visits[v].(at := NextLook(s, s.visits[v].at, listing)));
  }

  lemma OthersKeepPromises(s: Sys, e: Event, v: nat)
    requires Enabled(s, e) && Grows(s, Apply(s, e)) && PromisesOk(s)
    requires v < |s.visits| && v < |Apply(s, e).visits| && Apply(s, e).visits[v] == s.visits[v]
    ensures PromiseOk(Apply(s, e), Apply(s, e).visits[v])
  {
    assert PromiseOk(s, s.visits[v]);
    PromiseGrows(s, e, s.visits[v]);
  }

  /** What a step does to the readers: one of them looks, or a new one begins. */
  lemma ServerKeepsVisits(s: Sys, e: ServerEvent)
    requires ServerEnabled(s, e)
    ensures ServerApply(s, e).visits == s.visits
  {
  }

  lemma AgentKeepsVisits(s: Sys, e: AgentEvent)
    requires AgentEnabled(s, e)
    ensures AgentApply(s, e).visits == s.visits
  {
  }

  /** A reader's step lets one of them look, or a new one begin. */
  lemma ReaderVisits(s: Sys, e: ReaderEvent, v: nat)
    requires ReaderEnabled(s, e) && v < |ReaderApply(s, e).visits|
    ensures v < |s.visits| && !(e.Look? && e.v == v) ==> ReaderApply(s, e).visits[v] == s.visits[v]
    ensures v >= |s.visits| ==> PromiseOk(ReaderApply(s, e), ReaderApply(s, e).visits[v])
  {
  }

  lemma VisitsAfter(s: Sys, e: Event, v: nat)
    requires Enabled(s, e) && v < |Apply(s, e).visits|
    ensures v < |s.visits| && !(e.OfReader? && e.re.Look? && e.re.v == v) ==> Apply(s, e).visits[v] == s.visits[v]
    ensures v >= |s.visits| ==> PromiseOk(Apply(s, e), Apply(s, e).visits[v])
  {
    match e
    case OfServer(x) => ServerKeepsVisits(s, x);
    case OfAgent(x) => AgentKeepsVisits(s, x);
    case OfReader(x) => ReaderVisits(s, x, v);
    case OfBroker(_) =>
  }

  lemma StepKeepsPromises(s: Sys, e: Event)
    requires Enabled(s, e) && Inv(s) && PromisesOk(s)
    ensures PromisesOk(Apply(s, e))
  {
    StepKeeps(s, e);
    forall v | 0 <= v < |Apply(s, e).visits| ensures PromiseOk(Apply(s, e), Apply(s, e).visits[v]) {
      VisitsAfter(s, e, v);
      if e.OfReader? && e.re.Look? && e.re.v == v {
        LookKeepsPromises(s, v, e.re.listing);
      } else if v < |s.visits| {
        OthersKeepPromises(s, e, v);
      }
    }
  }

  lemma {:induction false} RunKeepsPromises(procs: seq<Proc>, run: seq<Event>)
    requires AllIdle(procs) && Valid(Init(procs), run)
    ensures PromisesOk(After(Init(procs), run))
  {
    if run != [] {
      RunKeepsPromises(procs, run[..|run| - 1]);
      RunKeeps(procs, run[..|run| - 1]);
      StepKeepsPromises(After(Init(procs), run[..|run| - 1]), run[|run| - 1]);
    }
  }

  /** Once a promised response said Succeeded, every job the session lists is downloadable from then on. */
  lemma SucceededResponseStays(procs: seq<Proc>, run: seq<Event>, v: nat, js: JobSpec)
    requires AllIdle(procs) && Valid(Init(procs), run)
    requires var s := After(Init(procs), run);
             && v < |s.visits| && s.visits[v].promised
             && s.visits[v].at.StatusDone? && s.visits[v].at.overall == Succeeded
             && js in s.db.jobs && js.sessionId == s.visits[v].at.session
    ensures Downloadable(After(Init(procs), run), js)
  {
    RunKeepsPromises(procs, run);
    RunKeeps(procs, run);
    assert PromiseOk(After(Init(procs), run), After(Init(procs), run).visits[v]);
    ResultIsDownloadable(After(Init(procs), run), js);
  }

  // ----- Provenance and history

  /** The step hands a job with this spec to the queue. */
  predicate SubmitsAt(s: Sys, e: Event, js: JobSpec) {
    e.OfServer? && e.se.SendJob? && AtMark(s, e.se.h, ToSend) && CurrentSpec(s, e.se.h) == js
  }

  ghost predicate Submits(s: Sys, run: seq<Event>, i: nat, js: JobSpec)
    requires Valid(s, run) && i < |run|
  {
    PrefixValid(s, run, i);
    SubmitsAt(After(s, run[..i]), run[i], js)
  }

  /** The step at position i writes this status for this job. */
  ghost predicate Writes(s: Sys, run: seq<Event>, i: nat, js: JobSpec, st: Status)
    requires Valid(s, run) && i < |run|
  {
    PrefixValid(s, run, i);
    Written(After(s, run[..i]), run[i]) == Some((js, st))
  }

  ghost function Written(s: Sys, e: Event): Option<(JobSpec, Status)> {
    match e
    case OfServer(MarkPending(h)) =>
      if AtMark(s, h, ToMark) then Some((CurrentSpec(s, h), Pending)) else None
    case OfServer(RecordStatus) =>
      if s.recorder.Stored? then Some((s.recorder.result.spec, s.recorder.result.status)) else None
    case OfAgent(Begin(w)) =>
      if IsProc(s, w, Worker) && s.procs[w].phase.Received? then Some((s.procs[w].phase.job.spec, InProgress)) else None
    case _ => None
  }

  ghost function WithWrite(status: map<JobSpec, Status>, write: Option<(JobSpec, Status)>): map<JobSpec, Status> {
    match write
    case None => status
    case Some((js, st)) => status[js := st]
  }

  /** The step writes no status and starts no job; it sends one only if it is the sending step. */
  predicate OnlySends(s: Sys, e: ServerEvent, s': Sys)
    requires e.SendJob? ==> AtMark(s, e.h, ToSend)
  {
    && s'.db.status == s.db.status && s'.past.started == s.past.started
    && s'.past.sent == if e.SendJob? then s.past.sent + {CurrentSpec(s, e.h)} else s.past.sent
  }

  lemma OpeningOnlySends(s: Sys, e: ServerEvent)
    requires e.NewRequest? || e.ReadRequest? || e.RefuseRequest?
    requires ServerEnabled(s, e)
    ensures OnlySends(s, e, ServerApply(s, e))
  {
  }

  lemma SendingOnlySends(s: Sys, e: ServerEvent)
    requires e.SendJob?
    requires ServerEnabled(s, e)
    ensures OnlySends(s, e, ServerApply(s, e))
  {
  }

  lemma SubmittingOnlySends(s: Sys, e: ServerEvent)
    requires e.OpenJob? || e.NumberJob? || e.ListJob?
    requires ServerEnabled(s, e)
    ensures OnlySends(s, e, ServerApply(s, e))
  {
  }

  lemma OutboxOnlySends(s: Sys, e: ServerEvent)
    requires e.PublishJob? || e.LoseJob?
    requires ServerEnabled(s, e)
    ensures OnlySends(s, e, ServerApply(s, e))
  {
  }

  lemma AnswerOnlySends(s: Sys, e: ServerEvent)
    requires e.BeginAnswer? || e.ReadJobList? || e.SetInfo? || e.Answer?
    requires ServerEnabled(s, e)
    ensures OnlySends(s, e, ServerApply(s, e))
  {
  }

  lemma PollOnlySends(s: Sys, e: ServerEvent)
    requires e.PollResult? || e.RejectResult? || e.HandResult?
    requires ServerEnabled(s, e)
    ensures OnlySends(s, e, ServerApply(s, e))
  {
  }

  lemma AckOnlySends(s: Sys, e: ServerEvent)
    requires e.AckResult? || e.LoseResultAck?
    requires ServerEnabled(s, e)
    ensures OnlySends(s, e, ServerApply(s, e))
  {
  }

  lemma RecordOnlySends(s: Sys, e: ServerEvent)
    requires e.RecordResult?
    requires ServerEnabled(s, e)
    ensures OnlySends(s, e, ServerApply(s, e))
  {
  }

  lemma ServerOnlySends(s: Sys, e: ServerEvent)
    requires ServerEnabled(s, e) && !e.MarkPending? && !e.RecordStatus?
    ensures OnlySends(s, e, ServerApply(s, e))
  {
    if e.BeginAnswer? || e.ReadJobList? || e.SetInfo? || e.Answer? {
      AnswerOnlySends(s, e);
    } else if e.PublishJob? || e.LoseJob? {
      OutboxOnlySends(s, e);
    } else if e.NewRequest? || e.ReadRequest? || e.RefuseRequest? {
      OpeningOnlySends(s, e);
    } else if e.SendJob? {
      SendingOnlySends(s, e);
    } else if e.OpenJob? || e.NumberJob? || e.ListJob? {
      SubmittingOnlySends(s, e);
    } else if e.PollResult? || e.RejectResult? || e.HandResult? {
      PollOnlySends(s, e);
    } else if e.RecordResult? {
      RecordOnlySends(s, e);
    } else {
      AckOnlySends(s, e);
    }
  }

  lemma ServerWrites(s: Sys, e: ServerEvent)
    requires ServerEnabled(s, e)
    ensures ServerApply(s, e).db.status == WithWrite(s.db.status, Written(s, OfServer(e)))
  {
    if !e.MarkPending? && !e.RecordStatus? {
      ServerOnlySends(s, e);
    }
  }

  lemma ConsumerLeavesStatus(s: Sys, e: AgentEvent)
    requires e.PollJob? || e.RejectJob? || e.HandJob? || e.AckJob?
    requires AgentEnabled(s, e)
    ensures AgentApply(s, e).db.status == s.db.status
  {
  }

  lemma CrashLeavesStatus(s: Sys, e: AgentEvent)
    requires e.LoseJobAck? || e.Die? || e.Restart?
    requires AgentEnabled(s, e)
    ensures AgentApply(s, e).db.status == s.db.status
  {
  }

  lemma WorkerLeavesStatus(s: Sys, e: AgentEvent)
    requires e.Fail? || e.Save? || e.SendResult? || e.PublishResult? || e.LosePublish?
    requires AgentEnabled(s, e)
    ensures AgentApply(s, e).db.status == s.db.status
  {
  }

  lemma AgentWrites(s: Sys, e: AgentEvent)
    requires AgentEnabled(s, e)
    ensures AgentApply(s, e).db.status == WithWrite(s.db.status, Written(s, OfAgent(e)))
  {
    if e.Fail? || e.Save? || e.SendResult? || e.PublishResult? || e.LosePublish? {
      WorkerLeavesStatus(s, e);
    } else if e.LoseJobAck? || e.Die? || e.Restart? {
      CrashLeavesStatus(s, e);
    } else if !e.Begin? {
      ConsumerLeavesStatus(s, e);
    }
  }

  /** The status table changes by these writes and in no other way. */
  lemma WrittenIsAll(s: Sys, e: Event)
    requires Enabled(s, e)
    ensures Apply(s, e).db.status == WithWrite(s.db.status, Written(s, e))
  {
    match e
    case OfServer(x) => ServerWrites(s, x);
    case OfAgent(x) => AgentWrites(s, x);
    case _ =>
  }

  lemma ServerSends(s: Sys, e: ServerEvent, js: JobSpec)
    requires ServerEnabled(s, e)
    ensures ServerApply(s, e).past.started == s.past.started
    ensures js in ServerApply(s, e).past.sent ==> js in s.past.sent || SubmitsAt(s, OfServer(e), js)
  {
    if !e.MarkPending? && !e.RecordStatus? {
      ServerOnlySends(s, e);
    }
  }

  lemma AgentStarts(s: Sys, e: AgentEvent, js: JobSpec)
    requires AgentEnabled(s, e)
    ensures AgentApply(s, e).past.sent == s.past.sent
    ensures js in AgentApply(s, e).past.started ==>
              js in s.past.started || Written(s, OfAgent(e)) == Some((js, InProgress))
  {
  }

  lemma NewlySent(s: Sys, e: Event, js: JobSpec)
    requires Enabled(s, e) && js in Apply(s, e).past.sent && js !in s.past.sent
    ensures SubmitsAt(s, e, js)
  {
    match e
    case OfServer(x) => ServerSends(s, x, js);
    case OfAgent(x) => AgentStarts(s, x, js);
    case _ =>
  }

  lemma NewlyStarted(s: Sys, e: Event, js: JobSpec)
    requires Enabled(s, e) && js in Apply(s, e).past.started && js !in s.past.started
    ensures Written(s, e) == Some((js, InProgress))
  {
    match e
    case OfServer(x) => ServerSends(s, x, js);
    case OfAgent(x) => AgentStarts(s, x, js);
    case _ =>
  }

  predicate WasSent(s: Sys, js: JobSpec) {
    js in s.past.sent
  }

  predicate WasStarted(s: Sys, js: JobSpec) {
    js in s.past.started
  }

  lemma {:induction false} SentWasSubmitted(procs: seq<Proc>, run: seq<Event>, js: JobSpec)
    requires Valid(Init(procs), run) && WasSent(After(Init(procs), run), js)
    ensures exists i :: 0 <= i < |run| && Submits(Init(procs), run, i, js)
  {
    var n := |run| - 1;
    assert run != [];
    if WasSent(After(Init(procs), run[..n]), js) {
      SentWasSubmitted(procs, run[..n], js);
      var i :| 0 <= i < n && Submits(Init(procs), run[..n], i, js);
      assert run[..n][..i] == run[..i];
      assert Submits(Init(procs), run, i, js);
    } else {
      NewlySent(After(Init(procs), run[..n]), run[n], js);
      assert Submits(Init(procs), run, n, js);
    }
  }

  lemma {:induction false} StartedWasWritten(procs: seq<Proc>, run: seq<Event>, js: JobSpec)
    requires Valid(Init(procs), run) && WasStarted(After(Init(procs), run), js)
    ensures exists i :: 0 <= i < |run| && Writes(Init(procs), run, i, js, InProgress)
  {
    var n := |run| - 1;
    assert run != [];
    if WasStarted(After(Init(procs), run[..n]), js) {
      StartedWasWritten(procs, run[..n], js);
      var i :| 0 <= i < n && Writes(Init(procs), run[..n], i, js, InProgress);
      assert run[..n][..i] == run[..i];
      assert Writes(Init(procs), run, i, js, InProgress);
    } else {
      NewlyStarted(After(Init(procs), run[..n]), run[n], js);
      assert Writes(Init(procs), run, n, js, InProgress);
    }
  }

  /** Every recorded result belongs to a job that some step submitted. */
  lemma Provenance(procs: seq<Proc>, run: seq<Event>, js: JobSpec)
    requires AllIdle(procs) && Valid(Init(procs), run) && js in After(Init(procs), run).db.results
    ensures exists i :: 0 <= i < |run| && Submits(Init(procs), run, i, js)
  {
    RunKeeps(procs, run);
    SentWasSubmitted(procs, run, js);
  }

  lemma SucceededWasStarted(s: Sys, e: Event, js: JobSpec)
    requires Inv(s) && Written(s, e) == Some((js, Succeeded))
    ensures WasStarted(s, js)
  {
  }

  lemma WrittenBefore(procs: seq<Proc>, run: seq<Event>, i: nat, js: JobSpec)
    requires Valid(Init(procs), run) && i <= |run| && Valid(Init(procs), run[..i])
    requires WasStarted(After(Init(procs), run[..i]), js)
    ensures exists j :: 0 <= j < i && Writes(Init(procs), run, j, js, InProgress)
  {
    StartedWasWritten(procs, run[..i], js);
    var j :| 0 <= j < i && Writes(Init(procs), run[..i], j, js, InProgress);
    assert run[..i][..j] == run[..j];
    assert Writes(Init(procs), run, j, js, InProgress);
  }

  /** Every write of Succeeded for a job comes after a write of InProgress for it. */
  lemma SucceededAfterInProgress(procs: seq<Proc>, run: seq<Event>, i: nat, js: JobSpec)
    requires AllIdle(procs) && Valid(Init(procs), run) && i < |run|
    requires Writes(Init(procs), run, i, js, Succeeded)
    ensures exists j :: 0 <= j < i && Writes(Init(procs), run, j, js, InProgress)
  {
    PrefixValid(Init(procs), run, i);
    RunKeeps(procs, run[..i]);
    SucceededWasStarted(After(Init(procs), run[..i]), run[i], js);
    WrittenBefore(procs, run, i, js);
  }
}
