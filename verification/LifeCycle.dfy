/**
 * The life of a job as one step system: request handlers, the broker's two queues, the agents' goroutines,
 * the results consumer, the shared tables, the bucket, and the status and download readers. Every step is one
 * locked or remote call; any enabled step may come next. The server's table calls share one pool of connections; the
 * agents are other processes with pools of their own, which they never exhaust.
 */
module LifeCycle {
  import opened Common
  import opened PGState
  import opened ArtifactStore
  import SessionSummary
  import opened Sums

  /** A queue message: one that decodes, or one that does not. */
  datatype Msg<+T> = Good(body: T) | Poison(raw: nat)
  type JobMsg = Msg<AnalyzeJob>
  type ResultMsg = Msg<AnalyzeResult>

  // ----- Agents

  datatype Kind = Consumer | Worker | Publisher

  /** Where a goroutine of an agent stands. */
  datatype Phase =
    | Idle
    | Dead
    | Offering(job: AnalyzeJob)       // consumer: got and decoded, before handing the job to a worker
    | Rejecting(raw: nat)             // consumer: decoding failed, before the nack
    | Acking(job: AnalyzeJob)         // consumer: handed over, before the ack
    | Received(job: AnalyzeJob)       // worker: before it writes InProgress
    | Analysing(job: AnalyzeJob)      // worker: inside the analysis, before the archive is saved
    | Sending(result: AnalyzeResult)  // worker: archive saved, before the result is passed on
    | Publishing(result: AnalyzeResult)

  datatype Proc = Proc(agent: nat, kind: Kind, phase: Phase)

  // ----- Server

  /**
   * What is next for a repository of a request: to send its job, to mark it pending, and the three stages of adding
   * it: begin a transaction with the insert, number the repository over a second connection, and commit.
   */
  datatype Mark = ToSend | ToMark | ToBegin | ToNumber | ToList

  /** A request handler; the handler at position k serves session k + 1. */
  datatype Handler =
    | Reading
    | Submitting(pack: ArtifactLocation, language: string, repos: seq<NameWithOwner>, at: nat, mark: Mark)
    | Listing(language: string, repos: seq<NameWithOwner>)
    | Informing(info: JobInfo, todo: seq<JobSpec>)
    | Answered
    | Refused

  /** The goroutine that takes results off the broker. */
  datatype Inbox =
    | Polling
    | InOffering(result: AnalyzeResult)
    | InRejecting(raw: nat)
    | InAcking(result: AnalyzeResult)

  /** The loop that writes results into the tables. */
  datatype Recorder = Waiting | Got(result: AnalyzeResult) | Stored(result: AnalyzeResult)

  // ----- Readers

  datatype Row = Row(js: JobSpec, status: Status, count: int, size: nat, repoId: int)

  datatype Lookup = InfoOf | SpecOf | StatusForDownload | StatusOfListed | ResultOf | ArtifactOf

  /** A status request or a download request, between two of its locked reads. */
  datatype Reader =
    | ListFirst(session: int)
    | FetchInfo(session: int, first: JobSpec)
    | ListAgain(session: int)
    | FetchStatus(session: int, todo: seq<JobSpec>, rows: seq<Row>)
    | FetchResult(session: int, todo: seq<JobSpec>, rows: seq<Row>)
    | FetchSize(session: int, todo: seq<JobSpec>, rows: seq<Row>, result: AnalyzeResult)
    | FetchRepoId(session: int, todo: seq<JobSpec>, rows: seq<Row>, status: Status, count: int, size: nat)
    | FetchSummary(session: int, rows: seq<Row>)
    | StatusDone(session: int, rows: seq<Row>, overall: Status)
    | EmptyDone(session: int)
    | FindSpec(session: int, repoId: int)
    | DownStatus(js: JobSpec)
    | DownResult(js: JobSpec)
    | DownData(js: JobSpec, result: AnalyzeResult)
    | DownDone(js: JobSpec, data: Option<Bytes>)
    | LookupFailed(lookup: Lookup)

  /** `promised`: the request names a session answered before, or a repository id shown for it before. */
  datatype Visit = Visit(promised: bool, at: Reader)

  // ----- History

  datatype Finish = Finish(job: AnalyzeJob, result: AnalyzeResult)

  /** What was sent, started, saved and finished so far. */
  datatype History = History(sent: set<JobSpec>, started: set<JobSpec>, saves: seq<SaveOp>, finished: seq<Finish>)

  /** Where the copies of the jobs went, up to the end of their analysis. */
  datatype JobBook = JobBook(
    submitted: multiset<JobMsg>,
    foreignTasks: multiset<JobMsg>,
    unpublished: multiset<JobMsg>,
    accepted: multiset<JobMsg>,
    requeued: multiset<JobMsg>,
    acked: multiset<JobMsg>,
    dropped: multiset<JobMsg>,
    handed: multiset<JobMsg>,
    lostOffers: multiset<JobMsg>,
    failed: multiset<JobMsg>,
    lostRuns: multiset<JobMsg>)

  /** Where the copies of the results went, up to the tables. */
  datatype ResultBook = ResultBook(
    lostSends: multiset<ResultMsg>,
    unpublishedResults: multiset<ResultMsg>,
    foreignResults: multiset<ResultMsg>,
    acceptedResults: multiset<ResultMsg>,
    requeuedResults: multiset<ResultMsg>,
    ackedResults: multiset<ResultMsg>,
    droppedResults: multiset<ResultMsg>,
    lostResultOffers: multiset<ResultMsg>,
    handedResults: multiset<ResultMsg>,
    recorded: multiset<ResultMsg>)

  const NO_HISTORY := History({}, {}, [], [])

  const NO_JOBS := JobBook(
    multiset{}, multiset{}, multiset{}, multiset{}, multiset{}, multiset{}, multiset{}, multiset{}, multiset{},
    multiset{}, multiset{})

  const NO_RESULTS := ResultBook(
    multiset{}, multiset{}, multiset{}, multiset{}, multiset{}, multiset{}, multiset{}, multiset{}, multiset{},
    multiset{})

  datatype Sys = Sys(
    db: Tables,
    store: Objects,
    handlers: seq<Handler>,
    outbox: Option<AnalyzeJob>,
    tasks: multiset<JobMsg>,
    tasksUnacked: multiset<JobMsg>,
    procs: seq<Proc>,
    results: multiset<ResultMsg>,
    resultsUnacked: multiset<ResultMsg>,
    inbox: Inbox,
    recorder: Recorder,
    visits: seq<Visit>,
    past: History,
    jobBook: JobBook,
    resultBook: ResultBook)

  predicate AllIdle(procs: seq<Proc>) {
    forall i :: 0 <= i < |procs| ==> procs[i].phase == Idle
  }

  /** Empty tables, bucket and queues; `procs` are the goroutines the agents start with. */
  function Init(procs: seq<Proc>): Sys {
    Sys(
      EMPTY, map[], [], None, multiset{}, multiset{}, procs, multiset{}, multiset{}, Polling, Waiting, [],
      NO_HISTORY, NO_JOBS, NO_RESULTS)
  }

  // ----- The server's database connections

  const MAX_CONNS: nat := 10

  /** A handler keeps one connection from the begin of its transaction to the commit. */
  function Connections(hd: Handler): nat {
    if hd.Submitting? && (hd.mark == ToNumber || hd.mark == ToList) then 1 else 0
  }

  ghost function InUse(s: Sys): nat {
    Sum(s.handlers, Connections)
  }

  /** A call that needs a connection of its own can go on; otherwise it waits. */
  ghost predicate Free(s: Sys) {
    InUse(s) < MAX_CONNS
  }

  // ----- Steps of the server

  datatype ServerEvent =
    | NewRequest
    | ReadRequest(h: nat, language: string, pack: Bytes, repos: seq<NameWithOwner>)
    | RefuseRequest(h: nat)
    | SendJob(h: nat)
    | MarkPending(h: nat)
    | OpenJob(h: nat)
    | NumberJob(h: nat)
    | ListJob(h: nat)
    | BeginAnswer(h: nat)
    | ReadJobList(h: nat, listing: seq<JobSpec>, info: JobInfo)
    | SetInfo(h: nat)
    | Answer(h: nat)
    | PublishJob
    | LoseJob
    | PollResult(m: ResultMsg)
    | RejectResult
    | HandResult
    | AckResult
    | LoseResultAck
    | RecordResult
    | RecordStatus

  function SpecAt(h: nat, repos: seq<NameWithOwner>, at: nat): JobSpec
    requires at < |repos|
  {
    JobSpec(h + 1, repos[at])
  }

  predicate AtMark(s: Sys, h: nat, mark: Mark) {
    && h < |s.handlers|
    && s.handlers[h].Submitting?
    && s.handlers[h].mark == mark
    && s.handlers[h].at < |s.handlers[h].repos|
  }

  function CurrentSpec(s: Sys, h: nat): JobSpec
    requires h < |s.handlers| && s.handlers[h].Submitting? && s.handlers[h].at < |s.handlers[h].repos|
  {
    SpecAt(h, s.handlers[h].repos, s.handlers[h].at)
  }

  function CurrentJob(s: Sys, h: nat): AnalyzeJob
    requires h < |s.handlers| && s.handlers[h].Submitting? && s.handlers[h].at < |s.handlers[h].repos|
  {
    AnalyzeJob(CurrentSpec(s, h), s.handlers[h].pack, s.handlers[h].language)
  }

  /** The rows a query returns: each row of the session once, in some order. */
  ghost predicate Enumerates(listing: seq<JobSpec>, rows: set<JobSpec>) {
    && (forall js :: js in listing <==> js in rows)
    && (forall i, j :: 0 <= i < j < |listing| ==> listing[i] != listing[j])
  }

  ghost predicate ServerEnabled(s: Sys, e: ServerEvent) {
    match e
    case NewRequest => Free(s)
    case ReadRequest(h, _, _, _) => h < |s.handlers| && s.handlers[h] == Reading
    case RefuseRequest(h) => h < |s.handlers| && s.handlers[h] == Reading
    case SendJob(h) => AtMark(s, h, ToSend) && s.outbox == None
    case MarkPending(h) => AtMark(s, h, ToMark) && Free(s)
    case OpenJob(h) => AtMark(s, h, ToBegin) && Free(s)
    case NumberJob(h) => AtMark(s, h, ToNumber) && Free(s)
    case ListJob(h) => AtMark(s, h, ToList)
    case BeginAnswer(h) =>
      && h < |s.handlers| && s.handlers[h].Submitting?
      && s.handlers[h].mark == ToSend && s.handlers[h].at >= |s.handlers[h].repos|
    case ReadJobList(h, listing, info) =>
      && h < |s.handlers| && s.handlers[h].Listing? && info.queryLanguage == s.handlers[h].language
      && Enumerates(listing, Rows(s.db, h + 1)) && Free(s)
    case SetInfo(h) => h < |s.handlers| && s.handlers[h].Informing? && s.handlers[h].todo != [] && Free(s)
    case Answer(h) => h < |s.handlers| && s.handlers[h].Informing? && s.handlers[h].todo == []
    case PublishJob => s.outbox.Some?
    case LoseJob => s.outbox.Some?
    case PollResult(m) => s.inbox == Polling && m in s.results
    case RejectResult => s.inbox.InRejecting? && Poison(s.inbox.raw) in s.resultsUnacked
    case HandResult => s.inbox.InOffering? && s.recorder == Waiting
    case AckResult => s.inbox.InAcking? && Good(s.inbox.result) in s.resultsUnacked
    case LoseResultAck => s.inbox.InAcking? || s.inbox.InRejecting?
    case RecordResult => s.recorder.Got? && Free(s)
    case RecordStatus => s.recorder.Stored? && Free(s)
  }

  /** The steps of the two loops that take results off the broker and write them. */
  predicate TouchesResults(e: ServerEvent) {
    e.PollResult? || e.RejectResult? || e.HandResult? || e.AckResult? || e.LoseResultAck? || e.RecordResult?
    || e.RecordStatus?
  }

  ghost function RequestApply(s: Sys, e: ServerEvent): Sys
    requires ServerEnabled(s, e) && !TouchesResults(e)
  {
    match e
    case NewRequest => s.(db := NextSession(s.db), handlers := s.handlers + [Reading])
    case ReadRequest(h, language, pack, repos) =>
      var save := SavePack(h + 1, pack);
      s.(store := ObjectSave(s.store, save),
         handlers := s.handlers[h := Submitting(PackLocation(h + 1), language, repos, 0, ToSend)],
         past := s.past.(saves := s.past.saves + [save]))
    case RefuseRequest(h) => s.(handlers := s.handlers[h := Refused])
    case SendJob(h) =>
      var job := CurrentJob(s, h);
      s.(outbox := Some(job),
         handlers := s.handlers[h := s.handlers[h].(mark := ToMark)],
         past := s.past.(sent := s.past.sent + {job.spec}),
         jobBook := s.jobBook.(submitted := s.jobBook.submitted + multiset{Good(job)}))
    case MarkPending(h) =>
      s.(db := StoreStatus(s.db, CurrentSpec(s, h), Pending),
         handlers := s.handlers[h := s.handlers[h].(mark := ToBegin)])
    case OpenJob(h) => s.(handlers := s.handlers[h := s.handlers[h].(mark := ToNumber)])
    case NumberJob(h) =>
      s.(db := NumberRepo(s.db, CurrentSpec(s, h).nwo),
         handlers := s.handlers[h := s.handlers[h].(mark := ToList)])
    case ListJob(h) =>
      s.(db := InsertJob(s.db, CurrentJob(s, h)),
         handlers := s.handlers[h := s.handlers[h].(at := s.handlers[h].at + 1, mark := ToSend)])
    case BeginAnswer(h) =>
      s.(handlers := s.handlers[h := Listing(s.handlers[h].language, s.handlers[h].repos)])
    case ReadJobList(h, listing, info) => s.(handlers := s.handlers[h := Informing(info, listing)])
    case SetInfo(h) =>
      var hd := s.handlers[h];
      s.(db := StoreInfo(s.db, hd.todo[0], hd.info), handlers := s.handlers[h := hd.(todo := hd.todo[1..])])
    case Answer(h) => s.(handlers := s.handlers[h := Answered])
    case PublishJob =>
      var m := Good(s.outbox.value);
      s.(outbox := None, tasks := s.tasks + multiset{m},
         jobBook := s.jobBook.(accepted := s.jobBook.accepted + multiset{m}))
    case LoseJob =>
      s.(outbox := None, jobBook := s.jobBook.(unpublished := s.jobBook.unpublished + multiset{Good(s.outbox.value)}))
  }

  ghost function ResultApply(s: Sys, e: ServerEvent): Sys
    requires ServerEnabled(s, e) && TouchesResults(e)
  {
    match e
    case PollResult(m) =>
      s.(results := s.results - multiset{m}, resultsUnacked := s.resultsUnacked + multiset{m},
         inbox := if m.Good? then InOffering(m.body) else InRejecting(m.raw))
    case RejectResult =>
      var m := Poison(s.inbox.raw);
      s.(inbox := Polling, resultsUnacked := s.resultsUnacked - multiset{m},
         resultBook := s.resultBook.(droppedResults := s.resultBook.droppedResults + multiset{m}))
    case HandResult =>
      var r := s.inbox.result;
      s.(inbox := InAcking(r), recorder := Got(r),
         resultBook := s.resultBook.(handedResults := s.resultBook.handedResults + multiset{Good(r)}))
    case AckResult =>
      var m := Good(s.inbox.result);
      s.(inbox := Polling, resultsUnacked := s.resultsUnacked - multiset{m},
         resultBook := s.resultBook.(ackedResults := s.resultBook.ackedResults + multiset{m}))
    case LoseResultAck =>
      s.(inbox := Polling,
         resultBook := if s.inbox.InAcking? then s.resultBook
                       else s.resultBook.(
                         lostResultOffers := s.resultBook.lostResultOffers + multiset{Poison(s.inbox.raw)}))
    case RecordResult =>
      var r := s.recorder.result;
      s.(db := StoreResult(s.db, r.spec, r), recorder := Stored(r))
    case RecordStatus =>
      var r := s.recorder.result;
      s.(db := StoreStatus(s.db, r.spec, r.status), recorder := Waiting,
         resultBook := s.resultBook.(recorded := s.resultBook.recorded + multiset{Good(r)}))
  }

  ghost function ServerApply(s: Sys, e: ServerEvent): Sys
    requires ServerEnabled(s, e)
  {
    if TouchesResults(e) then ResultApply(s, e) else RequestApply(s, e)
  }

  // ----- Steps of the broker and of strangers

  datatype BrokerEvent =
    | RequeueTask(task: JobMsg)
    | RequeueResult(result: ResultMsg)
    | ForeignTask(raw: nat)
    | ForeignResult(raw: nat)

  ghost predicate BrokerEnabled(s: Sys, e: BrokerEvent) {
    match e
    case RequeueTask(m) => m in s.tasksUnacked
    case RequeueResult(m) => m in s.resultsUnacked
    case ForeignTask(_) => true
    case ForeignResult(_) => true
  }

  /** Unacknowledged messages of a lost connection become ready again; messages that do not decode may arrive. */
  ghost function BrokerApply(s: Sys, e: BrokerEvent): Sys
    requires BrokerEnabled(s, e)
  {
    match e
    case RequeueTask(m) =>
      s.(tasks := s.tasks + multiset{m}, tasksUnacked := s.tasksUnacked - multiset{m},
         jobBook := s.jobBook.(requeued := s.jobBook.requeued + multiset{m}))
    case RequeueResult(m) =>
      s.(results := s.results + multiset{m}, resultsUnacked := s.resultsUnacked - multiset{m},
         resultBook := s.resultBook.(requeuedResults := s.resultBook.requeuedResults + multiset{m}))
    case ForeignTask(raw) =>
      var m := Poison(raw);
      s.(tasks := s.tasks + multiset{m},
         jobBook := s.jobBook.(foreignTasks := s.jobBook.foreignTasks + multiset{m},
                               accepted := s.jobBook.accepted + multiset{m}))
    case ForeignResult(raw) =>
      var m := Poison(raw);
      s.(results := s.results + multiset{m},
         resultBook := s.resultBook.(foreignResults := s.resultBook.foreignResults + multiset{m},
                                     acceptedResults := s.resultBook.acceptedResults + multiset{m}))
  }

  // ----- Steps of the agents

  datatype AgentEvent =
    | PollJob(p: nat, m: JobMsg)
    | RejectJob(p: nat)
    | HandJob(p: nat, w: nat)
    | AckJob(p: nat)
    | LoseJobAck(p: nat)
    | Begin(w: nat)
    | Fail(w: nat)
    | Save(w: nat, data: Bytes, count: int, prefix: string, sha: string)
    | SendResult(w: nat, q: nat)
    | PublishResult(q: nat)
    | LosePublish(q: nat)
    | Die(p: nat)
    | Restart(p: nat)

  predicate IsProc(s: Sys, p: nat, kind: Kind) {
    p < |s.procs| && s.procs[p].kind == kind
  }

  function SetPhase(procs: seq<Proc>, p: nat, phase: Phase): seq<Proc>
    requires p < |procs|
  {
    procs[p := procs[p].(phase := phase)]
  }

  ghost predicate AgentEnabled(s: Sys, e: AgentEvent) {
    match e
    case PollJob(p, m) => IsProc(s, p, Consumer) && s.procs[p].phase == Idle && m in s.tasks
    case RejectJob(p) =>
      IsProc(s, p, Consumer) && s.procs[p].phase.Rejecting? && Poison(s.procs[p].phase.raw) in s.tasksUnacked
    case HandJob(p, w) =>
      && IsProc(s, p, Consumer) && s.procs[p].phase.Offering?
      && IsProc(s, w, Worker) && s.procs[w].phase == Idle && s.procs[w].agent == s.procs[p].agent
    case AckJob(p) =>
      IsProc(s, p, Consumer) && s.procs[p].phase.Acking? && Good(s.procs[p].phase.job) in s.tasksUnacked
    case LoseJobAck(p) => IsProc(s, p, Consumer) && (s.procs[p].phase.Acking? || s.procs[p].phase.Rejecting?)
    case Begin(w) => IsProc(s, w, Worker) && s.procs[w].phase.Received?
    case Fail(w) => IsProc(s, w, Worker) && s.procs[w].phase.Analysing?
    case Save(w, _, _, _, _) => IsProc(s, w, Worker) && s.procs[w].phase.Analysing?
    case SendResult(w, q) =>
      && IsProc(s, w, Worker) && s.procs[w].phase.Sending?
      && IsProc(s, q, Publisher) && s.procs[q].phase == Idle && s.procs[q].agent == s.procs[w].agent
    case PublishResult(q) => IsProc(s, q, Publisher) && s.procs[q].phase.Publishing?
    case LosePublish(q) => IsProc(s, q, Publisher) && s.procs[q].phase.Publishing?
    case Die(p) => p < |s.procs|
    case Restart(p) => p < |s.procs| && s.procs[p].phase == Dead
  }

  /** The job a dying goroutine takes with it. */
  function BuryJob(book: JobBook, phase: Phase): JobBook {
    match phase
    case Offering(j) => book.(lostOffers := book.lostOffers + multiset{Good(j)})
    case Rejecting(raw) => book.(lostOffers := book.lostOffers + multiset{Poison(raw)})
    case Received(j) => book.(lostRuns := book.lostRuns + multiset{Good(j)})
    case Analysing(j) => book.(lostRuns := book.lostRuns + multiset{Good(j)})
    case _ => book
  }

  /** The result a dying goroutine takes with it. */
  function BuryResult(book: ResultBook, phase: Phase): ResultBook {
    match phase
    case Sending(r) => book.(lostSends := book.lostSends + multiset{Good(r)})
    case Publishing(r) => book.(lostSends := book.lostSends + multiset{Good(r)})
    case _ => book
  }

  ghost function AgentApply(s: Sys, e: AgentEvent): Sys
    requires AgentEnabled(s, e)
  {
    match e
    case PollJob(p, m) =>
      s.(tasks := s.tasks - multiset{m}, tasksUnacked := s.tasksUnacked + multiset{m},
         procs := SetPhase(s.procs, p, if m.Good? then Offering(m.body) else Rejecting(m.raw)))
    case RejectJob(p) =>
      var m := Poison(s.procs[p].phase.raw);
      s.(tasksUnacked := s.tasksUnacked - multiset{m}, procs := SetPhase(s.procs, p, Idle),
         jobBook := s.jobBook.(dropped := s.jobBook.dropped + multiset{m}))
    case HandJob(p, w) =>
      var job := s.procs[p].phase.job;
      s.(procs := SetPhase(SetPhase(s.procs, p, Acking(job)), w, Received(job)),
         jobBook := s.jobBook.(handed := s.jobBook.handed + multiset{Good(job)}))
    case AckJob(p) =>
      var m := Good(s.procs[p].phase.job);
      s.(tasksUnacked := s.tasksUnacked - multiset{m}, procs := SetPhase(s.procs, p, Idle),
         jobBook := s.jobBook.(acked := s.jobBook.acked + multiset{m}))
    case LoseJobAck(p) =>
      s.(procs := SetPhase(s.procs, p, Idle),
         jobBook := if s.procs[p].phase.Acking? then s.jobBook
                    else s.jobBook.(lostOffers := s.jobBook.lostOffers + multiset{Poison(s.procs[p].phase.raw)}))
    case Begin(w) =>
      var job := s.procs[w].phase.job;
      s.(db := StoreStatus(s.db, job.spec, InProgress), procs := SetPhase(s.procs, w, Analysing(job)),
         past := s.past.(started := s.past.started + {job.spec}))
    case Fail(w) =>
      s.(procs := SetPhase(s.procs, w, Idle),
         jobBook := s.jobBook.(failed := s.jobBook.failed + multiset{Good(s.procs[w].phase.job)}))
    case Save(w, data, count, prefix, sha) =>
      var job := s.procs[w].phase.job;
      var result := AnalyzeResult(job.spec, Succeeded, count, ResultLocation(job.spec), prefix, sha);
      var save := SaveOp.SaveResult(job.spec, data);
      s.(store := ObjectSave(s.store, save), procs := SetPhase(s.procs, w, Sending(result)),
         past := s.past.(saves := s.past.saves + [save], finished := s.past.finished + [Finish(job, result)]))
    case SendResult(w, q) =>
      var r := s.procs[w].phase.result;
      s.(procs := SetPhase(SetPhase(s.procs, w, Idle), q, Publishing(r)))
    case PublishResult(q) =>
      var m := Good(s.procs[q].phase.result);
      s.(results := s.results + multiset{m}, procs := SetPhase(s.procs, q, Idle),
         resultBook := s.resultBook.(acceptedResults := s.resultBook.acceptedResults + multiset{m}))
    case LosePublish(q) =>
      var m := Good(s.procs[q].phase.result);
      s.(procs := SetPhase(s.procs, q, Idle),
         resultBook := s.resultBook.(unpublishedResults := s.resultBook.unpublishedResults + multiset{m}))
    case Die(p) =>
      s.(procs := SetPhase(s.procs, p, Dead),
         jobBook := BuryJob(s.jobBook, s.procs[p].phase), resultBook := BuryResult(s.resultBook, s.procs[p].phase))
    case Restart(p) => s.(procs := SetPhase(s.procs, p, Idle))
  }

  // ----- Steps of the readers

  datatype ReaderEvent =
    | OpenStatus(session: int)
    | OpenDownload(session: int, repoId: int)
    | Look(v: nat, listing: seq<JobSpec>)

  predicate IsAnswered(s: Sys, session: int) {
    1 <= session <= |s.handlers| && s.handlers[session - 1] == Answered
  }

  /** Some finished status response for the session showed the repository id. */
  ghost predicate Shown(s: Sys, session: int, repoId: int) {
    exists v, i ::
      && 0 <= v < |s.visits| && s.visits[v].at.StatusDone? && s.visits[v].at.session == session
      && 0 <= i < |s.visits[v].at.rows| && s.visits[v].at.rows[i].repoId == repoId
  }

  predicate Finished(r: Reader) {
    r.StatusDone? || r.EmptyDone? || r.DownDone? || r.LookupFailed?
  }

  predicate Lists(r: Reader) {
    r.ListFirst? || r.ListAgain?
  }

  predicate Visits(r: Reader) {
    r.FetchStatus? || r.FetchResult? || r.FetchSize? || r.FetchRepoId?
  }

  /** Sizes and data come from the bucket; every other look needs a database connection. */
  predicate ReadsTables(r: Reader) {
    !r.FetchSize? && !r.DownData?
  }

  ghost predicate ReaderEnabled(s: Sys, e: ReaderEvent) {
    match e
    case OpenStatus(_) => true
    case OpenDownload(_, _) => true
    case Look(v, listing) =>
      && v < |s.visits| && !Finished(s.visits[v].at)
      && (Lists(s.visits[v].at) ==> Enumerates(listing, Rows(s.db, s.visits[v].at.session)))
      && (Visits(s.visits[v].at) ==> s.visits[v].at.todo != [])
      && (ReadsTables(s.visits[v].at) ==> Free(s))
  }

  function NextJob(session: int, todo: seq<JobSpec>, rows: seq<Row>): Reader {
    if todo == [] then FetchSummary(session, rows) else FetchStatus(session, todo, rows)
  }

  /** The next lookup of a request and where its answer leads. */
  ghost function NextLook(s: Sys, at: Reader, listing: seq<JobSpec>): Reader
    requires !Finished(at)
    requires Visits(at) ==> at.todo != []
  {
    match at
    case ListFirst(n) => if listing == [] then EmptyDone(n) else FetchInfo(n, listing[0])
    case FetchInfo(n, first) => if first in s.db.info then ListAgain(n) else LookupFailed(InfoOf)
    case ListAgain(n) => NextJob(n, listing, [])
    case FetchStatus(n, todo, rows) =>
      if todo[0] !in s.db.status then LookupFailed(StatusOfListed)
      else if s.db.status[todo[0]] == Succeeded then FetchResult(n, todo, rows)
      else FetchRepoId(n, todo, rows, s.db.status[todo[0]], 0, 0)
    case FetchResult(n, todo, rows) =>
      if todo[0] !in s.db.results then LookupFailed(ResultOf) else FetchSize(n, todo, rows, s.db.results[todo[0]])
    case FetchSize(n, todo, rows, r) =>
      if r.resultLocation !in s.store then LookupFailed(ArtifactOf)
      else FetchRepoId(n, todo, rows, Succeeded, r.resultCount, |s.store[r.resultLocation]|)
    case FetchRepoId(n, todo, rows, st, count, size) =>
      var id := NumberRepo(s.db, todo[0].nwo).repoIds[todo[0].nwo];
      NextJob(n, todo[1..], rows + [Row(todo[0], st, count, size, id)])
    case FetchSummary(n, rows) =>
      StatusDone(n, rows, SessionSummary.Summary(SessionSummary.StatusesOf(s.db.status, n)).overall)
    case FindSpec(n, id) =>
      (match SpecByRepoId(s.db, n, id)
       case None => LookupFailed(SpecOf)
       case Some(js) => DownStatus(js))
    case DownStatus(js) =>
      if js !in s.db.status then LookupFailed(StatusForDownload)
      else if s.db.status[js] == Succeeded then DownResult(js)
      else DownDone(js, None)
    case DownResult(js) =>
      if js !in s.db.results then LookupFailed(ResultOf) else DownData(js, s.db.results[js])
    case DownData(js, r) =>
      if r.resultLocation !in s.store then LookupFailed(ArtifactOf) else DownDone(js, Some(s.store[r.resultLocation]))
  }

  ghost function ReaderApply(s: Sys, e: ReaderEvent): Sys
    requires ReaderEnabled(s, e)
  {
    match e
    case OpenStatus(n) => s.(visits := s.visits + [Visit(IsAnswered(s, n), ListFirst(n))])
    case OpenDownload(n, id) => s.(visits := s.visits + [Visit(Shown(s, n, id), FindSpec(n, id))])
    case Look(v, listing) =>
      var at := s.visits[v].at;
      s.(visits := s.visits[v := s.visits[v].(at := NextLook(s, at, listing))],
         db := if at.FetchRepoId? then NumberRepo(s.db, at.todo[0].nwo) else s.db)
  }

  // ----- Runs

  datatype Event =
    | OfServer(se: ServerEvent)
    | OfBroker(be: BrokerEvent)
    | OfAgent(ae: AgentEvent)
    | OfReader(re: ReaderEvent)

  ghost predicate Enabled(s: Sys, e: Event) {
    match e
    case OfServer(x) => ServerEnabled(s, x)
    case OfBroker(x) => BrokerEnabled(s, x)
    case OfAgent(x) => AgentEnabled(s, x)
    case OfReader(x) => ReaderEnabled(s, x)
  }

  ghost function Apply(s: Sys, e: Event): Sys
    requires Enabled(s, e)
  {
    match e
    case OfServer(x) => ServerApply(s, x)
    case OfBroker(x) => BrokerApply(s, x)
    case OfAgent(x) => AgentApply(s, x)
    case OfReader(x) => ReaderApply(s, x)
  }

  ghost predicate Valid(s: Sys, run: seq<Event>)
    decreases |run|, 0
  {
    run == [] || (Valid(s, run[..|run| - 1]) && Enabled(After(s, run[..|run| - 1]), run[|run| - 1]))
  }

  ghost function After(s: Sys, run: seq<Event>): Sys
    requires Valid(s, run)
    decreases |run|, 1
  {
    if run == [] then s else Apply(After(s, run[..|run| - 1]), run[|run| - 1])
  }

  lemma {:induction false} PrefixValid(s: Sys, run: seq<Event>, i: nat)
    requires Valid(s, run) && i <= |run|
    ensures Valid(s, run[..i])
  {
    if i == |run| {
      assert run[..i] == run;
    } else {
      PrefixValid(s, run[..|run| - 1], i);
      assert run[..|run| - 1][..i] == run[..i];
    }
  }

  lemma {:induction false} Extend(s: Sys, run: seq<Event>, e: Event)
    requires Valid(s, run) && Enabled(After(s, run), e)
    ensures Valid(s, run + [e]) && After(s, run + [e]) == Apply(After(s, run), e)
  {
    assert (run + [e])[..|run|] == run;
  }

  ghost predicate Reaches(s: Sys, run: seq<Event>, s': Sys) {
    Valid(s, run) && After(s, run) == s'
  }

  lemma Then(s: Sys, run: seq<Event>, at: Sys, e: Event) returns (run': seq<Event>, s': Sys)
    requires Reaches(s, run, at) && Enabled(at, e)
    ensures run' == run + [e] && s' == Apply(at, e) && Reaches(s, run', s')
  {
    Extend(s, run, e);
    run', s' := run + [e], Apply(at, e);
  }

  lemma {:induction false} Append(s: Sys, a: seq<Event>, mid: Sys, b: seq<Event>)
    requires Reaches(s, a, mid) && Valid(mid, b)
    ensures Reaches(s, a + b, After(mid, b))
  {
    if b == [] {
      assert a + b == a;
    } else {
      var n := |b| - 1;
      Append(s, a, mid, b[..n]);
      var run, last := Then(s, a + b[..n], After(mid, b[..n]), b[n]);
      assert run == a + b;
    }
  }

  lemma Prepend(s: Sys, e: Event, run: seq<Event>)
    requires Enabled(s, e) && Valid(Apply(s, e), run)
    ensures Reaches(s, [e] + run, After(Apply(s, e), run))
  {
    var first, mid := Then(s, [], s, e);
    assert first == [e];
    Append(s, [e], mid, run);
  }
}
