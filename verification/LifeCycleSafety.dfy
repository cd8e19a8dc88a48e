/** What every step of the job life cycle keeps, and what therefore holds in every reachable state. */
module LifeCycleSafety {
  import opened Common
  import opened PGState
  import opened ArtifactStore
  import opened LifeCycle

  // ----- What is on its way: a job was sent with its pack saved, a result was started and saved

  /** The growing facts that messages rely on. */
  datatype World = World(sent: set<JobSpec>, started: set<JobSpec>, saved: set<ArtifactLocation>)

  function WorldOf(s: Sys): World {
    World(s.past.sent, s.past.started, s.store.Keys)
  }

  ghost predicate Within(w: World, w': World) {
    w.sent <= w'.sent && w.started <= w'.started && w.saved <= w'.saved
  }

  predicate JobOk(j: AnalyzeJob, w: World) {
    j.spec in w.sent && j.queryPackLocation == PackLocation(j.spec.sessionId) && j.queryPackLocation in w.saved
  }

  predicate ResultOk(r: AnalyzeResult, w: World) {
    && r.status == Succeeded
    && r.resultLocation == ResultLocation(r.spec)
    && r.resultLocation in w.saved
    && r.spec in w.started
    && r.spec in w.sent
  }

  ghost predicate JobsOk(ms: multiset<JobMsg>, w: World) {
    forall m :: m in ms && m.Good? ==> JobOk(m.body, w)
  }

  ghost predicate ResultsOk(ms: multiset<ResultMsg>, w: World) {
    forall m :: m in ms && m.Good? ==> ResultOk(m.body, w)
  }

  predicate PhaseOk(ph: Phase, w: World) {
    match ph
    case Offering(j) => JobOk(j, w)
    case Acking(j) => JobOk(j, w)
    case Received(j) => JobOk(j, w)
    case Analysing(j) => JobOk(j, w) && j.spec in w.started
    case Sending(r) => ResultOk(r, w)
    case Publishing(r) => ResultOk(r, w)
    case _ => true
  }

  ghost predicate ProcsOk(procs: seq<Proc>, w: World) {
    forall i :: 0 <= i < |procs| ==> PhaseOk(procs[i].phase, w)
  }

  predicate OutboxOk(outbox: Option<AnalyzeJob>, w: World) {
    outbox.Some? ==> JobOk(outbox.value, w)
  }

  predicate InboxOk(inbox: Inbox, w: World) {
    inbox.InOffering? || inbox.InAcking? ==> ResultOk(inbox.result, w)
  }

  predicate RecorderOk(recorder: Recorder, w: World) {
    recorder.Waiting? || ResultOk(recorder.result, w)
  }

  ghost predicate PacksOk(handlers: seq<Handler>, w: World) {
    forall h :: 0 <= h < |handlers| && handlers[h].Submitting? ==>
      handlers[h].pack == PackLocation(h + 1) && handlers[h].pack in w.saved
  }

  ghost predicate CarriedIn(s: Sys, w: World) {
    && OutboxOk(s.outbox, w) && JobsOk(s.tasks, w) && JobsOk(s.tasksUnacked, w)
    && ProcsOk(s.procs, w)
    && ResultsOk(s.results, w) && ResultsOk(s.resultsUnacked, w)
    && InboxOk(s.inbox, w) && RecorderOk(s.recorder, w)
    && PacksOk(s.handlers, w)
  }

  ghost predicate Carried(s: Sys) {
    CarriedIn(s, WorldOf(s))
  }

  lemma CarriedGrows(s: Sys, w: World, w': World)
    requires CarriedIn(s, w) && Within(w, w')
    ensures CarriedIn(s, w')
  {
  }

  lemma OpeningCarries(s: Sys, e: ServerEvent)
    requires e.NewRequest? || e.RefuseRequest?
    requires ServerEnabled(s, e) && Carried(s)
    ensures Carried(ServerApply(s, e))
  {
  }

  lemma RequestCarries(s: Sys, e: ServerEvent)
    requires e.ReadRequest? || e.SendJob?
    requires ServerEnabled(s, e) && Carried(s)
    ensures Carried(ServerApply(s, e))
  {
    CarriedGrows(s, WorldOf(s), WorldOf(ServerApply(s, e)));
  }

  /** A handler that moved on, with the same query pack saved or none to look for. */
  lemma HandlersCarry(s: Sys, s': Sys)
    requires Carried(s) && s' == s.(handlers := s'.handlers, db := s'.db) && PacksOk(s'.handlers, WorldOf(s))
    ensures Carried(s')
  {
    assert WorldOf(s') == WorldOf(s);
  }

  lemma MarkCarries(s: Sys, e: ServerEvent)
    requires e.MarkPending? || e.OpenJob?
    requires ServerEnabled(s, e) && Carried(s)
    ensures Carried(ServerApply(s, e))
  {
    HandlersCarry(s, ServerApply(s, e));
  }

  lemma ListCarries(s: Sys, e: ServerEvent)
    requires e.NumberJob? || e.ListJob?
    requires ServerEnabled(s, e) && Carried(s)
    ensures Carried(ServerApply(s, e))
  {
    HandlersCarry(s, ServerApply(s, e));
  }

  lemma BeginAnswerCarries(s: Sys, e: ServerEvent)
    requires e.BeginAnswer? || e.ReadJobList?
    requires ServerEnabled(s, e) && Carried(s)
    ensures Carried(ServerApply(s, e))
  {
    HandlersCarry(s, ServerApply(s, e));
  }

  lemma AnswerCarries(s: Sys, e: ServerEvent)
    requires e.SetInfo? || e.Answer?
    requires ServerEnabled(s, e) && Carried(s)
    ensures Carried(ServerApply(s, e))
  {
    HandlersCarry(s, ServerApply(s, e));
  }

  lemma OutboxCarries(s: Sys, e: ServerEvent)
    requires e.PublishJob? || e.LoseJob?
    requires ServerEnabled(s, e) && Carried(s)
    ensures Carried(ServerApply(s, e))
  {
    assert WorldOf(ServerApply(s, e)) == WorldOf(s);
  }

  lemma PollCarries(s: Sys, e: ServerEvent)
    requires e.PollResult? || e.RejectResult? || e.AckResult?
    requires ServerEnabled(s, e) && Carried(s)
    ensures Carried(ServerApply(s, e))
  {
    assert WorldOf(ServerApply(s, e)) == WorldOf(s);
  }

  lemma RecorderCarries(s: Sys, e: ServerEvent)
    requires e.HandResult? || e.LoseResultAck? || e.RecordResult? || e.RecordStatus?
    requires ServerEnabled(s, e) && Carried(s)
    ensures Carried(ServerApply(s, e))
  {
  }

  lemma ServerCarries(s: Sys, e: ServerEvent)
    requires ServerEnabled(s, e) && Carried(s)
    ensures Carried(ServerApply(s, e))
  {
    if e.NewRequest? || e.RefuseRequest? {
      OpeningCarries(s, e);
    } else if e.ReadRequest? || e.SendJob? {
      RequestCarries(s, e);
    } else if e.PublishJob? || e.LoseJob? {
      OutboxCarries(s, e);
    } else if e.PollResult? || e.RejectResult? || e.AckResult? {
      PollCarries(s, e);
    } else if e.HandResult? || e.LoseResultAck? || e.RecordResult? || e.RecordStatus? {
      RecorderCarries(s, e);
    } else if e.MarkPending? || e.OpenJob? {
      MarkCarries(s, e);
    } else if e.NumberJob? || e.ListJob? {
      ListCarries(s, e);
    } else if e.BeginAnswer? || e.ReadJobList? {
      BeginAnswerCarries(s, e);
    } else {
      AnswerCarries(s, e);
    }
  }

  lemma PhaseSet(procs: seq<Proc>, p: nat, phase: Phase, w: World)
    requires ProcsOk(procs, w) && p < |procs| && PhaseOk(phase, w)
    ensures ProcsOk(SetPhase(procs, p, phase), w)
  {
  }

  lemma PollJobCarries(s: Sys, e: AgentEvent)
    requires e.PollJob? && AgentEnabled(s, e) && Carried(s)
    ensures Carried(AgentApply(s, e))
  {
    PhaseSet(s.procs, e.p, if e.m.Good? then Offering(e.m.body) else Rejecting(e.m.raw), WorldOf(s));
  }

  lemma HandJobCarries(s: Sys, e: AgentEvent)
    requires e.HandJob? && AgentEnabled(s, e) && Carried(s)
    ensures Carried(AgentApply(s, e))
  {
    var job := s.procs[e.p].phase.job;
    assert PhaseOk(s.procs[e.p].phase, WorldOf(s));
    PhaseSet(s.procs, e.p, Acking(job), WorldOf(s));
    PhaseSet(SetPhase(s.procs, e.p, Acking(job)), e.w, Received(job), WorldOf(s));
  }

  lemma BeginCarries(s: Sys, e: AgentEvent)
    requires e.Begin? && AgentEnabled(s, e) && Carried(s)
    ensures Carried(AgentApply(s, e))
  {
    var s' := AgentApply(s, e);
    CarriedGrows(s, WorldOf(s), WorldOf(s'));
    assert PhaseOk(s.procs[e.w].phase, WorldOf(s'));
    PhaseSet(s.procs, e.w, Analysing(s.procs[e.w].phase.job), WorldOf(s'));
  }

  lemma SaveCarries(s: Sys, e: AgentEvent)
    requires e.Save? && AgentEnabled(s, e) && Carried(s)
    ensures Carried(AgentApply(s, e))
  {
    var s' := AgentApply(s, e);
    CarriedGrows(s, WorldOf(s), WorldOf(s'));
    assert PhaseOk(s.procs[e.w].phase, WorldOf(s'));
    PhaseSet(s.procs, e.w, s'.procs[e.w].phase, WorldOf(s'));
  }

  lemma SendResultCarries(s: Sys, e: AgentEvent)
    requires e.SendResult? && AgentEnabled(s, e) && Carried(s)
    ensures Carried(AgentApply(s, e))
  {
    var r := s.procs[e.w].phase.result;
    assert PhaseOk(s.procs[e.w].phase, WorldOf(s));
    PhaseSet(s.procs, e.w, Idle, WorldOf(s));
    PhaseSet(SetPhase(s.procs, e.w, Idle), e.q, Publishing(r), WorldOf(s));
  }

  lemma LosePublishCarries(s: Sys, e: AgentEvent)
    requires e.LosePublish? && AgentEnabled(s, e) && Carried(s)
    ensures Carried(AgentApply(s, e))
  {
    PhaseSet(s.procs, e.q, Idle, WorldOf(s));
  }

  lemma PublishResultCarries(s: Sys, e: AgentEvent)
    requires e.PublishResult? && AgentEnabled(s, e) && Carried(s)
    ensures Carried(AgentApply(s, e))
  {
    assert PhaseOk(s.procs[e.q].phase, WorldOf(s));
    PhaseSet(s.procs, e.q, Idle, WorldOf(s));
  }

  lemma SettleCarries(s: Sys, e: AgentEvent)
    requires e.RejectJob? || e.AckJob? || e.LoseJobAck?
    requires AgentEnabled(s, e) && Carried(s)
    ensures Carried(AgentApply(s, e))
  {
    PhaseSet(s.procs, e.p, Idle, WorldOf(s));
  }

  lemma StopCarries(s: Sys, e: AgentEvent)
    requires e.Fail? || e.Restart?
    requires AgentEnabled(s, e) && Carried(s)
    ensures Carried(AgentApply(s, e))
  {
    PhaseSet(s.procs, if e.Fail? then e.w else e.p, Idle, WorldOf(s));
  }

  lemma DieCarries(s: Sys, e: AgentEvent)
    requires e.Die? && AgentEnabled(s, e) && Carried(s)
    ensures Carried(AgentApply(s, e))
  {
    PhaseSet(s.procs, e.p, Dead, WorldOf(s));
  }

  lemma AgentCarries(s: Sys, e: AgentEvent)
    requires AgentEnabled(s, e) && Carried(s)
    ensures Carried(AgentApply(s, e))
  {
    match e
    case PollJob(_, _) => PollJobCarries(s, e);
    case HandJob(_, _) => HandJobCarries(s, e);
    case Begin(_) => BeginCarries(s, e);
    case Save(_, _, _, _, _) => SaveCarries(s, e);
    case SendResult(_, _) => SendResultCarries(s, e);
    case PublishResult(_) => PublishResultCarries(s, e);
    case LosePublish(_) => LosePublishCarries(s, e);
    case RejectJob(_) => SettleCarries(s, e);
    case AckJob(_) => SettleCarries(s, e);
    case LoseJobAck(_) => SettleCarries(s, e);
    case Die(_) => DieCarries(s, e);
    case _ => StopCarries(s, e);
  }

  lemma BrokerCarries(s: Sys, e: BrokerEvent)
    requires BrokerEnabled(s, e) && Carried(s)
    ensures Carried(BrokerApply(s, e))
  {
  }

  lemma ReaderCarries(s: Sys, e: ReaderEvent)
    requires ReaderEnabled(s, e) && Carried(s)
    ensures Carried(ReaderApply(s, e))
  {
  }

  // ----- The tables

  ghost predicate Recorded(s: Sys) {
    && (forall js :: js in s.db.results ==> s.db.results[js].spec == js && ResultOk(s.db.results[js], WorldOf(s)))
    && (forall js :: js in s.db.status ==> s.db.status[js] in {Pending, InProgress, Succeeded})
    && (forall js :: js in s.db.status && s.db.status[js] == Succeeded ==> js in s.db.results)
    && (s.recorder.Stored? ==> s.recorder.result.spec in s.db.results)
    && (forall js :: js in s.db.status ==> js in s.past.sent)
  }

  /** How far the handler of a listed job's session must have come. */
  ghost predicate RowOk(s: Sys, js: JobSpec) {
    && js in s.db.status
    && 1 <= js.sessionId <= |s.handlers|
    && match s.handlers[js.sessionId - 1]
       case Submitting(_, _, repos, at, _) => at <= |repos| && js.nwo in repos[..at]
       case Listing(_, repos) => js.nwo in repos
       case Informing(_, todo) => js in todo || js in s.db.info
       case Answered => js in s.db.info
       case _ => false
  }

  ghost predicate HandlerOk(s: Sys, h: nat)
    requires h < |s.handlers|
  {
    s.handlers[h].Submitting? ==>
      && s.handlers[h].at <= |s.handlers[h].repos|
      && (s.handlers[h].mark != ToSend ==> s.handlers[h].at < |s.handlers[h].repos| && CurrentSpec(s, h) in s.past.sent)
      && (s.handlers[h].mark in {ToBegin, ToNumber, ToList} ==> CurrentSpec(s, h) in s.db.status)
  }

  ghost predicate Listed(s: Sys) {
    && |s.handlers| == s.db.sessionSeq
    && (forall h :: 0 <= h < |s.handlers| ==> HandlerOk(s, h))
    && (forall js :: js in s.db.jobs ==> s.db.jobs[js].spec == js && RowOk(s, js))
    && RepoIdsSound(s.db)
  }

  ghost predicate Remembered(s: Sys) {
    && s.store == ObjectRun(s.past.saves)
    && (forall i :: 0 <= i < |s.past.saves| && s.past.saves[i].SaveResult? ==> s.past.saves[i].js in s.past.sent)
  }

  // ----- Readers

  ghost predicate RowShown(s: Sys, r: Row) {
    && r.js in s.db.status && r.js in s.db.jobs
    && r.js.nwo in s.db.repoIds && s.db.repoIds[r.js.nwo] == r.repoId
    && (r.status == Succeeded ==> r.js in s.db.results && ResultLocation(r.js) in s.store)
  }

  ghost predicate AllListed(s: Sys, session: int, todo: seq<JobSpec>) {
    forall i :: 0 <= i < |todo| ==> todo[i] in s.db.jobs && todo[i].sessionId == session
  }

  ghost predicate AllShown(s: Sys, session: int, rows: seq<Row>) {
    forall i :: 0 <= i < |rows| ==> RowShown(s, rows[i]) && rows[i].js.sessionId == session
  }

  /** No lookup fails but the three that an unpromised request may not expect to succeed. */
  ghost predicate VisitOk(s: Sys, v: Visit) {
    match v.at
    case ListFirst(n) => v.promised ==> IsAnswered(s, n)
    case FetchInfo(n, first) =>
      first in s.db.jobs && first.sessionId == n && (v.promised ==> IsAnswered(s, n) && first in s.db.info)
    case ListAgain(n) => true
    case FetchStatus(n, todo, rows) => AllListed(s, n, todo) && AllShown(s, n, rows) && todo != []
    case FetchResult(n, todo, rows) =>
      AllListed(s, n, todo) && AllShown(s, n, rows) && todo != [] && todo[0] in s.db.results
    case FetchSize(n, todo, rows, r) =>
      && AllListed(s, n, todo) && AllShown(s, n, rows) && todo != [] && todo[0] in s.db.results
      && r.spec == todo[0] && ResultOk(r, WorldOf(s))
    case FetchRepoId(n, todo, rows, st, _, _) =>
      && AllListed(s, n, todo) && AllShown(s, n, rows) && todo != []
      && (st == Succeeded ==> todo[0] in s.db.results && ResultLocation(todo[0]) in s.store)
    case FetchSummary(n, rows) => AllShown(s, n, rows)
    case StatusDone(n, rows, _) => AllShown(s, n, rows)
    case EmptyDone(_) => true
    case FindSpec(n, id) => v.promised ==> exists js :: IdOfListed(s, n, id, js)
    case DownStatus(js) => v.promised ==> js in s.db.status
    case DownResult(js) => js in s.db.results
    case DownData(js, r) => js in s.db.results && r.spec == js && ResultOk(r, WorldOf(s))
    case DownDone(js, data) => data.Some? ==> js in s.db.results && SavedUnder(s, js, data.value)
    case LookupFailed(l) => !v.promised && l in {InfoOf, SpecOf, StatusForDownload}
  }

  /** The data was saved before at the location of this job's result. */
  ghost predicate SavedUnder(s: Sys, js: JobSpec, data: Bytes) {
    exists i :: 0 <= i < |s.past.saves| && Target(s.past.saves[i]) == ResultLocation(js) && s.past.saves[i].data == data
  }

  ghost predicate IdOfListed(s: Sys, session: int, id: int, js: JobSpec) {
    js in s.db.jobs && js.sessionId == session && js.nwo in s.db.repoIds && s.db.repoIds[js.nwo] == id
  }

  ghost predicate VisitsOk(s: Sys) {
    forall v :: 0 <= v < |s.visits| ==> VisitOk(s, s.visits[v])
  }

  ghost predicate Inv(s: Sys) {
    Carried(s) && Recorded(s) && Listed(s) && Remembered(s) && VisitsOk(s)
  }

  /** The steps that move messages between the queues and the loops around them. */
  predicate FromQueue(e: ServerEvent) {
    e.PublishJob? || e.LoseJob? || e.PollResult? || e.RejectResult? || e.HandResult? || e.AckResult?
    || e.LoseResultAck?
  }

  // ----- What never shrinks

  ghost predicate Grows(s: Sys, s': Sys) {
    && s.past.sent <= s'.past.sent
    && s.past.started <= s'.past.started
    && s.past.saves <= s'.past.saves
    && s.store.Keys <= s'.store.Keys
    && s.db.results.Keys <= s'.db.results.Keys
    && s.db.status.Keys <= s'.db.status.Keys
    && s.db.info.Keys <= s'.db.info.Keys
    && s.db.jobs.Keys <= s'.db.jobs.Keys
    && Extends(s.db.repoIds, s'.db.repoIds)
    && |s.handlers| <= |s'.handlers|
    && (forall n :: IsAnswered(s, n) ==> IsAnswered(s', n))
  }

  lemma OpeningGrows(s: Sys, e: ServerEvent)
    requires e.NewRequest? || e.ReadRequest? || e.RefuseRequest?
    requires ServerEnabled(s, e)
    ensures Grows(s, ServerApply(s, e))
  {
  }

  lemma SubmittingGrows(s: Sys, e: ServerEvent)
    requires e.SendJob? || e.OpenJob? || e.NumberJob? || e.ListJob?
    requires ServerEnabled(s, e)
    ensures Grows(s, ServerApply(s, e))
  {
  }

  lemma AnswerGrows(s: Sys, e: ServerEvent)
    requires e.BeginAnswer? || e.ReadJobList? || e.SetInfo? || e.Answer? || e.MarkPending?
    requires ServerEnabled(s, e)
    ensures Grows(s, ServerApply(s, e))
  {
  }

  lemma RecorderGrows(s: Sys, e: ServerEvent)
    requires e.RecordResult? || e.RecordStatus?
    requires ServerEnabled(s, e)
    ensures Grows(s, ServerApply(s, e))
  {
  }

  lemma QueueGrows(s: Sys, e: ServerEvent)
    requires FromQueue(e)
    requires ServerEnabled(s, e)
    ensures Grows(s, ServerApply(s, e))
  {
  }

  lemma ServerGrows(s: Sys, e: ServerEvent)
    requires ServerEnabled(s, e)
    ensures Grows(s, ServerApply(s, e))
  {
    if e.NewRequest? || e.ReadRequest? || e.RefuseRequest? {
      OpeningGrows(s, e);
    } else if e.SendJob? || e.OpenJob? || e.NumberJob? || e.ListJob? {
      SubmittingGrows(s, e);
    } else if e.BeginAnswer? || e.ReadJobList? || e.SetInfo? || e.Answer? || e.MarkPending? {
      AnswerGrows(s, e);
    } else if FromQueue(e) {
      QueueGrows(s, e);
    } else {
      RecorderGrows(s, e);
    }
  }

  lemma AgentGrows(s: Sys, e: AgentEvent)
    requires AgentEnabled(s, e)
    ensures Grows(s, AgentApply(s, e))
  {
  }

  lemma ReaderGrows(s: Sys, e: ReaderEvent)
    requires ReaderEnabled(s, e)
    ensures Grows(s, ReaderApply(s, e))
  {
  }

  // ----- The tables step by step

  lemma MarkPendingRecords(s: Sys, e: ServerEvent)
    requires e.MarkPending? && ServerEnabled(s, e) && Recorded(s) && Listed(s)
    ensures Recorded(ServerApply(s, e))
  {
    assert HandlerOk(s, e.h);
  }

  lemma RecordRecords(s: Sys, e: ServerEvent)
    requires e.RecordResult? || e.RecordStatus?
    requires ServerEnabled(s, e) && Carried(s) && Recorded(s)
    ensures Recorded(ServerApply(s, e))
  {
  }

  lemma WorldRecords(s: Sys, e: ServerEvent)
    requires e.SendJob? || e.ReadRequest?
    requires ServerEnabled(s, e) && Recorded(s)
    ensures Recorded(ServerApply(s, e))
  {
  }

  lemma HandlerRecords(s: Sys, e: ServerEvent)
    requires e.NewRequest? || e.RefuseRequest? || e.OpenJob? || e.NumberJob? || e.ListJob? || e.BeginAnswer?
          || e.ReadJobList? || e.SetInfo? || e.Answer?
    requires ServerEnabled(s, e) && Recorded(s)
    ensures Recorded(ServerApply(s, e))
  {
  }

  lemma QueueRecords(s: Sys, e: ServerEvent)
    requires FromQueue(e)
    requires ServerEnabled(s, e) && Recorded(s)
    ensures Recorded(ServerApply(s, e))
  {
  }

  lemma ServerRecords(s: Sys, e: ServerEvent)
    requires ServerEnabled(s, e) && Carried(s) && Recorded(s) && Listed(s)
    ensures Recorded(ServerApply(s, e))
  {
    if e.MarkPending? {
      MarkPendingRecords(s, e);
    } else if e.RecordResult? || e.RecordStatus? {
      RecordRecords(s, e);
    } else if e.SendJob? || e.ReadRequest? {
      WorldRecords(s, e);
    } else if FromQueue(e) {
      QueueRecords(s, e);
    } else {
      HandlerRecords(s, e);
    }
  }

  lemma AgentRecords(s: Sys, e: AgentEvent)
    requires AgentEnabled(s, e) && Carried(s) && Recorded(s)
    ensures Recorded(AgentApply(s, e))
  {
    AgentGrows(s, e);
    if e.Begin? {
      assert PhaseOk(s.procs[e.w].phase, WorldOf(s));
    }
  }

  lemma BrokerRecords(s: Sys, e: BrokerEvent)
    requires BrokerEnabled(s, e) && Recorded(s)
    ensures Recorded(BrokerApply(s, e))
  {
  }

  lemma ReaderRecords(s: Sys, e: ReaderEvent)
    requires ReaderEnabled(s, e) && Recorded(s)
    ensures Recorded(ReaderApply(s, e))
  {
  }

  // ----- Handlers and job lists

  /** The rows of other sessions do not notice that one handler moved on. */
  lemma NewRequestLists(s: Sys, e: ServerEvent)
    requires e.NewRequest? && ServerEnabled(s, e) && Listed(s)
    ensures Listed(ServerApply(s, e))
  {
    var s' := ServerApply(s, e);
    forall h | 0 <= h < |s'.handlers| ensures HandlerOk(s', h) {
      if h < |s.handlers| {
        assert HandlerOk(s, h);
      }
    }
    forall js | js in s'.db.jobs ensures RowOk(s', js) {
      assert RowOk(s, js);
    }
  }

  lemma OpeningLists(s: Sys, e: ServerEvent)
    requires e.ReadRequest? || e.RefuseRequest? || e.SendJob?
    requires ServerEnabled(s, e) && Listed(s)
    ensures Listed(ServerApply(s, e))
  {
    var s' := ServerApply(s, e);
    forall h | 0 <= h < |s'.handlers| ensures HandlerOk(s', h) {
      assert HandlerOk(s, h);
    }
    forall js | js in s'.db.jobs ensures RowOk(s', js) {
      assert RowOk(s, js);
    }
  }

  lemma MarkingLists(s: Sys, e: ServerEvent)
    requires e.MarkPending?
    requires ServerEnabled(s, e) && Listed(s)
    ensures Listed(ServerApply(s, e))
  {
    var s' := ServerApply(s, e);
    forall h | 0 <= h < |s'.handlers| ensures HandlerOk(s', h) {
      assert HandlerOk(s, h);
    }
    forall js | js in s'.db.jobs ensures RowOk(s', js) {
      assert RowOk(s, js);
    }
  }

  lemma NumberingLists(s: Sys, e: ServerEvent)
    requires e.OpenJob? || e.NumberJob?
    requires ServerEnabled(s, e) && Listed(s)
    ensures Listed(ServerApply(s, e))
  {
    var s' := ServerApply(s, e);
    forall h | 0 <= h < |s'.handlers| ensures HandlerOk(s', h) {
      assert HandlerOk(s, h);
    }
    forall js | js in s'.db.jobs ensures RowOk(s', js) {
      assert RowOk(s, js);
    }
  }

  lemma ListJobLists(s: Sys, e: ServerEvent)
    requires e.ListJob? && ServerEnabled(s, e) && Listed(s)
    ensures Listed(ServerApply(s, e))
  {
    var s' := ServerApply(s, e);
    assert HandlerOk(s, e.h);
    forall h | 0 <= h < |s'.handlers| ensures HandlerOk(s', h) {
      assert HandlerOk(s, h);
    }
    var repos, at := s.handlers[e.h].repos, s.handlers[e.h].at;
    assert repos[..at + 1] == repos[..at] + [repos[at]];
    forall js | js in s'.db.jobs ensures RowOk(s', js) {
      if js in s.db.jobs {
        assert RowOk(s, js);
      }
    }
  }

  lemma AnsweringLists(s: Sys, e: ServerEvent)
    requires e.BeginAnswer? || e.ReadJobList? || e.Answer?
    requires ServerEnabled(s, e) && Listed(s)
    ensures Listed(ServerApply(s, e))
  {
    var s' := ServerApply(s, e);
    assert HandlerOk(s, e.h);
    forall h | 0 <= h < |s'.handlers| ensures HandlerOk(s', h) {
      assert HandlerOk(s, h);
    }
    forall js | js in s'.db.jobs ensures RowOk(s', js) {
      assert RowOk(s, js);
      if e.ReadJobList? && js.sessionId == e.h + 1 {
        assert js in Rows(s.db, e.h + 1);
      }
      if e.BeginAnswer? && js.sessionId == e.h + 1 {
        assert s.handlers[e.h].repos[..s.handlers[e.h].at] == s.handlers[e.h].repos;
      }
    }
  }

  lemma SetInfoLists(s: Sys, e: ServerEvent)
    requires e.SetInfo? && ServerEnabled(s, e) && Listed(s)
    ensures Listed(ServerApply(s, e))
  {
    var s' := ServerApply(s, e);
    forall h | 0 <= h < |s'.handlers| ensures HandlerOk(s', h) {
      assert HandlerOk(s, h);
    }
    var todo := s.handlers[e.h].todo;
    assert todo == [todo[0]] + todo[1..];
    forall js | js in s'.db.jobs ensures RowOk(s', js) {
      assert RowOk(s, js);
    }
  }

  lemma QueueLists(s: Sys, e: ServerEvent)
    requires FromQueue(e)
    requires ServerEnabled(s, e) && Listed(s)
    ensures Listed(ServerApply(s, e))
  {
    var s' := ServerApply(s, e);
    forall h | 0 <= h < |s'.handlers| ensures HandlerOk(s', h) {
      assert HandlerOk(s, h);
    }
    forall js | js in s'.db.jobs ensures RowOk(s', js) {
      assert RowOk(s, js);
    }
  }

  lemma RecordLists(s: Sys, e: ServerEvent)
    requires e.RecordResult? || e.RecordStatus?
    requires ServerEnabled(s, e) && Listed(s)
    ensures Listed(ServerApply(s, e))
  {
    var s' := ServerApply(s, e);
    forall h | 0 <= h < |s'.handlers| ensures HandlerOk(s', h) {
      assert HandlerOk(s, h);
    }
    forall js | js in s'.db.jobs ensures RowOk(s', js) {
      assert RowOk(s, js);
    }
  }

  lemma ServerLists(s: Sys, e: ServerEvent)
    requires ServerEnabled(s, e) && Listed(s)
    ensures Listed(ServerApply(s, e))
  {
    match e
    case NewRequest => NewRequestLists(s, e);
    case ReadRequest(_, _, _, _) => OpeningLists(s, e);
    case RefuseRequest(_) => OpeningLists(s, e);
    case SendJob(_) => OpeningLists(s, e);
    case MarkPending(_) => MarkingLists(s, e);
    case OpenJob(_) => NumberingLists(s, e);
    case NumberJob(_) => NumberingLists(s, e);
    case ListJob(_) => ListJobLists(s, e);
    case BeginAnswer(_) => AnsweringLists(s, e);
    case ReadJobList(_, _, _) => AnsweringLists(s, e);
    case Answer(_) => AnsweringLists(s, e);
    case SetInfo(_) => SetInfoLists(s, e);
    case RecordResult => RecordLists(s, e);
    case RecordStatus => RecordLists(s, e);
    case _ => QueueLists(s, e);
  }

  /** A step that leaves handlers, rows and job information alone, and forgets no status and no sent job. */
  ghost predicate Beside(s: Sys, s': Sys) {
    && s'.handlers == s.handlers
    && s'.db == s.db.(status := s'.db.status)
    && s.db.status.Keys <= s'.db.status.Keys
    && s.past.sent <= s'.past.sent
  }

  lemma BesideLists(s: Sys, s': Sys)
    requires Beside(s, s') && Listed(s)
    ensures Listed(s')
  {
    forall h | 0 <= h < |s'.handlers| ensures HandlerOk(s', h) {
      assert HandlerOk(s, h);
    }
    forall js | js in s'.db.jobs ensures RowOk(s', js) {
      assert RowOk(s, js);
    }
  }

  lemma ConsumerBeside(s: Sys, e: AgentEvent)
    requires e.PollJob? || e.RejectJob? || e.HandJob? || e.AckJob? || e.LoseJobAck? || e.Die? || e.Restart?
    requires AgentEnabled(s, e)
    ensures Beside(s, AgentApply(s, e))
  {
  }

  lemma WorkerBeside(s: Sys, e: AgentEvent)
    requires e.Begin? || e.Fail? || e.Save? || e.SendResult? || e.PublishResult? || e.LosePublish?
    requires AgentEnabled(s, e)
    ensures Beside(s, AgentApply(s, e))
  {
  }

  lemma AgentLists(s: Sys, e: AgentEvent)
    requires AgentEnabled(s, e) && Listed(s)
    ensures Listed(AgentApply(s, e))
  {
    if e.Begin? || e.Fail? || e.Save? || e.SendResult? || e.PublishResult? || e.LosePublish? {
      WorkerBeside(s, e);
    } else {
      ConsumerBeside(s, e);
    }
    BesideLists(s, AgentApply(s, e));
  }

  lemma BrokerLists(s: Sys, e: BrokerEvent)
    requires BrokerEnabled(s, e) && Listed(s)
    ensures Listed(BrokerApply(s, e))
  {
    var s' := BrokerApply(s, e);
    forall h | 0 <= h < |s'.handlers| ensures HandlerOk(s', h) {
      assert HandlerOk(s, h);
    }
    forall js | js in s'.db.jobs ensures RowOk(s', js) {
      assert RowOk(s, js);
    }
  }

  lemma ReaderLists(s: Sys, e: ReaderEvent)
    requires ReaderEnabled(s, e) && Listed(s)
    ensures Listed(ReaderApply(s, e))
  {
    var s' := ReaderApply(s, e);
    forall h | 0 <= h < |s'.handlers| ensures HandlerOk(s', h) {
      assert HandlerOk(s, h);
    }
    forall js | js in s'.db.jobs ensures RowOk(s', js) {
      assert RowOk(s, js);
    }
  }

  // ----- The bucket

  lemma SaveRemembered(s: Sys, save: SaveOp)
    requires Remembered(s)
    ensures ObjectSave(s.store, save) == ObjectRun(s.past.saves + [save])
  {
    assert (s.past.saves + [save])[..|s.past.saves|] == s.past.saves;
  }

  /** A step that saves nothing. */
  ghost predicate SameBucket(s: Sys, s': Sys) {
    s'.store == s.store && s'.past.saves == s.past.saves && s.past.sent <= s'.past.sent
  }

  lemma SameBucketRemembers(s: Sys, s': Sys)
    requires SameBucket(s, s') && Remembered(s)
    ensures Remembered(s')
  {
  }

  lemma SubmittingSavesNone(s: Sys, e: ServerEvent)
    requires e.SendJob? || e.MarkPending? || e.OpenJob? || e.NumberJob? || e.ListJob?
    requires ServerEnabled(s, e)
    ensures SameBucket(s, ServerApply(s, e))
  {
  }

  lemma AnsweringSavesNone(s: Sys, e: ServerEvent)
    requires e.NewRequest? || e.RefuseRequest? || e.BeginAnswer? || e.ReadJobList? || e.SetInfo? || e.Answer?
    requires ServerEnabled(s, e)
    ensures SameBucket(s, ServerApply(s, e))
  {
  }

  lemma OutboxSavesNone(s: Sys, e: ServerEvent)
    requires e.PublishJob? || e.LoseJob?
    requires ServerEnabled(s, e)
    ensures SameBucket(s, ServerApply(s, e))
  {
  }

  lemma PollSavesNone(s: Sys, e: ServerEvent)
    requires e.PollResult? || e.RejectResult? || e.HandResult?
    requires ServerEnabled(s, e)
    ensures SameBucket(s, ServerApply(s, e))
  {
  }

  lemma RecordSavesNone(s: Sys, e: ServerEvent)
    requires e.AckResult? || e.LoseResultAck? || e.RecordResult? || e.RecordStatus?
    requires ServerEnabled(s, e)
    ensures SameBucket(s, ServerApply(s, e))
  {
  }

  lemma ServerRemembers(s: Sys, e: ServerEvent)
    requires ServerEnabled(s, e) && Remembered(s)
    ensures Remembered(ServerApply(s, e))
  {
    if e.ReadRequest? {
      SaveRemembered(s, SavePack(e.h + 1, e.pack));
    } else {
      if e.SendJob? || e.MarkPending? || e.OpenJob? || e.NumberJob? || e.ListJob? {
        SubmittingSavesNone(s, e);
      } else if e.PublishJob? || e.LoseJob? {
        OutboxSavesNone(s, e);
      } else if e.PollResult? || e.RejectResult? || e.HandResult? {
        PollSavesNone(s, e);
      } else if TouchesResults(e) {
        RecordSavesNone(s, e);
      } else {
        AnsweringSavesNone(s, e);
      }
      SameBucketRemembers(s, ServerApply(s, e));
    }
  }

  lemma SavingRemembers(s: Sys, e: AgentEvent)
    requires e.Save? && AgentEnabled(s, e) && Remembered(s) && Carried(s)
    ensures Remembered(AgentApply(s, e))
  {
    var job := s.procs[e.w].phase.job;
    assert PhaseOk(s.procs[e.w].phase, WorldOf(s));
    SaveRemembered(s, SaveOp.SaveResult(job.spec, e.data));
  }

  lemma ConsumerRemembers(s: Sys, e: AgentEvent)
    requires e.PollJob? || e.RejectJob? || e.HandJob? || e.AckJob? || e.LoseJobAck? || e.Die? || e.Restart?
    requires AgentEnabled(s, e) && Remembered(s)
    ensures Remembered(AgentApply(s, e))
  {
  }

  lemma WorkerRemembers(s: Sys, e: AgentEvent)
    requires e.Begin? || e.Fail? || e.SendResult? || e.PublishResult? || e.LosePublish?
    requires AgentEnabled(s, e) && Remembered(s)
    ensures Remembered(AgentApply(s, e))
  {
  }

  lemma AgentRemembers(s: Sys, e: AgentEvent)
    requires AgentEnabled(s, e) && Remembered(s) && Carried(s)
    ensures Remembered(AgentApply(s, e))
  {
    if e.Save? {
      SavingRemembers(s, e);
    } else if e.Begin? || e.Fail? || e.SendResult? || e.PublishResult? || e.LosePublish? {
      WorkerRemembers(s, e);
    } else {
      ConsumerRemembers(s, e);
    }
  }

  /** What lies in the bucket at a result's location was saved there. */
  lemma StoredWasSaved(s: Sys, js: JobSpec)
    requires Remembered(s) && ResultLocation(js) in s.store
    ensures LastSaved(s.past.saves, ResultLocation(js)) == Some(s.store[ResultLocation(js)])
    ensures SavedUnder(s, js, s.store[ResultLocation(js)])
  {
    BucketKeepsLast(s.past.saves, ResultLocation(js));
    LastSavedIsSaved(s.past.saves, ResultLocation(js));
  }

  lemma {:induction false} LastSavedIsSaved(saves: seq<SaveOp>, at: ArtifactLocation)
    requires LastSaved(saves, at).Some?
    ensures exists i :: 0 <= i < |saves| && Target(saves[i]) == at && saves[i].data == LastSaved(saves, at).value
  {
    var n := |saves| - 1;
    if Target(saves[n]) != at {
      LastSavedIsSaved(saves[..n], at);
      var i :| 0 <= i < n && Target(saves[..n][i]) == at && saves[..n][i].data == LastSaved(saves, at).value;
      assert saves[i] == saves[..n][i];
    }
  }

  // ----- Readers step by step

  lemma VisitGrows(s: Sys, s': Sys, v: Visit)
    requires VisitOk(s, v) && Grows(s, s')
    ensures VisitOk(s', v)
  {
    if v.at.FindSpec? && v.promised {
      var js :| IdOfListed(s, v.at.session, v.at.repoId, js);
      assert IdOfListed(s', v.at.session, v.at.repoId, js);
    }
    if v.at.DownDone? && v.at.data.Some? {
      var i :| 0 <= i < |s.past.saves| && Target(s.past.saves[i]) == ResultLocation(v.at.js)
            && s.past.saves[i].data == v.at.data.value;
      assert s'.past.saves[i] == s.past.saves[i];
    }
  }

  lemma AllVisitsGrow(s: Sys, s': Sys)
    requires VisitsOk(s) && Grows(s, s') && s'.visits == s.visits
    ensures VisitsOk(s')
  {
    forall v | 0 <= v < |s'.visits| ensures VisitOk(s', s'.visits[v]) {
      VisitGrows(s, s', s.visits[v]);
    }
  }

  /** An answered session has job information for every job it lists. */
  lemma AnsweredHasInfo(s: Sys, js: JobSpec)
    requires Listed(s) && js in s.db.jobs && IsAnswered(s, js.sessionId)
    ensures js in s.db.info
  {
    assert RowOk(s, js);
  }

  lemma ListLooks(s: Sys, v: Visit, listing: seq<JobSpec>)
    requires Inv(s) && VisitOk(s, v) && Lists(v.at) && Enumerates(listing, Rows(s.db, v.at.session))
    ensures VisitOk(s, v.(at := NextLook(s, v.at, listing)))
  {
    forall i | 0 <= i < |listing| ensures listing[i] in s.db.jobs && listing[i].sessionId == v.at.session {
      assert listing[i] in listing;
    }
    if v.at.ListFirst? && listing != [] && v.promised {
      AnsweredHasInfo(s, listing[0]);
    }
  }

  lemma StatusLooks(s: Sys, v: Visit)
    requires Inv(s) && VisitOk(s, v)
    requires v.at.FetchInfo? || v.at.FetchStatus? || v.at.FetchResult? || v.at.FetchSize? || v.at.FetchSummary?
    ensures VisitOk(s, v.(at := NextLook(s, v.at, [])))
  {
    if v.at.FetchStatus? {
      assert RowOk(s, v.at.todo[0]);
    }
  }

  lemma NumberLooks(s: Sys, s': Sys, v: Visit)
    requires Inv(s) && VisitOk(s, v) && v.at.FetchRepoId?
    requires s'.db == NumberRepo(s.db, v.at.todo[0].nwo) && Grows(s, s')
    ensures VisitOk(s', v.(at := NextLook(s, v.at, [])))
  {
    var n, todo, rows := v.at.session, v.at.todo, v.at.rows;
    VisitGrows(s, s', v);
    assert RowOk(s, todo[0]);
    var next := NextLook(s, v.at, []);
    assert next.rows[..|rows|] == rows;
    forall i | 0 <= i < |next.rows| ensures RowShown(s', next.rows[i]) && next.rows[i].js.sessionId == n {
      if i < |rows| {
        assert next.rows[i] == rows[i];
      }
    }
  }

  lemma DownloadLooks(s: Sys, v: Visit)
    requires Inv(s) && VisitOk(s, v)
    requires v.at.FindSpec? || v.at.DownStatus? || v.at.DownResult? || v.at.DownData?
    ensures VisitOk(s, v.(at := NextLook(s, v.at, [])))
  {
    match v.at
    case FindSpec(n, id) =>
      if v.promised {
        var js :| IdOfListed(s, n, id, js);
        assert RowOk(s, js);
        assert SpecByRepoId(s.db, n, id) == Some(js);
      }
    case DownData(js, r) => StoredWasSaved(s, js);
    case _ =>
  }

  lemma ShownIsListed(s: Sys, session: int, id: int)
    requires VisitsOk(s) && Shown(s, session, id)
    ensures exists js :: IdOfListed(s, session, id, js)
  {
    var v, i :| 0 <= v < |s.visits| && s.visits[v].at.StatusDone? && s.visits[v].at.session == session
             && 0 <= i < |s.visits[v].at.rows| && s.visits[v].at.rows[i].repoId == id;
    assert VisitOk(s, s.visits[v]);
    var rows := s.visits[v].at.rows;
    assert RowShown(s, rows[i]) && rows[i].js.sessionId == session;
    assert IdOfListed(s, session, id, rows[i].js);
  }

  lemma OpenedVisitOk(s: Sys, e: ReaderEvent)
    requires !e.Look? && VisitsOk(s)
    ensures VisitOk(s, if e.OpenStatus? then Visit(IsAnswered(s, e.session), ListFirst(e.session))
                       else Visit(Shown(s, e.session, e.repoId), FindSpec(e.session, e.repoId)))
  {
    if e.OpenDownload? && Shown(s, e.session, e.repoId) {
      ShownIsListed(s, e.session, e.repoId);
    }
  }

  lemma OpenKeepsVisits(s: Sys, e: ReaderEvent)
    requires !e.Look? && Inv(s)
    ensures VisitsOk(ReaderApply(s, e))
  {
    var s' := ReaderApply(s, e);
    ReaderGrows(s, e);
    OpenedVisitOk(s, e);
    forall v | 0 <= v < |s'.visits| ensures VisitOk(s', s'.visits[v]) {
      if v < |s.visits| {
        assert s'.visits[v] == s.visits[v];
      }
      VisitGrows(s, s', s'.visits[v]);
    }
  }

  lemma LookKeepsVisit(s: Sys, v: nat, listing: seq<JobSpec>)
    requires ReaderEnabled(s, Look(v, listing)) && Inv(s)
    ensures VisitOk(ReaderApply(s, Look(v, listing)), s.visits[v].(at := NextLook(s, s.visits[v].at, listing)))
  {
    var s' := ReaderApply(s, Look(v, listing));
    var visit := s.visits[v];
    ReaderGrows(s, Look(v, listing));
    assert VisitOk(s, visit);
    if visit.at.FetchRepoId? {
      NumberLooks(s, s', visit);
    } else {
      if Lists(visit.at) {
        ListLooks(s, visit, listing);
      } else if visit.at.FindSpec? || visit.at.DownStatus? || visit.at.DownResult? || visit.at.DownData? {
        DownloadLooks(s, visit);
      } else {
        StatusLooks(s, visit);
      }
      VisitGrows(s, s', visit.(at := NextLook(s, visit.at, listing)));
    }
  }

  lemma ReaderKeepsVisits(s: Sys, e: ReaderEvent)
    requires ReaderEnabled(s, e) && Inv(s)
    ensures VisitsOk(ReaderApply(s, e))
  {
    if e.Look? {
      var s' := ReaderApply(s, e);
      ReaderGrows(s, e);
      LookKeepsVisit(s, e.v, e.listing);
      forall v | 0 <= v < |s.visits| ensures VisitOk(s', s'.visits[v]) {
        VisitGrows(s, s', s.visits[v]);
      }
    } else {
      OpenKeepsVisits(s, e);
    }
  }

  // ----- Every step, every run

  /** The invariant but for what the readers know. */
  ghost predicate StateOk(s: Sys) {
    Carried(s) && Recorded(s) && Listed(s) && Remembered(s)
  }

  lemma ServerKeepsState(s: Sys, e: ServerEvent)
    requires ServerEnabled(s, e) && StateOk(s)
    ensures StateOk(ServerApply(s, e))
  {
    ServerCarries(s, e);
    ServerRecords(s, e);
    ServerLists(s, e);
    ServerRemembers(s, e);
  }

  lemma RequestKeepsReaders(s: Sys, e: ServerEvent)
    requires ServerEnabled(s, e) && !TouchesResults(e)
    ensures ServerApply(s, e).visits == s.visits
  {
  }

  lemma ServerKeeps(s: Sys, e: ServerEvent)
    requires ServerEnabled(s, e) && Inv(s)
    ensures Inv(ServerApply(s, e)) && Grows(s, ServerApply(s, e))
  {
    ServerKeepsState(s, e);
    ServerGrows(s, e);
    if !TouchesResults(e) {
      RequestKeepsReaders(s, e);
    }
    AllVisitsGrow(s, ServerApply(s, e));
  }

  lemma BrokerKeeps(s: Sys, e: BrokerEvent)
    requires BrokerEnabled(s, e) && Inv(s)
    ensures Inv(BrokerApply(s, e)) && Grows(s, BrokerApply(s, e))
  {
    BrokerCarries(s, e);
    BrokerRecords(s, e);
    BrokerLists(s, e);
    AllVisitsGrow(s, BrokerApply(s, e));
  }

  lemma AgentKeeps(s: Sys, e: AgentEvent)
    requires AgentEnabled(s, e) && Inv(s)
    ensures Inv(AgentApply(s, e)) && Grows(s, AgentApply(s, e))
  {
    AgentCarries(s, e);
    AgentRecords(s, e);
    AgentLists(s, e);
    AgentRemembers(s, e);
    AgentGrows(s, e);
    AllVisitsGrow(s, AgentApply(s, e));
  }

  lemma ReaderKeeps(s: Sys, e: ReaderEvent)
    requires ReaderEnabled(s, e) && Inv(s)
    ensures Inv(ReaderApply(s, e)) && Grows(s, ReaderApply(s, e))
  {
    ReaderCarries(s, e);
    ReaderRecords(s, e);
    ReaderLists(s, e);
    ReaderGrows(s, e);
    ReaderKeepsVisits(s, e);
  }

  lemma StepKeeps(s: Sys, e: Event)
    requires Enabled(s, e) && Inv(s)
    ensures Inv(Apply(s, e)) && Grows(s, Apply(s, e))
  {
    match e
    case OfServer(x) => ServerKeeps(s, x);
    case OfBroker(x) => BrokerKeeps(s, x);
    case OfAgent(x) => AgentKeeps(s, x);
    case OfReader(x) => ReaderKeeps(s, x);
  }

  /** The invariant holds after every run from a fresh system, whatever the interleaving. */
  lemma {:induction false} RunKeeps(procs: seq<Proc>, run: seq<Event>)
    requires AllIdle(procs) && Valid(Init(procs), run)
    ensures Inv(After(Init(procs), run))
  {
    if run != [] {
      RunKeeps(procs, run[..|run| - 1]);
      StepKeeps(After(Init(procs), run[..|run| - 1]), run[|run| - 1]);
    }
  }
}
