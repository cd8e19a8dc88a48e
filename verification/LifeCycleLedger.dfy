/** Conservation: where every copy of a job and of a result is, balanced against submissions and redeliveries. */
module LifeCycleLedger {
  import opened Common
  import opened ArtifactStore
  import opened LifeCycle
  import opened LifeCycleSafety

  // ----- Copies of one message m, place by place

  ghost function Held<T>(procs: seq<Proc>, m: T, within: (Phase, T) -> bool): nat {
    if procs == [] then 0
    else Held(procs[..|procs| - 1], m, within) + (if within(procs[|procs| - 1].phase, m) then 1 else 0)
  }

  lemma {:induction false} HeldSet<T>(procs: seq<Proc>, p: nat, phase: Phase, m: T, within: (Phase, T) -> bool)
    requires p < |procs|
    ensures Held(SetPhase(procs, p, phase), m, within) + (if within(procs[p].phase, m) then 1 else 0)
         == Held(procs, m, within) + (if within(phase, m) then 1 else 0)
  {
    var n := |procs| - 1;
    var procs' := SetPhase(procs, p, phase);
    if p == n {
      assert procs'[..n] == procs[..n];
    } else {
      assert procs'[..n] == SetPhase(procs[..n], p, phase);
      assert procs'[n] == procs[n] && procs[..n][p] == procs[p];
      HeldSet(procs[..n], p, phase, m, within);
    }
  }

  /** A consumer has taken the message off the queue but not passed it on. */
  predicate OfferIn(ph: Phase, m: JobMsg) {
    (ph.Offering? && m == Good(ph.job)) || (ph.Rejecting? && m == Poison(ph.raw))
  }

  predicate AckIn(ph: Phase, m: JobMsg) {
    ph.Acking? && m == Good(ph.job)
  }

  /** A worker has the job, up to the moment the archive is saved. */
  predicate RunIn(ph: Phase, m: JobMsg) {
    (ph.Received? || ph.Analysing?) && m == Good(ph.job)
  }

  predicate SendIn(ph: Phase, m: ResultMsg) {
    (ph.Sending? || ph.Publishing?) && m == Good(ph.result)
  }

  function InOutbox(outbox: Option<AnalyzeJob>, m: JobMsg): nat {
    if outbox.Some? && m == Good(outbox.value) then 1 else 0
  }

  function InboxOffer(inbox: Inbox, m: ResultMsg): nat {
    if (inbox.InOffering? && m == Good(inbox.result)) || (inbox.InRejecting? && m == Poison(inbox.raw)) then 1 else 0
  }

  function InboxAck(inbox: Inbox, m: ResultMsg): nat {
    if inbox.InAcking? && m == Good(inbox.result) then 1 else 0
  }

  function InRecorder(recorder: Recorder, m: ResultMsg): nat {
    if !recorder.Waiting? && m == Good(recorder.result) then 1 else 0
  }

  ghost function FinishedJobs(log: seq<Finish>, m: JobMsg): nat {
    if log == [] then 0
    else FinishedJobs(log[..|log| - 1], m) + (if m == Good(log[|log| - 1].job) then 1 else 0)
  }

  ghost function FinishedResults(log: seq<Finish>, m: ResultMsg): nat {
    if log == [] then 0
    else FinishedResults(log[..|log| - 1], m) + (if m == Good(log[|log| - 1].result) then 1 else 0)
  }

  // ----- The balances

  ghost predicate JobBalance(s: Sys, m: JobMsg) {
    && s.jobBook.submitted[m] + s.jobBook.foreignTasks[m]
       == InOutbox(s.outbox, m) + s.jobBook.unpublished[m] + s.jobBook.accepted[m]
    && s.jobBook.accepted[m] == s.tasks[m] + s.tasksUnacked[m] + s.jobBook.acked[m] + s.jobBook.dropped[m]
    && s.jobBook.accepted[m] + s.jobBook.requeued[m]
       == s.tasks[m] + Held(s.procs, m, OfferIn) + s.jobBook.lostOffers[m] + s.jobBook.handed[m] + s.jobBook.dropped[m]
    && s.jobBook.acked[m] + Held(s.procs, m, AckIn) <= s.jobBook.handed[m]
    && s.jobBook.handed[m]
       == Held(s.procs, m, RunIn) + s.jobBook.failed[m] + FinishedJobs(s.past.finished, m) + s.jobBook.lostRuns[m]
    && (m.Good? ==> s.jobBook.dropped[m] == 0 && s.jobBook.foreignTasks[m] == 0)
  }

  ghost predicate ResultBalance(s: Sys, m: ResultMsg) {
    && FinishedResults(s.past.finished, m) + s.resultBook.foreignResults[m]
       == Held(s.procs, m, SendIn) + s.resultBook.lostSends[m] + s.resultBook.unpublishedResults[m]
          + s.resultBook.acceptedResults[m]
    && s.resultBook.acceptedResults[m]
       == s.results[m] + s.resultsUnacked[m] + s.resultBook.ackedResults[m] + s.resultBook.droppedResults[m]
    && s.resultBook.acceptedResults[m] + s.resultBook.requeuedResults[m]
       == s.results[m] + InboxOffer(s.inbox, m) + s.resultBook.lostResultOffers[m] + s.resultBook.handedResults[m]
          + s.resultBook.droppedResults[m]
    && s.resultBook.ackedResults[m] + InboxAck(s.inbox, m) <= s.resultBook.handedResults[m]
    && s.resultBook.handedResults[m] == InRecorder(s.recorder, m) + s.resultBook.recorded[m]
    && (m.Good? ==> s.resultBook.droppedResults[m] == 0 && s.resultBook.foreignResults[m] == 0)
  }

  lemma SendBalances(s: Sys, e: ServerEvent, m: JobMsg)
    requires e.SendJob? || e.PublishJob? || e.LoseJob?
    requires ServerEnabled(s, e) && JobBalance(s, m)
    ensures JobBalance(ServerApply(s, e), m)
  {
  }

  lemma RequestBalances(s: Sys, e: ServerEvent, m: JobMsg)
    requires !e.SendJob? && !e.PublishJob? && !e.LoseJob? && !TouchesResults(e)
    requires ServerEnabled(s, e) && JobBalance(s, m)
    ensures JobBalance(ServerApply(s, e), m)
  {
  }

  lemma RecordingBalances(s: Sys, e: ServerEvent, m: JobMsg)
    requires TouchesResults(e)
    requires ServerEnabled(s, e) && JobBalance(s, m)
    ensures JobBalance(ServerApply(s, e), m)
  {
  }

  lemma ServerBalances(s: Sys, e: ServerEvent, m: JobMsg)
    requires ServerEnabled(s, e) && JobBalance(s, m)
    ensures JobBalance(ServerApply(s, e), m)
  {
    if e.SendJob? || e.PublishJob? || e.LoseJob? {
      SendBalances(s, e, m);
    } else if TouchesResults(e) {
      RecordingBalances(s, e, m);
    } else {
      RequestBalances(s, e, m);
    }
  }

  lemma PollBalancesResults(s: Sys, e: ServerEvent, m: ResultMsg)
    requires e.PollResult?
    requires ServerEnabled(s, e) && ResultBalance(s, m)
    ensures ResultBalance(ServerApply(s, e), m)
  {
  }

  lemma RejectBalancesResults(s: Sys, e: ServerEvent, m: ResultMsg)
    requires e.RejectResult?
    requires ServerEnabled(s, e) && ResultBalance(s, m)
    ensures ResultBalance(ServerApply(s, e), m)
  {
  }

  lemma HandBalancesResults(s: Sys, e: ServerEvent, m: ResultMsg)
    requires e.HandResult? || e.RecordResult? || e.RecordStatus?
    requires ServerEnabled(s, e) && ResultBalance(s, m)
    ensures ResultBalance(ServerApply(s, e), m)
  {
  }

  lemma LoseAckBalancesResults(s: Sys, e: ServerEvent, m: ResultMsg)
    requires e.LoseResultAck?
    requires ServerEnabled(s, e) && ResultBalance(s, m)
    ensures ResultBalance(ServerApply(s, e), m)
  {
  }

  lemma AckBalancesResults(s: Sys, e: ServerEvent, m: ResultMsg)
    requires e.AckResult?
    requires ServerEnabled(s, e) && ResultBalance(s, m)
    ensures ResultBalance(ServerApply(s, e), m)
  {
  }

  lemma RequestBalancesResults(s: Sys, e: ServerEvent, m: ResultMsg)
    requires !TouchesResults(e) && ServerEnabled(s, e) && ResultBalance(s, m)
    ensures ResultBalance(ServerApply(s, e), m)
  {
  }

  lemma ServerBalancesResults(s: Sys, e: ServerEvent, m: ResultMsg)
    requires ServerEnabled(s, e) && ResultBalance(s, m)
    ensures ResultBalance(ServerApply(s, e), m)
  {
    if !TouchesResults(e) {
      RequestBalancesResults(s, e, m);
    } else if e.PollResult? {
      PollBalancesResults(s, e, m);
    } else if e.RejectResult? {
      RejectBalancesResults(s, e, m);
    } else if e.AckResult? {
      AckBalancesResults(s, e, m);
    } else if e.LoseResultAck? {
      LoseAckBalancesResults(s, e, m);
    } else {
      HandBalancesResults(s, e, m);
    }
  }

  lemma BrokerBalancesJobs(s: Sys, e: BrokerEvent, m: JobMsg)
    requires BrokerEnabled(s, e) && JobBalance(s, m)
    ensures JobBalance(BrokerApply(s, e), m)
  {
  }

  lemma BrokerBalancesResults(s: Sys, e: BrokerEvent, r: ResultMsg)
    requires BrokerEnabled(s, e) && ResultBalance(s, r)
    ensures ResultBalance(BrokerApply(s, e), r)
  {
  }

  lemma BrokerBalances(s: Sys, e: BrokerEvent, m: JobMsg, r: ResultMsg)
    requires BrokerEnabled(s, e) && JobBalance(s, m) && ResultBalance(s, r)
    ensures JobBalance(BrokerApply(s, e), m) && ResultBalance(BrokerApply(s, e), r)
  {
    BrokerBalancesJobs(s, e, m);
    BrokerBalancesResults(s, e, r);
  }

  /** One goroutine changes phase: every count of held messages changes with it. */
  lemma AllHeldSet(procs: seq<Proc>, p: nat, phase: Phase, m: JobMsg, r: ResultMsg)
    requires p < |procs|
    ensures Held(SetPhase(procs, p, phase), m, OfferIn) + (if OfferIn(procs[p].phase, m) then 1 else 0)
         == Held(procs, m, OfferIn) + (if OfferIn(phase, m) then 1 else 0)
    ensures Held(SetPhase(procs, p, phase), m, AckIn) + (if AckIn(procs[p].phase, m) then 1 else 0)
         == Held(procs, m, AckIn) + (if AckIn(phase, m) then 1 else 0)
    ensures Held(SetPhase(procs, p, phase), m, RunIn) + (if RunIn(procs[p].phase, m) then 1 else 0)
         == Held(procs, m, RunIn) + (if RunIn(phase, m) then 1 else 0)
    ensures Held(SetPhase(procs, p, phase), r, SendIn) + (if SendIn(procs[p].phase, r) then 1 else 0)
         == Held(procs, r, SendIn) + (if SendIn(phase, r) then 1 else 0)
  {
    HeldSet(procs, p, phase, m, OfferIn);
    HeldSet(procs, p, phase, m, AckIn);
    HeldSet(procs, p, phase, m, RunIn);
    HeldSet(procs, p, phase, r, SendIn);
  }

  lemma PollJobBalances(s: Sys, e: AgentEvent, m: JobMsg, r: ResultMsg)
    requires e.PollJob?
    requires AgentEnabled(s, e) && JobBalance(s, m) && ResultBalance(s, r)
    ensures JobBalance(AgentApply(s, e), m) && ResultBalance(AgentApply(s, e), r)
  {
    AllHeldSet(s.procs, e.p, if e.m.Good? then Offering(e.m.body) else Rejecting(e.m.raw), m, r);
  }

  lemma RejectBalances(s: Sys, e: AgentEvent, m: JobMsg, r: ResultMsg)
    requires e.RejectJob?
    requires AgentEnabled(s, e) && JobBalance(s, m) && ResultBalance(s, r)
    ensures JobBalance(AgentApply(s, e), m) && ResultBalance(AgentApply(s, e), r)
  {
    AllHeldSet(s.procs, e.p, Idle, m, r);
  }

  lemma AckBalances(s: Sys, e: AgentEvent, m: JobMsg, r: ResultMsg)
    requires e.AckJob?
    requires AgentEnabled(s, e) && JobBalance(s, m) && ResultBalance(s, r)
    ensures JobBalance(AgentApply(s, e), m) && ResultBalance(AgentApply(s, e), r)
  {
    AllHeldSet(s.procs, e.p, Idle, m, r);
  }

  lemma LoseAckBalances(s: Sys, e: AgentEvent, m: JobMsg, r: ResultMsg)
    requires e.LoseJobAck?
    requires AgentEnabled(s, e) && JobBalance(s, m) && ResultBalance(s, r)
    ensures JobBalance(AgentApply(s, e), m) && ResultBalance(AgentApply(s, e), r)
  {
    AllHeldSet(s.procs, e.p, Idle, m, r);
  }

  lemma HandJobBalances(s: Sys, e: AgentEvent, m: JobMsg, r: ResultMsg)
    requires e.HandJob? && AgentEnabled(s, e) && JobBalance(s, m) && ResultBalance(s, r)
    ensures JobBalance(AgentApply(s, e), m) && ResultBalance(AgentApply(s, e), r)
  {
    var job := s.procs[e.p].phase.job;
    AllHeldSet(s.procs, e.p, Acking(job), m, r);
    AllHeldSet(SetPhase(s.procs, e.p, Acking(job)), e.w, Received(job), m, r);
  }

  lemma BeginBalances(s: Sys, e: AgentEvent, m: JobMsg, r: ResultMsg)
    requires e.Begin? || e.Fail?
    requires AgentEnabled(s, e) && JobBalance(s, m) && ResultBalance(s, r)
    ensures JobBalance(AgentApply(s, e), m) && ResultBalance(AgentApply(s, e), r)
  {
    var job := s.procs[e.w].phase.job;
    AllHeldSet(s.procs, e.w, if e.Begin? then Analysing(job) else Idle, m, r);
  }

  lemma FinishedSnoc(log: seq<Finish>, x: Finish, m: JobMsg, r: ResultMsg)
    ensures FinishedJobs(log + [x], m) == FinishedJobs(log, m) + (if m == Good(x.job) then 1 else 0)
    ensures FinishedResults(log + [x], r) == FinishedResults(log, r) + (if r == Good(x.result) then 1 else 0)
  {
    assert (log + [x])[..|log|] == log;
  }

  function Entry(job: AnalyzeJob, e: AgentEvent): Finish
    requires e.Save?
  {
    Finish(job, AnalyzeResult(job.spec, Succeeded, e.count, ResultLocation(job.spec), e.prefix, e.sha))
  }

  /** Saving moves a job from the runs to the finished, and a result into the agent's hands. */
  lemma SaveMoves(s: Sys, e: AgentEvent)
    requires e.Save? && AgentEnabled(s, e)
    ensures var s', entry := AgentApply(s, e), Entry(s.procs[e.w].phase.job, e);
            && s'.procs == SetPhase(s.procs, e.w, Sending(entry.result))
            && s' == s.(store := s'.store, procs := s'.procs, past := s'.past)
            && s'.past == s.past.(saves := s'.past.saves, finished := s.past.finished + [entry])
  {
  }

  lemma SaveBalances(s: Sys, e: AgentEvent, m: JobMsg, r: ResultMsg)
    requires e.Save?
    requires AgentEnabled(s, e) && JobBalance(s, m) && ResultBalance(s, r)
    ensures JobBalance(AgentApply(s, e), m) && ResultBalance(AgentApply(s, e), r)
  {
    var entry := Entry(s.procs[e.w].phase.job, e);
    SaveMoves(s, e);
    AllHeldSet(s.procs, e.w, Sending(entry.result), m, r);
    FinishedSnoc(s.past.finished, entry, m, r);
  }

  lemma SendResultBalances(s: Sys, e: AgentEvent, m: JobMsg, r: ResultMsg)
    requires e.SendResult?
    requires AgentEnabled(s, e) && JobBalance(s, m) && ResultBalance(s, r)
    ensures JobBalance(AgentApply(s, e), m) && ResultBalance(AgentApply(s, e), r)
  {
    AllHeldSet(s.procs, e.w, Idle, m, r);
    AllHeldSet(SetPhase(s.procs, e.w, Idle), e.q, Publishing(s.procs[e.w].phase.result), m, r);
  }

  lemma LosePublishBalances(s: Sys, e: AgentEvent, m: JobMsg, r: ResultMsg)
    requires e.LosePublish?
    requires AgentEnabled(s, e) && JobBalance(s, m) && ResultBalance(s, r)
    ensures JobBalance(AgentApply(s, e), m) && ResultBalance(AgentApply(s, e), r)
  {
    AllHeldSet(s.procs, e.q, Idle, m, r);
  }

  lemma PublishResultBalances(s: Sys, e: AgentEvent, m: JobMsg, r: ResultMsg)
    requires e.PublishResult?
    requires AgentEnabled(s, e) && JobBalance(s, m) && ResultBalance(s, r)
    ensures JobBalance(AgentApply(s, e), m) && ResultBalance(AgentApply(s, e), r)
  {
    AllHeldSet(s.procs, e.q, Idle, m, r);
  }

  /** A dying goroutine's message is entered as lost; nothing else in the books moves. */
  lemma BuryCounts(s: Sys, phase: Phase, m: JobMsg, r: ResultMsg)
    ensures var jobs := BuryJob(s.jobBook, phase);
            && jobs.lostOffers[m] == s.jobBook.lostOffers[m] + (if OfferIn(phase, m) then 1 else 0)
            && jobs.lostRuns[m] == s.jobBook.lostRuns[m] + (if RunIn(phase, m) then 1 else 0)
            && jobs == s.jobBook.(lostOffers := jobs.lostOffers, lostRuns := jobs.lostRuns)
    ensures var results := BuryResult(s.resultBook, phase);
            && results.lostSends[r] == s.resultBook.lostSends[r] + (if SendIn(phase, r) then 1 else 0)
            && results == s.resultBook.(lostSends := results.lostSends)
  {
  }

  lemma DieBalances(s: Sys, e: AgentEvent, m: JobMsg, r: ResultMsg)
    requires e.Die?
    requires AgentEnabled(s, e) && JobBalance(s, m) && ResultBalance(s, r)
    ensures JobBalance(AgentApply(s, e), m) && ResultBalance(AgentApply(s, e), r)
  {
    BuryCounts(s, s.procs[e.p].phase, m, r);
    AllHeldSet(s.procs, e.p, Dead, m, r);
  }

  lemma RestartBalances(s: Sys, e: AgentEvent, m: JobMsg, r: ResultMsg)
    requires e.Restart?
    requires AgentEnabled(s, e) && JobBalance(s, m) && ResultBalance(s, r)
    ensures JobBalance(AgentApply(s, e), m) && ResultBalance(AgentApply(s, e), r)
  {
    AllHeldSet(s.procs, e.p, Idle, m, r);
  }

  lemma AgentBalances(s: Sys, e: AgentEvent, m: JobMsg, r: ResultMsg)
    requires AgentEnabled(s, e) && JobBalance(s, m) && ResultBalance(s, r)
    ensures JobBalance(AgentApply(s, e), m) && ResultBalance(AgentApply(s, e), r)
  {
    match e
    case PollJob(_, _) => PollJobBalances(s, e, m, r);
    case RejectJob(_) => RejectBalances(s, e, m, r);
    case AckJob(_) => AckBalances(s, e, m, r);
    case LoseJobAck(_) => LoseAckBalances(s, e, m, r);
    case HandJob(_, _) => HandJobBalances(s, e, m, r);
    case Begin(_) => BeginBalances(s, e, m, r);
    case Fail(_) => BeginBalances(s, e, m, r);
    case Save(_, _, _, _, _) => SaveBalances(s, e, m, r);
    case SendResult(_, _) => SendResultBalances(s, e, m, r);
    case PublishResult(_) => PublishResultBalances(s, e, m, r);
    case LosePublish(_) => LosePublishBalances(s, e, m, r);
    case Die(_) => DieBalances(s, e, m, r);
    case Restart(_) => RestartBalances(s, e, m, r);
  }

  lemma ReaderBalances(s: Sys, e: ReaderEvent, m: JobMsg, r: ResultMsg)
    requires ReaderEnabled(s, e) && JobBalance(s, m) && ResultBalance(s, r)
    ensures JobBalance(ReaderApply(s, e), m) && ResultBalance(ReaderApply(s, e), r)
  {
  }

  lemma StepBalances(s: Sys, e: Event, m: JobMsg, r: ResultMsg)
    requires Enabled(s, e) && JobBalance(s, m) && ResultBalance(s, r)
    ensures JobBalance(Apply(s, e), m) && ResultBalance(Apply(s, e), r)
  {
    match e
    case OfServer(x) =>
      ServerBalances(s, x, m);
      ServerBalancesResults(s, x, r);
    case OfBroker(x) => BrokerBalances(s, x, m, r);
    case OfAgent(x) => AgentBalances(s, x, m, r);
    case OfReader(x) => ReaderBalances(s, x, m, r);
  }

  lemma {:induction false} IdleHoldsNone<T>(procs: seq<Proc>, m: T, within: (Phase, T) -> bool)
    requires AllIdle(procs) && !within(Idle, m)
    ensures Held(procs, m, within) == 0
  {
    if procs != [] {
      IdleHoldsNone(procs[..|procs| - 1], m, within);
    }
  }

  lemma {:induction false} RunBalances(procs: seq<Proc>, run: seq<Event>, m: JobMsg, r: ResultMsg)
    requires AllIdle(procs) && Valid(Init(procs), run)
    ensures JobBalance(After(Init(procs), run), m) && ResultBalance(After(Init(procs), run), r)
  {
    if run == [] {
      IdleHoldsNone(procs, m, OfferIn);
      IdleHoldsNone(procs, m, AckIn);
      IdleHoldsNone(procs, m, RunIn);
      IdleHoldsNone(procs, r, SendIn);
    } else {
      RunBalances(procs, run[..|run| - 1], m, r);
      StepBalances(After(Init(procs), run[..|run| - 1]), run[|run| - 1], m, r);
    }
  }

  // ----- What the balances say of whole runs

  /** Every copy accepted is ready, in hand, nacked, or handed over; only what does not decode is ever nacked. */
  lemma NothingVanishes(procs: seq<Proc>, run: seq<Event>)
    requires AllIdle(procs) && Valid(Init(procs), run)
    ensures var s := After(Init(procs), run);
            && s.jobBook.accepted <= s.tasks + s.tasksUnacked + s.jobBook.dropped + s.jobBook.handed
            && s.resultBook.acceptedResults
               <= s.results + s.resultsUnacked + s.resultBook.droppedResults + s.resultBook.handedResults
            && (forall m :: m in s.jobBook.dropped ==> m.Poison?)
            && (forall r :: r in s.resultBook.droppedResults ==> r.Poison?)
  {
    var s := After(Init(procs), run);
    forall m ensures s.jobBook.accepted[m] <= (s.tasks + s.tasksUnacked + s.jobBook.dropped + s.jobBook.handed)[m] {
      RunBalances(procs, run, m, Poison(0));
    }
    forall r
      ensures s.resultBook.acceptedResults[r]
           <= (s.results + s.resultsUnacked + s.resultBook.droppedResults + s.resultBook.handedResults)[r]
    {
      RunBalances(procs, run, Poison(0), r);
    }
    forall m | m in s.jobBook.dropped ensures m.Poison? {
      RunBalances(procs, run, m, Poison(0));
    }
    forall r | r in s.resultBook.droppedResults ensures r.Poison? {
      RunBalances(procs, run, Poison(0), r);
    }
  }

  /** Every copy submitted or redelivered is in one place, failed, finished, dropped, or lost on the way. */
  lemma JobsConserved(procs: seq<Proc>, run: seq<Event>, m: JobMsg)
    requires AllIdle(procs) && Valid(Init(procs), run)
    ensures var s := After(Init(procs), run);
            s.jobBook.submitted[m] + s.jobBook.foreignTasks[m] + s.jobBook.requeued[m]
            == InOutbox(s.outbox, m) + s.tasks[m] + Held(s.procs, m, OfferIn) + Held(s.procs, m, RunIn)
               + s.jobBook.unpublished[m] + s.jobBook.dropped[m] + s.jobBook.failed[m]
               + FinishedJobs(s.past.finished, m)
               + s.jobBook.lostOffers[m] + s.jobBook.lostRuns[m]
  {
    RunBalances(procs, run, m, Poison(0));
  }

  lemma ResultsConserved(procs: seq<Proc>, run: seq<Event>, r: ResultMsg)
    requires AllIdle(procs) && Valid(Init(procs), run)
    ensures var s := After(Init(procs), run);
            FinishedResults(s.past.finished, r) + s.resultBook.foreignResults[r] + s.resultBook.requeuedResults[r]
            == Held(s.procs, r, SendIn) + s.results[r] + InboxOffer(s.inbox, r) + InRecorder(s.recorder, r)
               + s.resultBook.recorded[r] + s.resultBook.droppedResults[r] + s.resultBook.lostSends[r]
               + s.resultBook.lostResultOffers[r]
               + s.resultBook.unpublishedResults[r]
  {
    RunBalances(procs, run, Poison(0), r);
  }

  // ----- Runs without redelivery, crashes and failed publications

  predicate Calm(e: Event) {
    match e
    case OfServer(x) => !x.LoseJob?
    case OfBroker(x) => !x.RequeueTask? && !x.RequeueResult?
    case OfAgent(x) => !x.Die? && !x.LosePublish?
    case _ => true
  }

  predicate CalmRun(run: seq<Event>) {
    forall i :: 0 <= i < |run| ==> Calm(run[i])
  }

  ghost predicate Lossless(s: Sys) {
    && s.jobBook.requeued == multiset{} && s.resultBook.requeuedResults == multiset{}
    && s.jobBook.lostRuns == multiset{} && s.resultBook.lostSends == multiset{}
    && s.jobBook.unpublished == multiset{} && s.resultBook.unpublishedResults == multiset{}
    && (forall m :: m in s.jobBook.lostOffers ==> m.Poison?)
    && (forall r :: r in s.resultBook.lostResultOffers ==> r.Poison?)
  }

  lemma CalmRequest(s: Sys, e: ServerEvent)
    requires !TouchesResults(e) && !e.LoseJob? && ServerEnabled(s, e) && Lossless(s)
    ensures Lossless(ServerApply(s, e))
  {
  }

  lemma CalmRecording(s: Sys, e: ServerEvent)
    requires TouchesResults(e) && ServerEnabled(s, e) && Lossless(s)
    ensures Lossless(ServerApply(s, e))
  {
  }

  lemma CalmServer(s: Sys, e: ServerEvent)
    requires !e.LoseJob? && ServerEnabled(s, e) && Lossless(s)
    ensures Lossless(ServerApply(s, e))
  {
    if TouchesResults(e) {
      CalmRecording(s, e);
    } else {
      CalmRequest(s, e);
    }
  }

  lemma CalmAgent(s: Sys, e: AgentEvent)
    requires AgentEnabled(s, e) && !e.Die? && !e.LosePublish? && Lossless(s)
    ensures Lossless(AgentApply(s, e))
  {
  }

  lemma {:induction false} CalmIsLossless(procs: seq<Proc>, run: seq<Event>)
    requires Valid(Init(procs), run) && CalmRun(run)
    ensures Lossless(After(Init(procs), run))
  {
    if run != [] {
      var n := |run| - 1;
      CalmIsLossless(procs, run[..n]);
      var s := After(Init(procs), run[..n]);
      assert Calm(run[n]);
      match run[n]
      case OfServer(x) => CalmServer(s, x);
      case OfAgent(x) => CalmAgent(s, x);
      case _ =>
    }
  }

  /**
   * Without redelivery, crashes and failed publications a copy is handed over exactly once: it is before that point or
   * past it.
   */
  lemma HandedOnce(procs: seq<Proc>, run: seq<Event>, j: AnalyzeJob)
    requires AllIdle(procs) && Valid(Init(procs), run) && CalmRun(run)
    ensures var s, m := After(Init(procs), run), Good(j);
            && s.jobBook.accepted[m] == s.tasks[m] + Held(s.procs, m, OfferIn) + s.jobBook.handed[m]
            && s.jobBook.handed[m] == Held(s.procs, m, RunIn) + s.jobBook.failed[m] + FinishedJobs(s.past.finished, m)
            && s.jobBook.submitted[m]
               == InOutbox(s.outbox, m) + s.tasks[m] + Held(s.procs, m, OfferIn)
                  + Held(s.procs, m, RunIn) + s.jobBook.failed[m] + FinishedJobs(s.past.finished, m)
  {
    RunBalances(procs, run, Good(j), Poison(0));
    CalmIsLossless(procs, run);
  }

  /** And what finished is on its way to the tables exactly once, or recorded. */
  lemma RecordedOnce(procs: seq<Proc>, run: seq<Event>, r: AnalyzeResult)
    requires AllIdle(procs) && Valid(Init(procs), run) && CalmRun(run)
    ensures var s, m := After(Init(procs), run), Good(r);
            FinishedResults(s.past.finished, m)
            == Held(s.procs, m, SendIn) + s.results[m] + InboxOffer(s.inbox, m) + InRecorder(s.recorder, m)
               + s.resultBook.recorded[m]
  {
    RunBalances(procs, run, Poison(0), Good(r));
    CalmIsLossless(procs, run);
  }

  // ----- What a finished and what a recorded entry stands for

  ghost predicate Paired(s: Sys) {
    && (forall i :: 0 <= i < |s.past.finished| ==>
          && s.past.finished[i].result.spec == s.past.finished[i].job.spec
          && s.past.finished[i].result.status == Succeeded)
    && (forall m :: m in s.resultBook.recorded ==> m.Good? && m.body.spec in s.db.results)
  }

  lemma RecordingPairs(s: Sys, e: ServerEvent)
    requires TouchesResults(e) && ServerEnabled(s, e) && Paired(s) && Recorded(s)
    ensures Paired(ServerApply(s, e))
  {
  }

  lemma RequestPairs(s: Sys, e: ServerEvent)
    requires !TouchesResults(e) && ServerEnabled(s, e) && Paired(s)
    ensures Paired(ServerApply(s, e))
  {
  }

  lemma ServerPairs(s: Sys, e: ServerEvent)
    requires ServerEnabled(s, e) && Paired(s) && Recorded(s)
    ensures Paired(ServerApply(s, e))
  {
    if TouchesResults(e) {
      RecordingPairs(s, e);
    } else {
      RequestPairs(s, e);
    }
  }

  ghost predicate SamePairs(s: Sys, s': Sys) {
    && s'.past.finished == s.past.finished
    && s'.resultBook.recorded == s.resultBook.recorded
    && s'.db.results == s.db.results
  }

  lemma ConsumerPairsNone(s: Sys, e: AgentEvent)
    requires e.PollJob? || e.RejectJob? || e.HandJob? || e.AckJob? || e.LoseJobAck? || e.Die? || e.Restart?
    requires AgentEnabled(s, e)
    ensures SamePairs(s, AgentApply(s, e))
  {
  }

  lemma WorkerPairsNone(s: Sys, e: AgentEvent)
    requires e.Begin? || e.Fail? || e.SendResult? || e.PublishResult? || e.LosePublish?
    requires AgentEnabled(s, e)
    ensures SamePairs(s, AgentApply(s, e))
  {
  }

  lemma AgentPairs(s: Sys, e: AgentEvent)
    requires AgentEnabled(s, e) && Paired(s)
    ensures Paired(AgentApply(s, e))
  {
    if e.Save? {
      SaveMoves(s, e);
    } else if e.Begin? || e.Fail? || e.SendResult? || e.PublishResult? || e.LosePublish? {
      WorkerPairsNone(s, e);
    } else {
      ConsumerPairsNone(s, e);
    }
  }

  lemma ReaderPairs(s: Sys, e: ReaderEvent)
    requires ReaderEnabled(s, e) && Paired(s)
    ensures Paired(ReaderApply(s, e))
  {
  }

  lemma BrokerPairs(s: Sys, e: BrokerEvent)
    requires BrokerEnabled(s, e) && Paired(s)
    ensures Paired(BrokerApply(s, e))
  {
  }

  lemma StepPairs(s: Sys, e: Event)
    requires Enabled(s, e) && Paired(s) && Recorded(s)
    ensures Paired(Apply(s, e))
  {
    match e
    case OfServer(x) => ServerPairs(s, x);
    case OfAgent(x) => AgentPairs(s, x);
    case OfReader(x) => ReaderPairs(s, x);
    case OfBroker(x) => BrokerPairs(s, x);
  }

  /** The log pairs each finished job with a result of that job, and each recorded result is in the table. */
  lemma {:induction false} FinishedPairs(procs: seq<Proc>, run: seq<Event>)
    requires AllIdle(procs) && Valid(Init(procs), run)
    ensures Paired(After(Init(procs), run))
  {
    if run != [] {
      var n := |run| - 1;
      FinishedPairs(procs, run[..n]);
      RunKeeps(procs, run[..n]);
      StepPairs(After(Init(procs), run[..n]), run[n]);
    }
  }
}
