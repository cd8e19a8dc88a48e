/** Statuses are not monotone. This says exactly when a Succeeded status is final. */
module LifeCycleFinality {
  import opened Common
  import opened LifeCycle
  import opened LifeCyclePool
  import opened LifeCycleSafety
  import opened LifeCycleStaff
  import T = LifeCycleTheorems
  import opened Sums

  // ----- What may still overwrite the status of a job

  /** The request handler of the job's session may still send it, or mark it pending. */
  ghost predicate ToComeFromHandler(s: Sys, js: JobSpec) {
    if js.sessionId < 1 then false
    else if |s.handlers| < js.sessionId then !Exhausted(s)
    else s.handlers[js.sessionId - 1].Reading? || exists k :: ToComeAt(s, js, k)
  }

  /** Sending needs no database connection; everything after it does. */
  ghost predicate ToComeAt(s: Sys, js: JobSpec, k: int)
    requires 1 <= js.sessionId <= |s.handlers|
  {
    var hd := s.handlers[js.sessionId - 1];
    && hd.Submitting? && hd.at <= k < |hd.repos| && hd.repos[k] == js.nwo
    && (k == hd.at ==> hd.mark in {ToSend, ToMark})
    && (Exhausted(s) ==> k == hd.at && hd.mark == ToSend)
  }

  predicate CopyOf(m: JobMsg, js: JobSpec) {
    m.Good? && m.body.spec == js
  }

  predicate ToComeInPhase(ph: Phase, js: JobSpec) {
    (ph.Offering? || ph.Received?) && ph.job.spec == js
  }

  /** A copy of the job is on its way to a worker, or may be redelivered. */
  ghost predicate ToComeFromQueue(s: Sys, js: JobSpec) {
    || (s.outbox.Some? && s.outbox.value.spec == js)
    || (exists m :: CopyOf(m, js) && m in s.tasks)
    || (exists m :: CopyOf(m, js) && m in s.tasksUnacked)
    || (exists p :: 0 <= p < |s.procs| && ToComeInPhase(s.procs[p].phase, js))
  }

  ghost predicate Settled(s: Sys, js: JobSpec) {
    !ToComeFromHandler(s, js) && !ToComeFromQueue(s, js)
  }

  ghost predicate HasSucceeded(s: Sys, js: JobSpec) {
    js in s.db.status && s.db.status[js] == Succeeded
  }

  // ----- Settled is final

  /** Whatever is to come after a step of another handler or of no handler was to come before it. */
  lemma ToComeBefore(s: Sys, e: ServerEvent, js: JobSpec, k: int)
    requires ServerEnabled(s, e) && InUse(s) <= MAX_CONNS
    requires 1 <= js.sessionId <= |s.handlers| && 1 <= js.sessionId <= |ServerApply(s, e).handlers|
    requires !s.handlers[js.sessionId - 1].Reading? && ToComeAt(ServerApply(s, e), js, k)
    ensures ToComeAt(s, js, k)
  {
    StepPool(s, OfServer(e));
    if Exhausted(s) {
      ExhaustedStays(s, OfServer(e));
      if e.ListJob? {
        NoneCommits(s.handlers, e.h);
      }
      WaitersHold(s);
    }
  }

  lemma NewRequestStaysSettled(s: Sys, js: JobSpec)
    requires ServerEnabled(s, NewRequest) && InUse(s) <= MAX_CONNS && Settled(s, js)
    ensures !ToComeFromHandler(ServerApply(s, NewRequest), js)
  {
    var s' := ServerApply(s, NewRequest);
    WaitersHold(s);
    if 1 <= js.sessionId <= |s.handlers| {
      forall k | ToComeAt(s', js, k) ensures ToComeAt(s, js, k) {
        ToComeBefore(s, NewRequest, js, k);
      }
    }
  }

  lemma NoneReadAgain(s: Sys, e: ServerEvent, h: nat)
    requires ServerEnabled(s, e) && !e.NewRequest? && h < |s.handlers| && !s.handlers[h].Reading?
    ensures |ServerApply(s, e).handlers| == |s.handlers| && !ServerApply(s, e).handlers[h].Reading?
  {
  }

  lemma SameHandlers(s: Sys, e: ServerEvent)
    requires ServerEnabled(s, e) && !e.NewRequest?
    ensures |ServerApply(s, e).handlers| == |s.handlers|
  {
  }

  lemma HandlerStaysSettled(s: Sys, e: ServerEvent, js: JobSpec)
    requires ServerEnabled(s, e) && InUse(s) <= MAX_CONNS && Settled(s, js)
    ensures !ToComeFromHandler(ServerApply(s, e), js)
  {
    if e.NewRequest? {
      NewRequestStaysSettled(s, js);
    } else {
      SameHandlers(s, e);
      if 1 <= js.sessionId <= |s.handlers| {
        NoneReadAgain(s, e, js.sessionId - 1);
        forall k | ToComeAt(ServerApply(s, e), js, k) ensures ToComeAt(s, js, k) {
          ToComeBefore(s, e, js, k);
        }
      } else if 1 <= js.sessionId {
        ExhaustedStays(s, OfServer(e));
      }
    }
  }

  lemma MarkIsToCome(s: Sys, h: nat)
    requires AtMark(s, h, ToSend) || (AtMark(s, h, ToMark) && !Exhausted(s))
    ensures ToComeAt(s, CurrentSpec(s, h), s.handlers[h].at)
  {
  }

  lemma SendStaysSettled(s: Sys, e: ServerEvent, js: JobSpec)
    requires e.SendJob? || e.PublishJob? || e.LoseJob?
    requires ServerEnabled(s, e) && Settled(s, js)
    ensures !ToComeFromQueue(ServerApply(s, e), js)
  {
    if e.SendJob? {
      MarkIsToCome(s, e.h);
    }
    if e.PublishJob? {
      assert !CopyOf(Good(s.outbox.value), js);
    }
  }

  lemma ServerLeavesQueue(s: Sys, e: ServerEvent)
    requires ServerEnabled(s, e) && !e.SendJob? && !e.PublishJob? && !e.LoseJob?
    ensures var s' := ServerApply(s, e);
            s'.outbox == s.outbox && s'.tasks == s.tasks && s'.tasksUnacked == s.tasksUnacked && s'.procs == s.procs
  {
  }

  lemma ServerQueueStaysSettled(s: Sys, e: ServerEvent, js: JobSpec)
    requires ServerEnabled(s, e) && Settled(s, js)
    ensures !ToComeFromQueue(ServerApply(s, e), js)
  {
    if e.SendJob? || e.PublishJob? || e.LoseJob? {
      SendStaysSettled(s, e, js);
    } else {
      ServerLeavesQueue(s, e);
    }
  }

  ghost predicate NoneInPhases(procs: seq<Proc>, js: JobSpec) {
    forall p :: 0 <= p < |procs| ==> !ToComeInPhase(procs[p].phase, js)
  }

  lemma NoneAfterSet(procs: seq<Proc>, p: nat, phase: Phase, js: JobSpec)
    requires NoneInPhases(procs, js) && p < |procs| && !ToComeInPhase(phase, js)
    ensures NoneInPhases(SetPhase(procs, p, phase), js)
  {
  }

  lemma PollStaysSettled(s: Sys, e: AgentEvent, js: JobSpec)
    requires e.PollJob? && AgentEnabled(s, e) && Settled(s, js)
    ensures !ToComeFromQueue(AgentApply(s, e), js)
  {
    assert !CopyOf(e.m, js);
    NoneAfterSet(s.procs, e.p, if e.m.Good? then Offering(e.m.body) else Rejecting(e.m.raw), js);
  }

  lemma PairStaysSettled(s: Sys, e: AgentEvent, js: JobSpec)
    requires e.HandJob? || e.SendResult?
    requires AgentEnabled(s, e) && Settled(s, js)
    ensures !ToComeFromQueue(AgentApply(s, e), js)
  {
    assert NoneInPhases(s.procs, js);
    if e.HandJob? {
      var job := s.procs[e.p].phase.job;
      NoneAfterSet(s.procs, e.p, Acking(job), js);
      NoneAfterSet(SetPhase(s.procs, e.p, Acking(job)), e.w, Received(job), js);
    } else {
      NoneAfterSet(s.procs, e.w, Idle, js);
      NoneAfterSet(SetPhase(s.procs, e.w, Idle), e.q, Publishing(s.procs[e.w].phase.result), js);
    }
  }

  lemma WorkerStaysSettled(s: Sys, e: AgentEvent, js: JobSpec)
    requires e.Begin? || e.Fail? || e.Save? || e.PublishResult? || e.LosePublish?
    requires AgentEnabled(s, e) && Settled(s, js)
    ensures !ToComeFromQueue(AgentApply(s, e), js)
  {
    var p := if e.PublishResult? || e.LosePublish? then e.q else e.w;
    NoneAfterSet(s.procs, p, AgentApply(s, e).procs[p].phase, js);
  }

  lemma IdleStaysSettled(s: Sys, e: AgentEvent, js: JobSpec)
    requires e.RejectJob? || e.AckJob? || e.LoseJobAck? || e.Die? || e.Restart?
    requires AgentEnabled(s, e) && Settled(s, js)
    ensures !ToComeFromQueue(AgentApply(s, e), js)
  {
    NoneAfterSet(s.procs, e.p, if e.Die? then Dead else Idle, js);
  }

  lemma AgentQueueStaysSettled(s: Sys, e: AgentEvent, js: JobSpec)
    requires AgentEnabled(s, e) && Settled(s, js)
    ensures !ToComeFromQueue(AgentApply(s, e), js)
  {
    if e.PollJob? {
      PollStaysSettled(s, e, js);
    } else if e.HandJob? || e.SendResult? {
      PairStaysSettled(s, e, js);
    } else if e.Begin? || e.Fail? || e.Save? || e.PublishResult? || e.LosePublish? {
      WorkerStaysSettled(s, e, js);
    } else {
      IdleStaysSettled(s, e, js);
    }
  }

  lemma OthersLeaveHandlers(s: Sys, s': Sys, js: JobSpec)
    requires s'.handlers == s.handlers && Settled(s, js)
    ensures !ToComeFromHandler(s', js)
  {
    if 1 <= js.sessionId <= |s.handlers| {
      forall k ensures ToComeAt(s', js, k) == ToComeAt(s, js, k) {}
    }
  }

  lemma BrokerQueueStaysSettled(s: Sys, e: BrokerEvent, js: JobSpec)
    requires BrokerEnabled(s, e) && Settled(s, js)
    ensures !ToComeFromQueue(BrokerApply(s, e), js)
  {
    if e.RequeueTask? {
      assert !CopyOf(e.task, js);
    }
  }

  lemma SettledStays(s: Sys, e: Event, js: JobSpec)
    requires Enabled(s, e) && InUse(s) <= MAX_CONNS && Settled(s, js)
    ensures Settled(Apply(s, e), js)
  {
    match e
    case OfServer(x) =>
      HandlerStaysSettled(s, x, js);
      ServerQueueStaysSettled(s, x, js);
    case OfBroker(x) =>
      OthersLeaveHandlers(s, BrokerApply(s, x), js);
      BrokerQueueStaysSettled(s, x, js);
    case OfAgent(x) =>
      OthersLeaveHandlers(s, AgentApply(s, x), js);
      AgentQueueStaysSettled(s, x, js);
    case OfReader(x) => OthersLeaveHandlers(s, ReaderApply(s, x), js);
  }

  lemma SettledIsNotUndone(s: Sys, e: Event, js: JobSpec)
    requires Inv(s) && Enabled(s, e) && Settled(s, js)
    ensures forall st :: T.Written(s, e) == Some((js, st)) ==> st == Succeeded
  {
    if e.OfServer? && e.se.MarkPending? {
      WaitersHold(s);
      MarkIsToCome(s, e.se.h);
    }
    if e.OfAgent? && e.ae.Begin? {
      assert !ToComeInPhase(s.procs[e.ae.w].phase, js);
    }
  }

  lemma SettledKeepsStatus(s: Sys, e: Event, js: JobSpec)
    requires Inv(s) && Enabled(s, e) && Settled(s, js) && HasSucceeded(s, js)
    ensures HasSucceeded(Apply(s, e), js)
  {
    T.WrittenIsAll(s, e);
    SettledIsNotUndone(s, e, js);
  }

  ghost predicate Done(s: Sys, js: JobSpec) {
    Inv(s) && InUse(s) <= MAX_CONNS && Settled(s, js) && HasSucceeded(s, js)
  }

  lemma DoneStays(s: Sys, e: Event, js: JobSpec)
    requires Enabled(s, e) && Done(s, js)
    ensures Done(Apply(s, e), js)
  {
    SettledStays(s, e, js);
    SettledKeepsStatus(s, e, js);
    StepKeeps(s, e);
    StepPool(s, e);
  }

  lemma {:induction false} SettledIsFinal(s: Sys, run: seq<Event>, js: JobSpec)
    requires Done(s, js) && Valid(s, run)
    ensures Done(After(s, run), js)
  {
    if run != [] {
      SettledIsFinal(s, run[..|run| - 1], js);
      DoneStays(After(s, run[..|run| - 1]), run[|run| - 1], js);
    }
  }

  // ----- Anything less is not

  ghost predicate Leaves(s: Sys, js: JobSpec, run: seq<Event>) {
    Valid(s, run) && js in After(s, run).db.status && After(s, run).db.status[js] != Succeeded
  }

  ghost predicate CanLeave(s: Sys, js: JobSpec) {
    exists run :: Leaves(s, js, run)
  }

  lemma ThenLeaves(s: Sys, e: Event, js: JobSpec)
    requires Enabled(s, e) && CanLeave(Apply(s, e), js)
    ensures CanLeave(s, js)
  {
    var run :| Leaves(Apply(s, e), js, run);
    Prepend(s, e, run);
    assert Leaves(s, js, [e] + run);
  }

  lemma NowLeft(s: Sys, js: JobSpec)
    requires js in s.db.status && s.db.status[js] != Succeeded
    ensures CanLeave(s, js)
  {
    assert Leaves(s, js, []);
  }

  lemma ReceivedLeaves(s: Sys, w: nat, js: JobSpec)
    requires IsProc(s, w, Worker) && s.procs[w].phase.Received? && s.procs[w].phase.job.spec == js
    ensures CanLeave(s, js)
  {
    var e := OfAgent(Begin(w));
    NowLeft(Apply(s, e), js);
    ThenLeaves(s, e, js);
  }

  /** The goroutine dies and is started again; the rest of the agents stays as it is. */
  lemma Revive(s: Sys, p: nat, js: JobSpec)
    requires p < |s.procs|
    requires CanLeave(AgentApply(AgentApply(s, Die(p)), Restart(p)), js)
    ensures CanLeave(s, js)
  {
    var dead := Apply(s, OfAgent(Die(p)));
    ThenLeaves(dead, OfAgent(Restart(p)), js);
    ThenLeaves(s, OfAgent(Die(p)), js);
  }

  function Revived(s: Sys, p: nat): Sys
    requires p < |s.procs|
  {
    s.(procs := SetPhase(s.procs, p, Idle),
       jobBook := BuryJob(s.jobBook, s.procs[p].phase), resultBook := BuryResult(s.resultBook, s.procs[p].phase))
  }

  lemma RevivedLeaves(s: Sys, p: nat, js: JobSpec)
    requires p < |s.procs| && CanLeave(Revived(s, p), js)
    ensures CanLeave(s, js)
  {
    assert SetPhase(SetPhase(s.procs, p, Dead), p, Idle) == SetPhase(s.procs, p, Idle);
    assert AgentApply(AgentApply(s, Die(p)), Restart(p)) == Revived(s, p);
    Revive(s, p, js);
  }

  lemma OfferingLeaves(s: Sys, p: nat, js: JobSpec)
    requires IsProc(s, p, Consumer) && s.procs[p].phase.Offering? && s.procs[p].phase.job.spec == js
    requires Has(s.procs, s.procs[p].agent, Worker)
    ensures CanLeave(s, js)
  {
    var w :| 0 <= w < |s.procs| && s.procs[w].agent == s.procs[p].agent && s.procs[w].kind == Worker;
    var ready := Revived(s, w);
    var e := OfAgent(HandJob(p, w));
    assert Enabled(ready, e);
    ReceivedLeaves(Apply(ready, e), w, js);
    ThenLeaves(ready, e, js);
    RevivedLeaves(s, w, js);
  }

  lemma ReadyLeaves(s: Sys, m: JobMsg, js: JobSpec)
    requires Staffed(s.procs) && CopyOf(m, js) && m in s.tasks
    ensures CanLeave(s, js)
  {
    assert Has(s.procs, s.procs[0].agent, Consumer);
    var p :| 0 <= p < |s.procs| && s.procs[p].agent == s.procs[0].agent && s.procs[p].kind == Consumer;
    var ready := Revived(s, p);
    var e := OfAgent(PollJob(p, m));
    assert Enabled(ready, e);
    var offering := Apply(ready, e);
    assert SameStaff(s.procs, offering.procs);
    HasStays(s.procs, offering.procs, s.procs[p].agent, Worker);
    OfferingLeaves(offering, p, js);
    ThenLeaves(ready, e, js);
    RevivedLeaves(s, p, js);
  }

  lemma QueueLeaves(s: Sys, js: JobSpec)
    requires Staffed(s.procs) && KindsOk(s.procs) && ToComeFromQueue(s, js)
    ensures CanLeave(s, js)
  {
    if m :| CopyOf(m, js) && m in s.tasks {
      ReadyLeaves(s, m, js);
    } else if m :| CopyOf(m, js) && m in s.tasksUnacked {
      var e := OfBroker(RequeueTask(m));
      ReadyLeaves(Apply(s, e), m, js);
      ThenLeaves(s, e, js);
    } else if s.outbox.Some? && s.outbox.value.spec == js {
      var e := OfServer(PublishJob);
      ReadyLeaves(Apply(s, e), Good(s.outbox.value), js);
      ThenLeaves(s, e, js);
    } else {
      var p :| 0 <= p < |s.procs| && ToComeInPhase(s.procs[p].phase, js);
      assert KindOk(s.procs[p]);
      if s.procs[p].phase.Received? {
        ReceivedLeaves(s, p, js);
      } else {
        OfferingLeaves(s, p, js);
      }
    }
  }

  /** A handler about to send the job can send it, database or not. */
  lemma SendingLeaves(s: Sys, js: JobSpec)
    requires Staffed(s.procs) && KindsOk(s.procs)
    requires 1 <= js.sessionId <= |s.handlers| && AtMark(s, js.sessionId - 1, ToSend)
    requires CurrentSpec(s, js.sessionId - 1) == js
    ensures CanLeave(s, js)
  {
    var e := OfServer(SendJob(js.sessionId - 1));
    if s.outbox.Some? {
      var s' := Apply(s, OfServer(PublishJob));
      QueueLeaves(Apply(s', e), js);
      ThenLeaves(s', e, js);
      ThenLeaves(s, OfServer(PublishJob), js);
    } else {
      QueueLeaves(Apply(s, e), js);
      ThenLeaves(s, e, js);
    }
  }

  // ----- Emptying the pool

  function DrainWeight(hd: Handler): nat {
    if !hd.Submitting? then 0 else if hd.mark == ToNumber then 2 else if hd.mark == ToList then 1 else 0
  }

  ghost function Drain(s: Sys): nat {
    Sum(s.handlers, DrainWeight)
  }

  /** A pool that is in use but not exhausted has a handler that can commit, or one that can go on to its commit. */
  lemma DrainStep(s: Sys) returns (e: ServerEvent)
    requires Listed(s) && InUse(s) <= MAX_CONNS && !Exhausted(s) && InUse(s) > 0
    ensures e.ListJob? || e.NumberJob?
    ensures ServerEnabled(s, e)
    ensures Listed(ServerApply(s, e)) && InUse(ServerApply(s, e)) <= MAX_CONNS && !Exhausted(ServerApply(s, e))
    ensures Drain(ServerApply(s, e)) < Drain(s)
  {
    WaitersHold(s);
    if InUse(s) > Waiters(s) {
      var h := SomeCommits(s.handlers);
      assert HandlerOk(s, h);
      e := ListJob(h);
    } else {
      var h := SomeWaits(s.handlers);
      assert HandlerOk(s, h);
      e := NumberJob(h);
    }
    StepPool(s, OfServer(e));
    ServerLists(s, e);
    SumSet(s.handlers, e.h, ServerApply(s, e).handlers[e.h], DrainWeight);
  }

  /** A job that is to come is still to come after a step that empties the pool. */
  lemma DrainKeeps(s: Sys, e: ServerEvent, js: JobSpec, k: int)
    requires (e.ListJob? || e.NumberJob?) && ServerEnabled(s, e) && !Exhausted(ServerApply(s, e))
    requires 1 <= js.sessionId <= |s.handlers| && ToComeAt(s, js, k)
    ensures 1 <= js.sessionId <= |ServerApply(s, e).handlers| && ToComeAt(ServerApply(s, e), js, k)
    ensures ServerApply(s, e).procs == s.procs
  {
  }

  function StepsLeft(mark: Mark): nat {
    match mark
    case ToSend => 4
    case ToMark => 3
    case ToBegin => 2
    case ToNumber => 1
    case ToList => 0
  }

  /** The one step of this handler that is next, when it alone uses the pool. */
  function NextOf(h: nat, mark: Mark): ServerEvent {
    match mark
    case ToSend => SendJob(h)
    case ToMark => MarkPending(h)
    case ToBegin => OpenJob(h)
    case ToNumber => NumberJob(h)
    case ToList => ListJob(h)
  }

  ghost predicate OnlyUser(s: Sys, h: nat) {
    h < |s.handlers| && InUse(s) == Connections(s.handlers[h])
  }

  lemma OnlyUserMoves(s: Sys, js: JobSpec, k: nat)
    requires 1 <= js.sessionId <= |s.handlers| && ToComeAt(s, js, k) && OnlyUser(s, js.sessionId - 1)
    requires k > s.handlers[js.sessionId - 1].at
    requires s.handlers[js.sessionId - 1].mark == ToSend ==> s.outbox == None
    ensures var h := js.sessionId - 1; var e := NextOf(h, s.handlers[h].mark);
            && ServerEnabled(s, e)
            && |ServerApply(s, e).handlers| == |s.handlers|
            && ToComeAt(ServerApply(s, e), js, k) && OnlyUser(ServerApply(s, e), h)
            && ServerApply(s, e).procs == s.procs
            && var hd, hd' := s.handlers[h], ServerApply(s, e).handlers[h];
               hd'.at > hd.at || (hd'.at == hd.at && StepsLeft(hd'.mark) < StepsLeft(hd.mark))
  {
    var h := js.sessionId - 1;
    var e := NextOf(h, s.handlers[h].mark);
    assert Free(s);
    var s' := ServerApply(s, e);
    SumSet(s.handlers, h, s'.handlers[h], Connections);
    WaitersHold(s');
  }

  lemma PublishKeeps(s: Sys, js: JobSpec, k: nat)
    requires s.outbox.Some? && 1 <= js.sessionId <= |s.handlers| && ToComeAt(s, js, k) && OnlyUser(s, js.sessionId - 1)
    ensures var s' := ServerApply(s, PublishJob);
            s'.handlers == s.handlers && s'.outbox == None && s'.procs == s.procs
            && ToComeAt(s', js, k) && OnlyUser(s', js.sessionId - 1)
  {
  }

  lemma ServerThenLeaves(s: Sys, e: ServerEvent, js: JobSpec)
    requires ServerEnabled(s, e) && CanLeave(ServerApply(s, e), js)
    ensures CanLeave(s, js)
  {
    ThenLeaves(s, OfServer(e), js);
  }

  lemma MarkingLeaves(s: Sys, js: JobSpec)
    requires 1 <= js.sessionId && AtMark(s, js.sessionId - 1, ToMark) && CurrentSpec(s, js.sessionId - 1) == js
    requires Free(s)
    ensures CanLeave(s, js)
  {
    NowLeft(ServerApply(s, MarkPending(js.sessionId - 1)), js);
    ServerThenLeaves(s, MarkPending(js.sessionId - 1), js);
  }

  /** A handler that still has the job before it, and the pool for itself, can be driven on to mark it pending. */
  lemma {:induction false} SubmittingLeaves(s: Sys, js: JobSpec, k: nat)
    requires Staffed(s.procs) && KindsOk(s.procs)
    requires 1 <= js.sessionId <= |s.handlers| && ToComeAt(s, js, k) && OnlyUser(s, js.sessionId - 1)
    ensures CanLeave(s, js)
    decreases k - s.handlers[js.sessionId - 1].at, StepsLeft(s.handlers[js.sessionId - 1].mark), s.outbox.Some?
  {
    var h := js.sessionId - 1;
    var hd := s.handlers[h];
    if k == hd.at {
      if hd.mark == ToSend {
        SendingLeaves(s, js);
      } else {
        MarkingLeaves(s, js);
      }
    } else if hd.mark == ToSend && s.outbox.Some? {
      PublishKeeps(s, js, k);
      SubmittingLeaves(ServerApply(s, PublishJob), js, k);
      ServerThenLeaves(s, PublishJob, js);
    } else {
      var e := NextOf(h, hd.mark);
      OnlyUserMoves(s, js, k);
      SubmittingLeaves(ServerApply(s, e), js, k);
      ServerThenLeaves(s, e, js);
    }
  }

  lemma {:induction false} DrainLeaves(s: Sys, js: JobSpec, k: nat)
    requires Staffed(s.procs) && KindsOk(s.procs) && Listed(s) && InUse(s) <= MAX_CONNS && !Exhausted(s)
    requires 1 <= js.sessionId <= |s.handlers| && ToComeAt(s, js, k)
    ensures CanLeave(s, js)
    decreases Drain(s)
  {
    if InUse(s) == 0 {
      SumIsZeroIff(s.handlers, Connections);
      SubmittingLeaves(s, js, k);
    } else {
      var e := DrainStep(s);
      DrainKeeps(s, e, js, k);
      DrainLeaves(Apply(s, OfServer(e)), js, k);
      ThenLeaves(s, OfServer(e), js);
    }
  }

  lemma ReadingLeaves(s: Sys, js: JobSpec)
    requires Staffed(s.procs) && KindsOk(s.procs)
    requires 1 <= js.sessionId <= |s.handlers| && s.handlers[js.sessionId - 1].Reading?
    ensures CanLeave(s, js)
  {
    var e := OfServer(ReadRequest(js.sessionId - 1, "", [], [js.nwo]));
    SendingLeaves(Apply(s, e), js);
    ThenLeaves(s, e, js);
  }

  lemma NewRequestKeeps(s: Sys)
    requires Listed(s) && InUse(s) == 0
    ensures ServerEnabled(s, NewRequest)
    ensures var s' := ServerApply(s, NewRequest);
            && Listed(s') && InUse(s') <= MAX_CONNS && !Exhausted(s') && s'.procs == s.procs
            && |s'.handlers| == |s.handlers| + 1 && s'.handlers[|s.handlers|].Reading?
  {
    NewRequestLists(s, NewRequest);
    StepPool(s, OfServer(NewRequest));
    WaitersHold(s);
  }

  /** A session not begun yet can begin, once the pool is empty. */
  lemma {:induction false} UnopenedLeaves(s: Sys, js: JobSpec)
    requires Staffed(s.procs) && KindsOk(s.procs) && Listed(s) && InUse(s) <= MAX_CONNS && !Exhausted(s)
    requires |s.handlers| < js.sessionId
    ensures CanLeave(s, js)
    decreases js.sessionId - |s.handlers|, Drain(s)
  {
    if InUse(s) > 0 {
      var e := DrainStep(s);
      UnopenedLeaves(Apply(s, OfServer(e)), js);
      ThenLeaves(s, OfServer(e), js);
    } else {
      var e := OfServer(NewRequest);
      var s' := Apply(s, e);
      NewRequestKeeps(s);
      if |s.handlers| + 1 < js.sessionId {
        UnopenedLeaves(s', js);
      } else {
        ReadingLeaves(s', js);
      }
      ThenLeaves(s, e, js);
    }
  }

  lemma UnsettledLeaves(s: Sys, js: JobSpec)
    requires Staffed(s.procs) && KindsOk(s.procs) && Listed(s) && InUse(s) <= MAX_CONNS && !Settled(s, js)
    ensures CanLeave(s, js)
  {
    if ToComeFromQueue(s, js) {
      QueueLeaves(s, js);
    } else if |s.handlers| < js.sessionId {
      UnopenedLeaves(s, js);
    } else if s.handlers[js.sessionId - 1].Reading? {
      ReadingLeaves(s, js);
    } else {
      var k :| ToComeAt(s, js, k);
      if Exhausted(s) {
        SendingLeaves(s, js);
      } else {
        DrainLeaves(s, js, k);
      }
    }
  }

  /**
   * In a reachable state a Succeeded status is final, in every run from there, if and only if the session's handler
   * will not send or mark the job again and no copy of it is queued, unacknowledged, or on its way into a worker.
   * Once the pool has run dry, all a handler can still do is send the job it stands at.
   */
  lemma SucceededIsFinalIff(procs: seq<Proc>, run: seq<Event>, js: JobSpec)
    requires AllIdle(procs) && Staffed(procs) && Valid(Init(procs), run)
    requires HasSucceeded(After(Init(procs), run), js)
    ensures var s := After(Init(procs), run);
            Settled(s, js) <==> forall later :: Valid(s, later) ==> HasSucceeded(After(s, later), js)
  {
    var s := After(Init(procs), run);
    RunKeeps(procs, run);
    RunPool(procs, run);
    RunKeepsStaff(procs, run);
    if Settled(s, js) {
      forall later | Valid(s, later) ensures HasSucceeded(After(s, later), js) {
        SettledIsFinal(s, later, js);
      }
    } else {
      UnsettledLeaves(s, js);
      var later :| Leaves(s, js, later);
      assert !HasSucceeded(After(s, later), js);
    }
  }
}
