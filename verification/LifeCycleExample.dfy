/** A fault-free run in which a job's Succeeded status is overwritten by Pending. */
module LifeCycleExample {
  import opened Common
  import opened LifeCycle
  import opened Sums

  const ONE_AGENT := [Proc(0, Consumer, Idle), Proc(0, Worker, Idle), Proc(0, Publisher, Idle)]

  const START := Init(ONE_AGENT)

  predicate HandlerAt(s: Sys, n: NameWithOwner, mark: Mark) {
    && |s.handlers| == 1 && s.handlers[0].Submitting?
    && s.handlers[0].repos == [n] && s.handlers[0].at == 0 && s.handlers[0].mark == mark
  }

  predicate ServerIdle(s: Sys) {
    s.inbox == Polling && s.recorder == Waiting
  }

  predicate Opened(s: Sys) {
    s.handlers == [Reading] && ServerIdle(s) && s.outbox == None && s.procs == ONE_AGENT
  }

  predicate AtSend(s: Sys, n: NameWithOwner) {
    HandlerAt(s, n, ToSend) && ServerIdle(s) && s.outbox == None && s.procs == ONE_AGENT
  }

  predicate Sent(s: Sys, n: NameWithOwner) {
    && HandlerAt(s, n, ToMark) && ServerIdle(s) && s.procs == ONE_AGENT
    && s.outbox.Some? && s.outbox.value.spec == JobSpec(1, n)
  }

  predicate InConsumer(s: Sys, n: NameWithOwner) {
    && HandlerAt(s, n, ToMark) && ServerIdle(s)
    && |s.procs| == 3 && s.procs[0].agent == 0 && s.procs[0].kind == Consumer && s.procs[1..] == ONE_AGENT[1..]
    && s.procs[0].phase.Offering? && s.procs[0].phase.job.spec == JobSpec(1, n)
  }

  predicate InWorker(s: Sys, n: NameWithOwner) {
    && HandlerAt(s, n, ToMark) && ServerIdle(s)
    && |s.procs| == 3 && s.procs[1].agent == 0 && s.procs[1].kind == Worker && s.procs[2] == ONE_AGENT[2]
    && s.procs[1].phase.Received? && s.procs[1].phase.job.spec == JobSpec(1, n)
  }

  predicate HasResult(s: Sys, n: NameWithOwner) {
    && HandlerAt(s, n, ToMark) && ServerIdle(s)
    && |s.procs| == 3 && s.procs[1].agent == 0 && s.procs[1].kind == Worker && s.procs[2] == ONE_AGENT[2]
    && s.procs[1].phase.Sending? && IsSuccess(s.procs[1].phase.result, n)
  }

  predicate IsSuccess(r: AnalyzeResult, n: NameWithOwner) {
    r.spec == JobSpec(1, n) && r.status == Succeeded
  }

  predicate InPublisher(s: Sys, n: NameWithOwner) {
    && HandlerAt(s, n, ToMark) && ServerIdle(s)
    && |s.procs| == 3 && s.procs[2].kind == Publisher
    && s.procs[2].phase.Publishing? && IsSuccess(s.procs[2].phase.result, n)
  }

  predicate InInbox(s: Sys, n: NameWithOwner) {
    HandlerAt(s, n, ToMark) && s.recorder == Waiting && s.inbox.InOffering? && IsSuccess(s.inbox.result, n)
  }

  predicate Recorded(s: Sys, n: NameWithOwner) {
    HandlerAt(s, n, ToMark) && JobSpec(1, n) in s.db.status && s.db.status[JobSpec(1, n)] == Succeeded
  }

  /** A single handler outside a transaction leaves the pool free. */
  lemma PoolFree(s: Sys)
    requires |s.handlers| == 1 && Connections(s.handlers[0]) == 0
    ensures Free(s)
  {
    SumIsZeroIff(s.handlers, Connections);
  }

  lemma Step(run: seq<Event>, e: Event) returns (run': seq<Event>)
    requires Valid(START, run) && Enabled(After(START, run), e)
    ensures run' == run + [e] && Valid(START, run') && After(START, run') == Apply(After(START, run), e)
  {
    Extend(START, run, e);
    run' := run + [e];
  }

  lemma Open() returns (run: seq<Event>)
    ensures Valid(START, run) && Opened(After(START, run))
  {
    run := Step([], OfServer(NewRequest));
  }

  lemma Read(n: NameWithOwner, run: seq<Event>) returns (run': seq<Event>)
    requires Valid(START, run) && Opened(After(START, run))
    ensures Valid(START, run') && AtSend(After(START, run'), n)
  {
    run' := Step(run, OfServer(ReadRequest(0, "go", [], [n])));
  }

  lemma SendIt(n: NameWithOwner, run: seq<Event>) returns (run': seq<Event>)
    requires Valid(START, run) && AtSend(After(START, run), n)
    ensures Valid(START, run') && Sent(After(START, run'), n)
  {
    run' := Step(run, OfServer(SendJob(0)));
  }

  lemma Deliver(n: NameWithOwner, run: seq<Event>) returns (run': seq<Event>)
    requires Valid(START, run) && Sent(After(START, run), n)
    ensures Valid(START, run') && InConsumer(After(START, run'), n)
  {
    var m := Good(After(START, run).outbox.value);
    run' := Step(run, OfServer(PublishJob));
    run' := Step(run', OfAgent(PollJob(0, m)));
  }

  lemma HandOver(n: NameWithOwner, run: seq<Event>) returns (run': seq<Event>)
    requires Valid(START, run) && InConsumer(After(START, run), n)
    ensures Valid(START, run') && InWorker(After(START, run'), n)
  {
    run' := Step(run, OfAgent(HandJob(0, 1)));
  }

  lemma Analyse(n: NameWithOwner, run: seq<Event>) returns (run': seq<Event>)
    requires Valid(START, run) && InWorker(After(START, run), n)
    ensures Valid(START, run') && HasResult(After(START, run'), n)
  {
    run' := Step(run, OfAgent(Begin(1)));
    run' := Step(run', OfAgent(Save(1, [], 0, "", "")));
  }

  lemma PassOn(n: NameWithOwner, run: seq<Event>) returns (run': seq<Event>)
    requires Valid(START, run) && HasResult(After(START, run), n)
    ensures Valid(START, run') && InPublisher(After(START, run'), n)
  {
    run' := Step(run, OfAgent(SendResult(1, 2)));
  }

  lemma Return(n: NameWithOwner, run: seq<Event>) returns (run': seq<Event>)
    requires Valid(START, run) && InPublisher(After(START, run), n)
    ensures Valid(START, run') && InInbox(After(START, run'), n)
  {
    var m := Good(After(START, run).procs[2].phase.result);
    run' := Step(run, OfAgent(PublishResult(2)));
    run' := Step(run', OfServer(PollResult(m)));
  }

  lemma Record(n: NameWithOwner, run: seq<Event>) returns (run': seq<Event>)
    requires Valid(START, run) && InInbox(After(START, run), n)
    ensures Valid(START, run') && Recorded(After(START, run'), n)
  {
    run' := Step(run, OfServer(HandResult));
    PoolFree(After(START, run'));
    run' := Step(run', OfServer(RecordResult));
    PoolFree(After(START, run'));
    run' := Step(run', OfServer(RecordStatus));
  }

  /** The job is enqueued before it is marked, so a fast result is overwritten: Succeeded, then Pending. */
  lemma SucceededOverwritten(n: NameWithOwner) returns (run: seq<Event>)
    ensures run != [] && Valid(START, run)
    ensures Valid(START, run[..|run| - 1])
    ensures var js := JobSpec(1, n);
            && js in After(START, run[..|run| - 1]).db.status
            && After(START, run[..|run| - 1]).db.status[js] == Succeeded
            && js in After(START, run).db.status && After(START, run).db.status[js] == Pending
  {
    run := Open();
    run := Read(n, run);
    run := SendIt(n, run);
    run := Deliver(n, run);
    run := HandOver(n, run);
    run := Analyse(n, run);
    run := PassOn(n, run);
    run := Return(n, run);
    run := Record(n, run);
    PoolFree(After(START, run));
    var longer := Step(run, OfServer(MarkPending(0)));
    assert longer[..|longer| - 1] == run;
    run := longer;
  }
}
