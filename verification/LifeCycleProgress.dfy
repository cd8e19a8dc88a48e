/** Progress: a measure that every job step decreases, and exactly when the work that is left can be finished. */
module LifeCycleProgress {
  import opened Common
  import opened PGState
  import opened LifeCycle
  import opened LifeCycleSafety
  import opened LifeCycleLedger
  import opened LifeCyclePool
  import opened LifeCycleStaff
  import opened Sums

  // ----- The measure: how many steps the work in each place can still cause

  function PhaseWeight(p: Proc): nat {
    match p.phase
    case Idle => 0
    case Dead => 0
    case Offering(_) => 11
    case Rejecting(_) => 1
    case Acking(_) => 1
    case Received(_) => 9
    case Analysing(_) => 8
    case Sending(_) => 7
    case Publishing(_) => 6
  }

  function MarkDone(mark: Mark): nat {
    match mark
    case ToSend => 0
    case ToMark => 14
    case ToBegin => 15
    case ToNumber => 16
    case ToList => 17
  }

  function HandlerWeight(hd: Handler): nat {
    match hd
    case Submitting(_, _, repos, at, mark) =>
      if at < |repos| then 18 * (|repos| - at) - MarkDone(mark) + |repos| + 3 else |repos| + 3
    case Listing(_, repos) => |repos| + 2
    case Informing(_, todo) => |todo| + 1
    case _ => 0
  }

  function InboxWeight(inbox: Inbox): nat {
    match inbox
    case Polling => 0
    case InOffering(_) => 4
    case InRejecting(_) => 1
    case InAcking(_) => 1
  }

  function RecorderWeight(recorder: Recorder): nat {
    match recorder
    case Waiting => 0
    case Got(_) => 2
    case Stored(_) => 1
  }

  ghost function Measure(s: Sys): nat {
    Sum(s.handlers, HandlerWeight) + (if s.outbox.Some? then 13 else 0) + 12 * |s.tasks| + Sum(s.procs, PhaseWeight)
    + 5 * |s.results| + InboxWeight(s.inbox) + RecorderWeight(s.recorder)
  }

  /** The steps that move work along; opening and reading requests, redelivery, losses and readers are not. */
  predicate JobStep(e: Event) {
    match e
    case OfServer(x) => !x.NewRequest? && !x.ReadRequest? && !x.RefuseRequest? && !x.LoseJob?
    case OfAgent(x) => !x.LosePublish? && !x.Die? && !x.Restart?
    case _ => false
  }

  /** How much work a step brings into the system. */
  function Budget(e: Event): nat {
    match e
    case OfServer(ReadRequest(_, _, _, repos)) => 19 * |repos| + 3
    case OfBroker(RequeueTask(_)) => 12
    case OfBroker(ForeignTask(_)) => 12
    case OfBroker(RequeueResult(_)) => 5
    case OfBroker(ForeignResult(_)) => 5
    case _ => 0
  }

  ghost predicate Descends(s: Sys, e: Event)
    requires Enabled(s, e)
  {
    Measure(Apply(s, e)) + (if JobStep(e) then 1 else 0) <= Measure(s) + Budget(e)
  }

  // ----- A job list is no longer than the request it came from

  lemma {:induction false} DistinctSize<T>(xs: seq<T>)
    requires forall i, j :: 0 <= i < j < |xs| ==> xs[i] != xs[j]
    ensures |set x | x in xs| == |xs|
  {
    if xs != [] {
      var n := |xs| - 1;
      DistinctSize(xs[..n]);
      assert (set x | x in xs) == (set x | x in xs[..n]) + {xs[n]};
    }
  }

  lemma {:induction false} SetOfSeqSize<T>(xs: seq<T>)
    ensures |set x | x in xs| <= |xs|
  {
    if xs != [] {
      var n := |xs| - 1;
      SetOfSeqSize(xs[..n]);
      assert (set x | x in xs) == (set x | x in xs[..n]) + {xs[n]};
    }
  }

  lemma {:induction false} SubsetSize<T>(a: set<T>, b: set<T>)
    requires a <= b
    ensures |a| <= |b|
  {
    if x :| x in a {
      SubsetSize(a - {x}, b - {x});
    }
  }

  lemma ListingFits(s: Sys, h: nat, listing: seq<JobSpec>)
    requires Listed(s) && h < |s.handlers| && s.handlers[h].Listing? && Enumerates(listing, Rows(s.db, h + 1))
    ensures |listing| <= |s.handlers[h].repos|
  {
    var repos := s.handlers[h].repos;
    var specs := seq(|repos|, i requires 0 <= i < |repos| => JobSpec(h + 1, repos[i]));
    forall js | js in listing ensures js in specs {
      assert RowOk(s, js);
      var i :| 0 <= i < |repos| && repos[i] == js.nwo;
      assert specs[i] == js;
    }
    DistinctSize(listing);
    SetOfSeqSize(specs);
    SubsetSize(set js | js in listing, set js | js in specs);
  }

  // ----- Each step

  lemma OpeningDescends(s: Sys, e: ServerEvent)
    requires e.NewRequest? || e.ReadRequest? || e.RefuseRequest?
    requires ServerEnabled(s, e)
    ensures Descends(s, OfServer(e))
  {
    if e.NewRequest? {
      SumSnoc(s.handlers, Reading, HandlerWeight);
    } else {
      SumSet(s.handlers, e.h, ServerApply(s, e).handlers[e.h], HandlerWeight);
    }
  }

  lemma MarkingDescends(s: Sys, e: ServerEvent)
    requires e.SendJob? || e.MarkPending?
    requires ServerEnabled(s, e)
    ensures Descends(s, OfServer(e))
  {
    SumSet(s.handlers, e.h, ServerApply(s, e).handlers[e.h], HandlerWeight);
  }

  lemma AddingDescends(s: Sys, e: ServerEvent)
    requires e.OpenJob? || e.NumberJob? || e.ListJob?
    requires ServerEnabled(s, e)
    ensures Descends(s, OfServer(e))
  {
    SumSet(s.handlers, e.h, ServerApply(s, e).handlers[e.h], HandlerWeight);
  }

  lemma ListingDescends(s: Sys, e: ServerEvent)
    requires e.ReadJobList?
    requires ServerEnabled(s, e) && Listed(s)
    ensures Descends(s, OfServer(e))
  {
    ListingFits(s, e.h, e.listing);
    SumSet(s.handlers, e.h, Informing(e.info, e.listing), HandlerWeight);
  }

  lemma AnsweringDescends(s: Sys, e: ServerEvent)
    requires e.BeginAnswer? || e.SetInfo? || e.Answer?
    requires ServerEnabled(s, e)
    ensures Descends(s, OfServer(e))
  {
    SumSet(s.handlers, e.h, ServerApply(s, e).handlers[e.h], HandlerWeight);
  }

  lemma InboxDescends(s: Sys, e: ServerEvent)
    requires e.PublishJob? || e.LoseJob? || TouchesResults(e)
    requires ServerEnabled(s, e)
    ensures Descends(s, OfServer(e))
  {
  }

  lemma ServerDescends(s: Sys, e: ServerEvent)
    requires ServerEnabled(s, e) && Listed(s)
    ensures Descends(s, OfServer(e))
  {
    if e.NewRequest? || e.ReadRequest? || e.RefuseRequest? {
      OpeningDescends(s, e);
    } else if e.SendJob? || e.MarkPending? {
      MarkingDescends(s, e);
    } else if e.OpenJob? || e.NumberJob? || e.ListJob? {
      AddingDescends(s, e);
    } else if e.ReadJobList? {
      ListingDescends(s, e);
    } else if e.BeginAnswer? || e.SetInfo? || e.Answer? {
      AnsweringDescends(s, e);
    } else {
      InboxDescends(s, e);
    }
  }

  lemma HandDescends(s: Sys, e: AgentEvent)
    requires e.HandJob?
    requires AgentEnabled(s, e)
    ensures Descends(s, OfAgent(e))
  {
    var acking := s.procs[e.p].(phase := Acking(s.procs[e.p].phase.job));
    SumSet(s.procs, e.p, acking, PhaseWeight);
    SumSet(s.procs[e.p := acking], e.w, s.procs[e.w].(phase := Received(s.procs[e.p].phase.job)), PhaseWeight);
  }

  lemma SendResultDescends(s: Sys, e: AgentEvent)
    requires e.SendResult?
    requires AgentEnabled(s, e)
    ensures Descends(s, OfAgent(e))
  {
    var idle := s.procs[e.w].(phase := Idle);
    SumSet(s.procs, e.w, idle, PhaseWeight);
    SumSet(s.procs[e.w := idle], e.q, s.procs[e.q].(phase := Publishing(s.procs[e.w].phase.result)), PhaseWeight);
  }

  lemma PollDescends(s: Sys, e: AgentEvent)
    requires e.PollJob?
    requires AgentEnabled(s, e)
    ensures Descends(s, OfAgent(e))
  {
    var phase := if e.m.Good? then Offering(e.m.body) else Rejecting(e.m.raw);
    SumSet(s.procs, e.p, s.procs[e.p].(phase := phase), PhaseWeight);
  }

  lemma SettleDescends(s: Sys, e: AgentEvent)
    requires e.RejectJob? || e.AckJob? || e.LoseJobAck?
    requires AgentEnabled(s, e)
    ensures Descends(s, OfAgent(e))
  {
    SumSet(s.procs, e.p, s.procs[e.p].(phase := Idle), PhaseWeight);
  }

  lemma CrashDescends(s: Sys, e: AgentEvent)
    requires e.Die? || e.Restart?
    requires AgentEnabled(s, e)
    ensures Descends(s, OfAgent(e))
  {
    SumSet(s.procs, e.p, s.procs[e.p].(phase := if e.Die? then Dead else Idle), PhaseWeight);
  }

  lemma RunDescends(s: Sys, e: AgentEvent)
    requires e.Begin? || e.Fail?
    requires AgentEnabled(s, e)
    ensures Descends(s, OfAgent(e))
  {
    SumSet(s.procs, e.w, AgentApply(s, e).procs[e.w], PhaseWeight);
  }

  lemma SaveDescends(s: Sys, e: AgentEvent)
    requires e.Save?
    requires AgentEnabled(s, e)
    ensures Descends(s, OfAgent(e))
  {
    SumSet(s.procs, e.w, AgentApply(s, e).procs[e.w], PhaseWeight);
  }

  lemma PublishDescends(s: Sys, e: AgentEvent)
    requires e.PublishResult? || e.LosePublish?
    requires AgentEnabled(s, e)
    ensures Descends(s, OfAgent(e))
  {
    SumSet(s.procs, e.q, s.procs[e.q].(phase := Idle), PhaseWeight);
  }

  lemma AgentDescends(s: Sys, e: AgentEvent)
    requires AgentEnabled(s, e)
    ensures Descends(s, OfAgent(e))
  {
    match e
    case PollJob(_, _) => PollDescends(s, e);
    case RejectJob(_) => SettleDescends(s, e);
    case HandJob(_, _) => HandDescends(s, e);
    case AckJob(_) => SettleDescends(s, e);
    case LoseJobAck(_) => SettleDescends(s, e);
    case Begin(_) => RunDescends(s, e);
    case Fail(_) => RunDescends(s, e);
    case Save(_, _, _, _, _) => SaveDescends(s, e);
    case SendResult(_, _) => SendResultDescends(s, e);
    case PublishResult(_) => PublishDescends(s, e);
    case LosePublish(_) => PublishDescends(s, e);
    case Die(_) => CrashDescends(s, e);
    case Restart(_) => CrashDescends(s, e);
  }

  lemma BrokerDescends(s: Sys, e: BrokerEvent)
    requires BrokerEnabled(s, e)
    ensures Descends(s, OfBroker(e))
  {
  }

  lemma ReaderDescends(s: Sys, e: ReaderEvent)
    requires ReaderEnabled(s, e)
    ensures Descends(s, OfReader(e))
  {
  }

  /** Each job step uses up at least one unit; only requests, redeliveries and foreign messages bring new ones. */
  lemma StepDescends(s: Sys, e: Event)
    requires Enabled(s, e) && Inv(s)
    ensures Measure(Apply(s, e)) + (if JobStep(e) then 1 else 0) <= Measure(s) + Budget(e)
  {
    match e
    case OfServer(x) => ServerDescends(s, x);
    case OfBroker(x) => BrokerDescends(s, x);
    case OfAgent(x) => AgentDescends(s, x);
    case OfReader(x) => ReaderDescends(s, x);
  }

  // ----- Runs

  function IsJobStep(e: Event): nat {
    if JobStep(e) then 1 else 0
  }

  ghost function JobSteps(run: seq<Event>): nat {
    Sum(run, IsJobStep)
  }

  ghost function Work(run: seq<Event>): nat {
    Sum(run, Budget)
  }

  lemma {:induction false} IdleWeighsNothing(procs: seq<Proc>)
    requires AllIdle(procs)
    ensures Sum(procs, PhaseWeight) == 0
  {
    SumIsZeroIff(procs, PhaseWeight);
  }

  /** The job steps of a run are at most what its requests, redeliveries and foreign messages paid for. */
  lemma {:induction false} JobStepsBounded(procs: seq<Proc>, run: seq<Event>)
    requires AllIdle(procs) && Valid(Init(procs), run)
    ensures JobSteps(run) + Measure(After(Init(procs), run)) <= Work(run)
  {
    if run == [] {
      IdleWeighsNothing(procs);
    } else {
      var n := |run| - 1;
      JobStepsBounded(procs, run[..n]);
      RunKeeps(procs, run[..n]);
      StepDescends(After(Init(procs), run[..n]), run[n]);
    }
  }

  // ----- Something can always be done while there is work

  ghost predicate Possible(s: Sys, e: Event) {
    JobStep(e) && Enabled(s, e)
  }

  ghost predicate CanMove(s: Sys) {
    exists e :: Possible(s, e)
  }

  lemma Moves(s: Sys, e: Event)
    requires Possible(s, e)
    ensures CanMove(s)
  {
  }

  ghost predicate NoneDead(procs: seq<Proc>) {
    forall p :: 0 <= p < |procs| ==> !procs[p].phase.Dead?
  }

  lemma PublisherMoves(s: Sys, q: nat)
    requires KindsOk(s.procs) && IsProc(s, q, Publisher) && s.procs[q].phase.Publishing?
    ensures CanMove(s)
  {
    Moves(s, OfAgent(PublishResult(q)));
  }

  lemma WorkerMoves(s: Sys, w: nat)
    requires KindsOk(s.procs) && Staffed(s.procs) && NoneDead(s.procs)
    requires IsProc(s, w, Worker) && s.procs[w].phase != Idle
    ensures CanMove(s)
  {
    assert KindOk(s.procs[w]);
    match s.procs[w].phase
    case Received(_) => Moves(s, OfAgent(Begin(w)));
    case Analysing(_) => Moves(s, OfAgent(Fail(w)));
    case Sending(_) =>
      assert Has(s.procs, s.procs[w].agent, Publisher);
      var q :| 0 <= q < |s.procs| && s.procs[q].agent == s.procs[w].agent && s.procs[q].kind == Publisher;
      assert KindOk(s.procs[q]);
      if s.procs[q].phase == Idle {
        Moves(s, OfAgent(SendResult(w, q)));
      } else {
        PublisherMoves(s, q);
      }
  }

  lemma ConsumerMoves(s: Sys, p: nat)
    requires KindsOk(s.procs) && Staffed(s.procs) && NoneDead(s.procs)
    requires IsProc(s, p, Consumer) && s.procs[p].phase != Idle
    ensures CanMove(s)
  {
    assert KindOk(s.procs[p]);
    if s.procs[p].phase.Offering? {
      assert Has(s.procs, s.procs[p].agent, Worker);
      var w :| 0 <= w < |s.procs| && s.procs[w].agent == s.procs[p].agent && s.procs[w].kind == Worker;
      if s.procs[w].phase == Idle {
        Moves(s, OfAgent(HandJob(p, w)));
      } else {
        WorkerMoves(s, w);
      }
    } else {
      Moves(s, OfAgent(LoseJobAck(p)));
    }
  }

  lemma ProcMoves(s: Sys, p: nat)
    requires KindsOk(s.procs) && Staffed(s.procs) && NoneDead(s.procs)
    requires p < |s.procs| && s.procs[p].phase != Idle
    ensures CanMove(s)
  {
    assert KindOk(s.procs[p]);
    match s.procs[p].kind
    case Consumer => ConsumerMoves(s, p);
    case Worker => WorkerMoves(s, p);
    case Publisher => PublisherMoves(s, p);
  }

  lemma TaskMoves(s: Sys, m: JobMsg)
    requires KindsOk(s.procs) && Staffed(s.procs) && NoneDead(s.procs) && m in s.tasks
    ensures CanMove(s)
  {
    assert Has(s.procs, s.procs[0].agent, Consumer);
    var p :| 0 <= p < |s.procs| && s.procs[p].agent == s.procs[0].agent && s.procs[p].kind == Consumer;
    if s.procs[p].phase == Idle {
      Moves(s, OfAgent(PollJob(p, m)));
    } else {
      ConsumerMoves(s, p);
    }
  }

  lemma RecorderMoves(s: Sys)
    requires Free(s) && s.recorder != Waiting
    ensures CanMove(s)
  {
    Moves(s, OfServer(if s.recorder.Got? then RecordResult else RecordStatus));
  }

  lemma InboxMoves(s: Sys)
    requires Free(s) && s.inbox != Polling
    ensures CanMove(s)
  {
    if !s.inbox.InOffering? {
      Moves(s, OfServer(LoseResultAck));
    } else if s.recorder == Waiting {
      Moves(s, OfServer(HandResult));
    } else {
      RecorderMoves(s);
    }
  }

  lemma ResultMoves(s: Sys, m: ResultMsg)
    requires Free(s) && m in s.results
    ensures CanMove(s)
  {
    if s.inbox == Polling {
      Moves(s, OfServer(PollResult(m)));
    } else {
      InboxMoves(s);
    }
  }

  lemma {:induction false} ListingExists(rows: set<JobSpec>) returns (listing: seq<JobSpec>)
    ensures Enumerates(listing, rows)
  {
    if js :| js in rows {
      var rest := ListingExists(rows - {js});
      listing := rest + [js];
    } else {
      listing := [];
    }
  }

  lemma HandlerMoves(s: Sys, h: nat)
    requires Free(s) && h < |s.handlers| && HandlerOk(s, h) && HandlerWeight(s.handlers[h]) > 0
    ensures CanMove(s)
  {
    match s.handlers[h]
    case Submitting(_, _, repos, at, mark) =>
      if at >= |repos| {
        Moves(s, OfServer(BeginAnswer(h)));
      } else {
        match mark
        case ToSend => Moves(s, OfServer(if s.outbox.Some? then PublishJob else SendJob(h)));
        case ToMark => Moves(s, OfServer(MarkPending(h)));
        case ToBegin => Moves(s, OfServer(OpenJob(h)));
        case ToNumber => Moves(s, OfServer(NumberJob(h)));
        case ToList => Moves(s, OfServer(ListJob(h)));
      }
    case Listing(language, _) =>
      var listing := ListingExists(Rows(s.db, h + 1));
      Moves(s, OfServer(ReadJobList(h, listing, JobInfo(language, "", "", []))));
    case Informing(_, todo) => Moves(s, OfServer(if todo == [] then Answer(h) else SetInfo(h)));
    case _ =>
  }

  /** While a connection is free, work left means a job step is enabled. */
  lemma FreeMoves(s: Sys)
    requires KindsOk(s.procs) && Staffed(s.procs) && NoneDead(s.procs) && Listed(s) && Free(s)
    ensures Measure(s) > 0 ==> CanMove(s)
  {
    SumIsZeroIff(s.handlers, HandlerWeight);
    SumIsZeroIff(s.procs, PhaseWeight);
    if Measure(s) > 0 {
      if s.outbox.Some? {
        Moves(s, OfServer(PublishJob));
      } else if s.inbox != Polling {
        InboxMoves(s);
      } else if s.recorder != Waiting {
        RecorderMoves(s);
      } else if m :| m in s.tasks {
        TaskMoves(s, m);
      } else if m :| m in s.results {
        ResultMoves(s, m);
      } else if h :| 0 <= h < |s.handlers| && HandlerWeight(s.handlers[h]) > 0 {
        HandlerMoves(s, h);
      } else {
        var p :| 0 <= p < |s.procs| && PhaseWeight(s.procs[p]) > 0;
        ProcMoves(s, p);
      }
    }
  }

  lemma CommitPossible(s: Sys, h: nat)
    requires Listed(s) && h < |s.handlers| && s.handlers[h].Submitting? && s.handlers[h].mark == ToList
    ensures Possible(s, OfServer(ListJob(h)))
  {
    assert HandlerOk(s, h);
  }

  /** With staffed agents and none dead, work left means a job step is enabled, unless the pool is exhausted. */
  lemma NoDeadlock(s: Sys)
    requires KindsOk(s.procs) && Staffed(s.procs) && NoneDead(s.procs) && Listed(s) && !Exhausted(s)
    ensures Measure(s) > 0 ==> CanMove(s)
  {
    if Free(s) {
      FreeMoves(s);
    } else {
      var h := SomeCommits(s.handlers);
      CommitPossible(s, h);
    }
  }

  lemma WaiterWeighs(s: Sys)
    requires Exhausted(s)
    ensures Measure(s) > 0
    ensures exists h :: 0 <= h < |s.handlers| && s.handlers[h].Submitting?
  {
    var h := SomeWaits(s.handlers);
    SumIsZeroIff(s.handlers, HandlerWeight);
    assert HandlerWeight(s.handlers[h]) > 0;
  }

  // ----- Finishing

  ghost predicate JobRun(run: seq<Event>) {
    forall i :: 0 <= i < |run| ==> JobStep(run[i])
  }

  ghost predicate Finishes(s: Sys, run: seq<Event>) {
    Valid(s, run) && JobRun(run) && Measure(After(s, run)) == 0
  }

  /** The agents and server can get all work done without any new request. */
  ghost predicate CanFinish(s: Sys) {
    exists run :: Finishes(s, run)
  }

  /** What the search for a next step relies on, and keeps. */
  ghost predicate Sane(s: Sys) {
    && Inv(s) && InUse(s) <= MAX_CONNS
    && KindsOk(s.procs) && Staffed(s.procs) && NoneDead(s.procs)
  }

  lemma JobStepSane(s: Sys, e: Event)
    requires Sane(s) && Possible(s, e)
    ensures Sane(Apply(s, e)) && Measure(Apply(s, e)) < Measure(s)
  {
    StepKeeps(s, e);
    StepPool(s, e);
    StepKeepsStaff(s, e);
    StaffedStays(s.procs, Apply(s, e).procs);
    JobStepKillsNone(s, e);
    StepDescends(s, e);
  }

  /** A job step that does not exhaust the pool: commit first, then number, and only then anything else. */
  lemma GoodMove(s: Sys) returns (e: Event)
    requires Sane(s) && !Exhausted(s) && Measure(s) > 0
    ensures Possible(s, e) && !Exhausted(Apply(s, e))
  {
    if InUse(s) > Waiters(s) {
      var h := SomeCommits(s.handlers);
      CommitPossible(s, h);
      e := OfServer(ListJob(h));
    } else if Waiters(s) > 0 {
      var h := SomeWaits(s.handlers);
      assert HandlerOk(s, h);
      e := OfServer(NumberJob(h));
    } else {
      NoDeadlock(s);
      e :| Possible(s, e);
    }
    StepPool(s, e);
  }

  lemma JobRunLonger(e: Event, run: seq<Event>)
    requires JobStep(e) && JobRun(run)
    ensures JobRun([e] + run)
  {
  }

  lemma FinishesLonger(s: Sys, e: Event, run: seq<Event>)
    requires Possible(s, e) && Finishes(Apply(s, e), run)
    ensures Finishes(s, [e] + run)
  {
    JobRunLonger(e, run);
    Prepend(s, e, run);
  }

  lemma ThenFinishes(s: Sys, e: Event, mid: Sys)
    requires Possible(s, e) && mid == Apply(s, e) && CanFinish(mid)
    ensures CanFinish(s)
  {
    var run :| Finishes(mid, run);
    FinishesLonger(s, e, run);
  }

  lemma {:induction false} UnexhaustedFinishes(s: Sys)
    requires Sane(s) && !Exhausted(s)
    ensures CanFinish(s)
    decreases Measure(s)
  {
    if Measure(s) == 0 {
      assert Finishes(s, []);
    } else {
      var e := GoodMove(s);
      JobStepSane(s, e);
      UnexhaustedFinishes(Apply(s, e));
      ThenFinishes(s, e, Apply(s, e));
    }
  }

  lemma ExhaustedNeverFinishes(s: Sys, run: seq<Event>)
    requires Exhausted(s) && InUse(s) <= MAX_CONNS && Valid(s, run)
    ensures Measure(After(s, run)) > 0
  {
    ExhaustedForever(s, run);
    WaiterWeighs(After(s, run));
  }

  lemma ReachedIsSane(procs: seq<Proc>, run: seq<Event>)
    requires AllIdle(procs) && Staffed(procs) && Valid(Init(procs), run) && NoneDead(After(Init(procs), run).procs)
    ensures Sane(After(Init(procs), run))
  {
    RunKeeps(procs, run);
    RunPool(procs, run);
    RunKeepsStaff(procs, run);
  }

  /** In a reachable state with staffed, living agents all work can be finished iff the pool has not run dry. */
  lemma CanFinishIff(procs: seq<Proc>, run: seq<Event>)
    requires AllIdle(procs) && Staffed(procs) && Valid(Init(procs), run) && NoneDead(After(Init(procs), run).procs)
    ensures CanFinish(After(Init(procs), run)) <==> !Exhausted(After(Init(procs), run))
  {
    var s := After(Init(procs), run);
    ReachedIsSane(procs, run);
    if Exhausted(s) {
      forall later | Valid(s, later) ensures Measure(After(s, later)) > 0 {
        ExhaustedNeverFinishes(s, later);
      }
    } else {
      UnexhaustedFinishes(s);
    }
  }

  // ----- Quiescence

  lemma {:induction false} CalmKillsNone(procs: seq<Proc>, run: seq<Event>)
    requires AllIdle(procs) && Valid(Init(procs), run) && CalmRun(run)
    ensures NoneDead(After(Init(procs), run).procs)
  {
    if run != [] {
      var n := |run| - 1;
      CalmKillsNone(procs, run[..n]);
      assert Calm(run[n]);
      CalmStepKillsNone(After(Init(procs), run[..n]), run[n]);
    }
  }

  lemma CalmStepKillsNone(s: Sys, e: Event)
    requires Enabled(s, e) && Calm(e) && NoneDead(s.procs)
    ensures NoneDead(Apply(s, e).procs)
  {
    if e.OfAgent? {
      AgentKillsNone(s, e.ae);
    }
  }

  lemma JobStepKillsNone(s: Sys, e: Event)
    requires Possible(s, e) && NoneDead(s.procs)
    ensures NoneDead(Apply(s, e).procs)
  {
    if e.OfAgent? {
      AgentKillsNone(s, e.ae);
    }
  }

  lemma SetKillsNone(procs: seq<Proc>, p: nat, phase: Phase)
    requires NoneDead(procs) && p < |procs| && !phase.Dead?
    ensures NoneDead(SetPhase(procs, p, phase))
  {
  }

  lemma AgentKillsNone(s: Sys, e: AgentEvent)
    requires AgentEnabled(s, e) && !e.Die? && NoneDead(s.procs)
    ensures NoneDead(AgentApply(s, e).procs)
  {
    match e
    case HandJob(p, w) =>
      var job := s.procs[p].phase.job;
      SetKillsNone(s.procs, p, Acking(job));
      SetKillsNone(SetPhase(s.procs, p, Acking(job)), w, Received(job));
    case SendResult(w, q) =>
      SetKillsNone(s.procs, w, Idle);
      SetKillsNone(SetPhase(s.procs, w, Idle), q, Publishing(s.procs[w].phase.result));
    case PublishResult(q) => SetKillsNone(s.procs, q, Idle);
    case LosePublish(q) => SetKillsNone(s.procs, q, Idle);
    case Begin(w) => SetKillsNone(s.procs, w, Analysing(s.procs[w].phase.job));
    case Fail(w) => SetKillsNone(s.procs, w, Idle);
    case Save(w, _, _, _, _) => SetKillsNone(s.procs, w, AgentApply(s, e).procs[w].phase);
    case PollJob(p, _) => SetKillsNone(s.procs, p, AgentApply(s, e).procs[p].phase);
    case RejectJob(p) => SetKillsNone(s.procs, p, Idle);
    case AckJob(p) => SetKillsNone(s.procs, p, Idle);
    case LoseJobAck(p) => SetKillsNone(s.procs, p, Idle);
    case Restart(p) => SetKillsNone(s.procs, p, Idle);
    case Die(_) =>
  }

  lemma {:induction false} WeightlessHoldsNone<T>(procs: seq<Proc>, m: T, within: (Phase, T) -> bool)
    requires forall p :: 0 <= p < |procs| ==> !within(procs[p].phase, m)
    ensures Held(procs, m, within) == 0
  {
    if procs != [] {
      WeightlessHoldsNone(procs[..|procs| - 1], m, within);
    }
  }

  lemma NothingHeld(s: Sys, m: JobMsg, r: ResultMsg)
    requires Measure(s) == 0
    ensures Held(s.procs, m, OfferIn) == 0 && Held(s.procs, m, RunIn) == 0 && Held(s.procs, r, SendIn) == 0
    ensures InOutbox(s.outbox, m) == 0 && s.tasks[m] == 0
    ensures s.results[r] == 0 && InboxOffer(s.inbox, r) == 0 && InRecorder(s.recorder, r) == 0
  {
    SumIsZeroIff(s.procs, PhaseWeight);
    WeightlessHoldsNone(s.procs, m, OfferIn);
    WeightlessHoldsNone(s.procs, m, RunIn);
    WeightlessHoldsNone(s.procs, r, SendIn);
    assert s.tasks == multiset{} && s.results == multiset{};
  }

  lemma QuietIsEmpty(procs: seq<Proc>, run: seq<Event>)
    requires AllIdle(procs) && Staffed(procs) && Valid(Init(procs), run) && CalmRun(run)
    requires !CanMove(After(Init(procs), run)) && !Exhausted(After(Init(procs), run))
    ensures Measure(After(Init(procs), run)) == 0
  {
    RunKeeps(procs, run);
    RunKeepsStaff(procs, run);
    CalmKillsNone(procs, run);
    NoDeadlock(After(Init(procs), run));
  }

  lemma QuietJobs(procs: seq<Proc>, run: seq<Event>, j: AnalyzeJob)
    requires AllIdle(procs) && Valid(Init(procs), run) && CalmRun(run) && Measure(After(Init(procs), run)) == 0
    ensures var s := After(Init(procs), run);
            s.jobBook.submitted[Good(j)] == s.jobBook.failed[Good(j)] + FinishedJobs(s.past.finished, Good(j))
  {
    HandedOnce(procs, run, j);
    NothingHeld(After(Init(procs), run), Good(j), Poison(0));
  }

  lemma QuietResults(procs: seq<Proc>, run: seq<Event>, r: AnalyzeResult)
    requires AllIdle(procs) && Valid(Init(procs), run) && CalmRun(run) && Measure(After(Init(procs), run)) == 0
    ensures var s := After(Init(procs), run);
            FinishedResults(s.past.finished, Good(r)) == s.resultBook.recorded[Good(r)]
  {
    RecordedOnce(procs, run, r);
    NothingHeld(After(Init(procs), run), Poison(0), Good(r));
  }

  lemma QuietHandler(s: Sys, h: nat)
    requires Measure(s) == 0 && h < |s.handlers|
    ensures s.handlers[h] in {Reading, Answered, Refused}
  {
    SumIsZeroIff(s.handlers, HandlerWeight);
  }

  /** Every submitted copy failed or finished, what finished is recorded one for one, no request is half done. */
  ghost predicate AllDone(s: Sys) {
    && (forall j :: s.jobBook.submitted[Good(j)] == s.jobBook.failed[Good(j)] + FinishedJobs(s.past.finished, Good(j)))
    && (forall r :: FinishedResults(s.past.finished, Good(r)) == s.resultBook.recorded[Good(r)])
    && (forall h :: 0 <= h < |s.handlers| ==> s.handlers[h] in {Reading, Answered, Refused})
  }

  lemma QuietAllDone(procs: seq<Proc>, run: seq<Event>)
    requires AllIdle(procs) && Valid(Init(procs), run) && CalmRun(run) && Measure(After(Init(procs), run)) == 0
    ensures AllDone(After(Init(procs), run))
  {
    forall j {
      QuietJobs(procs, run, j);
    }
    forall r {
      QuietResults(procs, run, r);
    }
    forall h | 0 <= h < |After(Init(procs), run).handlers| {
      QuietHandler(After(Init(procs), run), h);
    }
  }

  /**
   * When nothing can move after a run without redelivery, crashes and failed publications, everything is done, if and
   * only if the pool has not run dry.
   */
  lemma Quiescence(procs: seq<Proc>, run: seq<Event>)
    requires AllIdle(procs) && Staffed(procs) && Valid(Init(procs), run) && CalmRun(run)
    requires !CanMove(After(Init(procs), run))
    ensures AllDone(After(Init(procs), run)) <==> !Exhausted(After(Init(procs), run))
  {
    if Exhausted(After(Init(procs), run)) {
      WaiterWeighs(After(Init(procs), run));
    } else {
      QuietIsEmpty(procs, run);
      QuietAllDone(procs, run);
    }
  }
}
