/**
 * The in-process queue: two channels of capacity ten between any number of submitting handlers, the workers of one
 * process, and the loop that records results. A send waits for room, a receive waits for an element.
 */
module SingleQueue {
  import opened Common
  import opened Sums

  const CAPACITY := 10

  /** After sending a job its handler owes the state two calls: mark the job pending, then list it. */
  datatype Owed = Nothing | Marking | ListingJob

  datatype Submitter = Submitter(todo: seq<AnalyzeJob>, owed: Owed)

  datatype Worker =
    | Idle
    | Received(job: AnalyzeJob)
    | Running(job: AnalyzeJob)
    | Sending(job: AnalyzeJob, result: AnalyzeResult)

  datatype Recorder = Waiting | Got(result: AnalyzeResult) | Stored(result: AnalyzeResult)

  datatype Outcome = Outcome(job: AnalyzeJob, result: AnalyzeResult)

  datatype Shop = Shop(
    submitters: seq<Submitter>,
    jobs: seq<AnalyzeJob>,
    workers: seq<Worker>,
    results: seq<AnalyzeResult>,
    recorder: Recorder,
    submitted: seq<AnalyzeJob>,
    taken: seq<AnalyzeJob>,
    failed: seq<AnalyzeJob>,
    passed: seq<Outcome>,
    recorded: seq<AnalyzeResult>)

  /** A worker count that is not positive means one worker. */
  function WorkerCount(desired: int): (n: nat)
    ensures n >= 1 && (desired > 0 ==> n == desired)
  {
    if desired > 0 then desired else 1
  }

  function Open(requests: seq<seq<AnalyzeJob>>, desired: int): Shop {
    Shop(
      seq(|requests|, i requires 0 <= i < |requests| => Submitter(requests[i], Nothing)),
      [], seq(WorkerCount(desired), i => Idle), [], Waiting, [], [], [], [], [])
  }

  datatype Event =
    | Send(i: nat)
    | Mark(i: nat)
    | ListJob(i: nat)
    | Take(w: nat)
    | Begin(w: nat)
    | Fail(w: nat)
    | Finish(w: nat, result: AnalyzeResult)
    | Pass(w: nat)
    | Receive
    | StoreResult
    | StoreStatus

  predicate Owes(s: Shop, i: nat, owed: Owed) {
    i < |s.submitters| && s.submitters[i].owed == owed
  }

  predicate Enabled(s: Shop, e: Event) {
    match e
    case Send(i) => Owes(s, i, Nothing) && s.submitters[i].todo != [] && |s.jobs| < CAPACITY
    case Mark(i) => Owes(s, i, Marking)
    case ListJob(i) => Owes(s, i, ListingJob)
    case Take(w) => w < |s.workers| && s.workers[w].Idle? && s.jobs != []
    case Begin(w) => w < |s.workers| && s.workers[w].Received?
    case Fail(w) => w < |s.workers| && s.workers[w].Running?
    case Finish(w, r) =>
      w < |s.workers| && s.workers[w].Running? && r.spec == s.workers[w].job.spec && r.status == Succeeded
    case Pass(w) => w < |s.workers| && s.workers[w].Sending? && |s.results| < CAPACITY
    case Receive => s.recorder.Waiting? && s.results != []
    case StoreResult => s.recorder.Got?
    case StoreStatus => s.recorder.Stored?
  }

  function Apply(s: Shop, e: Event): Shop
    requires Enabled(s, e)
  {
    match e
    case Send(i) =>
      var job := s.submitters[i].todo[0];
      s.(submitters := s.submitters[i := Submitter(s.submitters[i].todo[1..], Marking)],
         jobs := s.jobs + [job], submitted := s.submitted + [job])
    case Mark(i) => s.(submitters := s.submitters[i := s.submitters[i].(owed := ListingJob)])
    case ListJob(i) => s.(submitters := s.submitters[i := s.submitters[i].(owed := Nothing)])
    case Take(w) =>
      s.(jobs := s.jobs[1..], workers := s.workers[w := Received(s.jobs[0])], taken := s.taken + [s.jobs[0]])
    case Begin(w) => s.(workers := s.workers[w := Running(s.workers[w].job)])
    case Fail(w) => s.(workers := s.workers[w := Idle], failed := s.failed + [s.workers[w].job])
    case Finish(w, r) => s.(workers := s.workers[w := Sending(s.workers[w].job, r)])
    case Pass(w) =>
      s.(workers := s.workers[w := Idle], results := s.results + [s.workers[w].result],
         passed := s.passed + [Outcome(s.workers[w].job, s.workers[w].result)])
    case Receive => s.(results := s.results[1..], recorder := Got(s.results[0]))
    case StoreResult => s.(recorder := Stored(s.recorder.result))
    case StoreStatus => s.(recorder := Waiting, recorded := s.recorded + [s.recorder.result])
  }

  predicate Valid(s: Shop, run: seq<Event>)
    decreases |run|, 0
  {
    run == [] || (Valid(s, run[..|run| - 1]) && Enabled(After(s, run[..|run| - 1]), run[|run| - 1]))
  }

  function After(s: Shop, run: seq<Event>): Shop
    requires Valid(s, run)
    decreases |run|, 1
  {
    if run == [] then s else Apply(After(s, run[..|run| - 1]), run[|run| - 1])
  }

  // ----- Order and place

  function ResultsOf(passed: seq<Outcome>): seq<AnalyzeResult> {
    if passed == [] then [] else ResultsOf(passed[..|passed| - 1]) + [passed[|passed| - 1].result]
  }

  function InHand(recorder: Recorder): seq<AnalyzeResult> {
    if recorder.Waiting? then [] else [recorder.result]
  }

  /** Neither channel holds more than its capacity, and both hand out in the order they were filled. */
  ghost predicate Orderly(s: Shop) {
    && |s.jobs| <= CAPACITY && |s.results| <= CAPACITY
    && s.submitted == s.taken + s.jobs
    && ResultsOf(s.passed) == s.recorded + InHand(s.recorder) + s.results
    && (forall k :: 0 <= k < |s.passed| ==> s.passed[k].result.spec == s.passed[k].job.spec)
    && (forall w :: 0 <= w < |s.workers| && s.workers[w].Sending? ==> s.workers[w].result.spec == s.workers[w].job.spec)
  }

  lemma StepOrderly(s: Shop, e: Event)
    requires Enabled(s, e) && Orderly(s)
    ensures Orderly(Apply(s, e))
  {
    var s' := Apply(s, e);
    match e
    case Pass(_) => assert s'.passed[..|s.passed|] == s.passed;
    case Take(_) => assert s.jobs == [s.jobs[0]] + s.jobs[1..];
    case Receive => assert s.results == [s.results[0]] + s.results[1..];
    case _ =>
  }

  function Copies<T(==)>(xs: seq<T>, x: T): nat {
    multiset(xs)[x]
  }

  function JobIn(w: Worker, j: AnalyzeJob): nat {
    if !w.Idle? && w.job == j then 1 else 0
  }

  ghost function Unsent(submitters: seq<Submitter>, j: AnalyzeJob): nat {
    Sum(submitters, (s: Submitter) => Copies(s.todo, j))
  }

  ghost function AtWork(workers: seq<Worker>, j: AnalyzeJob): nat {
    Sum(workers, (w: Worker) => JobIn(w, j))
  }

  function Passed(passed: seq<Outcome>, j: AnalyzeJob): nat {
    if passed == [] then 0
    else Passed(passed[..|passed| - 1], j) + (if passed[|passed| - 1].job == j then 1 else 0)
  }

  /** How often a job is requested: each of these copies is in exactly one place. */
  ghost function Placed(s: Shop, j: AnalyzeJob): nat {
    Unsent(s.submitters, j) + Copies(s.jobs, j) + AtWork(s.workers, j) + Copies(s.failed, j) + Passed(s.passed, j)
  }

  lemma SubmitterMoves(s: Shop, i: nat, next: Submitter, j: AnalyzeJob)
    requires i < |s.submitters|
    ensures Unsent(s.submitters[i := next], j) + Copies(s.submitters[i].todo, j)
         == Unsent(s.submitters, j) + Copies(next.todo, j)
  {
    SumSet(s.submitters, i, next, (s: Submitter) => Copies(s.todo, j));
  }

  lemma WorkerMoves(s: Shop, w: nat, next: Worker, j: AnalyzeJob)
    requires w < |s.workers|
    ensures AtWork(s.workers[w := next], j) + JobIn(s.workers[w], j) == AtWork(s.workers, j) + JobIn(next, j)
  {
    SumSet(s.workers, w, next, (w: Worker) => JobIn(w, j));
  }

  lemma SubmitConserves(s: Shop, e: Event, j: AnalyzeJob)
    requires e.Send? || e.Mark? || e.ListJob?
    requires Enabled(s, e)
    ensures Placed(Apply(s, e), j) == Placed(s, j)
  {
    var todo := s.submitters[e.i].todo;
    SubmitterMoves(s, e.i, Apply(s, e).submitters[e.i], j);
    if e.Send? {
      assert todo == [todo[0]] + todo[1..];
    }
  }

  lemma WorkConserves(s: Shop, e: Event, j: AnalyzeJob)
    requires e.Take? || e.Begin? || e.Fail? || e.Finish? || e.Pass?
    requires Enabled(s, e)
    ensures Placed(Apply(s, e), j) == Placed(s, j)
  {
    var s' := Apply(s, e);
    WorkerMoves(s, e.w, s'.workers[e.w], j);
    if e.Take? {
      assert s.jobs == [s.jobs[0]] + s.jobs[1..];
    }
    if e.Pass? {
      assert s'.passed[..|s.passed|] == s.passed;
    }
  }

  /** No step loses or repeats a job. */
  lemma StepConserves(s: Shop, e: Event, j: AnalyzeJob)
    requires Enabled(s, e)
    ensures Placed(Apply(s, e), j) == Placed(s, j)
  {
    match e
    case Send(_) => SubmitConserves(s, e, j);
    case Mark(_) => SubmitConserves(s, e, j);
    case ListJob(_) => SubmitConserves(s, e, j);
    case Receive =>
    case StoreResult =>
    case StoreStatus =>
    case _ => WorkConserves(s, e, j);
  }

  // ----- Work left

  function SubmitterWeight(s: Submitter): nat {
    10 * |s.todo| + match s.owed case Nothing => 0 case Marking => 2 case ListingJob => 1
  }

  function WorkerWeight(w: Worker): nat {
    match w
    case Idle => 0
    case Received(_) => 6
    case Running(_) => 5
    case Sending(_, _) => 4
  }

  function RecorderWeight(r: Recorder): nat {
    match r
    case Waiting => 0
    case Got(_) => 2
    case Stored(_) => 1
  }

  /** The number of steps the jobs not yet done with can still take. */
  ghost function Left(s: Shop): nat {
    Sum(s.submitters, SubmitterWeight) + 7 * |s.jobs| + Sum(s.workers, WorkerWeight) + 3 * |s.results|
    + RecorderWeight(s.recorder)
  }

  /** Every step of the shop is progress. */
  lemma StepDescends(s: Shop, e: Event)
    requires Enabled(s, e)
    ensures Left(Apply(s, e)) < Left(s)
  {
    match e
    case Send(i) => SumSet(s.submitters, i, Apply(s, e).submitters[i], SubmitterWeight);
    case Mark(i) => SumSet(s.submitters, i, Apply(s, e).submitters[i], SubmitterWeight);
    case ListJob(i) => SumSet(s.submitters, i, Apply(s, e).submitters[i], SubmitterWeight);
    case Receive =>
    case StoreResult =>
    case StoreStatus =>
    case _ => SumSet(s.workers, e.w, Apply(s, e).workers[e.w], WorkerWeight);
  }

  ghost predicate CanMove(s: Shop) {
    exists e :: Enabled(s, e)
  }

  lemma WorkerCanMove(s: Shop, w: nat)
    requires |s.results| < CAPACITY && w < |s.workers| && !s.workers[w].Idle?
    ensures CanMove(s)
  {
    assert Enabled(s, match s.workers[w]
                      case Received(_) => Begin(w)
                      case Running(_) => Fail(w)
                      case _ => Pass(w));
  }

  lemma RecorderCanMove(s: Shop)
    requires s.results != [] || !s.recorder.Waiting?
    ensures CanMove(s)
  {
    assert Enabled(s, match s.recorder
                      case Waiting => Receive
                      case Got(_) => StoreResult
                      case Stored(_) => StoreStatus);
  }

  lemma SubmitterCanMove(s: Shop, i: nat)
    requires s.jobs == [] && i < |s.submitters| && SubmitterWeight(s.submitters[i]) > 0
    ensures CanMove(s)
  {
    assert Enabled(s, match s.submitters[i].owed
                      case Nothing => Send(i)
                      case Marking => Mark(i)
                      case ListingJob => ListJob(i));
  }

  /** With at least one worker, some step is enabled while anything is unsubmitted, queued, running or unrecorded. */
  lemma NoDeadlock(s: Shop)
    requires s.workers != []
    ensures Left(s) > 0 ==> CanMove(s)
  {
    SumIsZeroIff(s.submitters, SubmitterWeight);
    SumIsZeroIff(s.workers, WorkerWeight);
    if Left(s) > 0 {
      if s.results != [] || !s.recorder.Waiting? {
        RecorderCanMove(s);
      } else if w :| 0 <= w < |s.workers| && !s.workers[w].Idle? {
        WorkerCanMove(s, w);
      } else if s.jobs != [] {
        assert Enabled(s, Take(0));
      } else {
        var i :| 0 <= i < |s.submitters| && SubmitterWeight(s.submitters[i]) > 0;
        SubmitterCanMove(s, i);
      }
    }
  }

  // ----- Whole runs

  ghost function Requested(requests: seq<seq<AnalyzeJob>>, j: AnalyzeJob): nat {
    Sum(requests, (r: seq<AnalyzeJob>) => Copies(r, j))
  }

  lemma {:induction false} OpenUnsent(requests: seq<seq<AnalyzeJob>>, desired: int, j: AnalyzeJob)
    ensures Unsent(Open(requests, desired).submitters, j) == Requested(requests, j)
  {
    if requests != [] {
      var n := |requests| - 1;
      OpenUnsent(requests[..n], desired, j);
      assert Open(requests, desired).submitters[..n] == Open(requests[..n], desired).submitters;
    }
  }

  lemma OpenIsIdle(requests: seq<seq<AnalyzeJob>>, desired: int, j: AnalyzeJob)
    ensures AtWork(Open(requests, desired).workers, j) == 0
  {
    SumIsZeroIff(Open(requests, desired).workers, (w: Worker) => JobIn(w, j));
  }

  lemma {:induction false} RunKeeps(requests: seq<seq<AnalyzeJob>>, desired: int, run: seq<Event>, j: AnalyzeJob)
    requires Valid(Open(requests, desired), run)
    ensures var s := After(Open(requests, desired), run);
            Orderly(s) && Placed(s, j) == Requested(requests, j) && s.workers != []
    ensures |run| + Left(After(Open(requests, desired), run)) <= Left(Open(requests, desired))
  {
    if run == [] {
      OpenUnsent(requests, desired, j);
      OpenIsIdle(requests, desired, j);
    } else {
      var n := |run| - 1;
      RunKeeps(requests, desired, run[..n], j);
      var s := After(Open(requests, desired), run[..n]);
      StepOrderly(s, run[n]);
      StepConserves(s, run[n], j);
      StepDescends(s, run[n]);
    }
  }

  lemma NothingLeft(s: Shop, j: AnalyzeJob)
    requires Left(s) == 0
    ensures s.jobs == [] && s.results == [] && s.recorder == Waiting
    ensures Unsent(s.submitters, j) == 0 && AtWork(s.workers, j) == 0
  {
    SumIsZeroIff(s.submitters, SubmitterWeight);
    SumIsZeroIff(s.workers, WorkerWeight);
    SumIsZeroIff(s.submitters, (s: Submitter) => Copies(s.todo, j));
    SumIsZeroIff(s.workers, (w: Worker) => JobIn(w, j));
  }

  /**
   * Whatever the interleaving, no run is longer than the work it opens with; one that cannot go on has sent every
   * requested job, each of them failed or passed on exactly once, and recorded the passed results in order.
   */
  lemma RunsEndDone(requests: seq<seq<AnalyzeJob>>, desired: int, run: seq<Event>, j: AnalyzeJob)
    requires Valid(Open(requests, desired), run)
    ensures |run| <= Left(Open(requests, desired))
    ensures var s := After(Open(requests, desired), run);
            |s.jobs| <= CAPACITY && |s.results| <= CAPACITY
    ensures var s := After(Open(requests, desired), run);
            !CanMove(s) ==>
              && Requested(requests, j) == Copies(s.failed, j) + Passed(s.passed, j)
              && s.taken == s.submitted
              && s.recorded == ResultsOf(s.passed)
  {
    var s := After(Open(requests, desired), run);
    RunKeeps(requests, desired, run, j);
    NoDeadlock(s);
    if !CanMove(s) {
      NothingLeft(s, j);
    }
  }
}
