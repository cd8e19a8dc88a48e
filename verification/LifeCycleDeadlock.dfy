/** A deadlock can be reached exactly when as many handlers as there are connections may be adding jobs at once. */
module LifeCycleDeadlock {
  import opened Common
  import opened LifeCycle
  import opened LifeCyclePool
  import opened LifeCycleProgress
  import opened LifeCycleStaff
  import opened Sums

  /** There is work left, and no job step to go on with. */
  ghost predicate Deadlocked(s: Sys) {
    Measure(s) > 0 && !CanMove(s)
  }

  /** At no point of the run are more than k handlers inside a transaction that adds a job. */
  ghost predicate AtMost(procs: seq<Proc>, run: seq<Event>, k: nat)
    requires Valid(Init(procs), run)
  {
    forall i :: 0 <= i <= |run| ==> Valid(Init(procs), run[..i]) && InUse(After(Init(procs), run[..i])) <= k
  }

  ghost predicate DeadlocksWithin(procs: seq<Proc>, run: seq<Event>, k: nat) {
    && Valid(Init(procs), run)
    && AtMost(procs, run, k)
    && NoneDead(After(Init(procs), run).procs)
    && Deadlocked(After(Init(procs), run))
  }

  // ----- Driving a state until nothing moves

  ghost predicate Stops(s: Sys, run: seq<Event>) {
    Valid(s, run) && JobRun(run) && !CanMove(After(s, run))
  }

  ghost predicate StopsSanely(s: Sys, run: seq<Event>) {
    Stops(s, run) && Sane(After(s, run))
  }

  lemma ThenStops(s: Sys, e: Event, run: seq<Event>)
    requires Possible(s, e) && StopsSanely(Apply(s, e), run)
    ensures StopsSanely(s, [e] + run)
  {
    Prepend(s, e, run);
  }

  lemma {:induction false} StopExists(s: Sys) returns (run: seq<Event>)
    requires Sane(s)
    ensures StopsSanely(s, run)
    decreases Measure(s)
  {
    if CanMove(s) {
      var e :| Possible(s, e);
      JobStepSane(s, e);
      var rest := StopExists(Apply(s, e));
      ThenStops(s, e, rest);
      run := [e] + rest;
    } else {
      run := [];
    }
  }

  // ----- Filling the pool with waiting handlers

  predicate WaitsAt(hd: Handler) {
    hd.Submitting? && hd.mark == ToNumber
  }

  /** The first n handlers wait for a second connection; only one more may stand after them. */
  ghost predicate Line(s: Sys, procs: seq<Proc>, n: nat) {
    && n <= |s.handlers| <= n + 1
    && (forall h :: 0 <= h < n ==> WaitsAt(s.handlers[h]))
    && s.procs == procs
  }

  predicate LastAt(s: Sys, n: nat, mark: Mark) {
    && |s.handlers| == n + 1 && s.handlers[n].Submitting?
    && |s.handlers[n].repos| == 1 && s.handlers[n].at == 0 && s.handlers[n].mark == mark
  }

  lemma {:induction false} AllWait(handlers: seq<Handler>)
    requires forall h :: 0 <= h < |handlers| ==> WaitsAt(handlers[h])
    ensures Sum(handlers, Connections) == |handlers| && Sum(handlers, Blocked) == |handlers|
  {
    if handlers != [] {
      AllWait(handlers[..|handlers| - 1]);
    }
  }

  lemma LineInUse(s: Sys, procs: seq<Proc>, n: nat)
    requires Line(s, procs, n) && (|s.handlers| == n + 1 ==> Connections(s.handlers[n]) == 0)
    ensures InUse(s) == n && (n < MAX_CONNS ==> Free(s))
    ensures |s.handlers| == n ==> Waiters(s) == n
  {
    AllWait(s.handlers[..n]);
    if |s.handlers| == n {
      assert s.handlers[..n] == s.handlers;
    }
  }

  lemma OpenOne(s: Sys, procs: seq<Proc>, n: nat, run: seq<Event>, s0: Sys, nwo: NameWithOwner)
    returns (run': seq<Event>, s': Sys)
    requires Reaches(s, run, s0) && Line(s0, procs, n) && |s0.handlers| == n < MAX_CONNS
    ensures Reaches(s, run', s') && Line(s', procs, n) && LastAt(s', n, ToSend) && s'.outbox == s0.outbox
  {
    LineInUse(s0, procs, n);
    run', s' := Then(s, run, s0, OfServer(NewRequest));
    run', s' := Then(s, run', s', OfServer(ReadRequest(n, "", [], [nwo])));
  }

  lemma SendOne(s: Sys, procs: seq<Proc>, n: nat, run: seq<Event>, s0: Sys) returns (run': seq<Event>, s': Sys)
    requires Reaches(s, run, s0) && Line(s0, procs, n) && LastAt(s0, n, ToSend) && s0.outbox == None
    ensures Reaches(s, run', s') && Line(s', procs, n) && LastAt(s', n, ToMark) && s'.outbox == None
  {
    run', s' := Then(s, run, s0, OfServer(SendJob(n)));
    run', s' := Then(s, run', s', OfServer(PublishJob));
  }

  lemma MarkOne(s: Sys, procs: seq<Proc>, n: nat, run: seq<Event>, s0: Sys) returns (run': seq<Event>, s': Sys)
    requires Reaches(s, run, s0) && Line(s0, procs, n) && LastAt(s0, n, ToMark) && s0.outbox == None && n < MAX_CONNS
    ensures Reaches(s, run', s') && Line(s', procs, n) && LastAt(s', n, ToBegin) && s'.outbox == None
  {
    LineInUse(s0, procs, n);
    run', s' := Then(s, run, s0, OfServer(MarkPending(n)));
  }

  lemma BeginOne(s: Sys, procs: seq<Proc>, n: nat, run: seq<Event>, s0: Sys) returns (run': seq<Event>, s': Sys)
    requires Reaches(s, run, s0) && Line(s0, procs, n) && LastAt(s0, n, ToBegin) && s0.outbox == None && n < MAX_CONNS
    ensures Reaches(s, run', s') && Line(s', procs, n + 1) && |s'.handlers| == n + 1 && s'.outbox == None
  {
    LineInUse(s0, procs, n);
    run', s' := Then(s, run, s0, OfServer(OpenJob(n)));
  }

  /** n requests for one repository each, all stopped between the insert and the number of the repository. */
  lemma {:induction false} WaitersExist(procs: seq<Proc>, n: nat) returns (run: seq<Event>, s: Sys)
    requires n <= MAX_CONNS
    ensures Reaches(Init(procs), run, s) && Line(s, procs, n) && |s.handlers| == n && s.outbox == None
  {
    if n == 0 {
      run, s := [], Init(procs);
    } else {
      run, s := WaitersExist(procs, n - 1);
      run, s := OpenOne(Init(procs), procs, n - 1, run, s, NameWithOwner("", ""));
      run, s := SendOne(Init(procs), procs, n - 1, run, s);
      run, s := MarkOne(Init(procs), procs, n - 1, run, s);
      run, s := BeginOne(Init(procs), procs, n - 1, run, s);
    }
  }

  lemma AlwaysAtMost(procs: seq<Proc>, run: seq<Event>)
    requires Valid(Init(procs), run)
    ensures AtMost(procs, run, MAX_CONNS)
  {
    forall i | 0 <= i <= |run|
      ensures Valid(Init(procs), run[..i]) && InUse(After(Init(procs), run[..i])) <= MAX_CONNS
    {
      PrefixValid(Init(procs), run, i);
      RunPool(procs, run[..i]);
    }
  }

  /** As many single-repository requests as there are connections are enough to stop the whole server. */
  lemma DeadlockExists(procs: seq<Proc>) returns (run: seq<Event>)
    requires AllIdle(procs) && Staffed(procs)
    ensures DeadlocksWithin(procs, run, MAX_CONNS)
  {
    var full, s := WaitersExist(procs, MAX_CONNS);
    LineInUse(s, procs, MAX_CONNS);
    ReachedIsSane(procs, full);
    var rest := StopExists(s);
    Append(Init(procs), full, s, rest);
    run := full + rest;
    ExhaustedNeverFinishes(s, rest);
    AlwaysAtMost(procs, run);
  }

  lemma DeadlockNeedsAll(procs: seq<Proc>, run: seq<Event>, k: nat)
    requires AllIdle(procs) && Staffed(procs) && DeadlocksWithin(procs, run, k)
    ensures k >= MAX_CONNS && Exhausted(After(Init(procs), run))
  {
    var s := After(Init(procs), run);
    ReachedIsSane(procs, run);
    if !Exhausted(s) {
      NoDeadlock(s);
    }
    WaitersHold(s);
    assert run[..|run|] == run;
  }

  /** With staffed agents, a deadlock is reachable with at most k handlers adding a job at once iff k fills the pool. */
  lemma DeadlockReachableIff(procs: seq<Proc>, k: nat)
    requires AllIdle(procs) && Staffed(procs)
    ensures (exists run :: DeadlocksWithin(procs, run, k)) <==> k >= MAX_CONNS
  {
    if run :| DeadlocksWithin(procs, run, k) {
      DeadlockNeedsAll(procs, run, k);
    }
    if k >= MAX_CONNS {
      var run := DeadlockExists(procs);
      assert DeadlocksWithin(procs, run, k);
    }
  }
}
