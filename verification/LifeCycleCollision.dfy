/** Two jobs of one session whose repositories print alike share one result: a run in which one gets the other's. */
module LifeCycleCollision {
  import opened Common
  import opened PGState
  import opened ArtifactStore
  import opened LifeCycle
  import opened Sums
  import T = LifeCycleTheorems

  const CREW := [Proc(0, Consumer, Idle), Proc(0, Worker, Idle), Proc(0, Publisher, Idle)]

  const START := Init(CREW)

  // ----- The request: session n asks for both repositories, the sessions before it are just open

  ghost predicate HandlersAt(s: Sys, n: nat, repos: seq<NameWithOwner>, at: nat, mark: Mark) {
    && n >= 1 && |s.handlers| == n
    && (forall h :: 0 <= h < n - 1 ==> s.handlers[h].Reading?)
    && s.handlers[n - 1].Submitting? && s.handlers[n - 1].repos == repos
    && s.handlers[n - 1].at == at && s.handlers[n - 1].mark == mark
  }

  lemma {:induction false} AllReading(handlers: seq<Handler>)
    requires forall h :: 0 <= h < |handlers| ==> handlers[h].Reading?
    ensures Sum(handlers, Connections) == 0
  {
    SumIsZeroIff(handlers, Connections);
  }

  lemma PoolFree(s: Sys, n: nat, repos: seq<NameWithOwner>, at: nat, mark: Mark)
    requires HandlersAt(s, n, repos, at, mark)
    ensures Free(s)
  {
    AllReading(s.handlers[..n - 1]);
  }

  /** Nothing is under way outside the request. */
  predicate Quiet(s: Sys) {
    s.procs == CREW && s.inbox == Polling && s.recorder == Waiting
  }

  lemma {:induction false} OpenSessions(n: nat) returns (run: seq<Event>, s: Sys)
    ensures Reaches(START, run, s) && Quiet(s) && s.outbox == None
    ensures |s.handlers| == n && forall h :: 0 <= h < n ==> s.handlers[h].Reading?
  {
    if n == 0 {
      run, s := [], START;
    } else {
      run, s := OpenSessions(n - 1);
      AllReading(s.handlers);
      run, s := Then(START, run, s, OfServer(NewRequest));
    }
  }

  lemma Request(n: nat, repos: seq<NameWithOwner>) returns (run: seq<Event>, s: Sys)
    requires n >= 1
    ensures Reaches(START, run, s) && Quiet(s) && s.outbox == None && HandlersAt(s, n, repos, 0, ToSend)
  {
    run, s := OpenSessions(n);
    run, s := Then(START, run, s, OfServer(ReadRequest(n - 1, "", [], repos)));
  }

  lemma Send(run: seq<Event>, s: Sys, n: nat, repos: seq<NameWithOwner>, at: nat)
    returns (run': seq<Event>, s': Sys)
    requires Reaches(START, run, s) && HandlersAt(s, n, repos, at, ToSend) && s.outbox == None && at < |repos|
    ensures Reaches(START, run', s') && HandlersAt(s', n, repos, at, ToMark)
    ensures s'.outbox.Some? && s'.outbox.value.spec == JobSpec(n, repos[at])
    ensures s' == s.(handlers := s'.handlers, outbox := s'.outbox, past := s'.past, jobBook := s'.jobBook)
    ensures s'.past.saves == s.past.saves
  {
    run', s' := Then(START, run, s, OfServer(SendJob(n - 1)));
  }

  lemma MarkAndBegin(run: seq<Event>, s: Sys, n: nat, repos: seq<NameWithOwner>, at: nat)
    returns (run': seq<Event>, s': Sys)
    requires Reaches(START, run, s) && HandlersAt(s, n, repos, at, ToMark) && at < |repos|
    ensures Reaches(START, run', s') && HandlersAt(s', n, repos, at, ToNumber)
    ensures s' == s.(handlers := s'.handlers, db := s'.db)
  {
    PoolFree(s, n, repos, at, ToMark);
    run', s' := Then(START, run, s, OfServer(MarkPending(n - 1)));
    PoolFree(s', n, repos, at, ToBegin);
    run', s' := Then(START, run', s', OfServer(OpenJob(n - 1)));
  }

  lemma List(run: seq<Event>, s: Sys, n: nat, repos: seq<NameWithOwner>, at: nat)
    returns (run': seq<Event>, s': Sys)
    requires Reaches(START, run, s) && HandlersAt(s, n, repos, at, ToNumber) && at < |repos|
    ensures Reaches(START, run', s') && HandlersAt(s', n, repos, at + 1, ToSend)
    ensures s' == s.(handlers := s'.handlers, db := s'.db)
  {
    PoolFree(s, n, repos, at, ToNumber);
    run', s' := Then(START, run, s, OfServer(NumberJob(n - 1)));
    run', s' := Then(START, run', s', OfServer(ListJob(n - 1)));
  }

  // ----- The agent and the way back; the handlers stand still

  /** The worker holds a job for this spec, the others are idle. */
  predicate WorkerHas(s: Sys, js: JobSpec) {
    && s.inbox == Polling && s.recorder == Waiting && s.outbox == None
    && |s.procs| == 3 && s.procs == CREW[1 := Proc(0, Worker, s.procs[1].phase)]
    && s.procs[1].phase.Received? && s.procs[1].phase.job.spec == js
  }

  predicate IsSuccess(r: AnalyzeResult, js: JobSpec) {
    r.spec == js && r.status == Succeeded
  }

  predicate WorkerSends(s: Sys, js: JobSpec) {
    && s.inbox == Polling && s.recorder == Waiting && s.outbox == None
    && |s.procs| == 3 && s.procs == CREW[1 := Proc(0, Worker, s.procs[1].phase)]
    && s.procs[1].phase.Sending? && IsSuccess(s.procs[1].phase.result, js)
  }

  lemma Take(run: seq<Event>, s: Sys, js: JobSpec) returns (run': seq<Event>, s': Sys)
    requires Reaches(START, run, s) && Quiet(s) && s.outbox.Some? && s.outbox.value.spec == js
    ensures Reaches(START, run', s') && s'.outbox == None && s'.inbox == Polling && s'.recorder == Waiting
    ensures |s'.procs| == 3 && s'.procs == CREW[0 := Proc(0, Consumer, s'.procs[0].phase)]
    ensures s'.procs[0].phase.Offering? && s'.procs[0].phase.job.spec == js
    ensures Good(s'.procs[0].phase.job) in s'.tasksUnacked
    ensures s'.handlers == s.handlers && s'.db == s.db && s'.store == s.store && s'.past.saves == s.past.saves
  {
    var m := Good(s.outbox.value);
    run', s' := Then(START, run, s, OfServer(PublishJob));
    run', s' := Then(START, run', s', OfAgent(PollJob(0, m)));
  }

  lemma HandOver(run: seq<Event>, s: Sys, js: JobSpec) returns (run': seq<Event>, s': Sys)
    requires Reaches(START, run, s) && s.outbox == None && s.inbox == Polling && s.recorder == Waiting
    requires |s.procs| == 3 && s.procs == CREW[0 := Proc(0, Consumer, s.procs[0].phase)]
    requires s.procs[0].phase.Offering? && s.procs[0].phase.job.spec == js
    requires Good(s.procs[0].phase.job) in s.tasksUnacked
    ensures Reaches(START, run', s') && WorkerHas(s', js)
    ensures s'.handlers == s.handlers && s'.db == s.db && s'.store == s.store && s'.past.saves == s.past.saves
  {
    run', s' := Then(START, run, s, OfAgent(HandJob(0, 1)));
    run', s' := Then(START, run', s', OfAgent(AckJob(0)));
  }

  lemma Deliver(run: seq<Event>, s: Sys, js: JobSpec) returns (run': seq<Event>, s': Sys)
    requires Reaches(START, run, s) && Quiet(s) && s.outbox.Some? && s.outbox.value.spec == js
    ensures Reaches(START, run', s') && WorkerHas(s', js)
    ensures s'.handlers == s.handlers && s'.db == s.db && s'.store == s.store && s'.past.saves == s.past.saves
  {
    var taken, s1 := Take(run, s, js);
    run', s' := HandOver(taken, s1, js);
  }

  lemma Analyse(run: seq<Event>, s: Sys, js: JobSpec, data: Bytes) returns (run': seq<Event>, s': Sys)
    requires Reaches(START, run, s) && WorkerHas(s, js)
    ensures Reaches(START, run', s') && WorkerSends(s', js)
    ensures s'.handlers == s.handlers && s'.db == StoreStatus(s.db, js, InProgress)
    ensures s'.store == ObjectSave(s.store, SaveOp.SaveResult(js, data))
    ensures s'.past.saves == s.past.saves + [SaveOp.SaveResult(js, data)]
  {
    run', s' := Then(START, run, s, OfAgent(Begin(1)));
    run', s' := Then(START, run', s', OfAgent(Save(1, data, 0, "", "")));
  }

  /** The result has reached the server's inbox, the agent is idle again. */
  predicate Arrived(s: Sys, js: JobSpec) {
    && s.procs == CREW && s.outbox == None && s.recorder == Waiting
    && s.inbox.InOffering? && IsSuccess(s.inbox.result, js) && Good(s.inbox.result) in s.resultsUnacked
  }

  lemma PassOn(run: seq<Event>, s: Sys, js: JobSpec) returns (run': seq<Event>, s': Sys)
    requires Reaches(START, run, s) && WorkerSends(s, js)
    ensures Reaches(START, run', s') && s'.procs == CREW && s'.outbox == None
    ensures s'.inbox == Polling && s'.recorder == Waiting
    ensures exists r :: Good(r) in s'.results && IsSuccess(r, js)
    ensures s'.handlers == s.handlers && s'.db == s.db && s'.store == s.store && s'.past.saves == s.past.saves
  {
    var r := s.procs[1].phase.result;
    run', s' := Then(START, run, s, OfAgent(SendResult(1, 2)));
    run', s' := Then(START, run', s', OfAgent(PublishResult(2)));
    assert Good(r) in s'.results;
  }

  lemma Arrive(run: seq<Event>, s: Sys, js: JobSpec, r: AnalyzeResult) returns (run': seq<Event>, s': Sys)
    requires Reaches(START, run, s) && s.procs == CREW
    requires s.outbox == None && s.inbox == Polling && s.recorder == Waiting
    requires Good(r) in s.results && IsSuccess(r, js)
    ensures Reaches(START, run', s') && Arrived(s', js)
    ensures s'.handlers == s.handlers && s'.db == s.db && s'.store == s.store && s'.past.saves == s.past.saves
  {
    run', s' := Then(START, run, s, OfServer(PollResult(Good(r))));
  }

  lemma Accept(run: seq<Event>, s: Sys, js: JobSpec) returns (run': seq<Event>, s': Sys)
    requires Reaches(START, run, s) && Arrived(s, js)
    ensures Reaches(START, run', s') && s'.procs == CREW && s'.outbox == None && s'.inbox == Polling
    ensures s'.recorder.Got? && IsSuccess(s'.recorder.result, js)
    ensures s'.handlers == s.handlers && s'.db == s.db && s'.store == s.store && s'.past.saves == s.past.saves
  {
    run', s' := Then(START, run, s, OfServer(HandResult));
    run', s' := Then(START, run', s', OfServer(AckResult));
  }

  lemma Record(run: seq<Event>, s: Sys, js: JobSpec, n: nat, repos: seq<NameWithOwner>, at: nat, mark: Mark)
    returns (run': seq<Event>, s': Sys)
    requires Reaches(START, run, s) && s.procs == CREW && s.outbox == None && s.inbox == Polling
    requires s.recorder.Got? && IsSuccess(s.recorder.result, js) && HandlersAt(s, n, repos, at, mark)
    ensures Reaches(START, run', s') && Quiet(s') && s'.outbox == None && s'.handlers == s.handlers
    ensures js in s'.db.status && s'.db.status[js] == Succeeded
    ensures s'.store == s.store && s'.past.saves == s.past.saves
  {
    PoolFree(s, n, repos, at, mark);
    run', s' := Then(START, run, s, OfServer(RecordResult));
    PoolFree(s', n, repos, at, mark);
    run', s' := Then(START, run', s', OfServer(RecordStatus));
  }

  lemma Return(run: seq<Event>, s: Sys, js: JobSpec, n: nat, repos: seq<NameWithOwner>, at: nat, mark: Mark)
    returns (run': seq<Event>, s': Sys)
    requires Reaches(START, run, s) && WorkerSends(s, js) && HandlersAt(s, n, repos, at, mark)
    ensures Reaches(START, run', s') && Quiet(s') && s'.outbox == None && HandlersAt(s', n, repos, at, mark)
    ensures js in s'.db.status && s'.db.status[js] == Succeeded
    ensures s'.store == s.store && s'.past.saves == s.past.saves
  {
    var run1, s1 := PassOn(run, s, js);
    var r :| Good(r) in s1.results && IsSuccess(r, js);
    var run2, s2 := Arrive(run1, s1, js, r);
    var run3, s3 := Accept(run2, s2, js);
    run', s' := Record(run3, s3, js, n, repos, at, mark);
  }

  // ----- Both jobs, one after the other

  const FIRST: Bytes := [0]
  const SECOND: Bytes := [1]

  lemma SavedNow(saves: seq<SaveOp>, save: SaveOp, js: JobSpec)
    requires save.SaveResult?
    ensures LastSavedFor(saves + [save], js) == if save.js == js then Some(save.data) else LastSavedFor(saves, js)
  {
    assert (saves + [save])[..|saves|] == saves;
  }

  /** The first job is sent, delivered, listed, analysed and recorded; the handler stands at the second. */
  lemma FirstDone(a: JobSpec, b: JobSpec) returns (run: seq<Event>, s: Sys)
    requires a.sessionId == b.sessionId >= 1
    ensures Reaches(START, run, s) && Quiet(s) && s.outbox == None
    ensures HandlersAt(s, a.sessionId, [a.nwo, b.nwo], 1, ToSend)
    ensures a in s.db.status && s.db.status[a] == Succeeded
    ensures LastSavedFor(s.past.saves, a) == Some(FIRST)
  {
    var n, repos := a.sessionId, [a.nwo, b.nwo];
    run, s := Request(n, repos);
    run, s := Send(run, s, n, repos, 0);
    run, s := Deliver(run, s, a);
    run, s := MarkAndBegin(run, s, n, repos, 0);
    run, s := List(run, s, n, repos, 0);
    SavedNow(s.past.saves, SaveOp.SaveResult(a, FIRST), a);
    run, s := Analyse(run, s, a, FIRST);
    run, s := Return(run, s, a, n, repos, 1, ToSend);
  }

  /** The first job's result location holds the second job's data. */
  ghost predicate HoldsOthers(s: Sys, a: JobSpec, b: JobSpec) {
    && a in s.db.status && s.db.status[a] == Succeeded
    && ResultLocation(a) in s.store && LastSavedFor(s.past.saves, b) == Some(s.store[ResultLocation(a)])
    && LastSavedFor(s.past.saves, a) != Some(s.store[ResultLocation(a)])
  }

  /** For any two different jobs of one session that print alike there is a run in which one gets the other's data. */
  lemma OthersData(a: JobSpec, b: JobSpec) returns (run: seq<Event>, s: Sys)
    requires a.sessionId >= 1 && a != b && T.PrintsAlike(a, b)
    ensures Reaches(START, run, s) && HoldsOthers(s, a, b)
  {
    var n, repos := a.sessionId, [a.nwo, b.nwo];
    run, s := FirstDone(a, b);
    run, s := Send(run, s, n, repos, 1);
    run, s := Deliver(run, s, b);
    SavedNow(s.past.saves, SaveOp.SaveResult(b, SECOND), a);
    SavedNow(s.past.saves, SaveOp.SaveResult(b, SECOND), b);
    run, s := Analyse(run, s, b, SECOND);
    ResultKeyEqualIff(a, b);
  }
}
