/** The in-memory server state: what each operation does to its maps, and what a history of them keeps. */
module LocalState {
  import opened Common
  import SessionSummary

  datatype LocalData = LocalData(
    jobs: map<int, seq<AnalyzeJob>>,
    info: map<JobSpec, JobInfo>,
    status: map<JobSpec, Status>,
    result: map<JobSpec, AnalyzeResult>,
    index: map<int, map<int, JobSpec>>,
    currentId: int)

  function JobsOf(d: LocalData, session: int): seq<AnalyzeJob> {
    if session in d.jobs then d.jobs[session] else []
  }

  function IndexOf(d: LocalData, session: int): map<int, JobSpec> {
    if session in d.index then d.index[session] else map[]
  }

  function Init(startingId: int): LocalData {
    LocalData(map[startingId := []], map[], map[], map[], map[startingId := map[]], startingId)
  }

  function NextId(d: LocalData): LocalData {
    d.(currentId := d.currentId + 1, jobs := d.jobs[d.currentId + 1 := []])
  }

  function AddJob(d: LocalData, job: AnalyzeJob): LocalData {
    var session := job.spec.sessionId;
    var index := IndexOf(d, session);
    d.(jobs := d.jobs[session := JobsOf(d, session) + [job]],
       index := d.index[session := index[|index| := job.spec]])
  }

  /** Whether AddJob ends in its "unequal length" panic. */
  predicate AddJobPanics(d: LocalData, job: AnalyzeJob) {
    var d' := AddJob(d, job);
    |JobsOf(d', job.spec.sessionId)| != |IndexOf(d', job.spec.sessionId)|
  }

  /** The index of a session has keys 0..n-1 and names, at each position, the job listed there. */
  ghost predicate AlignedAt(d: LocalData, session: int) {
    var jobs, index := JobsOf(d, session), IndexOf(d, session);
    && |index| == |jobs|
    && (forall i :: i in index <==> 0 <= i < |jobs|)
    && (forall i :: 0 <= i < |jobs| ==> index[i] == jobs[i].spec)
  }

  ghost predicate Aligned(d: LocalData) {
    forall session :: AlignedAt(d, session)
  }

  /** Only sessions up to the last issued id have been touched. */
  ghost predicate Issued(d: LocalData) {
    && (forall session :: session in d.jobs ==> session <= d.currentId)
    && (forall session :: session in d.index ==> session <= d.currentId)
  }

  datatype Op =
    | OpNextId
    | OpAddJob(job: AnalyzeJob)
    | OpSetStatus(js: JobSpec, status: Status)
    | OpSetResult(js: JobSpec, result: AnalyzeResult)
    | OpSetJobInfo(js: JobSpec, info: JobInfo)

  function ApplyLocal(d: LocalData, op: Op): LocalData {
    match op
    case OpNextId => NextId(d)
    case OpAddJob(job) => AddJob(d, job)
    case OpSetStatus(js, st) => d.(status := d.status[js := st])
    case OpSetResult(js, r) => d.(result := d.result[js := r])
    case OpSetJobInfo(js, ji) => d.(info := d.info[js := ji])
  }

  function RunLocal(d: LocalData, ops: seq<Op>): LocalData {
    if ops == [] then d else ApplyLocal(RunLocal(d, ops[..|ops| - 1]), ops[|ops| - 1])
  }

  /** Jobs are added only to sessions whose id has been issued by then. */
  ghost predicate WellIssued(d: LocalData, ops: seq<Op>) {
    forall i :: 0 <= i < |ops| && ops[i].OpAddJob? ==>
      ops[i].job.spec.sessionId <= RunLocal(d, ops[..i]).currentId
  }

  lemma AddKeeps(d: LocalData, job: AnalyzeJob, session: int)
    requires Aligned(d)
    ensures AlignedAt(AddJob(d, job), session) && JobsOf(d, session) <= JobsOf(AddJob(d, job), session)
  {
    assert AlignedAt(d, session);
  }

  lemma NextIdKeeps(d: LocalData, session: int)
    requires Aligned(d) && Issued(d)
    ensures AlignedAt(NextId(d), session) && JobsOf(d, session) <= JobsOf(NextId(d), session)
  {
    assert AlignedAt(d, session);
  }

  lemma ApplyKeeps(d: LocalData, op: Op)
    requires Aligned(d) && Issued(d)
    requires op.OpAddJob? ==> op.job.spec.sessionId <= d.currentId
    ensures Aligned(ApplyLocal(d, op)) && Issued(ApplyLocal(d, op))
    ensures op.OpAddJob? ==> !AddJobPanics(d, op.job)
    ensures forall session :: JobsOf(d, session) <= JobsOf(ApplyLocal(d, op), session)
    ensures ApplyLocal(d, op).currentId >= d.currentId
  {
    var d' := ApplyLocal(d, op);
    forall session ensures AlignedAt(d', session) && JobsOf(d, session) <= JobsOf(d', session) {
      match op
      case OpAddJob(job) => AddKeeps(d, job, session);
      case OpNextId => NextIdKeeps(d, session);
      case _ => assert AlignedAt(d, session);
    }
    if op.OpAddJob? {
      assert AlignedAt(d', op.job.spec.sessionId);
    }
  }

  lemma {:induction false} RunKeeps(start: int, ops: seq<Op>)
    requires WellIssued(Init(start), ops)
    ensures Aligned(RunLocal(Init(start), ops)) && Issued(RunLocal(Init(start), ops))
  {
    if ops != [] {
      var n := |ops| - 1;
      assert forall i :: 0 <= i <= n ==> ops[..n][..i] == ops[..i];
      RunKeeps(start, ops[..n]);
      ApplyKeeps(RunLocal(Init(start), ops[..n]), ops[n]);
    }
  }

  /** No AddJob of the history panics, and no later operation discards or reorders a listed job. */
  lemma {:induction false} NoPanicNoLoss(start: int, ops: seq<Op>, i: nat)
    requires WellIssued(Init(start), ops) && i <= |ops|
    ensures i < |ops| && ops[i].OpAddJob? ==> !AddJobPanics(RunLocal(Init(start), ops[..i]), ops[i].job)
    ensures forall session ::
              JobsOf(RunLocal(Init(start), ops[..i]), session) <= JobsOf(RunLocal(Init(start), ops), session)
    ensures RunLocal(Init(start), ops[..i]).currentId <= RunLocal(Init(start), ops).currentId
    decreases |ops| - i
  {
    assert forall k, m :: 0 <= k <= m <= |ops| ==> ops[..m][..k] == ops[..k];
    if i == |ops| {
      assert ops[..i] == ops;
    } else {
      RunKeeps(start, ops[..i]);
      ApplyKeeps(RunLocal(Init(start), ops[..i]), ops[i]);
      assert ops[..i + 1][..i] == ops[..i];
      NoPanicNoLoss(start, ops, i + 1);
    }
  }

  lemma PrefixIssued(d: LocalData, ops: seq<Op>, j: nat)
    requires WellIssued(d, ops) && j <= |ops|
    ensures WellIssued(d, ops[..j])
  {
    forall i | 0 <= i < j && ops[..j][i].OpAddJob?
      ensures ops[..j][i].job.spec.sessionId <= RunLocal(d, ops[..j][..i]).currentId
    {
      assert ops[..j][..i] == ops[..i] && ops[..j][i] == ops[i];
    }
  }

  /** Each issued id is new: it differs from every id issued before it and lists no job yet. */
  lemma {:induction false} NextIdFresh(start: int, ops: seq<Op>, i: nat, j: nat)
    requires WellIssued(Init(start), ops) && i < j <= |ops| && ops[i] == OpNextId
    ensures NextId(RunLocal(Init(start), ops[..i])).currentId < NextId(RunLocal(Init(start), ops[..j])).currentId
    ensures RunLocal(Init(start), ops[..j]).currentId + 1 !in RunLocal(Init(start), ops[..j]).jobs
  {
    PrefixIssued(Init(start), ops, j);
    RunKeeps(start, ops[..j]);
    assert ops[..j][..i + 1] == ops[..i + 1] && ops[..i + 1][..i] == ops[..i];
    NoPanicNoLoss(start, ops[..j], i + 1);
  }

  /**
   * A session id handed out by NextId must not have been used before: the job list is emptied but the index
   * is not, so the two stay aligned exactly when the index of the new id is empty.
   */
  lemma NextIdKeepsAlignedIff(d: LocalData)
    requires Aligned(d)
    ensures Aligned(NextId(d)) <==> IndexOf(d, d.currentId + 1) == map[]
    ensures !Aligned(NextId(d)) ==> JobsOf(d, d.currentId + 1) != []
  {
    var newId := d.currentId + 1;
    assert AlignedAt(d, newId);
    forall session | session != newId ensures AlignedAt(NextId(d), session) {
      assert AlignedAt(d, session);
    }
    assert AlignedAt(NextId(d), newId) <==> |IndexOf(d, newId)| == 0;
  }

  /** A job filed under an id not issued yet is lost when that id is issued, and the next AddJob panics. */
  lemma FutureSessionPanics(job: AnalyzeJob)
    requires job.spec.sessionId == 1
    ensures var d := NextId(AddJob(Init(0), job)); JobsOf(d, 1) == [] && AddJobPanics(d, job)
  {
  }

  /** In an aligned state the repository id of the download path is the position in the job list. */
  lemma RepoIdIsPosition(d: LocalData, session: int, i: int)
    requires Aligned(d)
    ensures i in IndexOf(d, session) <==> 0 <= i < |JobsOf(d, session)|
    ensures i in IndexOf(d, session) ==> IndexOf(d, session)[i] == JobsOf(d, session)[i].spec
  {
    assert AlignedAt(d, session);
  }

  /** What the session status request answers: None for its error return. */
  ghost function LocalSummary(d: LocalData, session: int): Option<StatusSummary> {
    var bag := SessionSummary.StatusesOf(d.status, session);
    if bag == multiset{} then None else Some(SessionSummary.Summary(bag))
  }

  /** What the job list request answers: None for its error return. */
  function LocalJobList(d: LocalData, session: int): Option<seq<AnalyzeJob>> {
    if session in d.jobs then Some(d.jobs[session]) else None
  }

  /** The spec a repository id stands for in a session. */
  function SpecAt(d: LocalData, session: int, id: int): Option<JobSpec> {
    if id in IndexOf(d, session) then Some(IndexOf(d, session)[id]) else None
  }

  class LocalState {
    var jobs: map<int, seq<AnalyzeJob>>
    var info: map<JobSpec, JobInfo>
    var status: map<JobSpec, Status>
    var result: map<JobSpec, AnalyzeResult>
    var sessionToJobIdToSpec: map<int, map<int, JobSpec>>
    var currentId: int

    ghost function Data(): LocalData
      reads this
    {
      LocalData(jobs, info, status, result, sessionToJobIdToSpec, currentId)
    }

    constructor (startingId: int)
      ensures Data() == Init(startingId)
    {
      jobs, info, status, result := map[startingId := []], map[], map[], map[];
      sessionToJobIdToSpec, currentId := map[startingId := map[]], startingId;
    }

    method NextID() returns (id: int)
      modifies this
      ensures Data() == ApplyLocal(old(Data()), OpNextId) && id == Data().currentId
    {
      currentId := currentId + 1;
      jobs := jobs[currentId := []];
      id := currentId;
    }

    method GetResult(js: JobSpec) returns (r: Option<AnalyzeResult>)
      ensures r == if js in result then Some(result[js]) else None
    {
      if js !in result { return None; }
      return Some(result[js]);
    }

    method SetResult(js: JobSpec, r: AnalyzeResult)
      modifies this
      ensures Data() == ApplyLocal(old(Data()), OpSetResult(js, r))
    {
      result := result[js := r];
    }

    method GetJobSpecByRepoId(session: int, jobRepoId: int) returns (r: Option<JobSpec>)
      ensures r == SpecAt(Data(), session, jobRepoId)
    {
      if session !in sessionToJobIdToSpec { return None; }
      var idToSpec := sessionToJobIdToSpec[session];
      if jobRepoId !in idToSpec { return None; }
      return Some(idToSpec[jobRepoId]);
    }

    method GetJobList(session: int) returns (r: Option<seq<AnalyzeJob>>)
      ensures r == LocalJobList(Data(), session)
    {
      if session !in jobs { return None; }
      return Some(jobs[session]);
    }

    method GetJobInfo(js: JobSpec) returns (r: Option<JobInfo>)
      ensures r == if js in info then Some(info[js]) else None
    {
      if js !in info { return None; }
      return Some(info[js]);
    }

    method SetJobInfo(js: JobSpec, ji: JobInfo)
      modifies this
      ensures Data() == ApplyLocal(old(Data()), OpSetJobInfo(js, ji))
    {
      info := info[js := ji];
    }

    method GetStatus(js: JobSpec) returns (r: Option<Status>)
      ensures r == if js in status then Some(status[js]) else None
    {
      if js !in status { return None; }
      return Some(status[js]);
    }

    method SetStatus(js: JobSpec, st: Status)
      modifies this
      ensures Data() == ApplyLocal(old(Data()), OpSetStatus(js, st))
    {
      status := status[js := st];
    }

    /** An error exactly for a session without any status; otherwise the summary of its jobs' statuses. */
    method GetSessionStatus(session: int) returns (r: Option<StatusSummary>)
      ensures r == LocalSummary(Data(), session)
    {
      ghost var bag := SessionSummary.StatusesOf(status, session);
      var counts, total := SessionSummary.CountStatuses(status, session);
      SessionSummary.CountsDetermined(counts, SessionSummary.Summary(bag).counts, bag);
      if total == 0 { return None; }
      return Some(StatusSummary(SessionSummary.Switch(counts, total), counts));
    }

    /** Files the job and its position; `ok` is false when the call ends in the length panic. */
    method AddJob(job: AnalyzeJob) returns (ok: bool)
      modifies this
      ensures Data() == ApplyLocal(old(Data()), OpAddJob(job))
      ensures ok == !AddJobPanics(old(Data()), job)
    {
      var session := job.spec.sessionId;
      jobs := jobs[session := (if session in jobs then jobs[session] else []) + [job]];
      if session !in sessionToJobIdToSpec {
        sessionToJobIdToSpec := sessionToJobIdToSpec[session := map[]];
      }
      var idToSpec := sessionToJobIdToSpec[session];
      sessionToJobIdToSpec := sessionToJobIdToSpec[session := idToSpec[|idToSpec| := job.spec]];
      ok := |jobs[session]| == |sessionToJobIdToSpec[session]|;
    }
  }
}
