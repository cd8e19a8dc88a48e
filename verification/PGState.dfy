/** The server state kept in database tables: upserts, do-nothing inserts, and ids drawn from sequences. */
module PGState {
  import opened Common
  import SessionSummary
  import opened LocalState

  datatype Tables = Tables(
    sessionSeq: nat,
    repoSeq: nat,
    repoIds: map<NameWithOwner, int>,
    jobs: map<JobSpec, AnalyzeJob>,
    info: map<JobSpec, JobInfo>,
    status: map<JobSpec, Status>,
    results: map<JobSpec, AnalyzeResult>)

  const EMPTY := Tables(0, 0, map[], map[], map[], map[], map[])

  function NextSession(t: Tables): Tables {
    t.(sessionSeq := t.sessionSeq + 1)
  }

  /** The upsert draws a sequence value before it meets a conflict, so a repeated pair leaves a gap. */
  function NumberRepo(t: Tables, n: NameWithOwner): Tables {
    t.(repoSeq := t.repoSeq + 1, repoIds := if n in t.repoIds then t.repoIds else t.repoIds[n := t.repoSeq + 1])
  }

  function InsertJob(t: Tables, job: AnalyzeJob): Tables {
    if job.spec in t.jobs then t else t.(jobs := t.jobs[job.spec := job])
  }

  function StoreResult(t: Tables, js: JobSpec, r: AnalyzeResult): Tables {
    t.(results := t.results[js := r.(spec := js)])
  }

  function StoreStatus(t: Tables, js: JobSpec, st: Status): Tables {
    t.(status := t.status[js := st])
  }

  function StoreInfo(t: Tables, js: JobSpec, ji: JobInfo): Tables {
    t.(info := t.info[js := ji])
  }

  function ApplyPG(t: Tables, op: Op): Tables {
    match op
    case OpNextId => NextSession(t)
    case OpAddJob(job) => InsertJob(NumberRepo(t, job.spec.nwo), job)
    case OpSetStatus(js, st) => StoreStatus(t, js, st)
    case OpSetResult(js, r) => StoreResult(t, js, r)
    case OpSetJobInfo(js, ji) => StoreInfo(t, js, ji)
  }

  function RunPG(t: Tables, ops: seq<Op>): Tables {
    if ops == [] then t else ApplyPG(RunPG(t, ops[..|ops| - 1]), ops[|ops| - 1])
  }

  // ----- Repository ids

  ghost predicate RepoIdsSound(t: Tables) {
    && (forall n :: n in t.repoIds ==> 1 <= t.repoIds[n] <= t.repoSeq)
    && (forall m, n :: m in t.repoIds && n in t.repoIds && t.repoIds[m] == t.repoIds[n] ==> m == n)
  }

  ghost predicate Extends<K(!new), V(!new)>(m: map<K, V>, m': map<K, V>) {
    forall k :: k in m ==> k in m' && m'[k] == m[k]
  }

  /** The steps that touch the repository table; AddJob numbers the repository before its row is committed. */
  datatype RepoOp = Number(n: NameWithOwner) | Insert(job: AnalyzeJob)

  function ApplyRepo(t: Tables, op: RepoOp): Tables {
    match op
    case Number(n) => NumberRepo(t, n)
    case Insert(job) => InsertJob(t, job)
  }

  function RunRepo(t: Tables, ops: seq<RepoOp>): Tables {
    if ops == [] then t else ApplyRepo(RunRepo(t, ops[..|ops| - 1]), ops[|ops| - 1])
  }

  /** Under any interleaving the ids stay an injection and no pair ever changes its id. */
  lemma {:induction false} RepoIdsStable(t: Tables, ops: seq<RepoOp>)
    requires RepoIdsSound(t)
    ensures RepoIdsSound(RunRepo(t, ops)) && Extends(t.repoIds, RunRepo(t, ops).repoIds)
    ensures forall n :: Number(n) in ops ==> n in RunRepo(t, ops).repoIds
  {
    if ops != [] {
      var n := |ops| - 1;
      assert ops == ops[..n] + [ops[n]];
      RepoIdsStable(t, ops[..n]);
    }
  }

  /** The row lookup behind the download path. */
  ghost function SpecByRepoId(t: Tables, session: int, id: int): Option<JobSpec> {
    if n :| n in t.repoIds && t.repoIds[n] == id then Some(JobSpec(session, n)) else None
  }

  /** The id given out for a pair leads back to that pair in every later state, in any session. */
  lemma RepoIdRoundTrip(t: Tables, n: NameWithOwner, ops: seq<RepoOp>, session: int)
    requires RepoIdsSound(t)
    ensures var answered := NumberRepo(t, n);
            SpecByRepoId(RunRepo(answered, ops), session, answered.repoIds[n]) == Some(JobSpec(session, n))
  {
    var answered := NumberRepo(t, n);
    assert RepoIdsSound(answered);
    RepoIdsStable(answered, ops);
    assert n in answered.repoIds;
  }

  // ----- Job lists

  /** A deterministic database collation: a total order on (owner, repo). */
  ghost predicate TotalOrder(leq: (NameWithOwner, NameWithOwner) -> bool) {
    && (forall a, b :: leq(a, b) || leq(b, a))
    && (forall a, b :: leq(a, b) && leq(b, a) ==> a == b)
    && (forall a, b, c :: leq(a, b) && leq(b, c) ==> leq(a, c))
  }

  ghost function Rows(t: Tables, session: int): set<JobSpec> {
    set js | js in t.jobs && js.sessionId == session
  }

  /** `keys` lists the set once each, in collation order. */
  ghost predicate Ordered(leq: (NameWithOwner, NameWithOwner) -> bool, keys: seq<JobSpec>, s: set<JobSpec>) {
    && (forall js :: js in keys <==> js in s)
    && (forall i, j :: 0 <= i < j < |keys| ==> keys[i] != keys[j] && leq(keys[i].nwo, keys[j].nwo))
  }

  ghost predicate IsJobList(
    leq: (NameWithOwner, NameWithOwner) -> bool, t: Tables, session: int, list: seq<AnalyzeJob>)
  {
    exists keys: seq<JobSpec> ::
      && Ordered(leq, keys, Rows(t, session))
      && |list| == |keys|
      && forall i :: 0 <= i < |keys| ==> keys[i] in t.jobs && list[i] == t.jobs[keys[i]]
  }

  lemma {:induction false} OrderedUnique(
    leq: (NameWithOwner, NameWithOwner) -> bool, a: seq<JobSpec>, b: seq<JobSpec>, s: set<JobSpec>, session: int)
    requires TotalOrder(leq) && Ordered(leq, a, s) && Ordered(leq, b, s)
    requires forall js :: js in s ==> js.sessionId == session
    ensures a == b
    decreases |a|
  {
    OrderedSize(leq, a, s);
    OrderedSize(leq, b, s);
    if a != [] {
      assert a[0] in s && a[0] in b;
      assert b[0] in s && b[0] in a;
      assert leq(a[0].nwo, b[0].nwo) && leq(b[0].nwo, a[0].nwo);
      assert a[0] == b[0];
      assert Ordered(leq, a[1..], s - {a[0]}) by { OrderedTail(leq, a, s); }
      assert Ordered(leq, b[1..], s - {a[0]}) by { OrderedTail(leq, b, s); }
      OrderedUnique(leq, a[1..], b[1..], s - {a[0]}, session);
    }
  }

  lemma OrderedTail(leq: (NameWithOwner, NameWithOwner) -> bool, keys: seq<JobSpec>, s: set<JobSpec>)
    requires keys != [] && Ordered(leq, keys, s)
    ensures Ordered(leq, keys[1..], s - {keys[0]})
  {
    forall js ensures js in keys[1..] <==> js in s - {keys[0]} {
      if js in s && js != keys[0] {
        var i :| 0 <= i < |keys| && keys[i] == js;
        assert keys[1..][i - 1] == js;
      }
      if js in keys[1..] {
        var i :| 0 <= i < |keys[1..]| && keys[1..][i] == js;
        assert keys[i + 1] == js;
      }
    }
  }

  lemma {:induction false} OrderedSize(
    leq: (NameWithOwner, NameWithOwner) -> bool, keys: seq<JobSpec>, s: set<JobSpec>)
    requires Ordered(leq, keys, s)
    ensures |keys| == |s|
    decreases |keys|
  {
    if keys == [] {
      assert s == {};
    } else {
      assert keys[0] in s;
      OrderedTail(leq, keys, s);
      OrderedSize(leq, keys[1..], s - {keys[0]});
    }
  }

  lemma LeastExists(leq: (NameWithOwner, NameWithOwner) -> bool, s: set<JobSpec>) returns (least: JobSpec)
    requires TotalOrder(leq) && s != {}
    ensures least in s && forall js :: js in s ==> leq(least.nwo, js.nwo)
    decreases |s|
  {
    var pick :| pick in s;
    if s == {pick} {
      least := pick;
    } else {
      var rest := LeastExists(leq, s - {pick});
      least := if leq(rest.nwo, pick.nwo) then rest else pick;
    }
  }

  /** The summary of a session's statuses, also of a session without any. */
  ghost function StoredSummary(t: Tables, session: int): StatusSummary {
    SessionSummary.Summary(SessionSummary.StatusesOf(t.status, session))
  }

  class PGState {
    const collation: (NameWithOwner, NameWithOwner) -> bool
    var sessionIdSeq: nat
    var jobRepoIdSeq: nat
    var jobRepoMap: map<NameWithOwner, int>
    var analyzeJobs: map<JobSpec, AnalyzeJob>
    var jobInfo: map<JobSpec, JobInfo>
    var jobStatus: map<JobSpec, Status>
    var analyzeResults: map<JobSpec, AnalyzeResult>

    ghost function Data(): Tables
      reads this
    {
      Tables(sessionIdSeq, jobRepoIdSeq, jobRepoMap, analyzeJobs, jobInfo, jobStatus, analyzeResults)
    }

    constructor (collation: (NameWithOwner, NameWithOwner) -> bool)
      ensures Data() == EMPTY && this.collation == collation
    {
      this.collation := collation;
      sessionIdSeq, jobRepoIdSeq, jobRepoMap := 0, 0, map[];
      analyzeJobs, jobInfo, jobStatus, analyzeResults := map[], map[], map[], map[];
    }

    method NextID() returns (id: int)
      modifies this
      ensures Data() == ApplyPG(old(Data()), OpNextId) && id == Data().sessionSeq
    {
      sessionIdSeq := sessionIdSeq + 1;
      id := sessionIdSeq;
    }

    method SetResult(js: JobSpec, r: AnalyzeResult)
      modifies this
      ensures Data() == ApplyPG(old(Data()), OpSetResult(js, r))
    {
      var ar := r.(spec := js);
      analyzeResults := analyzeResults[js := ar];
    }

    method GetResult(js: JobSpec) returns (r: Option<AnalyzeResult>)
      ensures r == if js in Data().results then Some(Data().results[js]) else None
    {
      if js !in analyzeResults { return None; }
      return Some(analyzeResults[js]);
    }

    method SetJobInfo(js: JobSpec, ji: JobInfo)
      modifies this
      ensures Data() == ApplyPG(old(Data()), OpSetJobInfo(js, ji))
    {
      jobInfo := jobInfo[js := ji];
    }

    method GetJobInfo(js: JobSpec) returns (r: Option<JobInfo>)
      ensures r == if js in Data().info then Some(Data().info[js]) else None
    {
      if js !in jobInfo { return None; }
      return Some(jobInfo[js]);
    }

    method SetStatus(js: JobSpec, st: Status)
      modifies this
      ensures Data() == ApplyPG(old(Data()), OpSetStatus(js, st))
    {
      jobStatus := jobStatus[js := st];
    }

    method GetStatus(js: JobSpec) returns (r: Option<Status>)
      ensures r == if js in Data().status then Some(Data().status[js]) else None
    {
      if js !in jobStatus { return None; }
      return Some(jobStatus[js]);
    }

    /** SELECT status ... WHERE session_id = session, in whatever order the rows come. */
    method SelectStatuses(session: int) returns (rows: seq<Status>)
      ensures multiset(rows) == SessionSummary.StatusesOf(Data().status, session)
    {
      rows := [];
      var all := set js | js in jobStatus && js.sessionId == session;
      var left := all;
      SessionSummary.BagStart(jobStatus, all);
      while left != {}
        invariant left <= all <= jobStatus.Keys
        invariant multiset(rows) == SessionSummary.BagOver(jobStatus, all - left)
        decreases |left|
      {
        var js :| js in left;
        SessionSummary.BagNext(jobStatus, all, left, js);
        rows, left := rows + [jobStatus[js]], left - {js};
      }
      SessionSummary.BagStart(jobStatus, all);
      assert all == SessionSummary.SessionKeys(jobStatus, session);
    }

    /** The summary of the session's statuses, also for a session that has none. */
    method GetSessionStatus(session: int) returns (r: StatusSummary)
      ensures r == StoredSummary(Data(), session)
    {
      var rows := SelectStatuses(session);
      var counts, total := SessionSummary.CountRows(rows);
      ghost var bag := SessionSummary.StatusesOf(jobStatus, session);
      SessionSummary.CountsDetermined(counts, SessionSummary.Summary(bag).counts, bag);
      return StatusSummary(SessionSummary.Switch(counts, total), counts);
    }

    method GetRepoId(n: NameWithOwner) returns (id: int)
      modifies this
      ensures Data() == NumberRepo(old(Data()), n) && id == Data().repoIds[n]
    {
      jobRepoIdSeq := jobRepoIdSeq + 1;
      if n !in jobRepoMap {
        jobRepoMap := jobRepoMap[n := jobRepoIdSeq];
      }
      id := jobRepoMap[n];
    }

    method AddJob(job: AnalyzeJob)
      modifies this
      ensures Data() == ApplyPG(old(Data()), OpAddJob(job))
    {
      var inserted := if job.spec in analyzeJobs then analyzeJobs else analyzeJobs[job.spec := job];
      var _ := GetRepoId(job.spec.nwo);
      analyzeJobs := inserted;
    }

    /** SELECT payload ... WHERE session_id = session ORDER BY owner, repo, and the loop that collects it. */
    method GetJobList(session: int) returns (list: seq<AnalyzeJob>)
      requires TotalOrder(collation)
      ensures IsJobList(collation, Data(), session, list)
    {
      list := [];
      var left := set js | js in analyzeJobs && js.sessionId == session;
      ghost var keys: seq<JobSpec> := [];
      while left != {}
        invariant left <= Rows(Data(), session)
        invariant Ordered(collation, keys, Rows(Data(), session) - left)
        invariant forall a, b :: a in keys && b in left ==> collation(a.nwo, b.nwo)
        invariant |list| == |keys|
        invariant forall i :: 0 <= i < |keys| ==> keys[i] in analyzeJobs && list[i] == analyzeJobs[keys[i]]
        decreases |left|
      {
        ghost var least := LeastExists(collation, left);
        var js :| js in left && forall k :: k in left ==> collation(js.nwo, k.nwo);
        list := list + [analyzeJobs[js]];
        keys := keys + [js];
        left := left - {js};
      }
    }

    method GetJobSpecByRepoId(session: int, jobRepoId: int) returns (r: Option<JobSpec>)
      requires RepoIdsSound(Data())
      ensures r == SpecByRepoId(Data(), session, jobRepoId)
    {
      if n :| n in jobRepoMap && jobRepoMap[n] == jobRepoId {
        return Some(JobSpec(session, n));
      }
      return None;
    }
  }
}
