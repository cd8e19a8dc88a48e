/** The two state stores run the same history: what they then agree on, and exactly where they differ. */
module StoreRefinement {
  import opened Common
  import opened LocalState
  import opened PGState
  import SessionSummary

  /** The do-nothing insert: the first job of each spec wins. */
  function FirstWins(list: seq<AnalyzeJob>): map<JobSpec, AnalyzeJob> {
    if list == [] then map[] else
      var before, job := FirstWins(list[..|list| - 1]), list[|list| - 1];
      if job.spec in before then before else before[job.spec := job]
  }

  /** The database rewrites the spec of a stored result to the key it is stored under. */
  function Rekeyed(results: map<JobSpec, AnalyzeResult>): map<JobSpec, AnalyzeResult> {
    map js | js in results :: results[js].(spec := js)
  }

  ghost function RowsOf(t: Tables, session: int): map<JobSpec, AnalyzeJob> {
    map js | js in t.jobs && js.sessionId == session :: t.jobs[js]
  }

  ghost predicate Agree(start: int, l: LocalData, p: Tables) {
    && l.currentId == start + p.sessionSeq
    && l.status == p.status
    && l.info == p.info
    && p.results == Rekeyed(l.result)
    && forall session :: RowsOf(p, session) == FirstWins(JobsOf(l, session))
  }

  function InsertInto(rows: map<JobSpec, AnalyzeJob>, job: AnalyzeJob, session: int): map<JobSpec, AnalyzeJob> {
    if job.spec.sessionId != session || job.spec in rows then rows else rows[job.spec := job]
  }

  lemma RowsAfterInsert(p: Tables, job: AnalyzeJob, session: int)
    ensures RowsOf(ApplyPG(p, OpAddJob(job)), session) == InsertInto(RowsOf(p, session), job, session)
  {
    assert ApplyPG(p, OpAddJob(job)).jobs == if job.spec in p.jobs then p.jobs else p.jobs[job.spec := job];
  }

  lemma FirstWinsSnoc(list: seq<AnalyzeJob>, job: AnalyzeJob, session: int)
    requires job.spec.sessionId == session
    ensures FirstWins(list + [job]) == InsertInto(FirstWins(list), job, session)
  {
    assert (list + [job])[..|list|] == list;
  }

  lemma ListAfterAdd(l: LocalData, job: AnalyzeJob, session: int)
    ensures FirstWins(JobsOf(ApplyLocal(l, OpAddJob(job)), session))
         == InsertInto(FirstWins(JobsOf(l, session)), job, session)
  {
    if job.spec.sessionId == session {
      assert JobsOf(ApplyLocal(l, OpAddJob(job)), session) == JobsOf(l, session) + [job];
      FirstWinsSnoc(JobsOf(l, session), job, session);
    } else {
      assert JobsOf(ApplyLocal(l, OpAddJob(job)), session) == JobsOf(l, session);
    }
  }

  lemma StepAgrees(start: int, l: LocalData, p: Tables, op: Op)
    requires Agree(start, l, p) && Issued(l)
    ensures Agree(start, ApplyLocal(l, op), ApplyPG(p, op))
  {
    var l', p' := ApplyLocal(l, op), ApplyPG(p, op);
    forall s ensures RowsOf(p', s) == FirstWins(JobsOf(l', s)) {
      assert RowsOf(p, s) == FirstWins(JobsOf(l, s));
      if op.OpAddJob? {
        RowsAfterInsert(p, op.job, s);
        ListAfterAdd(l, op.job, s);
      } else {
        assert JobsOf(l', s) == JobsOf(l, s);
      }
    }
  }

  /** Any history in which jobs are added only to issued sessions leaves the two stores in agreement. */
  lemma {:induction false} StoresAgree(start: int, ops: seq<Op>)
    requires WellIssued(Init(start), ops)
    ensures Agree(start, RunLocal(Init(start), ops), RunPG(EMPTY, ops))
  {
    if ops != [] {
      var n := |ops| - 1;
      assert forall i :: 0 <= i <= n ==> ops[..n][..i] == ops[..i];
      StoresAgree(start, ops[..n]);
      RunKeeps(start, ops[..n]);
      StepAgrees(start, RunLocal(Init(start), ops[..n]), RunPG(EMPTY, ops[..n]), ops[n]);
    } else {
      assert RowsOf(EMPTY, start) == map[];
    }
  }

  /** Stored results read the same exactly when each carries its own key as spec. */
  lemma ResultsAgreeIff(l: LocalData, p: Tables, start: int)
    requires Agree(start, l, p)
    ensures l.result == p.results <==> forall js :: js in l.result ==> l.result[js].spec == js
  {
    if forall js :: js in l.result ==> l.result[js].spec == js {
      assert l.result.Keys == p.results.Keys;
      assert forall js :: js in l.result ==> l.result[js] == p.results[js];
    }
  }

  /** The k-th entry of the list is `job`, and no earlier entry has its spec. */
  predicate IsFirst(list: seq<AnalyzeJob>, k: int, job: AnalyzeJob) {
    0 <= k < |list| && list[k] == job && forall m :: 0 <= m < k ==> list[m].spec != job.spec
  }

  ghost predicate IsFirstSomewhere(list: seq<AnalyzeJob>, job: AnalyzeJob) {
    exists k :: IsFirst(list, k, job)
  }

  lemma {:induction false} FirstWinsFinds(list: seq<AnalyzeJob>, js: JobSpec)
    ensures js in FirstWins(list) <==> exists k :: 0 <= k < |list| && list[k].spec == js
    ensures js in FirstWins(list) ==>
              FirstWins(list)[js].spec == js && exists k :: IsFirst(list, k, FirstWins(list)[js])
  {
    if list != [] {
      var n := |list| - 1;
      FirstWinsFinds(list[..n], js);
      if js in FirstWins(list[..n]) {
        var k :| IsFirst(list[..n], k, FirstWins(list[..n])[js]);
        assert IsFirst(list, k, FirstWins(list)[js]);
      } else if list[n].spec == js {
        assert forall m :: 0 <= m < n ==> list[..n][m].spec != js;
        assert IsFirst(list, n, list[n]);
      }
    }
  }

  lemma ListEntry(
    p: Tables, session: int, keys: seq<JobSpec>, list: seq<AnalyzeJob>, local: seq<AnalyzeJob>, i: nat)
    requires i < |keys| && keys[i] in Rows(p, session)
    requires |list| == |keys| && list[i] == p.jobs[keys[i]]
    requires RowsOf(p, session) == FirstWins(local)
    ensures list[i].spec == keys[i] && IsFirstSomewhere(local, list[i])
  {
    assert keys[i] in RowsOf(p, session) && RowsOf(p, session)[keys[i]] == list[i];
    FirstWinsFinds(local, keys[i]);
  }

  /** The list has one job for each spec listed in memory, the first, in collation order. */
  ghost predicate FirstsInOrder(
    leq: (NameWithOwner, NameWithOwner) -> bool, local: seq<AnalyzeJob>, list: seq<AnalyzeJob>)
  {
    && (forall i :: 0 <= i < |list| ==> IsFirstSomewhere(local, list[i]))
    && (forall k :: 0 <= k < |local| ==> exists i :: 0 <= i < |list| && list[i].spec == local[k].spec)
    && (forall i, j :: 0 <= i < j < |list| ==>
          list[i].spec != list[j].spec && leq(list[i].spec.nwo, list[j].spec.nwo))
  }

  lemma RowsAreFirsts(
    start: int, l: LocalData, p: Tables, leq: (NameWithOwner, NameWithOwner) -> bool, session: int,
    list: seq<AnalyzeJob>)
    requires Agree(start, l, p) && IsJobList(leq, p, session, list)
    ensures FirstsInOrder(leq, JobsOf(l, session), list)
  {
    var local := JobsOf(l, session);
    assert RowsOf(p, session) == FirstWins(local);
    var keys: seq<JobSpec> :|
      && Ordered(leq, keys, Rows(p, session))
      && |list| == |keys|
      && forall i :: 0 <= i < |keys| ==> keys[i] in p.jobs && list[i] == p.jobs[keys[i]];
    forall i | 0 <= i < |list| ensures list[i].spec == keys[i] {
      ListEntry(p, session, keys, list, local, i);
    }
    forall i | 0 <= i < |list| ensures IsFirstSomewhere(local, list[i]) {
      ListEntry(p, session, keys, list, local, i);
    }
    forall k | 0 <= k < |local| ensures exists i :: 0 <= i < |list| && list[i].spec == local[k].spec {
      FirstWinsFinds(local, local[k].spec);
      assert local[k].spec in RowsOf(p, session);
      assert local[k].spec in Rows(p, session);
      assert local[k].spec in keys;
    }
  }

  ghost predicate AddedTo(ops: seq<Op>, session: int) {
    exists op :: op in ops && op.OpAddJob? && op.job.spec.sessionId == session
  }

  lemma AddedToSnoc(ops: seq<Op>, op: Op, session: int)
    ensures AddedTo(ops + [op], session)
       <==> AddedTo(ops, session) || (op.OpAddJob? && op.job.spec.sessionId == session)
  {
    if op.OpAddJob? && op.job.spec.sessionId == session {
      assert op in ops + [op];
    }
    if x :| x in ops && x.OpAddJob? && x.job.spec.sessionId == session {
      assert x in ops + [op];
    }
  }

  /** The in-memory store knows a session once its id is issued, or once a job is added to it. */
  lemma {:induction false} ListOpenedIff(start: int, ops: seq<Op>, session: int)
    ensures var l := RunLocal(Init(start), ops);
            && start <= l.currentId
            && (session in l.jobs <==> start <= session <= l.currentId || AddedTo(ops, session))
  {
    if ops != [] {
      var n := |ops| - 1;
      assert ops == ops[..n] + [ops[n]];
      ListOpenedIff(start, ops[..n], session);
      AddedToSnoc(ops[..n], ops[n], session);
    }
  }

  /**
   * After any history the in-memory store has no job list exactly for a session that was neither issued nor added to,
   * where the database lists nothing; for every other session the database list is the in-memory list without later
   * duplicates, put in collation order.
   */
  lemma JobListsAgree(
    start: int, ops: seq<Op>, leq: (NameWithOwner, NameWithOwner) -> bool, session: int, list: seq<AnalyzeJob>)
    requires WellIssued(Init(start), ops) && IsJobList(leq, RunPG(EMPTY, ops), session, list)
    ensures var l, p := RunLocal(Init(start), ops), RunPG(EMPTY, ops);
            && (LocalJobList(l, session) == None
                <==> !(start <= session <= start + p.sessionSeq) && !AddedTo(ops, session))
            && match LocalJobList(l, session)
               case None => list == []
               case Some(local) => FirstsInOrder(leq, local, list)
  {
    var l, p := RunLocal(Init(start), ops), RunPG(EMPTY, ops);
    StoresAgree(start, ops);
    ListOpenedIff(start, ops, session);
    RowsAreFirsts(start, l, p, leq, session, list);
    if list != [] {
      assert IsFirstSomewhere(JobsOf(l, session), list[0]);
    }
  }

  // ----- Session summaries

  predicate WritesStatus(op: Op, session: int) {
    op.OpSetStatus? && op.js.sessionId == session
  }

  lemma {:induction false} StatusWritten(start: int, ops: seq<Op>, js: JobSpec)
    ensures js in RunLocal(Init(start), ops).status
       <==> exists op :: op in ops && op.OpSetStatus? && op.js == js
  {
    if ops != [] {
      var n := |ops| - 1;
      StatusWritten(start, ops[..n], js);
      assert ops == ops[..n] + [ops[n]];
    }
  }

  lemma NoStatusIff(status: map<JobSpec, Status>, session: int)
    ensures SessionSummary.StatusesOf(status, session) == multiset{}
       <==> forall js :: js in status ==> js.sessionId != session
  {
    var keys := SessionSummary.SessionKeys(status, session);
    if keys == {} {
      forall js | js in status ensures js.sessionId != session {
        assert js !in keys;
      }
    }
  }

  lemma LocalSummaryNoneIff(start: int, ops: seq<Op>, session: int)
    ensures LocalSummary(RunLocal(Init(start), ops), session) == None
       <==> forall op :: op in ops ==> !WritesStatus(op, session)
  {
    var l := RunLocal(Init(start), ops);
    NoStatusIff(l.status, session);
    if forall js :: js in l.status ==> js.sessionId != session {
      forall op | op in ops ensures !WritesStatus(op, session) {
        if op.OpSetStatus? {
          StatusWritten(start, ops, op.js);
        }
      }
    } else {
      var js :| js in l.status && js.sessionId == session;
      StatusWritten(start, ops, js);
      var op :| op in ops && op.OpSetStatus? && op.js == js;
      assert WritesStatus(op, session);
    }
  }

  /**
   * After any history the in-memory store has no summary exactly for a session no status was ever written for, where
   * the database says Succeeded; for every other session the two summaries are equal.
   */
  lemma SummariesAgree(start: int, ops: seq<Op>, session: int)
    requires WellIssued(Init(start), ops)
    ensures var l, p := RunLocal(Init(start), ops), RunPG(EMPTY, ops);
            && (LocalSummary(l, session) == None
                <==> forall op :: op in ops ==> !WritesStatus(op, session))
            && (LocalSummary(l, session) == None ==> StoredSummary(p, session).overall == Succeeded)
            && (LocalSummary(l, session) != None ==> LocalSummary(l, session) == Some(StoredSummary(p, session)))
  {
    StoresAgree(start, ops);
    LocalSummaryNoneIff(start, ops, session);
    SessionSummary.OverallMeaning(SessionSummary.Summary(multiset{}).counts, multiset{});
  }

  // ----- Repository ids

  predicate Adds(op: Op, n: NameWithOwner) {
    op.OpAddJob? && op.job.spec.nwo == n
  }

  ghost predicate AddedBy(ops: seq<Op>, n: NameWithOwner) {
    exists op :: op in ops && Adds(op, n)
  }

  lemma AddedBySnoc(ops: seq<Op>, op: Op, n: NameWithOwner)
    ensures AddedBy(ops + [op], n) <==> AddedBy(ops, n) || Adds(op, n)
  {
    if Adds(op, n) {
      assert op in ops + [op];
    }
    if x :| x in ops && Adds(x, n) {
      assert x in ops + [op];
    }
  }

  lemma StepSound(p: Tables, op: Op)
    requires RepoIdsSound(p)
    ensures RepoIdsSound(ApplyPG(p, op))
  {
    if op.OpAddJob? {
      assert RepoIdsSound(NumberRepo(p, op.job.spec.nwo));
    }
  }

  /** Ids count from one, and no two repositories share one. */
  lemma {:induction false} IdsSound(ops: seq<Op>)
    ensures RepoIdsSound(RunPG(EMPTY, ops))
  {
    if ops != [] {
      IdsSound(ops[..|ops| - 1]);
      StepSound(RunPG(EMPTY, ops[..|ops| - 1]), ops[|ops| - 1]);
    }
  }

  lemma StepNumbers(p: Tables, op: Op, n: NameWithOwner)
    ensures n in ApplyPG(p, op).repoIds <==> n in p.repoIds || Adds(op, n)
  {
  }

  /** A repository has an id exactly from the first time one of its jobs is added. */
  lemma {:induction false} IdsOfHistory(ops: seq<Op>, n: NameWithOwner)
    ensures n in RunPG(EMPTY, ops).repoIds <==> AddedBy(ops, n)
  {
    if ops != [] {
      var k := |ops| - 1;
      IdsOfHistory(ops[..k], n);
      StepNumbers(RunPG(EMPTY, ops[..k]), ops[k], n);
      AddedBySnoc(ops[..k], ops[k], n);
      assert ops == ops[..k] + [ops[k]];
    }
  }

  /** Every listed job is listed under its own session, by an operation of the history. */
  lemma {:induction false} ListedByHistory(start: int, ops: seq<Op>, session: int, i: nat)
    requires i < |JobsOf(RunLocal(Init(start), ops), session)|
    ensures var job := JobsOf(RunLocal(Init(start), ops), session)[i];
            job.spec.sessionId == session && OpAddJob(job) in ops
  {
    if ops != [] {
      var k := |ops| - 1;
      var before := JobsOf(RunLocal(Init(start), ops[..k]), session);
      var job := JobsOf(RunLocal(Init(start), ops), session)[i];
      if i < |before| && before[i] == job {
        ListedByHistory(start, ops[..k], session, i);
        assert ops == ops[..k] + [ops[k]];
      } else {
        assert ops[k] == OpAddJob(job);
      }
    }
  }

  lemma SpecByIdIff(p: Tables, session: int, id: int, n: NameWithOwner)
    requires RepoIdsSound(p)
    ensures SpecByRepoId(p, session, id) == Some(JobSpec(session, n)) <==> n in p.repoIds && p.repoIds[n] == id
    ensures SpecByRepoId(p, session, id) == None <==> forall m :: m in p.repoIds ==> p.repoIds[m] != id
  {
  }

  /**
   * The two stores read an id as the same job exactly when the list position it is in memory happens to be the row id
   * of that job's repository, or when it is neither.
   */
  lemma RepoIdLookupsAgreeIff(start: int, ops: seq<Op>, session: int, id: int)
    requires WellIssued(Init(start), ops)
    ensures var l, p := RunLocal(Init(start), ops), RunPG(EMPTY, ops); var jobs := JobsOf(l, session);
            SpecAt(l, session, id) == SpecByRepoId(p, session, id)
            <==> if 0 <= id < |jobs|
                 then jobs[id].spec.nwo in p.repoIds && p.repoIds[jobs[id].spec.nwo] == id
                 else forall n :: n in p.repoIds ==> p.repoIds[n] != id
  {
    var l, p := RunLocal(Init(start), ops), RunPG(EMPTY, ops);
    RunKeeps(start, ops);
    RepoIdIsPosition(l, session, id);
    IdsSound(ops);
    if 0 <= id < |JobsOf(l, session)| {
      ListedByHistory(start, ops, session, id);
      SpecByIdIff(p, session, id, JobsOf(l, session)[id].spec.nwo);
    } else {
      SpecByIdIff(p, session, id, NameWithOwner("", ""));
    }
  }

  /** Position 0 is never a row id, so on a session that lists anything the stores differ. */
  lemma FirstPositionDiffers(start: int, ops: seq<Op>, session: int)
    requires WellIssued(Init(start), ops) && JobsOf(RunLocal(Init(start), ops), session) != []
    ensures SpecAt(RunLocal(Init(start), ops), session, 0) != SpecByRepoId(RunPG(EMPTY, ops), session, 0)
  {
    RepoIdLookupsAgreeIff(start, ops, session, 0);
    IdsSound(ops);
  }

  /** All jobs of the history belong to one session, each repository once. */
  ghost predicate OneSession(ops: seq<Op>, session: int) {
    && (forall i :: 0 <= i < |ops| && ops[i].OpAddJob? ==> ops[i].job.spec.sessionId == session)
    && (forall i, j :: 0 <= i < j < |ops| && ops[i].OpAddJob? && ops[j].OpAddJob? ==>
          ops[i].job.spec.nwo != ops[j].job.spec.nwo)
  }

  /** The rows are numbered in list order, from one. */
  ghost predicate Numbered(jobs: seq<AnalyzeJob>, p: Tables) {
    && |jobs| == p.repoSeq
    && (forall i :: 0 <= i < |jobs| ==>
          jobs[i].spec.nwo in p.repoIds && p.repoIds[jobs[i].spec.nwo] == i + 1)
  }

  lemma NumberNext(l: LocalData, p: Tables, op: Op, session: int)
    requires Numbered(JobsOf(l, session), p) && Issued(l)
    requires op.OpAddJob? ==> op.job.spec.sessionId == session && op.job.spec.nwo !in p.repoIds
    ensures Numbered(JobsOf(ApplyLocal(l, op), session), ApplyPG(p, op))
  {
  }

  lemma {:induction false} OneSessionNumbers(start: int, ops: seq<Op>, session: int)
    requires WellIssued(Init(start), ops) && OneSession(ops, session)
    ensures Numbered(JobsOf(RunLocal(Init(start), ops), session), RunPG(EMPTY, ops))
  {
    if ops != [] {
      var k := |ops| - 1;
      assert forall i :: 0 <= i <= k ==> ops[..k][..i] == ops[..i];
      assert forall i :: 0 <= i < k ==> ops[..k][i] == ops[i];
      OneSessionNumbers(start, ops[..k], session);
      RunKeeps(start, ops[..k]);
      if ops[k].OpAddJob? {
        IdsOfHistory(ops[..k], ops[k].job.spec.nwo);
      }
      NumberNext(RunLocal(Init(start), ops[..k]), RunPG(EMPTY, ops[..k]), ops[k], session);
    }
  }

  /** In a fresh history of one session without repeats the database's ids are the positions plus one. */
  lemma RepoIdIsPositionPlusOne(start: int, ops: seq<Op>, session: int, i: int)
    requires WellIssued(Init(start), ops) && OneSession(ops, session)
    ensures 0 <= i < |JobsOf(RunLocal(Init(start), ops), session)| ==>
              && SpecAt(RunLocal(Init(start), ops), session, i)
                 == Some(JobsOf(RunLocal(Init(start), ops), session)[i].spec)
              && SpecByRepoId(RunPG(EMPTY, ops), session, i + 1)
                 == Some(JobsOf(RunLocal(Init(start), ops), session)[i].spec)
  {
    var l, p := RunLocal(Init(start), ops), RunPG(EMPTY, ops);
    OneSessionNumbers(start, ops, session);
    RunKeeps(start, ops);
    if 0 <= i < |JobsOf(l, session)| {
      RepoIdIsPosition(l, session, i);
      ListedByHistory(start, ops, session, i);
      IdsSound(ops);
      SpecByIdIff(p, session, i + 1, JobsOf(l, session)[i].spec.nwo);
    }
  }

  /** There the same id names different jobs at every position of the list. */
  lemma PositionsNeverAgree(start: int, ops: seq<Op>, session: int, id: int)
    requires WellIssued(Init(start), ops) && OneSession(ops, session)
    requires 0 <= id < |JobsOf(RunLocal(Init(start), ops), session)|
    ensures SpecAt(RunLocal(Init(start), ops), session, id) != SpecByRepoId(RunPG(EMPTY, ops), session, id)
  {
    OneSessionNumbers(start, ops, session);
    RepoIdLookupsAgreeIff(start, ops, session, id);
  }
}
