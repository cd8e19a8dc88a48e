/** The server's request handlers as methods over the tables and the bucket, each left to run alone. */
module Server {
  import opened Common
  import opened PGState
  import opened ArtifactStore
  import Base64
  import H = HepcStore
  import JobSpecToken
  import L = LifeCycle
  import SessionSummary

  // ----- What the loops do to the tables

  function JobOf(session: int, pack: ArtifactLocation, language: string, n: NameWithOwner): AnalyzeJob {
    AnalyzeJob(JobSpec(session, n), pack, language)
  }

  function JobsOf(session: int, pack: ArtifactLocation, language: string, repos: seq<NameWithOwner>)
    : (jobs: seq<AnalyzeJob>)
    ensures |jobs| == |repos|
  {
    seq(|repos|, i requires 0 <= i < |repos| => JobOf(session, pack, language, repos[i]))
  }

  function StartOne(t: Tables, job: AnalyzeJob): Tables {
    InsertJob(NumberRepo(StoreStatus(t, job.spec, Pending), job.spec.nwo), job)
  }

  function Started(t: Tables, jobs: seq<AnalyzeJob>): Tables {
    if jobs == [] then t else StartOne(Started(t, jobs[..|jobs| - 1]), jobs[|jobs| - 1])
  }

  lemma StartedNext(t: Tables, jobs: seq<AnalyzeJob>, i: nat)
    requires i < |jobs|
    ensures Started(t, jobs[..i + 1]) == StartOne(Started(t, jobs[..i]), jobs[i])
  {
    assert jobs[..i + 1][..i] == jobs[..i];
  }

  function Get<K, V>(m: map<K, V>, k: K): Option<V> {
    if k in m then Some(m[k]) else None
  }

  /** The first of the jobs for this key. */
  function FirstFor(jobs: seq<AnalyzeJob>, js: JobSpec): Option<AnalyzeJob> {
    if jobs == [] then None
    else
      var earlier := FirstFor(jobs[..|jobs| - 1], js);
      if earlier.None? && jobs[|jobs| - 1].spec == js then Some(jobs[|jobs| - 1]) else earlier
  }

  /** Every key submitted is pending, numbered and listed once, by the first row for it; nothing else changes. */
  lemma {:induction false} StartedAt(t: Tables, jobs: seq<AnalyzeJob>, js: JobSpec)
    ensures Get(Started(t, jobs).status, js) == if FirstFor(jobs, js).Some? then Some(Pending) else Get(t.status, js)
    ensures Get(Started(t, jobs).jobs, js) == if js in t.jobs then Some(t.jobs[js]) else FirstFor(jobs, js)
    ensures FirstFor(jobs, js).Some? ==> js.nwo in Started(t, jobs).repoIds
    ensures Extends(t.repoIds, Started(t, jobs).repoIds)
    ensures Started(t, jobs).info == t.info && Started(t, jobs).results == t.results
  {
    if jobs != [] {
      StartedAt(t, jobs[..|jobs| - 1], js);
    }
  }

  lemma {:induction false} FirstForMeaning(jobs: seq<AnalyzeJob>, js: JobSpec)
    ensures FirstFor(jobs, js).None? <==> forall i :: 0 <= i < |jobs| ==> jobs[i].spec != js
    ensures FirstFor(jobs, js).Some? ==>
              exists i :: 0 <= i < |jobs| && jobs[i] == FirstFor(jobs, js).value && jobs[i].spec == js
                && forall k :: 0 <= k < i ==> jobs[k].spec != js
  {
    if jobs != [] {
      var n := |jobs| - 1;
      FirstForMeaning(jobs[..n], js);
      assert forall i :: 0 <= i < n ==> jobs[..n][i] == jobs[i];
      if FirstFor(jobs[..n], js).Some? {
        var i :| 0 <= i < n && jobs[..n][i] == FirstFor(jobs[..n], js).value && jobs[..n][i].spec == js
              && forall k :: 0 <= k < i ==> jobs[..n][k].spec != js;
        assert jobs[i] == FirstFor(jobs, js).value;
      }
    }
  }

  lemma {:induction false} StartedRowsOwn(t: Tables, jobs: seq<AnalyzeJob>)
    requires RowsOwn(t)
    ensures RowsOwn(Started(t, jobs))
  {
    if jobs != [] {
      StartedRowsOwn(t, jobs[..|jobs| - 1]);
    }
  }

  function RecordOne(t: Tables, r: AnalyzeResult): Tables {
    StoreStatus(StoreResult(t, r.spec, r), r.spec, r.status)
  }

  function Recorded(t: Tables, rs: seq<AnalyzeResult>): Tables {
    if rs == [] then t else RecordOne(Recorded(t, rs[..|rs| - 1]), rs[|rs| - 1])
  }

  /** The last of the results for this key. */
  function LastFor(rs: seq<AnalyzeResult>, js: JobSpec): Option<AnalyzeResult> {
    if rs == [] then None
    else if rs[|rs| - 1].spec == js then Some(rs[|rs| - 1])
    else LastFor(rs[..|rs| - 1], js)
  }

  /** For every job the last result received is kept, under the status it carries; other jobs keep theirs. */
  lemma {:induction false} RecordedAt(t: Tables, rs: seq<AnalyzeResult>, js: JobSpec)
    ensures var last := LastFor(rs, js);
            && Get(Recorded(t, rs).results, js) == (if last.Some? then last else Get(t.results, js))
            && Get(Recorded(t, rs).status, js) == (if last.Some? then Some(last.value.status) else Get(t.status, js))
    ensures Recorded(t, rs).jobs == t.jobs && Recorded(t, rs).info == t.info && Recorded(t, rs).repoIds == t.repoIds
  {
    if rs != [] {
      RecordedAt(t, rs[..|rs| - 1], js);
    }
  }

  /** The same information is stored for each of the keys, and nothing else changes. */
  ghost predicate Informs(t: Tables, t': Tables, keys: set<JobSpec>, ji: JobInfo) {
    && t' == t.(info := t'.info)
    && (forall js :: js in t'.info <==> js in t.info || js in keys)
    && (forall js :: js in t'.info ==> t'.info[js] == if js in keys then ji else t.info[js])
  }

  lemma InformsNext(t: Tables, t': Tables, keys: set<JobSpec>, js: JobSpec, ji: JobInfo)
    requires Informs(t, t', keys, ji)
    ensures Informs(t, StoreInfo(t', js, ji), keys + {js}, ji)
  {
  }

  ghost function SetOf(keys: seq<JobSpec>): set<JobSpec> {
    set js | js in keys
  }

  /** The keys behind a job list: each row carries its own. */
  lemma KeysOf(leq: (NameWithOwner, NameWithOwner) -> bool, t: Tables, session: int, list: seq<AnalyzeJob>)
    returns (keys: seq<JobSpec>)
    requires IsJobList(leq, t, session, list) && RowsOwn(t)
    ensures Ordered(leq, keys, Rows(t, session)) && |keys| == |list|
    ensures forall i :: 0 <= i < |keys| ==> keys[i] in t.jobs && list[i].spec == keys[i] && keys[i].sessionId == session
  {
    keys :| && Ordered(leq, keys, Rows(t, session)) && |list| == |keys|
            && forall i :: 0 <= i < |keys| ==> keys[i] in t.jobs && list[i] == t.jobs[keys[i]];
    assert forall i :: 0 <= i < |keys| ==> keys[i] in keys;
  }

  ghost predicate IsFirstRow(
    leq: (NameWithOwner, NameWithOwner) -> bool, t: Tables, session: int, js: JobSpec)
  {
    js in Rows(t, session) && forall other :: other in Rows(t, session) ==> leq(js.nwo, other.nwo)
  }

  lemma FirstRowIs(
    leq: (NameWithOwner, NameWithOwner) -> bool, t: Tables, session: int, keys: seq<JobSpec>, js: JobSpec)
    requires TotalOrder(leq) && keys != [] && Ordered(leq, keys, Rows(t, session))
    ensures IsFirstRow(leq, t, session, js) <==> js == keys[0]
  {
    assert keys[0] in keys;
    forall other | other in Rows(t, session) ensures leq(keys[0].nwo, other.nwo) {
      var i :| 0 <= i < |keys| && keys[i] == other;
      assert leq(keys[0].nwo, keys[0].nwo);
    }
  }

  // ----- What a status request meets

  datatype StatusOutcome =
    | NoJobs
    | Response(info: JobInfo, rows: seq<L.Row>, overall: Status)
    | StatusFailed(lookup: L.Lookup)

  predicate RowFails(t: Tables, o: Objects, js: JobSpec) {
    || js !in t.status
    || (t.status[js] == Succeeded && (js !in t.results || t.results[js].resultLocation !in o))
  }

  predicate RowShows(t: Tables, o: Objects, ids: map<NameWithOwner, int>, row: L.Row) {
    && !RowFails(t, o, row.js)
    && row.status == t.status[row.js]
    && (row.status != Succeeded ==> row.count == 0 && row.size == 0)
    && (row.status == Succeeded ==>
          && row.count == t.results[row.js].resultCount
          && row.size == |o[t.results[row.js].resultLocation]|)
    && row.js.nwo in ids && row.repoId == ids[row.js.nwo]
  }

  ghost predicate RowsOwn(t: Tables) {
    forall js :: js in t.jobs ==> t.jobs[js].spec == js
  }

  ghost predicate SomeRowFails(t: Tables, o: Objects, session: int) {
    exists js :: js in Rows(t, session) && RowFails(t, o, js)
  }

  /** The first job listed for the session has no information. */
  ghost predicate InfoMissing(leq: (NameWithOwner, NameWithOwner) -> bool, t: Tables, session: int) {
    exists js :: IsFirstRow(leq, t, session, js) && js !in t.info
  }

  /** Every job listed for the session has its information and can be shown. */
  ghost predicate CanAnswer(t: Tables, o: Objects, session: int) {
    forall js :: js in Rows(t, session) ==> js in t.info && !RowFails(t, o, js)
  }

  function RowSpecs(rows: seq<L.Row>): seq<JobSpec> {
    seq(|rows|, i requires 0 <= i < |rows| => rows[i].js)
  }

  lemma AllShown(
    t: Tables, o: Objects, ids: map<NameWithOwner, int>, session: int, keys: seq<JobSpec>, rows: seq<L.Row>)
    requires |rows| == |keys| && forall js :: js in keys <==> js in Rows(t, session)
    requires forall k :: 0 <= k < |rows| ==> rows[k].js == keys[k] && RowShows(t, o, ids, rows[k])
    ensures RowSpecs(rows) == keys
    ensures forall js :: js in Rows(t, session) ==> !RowFails(t, o, js)
  {
    forall js | js in Rows(t, session) ensures !RowFails(t, o, js) {
      var k :| 0 <= k < |keys| && keys[k] == js;
      assert RowShows(t, o, ids, rows[k]);
    }
  }

  /** A status request only draws repository ids. */
  ghost predicate OnlyNumbers(t: Tables, t': Tables) {
    t' == t.(repoSeq := t'.repoSeq, repoIds := t'.repoIds) && Extends(t.repoIds, t'.repoIds)
  }

  lemma NumbersNext(t: Tables, t': Tables, n: NameWithOwner)
    requires OnlyNumbers(t, t')
    ensures OnlyNumbers(t, NumberRepo(t', n)) && Extends(t'.repoIds, NumberRepo(t', n).repoIds)
  {
  }

  datatype RequestOutcome = BadRequest | Submitted(session: int)

  datatype Request = Request(language: string, queryPack: string, repos: seq<NameWithOwner>)

  datatype DownloadOutcome =
    | DownloadFailed(lookup: L.Lookup)
    | NotReady(status: Status)
    | Ready(count: int, size: nat, sha: string, prefix: string, token: string)

  function NamesOf(repos: seq<NameWithOwner>): (names: seq<string>)
    ensures |names| == |repos|
    ensures forall i :: 0 <= i < |repos| ==> names[i] == repos[i].owner + "/" + repos[i].repo
  {
    seq(|repos|, i requires 0 <= i < |repos| => H.RepoKey(repos[i]))
  }

  /** The query pack a request carries, if its text sniffs as base64 of gzip and decodes. */
  function PackOf(queryPack: string): Option<Bytes> {
    if Base64.IsBase64Gzip(queryPack) then Base64.Decode(false, queryPack) else None
  }

  /** The response about a job with this result and this data behind it. */
  function ReadyFor(js: JobSpec, r: AnalyzeResult, data: Bytes): (answer: DownloadOutcome)
    ensures answer.Ready?
  {
    Ready(r.resultCount, |data|, r.databaseSha, r.sourceLocationPrefix, JobSpecToken.EncodeJobSpec(js))
  }

  /** A text is a pack exactly when it decodes to gzip data and no line break stands in its first four characters. */
  lemma PackOfIff(queryPack: string)
    ensures match Base64.Decode(false, queryPack)
            case None => PackOf(queryPack) == None
            case Some(d) =>
              PackOf(queryPack) == if Base64.StartsGzip(d) && Base64.CleanStart(queryPack) then Some(d) else None
  {
    if Base64.Decode(false, queryPack).Some? {
      Base64.SniffIff(queryPack, Base64.Decode(false, queryPack).value);
    }
  }

  /** A standard encoding is taken for a pack exactly when its data is gzip, and then for that data. */
  lemma PackOfEncoded(d: Bytes)
    ensures PackOf(Base64.Encode(false, d)) == if Base64.StartsGzip(d) then Some(d) else None
  {
    Base64.SniffEncoded(d);
    Base64.RoundTrip(false, d);
  }

  /** What a download request about a job answers. */
  function Announced(t: Tables, o: Objects, js: JobSpec): DownloadOutcome {
    if js !in t.status then DownloadFailed(L.StatusForDownload)
    else if t.status[js] != Succeeded then NotReady(t.status[js])
    else if js !in t.results then DownloadFailed(L.ResultOf)
    else
      var r := t.results[js];
      if r.resultLocation !in o then DownloadFailed(L.ArtifactOf) else ReadyFor(js, r, o[r.resultLocation])
  }

  /** The data behind a download token; None for each of the error answers. */
  function Served(t: Tables, o: Objects, token: string): Option<Bytes> {
    match JobSpecToken.DecodeJobSpec(token)
    case None => None
    case Some(js) =>
      if js in t.results && t.results[js].resultLocation in o then Some(o[t.results[js].resultLocation]) else None
  }

  class Commander {
    const state: PGState
    const artifacts: MinIOArtifactStore
    const dbs: H.HepcStore
    var jobs: seq<AnalyzeJob>

    constructor (state: PGState, artifacts: MinIOArtifactStore, dbs: H.HepcStore)
      ensures this.state == state && this.artifacts == artifacts && this.dbs == dbs && jobs == []
    {
      this.state, this.artifacts, this.dbs, jobs := state, artifacts, dbs, [];
    }

    /** `jobs` is what has been put on the job channel so far. */
    method StartAnalyses(
      analysisRepos: seq<NameWithOwner>, queryPackLocation: ArtifactLocation, session: int, language: string)
      modifies this, state
      ensures jobs == old(jobs) + JobsOf(session, queryPackLocation, language, analysisRepos)
      ensures state.Data() == Started(old(state.Data()), JobsOf(session, queryPackLocation, language, analysisRepos))
    {
      ghost var all := JobsOf(session, queryPackLocation, language, analysisRepos);
      for i := 0 to |analysisRepos|
        invariant jobs == old(jobs) + all[..i]
        invariant state.Data() == Started(old(state.Data()), all[..i])
      {
        StartedNext(old(state.Data()), all, i);
        assert all[..i + 1] == all[..i] + [all[i]];
        var spec := JobSpec(session, analysisRepos[i]);
        var job := AnalyzeJob(spec, queryPackLocation, language);
        jobs := jobs + [job];
        state.SetStatus(spec, Pending);
        state.AddJob(job);
      }
      assert all[..|all|] == all;
    }

    /** `received` lists what the result channel yields. */
    method ConsumeResults(received: seq<AnalyzeResult>)
      modifies state
      ensures state.Data() == Recorded(old(state.Data()), received)
    {
      for i := 0 to |received|
        invariant state.Data() == Recorded(old(state.Data()), received[..i])
      {
        assert received[..i + 1][..i] == received[..i];
        var r := received[i];
        state.SetResult(r.spec, r);
        state.SetStatus(r.spec, r.status);
      }
      assert received[..|received|] == received;
    }

    /** The information of the request is stored for every job listed for its session, and for no other. */
    method BuildSessionInfo(session: int, ji: JobInfo)
      requires TotalOrder(state.collation) && RowsOwn(state.Data())
      modifies state
      ensures Informs(old(state.Data()), state.Data(), Rows(old(state.Data()), session), ji)
    {
      ghost var t := state.Data();
      var joblist := state.GetJobList(session);
      ghost var keys := KeysOf(state.collation, t, session, joblist);
      assert SetOf(keys[..0]) == {};
      for i := 0 to |joblist|
        invariant Informs(t, state.Data(), SetOf(keys[..i]), ji)
      {
        InformsNext(t, state.Data(), SetOf(keys[..i]), keys[i], ji);
        assert SetOf(keys[..i + 1]) == SetOf(keys[..i]) + {keys[i]};
        state.SetJobInfo(JobSpec(session, joblist[i].spec.nwo), ji);
      }
      assert SetOf(keys[..|keys|]) == Rows(t, session);
    }

    /** A request draws its session first; one that is refused leaves nothing else behind. */
    method MRVARequest(request: Option<Request>, world: H.Attempt, createdAt: string, updatedAt: string)
      returns (outcome: RequestOutcome)
      requires TotalOrder(state.collation) && RowsOwn(state.Data())
      modifies this, state, artifacts, dbs
      ensures var session := old(state.sessionIdSeq) + 1;
              outcome
              == if request.Some? && PackOf(request.value.queryPack).Some? then Submitted(session) else BadRequest
      ensures outcome == BadRequest ==>
                && state.Data() == NextSession(old(state.Data())) && artifacts.objects == old(artifacts.objects)
                && jobs == old(jobs)
      ensures outcome.Submitted? ==>
                var r, session := request.value, outcome.session;
                var index := H.Used(old(dbs.Data()), dbs.cacheDuration, world);
                var found := if index.None? then [] else H.Found(r.repos, H.Names(index.value));
                var missing := if index.None? then r.repos else H.NotFound(r.repos, H.Names(index.value));
                var submitted := JobsOf(session, PackLocation(session), r.language, found);
                var started := Started(NextSession(old(state.Data())), submitted);
                && artifacts.objects == ObjectSave(old(artifacts.objects), SavePack(session, PackOf(r.queryPack).value))
                && jobs == old(jobs) + submitted
                && Informs(started, state.Data(), Rows(started, session),
                           JobInfo(r.language, createdAt, updatedAt, NamesOf(missing)))
    {
      var session := state.NextID();
      if request.None? { return BadRequest; }
      var r := request.value;
      if !Base64.IsBase64Gzip(r.queryPack) { return BadRequest; }
      var tgz := Base64.Decode(false, r.queryPack);
      if tgz.None? { return BadRequest; }
      var location := artifacts.SaveQueryPack(session, tgz.value);
      var notFoundRepos, analysisRepos := dbs.FindAvailableDBs(r.repos, world);
      StartedRowsOwn(state.Data(), JobsOf(session, location, r.language, analysisRepos));
      StartAnalyses(analysisRepos, location, session, r.language);
      BuildSessionInfo(session, JobInfo(r.language, createdAt, updatedAt, NamesOf(notFoundRepos)));
      return Submitted(session);
    }

    /** The rows of a status response, in job-list order, or the failure of the first row that cannot be shown. */
    method SubmitStatusResponse(session: int, ji: JobInfo) returns (outcome: StatusOutcome)
      requires TotalOrder(state.collation) && RowsOwn(state.Data())
      modifies state
      ensures OnlyNumbers(old(state.Data()), state.Data())
      ensures outcome.StatusFailed?
         <==> SomeRowFails(old(state.Data()), artifacts.objects, session)
      ensures !outcome.StatusFailed? ==>
                && outcome.Response? && outcome.info == ji
                && Ordered(state.collation, RowSpecs(outcome.rows), Rows(old(state.Data()), session))
                && (forall i :: 0 <= i < |outcome.rows| ==>
                      RowShows(old(state.Data()), artifacts.objects, state.Data().repoIds, outcome.rows[i]))
                && outcome.overall
                   == SessionSummary.Summary(SessionSummary.StatusesOf(old(state.Data()).status, session)).overall
    {
      ghost var t := state.Data();
      var rows: seq<L.Row> := [];
      var jobs := state.GetJobList(session);
      ghost var keys := KeysOf(state.collation, t, session, jobs);
      for i := 0 to |jobs|
        invariant OnlyNumbers(t, state.Data()) && |rows| == i
        invariant forall k :: 0 <= k < i ==>
                    rows[k].js == keys[k] && RowShows(t, artifacts.objects, state.Data().repoIds, rows[k])
      {
        var js := jobs[i].spec;
        assert js == keys[i] && js in keys && js in Rows(t, session);
        var status := state.GetStatus(js);
        if status.None? { return StatusFailed(L.StatusOfListed); }
        var artifactSize, resultCount := 0, 0;
        if status.value == Succeeded {
          var jobResult := state.GetResult(js);
          if jobResult.None? { return StatusFailed(L.ResultOf); }
          var size := artifacts.GetResultSize(jobResult.value.resultLocation);
          if size.None? { return StatusFailed(L.ArtifactOf); }
          artifactSize, resultCount := size.value, jobResult.value.resultCount;
        }
        NumbersNext(t, state.Data(), js.nwo);
        var jobRepoId := state.GetRepoId(js.nwo);
        rows := rows + [L.Row(js, status.value, resultCount, artifactSize, jobRepoId)];
      }
      var sessionSummary := state.GetSessionStatus(session);
      AllShown(t, artifacts.objects, state.Data().repoIds, session, keys, rows);
      return Response(ji, rows, sessionSummary.overall);
    }

    method MRVAStatus(session: int) returns (outcome: StatusOutcome)
      requires TotalOrder(state.collation) && RowsOwn(state.Data())
      modifies state
      ensures OnlyNumbers(old(state.Data()), state.Data())
      ensures outcome == NoJobs <==> Rows(old(state.Data()), session) == {}
      ensures CanAnswer(old(state.Data()), artifacts.objects, session) ==> !outcome.StatusFailed?
      ensures outcome.StatusFailed?
         <==> InfoMissing(state.collation, old(state.Data()), session)
              || SomeRowFails(old(state.Data()), artifacts.objects, session)
      ensures outcome.Response? ==>
                && |outcome.rows| > 0
                && outcome.rows[0].js in old(state.Data()).info
                && outcome.info == old(state.Data()).info[outcome.rows[0].js]
                && Ordered(state.collation, RowSpecs(outcome.rows), Rows(old(state.Data()), session))
                && (forall i :: 0 <= i < |outcome.rows| ==>
                      RowShows(old(state.Data()), artifacts.objects, state.Data().repoIds, outcome.rows[i]))
                && outcome.overall
                   == SessionSummary.Summary(SessionSummary.StatusesOf(old(state.Data()).status, session)).overall
    {
      ghost var t := state.Data();
      var jobs := state.GetJobList(session);
      ghost var keys := KeysOf(state.collation, t, session, jobs);
      if |jobs| == 0 { return NoJobs; }
      assert keys[0] in keys && keys[0] in Rows(t, session);
      forall js ensures IsFirstRow(state.collation, t, session, js) <==> js == keys[0] {
        FirstRowIs(state.collation, t, session, keys, js);
      }
      var jobInfo := state.GetJobInfo(jobs[0].spec);
      if jobInfo.None? { return StatusFailed(L.InfoOf); }
      outcome := SubmitStatusResponse(session, jobInfo.value);
      if outcome.Response? {
        OrderedUnique(state.collation, RowSpecs(outcome.rows), keys, Rows(t, session), session);
        assert RowSpecs(outcome.rows)[0] == keys[0];
      }
    }

    method SendArtifactDownloadResponse(js: JobSpec) returns (outcome: DownloadOutcome)
      ensures outcome == Announced(state.Data(), artifacts.objects, js)
    {
      var jobStatus := state.GetStatus(js);
      if jobStatus.None? { return DownloadFailed(L.StatusForDownload); }
      if jobStatus.value != Succeeded { return NotReady(jobStatus.value); }
      var jobResult := state.GetResult(js);
      if jobResult.None? { return DownloadFailed(L.ResultOf); }
      var r := jobResult.value;
      var data := artifacts.GetResult(r.resultLocation);
      if data.None? { return DownloadFailed(L.ArtifactOf); }
      return Ready(r.resultCount, |data.value|, r.databaseSha, r.sourceLocationPrefix, JobSpecToken.EncodeJobSpec(js));
    }

    method MRVADownloadServe(token: string) returns (data: Option<Bytes>)
      ensures data == Served(state.Data(), artifacts.objects, token)
    {
      var js := JobSpecToken.DecodeJobSpec(token);
      if js.None? { return None; }
      var result := state.GetResult(js.value);
      if result.None? { return None; }
      data := artifacts.GetResult(result.value.resultLocation);
    }
  }
}
