/** What finished requests answer: every part of an answer was found by a look of that same request. */
module LifeCycleAnswers {
  import opened Common
  import opened PGState
  import opened LifeCycle
  import opened LifeCycleSafety
  import R = LifeCycleReaders
  import SessionSummary
  import T = LifeCycleTheorems

  // ----- What a request has seen

  /** What one look finds in the table, or the bucket, it reads. */
  datatype Sight =
    | ListSeen(session: int, listing: seq<JobSpec>)
    | InfoSeen(js: JobSpec, info: JobInfo)
    | StatusSeen(js: JobSpec, status: Status)
    | ResultSeen(js: JobSpec, result: AnalyzeResult)
    | DataSeen(location: ArtifactLocation, data: Bytes)
    | IdSeen(nwo: NameWithOwner, id: int)
    | SummarySeen(session: int, overall: Status)
    | SpecSeen(session: int, id: int, js: JobSpec)
    | Missed(lookup: Lookup)

  ghost function InfoSight(s: Sys, js: JobSpec): Sight {
    if js in s.db.info then InfoSeen(js, s.db.info[js]) else Missed(InfoOf)
  }

  ghost function StatusSight(s: Sys, js: JobSpec, missed: Lookup): Sight {
    if js in s.db.status then StatusSeen(js, s.db.status[js]) else Missed(missed)
  }

  ghost function ResultSight(s: Sys, js: JobSpec): Sight {
    if js in s.db.results then ResultSeen(js, s.db.results[js]) else Missed(ResultOf)
  }

  ghost function DataSight(s: Sys, location: ArtifactLocation): Sight {
    if location in s.store then DataSeen(location, s.store[location]) else Missed(ArtifactOf)
  }

  ghost function SpecSight(s: Sys, session: int, id: int): Sight {
    match SpecByRepoId(s.db, session, id)
    case None => Missed(SpecOf)
    case Some(js) => SpecSeen(session, id, js)
  }

  ghost function SightOf(s: Sys, at: Reader, listing: seq<JobSpec>): Sight
    requires !Finished(at) && (Visits(at) ==> at.todo != [])
  {
    match at
    case ListFirst(n) => ListSeen(n, listing)
    case FetchInfo(_, first) => InfoSight(s, first)
    case ListAgain(n) => ListSeen(n, listing)
    case FetchStatus(_, todo, _) => StatusSight(s, todo[0], StatusOfListed)
    case FetchResult(_, todo, _) => ResultSight(s, todo[0])
    case FetchSize(_, _, _, r) => DataSight(s, r.resultLocation)
    case FetchRepoId(_, todo, _, _, _, _) => IdSeen(todo[0].nwo, NumberRepo(s.db, todo[0].nwo).repoIds[todo[0].nwo])
    case FetchSummary(n, _) => SummarySeen(n, T.Overall(s, n))
    case FindSpec(n, id) => SpecSight(s, n, id)
    case DownStatus(js) => StatusSight(s, js, StatusForDownload)
    case DownResult(js) => ResultSight(s, js)
    case DownData(_, r) => DataSight(s, r.resultLocation)
  }

  /** What the step finds for the request, if it is one of its looks. */
  ghost function Finds(s: Sys, e: Event, v: nat): set<Sight>
    requires Enabled(s, e)
  {
    if R.IsLook(e, v) then {SightOf(s, s.visits[v].at, e.re.listing)} else {}
  }

  /** What the looks of the request have found in the run so far. */
  ghost function Sights(s: Sys, run: seq<Event>, v: nat): set<Sight>
    requires Valid(s, run)
  {
    if run == [] then {}
    else Sights(s, run[..|run| - 1], v) + Finds(After(s, run[..|run| - 1]), run[|run| - 1], v)
  }

  /** The step that opened the request. */
  ghost function Ask(s: Sys, run: seq<Event>, v: nat): Event
    requires Valid(s, run) && |s.visits| <= v < |After(s, run).visits|
  {
    var before := run[..|run| - 1];
    if v < |After(s, before).visits| then Ask(s, before, v) else run[|run| - 1]
  }

  // ----- Answers made of sights

  function RowJobs(rows: seq<Row>): seq<JobSpec> {
    seq(|rows|, i requires 0 <= i < |rows| => rows[i].js)
  }

  /** The count and the size a row shows under a status. */
  ghost predicate Measured(seen: set<Sight>, js: JobSpec, st: Status, count: int, size: nat) {
    if st != Succeeded then
      count == 0 && size == 0
    else
      exists r, data ::
        && ResultSeen(js, r) in seen && count == r.resultCount
        && DataSeen(r.resultLocation, data) in seen && size == |data|
  }

  ghost predicate RowSeen(seen: set<Sight>, row: Row) {
    && StatusSeen(row.js, row.status) in seen
    && Measured(seen, row.js, row.status, row.count, row.size)
    && IdSeen(row.js.nwo, row.repoId) in seen
  }

  /** The rows so far are made of sights, and together with the jobs to come they are the list that was read. */
  ghost predicate RowsSeen(seen: set<Sight>, session: int, todo: seq<JobSpec>, rows: seq<Row>) {
    && ListSeen(session, RowJobs(rows) + todo) in seen
    && forall i :: 0 <= i < |rows| ==> RowSeen(seen, rows[i])
  }

  predicate AsksStatus(ask: Event, session: int) {
    ask == OfReader(OpenStatus(session))
  }

  /** The request is a download request whose id was found to stand for the job. */
  ghost predicate AsksFor(ask: Event, seen: set<Sight>, js: JobSpec) {
    && ask.OfReader? && ask.re.OpenDownload? && ask.re.session == js.sessionId
    && SpecSeen(js.sessionId, ask.re.repoId, js) in seen
  }

  /** Data is handed out exactly under Succeeded: what lay at the location of the result that was read. */
  ghost predicate DataAnswers(seen: set<Sight>, js: JobSpec, data: Option<Bytes>) {
    match data
    case None => exists st :: st != Succeeded && StatusSeen(js, st) in seen
    case Some(d) =>
      && StatusSeen(js, Succeeded) in seen
      && exists r :: ResultSeen(js, r) in seen && DataSeen(r.resultLocation, d) in seen
  }

  ghost predicate Sourced(ask: Event, seen: set<Sight>, at: Reader) {
    match at
    case ListFirst(n) => AsksStatus(ask, n)
    case FetchInfo(n, _) => AsksStatus(ask, n)
    case ListAgain(n) => AsksStatus(ask, n)
    case FetchStatus(n, todo, rows) => AsksStatus(ask, n) && RowsSeen(seen, n, todo, rows)
    case FetchResult(n, todo, rows) =>
      AsksStatus(ask, n) && RowsSeen(seen, n, todo, rows) && todo != [] && StatusSeen(todo[0], Succeeded) in seen
    case FetchSize(n, todo, rows, r) =>
      && AsksStatus(ask, n) && RowsSeen(seen, n, todo, rows) && todo != []
      && StatusSeen(todo[0], Succeeded) in seen && ResultSeen(todo[0], r) in seen
    case FetchRepoId(n, todo, rows, st, count, size) =>
      && AsksStatus(ask, n) && RowsSeen(seen, n, todo, rows) && todo != []
      && StatusSeen(todo[0], st) in seen && Measured(seen, todo[0], st, count, size)
    case FetchSummary(n, rows) => AsksStatus(ask, n) && RowsSeen(seen, n, [], rows)
    case StatusDone(n, rows, overall) =>
      AsksStatus(ask, n) && RowsSeen(seen, n, [], rows) && SummarySeen(n, overall) in seen
    case EmptyDone(n) => AsksStatus(ask, n) && ListSeen(n, []) in seen
    case FindSpec(n, id) => ask == OfReader(OpenDownload(n, id))
    case DownStatus(js) => AsksFor(ask, seen, js)
    case DownResult(js) => AsksFor(ask, seen, js) && StatusSeen(js, Succeeded) in seen
    case DownData(js, r) => AsksFor(ask, seen, js) && StatusSeen(js, Succeeded) in seen && ResultSeen(js, r) in seen
    case DownDone(js, data) => AsksFor(ask, seen, js) && DataAnswers(seen, js, data)
    case LookupFailed(lookup) => Missed(lookup) in seen
  }

  lemma RowsStaySeen(seen: set<Sight>, more: set<Sight>, session: int, todo: seq<JobSpec>, rows: seq<Row>)
    requires RowsSeen(seen, session, todo, rows)
    ensures RowsSeen(seen + more, session, todo, rows)
  {
    forall i | 0 <= i < |rows| ensures RowSeen(seen + more, rows[i]) {
      assert RowSeen(seen, rows[i]);
      MeasuredStays(seen, more, rows[i].js, rows[i].status, rows[i].count, rows[i].size);
    }
  }

  lemma MeasuredStays(seen: set<Sight>, more: set<Sight>, js: JobSpec, st: Status, count: int, size: nat)
    requires Measured(seen, js, st, count, size)
    ensures Measured(seen + more, js, st, count, size)
  {
    if st == Succeeded {
      var r, data :| ResultSeen(js, r) in seen && count == r.resultCount && DataSeen(r.resultLocation, data) in seen
                  && size == |data|;
      assert ResultSeen(js, r) in seen + more && DataSeen(r.resultLocation, data) in seen + more;
    }
  }

  lemma ListSources(s: Sys, ask: Event, seen: set<Sight>, at: Reader, listing: seq<JobSpec>)
    requires Lists(at) && Sourced(ask, seen, at)
    ensures Sourced(ask, seen + {SightOf(s, at, listing)}, NextLook(s, at, listing))
  {
    assert RowJobs([]) + listing == listing;
  }

  lemma RowSources(s: Sys, ask: Event, seen: set<Sight>, at: Reader)
    requires Visits(at) && at.todo != [] && !at.FetchRepoId? && Sourced(ask, seen, at)
    ensures Sourced(ask, seen + {SightOf(s, at, [])}, NextLook(s, at, []))
  {
    RowsStaySeen(seen, {SightOf(s, at, [])}, at.session, at.todo, at.rows);
    if at.FetchSize? && at.result.resultLocation in s.store {
      var data := s.store[at.result.resultLocation];
      var seen' := seen + {SightOf(s, at, [])};
      assert ResultSeen(at.todo[0], at.result) in seen' && DataSeen(at.result.resultLocation, data) in seen';
    }
  }

  /** One row more: the rows and the jobs to come are still the same list. */
  lemma NumberSources(s: Sys, ask: Event, seen: set<Sight>, at: Reader)
    requires at.FetchRepoId? && at.todo != [] && Sourced(ask, seen, at)
    ensures Sourced(ask, seen + {SightOf(s, at, [])}, NextLook(s, at, []))
  {
    var seen' := seen + {SightOf(s, at, [])};
    var todo, rows, next := at.todo, at.rows, NextLook(s, at, []);
    RowsStaySeen(seen, {SightOf(s, at, [])}, at.session, todo, rows);
    MeasuredStays(seen, {SightOf(s, at, [])}, todo[0], at.status, at.count, at.size);
    assert RowJobs(next.rows) + todo[1..] == RowJobs(rows) + todo;
    assert todo[1..] == [] ==> RowJobs(next.rows) + [] == RowJobs(rows) + todo;
    assert RowSeen(seen', next.rows[|rows|]);
    forall i | 0 <= i < |next.rows| ensures RowSeen(seen', next.rows[i]) {
      if i < |rows| {
        assert next.rows[i] == rows[i];
      }
    }
  }

  lemma DownloadSources(s: Sys, ask: Event, seen: set<Sight>, at: Reader)
    requires at.FindSpec? || at.DownStatus? || at.DownResult? || at.DownData?
    requires Sourced(ask, seen, at)
    ensures Sourced(ask, seen + {SightOf(s, at, [])}, NextLook(s, at, []))
  {
    if at.DownData? && at.result.resultLocation in s.store {
      var seen' := seen + {SightOf(s, at, [])};
      assert ResultSeen(at.js, at.result) in seen';
    }
  }

  /** A look adds what it finds, and the request goes on from there. */
  lemma LookSources(s: Sys, ask: Event, seen: set<Sight>, at: Reader, listing: seq<JobSpec>)
    requires !Finished(at) && (Visits(at) ==> at.todo != []) && Sourced(ask, seen, at)
    ensures Sourced(ask, seen + {SightOf(s, at, listing)}, NextLook(s, at, listing))
  {
    if Lists(at) {
      ListSources(s, ask, seen, at, listing);
    } else if at.FetchRepoId? {
      NumberSources(s, ask, seen, at);
    } else if Visits(at) {
      RowSources(s, ask, seen, at);
    } else if at.FetchSummary? {
      RowsStaySeen(seen, {SightOf(s, at, [])}, at.session, [], at.rows);
    } else if !at.FetchInfo? {
      DownloadSources(s, ask, seen, at);
    }
  }

  // ----- Over whole runs

  lemma OpensSourced(s: Sys, e: Event, v: nat)
    requires Enabled(s, e) && |s.visits| <= v < |Apply(s, e).visits|
    ensures v == |s.visits| && Sourced(e, {}, Apply(s, e).visits[v].at)
  {
    match e
    case OfServer(x) => T.ServerKeepsVisits(s, x);
    case OfAgent(x) => T.AgentKeepsVisits(s, x);
    case OfReader(_) =>
    case OfBroker(_) =>
  }

  lemma StepSources(s: Sys, e: Event, v: nat, ask: Event, seen: set<Sight>)
    requires Enabled(s, e) && v < |s.visits| && Sourced(ask, seen, s.visits[v].at)
    ensures v < |Apply(s, e).visits| && Sourced(ask, seen + Finds(s, e, v), Apply(s, e).visits[v].at)
  {
    if R.IsLook(e, v) {
      LookSources(s, ask, seen, s.visits[v].at, e.re.listing);
    } else {
      VisitsRemain(s, e);
      T.VisitsAfter(s, e, v);
      assert seen + Finds(s, e, v) == seen;
    }
  }

  lemma VisitsRemain(s: Sys, e: Event)
    requires Enabled(s, e)
    ensures |s.visits| <= |Apply(s, e).visits|
  {
    match e
    case OfServer(x) => T.ServerKeepsVisits(s, x);
    case OfAgent(x) => T.AgentKeepsVisits(s, x);
    case OfReader(_) =>
    case OfBroker(_) =>
  }

  /** No look comes before the request is opened. */
  lemma {:induction false} NothingSeenBefore(procs: seq<Proc>, run: seq<Event>, v: nat)
    requires Valid(Init(procs), run) && v >= |After(Init(procs), run).visits|
    ensures Sights(Init(procs), run, v) == {}
  {
    if run != [] {
      VisitsRemain(After(Init(procs), run[..|run| - 1]), run[|run| - 1]);
      NothingSeenBefore(procs, run[..|run| - 1], v);
    }
  }

  lemma {:induction false} RunSources(procs: seq<Proc>, run: seq<Event>, v: nat)
    requires Valid(Init(procs), run) && v < |After(Init(procs), run).visits|
    ensures Sourced(Ask(Init(procs), run, v), Sights(Init(procs), run, v), After(Init(procs), run).visits[v].at)
  {
    var before, last := run[..|run| - 1], run[|run| - 1];
    var s := After(Init(procs), before);
    if v < |s.visits| {
      RunSources(procs, before, v);
      StepSources(s, last, v, Ask(Init(procs), before, v), Sights(Init(procs), before, v));
    } else {
      NothingSeenBefore(procs, before, v);
      OpensSourced(s, last, v);
    }
  }

  /** The step is a look of the request, and this is what it finds. */
  ghost predicate FoundBy(s: Sys, e: Event, v: nat, x: Sight) {
    && R.IsLook(e, v) && v < |s.visits| && R.CanLook(s, s.visits[v].at, e.re.listing)
    && x == SightOf(s, s.visits[v].at, e.re.listing)
  }

  lemma LastFinds(s: Sys, run: seq<Event>, v: nat, x: Sight)
    requires Valid(s, run) && run != []
    ensures Valid(s, run[..|run| - 1])
    ensures x in Sights(s, run, v) ==>
              x in Sights(s, run[..|run| - 1], v) || FoundBy(After(s, run[..|run| - 1]), run[|run| - 1], v, x)
  {
  }

  ghost predicate FoundAfter(s: Sys, past: seq<Event>, e: Event, v: nat, x: Sight) {
    Valid(s, past) && FoundBy(After(s, past), e, v, x)
  }

  lemma FoundInLonger(s: Sys, run: seq<Event>, i: nat, v: nat, x: Sight)
    requires i < |run| - 1 && FoundAfter(s, run[..|run| - 1][..i], run[..|run| - 1][i], v, x)
    ensures FoundAfter(s, run[..i], run[i], v, x)
  {
    assert run[..|run| - 1][..i] == run[..i];
  }

  /** A sight is what some look of the request found in the state in which it came. */
  lemma {:induction false} SightsMeaning(s: Sys, run: seq<Event>, v: nat, x: Sight) returns (i: nat)
    requires Valid(s, run) && x in Sights(s, run, v)
    ensures i < |run| && FoundAfter(s, run[..i], run[i], v, x)
  {
    LastFinds(s, run, v, x);
    if x in Sights(s, run[..|run| - 1], v) {
      i := SightsMeaning(s, run[..|run| - 1], v, x);
      FoundInLonger(s, run, i, v, x);
    } else {
      i := |run| - 1;
    }
  }

  /** The step opens the request. */
  ghost predicate Opens(s: Sys, e: Event, v: nat) {
    |s.visits| == v && e.OfReader? && !e.re.Look?
  }

  /** What makes a request a promised one: it names an answered session, or an id shown for its session. */
  ghost predicate Promises(s: Sys, ask: Event) {
    ask.OfReader? && ((ask.re.OpenStatus? && IsAnswered(s, ask.re.session))
                      || (ask.re.OpenDownload? && Shown(s, ask.re.session, ask.re.repoId)))
  }

  lemma KeepsPromised(s: Sys, e: Event, v: nat)
    requires Enabled(s, e) && v < |s.visits|
    ensures v < |Apply(s, e).visits| && Apply(s, e).visits[v].promised == s.visits[v].promised
  {
    VisitsRemain(s, e);
    if !R.IsLook(e, v) {
      T.VisitsAfter(s, e, v);
    }
  }

  lemma OpensPromised(s: Sys, e: Event, v: nat)
    requires Enabled(s, e) && Opens(s, e, v)
    ensures v < |Apply(s, e).visits| && (Apply(s, e).visits[v].promised <==> Promises(s, e))
  {
  }

  /** The request at position v in the run is the one the step asked for, promised by what held before that step. */
  ghost predicate IsAsk(s: Sys, run: seq<Event>, v: nat, before: Sys, ask: Event)
    requires Valid(s, run) && |s.visits| <= v
  {
    && v < |After(s, run).visits| && Ask(s, run, v) == ask
    && (After(s, run).visits[v].promised <==> Promises(before, ask))
  }

  lemma AskStays(s: Sys, run: seq<Event>, v: nat, before: Sys, ask: Event)
    requires Valid(s, run) && run != [] && |s.visits| <= v && IsAsk(s, run[..|run| - 1], v, before, ask)
    ensures IsAsk(s, run, v, before, ask)
  {
    KeepsPromised(After(s, run[..|run| - 1]), run[|run| - 1], v);
  }

  lemma AskOpens(s: Sys, run: seq<Event>, v: nat)
    requires Valid(s, run) && run != [] && |s.visits| <= v
    requires Opens(After(s, run[..|run| - 1]), run[|run| - 1], v)
    ensures IsAsk(s, run, v, After(s, run[..|run| - 1]), run[|run| - 1])
  {
    OpensPromised(After(s, run[..|run| - 1]), run[|run| - 1], v);
  }

  lemma {:induction false} AskStaysOn(s: Sys, run: seq<Event>, v: nat, k: nat, before: Sys, ask: Event)
    requires Valid(s, run) && |s.visits| <= v && k <= |run|
    requires Valid(s, run[..k]) && IsAsk(s, run[..k], v, before, ask)
    ensures IsAsk(s, run, v, before, ask)
  {
    if k == |run| {
      assert run[..k] == run;
    } else {
      assert run[..|run| - 1][..k] == run[..k];
      AskStaysOn(s, run[..|run| - 1], v, k, before, ask);
      AskStays(s, run, v, before, ask);
    }
  }

  /** A request stays the one a step opened, and is a promised one by what held then. */
  lemma AskIs(s: Sys, past: seq<Event>, ask: Event, run: seq<Event>, v: nat)
    requires Valid(s, run) && past + [ask] <= run && |s.visits| <= v
    requires Valid(s, past) && Enabled(After(s, past), ask) && Opens(After(s, past), ask, v)
    ensures IsAsk(s, run, v, After(s, past), ask)
  {
    var upTo := past + [ask];
    Extend(s, past, ask);
    assert upTo[..|upTo| - 1] == past;
    AskOpens(s, upTo, v);
    assert run[..|upTo|] == upTo;
    AskStaysOn(s, run, v, |upTo|, After(s, past), ask);
  }

  // ----- Promised requests show everything

  /** The rows and the jobs to come are each job the session lists, once. */
  ghost predicate Covers(s: Sys, v: Visit) {
    v.promised ==>
      match v.at
      case FetchStatus(n, todo, rows) => Enumerates(RowJobs(rows) + todo, Rows(s.db, n))
      case FetchResult(n, todo, rows) => Enumerates(RowJobs(rows) + todo, Rows(s.db, n))
      case FetchSize(n, todo, rows, _) => Enumerates(RowJobs(rows) + todo, Rows(s.db, n))
      case FetchRepoId(n, todo, rows, _, _, _) => Enumerates(RowJobs(rows) + todo, Rows(s.db, n))
      case FetchSummary(n, rows) => Enumerates(RowJobs(rows), Rows(s.db, n))
      case StatusDone(n, rows, _) => Enumerates(RowJobs(rows), Rows(s.db, n))
      case EmptyDone(n) => Rows(s.db, n) == {}
      case _ => true
  }

  lemma AnsweredRowsStay(s: Sys, e: Event, session: int)
    requires Enabled(s, e) && Grows(s, Apply(s, e)) && IsAnswered(s, session)
    ensures Rows(Apply(s, e).db, session) == Rows(s.db, session)
  {
    forall js | js in Rows(Apply(s, e).db, session) ensures js in Rows(s.db, session) {
      T.AnsweredIsClosed(s, e, session, js);
    }
  }

  lemma StaysCovered(s: Sys, e: Event, v: Visit)
    requires Enabled(s, e) && Grows(s, Apply(s, e)) && T.PromiseOk(s, v) && Covers(s, v)
    ensures Covers(Apply(s, e), v)
  {
    if v.promised && T.OfSession(v.at) {
      AnsweredRowsStay(s, e, v.at.session);
    }
  }

  lemma ListCovers(s: Sys, v: Visit, listing: seq<JobSpec>)
    requires Lists(v.at) && Enumerates(listing, Rows(s.db, v.at.session))
    ensures Covers(s, v.(at := NextLook(s, v.at, listing)))
  {
    assert RowJobs([]) + listing == listing;
    if listing == [] {
      assert Rows(s.db, v.at.session) == {};
    } else {
      assert listing[0] in listing;
    }
  }

  lemma NumberCovers(s: Sys, v: Visit)
    requires v.at.FetchRepoId? && v.at.todo != [] && Covers(s, v)
    ensures Covers(s, v.(at := NextLook(s, v.at, [])))
  {
    var todo, rows, next := v.at.todo, v.at.rows, NextLook(s, v.at, []);
    assert RowJobs(next.rows) + todo[1..] == RowJobs(rows) + todo;
    assert todo[1..] == [] ==> RowJobs(next.rows) == RowJobs(rows) + todo;
  }

  lemma LookCovers(s: Sys, v: Visit, listing: seq<JobSpec>)
    requires R.CanLook(s, v.at, listing) && Covers(s, v)
    ensures Covers(s, v.(at := NextLook(s, v.at, listing)))
  {
    if Lists(v.at) {
      ListCovers(s, v, listing);
    } else if v.at.FetchRepoId? {
      NumberCovers(s, v);
    }
  }

  lemma StepCovers(s: Sys, e: Event, v: nat)
    requires Enabled(s, e) && Inv(s) && v < |s.visits| && T.PromiseOk(s, s.visits[v]) && Covers(s, s.visits[v])
    ensures v < |Apply(s, e).visits| && Covers(Apply(s, e), Apply(s, e).visits[v])
  {
    StepKeeps(s, e);
    VisitsRemain(s, e);
    if R.IsLook(e, v) {
      LookCovers(s, s.visits[v], e.re.listing);
      R.LookBeside(s, v, e.re.listing);
    } else {
      T.VisitsAfter(s, e, v);
      StaysCovered(s, e, s.visits[v]);
    }
  }

  lemma OpensCovered(s: Sys, e: Event, v: nat)
    requires Enabled(s, e) && |s.visits| <= v < |Apply(s, e).visits|
    ensures Covers(Apply(s, e), Apply(s, e).visits[v])
  {
    OpensSourced(s, e, v);
  }

  lemma {:induction false} RunCovers(procs: seq<Proc>, run: seq<Event>, v: nat)
    requires AllIdle(procs) && Valid(Init(procs), run) && v < |After(Init(procs), run).visits|
    ensures Covers(After(Init(procs), run), After(Init(procs), run).visits[v])
  {
    var before, last := run[..|run| - 1], run[|run| - 1];
    var s := After(Init(procs), before);
    if v < |s.visits| {
      RunCovers(procs, before, v);
      RunKeeps(procs, before);
      T.RunKeepsPromises(procs, before);
      StepCovers(s, last, v);
    } else {
      OpensCovered(s, last, v);
    }
  }

  // ----- The answers

  /**
   * A finished status response is about the session asked for. Its rows are the list that a look of the request read,
   * in that order; each shows the status, the count, the size and the id that looks of the request found for its job,
   * and the response the summary one of them found.
   */
  lemma StatusResponseSeen(procs: seq<Proc>, run: seq<Event>, v: nat)
    requires Valid(Init(procs), run)
    requires var visits := After(Init(procs), run).visits; v < |visits| && visits[v].at.StatusDone?
    ensures var at, seen := After(Init(procs), run).visits[v].at, Sights(Init(procs), run, v);
            && Ask(Init(procs), run, v) == OfReader(OpenStatus(at.session))
            && ListSeen(at.session, RowJobs(at.rows)) in seen
            && (forall i :: 0 <= i < |at.rows| ==> RowSeen(seen, at.rows[i]))
            && SummarySeen(at.session, at.overall) in seen
  {
    RunSources(procs, run, v);
    var at := After(Init(procs), run).visits[v].at;
    assert RowJobs(at.rows) + [] == RowJobs(at.rows);
  }

  /** The rows are each job the session lists, once; there is no response without rows unless the session lists none. */
  ghost predicate ShowsAll(s: Sys, at: Reader) {
    && (at.StatusDone? ==> Enumerates(RowJobs(at.rows), Rows(s.db, at.session)))
    && (at.EmptyDone? ==> Rows(s.db, at.session) == {})
  }

  /** The response to a promised request shows each job its session lists, once; an empty one only if there is none. */
  lemma PromisedShowsAll(procs: seq<Proc>, run: seq<Event>, v: nat)
    requires AllIdle(procs) && Valid(Init(procs), run)
    requires var visits := After(Init(procs), run).visits; v < |visits| && visits[v].promised
    ensures var s := After(Init(procs), run); ShowsAll(s, s.visits[v].at)
  {
    RunCovers(procs, run, v);
  }

  /** A promised request with a connection free is answered by its own looks alone, and shown all there is. */
  lemma PromisedGetsAll(procs: seq<Proc>, past: seq<Event>, v: nat, n: nat) returns (run: seq<Event>)
    requires AllIdle(procs) && Valid(Init(procs), past)
    requires var s := After(Init(procs), past);
             Free(s) && v < |s.visits| && s.visits[v].promised && R.Fits(s, s.visits[v].at, n)
    ensures var s := After(Init(procs), past);
            && R.Ended(s, run, v) && R.Looks(run, v) == |run| <= R.LooksLeft(s.visits[v].at, n)
            && !After(s, run).visits[v].at.LookupFailed? && ShowsAll(After(s, run), After(s, run).visits[v].at)
  {
    run := R.PromisedIsAnswered(procs, past, v, n);
    GetsAll(procs, past, run, v);
  }

  lemma GetsAll(procs: seq<Proc>, past: seq<Event>, run: seq<Event>, v: nat)
    requires AllIdle(procs) && Valid(Init(procs), past) && R.Ended(After(Init(procs), past), run, v)
    requires v < |After(Init(procs), past).visits| && After(Init(procs), past).visits[v].promised
    ensures var s' := After(After(Init(procs), past), run); ShowsAll(s', s'.visits[v].at)
  {
    Append(Init(procs), past, After(Init(procs), past), run);
    RunKeepsPromised(After(Init(procs), past), run, v);
    PromisedShowsAll(procs, past + run, v);
  }

  lemma {:induction false} RunKeepsPromised(s: Sys, run: seq<Event>, v: nat)
    requires Valid(s, run) && v < |s.visits|
    ensures v < |After(s, run).visits| && After(s, run).visits[v].promised == s.visits[v].promised
  {
    if run != [] {
      RunKeepsPromised(s, run[..|run| - 1], v);
      KeepsPromised(After(s, run[..|run| - 1]), run[|run| - 1], v);
    }
  }

  /**
   * A finished download request is about the job its id was found to stand for. It has the data it found at the
   * location of the result it read if it found the job Succeeded, and none if it found another status.
   */
  lemma DownloadSeen(procs: seq<Proc>, run: seq<Event>, v: nat)
    requires Valid(Init(procs), run)
    requires var visits := After(Init(procs), run).visits; v < |visits| && visits[v].at.DownDone?
    ensures var at, seen := After(Init(procs), run).visits[v].at, Sights(Init(procs), run, v);
            AsksFor(Ask(Init(procs), run, v), seen, at.js) && DataAnswers(seen, at.js, at.data)
  {
    RunSources(procs, run, v);
  }

  /** An empty response has read an empty list, and a failed request has missed what it says it missed. */
  lemma OthersSeen(procs: seq<Proc>, run: seq<Event>, v: nat)
    requires Valid(Init(procs), run) && v < |After(Init(procs), run).visits|
    ensures var at, seen := After(Init(procs), run).visits[v].at, Sights(Init(procs), run, v);
            && (at.EmptyDone? ==> ListSeen(at.session, []) in seen && AsksStatus(Ask(Init(procs), run, v), at.session))
            && (at.LookupFailed? ==> Missed(at.lookup) in seen)
  {
    RunSources(procs, run, v);
  }
}
