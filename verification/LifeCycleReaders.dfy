/** Requests in the middle of their lookups: how many looks they take to their end, and exactly when they get there. */
module LifeCycleReaders {
  import opened Common
  import opened PGState
  import opened LifeCycle
  import opened LifeCycleSafety
  import opened LifeCyclePool
  import opened LifeCycleProgress
  import T = LifeCycleTheorems
  import opened Sums

  predicate ListsAhead(at: Reader) {
    at.ListFirst? || at.FetchInfo? || at.ListAgain?
  }

  /** The looks a request still has ahead of it at most, if the list it reads has no more than n jobs. */
  function LooksLeft(at: Reader, n: nat): int {
    match at
    case ListFirst(_) => 4 + 4 * n
    case FetchInfo(_, _) => 3 + 4 * n
    case ListAgain(_) => 2 + 4 * n
    case FetchStatus(_, todo, _) => 4 * |todo| + 1
    case FetchResult(_, todo, _) => 4 * |todo|
    case FetchSize(_, todo, _, _) => 4 * |todo| - 1
    case FetchRepoId(_, todo, _, _, _, _) => 4 * |todo| - 2
    case FetchSummary(_, _) => 1
    case FindSpec(_, _) => 4
    case DownStatus(_) => 3
    case DownResult(_) => 2
    case DownData(_, _) => 1
    case StatusDone(_, _, _) => 0
    case EmptyDone(_) => 0
    case DownDone(_, _) => 0
    case LookupFailed(_) => 0
  }

  ghost predicate Fits(s: Sys, at: Reader, n: nat) {
    ListsAhead(at) ==> |Rows(s.db, at.session)| <= n
  }

  /** A request that has its list ahead of it is about the session it was about before. */
  predicate SameSession(at: Reader, next: Reader) {
    ListsAhead(next) ==> ListsAhead(at) && next.session == at.session
  }

  ghost predicate CanLook(s: Sys, at: Reader, listing: seq<JobSpec>) {
    && !Finished(at) && (Visits(at) ==> at.todo != [])
    && (Lists(at) ==> Enumerates(listing, Rows(s.db, at.session)))
  }

  lemma ListingFixesLooks(s: Sys, at: Reader, listing: seq<JobSpec>, n: nat)
    requires at.ListAgain? && CanLook(s, at, listing) && Fits(s, at, n)
    ensures LooksLeft(NextLook(s, at, listing), n) < LooksLeft(at, n)
    ensures !ListsAhead(NextLook(s, at, listing))
  {
    DistinctSize(listing);
    assert (set js | js in listing) == Rows(s.db, at.session);
  }

  lemma LookDescends(s: Sys, at: Reader, listing: seq<JobSpec>, n: nat)
    requires CanLook(s, at, listing) && Fits(s, at, n)
    ensures LooksLeft(NextLook(s, at, listing), n) < LooksLeft(at, n)
    ensures SameSession(at, NextLook(s, at, listing))
  {
    if at.ListAgain? {
      ListingFixesLooks(s, at, listing, n);
    }
  }

  // ----- How many looks a request takes

  predicate IsLook(e: Event, v: nat) {
    e.OfReader? && e.re.Look? && e.re.v == v
  }

  function Looks(run: seq<Event>, v: nat): nat {
    if run == [] then 0 else Looks(run[..|run| - 1], v) + (if IsLook(run[|run| - 1], v) then 1 else 0)
  }

  lemma RowsGrow(s: Sys, e: Event, session: int)
    requires Enabled(s, e) && Inv(s)
    ensures |Rows(s.db, session)| <= |Rows(Apply(s, e).db, session)|
  {
    StepKeeps(s, e);
    SubsetSize(Rows(s.db, session), Rows(Apply(s, e).db, session));
  }

  ghost predicate Spends(s: Sys, s': Sys, v: nat, looks: nat, n: nat) {
    && v < |s.visits| && v < |s'.visits|
    && looks + LooksLeft(s'.visits[v].at, n) <= LooksLeft(s.visits[v].at, n)
    && SameSession(s.visits[v].at, s'.visits[v].at)
    && s'.visits[v].promised == s.visits[v].promised
  }

  lemma LookSpends(s: Sys, e: ReaderEvent, v: nat, n: nat)
    requires ReaderEnabled(s, e) && v < |s.visits| && Fits(s, s.visits[v].at, n)
    ensures Spends(s, ReaderApply(s, e), v, if IsLook(OfReader(e), v) then 1 else 0, n)
  {
    if e.Look? && e.v == v {
      LookDescends(s, s.visits[v].at, e.listing, n);
    }
  }

  lemma StepSpends(s: Sys, e: Event, v: nat, n: nat)
    requires Enabled(s, e) && v < |s.visits| && Fits(s, s.visits[v].at, n)
    ensures Spends(s, Apply(s, e), v, if IsLook(e, v) then 1 else 0, n)
  {
    match e
    case OfServer(x) => T.ServerKeepsVisits(s, x);
    case OfAgent(x) => T.AgentKeepsVisits(s, x);
    case OfReader(x) => LookSpends(s, x, v, n);
    case OfBroker(_) =>
  }

  lemma {:induction false} RunSpends(s: Sys, run: seq<Event>, v: nat, n: nat)
    requires Inv(s) && Valid(s, run) && v < |s.visits| && Fits(After(s, run), s.visits[v].at, n)
    ensures Inv(After(s, run)) && Spends(s, After(s, run), v, Looks(run, v), n)
  {
    if run != [] {
      var before, last := run[..|run| - 1], run[|run| - 1];
      RunInv(s, before);
      if ListsAhead(s.visits[v].at) {
        RowsGrow(After(s, before), last, s.visits[v].at.session);
      }
      RunSpends(s, before, v, n);
      StepSpends(After(s, before), last, v, n);
      StepKeeps(After(s, before), last);
    }
  }

  lemma {:induction false} RunInv(s: Sys, run: seq<Event>)
    requires Inv(s) && Valid(s, run)
    ensures Inv(After(s, run))
  {
    if run != [] {
      RunInv(s, run[..|run| - 1]);
      StepKeeps(After(s, run[..|run| - 1]), run[|run| - 1]);
    }
  }

  lemma LeftIsNatural(s: Sys, v: nat, n: nat)
    requires Inv(s) && v < |s.visits|
    ensures LooksLeft(s.visits[v].at, n) >= 0
    ensures LooksLeft(s.visits[v].at, n) == 0 <==> Finished(s.visits[v].at)
  {
    assert VisitOk(s, s.visits[v]);
  }

  /**
   * Whatever comes between its looks, a request takes no more of them than it has ahead of it for the jobs its
   * session lists: from the start four, and for a status request four more for each of these jobs.
   */
  lemma LooksBounded(procs: seq<Proc>, past: seq<Event>, run: seq<Event>, v: nat, n: nat)
    requires AllIdle(procs) && Valid(Init(procs), past) && Valid(After(Init(procs), past), run)
    requires v < |After(Init(procs), past).visits|
    requires Fits(After(After(Init(procs), past), run), After(Init(procs), past).visits[v].at, n)
    ensures Looks(run, v) <= LooksLeft(After(Init(procs), past).visits[v].at, n)
  {
    var s := After(Init(procs), past);
    RunKeeps(procs, past);
    RunSpends(s, run, v, n);
    LeftIsNatural(After(s, run), v, n);
  }

  // ----- Getting to the end

  lemma NextListing(s: Sys, v: nat) returns (listing: seq<JobSpec>)
    requires Inv(s) && v < |s.visits| && !Finished(s.visits[v].at) && (ReadsTables(s.visits[v].at) ==> Free(s))
    ensures CanLook(s, s.visits[v].at, listing) && Enabled(s, OfReader(Look(v, listing)))
  {
    assert VisitOk(s, s.visits[v]);
    if Lists(s.visits[v].at) {
      listing := ListingExists(Rows(s.db, s.visits[v].at.session));
    } else {
      listing := [];
    }
  }

  /** A look leaves the pool and the job lists as they are. */
  lemma LookBeside(s: Sys, v: nat, listing: seq<JobSpec>)
    requires ReaderEnabled(s, Look(v, listing))
    ensures var s' := ReaderApply(s, Look(v, listing)); s'.handlers == s.handlers && s'.db.jobs == s.db.jobs
  {
  }

  ghost predicate Ended(s: Sys, run: seq<Event>, v: nat) {
    Valid(s, run) && v < |After(s, run).visits| && Finished(After(s, run).visits[v].at)
  }

  lemma OneLook(s: Sys, v: nat, n: nat) returns (e: Event, s': Sys)
    requires Inv(s) && v < |s.visits| && !Finished(s.visits[v].at) && (ReadsTables(s.visits[v].at) ==> Free(s))
    requires Fits(s, s.visits[v].at, n)
    ensures IsLook(e, v) && Enabled(s, e) && s' == Apply(s, e) && Inv(s')
    ensures Spends(s, s', v, 1, n) && Fits(s', s'.visits[v].at, n) && (Free(s') <==> Free(s))
  {
    var listing := NextListing(s, v);
    e := OfReader(Look(v, listing));
    s' := Apply(s, e);
    StepKeeps(s, e);
    StepSpends(s, e, v, n);
    LookBeside(s, v, listing);
    assert forall session :: Rows(s'.db, session) == Rows(s.db, session);
  }

  lemma {:induction false} LooksPrepend(e: Event, run: seq<Event>, v: nat)
    requires IsLook(e, v)
    ensures Looks([e] + run, v) == Looks(run, v) + 1
  {
    if run == [] {
      assert ([e] + run)[..0] == [];
    } else {
      assert ([e] + run)[..|run|] == [e] + run[..|run| - 1];
      LooksPrepend(e, run[..|run| - 1], v);
    }
  }

  /** With a connection free, a request alone gets to its end; a promised one with an answer. */
  lemma {:induction false} LooksToEnd(s: Sys, v: nat, n: nat) returns (run: seq<Event>)
    requires Inv(s) && Free(s) && v < |s.visits| && Fits(s, s.visits[v].at, n)
    ensures Ended(s, run, v) && Looks(run, v) == |run| <= LooksLeft(s.visits[v].at, n)
    ensures s.visits[v].promised ==> !After(s, run).visits[v].at.LookupFailed?
    decreases LooksLeft(s.visits[v].at, n)
  {
    if Finished(s.visits[v].at) {
      run := [];
      LeftIsNatural(s, v, n);
      assert VisitOk(s, s.visits[v]);
    } else {
      LeftIsNatural(s, v, n);
      var e, s' := OneLook(s, v, n);
      var rest := LooksToEnd(s', v, n);
      Prepend(s, e, rest);
      LooksPrepend(e, rest, v);
      run := [e] + rest;
    }
  }

  lemma CommitFrees(s: Sys, h: nat)
    requires AtMark(s, h, ToList)
    ensures InUse(ServerApply(s, ListJob(h))) == InUse(s) - 1
  {
    SumSet(s.handlers, h, s.handlers[h].(at := s.handlers[h].at + 1, mark := ToSend), Connections);
  }

  lemma SomeoneCommits(s: Sys) returns (h: nat)
    requires Listed(s) && !Exhausted(s) && !Free(s)
    ensures AtMark(s, h, ToList)
  {
    h := SomeCommits(s.handlers);
    assert HandlerOk(s, h);
  }

  /** Unless the pool has run dry, a connection is free, or is after the next commit. */
  lemma FreeSoon(s: Sys) returns (run: seq<Event>, s': Sys)
    requires Inv(s) && InUse(s) <= MAX_CONNS && !Exhausted(s)
    ensures Reaches(s, run, s') && Inv(s') && Free(s') && s'.visits == s.visits
  {
    if Free(s) {
      run, s' := [], s;
    } else {
      var h := SomeoneCommits(s);
      CommitFrees(s, h);
      T.ServerKeepsVisits(s, ListJob(h));
      StepKeeps(s, OfServer(ListJob(h)));
      run, s' := Then(s, [], s, OfServer(ListJob(h)));
    }
  }

  /** A request that needs a connection before its end. */
  predicate NeedsTables(at: Reader) {
    !Finished(at) && !at.DownData?
  }

  lemma ExhaustedStalls(s: Sys, e: Event, v: nat)
    requires Inv(s) && Enabled(s, e) && Exhausted(s) && v < |s.visits| && NeedsTables(s.visits[v].at)
    ensures v < |Apply(s, e).visits| && NeedsTables(Apply(s, e).visits[v].at)
  {
    WaitersHold(s);
    assert VisitOk(s, s.visits[v]);
    match e
    case OfServer(x) => T.ServerKeepsVisits(s, x);
    case OfAgent(x) => T.AgentKeepsVisits(s, x);
    case OfReader(_) =>
    case OfBroker(_) =>
  }

  lemma {:induction false} ExhaustedNeverEnds(s: Sys, run: seq<Event>, v: nat)
    requires Inv(s) && Exhausted(s) && InUse(s) <= MAX_CONNS && Valid(s, run)
    requires v < |s.visits| && NeedsTables(s.visits[v].at)
    ensures v < |After(s, run).visits| && NeedsTables(After(s, run).visits[v].at)
  {
    if run != [] {
      var before, last := run[..|run| - 1], run[|run| - 1];
      ExhaustedNeverEnds(s, before, v);
      ExhaustedForever(s, before);
      RunInv(s, before);
      ExhaustedStalls(After(s, before), last, v);
    }
  }

  ghost predicate CanEnd(s: Sys, v: nat) {
    exists run :: Ended(s, run, v)
  }

  lemma EndedBy(s: Sys, e: Event, v: nat)
    requires Enabled(s, e) && v < |Apply(s, e).visits| && Finished(Apply(s, e).visits[v].at)
    ensures CanEnd(s, v)
  {
    var run, s' := Then(s, [], s, e);
    assert Ended(s, run, v);
  }

  lemma DataReachable(s: Sys, v: nat)
    requires Inv(s) && v < |s.visits| && s.visits[v].at.DownData?
    ensures CanEnd(s, v)
  {
    EndedBy(s, OfReader(Look(v, [])), v);
  }

  lemma EndReachable(s: Sys, v: nat)
    requires Inv(s) && InUse(s) <= MAX_CONNS && v < |s.visits| && !Exhausted(s)
    ensures CanEnd(s, v)
  {
    var first, s' := FreeSoon(s);
    var n := if ListsAhead(s.visits[v].at) then |Rows(s'.db, s.visits[v].at.session)| else 0;
    var rest := LooksToEnd(s', v, n);
    Append(s, first, s', rest);
    assert Ended(s, first + rest, v);
  }

  /**
   * A request can be brought to its end exactly while the pool has not run dry, or when all it has left to do is to
   * read the data of a download, which takes no connection.
   */
  lemma CanEndIff(procs: seq<Proc>, run: seq<Event>, v: nat)
    requires AllIdle(procs) && Valid(Init(procs), run) && v < |After(Init(procs), run).visits|
    ensures var s := After(Init(procs), run);
            CanEnd(s, v) <==> !Exhausted(s) || Finished(s.visits[v].at) || s.visits[v].at.DownData?
  {
    var s := After(Init(procs), run);
    RunKeeps(procs, run);
    RunPool(procs, run);
    if !Exhausted(s) {
      EndReachable(s, v);
    } else if Finished(s.visits[v].at) {
      assert Ended(s, [], v);
    } else if s.visits[v].at.DownData? {
      DataReachable(s, v);
    } else if CanEnd(s, v) {
      var rest :| Ended(s, rest, v);
      ExhaustedNeverEnds(s, rest, v);
    }
  }

  /** In a reachable state with a connection free, a promised request gets its answer by its own looks alone. */
  lemma PromisedIsAnswered(procs: seq<Proc>, past: seq<Event>, v: nat, n: nat) returns (run: seq<Event>)
    requires AllIdle(procs) && Valid(Init(procs), past)
    requires var s := After(Init(procs), past);
             Free(s) && v < |s.visits| && s.visits[v].promised && Fits(s, s.visits[v].at, n)
    ensures var s := After(Init(procs), past);
            && Ended(s, run, v) && !After(s, run).visits[v].at.LookupFailed?
            && Looks(run, v) == |run| <= LooksLeft(s.visits[v].at, n)
  {
    RunKeeps(procs, past);
    run := LooksToEnd(After(Init(procs), past), v, n);
  }
}
