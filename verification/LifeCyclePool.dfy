/**
 * The server's pool of database connections. Adding a job holds one connection and waits for a second, so the pool
 * can be exhausted by handlers that wait for each other, and then for good.
 */
module LifeCyclePool {
  import opened Common
  import opened PGState
  import opened LifeCycle
  import opened Sums

  /** A handler that holds a connection and waits for another. */
  function Blocked(hd: Handler): nat {
    if hd.Submitting? && hd.mark == ToNumber then 1 else 0
  }

  ghost function Waiters(s: Sys): nat {
    Sum(s.handlers, Blocked)
  }

  /** Every connection is held by a handler that waits for one more. */
  ghost predicate Exhausted(s: Sys) {
    Waiters(s) >= MAX_CONNS
  }

  lemma {:induction false} BlockedHold(handlers: seq<Handler>)
    ensures Sum(handlers, Blocked) <= Sum(handlers, Connections)
  {
    if handlers != [] {
      BlockedHold(handlers[..|handlers| - 1]);
    }
  }

  lemma WaitersHold(s: Sys)
    ensures Waiters(s) <= InUse(s)
    ensures Exhausted(s) ==> !Free(s)
  {
    BlockedHold(s.handlers);
  }

  /** Where fewer wait than hold, some handler is about to commit. */
  lemma {:induction false} SomeCommits(handlers: seq<Handler>) returns (h: nat)
    requires Sum(handlers, Blocked) < Sum(handlers, Connections)
    ensures h < |handlers| && handlers[h].Submitting? && handlers[h].mark == ToList
  {
    var n := |handlers| - 1;
    if handlers[n].Submitting? && handlers[n].mark == ToList {
      h := n;
    } else {
      h := SomeCommits(handlers[..n]);
    }
  }

  lemma {:induction false} SomeWaits(handlers: seq<Handler>) returns (h: nat)
    requires Sum(handlers, Blocked) > 0
    ensures h < |handlers| && handlers[h].Submitting? && handlers[h].mark == ToNumber
  {
    var n := |handlers| - 1;
    if handlers[n].Submitting? && handlers[n].mark == ToNumber {
      h := n;
    } else {
      h := SomeWaits(handlers[..n]);
    }
  }

  // ----- What one step does to the pool

  /** The handler a step moves, if any. */
  function Moved(e: ServerEvent): Option<nat> {
    match e
    case ReadRequest(h, _, _, _) => Some(h)
    case RefuseRequest(h) => Some(h)
    case SendJob(h) => Some(h)
    case MarkPending(h) => Some(h)
    case OpenJob(h) => Some(h)
    case NumberJob(h) => Some(h)
    case ListJob(h) => Some(h)
    case BeginAnswer(h) => Some(h)
    case ReadJobList(h, _, _) => Some(h)
    case SetInfo(h) => Some(h)
    case Answer(h) => Some(h)
    case _ => None
  }

  lemma RequestMoves(s: Sys, e: ServerEvent, h: nat)
    requires ServerEnabled(s, e) && !TouchesResults(e) && Moved(e) == Some(h)
    ensures h < |s.handlers| && |ServerApply(s, e).handlers| == |s.handlers|
    ensures ServerApply(s, e).handlers == s.handlers[h := ServerApply(s, e).handlers[h]]
  {
  }

  lemma OthersMoveNone(s: Sys, e: ServerEvent)
    requires ServerEnabled(s, e) && Moved(e).None? && !e.NewRequest?
    ensures ServerApply(s, e).handlers == s.handlers
  {
  }

  /** How a handler's connections and waiting may change with its own step. */
  predicate CountsFit(e: ServerEvent, hd: Handler, hd': Handler) {
    && (Connections(hd') > Connections(hd) ==> e.OpenJob?)
    && (Blocked(hd') < Blocked(hd) ==> e.NumberJob?)
    && (Blocked(hd') > Blocked(hd) ==> e.OpenJob?)
  }

  lemma MovedCounts(s: Sys, e: ServerEvent, h: nat)
    requires ServerEnabled(s, e) && !TouchesResults(e) && Moved(e) == Some(h)
    ensures h < |s.handlers| && h < |ServerApply(s, e).handlers|
    ensures CountsFit(e, s.handlers[h], ServerApply(s, e).handlers[h])
  {
  }

  lemma ServerPool(s: Sys, e: ServerEvent)
    requires ServerEnabled(s, e) && InUse(s) <= MAX_CONNS
    ensures InUse(ServerApply(s, e)) <= MAX_CONNS
    ensures !e.NumberJob? ==> Waiters(ServerApply(s, e)) >= Waiters(s)
    ensures !e.OpenJob? ==> Waiters(ServerApply(s, e)) <= Waiters(s)
    ensures e.OpenJob? ==> Waiters(ServerApply(s, e)) <= Waiters(s) + 1
  {
    var s' := ServerApply(s, e);
    if e.NewRequest? {
      SumSnoc(s.handlers, Reading, Connections);
      SumSnoc(s.handlers, Reading, Blocked);
    } else if Moved(e).None? {
      OthersMoveNone(s, e);
    } else {
      var h := Moved(e).value;
      RequestMoves(s, e, h);
      MovedCounts(s, e, h);
      SumSet(s.handlers, h, s'.handlers[h], Connections);
      SumSet(s.handlers, h, s'.handlers[h], Blocked);
    }
  }

  lemma StepPool(s: Sys, e: Event)
    requires Enabled(s, e) && InUse(s) <= MAX_CONNS
    ensures InUse(Apply(s, e)) <= MAX_CONNS
    ensures !(e.OfServer? && e.se.NumberJob?) ==> Waiters(Apply(s, e)) >= Waiters(s)
    ensures Waiters(Apply(s, e)) <= Waiters(s) + (if e.OfServer? && e.se.OpenJob? then 1 else 0)
  {
    if e.OfServer? {
      ServerPool(s, e.se);
    }
  }

  /** No more connections are ever in use than there are. */
  lemma {:induction false} RunPool(procs: seq<Proc>, run: seq<Event>)
    requires Valid(Init(procs), run)
    ensures InUse(After(Init(procs), run)) <= MAX_CONNS
  {
    if run != [] {
      RunPool(procs, run[..|run| - 1]);
      StepPool(After(Init(procs), run[..|run| - 1]), run[|run| - 1]);
    }
  }

  // ----- An exhausted pool stays exhausted

  /** What no step can change while the pool is exhausted. */
  ghost predicate Frozen(t: Tables, t': Tables) {
    t' == t.(status := t'.status)
  }

  /** Where as many wait as hold, nobody is about to commit. */
  lemma {:induction false} NoneCommits(handlers: seq<Handler>, h: nat)
    requires Sum(handlers, Blocked) >= Sum(handlers, Connections) && h < |handlers|
    ensures !(handlers[h].Submitting? && handlers[h].mark == ToList)
  {
    var n := |handlers| - 1;
    BlockedHold(handlers[..n]);
    if h < n {
      NoneCommits(handlers[..n], h);
    }
  }

  lemma ExhaustedServerFreezes(s: Sys, e: ServerEvent)
    requires ServerEnabled(s, e) && Exhausted(s) && InUse(s) <= MAX_CONNS
    ensures ServerApply(s, e).db == s.db
  {
    WaitersHold(s);
    if e.ListJob? {
      NoneCommits(s.handlers, e.h);
    }
  }

  lemma AgentFreezes(s: Sys, e: AgentEvent)
    requires AgentEnabled(s, e)
    ensures Frozen(s.db, AgentApply(s, e).db)
  {
  }

  lemma ExhaustedFreezes(s: Sys, e: Event)
    requires Enabled(s, e) && Exhausted(s) && InUse(s) <= MAX_CONNS
    ensures Frozen(s.db, Apply(s, e).db)
  {
    WaitersHold(s);
    match e
    case OfServer(x) => ExhaustedServerFreezes(s, x);
    case OfAgent(x) => AgentFreezes(s, x);
    case _ =>
  }

  lemma ExhaustedStays(s: Sys, e: Event)
    requires Enabled(s, e) && Exhausted(s) && InUse(s) <= MAX_CONNS
    ensures Exhausted(Apply(s, e))
  {
    WaitersHold(s);
    StepPool(s, e);
  }

  /** Whatever happens next, the pool stays exhausted, and the tables but for the agents' statuses stay as they are. */
  lemma {:induction false} ExhaustedForever(s: Sys, run: seq<Event>)
    requires Exhausted(s) && InUse(s) <= MAX_CONNS && Valid(s, run)
    ensures Exhausted(After(s, run)) && InUse(After(s, run)) <= MAX_CONNS && Frozen(s.db, After(s, run).db)
  {
    if run != [] {
      var before := After(s, run[..|run| - 1]);
      ExhaustedForever(s, run[..|run| - 1]);
      ExhaustedFreezes(before, run[|run| - 1]);
      StepPool(before, run[|run| - 1]);
      ExhaustedStays(before, run[|run| - 1]);
    }
  }
}
