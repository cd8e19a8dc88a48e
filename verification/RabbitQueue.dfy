/** The consumer loops over the broker: poll, decode, hand over, acknowledge, and how they keep their connection. */
module RabbitQueue {
  import opened Common
  import opened LifeCycle

  datatype Conn = Conn(closed: bool)
  datatype Chan = Chan(closed: bool)

  /** What basic.get answers on an open channel. */
  datatype Poll<+T> = Lost | Empty | Delivered(message: Msg<T>)

  /** What the network and the broker do during one turn of a loop. */
  datatype Turn<+T> = Turn(
    dropsConnection: bool,
    dropsChannel: bool,
    dials: bool,
    opens: bool,
    poll: Poll<T>,
    acks: bool)

  /** The consumer: its connection, and what it did with the messages it took, in order. */
  datatype Loop<T> = Loop(
    conn: Option<Conn>,
    channel: Option<Chan>,
    taken: seq<Msg<T>>,
    handed: seq<T>,
    acked: seq<T>,
    nacked: seq<Msg<T>>)

  function Weather<T>(s: Loop<T>, t: Turn<T>): Loop<T> {
    s.(conn := if t.dropsConnection && s.conn.Some? then Some(Conn(true)) else s.conn,
       channel := if (t.dropsConnection || t.dropsChannel) && s.channel.Some? then Some(Chan(true)) else s.channel)
  }

  predicate LooksValid<T>(s: Loop<T>) {
    s.conn.Some? && !s.conn.value.closed && s.channel.Some?
  }

  /** The connection test: a closed channel on an open connection passes it. */
  function Reconnected<T>(s: Loop<T>, t: Turn<T>): Option<Loop<T>> {
    if LooksValid(s) then Some(s)
    else if t.dials && t.opens then Some(s.(conn := Some(Conn(false)), channel := Some(Chan(false))))
    else None
  }

  function Polled<T>(s: Loop<T>, t: Turn<T>): Poll<T>
    requires s.channel.Some?
  {
    if s.channel.value.closed then Lost else t.poll
  }

  function Dispose<T>(s: Loop<T>, m: Msg<T>, acks: bool): Loop<T> {
    match m
    case Good(body) =>
      s.(taken := s.taken + [m], handed := s.handed + [body], acked := if acks then s.acked + [body] else s.acked)
    case Poison(_) => s.(taken := s.taken + [m], nacked := s.nacked + [m])
  }

  /** One turn; `drops` says whether the loop throws its connection away after a failed poll. */
  function OneTurn<T>(s: Loop<T>, t: Turn<T>, drops: bool): Loop<T> {
    var s := Weather(s, t);
    match Reconnected(s, t)
    case None => s
    case Some(s) =>
      match Polled(s, t)
      case Lost => if drops then s.(conn := None, channel := None) else s
      case Empty => s
      case Delivered(m) => Dispose(s, m, t.acks)
  }

  function Turns<T>(s: Loop<T>, script: seq<Turn<T>>, drops: bool): Loop<T> {
    if script == [] then s else OneTurn(Turns(s, script[..|script| - 1], drops), script[|script| - 1], drops)
  }

  // ----- What a consumer does with what it takes

  function Bodies<T>(ms: seq<Msg<T>>): seq<T> {
    if ms == [] then []
    else if ms[|ms| - 1].Good? then Bodies(ms[..|ms| - 1]) + [ms[|ms| - 1].body]
    else Bodies(ms[..|ms| - 1])
  }

  function Undecodable<T>(ms: seq<Msg<T>>): seq<Msg<T>> {
    if ms == [] then []
    else if ms[|ms| - 1].Good? then Undecodable(ms[..|ms| - 1])
    else Undecodable(ms[..|ms| - 1]) + [ms[|ms| - 1]]
  }

  /** `short` is `long` with some elements left out. */
  ghost predicate Within<T>(short: seq<T>, long: seq<T>) {
    if long == [] then
      short == []
    else
      || Within(short, long[..|long| - 1])
      || (short != [] && short[|short| - 1] == long[|long| - 1] && Within(short[..|short| - 1], long[..|long| - 1]))
  }

  /** Each message taken is handed over once if it decodes and nacked otherwise; only what was handed over is acked. */
  ghost predicate Accounted<T>(s: Loop<T>) {
    s.handed == Bodies(s.taken) && s.nacked == Undecodable(s.taken) && Within(s.acked, s.handed)
  }

  lemma DisposeAccounts<T>(s: Loop<T>, m: Msg<T>, acks: bool)
    requires Accounted(s)
    ensures Accounted(Dispose(s, m, acks))
  {
    var s' := Dispose(s, m, acks);
    assert s'.taken[..|s.taken|] == s.taken;
    if m.Good? {
      assert s'.handed[..|s.handed|] == s.handed;
      assert acks ==> s'.acked[..|s.acked|] == s.acked;
    }
  }

  lemma {:induction false} TurnsAccount<T>(s: Loop<T>, script: seq<Turn<T>>, drops: bool)
    requires Accounted(s)
    ensures Accounted(Turns(s, script, drops))
  {
    if script != [] {
      var n := |script| - 1;
      TurnsAccount(s, script[..n], drops);
      var before := Weather(Turns(s, script[..n], drops), script[n]);
      match Reconnected(before, script[n])
      case None =>
      case Some(at) =>
        match Polled(at, script[n])
        case Delivered(m) => DisposeAccounts(at, m, script[n].acks);
        case _ =>
    }
  }

  // ----- Getting over a failed poll

  /** A closed channel under a connection that still looks open: every poll fails, and no reconnection is tried. */
  predicate Stuck<T>(s: Loop<T>) {
    LooksValid(s) && s.channel.value.closed
  }

  /** The loop that throws its connection away is never stuck: it takes what the next turn delivers. */
  lemma {:induction false} JobsLoopRecovers<T>(s: Loop<T>, script: seq<Turn<T>>, next: Turn<T>, m: Msg<T>)
    requires script != [] && next.dials && next.opens && !next.dropsChannel && next.poll == Delivered(m)
    ensures !Stuck(Turns(s, script, true))
    ensures Turns(s, script + [next], true).taken == Turns(s, script, true).taken + [m]
  {
    assert (script + [next])[..|script|] == script;
  }

  predicate IsOpen<T>(s: Loop<T>) {
    s.conn == Some(Conn(false)) && s.channel == Some(Chan(false))
  }

  /** The network leaves the loop alone and the broker answers, whether or not a dial would get through. */
  predicate Quiet<T>(t: Turn<T>) {
    !t.dropsConnection && !t.dropsChannel && !t.poll.Lost?
  }

  function Deliveries<T>(script: seq<Turn<T>>): seq<Msg<T>> {
    if script == [] then []
    else Deliveries(script[..|script| - 1])
         + match script[|script| - 1].poll case Delivered(m) => [m] case Lost => [] case Empty => []
  }

  /** An open loop that is left alone stays open without dialling, and takes every message delivered, in order. */
  lemma {:induction false} QuietLoopTakesAll<T>(s: Loop<T>, script: seq<Turn<T>>, drops: bool)
    requires IsOpen(s) && forall i :: 0 <= i < |script| ==> Quiet(script[i])
    ensures IsOpen(Turns(s, script, drops)) && Turns(s, script, drops).taken == s.taken + Deliveries(script)
  {
    if script != [] {
      assert forall i :: 0 <= i < |script| - 1 ==> script[..|script| - 1][i] == script[i];
      QuietLoopTakesAll(s, script[..|script| - 1], drops);
    }
  }

  predicate AnyDropsConnection<T>(script: seq<Turn<T>>) {
    exists i :: 0 <= i < |script| && script[i].dropsConnection
  }

  /** The loop that keeps its connection stays stuck as long as the connection lasts, whatever the broker has. */
  lemma {:induction false} ResultsLoopStaysStuck<T>(s: Loop<T>, script: seq<Turn<T>>)
    requires Stuck(s) && !AnyDropsConnection(script)
    ensures Turns(s, script, false) == s
  {
    if script != [] {
      var n := |script| - 1;
      assert forall i :: 0 <= i < n ==> script[..n][i] == script[i];
      ResultsLoopStaysStuck(s, script[..n]);
      assert !script[n].dropsConnection;
    }
  }

  /** The connection looks open after the script: it was, or was dialled, and none has gone since. */
  ghost predicate ConnectionUp<T>(start: Loop<T>, script: seq<Turn<T>>) {
    || (LooksValid(start) && !AnyDropsConnection(script))
    || exists i :: 0 <= i < |script| && DialLasts(script, i)
  }

  predicate DialLasts<T>(script: seq<Turn<T>>, i: nat)
    requires i < |script|
  {
    script[i].dials && script[i].opens && !AnyDropsConnection(script[i + 1..])
  }

  /** A channel was closed under an open connection, which has lasted since. */
  ghost predicate Unrelieved<T>(start: Loop<T>, script: seq<Turn<T>>) {
    || (Stuck(start) && !AnyDropsConnection(script))
    || exists i :: 0 <= i < |script| && ClosesUnder(start, script, i)
  }

  ghost predicate ClosesUnder<T>(start: Loop<T>, script: seq<Turn<T>>, i: nat)
    requires i < |script|
  {
    script[i].dropsChannel && ConnectionUp(start, script[..i]) && !AnyDropsConnection(script[i..])
  }

  lemma DropsSnoc<T>(script: seq<Turn<T>>, t: Turn<T>)
    ensures AnyDropsConnection(script + [t]) <==> AnyDropsConnection(script) || t.dropsConnection
  {
    var longer := script + [t];
    if AnyDropsConnection(script) {
      var i :| 0 <= i < |script| && script[i].dropsConnection;
      assert longer[i].dropsConnection;
    }
    if t.dropsConnection {
      assert longer[|script|].dropsConnection;
    }
  }

  lemma DialLastsSnoc<T>(script: seq<Turn<T>>, t: Turn<T>, i: nat)
    requires i <= |script|
    ensures DialLasts(script + [t], i)
       <==> if i == |script| then t.dials && t.opens else DialLasts(script, i) && !t.dropsConnection
  {
    if i < |script| {
      assert (script + [t])[i + 1..] == script[i + 1..] + [t];
      DropsSnoc(script[i + 1..], t);
    }
  }

  lemma UpSnoc<T>(start: Loop<T>, script: seq<Turn<T>>, t: Turn<T>)
    ensures ConnectionUp(start, script + [t])
       <==> (ConnectionUp(start, script) && !t.dropsConnection) || (t.dials && t.opens)
  {
    DropsSnoc(script, t);
    forall i | 0 <= i <= |script|
      ensures DialLasts(script + [t], i)
         <==> if i == |script| then t.dials && t.opens else DialLasts(script, i) && !t.dropsConnection
    {
      DialLastsSnoc(script, t, i);
    }
    DialLastsSnoc(script, t, |script|);
    if i :| 0 <= i < |script| && DialLasts(script, i) {
      DialLastsSnoc(script, t, i);
    }
  }

  lemma ClosesSnoc<T>(start: Loop<T>, script: seq<Turn<T>>, t: Turn<T>, i: nat)
    requires i <= |script|
    ensures ClosesUnder(start, script + [t], i)
       <==> !t.dropsConnection
            && if i == |script| then t.dropsChannel && ConnectionUp(start, script) else ClosesUnder(start, script, i)
  {
    assert (script + [t])[i..] == script[i..] + [t];
    assert (script + [t])[..i] == script[..i];
    DropsSnoc(script[i..], t);
    if i == |script| {
      assert script[..i] == script;
    }
  }

  lemma UnrelievedSnoc<T>(start: Loop<T>, script: seq<Turn<T>>, t: Turn<T>)
    ensures Unrelieved(start, script + [t])
       <==> !t.dropsConnection && ((t.dropsChannel && ConnectionUp(start, script)) || Unrelieved(start, script))
  {
    DropsSnoc(script, t);
    forall i | 0 <= i <= |script|
      ensures ClosesUnder(start, script + [t], i)
         <==> !t.dropsConnection
              && if i == |script| then t.dropsChannel && ConnectionUp(start, script) else ClosesUnder(start, script, i)
    {
      ClosesSnoc(start, script, t, i);
    }
    ClosesSnoc(start, script, t, |script|);
    if i :| 0 <= i < |script| && ClosesUnder(start, script, i) {
      ClosesSnoc(start, script, t, i);
    }
  }

  /**
   * From any start, whatever the network does: the loop is stuck exactly when a channel was closed under an open
   * connection that has lasted since.
   */
  lemma {:induction false} ResultsLoopStuckIff<T>(s: Loop<T>, script: seq<Turn<T>>)
    ensures LooksValid(Turns(s, script, false)) <==> ConnectionUp(s, script)
    ensures Stuck(Turns(s, script, false)) <==> Unrelieved(s, script)
  {
    if script != [] {
      var n := |script| - 1;
      assert script == script[..n] + [script[n]];
      ResultsLoopStuckIff(s, script[..n]);
      UpSnoc(s, script[..n], script[n]);
      UnrelievedSnoc(s, script[..n], script[n]);
    }
  }

  /** In a turn that drops nothing and could dial, the loop takes what is delivered exactly when it is not stuck. */
  lemma ResultsLoopTakesIff<T>(s: Loop<T>, script: seq<Turn<T>>, next: Turn<T>, m: Msg<T>)
    requires next.dials && next.opens && !next.dropsConnection && !next.dropsChannel && next.poll == Delivered(m)
    ensures Turns(s, script + [next], false).taken
         == Turns(s, script, false).taken + (if Unrelieved(s, script) then [] else [m])
  {
    assert (script + [next])[..|script|] == script;
    ResultsLoopStuckIff(s, script);
  }

  /** A loop that starts as the queue is created is stuck once a channel closes, until its connection goes. */
  lemma StartedLoopSticks<T>(s: Loop<T>, script: seq<Turn<T>>, i: nat)
    requires LooksValid(s) && i < |script| && script[i].dropsChannel && !AnyDropsConnection(script)
    ensures Stuck(Turns(s, script, false))
  {
    assert !AnyDropsConnection(script[..i]) && !AnyDropsConnection(script[i..]);
    assert ClosesUnder(s, script, i);
    ResultsLoopStuckIff(s, script);
  }

  // ----- A turn of the jobs loop as steps of the life cycle

  /** What a consumer does with a message it polls: reject it, or hand it over and acknowledge it if it can. */
  function TurnEvents(p: nat, w: nat, m: JobMsg, acks: bool): seq<Event> {
    [OfAgent(PollJob(p, m))]
    + if m.Poison? then [OfAgent(RejectJob(p))]
      else [OfAgent(HandJob(p, w))] + [OfAgent(if acks then AckJob(p) else LoseJobAck(p))]
  }

  /** A consumer and a worker of one agent, both idle. */
  predicate Ready(s: Sys, p: nat, w: nat) {
    && IsProc(s, p, Consumer) && IsProc(s, w, Worker) && s.procs[p].agent == s.procs[w].agent
    && s.procs[p].phase == Idle && s.procs[w].phase == Idle
  }

  function Bag(jobs: seq<AnalyzeJob>): multiset<JobMsg> {
    if jobs == [] then multiset{} else Bag(jobs[..|jobs| - 1]) + multiset{Good(jobs[|jobs| - 1])}
  }

  /** From s to s' the ledgers grow by what the loop went through from l to l', and the message is off the queue. */
  ghost predicate SameDeeds(s: Sys, s': Sys, l: Loop<AnalyzeJob>, l': Loop<AnalyzeJob>, m: JobMsg) {
    && s'.tasks == s.tasks - multiset{m}
    && s'.jobBook.handed + Bag(l.handed) == s.jobBook.handed + Bag(l'.handed)
    && s'.jobBook.acked + Bag(l.acked) == s.jobBook.acked + Bag(l'.acked)
    && s'.jobBook.dropped + multiset(l.nacked) == s.jobBook.dropped + multiset(l'.nacked)
    && l'.taken == l.taken + [m]
  }

  lemma BagSnoc(jobs: seq<AnalyzeJob>, j: AnalyzeJob)
    ensures Bag(jobs + [j]) == Bag(jobs) + multiset{Good(j)}
  {
    assert (jobs + [j])[..|jobs|] == jobs;
  }

  lemma PolledNext(s: Sys, p: nat, w: nat, m: JobMsg) returns (s': Sys)
    requires Ready(s, p, w) && m in s.tasks
    ensures Reaches(s, [OfAgent(PollJob(p, m))], s')
    ensures s' == s.(tasks := s.tasks - multiset{m}, tasksUnacked := s.tasksUnacked + multiset{m}, procs := s'.procs)
    ensures s'.procs == SetPhase(s.procs, p, if m.Good? then Offering(m.body) else Rejecting(m.raw))
  {
    var run: seq<Event>;
    run, s' := Then(s, [], s, OfAgent(PollJob(p, m)));
    assert [] + [OfAgent(PollJob(p, m))] == [OfAgent(PollJob(p, m))];
  }

  lemma RejectTurn(s: Sys, p: nat, w: nat, m: JobMsg, acks: bool, l: Loop<AnalyzeJob>) returns (s': Sys)
    requires Ready(s, p, w) && m in s.tasks && m.Poison?
    ensures Reaches(s, TurnEvents(p, w, m, acks), s') && SameDeeds(s, s', l, Dispose(l, m, acks), m)
    ensures IsProc(s', p, Consumer) && s'.procs[p].phase == Idle
  {
    var polled := PolledNext(s, p, w, m);
    var run: seq<Event>;
    run, s' := Then(s, [OfAgent(PollJob(p, m))], polled, OfAgent(RejectJob(p)));
    assert run == TurnEvents(p, w, m, acks);
  }

  lemma HandTurn(s: Sys, p: nat, w: nat, m: JobMsg) returns (run: seq<Event>, s': Sys)
    requires Ready(s, p, w) && m in s.tasks && m.Good?
    ensures run == [OfAgent(PollJob(p, m))] + [OfAgent(HandJob(p, w))] && Reaches(s, run, s')
    ensures s'.tasks == s.tasks - multiset{m} && m in s'.tasksUnacked
    ensures s'.jobBook == s.jobBook.(handed := s.jobBook.handed + multiset{m})
    ensures IsProc(s', p, Consumer) && s'.procs[p].phase == Acking(m.body)
    ensures IsProc(s', w, Worker) && s'.procs[w].phase == Received(m.body) && w != p
  {
    var polled := PolledNext(s, p, w, m);
    run, s' := Then(s, [OfAgent(PollJob(p, m))], polled, OfAgent(HandJob(p, w)));
  }

  lemma SettleTurn(s: Sys, p: nat, w: nat, j: AnalyzeJob, acks: bool) returns (s': Sys)
    requires IsProc(s, p, Consumer) && s.procs[p].phase == Acking(j) && Good(j) in s.tasksUnacked
    requires IsProc(s, w, Worker) && s.procs[w].phase == Received(j) && w != p
    ensures var e := OfAgent(if acks then AckJob(p) else LoseJobAck(p)); Enabled(s, e) && s' == Apply(s, e)
    ensures s'.tasks == s.tasks && IsProc(s', p, Consumer) && s'.procs[p].phase == Idle
    ensures IsProc(s', w, Worker) && s'.procs[w].phase == Received(j)
    ensures s'.jobBook == if acks then s.jobBook.(acked := s.jobBook.acked + multiset{Good(j)}) else s.jobBook
  {
    s' := Apply(s, OfAgent(if acks then AckJob(p) else LoseJobAck(p)));
  }

  lemma HandedDeeds(s: Sys, s': Sys, l: Loop<AnalyzeJob>, j: AnalyzeJob, acks: bool)
    requires s'.tasks == s.tasks - multiset{Good(j)}
    requires var book := s.jobBook.(handed := s.jobBook.handed + multiset{Good(j)});
             s'.jobBook == if acks then book.(acked := book.acked + multiset{Good(j)}) else book
    ensures SameDeeds(s, s', l, Dispose(l, Good(j), acks), Good(j))
  {
    BagSnoc(l.handed, j);
    BagSnoc(l.acked, j);
  }

  lemma AcceptTurn(s: Sys, p: nat, w: nat, m: JobMsg, acks: bool, l: Loop<AnalyzeJob>) returns (s': Sys)
    requires Ready(s, p, w) && m in s.tasks && m.Good?
    ensures Reaches(s, TurnEvents(p, w, m, acks), s') && SameDeeds(s, s', l, Dispose(l, m, acks), m)
    ensures IsProc(s', p, Consumer) && s'.procs[p].phase == Idle
    ensures IsProc(s', w, Worker) && s'.procs[w].phase == Received(m.body)
  {
    var run, handed := HandTurn(s, p, w, m);
    s' := SettleTurn(handed, p, w, m.body, acks);
    var run', last := Then(s, run, handed, OfAgent(if acks then AckJob(p) else LoseJobAck(p)));
    assert run' == TurnEvents(p, w, m, acks);
    HandedDeeds(s, s', l, m.body, acks);
  }

  lemma DeliveryIsARun(s: Sys, p: nat, w: nat, m: JobMsg, acks: bool, l: Loop<AnalyzeJob>) returns (s': Sys)
    requires Ready(s, p, w) && m in s.tasks
    ensures Reaches(s, TurnEvents(p, w, m, acks), s') && SameDeeds(s, s', l, Dispose(l, m, acks), m)
    ensures IsProc(s', p, Consumer) && s'.procs[p].phase == Idle
    ensures m.Good? ==> IsProc(s', w, Worker) && s'.procs[w].phase == Received(m.body)
  {
    if m.Poison? {
      s' := RejectTurn(s, p, w, m, acks, l);
    } else {
      s' := AcceptTurn(s, p, w, m, acks, l);
    }
  }

  /** The message a turn of the loop gets, if it gets one. */
  function Got<T>(l: Loop<T>, t: Turn<T>): Option<Msg<T>> {
    match Reconnected(Weather(l, t), t)
    case None => None
    case Some(at) => if Polled(at, t).Delivered? then Some(Polled(at, t).message) else None
  }

  ghost predicate SameRecord<T>(l: Loop<T>, l': Loop<T>) {
    l'.taken == l.taken && l'.handed == l.handed && l'.acked == l.acked && l'.nacked == l.nacked
  }

  /** Dropping and renewing the connection leaves no trace in what the loop did. */
  lemma TurnIsADisposal<T>(l: Loop<T>, t: Turn<T>)
    ensures match Got(l, t)
            case None => SameRecord(l, OneTurn(l, t, true))
            case Some(m) => SameRecord(Dispose(l, m, t.acks), OneTurn(l, t, true))
  {
  }

  /**
   * A turn of the jobs loop is a run of the step system: nothing happens when it gets no message, and otherwise the
   * message it gets leaves the queue, and the same jobs are handed over, acknowledged and dropped. The consumer is
   * idle again, and the worker has the job.
   */
  lemma TurnIsARun(s: Sys, p: nat, w: nat, l: Loop<AnalyzeJob>, t: Turn<AnalyzeJob>)
    returns (run: seq<Event>, s': Sys)
    requires Ready(s, p, w) && (Got(l, t).Some? ==> Got(l, t).value in s.tasks)
    ensures Reaches(s, run, s') && IsProc(s', p, Consumer) && s'.procs[p].phase == Idle
    ensures match Got(l, t)
            case None => run == [] && SameRecord(l, OneTurn(l, t, true))
            case Some(m) =>
              && run == TurnEvents(p, w, m, t.acks)
              && SameDeeds(s, s', l, OneTurn(l, t, true), m)
              && (m.Good? ==> IsProc(s', w, Worker) && s'.procs[w].phase == Received(m.body))
  {
    TurnIsADisposal(l, t);
    match Got(l, t)
    case None => run, s' := [], s;
    case Some(m) =>
      run := TurnEvents(p, w, m, t.acks);
      s' := DeliveryIsARun(s, p, w, m, t.acks, l);
  }

  // ----- The loops

  class RabbitMQQueue<T(==)> {
    var conn: Option<Conn>
    var channel: Option<Chan>
    var taken: seq<Msg<T>>
    var handed: seq<T>
    var acked: seq<T>
    var nacked: seq<Msg<T>>

    ghost function Data(): Loop<T>
      reads this
    {
      Loop(conn, channel, taken, handed, acked, nacked)
    }

    constructor ()
      ensures Data() == Loop(Some(Conn(false)), Some(Chan(false)), [], [], [], [])
    {
      conn, channel := Some(Conn(false)), Some(Chan(false));
      taken, handed, acked, nacked := [], [], [], [];
    }

    method Suffer(t: Turn<T>)
      modifies this
      ensures Data() == Weather(old(Data()), t)
    {
      if (t.dropsConnection || t.dropsChannel) && channel.Some? { channel := Some(Chan(true)); }
      if t.dropsConnection && conn.Some? { conn := Some(Conn(true)); }
    }

    method ReconnectIfNeeded(t: Turn<T>) returns (ok: bool)
      modifies this
      ensures ok <==> Reconnected(old(Data()), t).Some?
      ensures Data() == if ok then Reconnected(old(Data()), t).value else old(Data())
    {
      if conn.Some? && !conn.value.closed && channel.Some? { return true; }
      if !t.dials || !t.opens { return false; }
      conn := Some(Conn(false));
      channel := Some(Chan(false));
      return true;
    }

    method InvalidateConnection()
      modifies this
      ensures Data() == old(Data()).(conn := None, channel := None)
    {
      channel := None;
      conn := None;
    }

    /** The body of a poll that brought a message. */
    method Handle(m: Msg<T>, acks: bool)
      modifies this
      ensures Data() == Dispose(old(Data()), m, acks)
    {
      taken := taken + [m];
      if m.Poison? {
        nacked := nacked + [m];
        return;
      }
      handed := handed + [m.body];
      if acks { acked := acked + [m.body]; }
    }

    method ConsumeJobs(script: seq<Turn<T>>)
      modifies this
      ensures Data() == Turns(old(Data()), script, true)
    {
      for i := 0 to |script|
        invariant Data() == Turns(old(Data()), script[..i], true)
      {
        assert script[..i + 1][..i] == script[..i];
        var t := script[i];
        Suffer(t);
        var ok := ReconnectIfNeeded(t);
        if !ok { continue; }
        if channel.value.closed || t.poll.Lost? {
          InvalidateConnection();
          continue;
        }
        if t.poll.Empty? { continue; }
        Handle(t.poll.message, t.acks);
      }
      assert script[..|script|] == script;
    }

    method ConsumeResults(script: seq<Turn<T>>)
      modifies this
      ensures Data() == Turns(old(Data()), script, false)
    {
      for i := 0 to |script|
        invariant Data() == Turns(old(Data()), script[..i], false)
      {
        assert script[..i + 1][..i] == script[..i];
        var t := script[i];
        Suffer(t);
        var ok := ReconnectIfNeeded(t);
        if !ok { continue; }
        if channel.value.closed || !t.poll.Delivered? { continue; }
        Handle(t.poll.message, t.acks);
      }
      assert script[..|script|] == script;
    }
  }
}
