/** Goroutines never change their agent or their job description, and only do what it says. */
module LifeCycleStaff {
  import opened LifeCycle

  predicate KindOk(p: Proc) {
    match p.phase
    case Idle => true
    case Dead => true
    case Offering(_) => p.kind == Consumer
    case Rejecting(_) => p.kind == Consumer
    case Acking(_) => p.kind == Consumer
    case Received(_) => p.kind == Worker
    case Analysing(_) => p.kind == Worker
    case Sending(_) => p.kind == Worker
    case Publishing(_) => p.kind == Publisher
  }

  ghost predicate KindsOk(procs: seq<Proc>) {
    forall p :: 0 <= p < |procs| ==> KindOk(procs[p])
  }

  ghost predicate SameStaff(procs: seq<Proc>, procs': seq<Proc>) {
    && |procs'| == |procs|
    && forall p :: 0 <= p < |procs| ==> procs'[p].kind == procs[p].kind && procs'[p].agent == procs[p].agent
  }

  /** The agent of the goroutine has one of this kind. */
  ghost predicate Has(procs: seq<Proc>, agent: nat, kind: Kind) {
    exists p :: 0 <= p < |procs| && procs[p].agent == agent && procs[p].kind == kind
  }

  /** There is an agent, and each agent has its consumer, at least one worker, and its publisher. */
  ghost predicate Staffed(procs: seq<Proc>) {
    && procs != []
    && forall p :: 0 <= p < |procs| ==>
         && Has(procs, procs[p].agent, Consumer)
         && Has(procs, procs[p].agent, Worker)
         && Has(procs, procs[p].agent, Publisher)
  }

  lemma SetKeepsStaff(procs: seq<Proc>, p: nat, phase: Phase)
    requires p < |procs| && KindsOk(procs) && KindOk(procs[p].(phase := phase))
    ensures KindsOk(SetPhase(procs, p, phase)) && SameStaff(procs, SetPhase(procs, p, phase))
  {
  }

  lemma PairKeepsStaff(s: Sys, e: AgentEvent)
    requires e.HandJob? || e.SendResult?
    requires AgentEnabled(s, e) && KindsOk(s.procs)
    ensures KindsOk(AgentApply(s, e).procs) && SameStaff(s.procs, AgentApply(s, e).procs)
  {
    if e.HandJob? {
      var job := s.procs[e.p].phase.job;
      SetKeepsStaff(s.procs, e.p, Acking(job));
      SetKeepsStaff(SetPhase(s.procs, e.p, Acking(job)), e.w, Received(job));
    } else {
      SetKeepsStaff(s.procs, e.w, Idle);
      SetKeepsStaff(SetPhase(s.procs, e.w, Idle), e.q, Publishing(s.procs[e.w].phase.result));
    }
  }

  lemma ConsumerKeepsStaff(s: Sys, e: AgentEvent)
    requires e.PollJob? || e.RejectJob? || e.AckJob? || e.LoseJobAck? || e.Die? || e.Restart?
    requires AgentEnabled(s, e) && KindsOk(s.procs)
    ensures KindsOk(AgentApply(s, e).procs) && SameStaff(s.procs, AgentApply(s, e).procs)
  {
    SetKeepsStaff(s.procs, e.p, AgentApply(s, e).procs[e.p].phase);
  }

  lemma WorkerKeepsStaff(s: Sys, e: AgentEvent)
    requires e.Begin? || e.Fail? || e.Save? || e.PublishResult? || e.LosePublish?
    requires AgentEnabled(s, e) && KindsOk(s.procs)
    ensures KindsOk(AgentApply(s, e).procs) && SameStaff(s.procs, AgentApply(s, e).procs)
  {
    var p := if e.PublishResult? || e.LosePublish? then e.q else e.w;
    SetKeepsStaff(s.procs, p, AgentApply(s, e).procs[p].phase);
  }

  lemma AgentKeepsStaff(s: Sys, e: AgentEvent)
    requires AgentEnabled(s, e) && KindsOk(s.procs)
    ensures KindsOk(AgentApply(s, e).procs) && SameStaff(s.procs, AgentApply(s, e).procs)
  {
    if e.HandJob? || e.SendResult? {
      PairKeepsStaff(s, e);
    } else if e.Begin? || e.Fail? || e.Save? || e.PublishResult? || e.LosePublish? {
      WorkerKeepsStaff(s, e);
    } else {
      ConsumerKeepsStaff(s, e);
    }
  }

  lemma StepKeepsStaff(s: Sys, e: Event)
    requires Enabled(s, e) && KindsOk(s.procs)
    ensures KindsOk(Apply(s, e).procs) && SameStaff(s.procs, Apply(s, e).procs)
  {
    if e.OfAgent? {
      AgentKeepsStaff(s, e.ae);
    }
  }

  lemma HasStays(procs: seq<Proc>, procs': seq<Proc>, agent: nat, kind: Kind)
    requires SameStaff(procs, procs') && Has(procs, agent, kind)
    ensures Has(procs', agent, kind)
  {
    var p :| 0 <= p < |procs| && procs[p].agent == agent && procs[p].kind == kind;
    assert procs'[p].agent == agent && procs'[p].kind == kind;
  }

  lemma StaffedStays(procs: seq<Proc>, procs': seq<Proc>)
    requires SameStaff(procs, procs') && Staffed(procs)
    ensures Staffed(procs')
  {
    forall p | 0 <= p < |procs'|
      ensures Has(procs', procs'[p].agent, Consumer) && Has(procs', procs'[p].agent, Worker)
           && Has(procs', procs'[p].agent, Publisher)
    {
      HasStays(procs, procs', procs[p].agent, Consumer);
      HasStays(procs, procs', procs[p].agent, Worker);
      HasStays(procs, procs', procs[p].agent, Publisher);
    }
  }

  lemma {:induction false} RunKeepsStaff(procs: seq<Proc>, run: seq<Event>)
    requires AllIdle(procs) && Valid(Init(procs), run)
    ensures KindsOk(After(Init(procs), run).procs) && SameStaff(procs, After(Init(procs), run).procs)
    ensures Staffed(procs) ==> Staffed(After(Init(procs), run).procs)
  {
    if run != [] {
      RunKeepsStaff(procs, run[..|run| - 1]);
      StepKeepsStaff(After(Init(procs), run[..|run| - 1]), run[|run| - 1]);
    }
    if Staffed(procs) {
      StaffedStays(procs, After(Init(procs), run).procs);
    }
  }
}
