/** One runnable slot: who may run, when a new task is activated, and what a settled gate does. */
module RunnableSlot {
  import opened Prelude
  import opened EventStream
  import opened EventStreamInvariants
  import opened Dispatcher
  import opened DispatcherInvariants
  import opened Repair
  import opened CrashConvergence

  /** At any point of any run at most one ACTIVE task of the current revision has no gate history. */
  lemma {:induction false} SingleRunnableSlot(steps: seq<Step>, t: Id, u: Id)
    requires Running(Run(EMPTY, steps), t) && Running(Run(EMPTY, steps), u)
    ensures t == u
  {
    RunConsistent(steps);
    HistoryIsAnyGate(Run(EMPTY, steps), t);
    HistoryIsAnyGate(Run(EMPTY, steps), u);
  }

  lemma {:induction false} LegalAt(s: State, facts: seq<Fact>, i: nat)
    requires AllLegal(s, facts) && i < |facts|
    ensures AllLegal(s, facts[..i]) && Legal(Replay(s, facts[..i]), facts[i])
  {
    LegalPrefix(s, facts, i + 1);
    assert facts[..i + 1][..i] == facts[..i];
  }

  /** Whatever operation activates a task, every task ACTIVE at that moment waits for a human. */
  lemma {:induction false} ActivationOnlyBehindGates(steps: seq<Step>, op: Operation, i: nat)
    requires i < |PlanOf(Run(EMPTY, steps), op).writes|
    requires PlanOf(Run(EMPTY, steps), op).writes[i].TaskActivated?
    ensures var s := Replay(Run(EMPTY, steps), PlanOf(Run(EMPTY, steps), op).writes[..i]);
      forall t | t in s.tasks && ActiveNow(s, t) :: WaitsForHuman(s, t)
  {
    RunConsistent(steps);
    PlanLegal(Run(EMPTY, steps), op);
    LegalAt(Run(EMPTY, steps), PlanOf(Run(EMPTY, steps), op).writes, i);
  }

  predicate Concerns(f: Fact, task: Id) {
    match f
    case SessionOpened(_, forTask, _) => forTask == Some(task)
    case SuccessorOpened(_, key) => key.task == task
    case SessionMoved(_, _, rotation) => rotation.Some? && rotation.value.task == task
    case AttemptStarted(t, _) => t == task
    case AttemptResumed(t, _, _) => t == task
    case AgentBound(b) => b.task == task
    case BindingRefused(root) => root.task == task
    case _ => false
  }

  predicate AllConcern(facts: seq<Fact>, task: Id) {
    forall f | f in facts :: Concerns(f, task)
  }

  lemma {:induction false} AllConcernJoin(first: seq<Fact>, second: seq<Fact>, task: Id)
    requires AllConcern(first, task) && AllConcern(second, task)
    ensures AllConcern(first + second, task)
  {
  }

  lemma {:induction false} RotationConcerns(s: State, task: Id, p: Provider)
    requires Lineage(s)
    ensures AllConcern(RotatePlan(s, task, p).writes, task)
  {
    var writes := RotatePlan(s, task, p).writes;
    if writes != [] {
      LatestIsLast(s, task);
      RotationPrefix(s, Latest(s, task).value, p, |writes|);
      assert writes[..|writes|] == writes;
      RotationPartsConcern(s, Latest(s, task).value, Created(s, p).value, writes);
    }
  }

  lemma {:induction false} RotationPartsConcern(s: State, a: Attempt, successor: Id, writes: seq<Fact>)
    requires a.session in s.sessions
    requires var moved := PredecessorWrites(s, a);
      || (writes == moved)
      || (writes == moved + [SuccessorOpened(successor, RotationKey(a))])
      || (writes == moved + [SuccessorOpened(successor, RotationKey(a))] + [AttemptResumed(a.task, successor, a.id)])
    ensures AllConcern(writes, a.task)
  {
    assert AllConcern(PredecessorWrites(s, a), a.task);
  }

  lemma {:induction false} RepairConcerns(s: State, a: Attempt, role: Id, p: Provider)
    requires Consistent(s) && Latest(s, a.task) == Some(a)
    ensures AllConcern(RepairPlan(s, a, role, p).writes, a.task)
  {
    var first := BindPlan(s, a, RoleOf(s, a, role)).writes;
    LatestIsLast(s, a.task);
    RepairWritesSplit(s, a, role, p);
    BindConcerns(s, a, RoleOf(s, a, role));
    RotationConcerns(Replay(s, first), a.task, p);
    AllConcernJoin(first, RotatePlan(Replay(s, first), a.task, p).writes, a.task);
  }

  lemma {:induction false} BindConcerns(s: State, a: Attempt, role: Id)
    requires Lineage(s) && Latest(s, a.task) == Some(a)
    ensures AllConcern(BindPlan(s, a, role).writes, a.task)
    ensures Lineage(Replay(s, BindPlan(s, a, role).writes))
  {
    LatestIsLast(s, a.task);
    BindWritesConcern(s, a, role);
    BindLegal(s, a, role);
    FactsKeepLineage(s, BindPlan(s, a, role).writes);
  }

  lemma {:induction false} BindWritesConcern(s: State, a: Attempt, role: Id)
    requires a.root.task == a.task
    ensures AllConcern(BindPlan(s, a, role).writes, a.task)
  {
  }

  lemma {:induction false} StartConcerns(s: State, task: Id, session: Id, role: Id, p: Provider)
    ensures AllConcern(StartPlan(s, task, session, role, p).writes, task)
  {
    var start := AttemptStarted(task, session);
    var bind := BindPlan(Apply(s, start), FirstAttempt(task, session), role).writes;
    BindWritesConcern(Apply(s, start), FirstAttempt(task, session), role);
    assert AllConcern([start], task);
    AllConcernJoin([start], bind, task);
  }

  lemma {:induction false} LaunchConcerns(s: State, task: Id, role: Id, p: Provider)
    ensures AllConcern(LaunchPlan(s, task, role, p).writes, task)
  {
    if LaunchSession(s, task, p).Some? {
      var session := LaunchSession(s, task, p).value;
      var opening := OpeningWrites(s, task, role, session);
      StartConcerns(Replay(s, opening), task, session, role, p);
      assert AllConcern(opening, task);
      AllConcernJoin(opening, StartPlan(Replay(s, opening), task, session, role, p).writes, task);
    }
  }

  /**
   While any ACTIVE task runs, a dispatch works on a running one: every write it makes concerns
   that task, so a branch whose gate was settled never preempts it.
   */
  lemma {:induction false} ResumeNeverPreempts(steps: seq<Step>, running: Id, role: Id, report: seq<Id>, p: Provider)
    requires Running(Run(EMPTY, steps), running)
    ensures var s := Run(EMPTY, steps);
      Target(s) == Some(running) && AllConcern(DispatchPlan(s, role, report, p).writes, running)
  {
    var s := Run(EMPTY, steps);
    RunConsistent(steps);
    TargetPriority(s);
    SingleRunnableSlot(steps, running, Target(s).value);
    if Latest(s, running).Some? {
      LatestIsLast(s, running);
      RepairConcerns(s, Latest(s, running).value, role, p);
    } else {
      LaunchConcerns(s, running, role, p);
    }
  }

  /**
   A gate that was settled without permitting the task to go on (rejected, cancelled, expired)
   still makes its branch resume-ready for the dispatcher, although no new gate of the task
   can be opened.
   */
  lemma {:induction false} BlockingGateStillResumes(s: State, id: Id, task: Id)
    requires Lineage(s) && GatesExact(s) && ActiveNow(s, task)
    requires id in s.gates && s.gates[id].task == task && s.gates[id].status == Settled(true)
    ensures ResumeReady(s, task)
    ensures forall k: Id, g: Gate | g.task == task :: !Accepts(s, GateOpened(k, g))
  {
    HistoryIsAnyGate(s, task);
    forall k: Id, g: Gate | g.task == task ensures !Accepts(s, GateOpened(k, g)) {
      if Accepts(s, GateOpened(k, g)) {
        OpenedGateInLineage(s, k, g);
        OpenedGateIsAlone(s, k, g);
        assert false;
      }
    }
  }

  /** Without a Target, every branch waits for a human, and only then is a ready task selected. */
  lemma {:induction false} IdleMeansWaiting(steps: seq<Step>)
    ensures var s := Run(EMPTY, steps);
      Target(s).None? <==> forall t | t in s.tasks && ActiveNow(s, t) :: WaitsForHuman(s, t)
  {
    RunConsistent(steps);
    TargetPriority(Run(EMPTY, steps));
  }

  /** The serial policy takes the first READY task of the report, and none only if none is READY. */
  lemma {:induction false} SelectedIsFirst(s: State, report: seq<Id>)
    ensures Selected(s, report).None? <==> forall i :: 0 <= i < |report| ==> !ReadyNow(s, report[i])
    ensures Selected(s, report).Some? ==>
      exists i :: 0 <= i < |report| && report[i] == Selected(s, report).value && ReadyNow(s, report[i])
                  && forall j :: 0 <= j < i ==> !ReadyNow(s, report[j])
  {
    if report != [] && !ReadyNow(s, report[0]) {
      SelectedIsFirst(s, report[1..]);
      assert forall i :: 0 <= i < |report| - 1 ==> report[1..][i] == report[i + 1];
      if Selected(s, report).Some? {
        var k :| 0 <= k < |report| - 1 && report[1..][k] == Selected(s, report).value && ReadyNow(s, report[1..][k])
                 && forall j :: 0 <= j < k ==> !ReadyNow(s, report[1..][j]);
        assert forall j :: 1 <= j < k + 1 ==> report[j] == report[1..][j - 1];
        assert report[k + 1] == Selected(s, report).value;
      } else {
        forall i | 0 <= i < |report| ensures !ReadyNow(s, report[i]) {
          assert i > 0 ==> report[i] == report[1..][i - 1];
        }
      }
    }
  }

  /** The session is open and was opened for the task. */
  predicate LeftOpen(s: State, session: Id, task: Id) {
    IsOpen(s, session) && s.sessions[session].task == Some(task)
  }

  /** The newest session an earlier launch left open for the task is used again; without one, none is found. */
  lemma {:induction false} LaunchReuses(s: State, order: seq<Id>, task: Id)
    ensures OpenSessionFor(s, order, task).None? <==> forall i :: 0 <= i < |order| ==> !LeftOpen(s, order[i], task)
    ensures OpenSessionFor(s, order, task).Some? ==>
      exists i :: 0 <= i < |order| && order[i] == OpenSessionFor(s, order, task).value && LeftOpen(s, order[i], task)
                  && forall j :: i < j < |order| ==> !LeftOpen(s, order[j], task)
  {
    if order != [] && !LeftOpen(s, order[|order| - 1], task) {
      var front := order[..|order| - 1];
      LaunchReuses(s, front, task);
      assert forall i :: 0 <= i < |front| ==> front[i] == order[i];
      if OpenSessionFor(s, order, task).Some? {
        var i :| 0 <= i < |front| && front[i] == OpenSessionFor(s, front, task).value && LeftOpen(s, front[i], task)
                 && forall j :: i < j < |front| ==> !LeftOpen(s, front[j], task);
        forall j | i < j < |order| ensures !LeftOpen(s, order[j], task) {
          assert j < |front| ==> front[j] == order[j];
        }
        assert order[i] == front[i];
      }
    }
  }
}
